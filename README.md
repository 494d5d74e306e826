# Ageis: a verified model of the eco-label layout and the dashboard's state rules

This project models the core of a React dashboard. The dashboard answers canned
queries about people, counties, a low-carbon trip and a hotel's eco-label
assessment, and draws one of three views beside a floating answer panel. The
model is written in Dafny and its properties are proved.

The primary core is the tree diagram the eco-label chart draws. It has three parts:

- **Text-height estimator** (`EcoLabelText`): a box's height comes from its
  text length, with a 60 px floor.
- **Slot pass** (`EcoLabelLayout.SlotPass`): every category (item) gets a
  vertical slot as tall as the larger of its own box and its stack of condition
  boxes. Slots are stacked with 50 px gaps.
- **Placement pass** (`EcoLabelLayout.EmitItems` and the methods below it):
  - the root circle is centred on the total height;
  - each item box is centred in its slot;
  - the conditions are placed around the item's centre. With an odd count the
    middle condition is centred on it; with an even count the whole stack is.
  - the visible boxes and their connectors are emitted.

`EcoLabelLayout.RenderLevelSection` runs the two passes the way the component
does: loops, a running total and an array of condition tops. It is proved equal
to `SectionOf`, a specification function. The properties are proved about
`SectionOf`.

Around the diagram the project models:

- **The application shell** (`App`):
  - the first-match query dispatch;
  - the canned answers and graphs;
  - the view choice;
  - the state that the query, new-query and typing-complete handlers overwrite.
- **The floating answer panel** (`FloatingQueryPanel`):
  - drag and resize clamping;
  - the found-before-clear order of the findings, as an in-place sort on an array;
  - the case and person lists of the risk details;
  - the label lookups;
  - the typewriter that reveals the summary one character per tick.
- **The route chooser** (`TransportRouteChoice`): a three-segment
  transport-selection state machine with a confirm lock.
- **The county map** (`GraphNetwork`):
  - the colour bands;
  - the legend and its national total;
  - the county table;
  - the tooltip position;
  - the texts of the tooltip and the information panel.

`JsString` gives `String.prototype.includes` over `seq<char>`.

The diagram's geometry (box heights, slots, positions and connectors) uses exact `real`. Pointer, window and tooltip coordinates are whole pixels (`int`). A text's length is its number of characters.

The files verify together with:
`dafny verify --resource-limit 2000000 --verification-time-limit 0 --warn-contradictory-assumptions *.dfy`.

### Where the layout differs from an idealised engine

The model follows the code, not an idealised layout engine. The differences:

- **Hidden conditions.** A cleaner engine would drop hidden conditions from
  the heights and re-centre the visible ones. The component instead computes
  heights and positions for every condition, so the odd/even rule follows the
  total number of conditions, and the visibility flags only remove boxes and
  connectors. Toggling a status therefore never changes the total height or
  any position (`VisibilityOnlyFilters`).
- **Characters per line.** The count is not clamped to at least 1. The
  estimator requires it, and both call sites meet the requirement
  (`ItemCharsPerLine`, `ConditionCharsPerLine`).
- **Empty stacks.** A stack with no conditions has height −20. The 60 px floor
  of the item box keeps the slot positive (`NoConditions`, `GroupHeightBounds`).
- **Slot containment, odd case.** Slots make item boxes disjoint
  (`SlotsOrdered`), and an even stack stays inside its slot (`EvenStackInSlot`).
  An odd stack does not have to: with uneven heights it can extend past its slot
  into the next one. Two short conditions and one of 139 characters already
  reach 7.4 px into the next slot (`OddStackCanLeaveSlot`).

## Model

| member | source | states |
|---|---|---|
| `EcoLabelText.Ceil` | src/components/EcoLabelChart.js:276 | `Math.ceil`: the least integer not below its argument |
| `EcoLabelText.CharsPerLine` | src/components/EcoLabelChart.js:273-275 | the most glyphs of width `fontSize * 16` that fit in `boxWidth − padding`: that many fit, one more does not |
| `EcoLabelText.LineCount` | src/components/EcoLabelChart.js:276 | the number of lines is the least count whose capacity of `lines * charsPerLine` holds the text |
| `EcoLabelText.LineCountMonotone` | src/components/EcoLabelChart.js:276 | a longer text never needs fewer lines |
| `EcoLabelText.LineHeight` | src/components/EcoLabelChart.js:277 | a positive font scale gives a positive line height |
| `EcoLabelText.WrappedHeight` | src/components/EcoLabelChart.js:278-280 | the height is at least 60 and at least the lines' height plus padding, and is one of the two |
| `EcoLabelText.EstimateBoxHeight` | src/components/EcoLabelChart.js:271-281 | `estimateBoxHeight` never returns less than 60; otherwise it returns exactly the wrapped lines' height plus padding |
| `EcoLabelText.EstimateMonotone` | src/components/EcoLabelChart.js:273-280 | for a fixed box, a longer text never gets a shorter box |
| `EcoLabelText.ItemCharsPerLine` | src/components/EcoLabelChart.js:289 | the item call site (280 px, scale 0.9, padding 32) fits 17 characters a line, so the estimator's requirement holds |
| `EcoLabelText.ConditionCharsPerLine` | src/components/EcoLabelChart.js:294 | the condition call site (350 px, scale 0.85, padding 32) fits 23 characters a line |
| `EcoLabelText.ItemBoxHeight` | src/components/EcoLabelChart.js:289 | an item box is at least 60 tall, and is 21.6 px per line of 17 characters plus 32 otherwise |
| `EcoLabelText.ConditionBoxHeight` | src/components/EcoLabelChart.js:293-295 | a condition box is at least 60 tall, and is 20.4 px per line of 23 characters plus 32 otherwise |
| `EcoLabelLayout.Toggle` | src/components/EcoLabelChart.js:180-185 | `toggleStatus` flips the flag of the given status and keeps the other two |
| `EcoLabelLayout.ConditionHeights` | src/components/EcoLabelChart.js:293-295 | one estimated height per condition, for every condition whatever its visibility, and each at least 60 |
| `EcoLabelLayout.GroupHeights` | src/components/EcoLabelChart.js:287-300 | one slot height per item, in item order, each at least its item box and at least its condition stack |
| `EcoLabelLayout.Infos` | src/components/EcoLabelChart.js:287-314 | `itemsInfo` holds one record per item with one condition height per condition, and the records tile the height: the first slot starts at 0, each later slot starts 50 px after the end of the one before, and the last ends at `totalHeight` |
| `EcoLabelLayout.ConditionHeightsByText` | src/components/EcoLabelChart.js:293-295 | two condition lists with the same texts get the same heights, whatever their statuses |
| `EcoLabelLayout.TotalHeight` | src/components/EcoLabelChart.js:311-314 | the slot heights plus one 50 px gap between each pair; `TotalHeightLast` and `Infos` state that it ends exactly at the bottom of the last slot |
| `EcoLabelLayout.SlotPass` | src/components/EcoLabelChart.js:283-315 | the first loop builds exactly the specified records and ends with `totalHeight` equal to the slot heights plus one gap between each pair of slots |
| `EcoLabelLayout.ConditionPositions` | src/components/EcoLabelChart.js:364-392 | the upward and downward loops (odd case) and the accumulator loop (even case) fill every condition top with its closed-form value |
| `EcoLabelLayout.EmitConditions` | src/components/EcoLabelChart.js:394-430 | the loop over conditions appends a box and a connector for exactly the visible conditions, in order |
| `EcoLabelLayout.EmitItem` | src/components/EcoLabelChart.js:325-431 | one item's pass appends its box and circle connector, then its visible conditions' boxes and connectors |
| `EcoLabelLayout.EmitItems` | src/components/EcoLabelChart.js:325-431 | the second loop emits every item's boxes and connectors, in item order |
| `EcoLabelLayout.RenderLevelSection` | src/components/EcoLabelChart.js:259-451 | the two passes return exactly the specified section: height `totalHeight + 50`, the centred circle carrying the level name, percentage and colour, the connectors and the boxes |
| `EcoLabelLayout.SectionOf` | src/components/EcoLabelChart.js:259-451 | the specified section; the lemmas below state its boxes (`ElementsExactly`), keys (`ElementsDistinct`), connectors (`ConnectorsMatchBoxes`), visibility behaviour and counts |
| `EcoLabelLayout.SlotStartStep` | src/components/EcoLabelChart.js:301-312 | every slot starts one slot height and one 50 px gap after the previous slot's start |
| `EcoLabelLayout.TotalHeightLast` | src/components/EcoLabelChart.js:309-313 | the total height ends exactly at the bottom of the last slot, with no trailing gap |
| `EcoLabelLayout.GroupHeightBounds` | src/components/EcoLabelChart.js:297-300 | a slot is the larger of its item box and its condition stack, and so is at least 60 tall |
| `EcoLabelLayout.NoConditions` | src/components/EcoLabelChart.js:297-300 | with no conditions the stack is −20 tall and the slot is the item box alone |
| `EcoLabelLayout.SlotsOrdered` | src/components/EcoLabelChart.js:301-313 | a later slot starts at least one gap below the end of any earlier slot, so slots never overlap |
| `EcoLabelLayout.CircleCentred` | src/components/EcoLabelChart.js:318-349 | the root circle's centre `circleY + 75` is half the total height |
| `EcoLabelLayout.ItemBoxInSlot` | src/components/EcoLabelChart.js:331-333 | the item box lies inside its slot, and its centre is the slot's centre |
| `EcoLabelLayout.TopStep` | src/components/EcoLabelChart.js:375-391 | for either parity, each condition box starts one height and one 20 px gap below the box above it |
| `EcoLabelLayout.FirstTop` | src/components/EcoLabelChart.js:364-392 | the first condition top: for an odd count the one that centres the middle box on the item (`OddMiddleCentred`), for an even count half the stack above the item centre (`EvenBlockCentred`) |
| `EcoLabelLayout.Top` | src/components/EcoLabelChart.js:364-392 | condition `j` starts at the first top plus the heights and 20 px gaps above it; `TopStep` states the one-box step and `ConditionPositions` that the loops compute it |
| `EcoLabelLayout.OddMiddleCentred` | src/components/EcoLabelChart.js:368-372 | with an odd count, the centre of condition `floor(n/2)` is exactly the item's centre |
| `EcoLabelLayout.EvenBlockCentred` | src/components/EcoLabelChart.js:382-391 | with an even count, the first top is half the stack above the item centre and the last bottom is half the stack below it |
| `EcoLabelLayout.EvenStackInSlot` | src/components/EcoLabelChart.js:382-391 | with an even count, the condition stack lies inside the item's slot |
| `EcoLabelLayout.OddStackCanLeaveSlot` | src/components/EcoLabelChart.js:368-381 | for the items `x` (conditions `a`, `b` and a 139-character text) and `y` (no conditions), the first stack is 60, 60 and 174.8 px, its slot is 334.8 tall and centred at 167.4, and its last box ends at 392.2, past the start of the next slot at 384.8 |
| `EcoLabelLayout.ElementsExactly` | src/components/EcoLabelChart.js:325-430 | the section holds one box for every item, and a box for a condition exactly when its status is visible |
| `EcoLabelLayout.ItemPlaced` | src/components/EcoLabelChart.js:331-341 | an emitted item box sits at the centred top with the estimated height |
| `EcoLabelLayout.ConditionPlaced` | src/components/EcoLabelChart.js:394-410 | an emitted condition box sits at its odd/even placement top with the estimated height |
| `EcoLabelLayout.ElementsDistinct` | src/components/EcoLabelChart.js:336-407 | no element key (`item-…-idx`, `condition-…-idx-condIdx`) is emitted twice |
| `EcoLabelLayout.ConnectorsMatchBoxes` | src/components/EcoLabelChart.js:347-428 | the a-th connector leads into the a-th box. Item connectors run from (150, total height/2) to the box's left midpoint; condition connectors run from (480, the item's centre) to the condition box's left midpoint |
| `EcoLabelLayout.VisibilityOnlyFilters` | src/components/EcoLabelChart.js:394-397 | changing the visibility flags changes neither the height nor the circle; an item box, or a condition box visible under both settings, is the same box |
| `EcoLabelLayout.HidingRemovesExactly` | src/components/EcoLabelChart.js:394-397 | hiding a shown status removes exactly that status's condition boxes and keeps every other box |
| `EcoLabelLayout.SectionSize` | src/components/EcoLabelChart.js:325-430 | a section has one box per item plus one per visible condition, and one connector per box |
| `EcoLabelChart.BronzeStatuses` | src/components/EcoLabelChart.js:205-257 | the bronze data's six categories, their condition counts and every condition's status |
| `EcoLabelChart.BronzeVisibleCount` | src/components/EcoLabelChart.js:205-257 | for any flags, the bronze data shows 8 conditions if completed is shown, plus 5 if priority is, plus 2 if incomplete is |
| `EcoLabelChart.BronzeSectionSize` | src/components/EcoLabelChart.js:459 | with every status shown, the bronze section draws 21 boxes |
| `EcoLabelChart.BronzeHidingIncomplete` | src/components/EcoLabelChart.js:479 | hiding the incomplete status leaves 19 boxes |
| `EcoLabelChart.Chart.constructor` | src/components/EcoLabelChart.js:174-178 | every status starts shown |
| `EcoLabelChart.Chart.ToggleStatus` | src/components/EcoLabelChart.js:180-185 | a legend click replaces the flags by their toggle |
| `EcoLabelChart.Chart.Render` | src/components/EcoLabelChart.js:188-203 | until visible only the loading notice is drawn; once visible, the bronze section for the current flags |
| `App.FirstMatchWins` | src/App.js:124-127 | a query naming 張小華 gets 張小華's answer whatever else it names |
| `App.PersonBeforeTopics` | src/App.js:124-143 | a query naming 張小華 or ABC投資公司 never gets a topic answer |
| `App.FlagsFollowBranches` | src/App.js:124-143 | each topic flag is set exactly when its branch (縣市 and 永續; 逢甲 and 駁二; 環保標章 or 客房) is the first that matches |
| `App.FlagsExclusive` | src/App.js:538-615 | an answer carries at most one topic flag |
| `App.TopicAnswersBare` | src/App.js:538-615 | a topic answer has no findings, a low risk and no recommendation |
| `App.PersonAnswersComplete` | src/App.js:147-324 | an answer without a flag has five findings from the five sources in a fixed order, and a high or medium risk |
| `App.ZhangXiaoHuaLinksJoin` | src/App.js:344-381 | every link of 張小華's graph joins two of its nodes |
| `App.AbcCompanyLinksJoin` | src/App.js:384-421 | every link of ABC投資公司's graph joins two of its nodes |
| `App.WangLiRelationshipLinksJoin` | src/App.js:424-464 | every link of the 王小明 and 李大華 graph joins two of its nodes |
| `App.ChenXiaoWeiLinksJoin` | src/App.js:467-504 | every link of 陳曉偉's graph joins two of its nodes |
| `App.DefaultLinksJoin` | src/App.js:507-535 | every link of the default graph joins two of its nodes, whatever the extracted name |
| `App.GeneratedLinksJoinNodes` | src/App.js:327-341 | whatever the query, each link's source and target is the id of some node of the generated graph |
| `App.ZhangXiaoHuaNamed` | src/App.js:149 | the person at the centre of 張小華's graph is named in the summary |
| `App.AbcCompanyNamed` | src/App.js:185 | the person at the centre of ABC投資公司's graph is named in its summary |
| `App.WangLiRelationshipNamed` | src/App.js:221 | both persons of the 王小明 and 李大華 graph are named in its summary |
| `App.ChenXiaoWeiNamed` | src/App.js:257 | the person at the centre of 陳曉偉's graph is named in its summary |
| `App.DefaultNamed` | src/App.js:293 | the extracted name at the centre of the default graph is named in the default summary |
| `App.GraphFollowsResult` | src/App.js:327-341 | the graph follows the same four person branches in the same order, so every person node of the graph of a person answer is named in that answer |
| `App.ViewOfQuery` | src/App.js:99-105 | the eco-label chart is shown exactly for an eco-label query, the route chooser exactly for a route query, and the map otherwise |
| `App.MockQueryResult` | src/App.js:124-144 | the branches are tried in order and the first match answers: `FirstMatchWins`, `PersonBeforeTopics` and `FlagsFollowBranches` state the order, `TopicAnswersBare` and `PersonAnswersComplete` what each kind of answer holds |
| `App.MockGraphData` | src/App.js:327-341 | the same four person branches, else the default graph; every link joins two nodes (`GeneratedLinksJoinNodes`) and the person nodes are named in the answer (`GraphFollowsResult`) |
| `App.ViewOf` | src/App.js:98-104 | the chart for an eco-label answer, else the route chooser for a route answer, else the map; `ViewOfQuery` states it per query kind in both directions |
| `App.AppState.CurrentScreen` | src/App.js:94-112 | the form while `showQueryInterface`, else the answer's view and the panel exactly when there is an answer; each handler's contract states the screen it leaves |
| `App.AppState.constructor` | src/App.js:53-57 | the app starts on an empty form, with no answer, no graph and the map hidden |
| `App.AppState.HandleQuery` | src/App.js:60-63 | `handleQuery` stores the query and hides the form and the map, keeping the answer and the graph; the screen shows the old answer's view with the map hidden |
| `App.AppState.AnswerArrives` | src/App.js:66-73 | the delayed step stores the answer and the graph for the query and nothing else; off the form, the screen shows the view of the new answer and the panel |
| `App.AppState.HandleNewQuery` | src/App.js:76-82 | `handleNewQuery` restores the form, the empty query, no answer, no graph and the hidden map |
| `App.AppState.HandleTypingComplete` | src/App.js:85-87 | `handleTypingComplete` only makes the map visible, so a results screen shows the map |
| `FloatingQueryPanel.Clamp` | src/components/FloatingQueryPanel.js:380-381 | `Math.max(0, Math.min(v, limit))` lies between 0 and `max(0, limit)`, returns an in-range value unchanged, and otherwise returns one of the two ends |
| `FloatingQueryPanel.InitialDrag` | src/components/FloatingQueryPanel.js:304-306 | the panel starts 490 px from the right edge and 20 px from the top, not dragging |
| `FloatingQueryPanel.MouseDown` | src/components/FloatingQueryPanel.js:360-368 | a press outside the controls starts a drag and stores the pointer's offset (`PressThenStillMove`); a press on the controls does not (`ControlsDoNotDrag`) |
| `FloatingQueryPanel.MouseMove` | src/components/FloatingQueryPanel.js:371-384 | while dragging the corner follows the pointer, clamped to the window (`MoveBounds`, `MoveInBounds`); without a drag nothing moves (`MoveNeedsPress`) |
| `FloatingQueryPanel.MouseUp` | src/components/FloatingQueryPanel.js:387-389 | a release ends the drag, after which moves are ignored (`MoveNeedsPress`) |
| `FloatingQueryPanel.Resize` | src/components/FloatingQueryPanel.js:406-413 | caps the corner without raising it (`ResizeCaps`), keeps a fitting panel (`ResizeKeepsFitting`), and has no 0 clamp (`ResizeCanPassLeftEdge`) |
| `FloatingQueryPanel.MoveBounds` | src/components/FloatingQueryPanel.js:371-383 | a move while dragging keeps x in `[0, max(0, innerWidth−450)]` and y in `[0, max(0, innerHeight−100)]` |
| `FloatingQueryPanel.MoveInBounds` | src/components/FloatingQueryPanel.js:374-383 | an in-bounds proposed corner is taken unchanged |
| `FloatingQueryPanel.MoveNeedsPress` | src/components/FloatingQueryPanel.js:371-389 | moves are ignored unless dragging; after a release they are ignored again |
| `FloatingQueryPanel.PressThenStillMove` | src/components/FloatingQueryPanel.js:360-383 | a press stores the pointer's offset, so a move at the same pointer leaves an in-bounds panel where it was |
| `FloatingQueryPanel.ControlsDoNotDrag` | src/components/FloatingQueryPanel.js:360-361 | a press on the controls never starts a drag |
| `FloatingQueryPanel.ResizeCaps` | src/components/FloatingQueryPanel.js:406-413 | a resize never increases x or y, and caps them at `innerWidth−450` and `innerHeight−100` |
| `FloatingQueryPanel.ResizeKeepsFitting` | src/components/FloatingQueryPanel.js:406-413 | a panel that already fits is not moved by a resize |
| `FloatingQueryPanel.ResizeCanPassLeftEdge` | src/components/FloatingQueryPanel.js:406-413 | unlike a move, a resize does not clamp at 0: a 400 px window puts the corner at x = −50 |
| `FloatingQueryPanel.LabelsFallBack` | src/components/FloatingQueryPanel.js:420-435 | a label equals its key exactly for the unknown keys; distinct keys of the same kind (both known or both unknown) get distinct labels |
| `FloatingQueryPanel.RiskLevelLabel` | src/components/FloatingQueryPanel.js:420-427 | high, medium and low become 高風險, 中等風險 and 低風險, and any other level is shown as itself (`LabelsFallBack`) |
| `FloatingQueryPanel.StatusLabel` | src/components/FloatingQueryPanel.js:429-435 | found and clear become 發現 and 無紀錄, and any other status is shown as itself (`LabelsFallBack`) |
| `FloatingQueryPanel.Compare` | src/components/FloatingQueryPanel.js:561-566 | the comparator is −1 exactly for a found finding against a clear one, 1 exactly for a clear one against a found one, and 0 for every other pair |
| `FloatingQueryPanel.CompareAntisymmetric` | src/components/FloatingQueryPanel.js:561-566 | swapping the arguments negates the comparison |
| `FloatingQueryPanel.Insert` | src/components/FloatingQueryPanel.js:560-566 | walks back over the trailing elements that compare greater than `x` and puts `x` before them: the multiset is kept (`InsertPermutes`), and a found finding lands after the found ones, a clear one last (`InsertFound`, `InsertClear`) |
| `FloatingQueryPanel.Sorted` | src/components/FloatingQueryPanel.js:560-566 | the stable sort by the comparator: a permutation (`SortPermutes`), found then clear in original order (`SortSplits`), and idempotent (`SortIdempotent`) |
| `FloatingQueryPanel.SortPermutes` | src/components/FloatingQueryPanel.js:560-566 | sorting only reorders: the same findings, each as often |
| `FloatingQueryPanel.SortSplits` | src/components/FloatingQueryPanel.js:560-566 | when every status is found or clear (true of every answer, `AnswersFoundOrClear`), the found findings come first and the clear ones after, each group in its original order (ties stay put) |
| `FloatingQueryPanel.FoundBeforeClear` | src/components/FloatingQueryPanel.js:560-566 | when every status is found or clear (`AnswersFoundOrClear`), after the sort no clear finding precedes a found one |
| `FloatingQueryPanel.SortIdempotent` | src/components/FloatingQueryPanel.js:560-566 | when every status is found or clear (`AnswersFoundOrClear`), sorting again on the next render changes nothing |
| `FloatingQueryPanel.AnswersFoundOrClear` | src/App.js:146-322 | every finding of every canned answer has status found or clear, so the sort lemmas apply to every answer the program shows |
| `FloatingQueryPanel.SortFindings` | src/components/FloatingQueryPanel.js:560-566 | the in-place sort of the findings array leaves exactly the specified stable order |
| `FloatingQueryPanel.ShiftBack` | src/components/FloatingQueryPanel.js:560-566 | shifts the elements that compare greater than `x` one place right and returns where `x` goes |
| `FloatingQueryPanel.InsertInto` | src/components/FloatingQueryPanel.js:560-566 | one insertion step on the array: its first `i + 1` elements become the insertion of `a[i]` into the first `i`, and the rest are unchanged |
| `FloatingQueryPanel.TestedMembers` | src/components/FloatingQueryPanel.js:445-450 | an entry is added by the keyword tests exactly when its keyword occurs in the content |
| `FloatingQueryPanel.TestedDistinct` | src/components/FloatingQueryPanel.js:445-450 | each entry is added at most once per finding |
| `FloatingQueryPanel.FindingEntriesMembers` | src/components/FloatingQueryPanel.js:443-451 | a finding adds entries only when it is a found record of 法院判決書系統, and then one per keyword it contains |
| `FloatingQueryPanel.CaseEntriesMembers` | src/components/FloatingQueryPanel.js:443-452 | an entry is in `cases` exactly when some finding adds it |
| `FloatingQueryPanel.OnlyCourtHitsCount` | src/components/FloatingQueryPanel.js:444 | a finding that is not a found court-judgment record leaves `cases` unchanged |
| `FloatingQueryPanel.RelatedPersons` | src/components/FloatingQueryPanel.js:455-463 | the persons list is empty exactly when no query branch matches, and has three names otherwise |
| `FloatingQueryPanel.PersonsFirstMatch` | src/components/FloatingQueryPanel.js:455-456 | a query naming 張小華 lists 張小華's three people whatever else it names |
| `FloatingQueryPanel.FindingCases` | src/components/FloatingQueryPanel.js:444-451 | the six tests on one finding add exactly that finding's entries, in keyword order |
| `FloatingQueryPanel.RiskDetails` | src/components/FloatingQueryPanel.js:438-466 | `generateRiskDetails` returns the entries of the findings in order, and the persons of the first matching branch |
| `FloatingQueryPanel.TickKeepsPrefix` | src/components/FloatingQueryPanel.js:338-341 | while typing, the text shown stays the summary's prefix up to the index, and each tick advances the index by one |
| `FloatingQueryPanel.TickCompletes` | src/components/FloatingQueryPanel.js:342-350 | the tick after the last character stops typing and fires the completion callback, and the next tick fires nothing |
| `FloatingQueryPanel.EffectStarts` | src/components/FloatingQueryPanel.js:319-333 | a new non-empty summary starts typing from the empty text at index 0 |
| `FloatingQueryPanel.TicksType` | src/components/FloatingQueryPanel.js:338-341 | after k ticks from the start, exactly the first k characters are shown |
| `FloatingQueryPanel.TypesWholeSummary` | src/components/FloatingQueryPanel.js:319-357 | a summary of n characters is shown whole after n ticks, and the next tick completes; the same summary is never typed again |
| `FloatingQueryPanel.EmptySummaryIgnored` | src/components/FloatingQueryPanel.js:320 | the effect does nothing for an empty summary |
| `FloatingQueryPanel.Effect` | src/components/FloatingQueryPanel.js:319-336 | a new non-empty summary restarts typing from empty (`EffectStarts`); a completed summary is not typed again (`TypesWholeSummary`); an empty one is ignored (`EmptySummaryIgnored`) |
| `FloatingQueryPanel.Tick` | src/components/FloatingQueryPanel.js:338-351 | one interval tick shows one more character (`TickKeepsPrefix`), or, at the end, stops and fires the completion once (`TickCompletes`) |
| `FloatingQueryPanel.Cleanup` | src/components/FloatingQueryPanel.js:353-356 | the effect's cleanup stops the interval and clears the typing flag; `Panel.SummaryChanged` runs it before the next effect |
| `FloatingQueryPanel.Panel.constructor` | src/components/FloatingQueryPanel.js:303-316 | the panel starts expanded, at the initial corner, with the typewriter idle |
| `FloatingQueryPanel.Panel.ToggleMinimized` | src/components/FloatingQueryPanel.js:482 | the minimise button flips only the minimised flag |
| `FloatingQueryPanel.Panel.HandleMouseDown` | src/components/FloatingQueryPanel.js:360-368 | a press updates only the drag state, by the press step |
| `FloatingQueryPanel.Panel.HandleMouseMove` | src/components/FloatingQueryPanel.js:371-384 | a move updates only the drag state, by the clamped move step |
| `FloatingQueryPanel.Panel.HandleMouseUp` | src/components/FloatingQueryPanel.js:387-389 | a release ends the drag and changes nothing else |
| `FloatingQueryPanel.Panel.HandleResize` | src/components/FloatingQueryPanel.js:406-413 | a resize updates only the position, by the resize step |
| `FloatingQueryPanel.Panel.SummaryChanged` | src/components/FloatingQueryPanel.js:319-357 | a new summary cleans up the previous interval, then runs the effect |
| `FloatingQueryPanel.Panel.TypingTick` | src/components/FloatingQueryPanel.js:338-351 | one interval tick updates only the typewriter, and reports whether the completion callback fired |
| `TransportRouteChoice.SelectChangesOneSegment` | src/components/TransportRouteChoice.js:312-317 | selecting sets the chosen segment and leaves the other two unchanged |
| `TransportRouteChoice.Select` | src/components/TransportRouteChoice.js:312-317 | the spread update of one segment: that segment takes the new mode and the others keep theirs (`SelectChangesOneSegment`) |
| `TransportRouteChoice.Offered` | src/components/TransportRouteChoice.js:356-437 | each segment offers its default option first, and that option is the only default |
| `TransportRouteChoice.OfferedModes` | src/components/TransportRouteChoice.js:356-437 | segment 1 offers bus, taxi and bike; segment 2 high-speed rail; segment 3 metro and taxi |
| `TransportRouteChoice.EditingShowsAll` | src/components/TransportRouteChoice.js:356-437 | while editing, every offered button is drawn, and exactly the selected one is marked selected |
| `TransportRouteChoice.ConfirmedShowsSelection` | src/components/TransportRouteChoice.js:356-437 | once confirmed, a segment shows exactly its selected option, marked selected and not recommended |
| `TransportRouteChoice.RecommendedUnlessSelected` | src/components/TransportRouteChoice.js:356-437 | the default button is flagged recommended exactly when another type is selected, and no other button is |
| `TransportRouteChoice.Shown` | src/components/TransportRouteChoice.js:356-437 | while editing, every option with its selected and recommended marks (`ShownEditing`); once confirmed, only the selected option (`ShownConfirmed`, `ShownNone`) |
| `TransportRouteChoice.Render` | src/components/TransportRouteChoice.js:288-335 | the itinerary is drawn exactly when visible and the chosen plan is public transport; the loading notice exactly when not visible |
| `TransportRouteChoice.ConfirmLocks` | src/components/TransportRouteChoice.js:360-432 | while confirmed, an option click changes nothing |
| `TransportRouteChoice.ClearRestores` | src/components/TransportRouteChoice.js:319-326 | 清除 restores the three defaults and unlocks, and keeps the plan |
| `TransportRouteChoice.ConfirmThenEdit` | src/components/TransportRouteChoice.js:328-332 | 確定 locks and 返回編輯 unlocks, neither touching the selections; 返回編輯 undoes 確定 |
| `TransportRouteChoice.RouteScreens` | src/components/TransportRouteChoice.js:305-310 | choosing the car plan stays on the plan screen; public transport opens the itinerary |
| `TransportRouteChoice.InitialScreen` | src/components/TransportRouteChoice.js:279-286 | the initial state draws the plan screen, and its default selections are offered types |
| `TransportRouteChoice.OptionClickOffered` | src/components/TransportRouteChoice.js:356-437 | a click on a drawn button selects a type the segment offers |
| `TransportRouteChoice.StepKeepsValid` | src/components/TransportRouteChoice.js:305-332 | every click the screen offers keeps each segment on one of its offered types |
| `TransportRouteChoice.Step` | src/components/TransportRouteChoice.js:305-332 | the event handlers as one transition: option clicks are ignored while confirmed (`ConfirmLocks`), 清除 restores the defaults (`ClearRestores`), 確定 and 返回編輯 lock and unlock (`ConfirmThenEdit`), and every offered click keeps valid selections (`StepKeepsValid`) |
| `TransportRouteChoice.ReachableSelections` | src/components/TransportRouteChoice.js:279-332 | whatever sequence of offered clicks is made, segment 1 stays bus, taxi or bike, segment 2 high-speed rail, and segment 3 metro or taxi |
| `TransportRouteChoice.ConfirmedItinerary` | src/components/TransportRouteChoice.js:335-483 | the confirmed itinerary shows each segment's selection and nothing else |
| `TransportRouteChoice.RouteChooser.constructor` | src/components/TransportRouteChoice.js:279-286 | no plan, bus, high-speed rail and metro, unconfirmed |
| `TransportRouteChoice.RouteChooser.HandleRouteClick` | src/components/TransportRouteChoice.js:305-310 | a plan card click records the plan and hands it to the callback, when there is one |
| `TransportRouteChoice.RouteChooser.HandleTransportSelect` | src/components/TransportRouteChoice.js:312-317 | overwrites one segment's transport, and nothing else |
| `TransportRouteChoice.RouteChooser.OptionClicked` | src/components/TransportRouteChoice.js:360 | an option button selects only while unconfirmed |
| `TransportRouteChoice.RouteChooser.HandleClear` | src/components/TransportRouteChoice.js:319-326 | the state becomes the 清除 step of the old state |
| `TransportRouteChoice.RouteChooser.HandleConfirm` | src/components/TransportRouteChoice.js:328-332 | the state becomes the 確定 step of the old state |
| `TransportRouteChoice.RouteChooser.HandleEdit` | src/components/TransportRouteChoice.js:472 | the state becomes the 返回編輯 step of the old state |
| `GraphNetwork.MedalsAddUp` | src/components/GraphNetwork.js:172-195 | the table has 22 counties, and each county's total is its gold, silver and bronze counts added |
| `GraphNetwork.TotalMatchesLegend` | src/components/GraphNetwork.js:172-195 | the table's totals add up to the 189 the legend prints (line 485) |
| `GraphNetwork.TopThree` | src/components/GraphNetwork.js:173-175 | 台北市 28, 桃園市 22 and 高雄市 18 lead, and every other county has fewer than 18 |
| `GraphNetwork.SummaryListsThree` | src/App.js:540-546 | the county answer lists 臺北市 28間, 桃園市 22間 and 高雄市 18間, the table's top three |
| `GraphNetwork.TaipeiTitle` | src/components/GraphNetwork.js:419 | the title for a feature named 臺北市 is the table's 台北市 |
| `GraphNetwork.GetColor` | src/components/GraphNetwork.js:245-250 | 20 and up is #2ecc71, 10–19 #3498db, 5–9 #95a5a6, below 5 #7f8c8d |
| `GraphNetwork.LegendRanges` | src/components/GraphNetwork.js:198-203 | the four range texts read as the bands 20+, 10–19, 5–9 and 0–4 |
| `GraphNetwork.ParseRange` | src/components/GraphNetwork.js:198-203 | reads a legend range text `a+` or `a-b` as its band; `LegendRanges` states the four texts' bands |
| `GraphNetwork.IndexOf` | src/components/GraphNetwork.js:198-203 | the first position of a character in a range text, or none exactly when it does not occur |
| `GraphNetwork.LegendBand` | src/components/GraphNetwork.js:198-203 | the band of each legend entry is the one its range text names |
| `GraphNetwork.LegendMatchesColors` | src/components/GraphNetwork.js:198-250 | every total in a legend entry's band is filled with that entry's colour |
| `GraphNetwork.LegendCovers` | src/components/GraphNetwork.js:198-203 | every total from 0 up lies in some legend band |
| `GraphNetwork.LegendDisjoint` | src/components/GraphNetwork.js:198-203 | no total lies in two legend bands |
| `GraphNetwork.Merge` | src/components/GraphNetwork.js:221-234 | the merged feature keeps its county name |
| `GraphNetwork.Lookup` | src/components/GraphNetwork.js:221-234 | the table entry with the feature's name, or none exactly when no entry has that name |
| `GraphNetwork.OrZero` | src/components/GraphNetwork.js:306 | `value \|\| 0`: a missing count reads as 0, a present one as itself |
| `GraphNetwork.Fill` | src/components/GraphNetwork.js:306 | `getColor(hotels \|\| 0)`: a table county by its band (`MergedFill`), a feature without a total like 0 (`MissingCountsDarkest`) |
| `GraphNetwork.MissingCountsDarkest` | src/components/GraphNetwork.js:306-363 | a feature without a total is filled #7f8c8d, like a county with 0 |
| `GraphNetwork.MergedFill` | src/components/GraphNetwork.js:221-306 | a feature named by a table key gets that county's total and is filled by its band |
| `GraphNetwork.NoTaiKey` | src/components/GraphNetwork.js:171-195 | no table key starts with 臺 |
| `GraphNetwork.TaiSpellingNotFound` | src/components/GraphNetwork.js:221-234 | a feature named 臺北市 finds no table entry and is filled #7f8c8d |
| `GraphNetwork.ReplaceFirst` | src/components/GraphNetwork.js:419 | `replace` with a one-character pattern changes only that character's first occurrence |
| `GraphNetwork.DisplayName` | src/components/GraphNetwork.js:419 | the title with its first 臺 written 台, so the summary's 臺北市 reads as the table's 台北市 (`TaipeiTitle`) |
| `GraphNetwork.RegionLabel` | src/components/GraphNetwork.js:466-469 | north, central, south and east map to 北部, 中部, 南部 and 東部, and exactly every other value maps to 離島 |
| `GraphNetwork.TooltipPosition` | src/components/GraphNetwork.js:324-325 | the tooltip corner lies at most at `innerWidth − 260` and at least at 50; it is right of and above the pointer when that fits |
| `GraphNetwork.FiguresOfTable` | src/components/GraphNetwork.js:444-463 | for a table county the printed figures are its own, and the printed total is their sum |
| `GraphNetwork.FiguresOf` | src/components/GraphNetwork.js:424-463 | the printed title and counts, each missing count as 0; for a table county they are its own and the total is their sum (`FiguresOfTable`) |
| `GraphNetwork.InfoPanel` | src/components/GraphNetwork.js:385-474 | the panel describes the hovered county, else the selected one; it shows its figures and region only when it has a total |
| `GraphNetwork.PanelOfTable` | src/components/GraphNetwork.js:443-474 | hovering a table county puts its own figures and region in the panel |
| `GraphNetwork.Tooltip` | src/components/GraphNetwork.js:409-440 | the tooltip is drawn exactly while a county is hovered, and prints the figures of that county |
| `GraphNetwork.TooltipOfTable` | src/components/GraphNetwork.js:409-440 | hovering a table county prints that county's own table figures in the tooltip |
| `JsString.Includes` | src/App.js:126-143 | `query.includes(t)`: `t` occurs at some position of the query; `IncludesAt` and `IncludesParts` give the occurrences the dispatch lemmas use |

## Left out

- **Asynchronous plumbing.** The 1.5 s `setTimeout` of `handleQuery`, the typewriter's `setInterval` and the document and window listener wiring are not modelled. The model keeps each event's state step: `AnswerArrives`, `TypingTick`, and the `Panel` handlers with window sizes as parameters.
  - An answer that arrives after `handleNewQuery` still overwrites the state, as in the code. No lemma says it does not.
- **`extractPersonName`.** It is a JavaScript regular expression. The default answer and graph take the extracted name as a parameter.
- **The map's I/O and drawing.** Not modelled: the GeoJSON download, the d3 projection, zoom, the drawing of paths, and the click handler that recolours the selected path. The `forEach` that merges the table into the features is modelled one feature at a time (`Merge`), by the county name it reads.
  - For a feature outside the table, the title falls back to `COUNTYNAME`. The model takes both names to be the same.
  - The graph data that App passes to the map component is never read there.
- **Presentation.** Not modelled: styled-components CSS, the JSX trees, the theme, the minimised panel's layout, the QR code of the confirmed itinerary (a foreign library), the header and the query form. The `levelKey` prefix of the React keys is left out: one section is drawn, so keys are compared within it.
- **Floating point.** The estimator and the diagram's positions use exact reals, not IEEE-754 doubles. The panel's pointer and window coordinates and the map's tooltip coordinates are whole pixels: a fractional `clientX` or `pageX` is not modelled.
- **String length.** It counts characters, not UTF-16 code units. The two differ for characters outside the Basic Multilingual Plane. The low-carbon route summary contains such emoji (📍, 🏨, 🎉), so for that answer the browser's typewriter takes two ticks per emoji where the model takes one.
- **Label lookups.** They compare against the known keys. JavaScript's object lookup would also hit prototype keys such as `constructor`.
- **`SortFindings`.** `Array.prototype.sort` is modelled as a stable insertion sort on an array. Stability is what the language standard has required of `sort` since 2019.
- **`TransportRouteChoice.RouteChooser.HandleRouteClick`.** It returns the route it would hand to `onRouteSelect` instead of calling it. App passes no callback, so nothing is handed on.
- **`EcoLabelText.EstimateBoxHeight`.** It requires at least one character per line. The code does not clamp that count, and its two call sites satisfy the requirement.
- **`EcoLabelLayout.OddStackCanLeaveSlot`.** The model does not prove that an odd condition stack stays inside its slot, because the code does not guarantee it. The lemma names two items for which the stack leaves the slot: a category with two one-line conditions and one of 139 characters, followed by any other category.
- **`GraphNetwork.TaiSpellingNotFound`.** The table writes 台, the county-statistics answer writes 臺, and a comment beside the table says the GeoJSON uses 臺. Whether the downloaded file uses 臺 is not part of this model, so the lemma only states what happens to a 臺-spelled name.
