/**
 * The tree-diagram layout of the eco-label chart (`renderLevelSection`).
 *
 * A level has a root circle, a column of items (categories) and, for each
 * item, a column of conditions (leaves).  The first pass gives every item a
 * vertical slot as tall as the larger of its own box and its stack of
 * condition boxes, and stacks the slots with a 50 px gap.  The second pass
 * centres the root circle on the total height, centres each item box in its
 * slot, places the conditions around the item's centre (odd count: the middle
 * condition is centred on it; even count: the whole stack is), and emits the
 * boxes and connector lines.  Heights and positions are computed for every
 * condition; the visibility flags only decide which condition boxes and
 * connectors are emitted.
 */
module EcoLabelLayout {
  import opened EcoLabelText

  // ---------------------------------------------------------------------
  // Data model

  datatype Status = Completed | Priority | Incomplete

  datatype Condition = Condition(text: string, status: Status)

  datatype Item = Item(name: string, conditions: seq<Condition>)

  /** The data of one level: its title, completion percentage, colour and items. */
  datatype LevelData = LevelData(level: string, percentage: string, color: string, items: seq<Item>)

  /** `visibleStatuses`: one flag per status class. */
  datatype Visibility = Visibility(completed: bool, priority: bool, incomplete: bool)

  predicate IsVisible(v: Visibility, s: Status) {
    match s
    case Completed => v.completed
    case Priority => v.priority
    case Incomplete => v.incomplete
  }

  /** The initial state of the chart: every status class is shown. */
  const AllVisible := Visibility(true, true, true)

  /** `toggleStatus(status)`: flip the one flag of `s`. */
  function Toggle(v: Visibility, s: Status): (r: Visibility)
    ensures IsVisible(r, s) == !IsVisible(v, s)
    ensures forall t :: t != s ==> IsVisible(r, t) == IsVisible(v, t)
  {
    match s
    case Completed => v.(completed := !v.completed)
    case Priority => v.(priority := !v.priority)
    case Incomplete => v.(incomplete := !v.incomplete)
  }

  /** Keys of the emitted boxes and connectors (`item-…-idx`, `condition-…-idx-condIdx`). */
  datatype Key = ItemKey(item: nat) | ConditionKey(item: nat, cond: nat)

  /** An absolutely positioned box of the diagram. */
  datatype Element =
    | ItemBox(item: nat, x: real, y: real, height: real, text: string)
    | ConditionBox(item: nat, cond: nat, x: real, y: real, height: real, status: Status, text: string)
  {
    function Key(): Key {
      match this
      case ItemBox(i, _, _, _, _) => ItemKey(i)
      case ConditionBox(i, j, _, _, _, _, _) => ConditionKey(i, j)
    }
  }

  /** A straight connector `M x1 y1 L x2 y2`, keyed by the box it leads to. */
  datatype Path = Path(key: Key, x1: real, y1: real, x2: real, y2: real)

  /**
   * What one level section renders: its height, the completion circle (its
   * position, and the level name and percentage it prints in the level's
   * colour), the connectors and the boxes.
   */
  datatype Section = Section(height: real, circleX: real, circleY: real,
                             level: string, percentage: string, color: string,
                             paths: seq<Path>, elements: seq<Element>)

  // Layout constants.
  const CircleX: real := 0.0
  const CircleWidth: real := 150.0
  const CircleHeight: real := 150.0
  const ItemStartX: real := 200.0
  const ConditionStartX: real := 530.0
  const ItemGap: real := 50.0
  const ConditionGap: real := 20.0

  // ---------------------------------------------------------------------
  // Specification of the first pass: heights and slots

  /** `reduce((sum, h) => sum + h, 0)`, adding from the left. */
  function Sum(s: seq<real>): real {
    if s == [] then 0.0 else Sum(s[..|s| - 1]) + s[|s| - 1]
  }

  lemma SumPrefix(s: seq<real>, i: nat)
    requires i < |s|
    ensures Sum(s[..i + 1]) == Sum(s[..i]) + s[i]
  {
    assert s[..i + 1][..i] == s[..i];
  }

  /** `item.conditions.map(cond => estimateBoxHeight(cond.text, 350, 0.85, 32))`. */
  function ConditionHeights(conds: seq<Condition>): (hs: seq<real>)
    ensures |hs| == |conds|
    ensures forall j :: 0 <= j < |conds| ==> hs[j] == ConditionBoxHeight(conds[j].text)
    ensures forall j :: 0 <= j < |conds| ==> hs[j] >= MinBoxHeight
  {
    seq(|conds|, j requires 0 <= j < |conds| => ConditionBoxHeight(conds[j].text))
  }

  /** The height of a stack of condition boxes with 20 px gaps: −20 for an empty stack. */
  function StackHeight(hs: seq<real>): real {
    Sum(hs) + (|hs| as real - 1.0) * ConditionGap
  }

  function BoxHeight(item: Item): real {
    ItemBoxHeight(item.name)
  }

  function GroupHeight(item: Item): real {
    Max(BoxHeight(item), StackHeight(ConditionHeights(item.conditions)))
  }

  function GroupHeights(items: seq<Item>): (gs: seq<real>)
    ensures |gs| == |items|
    ensures forall i :: 0 <= i < |items| ==> gs[i] == GroupHeight(items[i])
    ensures forall i :: 0 <= i < |items| ==>
              gs[i] >= BoxHeight(items[i]) && gs[i] >= StackHeight(ConditionHeights(items[i].conditions))
  {
    seq(|items|, i requires 0 <= i < |items| => GroupHeight(items[i]))
  }

  /** Where the slot of item `i` starts: the slots above it and one gap after each. */
  function SlotStart(items: seq<Item>, i: nat): real
    requires i <= |items|
  {
    Sum(GroupHeights(items)[..i]) + i as real * ItemGap
  }

  /** The sum of the slot heights and of the gaps between them (0 with no items). */
  function TotalHeight(items: seq<Item>): real {
    if |items| == 0 then 0.0 else Sum(GroupHeights(items)) + (|items| - 1) as real * ItemGap
  }

  /** `itemsInfo[idx]`. */
  datatype ItemInfo = ItemInfo(itemY: real, itemGroupHeight: real, itemBoxHeight: real,
                               conditionHeights: seq<real>, conditions: seq<Condition>)

  function InfoOf(items: seq<Item>, i: nat): ItemInfo
    requires i < |items|
  {
    ItemInfo(SlotStart(items, i), GroupHeight(items[i]), BoxHeight(items[i]),
             ConditionHeights(items[i].conditions), items[i].conditions)
  }

  /**
   * `itemsInfo`: the record the first pass keeps for every item, in order.
   * The records tile the height: the first slot starts at 0, each later one a
   * gap after the end of the previous one, and the last ends at the total.
   */
  function Infos(items: seq<Item>): (infos: seq<ItemInfo>)
    ensures |infos| == |items|
    ensures forall i :: 0 <= i < |items| ==> infos[i] == InfoOf(items, i)
    ensures Fits(items, infos)
    ensures |items| > 0 ==> infos[0].itemY == 0.0
    ensures forall i :: 0 <= i < |items| - 1 ==>
              infos[i + 1].itemY == infos[i].itemY + infos[i].itemGroupHeight + ItemGap
    ensures |items| > 0 ==> infos[|items| - 1].itemY + infos[|items| - 1].itemGroupHeight == TotalHeight(items)
  {
    SlotChain(items);
    seq(|items|, i requires 0 <= i < |items| => InfoOf(items, i))
  }

  /** `infos` can drive the second pass over `items`: one record per item, one height per condition. */
  predicate Fits(items: seq<Item>, infos: seq<ItemInfo>) {
    |infos| == |items|
    && forall i :: 0 <= i < |items| ==> |infos[i].conditionHeights| == |items[i].conditions|
  }

  // ---------------------------------------------------------------------
  // Specification of the second pass: positions

  function CircleY(items: seq<Item>): real {
    (TotalHeight(items) - CircleHeight) / 2.0
  }

  function CircleCenterY(items: seq<Item>): real {
    CircleY(items) + CircleHeight / 2.0
  }

  /** `itemY` in the second pass: the item box centred in the slot the record describes. */
  function BoxTop(info: ItemInfo): real {
    info.itemY + (info.itemGroupHeight - info.itemBoxHeight) / 2.0
  }

  /** `itemCenterY`: the vertical midpoint of the item box. */
  function BoxCenter(info: ItemInfo): real {
    BoxTop(info) + info.itemBoxHeight / 2.0
  }

  /** The top of item `i`'s box. */
  function ItemTop(items: seq<Item>, i: nat): real
    requires i < |items|
  {
    BoxTop(InfoOf(items, i))
  }

  function ItemCenterY(items: seq<Item>, i: nat): real
    requires i < |items|
  {
    BoxCenter(InfoOf(items, i))
  }


  /**
   * The top of the first condition box around the centre `c`.  Odd count: the
   * one that puts the middle box's centre on `c`; even count: half the stack
   * above `c`.
   */
  function FirstTop(hs: seq<real>, c: real): real {
    var n := |hs|;
    if n % 2 == 1 then
      var m := n / 2;
      c - hs[m] / 2.0 - (Sum(hs[..m]) + m as real * ConditionGap)
    else
      c - StackHeight(hs) / 2.0
  }

  /** The top of condition box `j`: every box sits one gap below the one above it. */
  function Top(hs: seq<real>, c: real, j: nat): real
    requires j <= |hs|
  {
    FirstTop(hs, c) + Sum(hs[..j]) + j as real * ConditionGap
  }

  function ConditionTop(items: seq<Item>, i: nat, j: nat): real
    requires i < |items| && j < |items[i].conditions|
  {
    Top(ConditionHeights(items[i].conditions), ItemCenterY(items, i), j)
  }

  // ---------------------------------------------------------------------
  // Specification of what is emitted, from the first pass's records

  function ItemElement(items: seq<Item>, infos: seq<ItemInfo>, i: nat): Element
    requires Fits(items, infos) && i < |items|
  {
    ItemBox(i, ItemStartX, BoxTop(infos[i]), infos[i].itemBoxHeight, items[i].name)
  }

  function ConditionElement(items: seq<Item>, infos: seq<ItemInfo>, i: nat, j: nat): Element
    requires Fits(items, infos) && i < |items| && j < |items[i].conditions|
  {
    var cond := items[i].conditions[j];
    var hs := infos[i].conditionHeights;
    ConditionBox(i, j, ConditionStartX, Top(hs, BoxCenter(infos[i]), j), hs[j], cond.status, cond.text)
  }

  /** The connector from the circle's right midpoint to item `i`'s left midpoint. */
  function ItemPath(items: seq<Item>, infos: seq<ItemInfo>, circleY: real, i: nat): Path
    requires Fits(items, infos) && i < |items|
  {
    Path(ItemKey(i), CircleX + CircleWidth, circleY + CircleHeight / 2.0, ItemStartX, BoxCenter(infos[i]))
  }

  /** The connector from item `i`'s right midpoint to condition `j`'s left midpoint. */
  function ConditionPath(items: seq<Item>, infos: seq<ItemInfo>, i: nat, j: nat): Path
    requires Fits(items, infos) && i < |items| && j < |items[i].conditions|
  {
    var hs := infos[i].conditionHeights;
    Path(ConditionKey(i, j), ItemStartX + ItemBoxWidth, BoxCenter(infos[i]),
         ConditionStartX, Top(hs, BoxCenter(infos[i]), j) + hs[j] / 2.0)
  }

  /** The condition boxes of item `i` among its first `j` conditions that are visible. */
  function ConditionElements(items: seq<Item>, infos: seq<ItemInfo>, v: Visibility, i: nat, j: nat): seq<Element>
    requires Fits(items, infos) && i < |items| && j <= |items[i].conditions|
  {
    if j == 0 then []
    else ConditionElements(items, infos, v, i, j - 1)
         + (if IsVisible(v, items[i].conditions[j - 1].status) then [ConditionElement(items, infos, i, j - 1)] else [])
  }

  function ConditionPaths(items: seq<Item>, infos: seq<ItemInfo>, v: Visibility, i: nat, j: nat): seq<Path>
    requires Fits(items, infos) && i < |items| && j <= |items[i].conditions|
  {
    if j == 0 then []
    else ConditionPaths(items, infos, v, i, j - 1)
         + (if IsVisible(v, items[i].conditions[j - 1].status) then [ConditionPath(items, infos, i, j - 1)] else [])
  }

  function ItemElements(items: seq<Item>, infos: seq<ItemInfo>, v: Visibility, i: nat): seq<Element>
    requires Fits(items, infos) && i < |items|
  {
    [ItemElement(items, infos, i)] + ConditionElements(items, infos, v, i, |items[i].conditions|)
  }

  function ItemPaths(items: seq<Item>, infos: seq<ItemInfo>, circleY: real, v: Visibility, i: nat): seq<Path>
    requires Fits(items, infos) && i < |items|
  {
    [ItemPath(items, infos, circleY, i)] + ConditionPaths(items, infos, v, i, |items[i].conditions|)
  }

  /** The boxes emitted for the first `n` items, in emission order. */
  function Elements(items: seq<Item>, infos: seq<ItemInfo>, v: Visibility, n: nat): seq<Element>
    requires Fits(items, infos) && n <= |items|
  {
    if n == 0 then [] else Elements(items, infos, v, n - 1) + ItemElements(items, infos, v, n - 1)
  }

  /** The connectors emitted for the first `n` items, in emission order. */
  function Paths(items: seq<Item>, infos: seq<ItemInfo>, circleY: real, v: Visibility, n: nat): seq<Path>
    requires Fits(items, infos) && n <= |items|
  {
    if n == 0 then [] else Paths(items, infos, circleY, v, n - 1) + ItemPaths(items, infos, circleY, v, n - 1)
  }

  /** The level section: the first pass's records drive the second. */
  function SectionOf(data: LevelData, v: Visibility): Section {
    var items := data.items;
    var infos := Infos(items);
    Section(TotalHeight(items) + 50.0, CircleX, CircleY(items), data.level, data.percentage, data.color,
            Paths(items, infos, CircleY(items), v, |items|), Elements(items, infos, v, |items|))
  }

  // ---------------------------------------------------------------------
  // The two passes, as the source runs them

  /** The first `forEach`: heights, slot starts and the running `totalHeight`. */
  method SlotPass(items: seq<Item>) returns (infos: seq<ItemInfo>, totalHeight: real)
    ensures infos == Infos(items)
    ensures totalHeight == TotalHeight(items)
  {
    totalHeight := 0.0;
    infos := [];
    var idx := 0;
    while idx < |items|
      invariant 0 <= idx <= |items|
      invariant |infos| == idx
      invariant forall i :: 0 <= i < idx ==> infos[i] == InfoOf(items, i)
      invariant totalHeight == if idx < |items| then SlotStart(items, idx) else TotalHeight(items)
    {
      var item := items[idx];
      var itemBoxHeight := ItemBoxHeight(item.name);
      var conditionHeights := ConditionHeights(item.conditions);
      var conditionsHeight := Sum(conditionHeights) + (|conditionHeights| as real - 1.0) * ConditionGap;
      var itemGroupHeight := Max(itemBoxHeight, conditionsHeight);
      var itemY := totalHeight;
      var info := ItemInfo(itemY, itemGroupHeight, itemBoxHeight, conditionHeights, item.conditions);
      assert info == InfoOf(items, idx);
      infos := infos + [info];
      totalHeight := totalHeight + itemGroupHeight;
      if idx < |items| - 1 {
        totalHeight := totalHeight + ItemGap;
        SlotStartStep(items, idx);
      } else {
        TotalHeightLast(items);
      }
      idx := idx + 1;
    }
    RecordsAreInfos(items, infos);
  }

  /** Records that agree with `InfoOf` item by item are the specified records. */
  lemma RecordsAreInfos(items: seq<Item>, infos: seq<ItemInfo>)
    requires |infos| == |items|
    requires forall i :: 0 <= i < |items| ==> infos[i] == InfoOf(items, i)
    ensures infos == Infos(items)
  {
  }

  /** `conditionYPositions`: the tops of an item's condition boxes around its centre `c`. */
  method ConditionPositions(hs: seq<real>, c: real) returns (ys: seq<real>)
    ensures |ys| == |hs|
    ensures forall j :: 0 <= j < |hs| ==> ys[j] == Top(hs, c, j)
  {
    var n := |hs|;
    var a := new real[n];
    if n % 2 == 1 {
      var m := n / 2;
      a[m] := c - hs[m] / 2.0;
      var i := m - 1;
      while i >= 0
        invariant -1 <= i < m
        invariant forall j :: i < j <= m ==> a[j] == Top(hs, c, j)
      {
        TopStep(hs, c, i);
        a[i] := a[i + 1] - hs[i] - ConditionGap;
        i := i - 1;
      }
      i := m + 1;
      while i < n
        invariant m < i <= n
        invariant forall j :: 0 <= j < i ==> a[j] == Top(hs, c, j)
      {
        TopStep(hs, c, i - 1);
        a[i] := a[i - 1] + hs[i - 1] + ConditionGap;
        i := i + 1;
      }
    } else {
      var totalConditionsHeight := Sum(hs) + (n as real - 1.0) * ConditionGap;
      var currentY := c - totalConditionsHeight / 2.0;
      for i := 0 to n
        invariant currentY == Top(hs, c, i)
        invariant forall j :: 0 <= j < i ==> a[j] == Top(hs, c, j)
      {
        TopStep(hs, c, i);
        a[i] := currentY;
        currentY := currentY + hs[i] + ConditionGap;
      }
    }
    ys := a[..];
  }

  /** The inner `forEach`: a box and a connector for each visible condition of item `i`. */
  method EmitConditions(items: seq<Item>, infos: seq<ItemInfo>, v: Visibility, i: nat, itemCenterY: real,
                        conditionHeights: seq<real>, conditionYPositions: seq<real>,
                        elements: seq<Element>, paths: seq<Path>)
    returns (elements': seq<Element>, paths': seq<Path>)
    requires Fits(items, infos) && i < |items|
    requires itemCenterY == BoxCenter(infos[i])
    requires conditionHeights == infos[i].conditionHeights
    requires |conditionYPositions| == |conditionHeights|
    requires forall j :: 0 <= j < |conditionHeights| ==>
               conditionYPositions[j] == Top(conditionHeights, itemCenterY, j)
    ensures elements' == elements + ConditionElements(items, infos, v, i, |items[i].conditions|)
    ensures paths' == paths + ConditionPaths(items, infos, v, i, |items[i].conditions|)
  {
    elements', paths' := elements, paths;
    var conds := items[i].conditions;
    for condIdx := 0 to |conds|
      invariant elements' == elements + ConditionElements(items, infos, v, i, condIdx)
      invariant paths' == paths + ConditionPaths(items, infos, v, i, condIdx)
    {
      var condition := conds[condIdx];
      if IsVisible(v, condition.status) {
        var conditionHeight := conditionHeights[condIdx];
        var conditionY := conditionYPositions[condIdx];
        var conditionCenterY := conditionY + conditionHeight / 2.0;
        elements' := elements' + [ConditionBox(i, condIdx, ConditionStartX, conditionY, conditionHeight,
                                               condition.status, condition.text)];
        paths' := paths' + [Path(ConditionKey(i, condIdx), ItemStartX + ItemBoxWidth, itemCenterY,
                                 ConditionStartX, conditionCenterY)];
      }
    }
  }

  /** The body of the second `forEach` for item `idx`: its box, its connector, then its conditions. */
  method EmitItem(items: seq<Item>, infos: seq<ItemInfo>, v: Visibility, idx: nat, circleY: real,
                  elements: seq<Element>, paths: seq<Path>)
    returns (elements': seq<Element>, paths': seq<Path>)
    requires Fits(items, infos) && idx < |items|
    ensures elements' == elements + ItemElements(items, infos, v, idx)
    ensures paths' == paths + ItemPaths(items, infos, circleY, v, idx)
  {
    var info := infos[idx];
    var itemY := info.itemY + (info.itemGroupHeight - info.itemBoxHeight) / 2.0;
    var itemCenterY := itemY + info.itemBoxHeight / 2.0;
    elements' := elements + [ItemBox(idx, ItemStartX, itemY, info.itemBoxHeight, items[idx].name)];
    var circleRightX := CircleX + CircleWidth;
    var circleCenterY := circleY + CircleHeight / 2.0;
    paths' := paths + [Path(ItemKey(idx), circleRightX, circleCenterY, ItemStartX, itemCenterY)];
    var conditionHeights := info.conditionHeights;
    var conditionYPositions := ConditionPositions(conditionHeights, itemCenterY);
    elements', paths' := EmitConditions(items, infos, v, idx, itemCenterY, conditionHeights, conditionYPositions,
                                        elements', paths');
  }

  /** The second `forEach`, over every item in order. */
  method EmitItems(items: seq<Item>, infos: seq<ItemInfo>, v: Visibility, circleY: real)
    returns (paths: seq<Path>, elements: seq<Element>)
    requires Fits(items, infos)
    ensures paths == Paths(items, infos, circleY, v, |items|)
    ensures elements == Elements(items, infos, v, |items|)
  {
    paths, elements := [], [];
    for idx := 0 to |items|
      invariant paths == Paths(items, infos, circleY, v, idx)
      invariant elements == Elements(items, infos, v, idx)
    {
      elements, paths := EmitItem(items, infos, v, idx, circleY, elements, paths);
    }
  }

  /** `renderLevelSection(data)`: both passes, emitting the boxes and connectors. */
  method RenderLevelSection(data: LevelData, v: Visibility) returns (s: Section)
    ensures s == SectionOf(data, v)
  {
    var items := data.items;
    var infos, totalHeight := SlotPass(items);
    var circleY := (totalHeight - CircleHeight) / 2.0;
    var paths, elements := EmitItems(items, infos, v, circleY);
    s := Section(totalHeight + 50.0, CircleX, circleY, data.level, data.percentage, data.color, paths, elements);
  }

  // ---------------------------------------------------------------------
  // Properties of the slots

  /** The slots are stacked: each starts one gap below the end of the previous one. */
  lemma SlotStartStep(items: seq<Item>, i: nat)
    requires i < |items|
    ensures SlotStart(items, i + 1) == SlotStart(items, i) + GroupHeight(items[i]) + ItemGap
  {
    SumPrefix(GroupHeights(items), i);
  }

  /** The total height ends exactly at the bottom of the last slot. */
  lemma TotalHeightLast(items: seq<Item>)
    requires |items| > 0
    ensures TotalHeight(items) == SlotStart(items, |items| - 1) + GroupHeight(items[|items| - 1])
  {
    var gs := GroupHeights(items);
    SumPrefix(gs, |items| - 1);
    assert gs[..|items|] == gs;
  }

  /** Every slot step at once, and the end of the last slot. */
  lemma SlotChain(items: seq<Item>)
    ensures forall i :: 0 <= i < |items| ==>
              SlotStart(items, i + 1) == SlotStart(items, i) + GroupHeight(items[i]) + ItemGap
    ensures |items| > 0 ==> TotalHeight(items) == SlotStart(items, |items| - 1) + GroupHeight(items[|items| - 1])
  {
    forall i | 0 <= i < |items|
      ensures SlotStart(items, i + 1) == SlotStart(items, i) + GroupHeight(items[i]) + ItemGap
    {
      SlotStartStep(items, i);
    }
    if |items| > 0 {
      TotalHeightLast(items);
    }
  }

  /** Condition heights depend on the texts only, not on the statuses. */
  lemma ConditionHeightsByText(cs: seq<Condition>, ds: seq<Condition>)
    requires |cs| == |ds|
    requires forall j :: 0 <= j < |cs| ==> cs[j].text == ds[j].text
    ensures ConditionHeights(cs) == ConditionHeights(ds)
  {
    assert forall j :: 0 <= j < |cs| ==> ConditionHeights(cs)[j] == ConditionHeights(ds)[j];
  }

  /** A slot is as tall as the larger of its item box and its condition stack, so never below 60. */
  lemma GroupHeightBounds(item: Item)
    ensures GroupHeight(item) >= BoxHeight(item)
    ensures GroupHeight(item) >= StackHeight(ConditionHeights(item.conditions))
    ensures GroupHeight(item) == BoxHeight(item)
         || GroupHeight(item) == StackHeight(ConditionHeights(item.conditions))
    ensures GroupHeight(item) >= MinBoxHeight
  {
  }

  /** With no conditions the stack is −20 tall and the slot is the item box alone. */
  lemma NoConditions(item: Item)
    requires item.conditions == []
    ensures StackHeight(ConditionHeights(item.conditions)) == -ConditionGap
    ensures GroupHeight(item) == BoxHeight(item)
  {
    assert ConditionHeights(item.conditions) == [];
  }

  /** Slots never overlap: a later slot starts at least one gap below the end of an earlier one. */
  lemma {:induction false} SlotsOrdered(items: seq<Item>, i: nat, j: nat)
    requires i < j < |items|
    ensures SlotStart(items, i) + GroupHeight(items[i]) + ItemGap <= SlotStart(items, j)
    decreases j - i
  {
    SlotStartStep(items, i);
    if i + 1 < j {
      SlotsOrdered(items, i + 1, j);
      GroupHeightBounds(items[i + 1]);
    }
  }

  /** The root circle's centre is the midpoint of the whole height. */
  lemma CircleCentred(items: seq<Item>)
    ensures CircleCenterY(items) == TotalHeight(items) / 2.0
  {
  }

  /** The item box lies inside its slot and its centre is the slot's centre. */
  lemma ItemBoxInSlot(items: seq<Item>, i: nat)
    requires i < |items|
    ensures SlotStart(items, i) <= ItemTop(items, i)
    ensures ItemTop(items, i) + BoxHeight(items[i]) <= SlotStart(items, i) + GroupHeight(items[i])
    ensures ItemCenterY(items, i) == SlotStart(items, i) + GroupHeight(items[i]) / 2.0
  {
  }

  // ---------------------------------------------------------------------
  // Properties of the condition placement

  /** Consecutive condition boxes are one 20 px gap apart, whatever the parity. */
  lemma TopStep(hs: seq<real>, c: real, j: nat)
    requires j < |hs|
    ensures Top(hs, c, j + 1) == Top(hs, c, j) + hs[j] + ConditionGap
  {
    SumPrefix(hs, j);
  }

  /** Odd count: the middle condition box is centred exactly on the item's centre. */
  lemma OddMiddleCentred(hs: seq<real>, c: real)
    requires |hs| % 2 == 1
    ensures Top(hs, c, |hs| / 2) + hs[|hs| / 2] / 2.0 == c
  {
  }

  /** Even count: the stack as a block is centred on the item's centre. */
  lemma EvenBlockCentred(hs: seq<real>, c: real)
    requires |hs| % 2 == 0 && |hs| > 0
    ensures Top(hs, c, 0) == c - StackHeight(hs) / 2.0
    ensures Top(hs, c, |hs| - 1) + hs[|hs| - 1] == c + StackHeight(hs) / 2.0
  {
    SumPrefix(hs, |hs| - 1);
    assert hs[..|hs|] == hs;
  }

  /** Even count: the centred stack stays inside the item's slot. */
  lemma EvenStackInSlot(items: seq<Item>, i: nat)
    requires i < |items|
    requires |items[i].conditions| % 2 == 0 && |items[i].conditions| > 0
    ensures SlotStart(items, i) <= ConditionTop(items, i, 0)
    ensures ConditionTop(items, i, |items[i].conditions| - 1)
            + ConditionHeights(items[i].conditions)[|items[i].conditions| - 1]
            <= SlotStart(items, i) + GroupHeight(items[i])
  {
    EvenBlockCentred(ConditionHeights(items[i].conditions), ItemCenterY(items, i));
    ItemBoxInSlot(items, i);
  }

  /**
   * Odd count: the block is not centred, so it can leave its slot.  Heights
   * 60, 60 and 300 around a slot [0, 460] centred at 230 put the last box's
   * bottom at 580.
   */
  /**
   * An odd stack need not fit its slot.  The first item has two one-line
   * conditions (60 px each) and one of 139 characters (7 lines, 174.8 px), so
   * its slot is 334.8 px tall and its centre 167.4; the middle box is centred
   * there, and the last box ends at 392.2, past the start of the next slot at
   * 384.8.
   */
  lemma OddStackCanLeaveSlot()
    ensures var items := [Item("x", [Condition("a", Completed), Condition("b", Completed),
                                     Condition(seq(139, _ => 'x'), Completed)]),
                          Item("y", [])];
            ConditionHeights(items[0].conditions) == [60.0, 60.0, 174.8]
            && GroupHeight(items[0]) == 334.8 && ItemCenterY(items, 0) == 167.4
            && ConditionTop(items, 0, 2) + 174.8 == 392.2 && SlotStart(items, 1) == 384.8
            && ConditionTop(items, 0, 2) + 174.8 > SlotStart(items, 1)
  {
    var long := seq(139, _ => 'x');
    var items := [Item("x", [Condition("a", Completed), Condition("b", Completed), Condition(long, Completed)]),
                  Item("y", [])];
    assert |long| == 139;
    assert LineCount(1, 23) == 1;
    assert LineCount(139, 23) == 7;
    var hs := ConditionHeights(items[0].conditions);
    assert hs[0] == 60.0 && hs[1] == 60.0 && hs[2] == 174.8;
    assert hs == [60.0, 60.0, 174.8];
    assert hs[..0] == [] && hs[..1] == [60.0] && hs[..2] == [60.0, 60.0];
    assert hs[..2][..1] == hs[..1];
    assert hs[..1][..0] == hs[..0];
    assert hs[..3] == hs;
    assert Sum(hs[..1]) == 60.0;
    assert Sum(hs[..2]) == 120.0;
    assert Sum(hs) == 294.8;
    assert ItemBoxHeight("x") == 60.0;
    assert GroupHeight(items[0]) == 334.8;
    assert SlotStart(items, 0) == 0.0 by {
      assert GroupHeights(items)[..0] == [];
    }
    SlotStartStep(items, 0);
  }

  // ---------------------------------------------------------------------
  // Properties of the emitted boxes and connectors

  /** Membership in the emitted boxes, by key: exactly the item boxes and the visible condition boxes. */
  predicate Emits(items: seq<Item>, infos: seq<ItemInfo>, v: Visibility, e: Element)
    requires Fits(items, infos)
  {
    match e
    case ItemBox(i, _, _, _, _) => i < |items| && e == ItemElement(items, infos, i)
    case ConditionBox(i, j, _, _, _, _, _) =>
      i < |items| && j < |items[i].conditions| && IsVisible(v, items[i].conditions[j].status)
      && e == ConditionElement(items, infos, i, j)
  }

  lemma {:induction false} ConditionElementsMembers(items: seq<Item>, infos: seq<ItemInfo>, v: Visibility,
                                                    i: nat, j: nat, e: Element)
    requires Fits(items, infos) && i < |items| && j <= |items[i].conditions|
    ensures e in ConditionElements(items, infos, v, i, j) <==>
            (e.ConditionBox? && e.item == i && e.cond < j
             && IsVisible(v, items[i].conditions[e.cond].status) && e == ConditionElement(items, infos, i, e.cond))
  {
    if j > 0 {
      ConditionElementsMembers(items, infos, v, i, j - 1, e);
    }
  }

  lemma {:induction false} ElementsMembers(items: seq<Item>, infos: seq<ItemInfo>, v: Visibility, n: nat, e: Element)
    requires Fits(items, infos) && n <= |items|
    ensures e in Elements(items, infos, v, n) <==> Emits(items, infos, v, e) && e.item < n
  {
    if n > 0 {
      ElementsMembers(items, infos, v, n - 1, e);
      ConditionElementsMembers(items, infos, v, n - 1, |items[n - 1].conditions|, e);
    }
  }

  /** Every item has its box; a condition has its box exactly when its status is visible. */
  lemma ElementsExactly(data: LevelData, v: Visibility, e: Element)
    ensures e in SectionOf(data, v).elements <==> Emits(data.items, Infos(data.items), v, e)
  {
    ElementsMembers(data.items, Infos(data.items), v, |data.items|, e);
  }

  /** An emitted item box sits where the slot lemmas place it, at the estimated height. */
  lemma ItemPlaced(items: seq<Item>, i: nat)
    requires i < |items|
    ensures ItemElement(items, Infos(items), i).y == ItemTop(items, i)
    ensures ItemElement(items, Infos(items), i).height == BoxHeight(items[i])
  {
  }

  /** An emitted condition box sits where the placement lemmas place it, at the estimated height. */
  lemma ConditionPlaced(items: seq<Item>, i: nat, j: nat)
    requires i < |items| && j < |items[i].conditions|
    ensures ConditionElement(items, Infos(items), i, j).y == ConditionTop(items, i, j)
    ensures ConditionElement(items, Infos(items), i, j).height == ConditionBoxHeight(items[i].conditions[j].text)
  {
  }

  /** No key is emitted twice. */
  predicate DistinctKeys(es: seq<Element>) {
    forall a, b :: 0 <= a < b < |es| ==> es[a].Key() != es[b].Key()
  }

  lemma {:induction false} ConditionElementsShape(items: seq<Item>, infos: seq<ItemInfo>, v: Visibility, i: nat, j: nat)
    requires Fits(items, infos) && i < |items| && j <= |items[i].conditions|
    ensures DistinctKeys(ConditionElements(items, infos, v, i, j))
    ensures forall a :: 0 <= a < |ConditionElements(items, infos, v, i, j)| ==>
              ConditionElements(items, infos, v, i, j)[a].ConditionBox?
              && ConditionElements(items, infos, v, i, j)[a].item == i
              && ConditionElements(items, infos, v, i, j)[a].cond < j
  {
    if j > 0 {
      ConditionElementsShape(items, infos, v, i, j - 1);
    }
  }

  lemma {:induction false} ElementsShape(items: seq<Item>, infos: seq<ItemInfo>, v: Visibility, n: nat)
    requires Fits(items, infos) && n <= |items|
    ensures DistinctKeys(Elements(items, infos, v, n))
    ensures forall a :: 0 <= a < |Elements(items, infos, v, n)| ==> Elements(items, infos, v, n)[a].item < n
  {
    if n > 0 {
      ElementsShape(items, infos, v, n - 1);
      ConditionElementsShape(items, infos, v, n - 1, |items[n - 1].conditions|);
      var es, block := Elements(items, infos, v, n - 1), ItemElements(items, infos, v, n - 1);
      assert forall a :: 0 <= a < |block| ==> block[a].item == n - 1;
      assert DistinctKeys(block);
    }
  }

  /** Each item's box and each visible condition's box appears exactly once. */
  lemma ElementsDistinct(data: LevelData, v: Visibility)
    ensures DistinctKeys(SectionOf(data, v).elements)
  {
    ElementsShape(data.items, Infos(data.items), v, |data.items|);
  }

  /**
   * Connector `p` leads into box `e`: it has `e`'s key, ends at `e`'s left
   * midpoint, and starts at the right midpoint of `e`'s parent (the circle,
   * whose midpoint is at half the total height `total`, for an item box; the
   * item's box, as its record places it, for a condition box).
   */
  predicate Connects(infos: seq<ItemInfo>, total: real, p: Path, e: Element) {
    p.key == e.Key() && p.x2 == e.x && p.y2 == e.y + e.height / 2.0
    && (e.ItemBox? ==> p.x1 == CircleX + CircleWidth && p.y1 == total / 2.0)
    && (e.ConditionBox? ==>
          e.item < |infos| && p.x1 == ItemStartX + ItemBoxWidth && p.y1 == BoxCenter(infos[e.item]))
  }

  predicate Paired(infos: seq<ItemInfo>, total: real, ps: seq<Path>, es: seq<Element>) {
    |ps| == |es| && forall a :: 0 <= a < |ps| ==> Connects(infos, total, ps[a], es[a])
  }

  lemma PairedConcat(infos: seq<ItemInfo>, total: real, ps: seq<Path>, es: seq<Element>, qs: seq<Path>, fs: seq<Element>)
    requires Paired(infos, total, ps, es) && Paired(infos, total, qs, fs)
    ensures Paired(infos, total, ps + qs, es + fs)
  {
    forall a | 0 <= a < |ps + qs|
      ensures Connects(infos, total, (ps + qs)[a], (es + fs)[a])
    {
      if a < |ps| {
        assert (ps + qs)[a] == ps[a] && (es + fs)[a] == es[a];
      } else {
        assert (ps + qs)[a] == qs[a - |ps|] && (es + fs)[a] == fs[a - |ps|];
      }
    }
  }

  lemma {:induction false} ConditionsPaired(items: seq<Item>, infos: seq<ItemInfo>, total: real,
                                            v: Visibility, i: nat, j: nat)
    requires Fits(items, infos) && i < |items| && j <= |items[i].conditions|
    ensures Paired(infos, total, ConditionPaths(items, infos, v, i, j), ConditionElements(items, infos, v, i, j))
  {
    if j > 0 {
      ConditionsPaired(items, infos, total, v, i, j - 1);
      if IsVisible(v, items[i].conditions[j - 1].status) {
        PairedConcat(infos, total, ConditionPaths(items, infos, v, i, j - 1), ConditionElements(items, infos, v, i, j - 1),
                     [ConditionPath(items, infos, i, j - 1)], [ConditionElement(items, infos, i, j - 1)]);
      }
    }
  }

  lemma {:induction false} ItemsPaired(items: seq<Item>, infos: seq<ItemInfo>, circleY: real, total: real,
                                       v: Visibility, n: nat)
    requires Fits(items, infos) && n <= |items|
    requires circleY == (total - CircleHeight) / 2.0
    ensures Paired(infos, total, Paths(items, infos, circleY, v, n), Elements(items, infos, v, n))
  {
    if n > 0 {
      var i := n - 1;
      ItemsPaired(items, infos, circleY, total, v, i);
      ConditionsPaired(items, infos, total, v, i, |items[i].conditions|);
      PairedConcat(infos, total, [ItemPath(items, infos, circleY, i)], [ItemElement(items, infos, i)],
                   ConditionPaths(items, infos, v, i, |items[i].conditions|),
                   ConditionElements(items, infos, v, i, |items[i].conditions|));
      PairedConcat(infos, total, Paths(items, infos, circleY, v, i), Elements(items, infos, v, i),
                   ItemPaths(items, infos, circleY, v, i), ItemElements(items, infos, v, i));
    }
  }

  /**
   * The k-th connector leads into the k-th box: one connector per emitted box,
   * from the circle's midpoint (at half the total height) for an item and from
   * its item's midpoint for a condition.
   */
  lemma ConnectorsMatchBoxes(data: LevelData, v: Visibility)
    ensures Paired(Infos(data.items), TotalHeight(data.items), SectionOf(data, v).paths, SectionOf(data, v).elements)
  {
    ItemsPaired(data.items, Infos(data.items), CircleY(data.items), TotalHeight(data.items), v, |data.items|);
  }

  /**
   * Visibility only filters: the height, the circle and the item boxes do not
   * depend on it, and a condition box shown under both settings is the same box.
   */
  lemma VisibilityOnlyFilters(data: LevelData, v: Visibility, w: Visibility, e: Element)
    requires e in SectionOf(data, v).elements
    requires e.ItemBox? || IsVisible(w, e.status)
    ensures e in SectionOf(data, w).elements
    ensures SectionOf(data, v).height == SectionOf(data, w).height
    ensures SectionOf(data, v).circleY == SectionOf(data, w).circleY
  {
    ElementsExactly(data, v, e);
    ElementsExactly(data, w, e);
  }

  /**
   * Hiding a visible status removes exactly the condition boxes of that status
   * and leaves every other box in place.
   */
  lemma HidingRemovesExactly(data: LevelData, v: Visibility, s: Status, e: Element)
    requires IsVisible(v, s)
    ensures e in SectionOf(data, Toggle(v, s)).elements <==>
            e in SectionOf(data, v).elements && !(e.ConditionBox? && e.status == s)
  {
    ElementsExactly(data, v, e);
    ElementsExactly(data, Toggle(v, s), e);
  }

  /** The number of visible conditions among the first `j` of item `i`. */
  function VisibleConditions(items: seq<Item>, v: Visibility, i: nat, j: nat): nat
    requires i < |items| && j <= |items[i].conditions|
  {
    if j == 0 then 0
    else VisibleConditions(items, v, i, j - 1) + (if IsVisible(v, items[i].conditions[j - 1].status) then 1 else 0)
  }

  /** The number of visible conditions among the first `n` items. */
  function VisibleCount(items: seq<Item>, v: Visibility, n: nat): nat
    requires n <= |items|
  {
    if n == 0 then 0 else VisibleCount(items, v, n - 1) + VisibleConditions(items, v, n - 1, |items[n - 1].conditions|)
  }

  lemma {:induction false} ConditionElementsCount(items: seq<Item>, infos: seq<ItemInfo>, v: Visibility, i: nat, j: nat)
    requires Fits(items, infos) && i < |items| && j <= |items[i].conditions|
    ensures |ConditionElements(items, infos, v, i, j)| == VisibleConditions(items, v, i, j)
  {
    if j > 0 {
      ConditionElementsCount(items, infos, v, i, j - 1);
    }
  }

  lemma {:induction false} ElementsCount(items: seq<Item>, infos: seq<ItemInfo>, v: Visibility, n: nat)
    requires Fits(items, infos) && n <= |items|
    ensures |Elements(items, infos, v, n)| == n + VisibleCount(items, v, n)
  {
    if n > 0 {
      ElementsCount(items, infos, v, n - 1);
      ConditionElementsCount(items, infos, v, n - 1, |items[n - 1].conditions|);
    }
  }

  /** A section has one box per item plus one per visible condition, and as many connectors. */
  lemma SectionSize(data: LevelData, v: Visibility)
    ensures |SectionOf(data, v).elements| == |data.items| + VisibleCount(data.items, v, |data.items|)
    ensures |SectionOf(data, v).paths| == |SectionOf(data, v).elements|
  {
    ElementsCount(data.items, Infos(data.items), v, |data.items|);
    ConnectorsMatchBoxes(data, v);
  }
}
