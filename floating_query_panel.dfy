/**
 * The floating answer panel: dragging and resize clamping of its position,
 * the found-before-clear ordering of the findings, the case and person
 * lists of the risk details, the two label lookups, and the typewriter that
 * reveals the summary one character per tick.
 *
 * Window sizes and pointer coordinates are parameters; timers and event
 * listener wiring are not modelled, only the state step of each event.
 */
module FloatingQueryPanel {
  import opened JsString
  import opened App
  import opened Wrappers

  // ---------------------------------------------------------------------
  // Dragging

  datatype Point = Point(x: int, y: int)

  /** The panel is 450 px wide and at least 100 px of it must stay above the bottom edge. */
  const PanelWidth := 450
  const PanelMinVisible := 100

  datatype Drag = Drag(position: Point, isDragging: bool, dragStart: Point)

  function Min(a: int, b: int): int { if a <= b then a else b }
  function MaxInt(a: int, b: int): int { if a >= b then a else b }

  /** `Math.max(0, Math.min(v, limit))`. */
  function Clamp(v: int, limit: int): (r: int)
    ensures 0 <= r <= MaxInt(0, limit)
    ensures 0 <= v <= limit ==> r == v
    ensures r == v || r == 0 || r == limit
  {
    MaxInt(0, Min(v, limit))
  }

  /** The initial state: 490 px from the right edge, 20 px from the top, not dragging. */
  function InitialDrag(innerWidth: int): (d: Drag)
    ensures d.position == Point(innerWidth - 490, 20) && !d.isDragging
  {
    Drag(Point(innerWidth - 490, 20), false, Point(0, 0))
  }

  /**
   * `handleMouseDown`: a press on the control buttons is ignored; otherwise
   * dragging starts and the pointer's offset from the panel corner is kept.
   */
  function MouseDown(d: Drag, client: Point, onControls: bool): Drag {
    if onControls then d
    else d.(isDragging := true, dragStart := Point(client.x - d.position.x, client.y - d.position.y))
  }

  /** `handleMouseMove`: while dragging, the corner follows the pointer, clamped to the window. */
  function MouseMove(d: Drag, client: Point, innerWidth: int, innerHeight: int): Drag {
    if !d.isDragging then d
    else
      var newX := client.x - d.dragStart.x;
      var newY := client.y - d.dragStart.y;
      d.(position := Point(Clamp(newX, innerWidth - PanelWidth), Clamp(newY, innerHeight - PanelMinVisible)))
  }

  /** `handleMouseUp`. */
  function MouseUp(d: Drag): Drag {
    d.(isDragging := false)
  }

  /** `handleResize`: the corner is pulled back inside the new window, never pushed out. */
  function Resize(d: Drag, innerWidth: int, innerHeight: int): Drag {
    d.(position := Point(Min(d.position.x, innerWidth - PanelWidth), Min(d.position.y, innerHeight - PanelMinVisible)))
  }

  /** A move while dragging keeps the corner between 0 and the window limits, and changes nothing else. */
  lemma MoveBounds(d: Drag, client: Point, innerWidth: int, innerHeight: int)
    requires d.isDragging
    ensures var m := MouseMove(d, client, innerWidth, innerHeight);
            0 <= m.position.x <= MaxInt(0, innerWidth - PanelWidth)
            && 0 <= m.position.y <= MaxInt(0, innerHeight - PanelMinVisible)
            && m.isDragging && m.dragStart == d.dragStart
  {
  }

  /** A move that proposes an in-bounds corner puts the corner exactly there. */
  lemma MoveInBounds(d: Drag, client: Point, innerWidth: int, innerHeight: int)
    requires d.isDragging
    requires 0 <= client.x - d.dragStart.x <= innerWidth - PanelWidth
    requires 0 <= client.y - d.dragStart.y <= innerHeight - PanelMinVisible
    ensures MouseMove(d, client, innerWidth, innerHeight).position
            == Point(client.x - d.dragStart.x, client.y - d.dragStart.y)
  {
  }

  /** Moves are ignored unless a drag is in progress; after a release they are ignored again. */
  lemma MoveNeedsPress(d: Drag, client: Point, innerWidth: int, innerHeight: int)
    ensures !d.isDragging ==> MouseMove(d, client, innerWidth, innerHeight) == d
    ensures MouseMove(MouseUp(d), client, innerWidth, innerHeight) == MouseUp(d)
  {
  }

  /**
   * Pressing and moving without moving the pointer leaves an in-bounds panel
   * where it was: the stored offset is exactly undone.
   */
  lemma PressThenStillMove(d: Drag, client: Point, innerWidth: int, innerHeight: int)
    requires 0 <= d.position.x <= innerWidth - PanelWidth
    requires 0 <= d.position.y <= innerHeight - PanelMinVisible
    ensures MouseMove(MouseDown(d, client, false), client, innerWidth, innerHeight).position == d.position
  {
    var p := MouseDown(d, client, false);
    MoveInBounds(p, client, innerWidth, innerHeight);
  }

  /** A press on the controls never starts a drag. */
  lemma ControlsDoNotDrag(d: Drag, client: Point, innerWidth: int, innerHeight: int)
    requires !d.isDragging
    ensures MouseMove(MouseDown(d, client, true), client, innerWidth, innerHeight) == d
  {
  }

  /** A resize never moves the corner right or down, and leaves it within the new limits. */
  lemma ResizeCaps(d: Drag, innerWidth: int, innerHeight: int)
    ensures var r := Resize(d, innerWidth, innerHeight);
            r.position.x <= d.position.x && r.position.y <= d.position.y
            && r.position.x <= innerWidth - PanelWidth && r.position.y <= innerHeight - PanelMinVisible
            && (r.position.x == d.position.x || r.position.x == innerWidth - PanelWidth)
            && (r.position.y == d.position.y || r.position.y == innerHeight - PanelMinVisible)
            && r.isDragging == d.isDragging && r.dragStart == d.dragStart
  {
  }

  /** A resize leaves a panel that already fits where it is. */
  lemma ResizeKeepsFitting(d: Drag, innerWidth: int, innerHeight: int)
    requires d.position.x <= innerWidth - PanelWidth && d.position.y <= innerHeight - PanelMinVisible
    ensures Resize(d, innerWidth, innerHeight) == d
  {
  }

  /**
   * Unlike a move, a resize does not clamp at 0: a window narrower than the
   * panel pushes the corner past the left edge.
   */
  lemma ResizeCanPassLeftEdge()
    ensures Resize(Drag(Point(10, 20), false, Point(0, 0)), 400, 800).position == Point(-50, 20)
  {
  }

  // ---------------------------------------------------------------------
  // Labels

  /** `getRiskLevelLabel`: the three known levels are named, anything else is shown as is. */
  function RiskLevelLabel(level: string): string {
    if level == "high" then "高風險"
    else if level == "medium" then "中等風險"
    else if level == "low" then "低風險"
    else level
  }

  /** `getStatusLabel`: the two known statuses are named, anything else is shown as is. */
  function StatusLabel(status: string): string {
    if status == "found" then "發現"
    else if status == "clear" then "無紀錄"
    else status
  }

  /** A label differs from its key exactly for the known keys, and distinct keys get distinct labels. */
  lemma LabelsFallBack(a: string, b: string)
    ensures RiskLevelLabel(a) == a <==> a !in {"high", "medium", "low"}
    ensures StatusLabel(a) == a <==> a !in {"found", "clear"}
    ensures a != b ==> RiskLevelLabel(a) != RiskLevelLabel(b) || (a !in {"high", "medium", "low"}) != (b !in {"high", "medium", "low"})
    ensures a != b ==> StatusLabel(a) != StatusLabel(b) || (a !in {"found", "clear"}) != (b !in {"found", "clear"})
  {
  }

  // ---------------------------------------------------------------------
  // Ordering of the findings

  /** The sort comparator: found before clear, every other pair a tie. */
  function Compare(a: Finding, b: Finding): (c: int)
    ensures c == -1 <==> a.status == "found" && b.status == "clear"
    ensures c == 1 <==> a.status == "clear" && b.status == "found"
    ensures -1 <= c <= 1
  {
    if a.status == "found" && b.status == "clear" then -1
    else if a.status == "clear" && b.status == "found" then 1
    else 0
  }

  /** Swapping the arguments negates the comparison. */
  lemma CompareAntisymmetric(a: Finding, b: Finding)
    ensures Compare(a, b) == -Compare(b, a)
  {
  }

  /** Insert `x` behind the sorted `p`, moving it left past every element the comparator puts after it. */
  function Insert(p: seq<Finding>, x: Finding): seq<Finding>
    decreases |p|
  {
    if p == [] then [x]
    else if Compare(p[|p| - 1], x) > 0 then Insert(p[..|p| - 1], x) + [p[|p| - 1]]
    else p + [x]
  }

  /** The findings as the stable insertion sort leaves them. */
  function Sorted(s: seq<Finding>): seq<Finding>
    decreases |s|
  {
    if s == [] then [] else Insert(Sorted(s[..|s| - 1]), s[|s| - 1])
  }

  function Found(s: seq<Finding>): seq<Finding>
    decreases |s|
  {
    if s == [] then []
    else if s[|s| - 1].status == "found" then Found(s[..|s| - 1]) + [s[|s| - 1]]
    else Found(s[..|s| - 1])
  }

  function Clear(s: seq<Finding>): seq<Finding>
    decreases |s|
  {
    if s == [] then []
    else if s[|s| - 1].status == "clear" then Clear(s[..|s| - 1]) + [s[|s| - 1]]
    else Clear(s[..|s| - 1])
  }

  predicate FoundOrClear(s: seq<Finding>) {
    forall i :: 0 <= i < |s| ==> s[i].status == "found" || s[i].status == "clear"
  }

  /** Every answer the program gives has findings that are found or clear, as the sort lemmas require. */
  lemma AnswersFoundOrClear(query: string, extracted: string)
    ensures FoundOrClear(MockQueryResult(query, extracted).findings)
  {
    PersonFindingsFoundOrClear(extracted);
    var r := MockQueryResult(query, extracted);
    assert r.findings in {ZhangXiaoHuaFindings, AbcCompanyFindings, WangLiRelationshipFindings,
                          ChenXiaoWeiFindings, DefaultResult(extracted).findings, []};
  }

  lemma PersonFindingsFoundOrClear(extracted: string)
    ensures FoundOrClear(ZhangXiaoHuaFindings) && FoundOrClear(AbcCompanyFindings)
    ensures FoundOrClear(WangLiRelationshipFindings) && FoundOrClear(ChenXiaoWeiFindings)
    ensures FoundOrClear(DefaultResult(extracted).findings)
  {
  }

  lemma {:induction false} InsertPermutes(p: seq<Finding>, x: Finding)
    ensures multiset(Insert(p, x)) == multiset(p) + multiset{x}
    decreases |p|
  {
    if p != [] && Compare(p[|p| - 1], x) > 0 {
      InsertPermutes(p[..|p| - 1], x);
      assert p == p[..|p| - 1] + [p[|p| - 1]];
    }
  }

  /** A non-empty sequence's multiset is that of its prefix plus its last element. */
  lemma LastSplit(s: seq<Finding>)
    requires s != []
    ensures multiset(s) == multiset(s[..|s| - 1]) + multiset{s[|s| - 1]}
  {
    assert s == s[..|s| - 1] + [s[|s| - 1]];
  }

  /** Sorting only reorders: the same findings, each as often. */
  lemma {:induction false} SortPermutes(s: seq<Finding>)
    ensures multiset(Sorted(s)) == multiset(s)
    decreases |s|
  {
    if s != [] {
      var init, last := s[..|s| - 1], s[|s| - 1];
      SortPermutes(init);
      InsertPermutes(Sorted(init), last);
      assert multiset(Sorted(s)) == multiset(init) + multiset{last};
      LastSplit(s);
    }
  }

  /** A found finding passes every clear one at the end and stops behind the found ones. */
  lemma {:induction false} InsertFound(f: seq<Finding>, c: seq<Finding>, x: Finding)
    requires forall i :: 0 <= i < |f| ==> f[i].status == "found"
    requires forall i :: 0 <= i < |c| ==> c[i].status == "clear"
    requires x.status == "found"
    ensures Insert(f + c, x) == f + [x] + c
    decreases |c|
  {
    if c == [] {
      assert f + c == f;
      if f != [] {
        assert Compare(f[|f| - 1], x) == 0;
      }
    } else {
      var c' := c[..|c| - 1];
      assert (f + c)[..|f + c| - 1] == f + c';
      assert (f + c)[|f + c| - 1] == c[|c| - 1];
      InsertFound(f, c', x);
      assert f + [x] + c' + [c[|c| - 1]] == f + [x] + c;
    }
  }

  /** A clear finding stays at the end. */
  lemma InsertClear(f: seq<Finding>, c: seq<Finding>, x: Finding)
    requires forall i :: 0 <= i < |f| ==> f[i].status == "found"
    requires forall i :: 0 <= i < |c| ==> c[i].status == "clear"
    requires x.status == "clear"
    ensures Insert(f + c, x) == f + c + [x]
  {
    if c == [] {
      assert f + c == f;
      if f != [] {
        assert Compare(f[|f| - 1], x) == -1;
      }
    } else {
      assert (f + c)[|f + c| - 1] == c[|c| - 1];
    }
  }

  lemma {:induction false} FoundAllFound(s: seq<Finding>)
    ensures forall i :: 0 <= i < |Found(s)| ==> Found(s)[i].status == "found"
    ensures forall i :: 0 <= i < |Clear(s)| ==> Clear(s)[i].status == "clear"
    decreases |s|
  {
    if s != [] {
      FoundAllFound(s[..|s| - 1]);
    }
  }

  /**
   * When every status is found or clear, the sort puts the found findings
   * first and the clear ones after, each group in its original order.
   */
  lemma {:induction false} SortSplits(s: seq<Finding>)
    requires FoundOrClear(s)
    ensures Sorted(s) == Found(s) + Clear(s)
    decreases |s|
  {
    if s == [] {
    } else {
      var s', x := s[..|s| - 1], s[|s| - 1];
      assert FoundOrClear(s') by {
        forall i | 0 <= i < |s'| ensures s'[i].status == "found" || s'[i].status == "clear" {
          assert s'[i] == s[i];
        }
      }
      SortSplits(s');
      FoundAllFound(s');
      if x.status == "found" {
        InsertFound(Found(s'), Clear(s'), x);
      } else {
        InsertClear(Found(s'), Clear(s'), x);
      }
    }
  }

  /** After the sort no clear finding comes before a found one. */
  lemma FoundBeforeClear(s: seq<Finding>)
    requires FoundOrClear(s)
    ensures forall i, j :: 0 <= i < j < |Sorted(s)| ==>
              !(Sorted(s)[i].status == "clear" && Sorted(s)[j].status == "found")
  {
    SortSplits(s);
    FoundAllFound(s);
    var f, c := Found(s), Clear(s);
    forall i, j | 0 <= i < j < |Sorted(s)|
      ensures !(Sorted(s)[i].status == "clear" && Sorted(s)[j].status == "found")
    {
      if i < |f| {
        assert Sorted(s)[i] == f[i];
      } else {
        assert Sorted(s)[j] == c[j - |f|];
      }
    }
  }

  lemma {:induction false} FoundClearOfSplit(f: seq<Finding>, c: seq<Finding>)
    requires forall i :: 0 <= i < |f| ==> f[i].status == "found"
    requires forall i :: 0 <= i < |c| ==> c[i].status == "clear"
    ensures Found(f + c) == f && Clear(f + c) == c
    decreases |c|, |f|
  {
    if c == [] {
      assert f + c == f;
      if f != [] {
        assert f[..|f| - 1] + [] == f[..|f| - 1];
        FoundClearOfSplit(f[..|f| - 1], []);
      }
    } else {
      assert (f + c)[..|f + c| - 1] == f + c[..|c| - 1];
      FoundClearOfSplit(f, c[..|c| - 1]);
    }
  }

  /** The panel sorts on every render; sorting an already sorted list changes nothing. */
  lemma SortIdempotent(s: seq<Finding>)
    requires FoundOrClear(s)
    ensures Sorted(Sorted(s)) == Sorted(s)
  {
    SortSplits(s);
    FoundAllFound(s);
    var t := Sorted(s);
    assert FoundOrClear(t) by {
      forall i | 0 <= i < |t| ensures t[i].status == "found" || t[i].status == "clear" {
        if i >= |Found(s)| {
          assert t[i] == Clear(s)[i - |Found(s)|];
        }
      }
    }
    SortSplits(t);
    FoundClearOfSplit(Found(s), Clear(s));
  }

  /** Where insertion stops: behind the last element the comparator does not put after `x`. */
  lemma {:induction false} InsertSplit(p: seq<Finding>, x: Finding, j: int)
    requires 0 <= j <= |p|
    requires forall k :: j <= k < |p| ==> Compare(p[k], x) > 0
    requires j == 0 || Compare(p[j - 1], x) <= 0
    ensures Insert(p, x) == p[..j] + [x] + p[j..]
    decreases |p|
  {
    if j < |p| {
      var q := p[..|p| - 1];
      assert q[..j] == p[..j];
      InsertSplit(q, x, j);
      assert p[j..] == q[j..] + [p[|p| - 1]];
    } else {
      assert p[..j] == p;
    }
  }

  /**
   * The inner loop of one insertion step: from `i` leftwards, every element
   * the comparator puts after `x` moves one place right; `j` is the gap left.
   */
  method ShiftBack(a: array<Finding>, i: int, x: Finding) returns (j: int)
    requires 0 <= i < a.Length
    modifies a
    ensures 0 <= j <= i
    ensures a[..] == old(a[..j + 1]) + old(a[j..i]) + old(a[i + 1..])
    ensures forall k :: j <= k < i ==> Compare(old(a[k]), x) > 0
    ensures j == 0 || Compare(old(a[j - 1]), x) <= 0
  {
    ghost var s := a[..];
    j := i;
    while j > 0 && Compare(a[j - 1], x) > 0
      invariant 0 <= j <= i
      invariant forall k :: 0 <= k <= j ==> a[k] == s[k]
      invariant forall k :: j < k <= i ==> a[k] == s[k - 1]
      invariant forall k :: i < k < a.Length ==> a[k] == s[k]
      invariant forall k :: j <= k < i ==> Compare(s[k], x) > 0
    {
      a[j] := a[j - 1];
      j := j - 1;
    }
    ShiftedShape(s, a[..], i, j);
  }

  /** The array after `ShiftBack`, pointwise, as the three old pieces. */
  lemma ShiftedShape(s: seq<Finding>, t: seq<Finding>, i: int, j: int)
    requires 0 <= j <= i < |s| == |t|
    requires forall k :: 0 <= k <= j ==> t[k] == s[k]
    requires forall k :: j < k <= i ==> t[k] == s[k - 1]
    requires forall k :: i < k < |s| ==> t[k] == s[k]
    ensures t == s[..j + 1] + s[j..i] + s[i + 1..]
  {
  }

  /** Writing `x` into the gap `ShiftBack` left inserts it at `j` into `s[..i]`. */
  lemma PlacedShape(s: seq<Finding>, t: seq<Finding>, i: int, j: int, x: Finding)
    requires 0 <= j <= i < |s|
    requires t == s[..j + 1] + s[j..i] + s[i + 1..]
    ensures t[j := x][..i + 1] == s[..i][..j] + [x] + s[..i][j..]
    ensures t[j := x][i + 1..] == s[i + 1..]
  {
    var u := t[j := x];
    assert |u| == |s|;
    assert forall k :: 0 <= k < j ==> u[k] == s[k];
    assert forall k :: i < k < |s| ==> u[k] == s[k];
  }

  /** One step of the insertion sort: `a[i]` moves left into the sorted `a[..i]`. */
  method InsertInto(a: array<Finding>, i: int)
    requires 0 <= i < a.Length
    modifies a
    ensures a[..i + 1] == Insert(old(a[..i]), old(a[i]))
    ensures a[i + 1..] == old(a[i + 1..])
  {
    ghost var s := a[..];
    var x := a[i];
    var j := ShiftBack(a, i, x);
    ghost var t := a[..];
    InsertSplit(s[..i], x, j);
    a[j] := x;
    PlacedShape(s, t, i, j, x);
    assert a[..] == t[j := x];
  }

  /** `result.findings.sort(comparator)`, in place: a stable insertion sort. */
  method SortFindings(a: array<Finding>)
    modifies a
    ensures a[..] == Sorted(old(a[..]))
  {
    ghost var s := a[..];
    var i := 0;
    while i < a.Length
      invariant 0 <= i <= a.Length
      invariant a[..i] == Sorted(s[..i])
      invariant a[i..] == s[i..]
    {
      assert a[i] == s[i];
      InsertInto(a, i);
      assert s[..i + 1][..i] == s[..i];
      i := i + 1;
    }
    assert s[..a.Length] == s;
  }

  // ---------------------------------------------------------------------
  // Risk details

  /** The case keywords, and the entry each adds, in the order they are tested. */
  const CaseKeywords: seq<string> := ["詐欺", "背信", "洗錢", "銀行法", "公司法", "合夥"]
  const CaseLabels: seq<string> := ["詐欺相關案件", "背信案件", "洗錢案件", "違反銀行法", "違反公司法", "合夥糾紛"]

  /** What the `k`-th keyword test adds for a content. */
  function Adds(content: string, k: nat): seq<string>
    requires k < 6
  {
    if Includes(content, CaseKeywords[k]) then [CaseLabels[k]] else []
  }

  /** The entries the first `k` keyword tests add for a content, in test order. */
  function Tested(content: string, k: nat): seq<string>
    requires k <= 6
  {
    if k == 0 then [] else Tested(content, k - 1) + Adds(content, k - 1)
  }

  /** Only a found record of the court-judgment source adds entries. */
  predicate CourtHit(f: Finding) {
    f.status == "found" && f.source == CourtRecords
  }

  /** The entries one finding adds: all six keyword tests for a court hit, nothing otherwise. */
  function FindingEntries(f: Finding): seq<string> {
    if CourtHit(f) then Tested(f.content, 6) else []
  }

  /** The `cases` list after the findings have been visited in order. */
  function CaseEntries(fs: seq<Finding>): seq<string>
    decreases |fs|
  {
    if fs == [] then [] else CaseEntries(fs[..|fs| - 1]) + FindingEntries(fs[|fs| - 1])
  }

  /** An entry is added by the first `k` tests exactly when one of their keywords occurs. */
  lemma {:induction false} TestedMembers(content: string, k: nat, e: string)
    requires k <= 6
    ensures e in Tested(content, k)
            <==> exists m :: 0 <= m < k && e == CaseLabels[m] && Includes(content, CaseKeywords[m])
  {
    if k > 0 {
      TestedMembers(content, k - 1, e);
    }
  }

  /** Each entry is added at most once per finding. */
  lemma {:induction false} TestedDistinct(content: string, k: nat)
    requires k <= 6
    ensures forall i, j :: 0 <= i < j < |Tested(content, k)| ==>
              Tested(content, k)[i] != Tested(content, k)[j]
  {
    if k > 0 {
      TestedDistinct(content, k - 1);
      var init := Tested(content, k - 1);
      var last := Adds(content, k - 1);
      if last != [] {
        forall i | 0 <= i < |init| ensures init[i] != CaseLabels[k - 1] {
          TestedMembers(content, k - 1, init[i]);
          var m :| 0 <= m < k - 1 && init[i] == CaseLabels[m] && Includes(content, CaseKeywords[m]);
        }
      }
      forall i, j | 0 <= i < j < |init + last|
        ensures (init + last)[i] != (init + last)[j]
      {
        assert (init + last)[i] == init[i];
        if j >= |init| {
          assert (init + last)[j] == CaseLabels[k - 1];
        } else {
          assert (init + last)[j] == init[j];
        }
      }
    }
  }

  /** A finding's entries: one per keyword found in it, only for a found court-judgment record. */
  lemma FindingEntriesMembers(f: Finding, e: string)
    ensures e in FindingEntries(f)
            <==> CourtHit(f) && exists m :: 0 <= m < 6 && e == CaseLabels[m] && Includes(f.content, CaseKeywords[m])
  {
    TestedMembers(f.content, 6, e);
  }

  /** An entry is in `cases` exactly when one of the findings adds it. */
  lemma {:induction false} CaseEntriesMembers(fs: seq<Finding>, e: string)
    ensures e in CaseEntries(fs) <==> exists i :: 0 <= i < |fs| && e in FindingEntries(fs[i])
    decreases |fs|
  {
    if fs != [] {
      var fs' := fs[..|fs| - 1];
      CaseEntriesMembers(fs', e);
      if e in CaseEntries(fs') {
        var i :| 0 <= i < |fs'| && e in FindingEntries(fs'[i]);
        assert fs[i] == fs'[i];
      }
      if exists i :: 0 <= i < |fs| && e in FindingEntries(fs[i]) {
        var i :| 0 <= i < |fs| && e in FindingEntries(fs[i]);
        if i < |fs'| {
          assert fs'[i] == fs[i];
        }
      }
    }
  }

  /** A finding that is not a found court-judgment record leaves `cases` as it was. */
  lemma OnlyCourtHitsCount(fs: seq<Finding>, f: Finding)
    requires !CourtHit(f)
    ensures CaseEntries(fs + [f]) == CaseEntries(fs)
  {
    assert (fs + [f])[..|fs + [f]| - 1] == fs;
  }

  /** The related persons, by the first query branch that matches; none when no branch matches. */
  function RelatedPersons(query: string): (persons: seq<string>)
    ensures persons == [] <==>
              !Includes(query, "張小華") && !Includes(query, "陳世凱")
              && !(Includes(query, "王小明") && Includes(query, "李大華")) && !Includes(query, "陳曉偉")
    ensures persons != [] ==> |persons| == 3
  {
    if Includes(query, "張小華") then ["沈志豪（親屬）", "林麗雯（配偶）", "謝美麗（共犯）"]
    else if Includes(query, "陳世凱") then ["陳美玲（配偶）", "劉志明（商業夥伴）", "王大同（共同投資人）"]
    else if Includes(query, "王小明") && Includes(query, "李大華") then ["張雅芳（證人）", "林建國（證人）", "王小明與李大華（商業夥伴）"]
    else if Includes(query, "陳曉偉") then ["陳麗華（配偶）", "黃志成（共犯）", "Nguyen Van A（當地共犯）"]
    else []
  }

  /** A query naming 張小華 lists 張小華's people whatever else it names. */
  lemma PersonsFirstMatch(query: string)
    requires Includes(query, "張小華")
    ensures RelatedPersons(query) == ["沈志豪（親屬）", "林麗雯（配偶）", "謝美麗（共犯）"]
  {
  }

  /** The body of the findings loop: the six keyword tests on one found court-judgment record. */
  method FindingCases(finding: Finding) returns (added: seq<string>)
    ensures added == FindingEntries(finding)
  {
    added := [];
    if finding.status == "found" && finding.source == CourtRecords {
      var content := finding.content;
      if Includes(content, "詐欺") { added := added + ["詐欺相關案件"]; }
      assert added == Tested(content, 1);
      if Includes(content, "背信") { added := added + ["背信案件"]; }
      assert added == Tested(content, 2);
      if Includes(content, "洗錢") { added := added + ["洗錢案件"]; }
      assert added == Tested(content, 3);
      if Includes(content, "銀行法") { added := added + ["違反銀行法"]; }
      assert added == Tested(content, 4);
      if Includes(content, "公司法") { added := added + ["違反公司法"]; }
      assert added == Tested(content, 5);
      if Includes(content, "合夥") { added := added + ["合夥糾紛"]; }
    }
  }

  /**
   * `generateRiskDetails`: visit the findings in order, adding the case entries
   * of each found court-judgment record, then pick the related persons.
   */
  method RiskDetails(findings: seq<Finding>, query: string) returns (cases: seq<string>, persons: seq<string>)
    ensures cases == CaseEntries(findings)
    ensures persons == RelatedPersons(query)
  {
    cases := [];
    var i := 0;
    while i < |findings|
      invariant 0 <= i <= |findings|
      invariant cases == CaseEntries(findings[..i])
    {
      var added := FindingCases(findings[i]);
      cases := cases + added;
      assert findings[..i + 1][..i] == findings[..i];
      i := i + 1;
    }
    assert findings[..|findings|] == findings;
    persons := RelatedPersons(query);
  }

  // ---------------------------------------------------------------------
  // Typewriter

  /**
   * The typewriter's state: the text shown, the blinking-cursor flag, the
   * index of the next character, the text being typed, whether the interval
   * is still running, and the two refs that remember the last summary and
   * whether it was typed to the end.
   */
  datatype Typing = Typing(
    displayedText: string,
    isTyping: bool,
    currentIndex: nat,
    fullText: string,
    running: bool,
    hasCompleted: bool,
    currentSummary: Option<string>)

  const InitialTyping := Typing("", false, 0, "", false, false, None)

  /** The effect that runs when `result.summary` is set or changes. */
  function Effect(t: Typing, summary: string): Typing {
    if summary == "" then t
    else
      var t' := if t.currentSummary != Some(summary)
                then t.(hasCompleted := false, currentSummary := Some(summary)) else t;
      if t'.hasCompleted then t'
      else t'.(displayedText := "", isTyping := true, currentIndex := 0, fullText := summary, running := true)
  }

  /** One interval tick; the flag says whether `onTypingComplete` was called. */
  function Tick(t: Typing): (Typing, bool) {
    if !t.running then (t, false)
    else if t.currentIndex < |t.fullText| then
      (t.(displayedText := t.fullText[..t.currentIndex + 1], currentIndex := t.currentIndex + 1), false)
    else
      (t.(isTyping := false, running := false, hasCompleted := true), true)
  }

  /** The effect's cleanup: the interval is cleared and the cursor hidden. */
  function Cleanup(t: Typing): Typing {
    t.(running := false, isTyping := false)
  }

  /** `k` ticks in a row. */
  function Ticks(t: Typing, k: nat): Typing
    decreases k
  {
    if k == 0 then t else Ticks(Tick(t).0, k - 1)
  }

  /** While the interval runs, the text shown is the summary's prefix up to the index. */
  predicate TypingValid(t: Typing) {
    t.running ==> t.isTyping && t.currentIndex <= |t.fullText| && t.displayedText == t.fullText[..t.currentIndex]
  }

  /** A tick keeps the text shown a prefix of the summary and advances by one character. */
  lemma TickKeepsPrefix(t: Typing)
    requires TypingValid(t)
    ensures TypingValid(Tick(t).0)
    ensures t.running && t.currentIndex < |t.fullText| ==>
              Tick(t).0.currentIndex == t.currentIndex + 1 && !Tick(t).1 && Tick(t).0.running
  {
  }

  /** The tick after the last character stops the interval and reports completion, once. */
  lemma TickCompletes(t: Typing)
    requires t.running && t.currentIndex == |t.fullText|
    ensures var (t', fired) := Tick(t);
            fired && !t'.isTyping && !t'.running && t'.hasCompleted
            && t'.displayedText == t.displayedText
    ensures var (t', _) := Tick(t); !Tick(t').1
  {
  }

  /** A new, non-empty summary starts typing from the empty text. */
  lemma EffectStarts(t: Typing, summary: string)
    requires summary != "" && t.currentSummary != Some(summary)
    ensures var t' := Effect(t, summary);
            t'.running && t'.isTyping && t'.currentIndex == 0 && t'.displayedText == ""
            && t'.fullText == summary && !t'.hasCompleted && TypingValid(t')
  {
  }

  /** After `k` ticks from the start, the first `k` characters are shown. */
  lemma {:induction false} TicksType(t: Typing, k: nat)
    requires t.running && t.currentIndex == 0 && t.displayedText == "" && t.isTyping
    requires k <= |t.fullText|
    ensures var u := Ticks(t, k);
            u.running && u.currentIndex == k && u.displayedText == t.fullText[..k]
            && u.fullText == t.fullText && u.hasCompleted == t.hasCompleted
            && u.currentSummary == t.currentSummary
    decreases k
  {
    if k > 0 {
      TicksType(t, k - 1);
      TicksSplit(t, k - 1);
    }
  }

  lemma {:induction false} TicksSplit(t: Typing, k: nat)
    ensures Ticks(t, k + 1) == Tick(Ticks(t, k)).0
    decreases k
  {
    if k > 0 {
      TicksSplit(Tick(t).0, k - 1);
    }
  }

  /**
   * A summary of `n` characters is typed out by `n` ticks, and the next tick
   * completes; after that the same summary is never typed again.
   */
  lemma TypesWholeSummary(t: Typing, summary: string)
    requires summary != "" && t.currentSummary != Some(summary)
    ensures var u := Ticks(Effect(t, summary), |summary|);
            u.displayedText == summary && Tick(u).1
    ensures var done := Tick(Ticks(Effect(t, summary), |summary|)).0;
            done.hasCompleted && Effect(Cleanup(done), summary) == Cleanup(done)
  {
    var s := Effect(t, summary);
    TicksType(s, |summary|);
    assert summary[..|summary|] == summary;
  }

  /** An empty summary does nothing. */
  lemma EmptySummaryIgnored(t: Typing)
    ensures Effect(t, "") == t
  {
  }

  /** The panel's own state: minimised or not, the drag, and the typewriter. */
  class Panel {
    var isMinimized: bool
    var drag: Drag
    var typing: Typing

    constructor (innerWidth: int)
      ensures !isMinimized && drag == InitialDrag(innerWidth) && typing == InitialTyping
    {
      isMinimized := false;
      drag := InitialDrag(innerWidth);
      typing := InitialTyping;
    }

    method ToggleMinimized()
      modifies this
      ensures isMinimized == !old(isMinimized) && drag == old(drag) && typing == old(typing)
    {
      isMinimized := !isMinimized;
    }

    method HandleMouseDown(client: Point, onControls: bool)
      modifies this
      ensures drag == MouseDown(old(drag), client, onControls)
      ensures isMinimized == old(isMinimized) && typing == old(typing)
    {
      drag := MouseDown(drag, client, onControls);
    }

    method HandleMouseMove(client: Point, innerWidth: int, innerHeight: int)
      modifies this
      ensures drag == MouseMove(old(drag), client, innerWidth, innerHeight)
      ensures isMinimized == old(isMinimized) && typing == old(typing)
    {
      drag := MouseMove(drag, client, innerWidth, innerHeight);
    }

    method HandleMouseUp()
      modifies this
      ensures drag == MouseUp(old(drag))
      ensures isMinimized == old(isMinimized) && typing == old(typing)
    {
      drag := MouseUp(drag);
    }

    method HandleResize(innerWidth: int, innerHeight: int)
      modifies this
      ensures drag == Resize(old(drag), innerWidth, innerHeight)
      ensures isMinimized == old(isMinimized) && typing == old(typing)
    {
      drag := Resize(drag, innerWidth, innerHeight);
    }

    /** A new summary: the previous effect is cleaned up, then the effect runs. */
    method SummaryChanged(summary: string)
      modifies this
      ensures typing == Effect(Cleanup(old(typing)), summary)
      ensures isMinimized == old(isMinimized) && drag == old(drag)
    {
      typing := Effect(Cleanup(typing), summary);
    }

    /** One interval tick; `completed` is true when `onTypingComplete` is called. */
    method TypingTick() returns (completed: bool)
      modifies this
      ensures (typing, completed) == Tick(old(typing))
      ensures isMinimized == old(isMinimized) && drag == old(drag)
    {
      var next;
      next, completed := Tick(typing).0, Tick(typing).1;
      typing := next;
    }
  }
}
