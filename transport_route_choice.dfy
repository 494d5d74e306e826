/**
 * The low-carbon route chooser: a plan-choice screen (public transport or
 * car), and for public transport a three-segment itinerary 逢甲 → 烏日高鐵 →
 * 左營高鐵 → 駁二特區 whose transport per segment the user picks and then
 * confirms, which locks the choice until 返回編輯 is pressed.
 */
module TransportRouteChoice {
  import opened Wrappers

  /** The two plans of the choice screen ('public-transport' and 'car'). */
  datatype Route = PublicTransport | Car

  /** The transport types an option can carry ('bus', 'taxi', 'bike', 'hsr', 'mrt'). */
  datatype Mode = Bus | Taxi | Bike | Hsr | Mrt

  datatype Segment = Segment1 | Segment2 | Segment3

  /** `selectedTransports`: one transport type per segment. */
  datatype Transports = Transports(segment1: Mode, segment2: Mode, segment3: Mode)

  /** The component's three pieces of state. */
  datatype Choice = Choice(selectedRoute: Option<Route>, selectedTransports: Transports, isConfirmed: bool)

  /** The defaults: bus, high-speed rail, metro. */
  const DefaultTransports := Transports(Bus, Hsr, Mrt)

  const InitialChoice := Choice(None, DefaultTransports, false)

  function Get(t: Transports, seg: Segment): Mode {
    match seg
    case Segment1 => t.segment1
    case Segment2 => t.segment2
    case Segment3 => t.segment3
  }

  /** `handleTransportSelect(segment, transportType)`: overwrite one key of the previous object. */
  function Select(t: Transports, seg: Segment, mode: Mode): Transports {
    match seg
    case Segment1 => t.(segment1 := mode)
    case Segment2 => t.(segment2 := mode)
    case Segment3 => t.(segment3 := mode)
  }

  /** Selecting sets the chosen segment and leaves the other two as they were. */
  lemma SelectChangesOneSegment(t: Transports, seg: Segment, mode: Mode)
    ensures Get(Select(t, seg, mode), seg) == mode
    ensures forall other :: other != seg ==> Get(Select(t, seg, mode), other) == Get(t, other)
  {
  }

  // ---------------------------------------------------------------------
  // The options each segment offers

  /** One transport button: its type, whether it is the segment's default, and the saving badge. */
  datatype TransportOption = TransportOption(mode: Mode, isDefault: bool, saving: Option<nat>)

  /**
   * The buttons of a segment, in screen order: 10 km by bus (⚡60%), taxi or
   * bike (⚡95%); 184 km by high-speed rail (⚡75%); 11 km by metro (⚡75%) or taxi.
   */
  function Offered(seg: Segment): (opts: seq<TransportOption>)
    ensures |opts| > 0 && opts[0].isDefault && opts[0].mode == Get(DefaultTransports, seg)
    ensures forall i :: 0 < i < |opts| ==> !opts[i].isDefault
  {
    match seg
    case Segment1 => [TransportOption(Bus, true, Some(60)), TransportOption(Taxi, false, None),
                      TransportOption(Bike, false, Some(95))]
    case Segment2 => [TransportOption(Hsr, true, Some(75))]
    case Segment3 => [TransportOption(Mrt, true, Some(75)), TransportOption(Taxi, false, None)]
  }

  predicate IsOffered(seg: Segment, mode: Mode) {
    exists i :: 0 <= i < |Offered(seg)| && Offered(seg)[i].mode == mode
  }

  /** Each segment's types, written out. */
  lemma OfferedModes(seg: Segment, mode: Mode)
    ensures IsOffered(seg, mode) <==>
              match seg
              case Segment1 => mode == Bus || mode == Taxi || mode == Bike
              case Segment2 => mode == Hsr
              case Segment3 => mode == Mrt || mode == Taxi
  {
    var opts := Offered(seg);
    if seg == Segment1 && mode == Taxi { assert opts[1].mode == mode; }
    if seg == Segment1 && mode == Bike { assert opts[2].mode == mode; }
    if seg == Segment3 && mode == Taxi { assert opts[1].mode == mode; }
  }

  /** The selections the option buttons can produce: every segment holds one of its offered types. */
  predicate Valid(t: Transports) {
    IsOffered(Segment1, t.segment1) && IsOffered(Segment2, t.segment2) && IsOffered(Segment3, t.segment3)
  }

  /** A button as drawn: its type, and its `isSelected` and `isRecommended` props. */
  datatype OptionView = OptionView(mode: Mode, isSelected: bool, isRecommended: bool)

  /**
   * The buttons drawn from `opts`: all of them while editing, only the
   * selected one once confirmed; only a default carries `isRecommended`, set
   * while it is not the selection.
   */
  function Shown(opts: seq<TransportOption>, selected: Mode, isConfirmed: bool): seq<OptionView>
    decreases |opts|
  {
    if opts == [] then []
    else
      var o := opts[0];
      var rest := Shown(opts[1..], selected, isConfirmed);
      if !isConfirmed || o.mode == selected
      then [OptionView(o.mode, o.mode == selected, o.isDefault && o.mode != selected)] + rest
      else rest
  }

  function SegmentView(t: Transports, seg: Segment, isConfirmed: bool): seq<OptionView> {
    Shown(Offered(seg), Get(t, seg), isConfirmed)
  }

  lemma {:induction false} ShownEditing(opts: seq<TransportOption>, selected: Mode)
    ensures |Shown(opts, selected, false)| == |opts|
    ensures forall i :: 0 <= i < |opts| ==>
              Shown(opts, selected, false)[i]
              == OptionView(opts[i].mode, opts[i].mode == selected, opts[i].isDefault && opts[i].mode != selected)
    decreases |opts|
  {
    if opts != [] {
      ShownEditing(opts[1..], selected);
    }
  }

  /** While editing, every offered button is drawn, and exactly the selected type is marked selected. */
  lemma EditingShowsAll(t: Transports, seg: Segment)
    ensures |SegmentView(t, seg, false)| == |Offered(seg)|
    ensures forall i :: 0 <= i < |Offered(seg)| ==>
              SegmentView(t, seg, false)[i].mode == Offered(seg)[i].mode
              && (SegmentView(t, seg, false)[i].isSelected <==> Offered(seg)[i].mode == Get(t, seg))
  {
    ShownEditing(Offered(seg), Get(t, seg));
  }

  lemma {:induction false} ShownConfirmed(opts: seq<TransportOption>, selected: Mode, i: int)
    requires 0 <= i < |opts| && opts[i].mode == selected
    requires forall k :: 0 <= k < |opts| && k != i ==> opts[k].mode != selected
    ensures Shown(opts, selected, true) == [OptionView(selected, true, false)]
    decreases |opts|
  {
    if i > 0 {
      ShownConfirmed(opts[1..], selected, i - 1);
    } else {
      ShownNone(opts[1..], selected);
    }
  }

  lemma {:induction false} ShownNone(opts: seq<TransportOption>, selected: Mode)
    requires forall k :: 0 <= k < |opts| ==> opts[k].mode != selected
    ensures Shown(opts, selected, true) == []
    decreases |opts|
  {
    if opts != [] {
      ShownNone(opts[1..], selected);
    }
  }

  /**
   * Once confirmed, a segment whose selection is one of its offered types
   * shows exactly that one button, marked selected and not recommended.
   */
  lemma ConfirmedShowsSelection(t: Transports, seg: Segment)
    requires IsOffered(seg, Get(t, seg))
    ensures SegmentView(t, seg, true) == [OptionView(Get(t, seg), true, false)]
  {
    var opts, m := Offered(seg), Get(t, seg);
    var i :| 0 <= i < |opts| && opts[i].mode == m;
    ShownConfirmed(opts, m, i);
  }

  /** The default button is flagged recommended exactly when another type is selected. */
  lemma RecommendedUnlessSelected(t: Transports, seg: Segment)
    ensures SegmentView(t, seg, false)[0].mode == Get(DefaultTransports, seg)
    ensures SegmentView(t, seg, false)[0].isRecommended <==> Get(t, seg) != Get(DefaultTransports, seg)
    ensures forall i :: 0 < i < |SegmentView(t, seg, false)| ==> !SegmentView(t, seg, false)[i].isRecommended
  {
    ShownEditing(Offered(seg), Get(t, seg));
  }

  // ---------------------------------------------------------------------
  // Screens and events

  /** What is drawn: the loading notice, the plan choice, or the itinerary with its buttons. */
  datatype Screen =
    | Loading
    | PlanChoice
    | Itinerary(segment1: seq<OptionView>, segment2: seq<OptionView>, segment3: seq<OptionView>, isConfirmed: bool)

  function Render(isVisible: bool, c: Choice): (s: Screen)
    ensures s.Itinerary? <==> isVisible && c.selectedRoute == Some(PublicTransport)
    ensures s.Loading? <==> !isVisible
  {
    if !isVisible then Loading
    else if c.selectedRoute == Some(PublicTransport) then
      var t := c.selectedTransports;
      Itinerary(SegmentView(t, Segment1, c.isConfirmed), SegmentView(t, Segment2, c.isConfirmed),
                SegmentView(t, Segment3, c.isConfirmed), c.isConfirmed)
    else PlanChoice
  }

  /** The clicks the screens offer. */
  datatype Event =
    | RouteClick(route: Route)
    | OptionClick(seg: Segment, mode: Mode)
    | ClearClick
    | ConfirmClick
    | EditClick

  function Views(s: Screen, seg: Segment): seq<OptionView>
    requires s.Itinerary?
  {
    match seg
    case Segment1 => s.segment1
    case Segment2 => s.segment2
    case Segment3 => s.segment3
  }

  predicate Drawn(views: seq<OptionView>, mode: Mode) {
    exists i :: 0 <= i < |views| && views[i].mode == mode
  }

  /**
   * Whether the screen drawn for `c` has the control: the plan cards on the
   * plan-choice screen, the drawn option buttons on the itinerary,
   * 清除 and 確定 while editing, 返回編輯 once confirmed.
   */
  predicate Available(isVisible: bool, c: Choice, e: Event) {
    var s := Render(isVisible, c);
    match e
    case RouteClick(_) => s.PlanChoice?
    case OptionClick(seg, mode) => s.Itinerary? && Drawn(Views(s, seg), mode)
    case ClearClick => s.Itinerary? && !s.isConfirmed
    case ConfirmClick => s.Itinerary? && !s.isConfirmed
    case EditClick => s.Itinerary? && s.isConfirmed
  }

  /** The state after a click: what the handler behind each control does. */
  function Step(c: Choice, e: Event): Choice {
    match e
    case RouteClick(r) => c.(selectedRoute := Some(r))
    case OptionClick(seg, mode) =>
      if !c.isConfirmed then c.(selectedTransports := Select(c.selectedTransports, seg, mode)) else c
    case ClearClick => c.(selectedTransports := DefaultTransports, isConfirmed := false)
    case ConfirmClick => c.(isConfirmed := true)
    case EditClick => c.(isConfirmed := false)
  }

  /** While confirmed, an option click changes nothing. */
  lemma ConfirmLocks(c: Choice, seg: Segment, mode: Mode)
    requires c.isConfirmed
    ensures Step(c, OptionClick(seg, mode)) == c
  {
  }

  /** 清除 restores the three defaults and unlocks; the chosen plan stays. */
  lemma ClearRestores(c: Choice)
    ensures Step(c, ClearClick) == Choice(c.selectedRoute, DefaultTransports, false)
  {
  }

  /** 確定 locks and 返回編輯 unlocks, neither touching the selections; one undoes the other. */
  lemma ConfirmThenEdit(c: Choice)
    ensures Step(c, ConfirmClick).selectedTransports == c.selectedTransports
    ensures Step(c, EditClick).selectedTransports == c.selectedTransports
    ensures Step(c, ConfirmClick).isConfirmed && !Step(c, EditClick).isConfirmed
    ensures !c.isConfirmed ==> Step(Step(c, ConfirmClick), EditClick) == c
  {
  }

  /** Choosing the car plan keeps the plan-choice screen; choosing public transport opens the itinerary. */
  lemma RouteScreens(c: Choice)
    ensures Render(true, Step(c, RouteClick(Car))) == PlanChoice
    ensures Render(true, Step(c, RouteClick(PublicTransport))).Itinerary?
  {
  }

  /** Starting from the initial state the plan-choice screen is drawn, with the default selections. */
  lemma InitialScreen()
    ensures Render(true, InitialChoice) == PlanChoice
    ensures Valid(InitialChoice.selectedTransports)
  {
    OfferedModes(Segment1, Bus);
    OfferedModes(Segment2, Hsr);
    OfferedModes(Segment3, Mrt);
  }

  lemma DrawnIsShown(opts: seq<TransportOption>, selected: Mode, isConfirmed: bool, mode: Mode)
    requires Drawn(Shown(opts, selected, isConfirmed), mode)
    ensures exists i :: 0 <= i < |opts| && opts[i].mode == mode
    decreases |opts|
  {
    if opts != [] {
      var rest := Shown(opts[1..], selected, isConfirmed);
      if opts[0].mode != mode {
        var views := Shown(opts, selected, isConfirmed);
        var i :| 0 <= i < |views| && views[i].mode == mode;
        if !isConfirmed || opts[0].mode == selected {
          assert rest[i - 1] == views[i];
        }
        DrawnIsShown(opts[1..], selected, isConfirmed, mode);
        var k :| 0 <= k < |opts[1..]| && opts[1..][k].mode == mode;
        assert opts[k + 1].mode == mode;
      }
    }
  }

  /** A click on a drawn button selects a type the segment offers. */
  lemma OptionClickOffered(isVisible: bool, c: Choice, seg: Segment, mode: Mode)
    requires Available(isVisible, c, OptionClick(seg, mode))
    ensures IsOffered(seg, mode)
  {
    var t := c.selectedTransports;
    DrawnIsShown(Offered(seg), Get(t, seg), c.isConfirmed, mode);
  }

  /** Every click the screens offer keeps each segment on one of its offered types. */
  lemma StepKeepsValid(isVisible: bool, c: Choice, e: Event)
    requires Valid(c.selectedTransports)
    requires Available(isVisible, c, e)
    ensures Valid(Step(c, e).selectedTransports)
  {
    match e
    case OptionClick(seg, mode) =>
      OptionClickOffered(isVisible, c, seg, mode);
      SelectChangesOneSegment(c.selectedTransports, seg, mode);
    case ClearClick =>
      InitialScreen();
    case _ =>
  }

  /** The state after a sequence of clicks. */
  function Run(c: Choice, es: seq<Event>): Choice
    decreases |es|
  {
    if es == [] then c else Run(Step(c, es[0]), es[1..])
  }

  /** A sequence of clicks each offered by the screen in front of the user at the time. */
  predicate Clickable(isVisible: bool, c: Choice, es: seq<Event>)
    decreases |es|
  {
    es == [] || (Available(isVisible, c, es[0]) && Clickable(isVisible, Step(c, es[0]), es[1..]))
  }

  /**
   * Whatever the user clicks, segment 1 stays bus, taxi or bike, segment 2
   * high-speed rail and segment 3 metro or taxi.
   */
  lemma {:induction false} ReachableSelections(isVisible: bool, es: seq<Event>)
    requires Clickable(isVisible, InitialChoice, es)
    ensures Valid(Run(InitialChoice, es).selectedTransports)
  {
    InitialScreen();
    RunKeepsValid(isVisible, InitialChoice, es);
  }

  lemma {:induction false} RunKeepsValid(isVisible: bool, c: Choice, es: seq<Event>)
    requires Valid(c.selectedTransports)
    requires Clickable(isVisible, c, es)
    ensures Valid(Run(c, es).selectedTransports)
    decreases |es|
  {
    if es != [] {
      StepKeepsValid(isVisible, c, es[0]);
      RunKeepsValid(isVisible, Step(c, es[0]), es[1..]);
    }
  }

  /** With the selections valid, the confirmed itinerary shows each segment's selection and nothing else. */
  lemma ConfirmedItinerary(c: Choice)
    requires Valid(c.selectedTransports) && c.isConfirmed && c.selectedRoute == Some(PublicTransport)
    ensures Render(true, c) == Itinerary(
              [OptionView(c.selectedTransports.segment1, true, false)],
              [OptionView(c.selectedTransports.segment2, true, false)],
              [OptionView(c.selectedTransports.segment3, true, false)], true)
  {
    ConfirmedShowsSelection(c.selectedTransports, Segment1);
    ConfirmedShowsSelection(c.selectedTransports, Segment2);
    ConfirmedShowsSelection(c.selectedTransports, Segment3);
  }

  // ---------------------------------------------------------------------
  // The component

  /** The component's state, which its click handlers overwrite. */
  class RouteChooser {
    /** Whether an `onRouteSelect` callback was passed (App passes none). */
    const hasRouteCallback: bool
    var selectedRoute: Option<Route>
    var selectedTransports: Transports
    var isConfirmed: bool

    function State(): Choice
      reads this
    {
      Choice(selectedRoute, selectedTransports, isConfirmed)
    }

    constructor (hasRouteCallback: bool)
      ensures this.hasRouteCallback == hasRouteCallback
      ensures State() == InitialChoice
    {
      this.hasRouteCallback := hasRouteCallback;
      selectedRoute := None;
      selectedTransports := DefaultTransports;
      isConfirmed := false;
    }

    /** `handleRouteClick`; returns the route handed to the callback, if there is one. */
    method HandleRouteClick(route: Route) returns (notified: Option<Route>)
      modifies this
      ensures State() == Step(old(State()), RouteClick(route))
      ensures notified == if hasRouteCallback then Some(route) else None
    {
      selectedRoute := Some(route);
      notified := if hasRouteCallback then Some(route) else None;
    }

    method HandleTransportSelect(seg: Segment, mode: Mode)
      modifies this
      ensures selectedTransports == Select(old(selectedTransports), seg, mode)
      ensures selectedRoute == old(selectedRoute) && isConfirmed == old(isConfirmed)
    {
      selectedTransports := Select(selectedTransports, seg, mode);
    }

    /** An option button's `onClick`: select only while not confirmed. */
    method OptionClicked(seg: Segment, mode: Mode)
      modifies this
      ensures State() == Step(old(State()), OptionClick(seg, mode))
    {
      if !isConfirmed {
        HandleTransportSelect(seg, mode);
      }
    }

    method HandleClear()
      modifies this
      ensures State() == Step(old(State()), ClearClick)
    {
      selectedTransports := DefaultTransports;
      isConfirmed := false;
    }

    method HandleConfirm()
      modifies this
      ensures State() == Step(old(State()), ConfirmClick)
    {
      isConfirmed := true;
    }

    /** The 返回編輯 button. */
    method HandleEdit()
      modifies this
      ensures State() == Step(old(State()), EditClick)
    {
      isConfirmed := false;
    }
  }
}
