/**
 * The card stack of src/_components/card-stack.tsx: a `currentIndex` that key presses move through
 * the stack of cards, a spring animation whose start and rest events apply the move and fire the
 * `onSave` / `onDiscard` callback, and the render step that lays out the visible cards.
 *
 * The transitions are pure functions on a `Session` snapshot; the class `CardStack` holds the same
 * state in fields and its methods are proved to perform exactly those transitions.
 */
module Cards {
  import opened Wrappers
  import opened Ascii

  /** One card: its React key and its (opaque) content. */
  datatype Card = Card(id: int, content: string)

  /** The two decisions a key press can select. */
  datatype Action = Save | Discard

  /** The abstract pose of the top card's spring. */
  datatype Pose = Rest | FlyRight | FlyLeft

  /** The spring values `x`, `rot` and `scale` that a pose animates towards. */
  datatype SpringValues = SpringValues(x: real, rot: real, scale: real)

  /**
   * A spring animation started by an accepted key press: the decision, the card captured when the
   * key went down, and whether its `onStart` handler has run yet.
   */
  datatype Flight = Flight(action: Action, card: Card, started: bool)

  /** One call the component made to a callback prop. */
  datatype Callback = Saved(card: Card) | Discarded(card: Card)

  /** The component's props: the cards and which of the two optional callbacks were passed. */
  datatype Props = Props(cards: seq<Card>, hasOnSave: bool, hasOnDiscard: bool)

  /** The component's state: the index, the pose, the pending flight and the callbacks made so far. */
  datatype Session = Session(currentIndex: int, pose: Pose, flight: Option<Flight>, log: seq<Callback>)

  /** The events that drive the component: a key press and the two spring lifecycle events. */
  datatype Event = KeyDown(key: string) | AnimStart | AnimRest

  /** The spring target of each pose, for a window `innerWidth` wide. */
  function Target(pose: Pose, innerWidth: real): (r: SpringValues)
    ensures pose == Rest <==> r == SpringValues(0.0, 0.0, 1.0)
    ensures pose == FlyRight ==> r.x == innerWidth && r.rot > 0.0 && r.scale < 1.0
    ensures pose == FlyLeft ==> r.x == -innerWidth && r.rot < 0.0 && r.scale < 1.0
  {
    match pose
    case Rest => SpringValues(0.0, 0.0, 1.0)
    case FlyRight => SpringValues(innerWidth, 30.0, 0.8)
    case FlyLeft => SpringValues(-innerWidth, -30.0, 0.8)
  }

  /** The decision a key selects: the right-hand test comes first, as an `if ... else if`. */
  function KeyAction(key: string): (r: Option<Action>)
    ensures key == "ArrowRight" ==> r == Some(Save)
    ensures key == "ArrowLeft" ==> r == Some(Discard)
    ensures r == None ==> Lower(key) != "d" && Lower(key) != "a"
    ensures r == Some(Discard) ==> Lower(key) != "d"
  {
    if key == "ArrowRight" || Lower(key) == "d" then Some(Save)
    else if key == "ArrowLeft" || Lower(key) == "a" then Some(Discard)
    else None
  }

  /** Save is selected by exactly three keys, discard by exactly three others, and no other key does anything. */
  lemma KeyActionCases(key: string)
    ensures KeyAction(key) == Some(Save) <==> key == "ArrowRight" || key == "d" || key == "D"
    ensures KeyAction(key) == Some(Discard) <==> key == "ArrowLeft" || key == "a" || key == "A"
    ensures KeyAction(key) == None <==>
      key !in ["ArrowRight", "d", "D", "ArrowLeft", "a", "A"]
  {
  }

  /** The pose each pending flight shows; no flight means the card is at rest. */
  function PoseOf(flight: Option<Flight>): Pose {
    match flight
    case None => Rest
    case Some(f) => if f.action == Save then FlyRight else FlyLeft
  }

  /** The state on mount: index 0, at rest, nothing pending, no callback made. */
  function Init(): Session {
    Session(0, Rest, None, [])
  }

  /**
   * A key press. With no card at `currentIndex` nothing happens. Save needs a card after the current
   * one, discard a card before it; an accepted press captures the current card and starts a flight
   * (replacing any flight still pending: there is no in-flight guard). The index does not move yet.
   */
  function OnKey(props: Props, s: Session, key: string): (r: Session)
    ensures !(0 <= s.currentIndex < |props.cards|) ==> r == s
    ensures KeyAction(key) == None ==> r == s
    ensures r.currentIndex == s.currentIndex && r.log == s.log
    ensures KeyAction(key) == Some(Save) && 0 <= s.currentIndex < |props.cards| - 1 ==>
      r == s.(pose := FlyRight, flight := Some(Flight(Save, props.cards[s.currentIndex], false)))
    ensures KeyAction(key) == Some(Save) && s.currentIndex == |props.cards| - 1 ==> r == s
    ensures KeyAction(key) == Some(Discard) && 0 < s.currentIndex < |props.cards| ==>
      r == s.(pose := FlyLeft, flight := Some(Flight(Discard, props.cards[s.currentIndex], false)))
    ensures KeyAction(key) == Some(Discard) && s.currentIndex == 0 ==> r == s
  {
    if !(0 <= s.currentIndex < |props.cards|) then s
    else
      var card := props.cards[s.currentIndex];
      match KeyAction(key)
      case Some(Save) =>
        if s.currentIndex < |props.cards| - 1
        then s.(pose := FlyRight, flight := Some(Flight(Save, card, false)))
        else s
      case Some(Discard) =>
        if s.currentIndex > 0
        then s.(pose := FlyLeft, flight := Some(Flight(Discard, card, false)))
        else s
      case None => s
  }

  /** The spring's `onStart`: a pending flight moves the index, up for save and down for discard. */
  function OnStart(s: Session): (r: Session)
    ensures r.pose == s.pose && r.log == s.log
    ensures s.flight.Some? && !s.flight.value.started ==>
      r.flight == Some(s.flight.value.(started := true)) &&
      r.currentIndex == s.currentIndex + (if s.flight.value.action == Save then 1 else -1)
    ensures !(s.flight.Some? && !s.flight.value.started) ==> r == s
  {
    match s.flight
    case Some(f) =>
      if f.started then s
      else
        var next := if f.action == Save then s.currentIndex + 1 else s.currentIndex - 1;
        s.(currentIndex := next, flight := Some(f.(started := true)))
    case None => s
  }

  /** The callback a finished flight makes: none when the matching prop was not passed. */
  function Fired(props: Props, f: Flight): (r: seq<Callback>)
    ensures |r| <= 1
    ensures f.action == Save ==> r == (if props.hasOnSave then [Saved(f.card)] else [])
    ensures f.action == Discard ==> r == (if props.hasOnDiscard then [Discarded(f.card)] else [])
  {
    match f.action
    case Save => if props.hasOnSave then [Saved(f.card)] else []
    case Discard => if props.hasOnDiscard then [Discarded(f.card)] else []
  }

  /** The spring's `onRest`: a started flight fires its callback and the card snaps back to rest. */
  function OnRest(props: Props, s: Session): (r: Session)
    ensures r.currentIndex == s.currentIndex
    ensures s.flight.Some? && s.flight.value.started ==>
      r == s.(pose := Rest, flight := None, log := s.log + Fired(props, s.flight.value))
    ensures !(s.flight.Some? && s.flight.value.started) ==> r == s
  {
    match s.flight
    case Some(f) =>
      if f.started then s.(pose := Rest, flight := None, log := s.log + Fired(props, f)) else s
    case None => s
  }

  function Step(props: Props, s: Session, e: Event): Session {
    match e
    case KeyDown(key) => OnKey(props, s, key)
    case AnimStart => OnStart(s)
    case AnimRest => OnRest(props, s)
  }

  /** The state after a sequence of events, in order. */
  function Run(props: Props, s: Session, events: seq<Event>): Session
    decreases |events|
  {
    if events == [] then s else Run(props, Step(props, s, events[0]), events[1..])
  }

  /** Where a callback's card may come from: a saved card is never the last one, a discarded card never the first. */
  ghost predicate CallbackOrigin(cards: seq<Card>, cb: Callback) {
    match cb
    case Saved(c) => exists j :: 0 <= j < |cards| - 1 && cards[j] == c
    case Discarded(c) => exists j :: 1 <= j < |cards| && cards[j] == c
  }

  /**
   * What a pending flight knows: before `onStart` the captured card is the current one and the move is
   * allowed; after it, the captured card is the one the index just left.
   */
  ghost predicate FlightConsistent(cards: seq<Card>, index: int, f: Flight) {
    if !f.started then
      0 <= index < |cards| && f.card == cards[index] &&
      (f.action == Save ==> index < |cards| - 1) &&
      (f.action == Discard ==> 0 < index)
    else if f.action == Save then
      1 <= index < |cards| && f.card == cards[index - 1]
    else
      0 <= index < |cards| - 1 && f.card == cards[index + 1]
  }

  /** The invariant every reachable state keeps. */
  ghost predicate SessionValid(props: Props, s: Session) {
    var n := |props.cards|;
    && (n == 0 ==> s.currentIndex == 0 && s.flight == None)
    && (n > 0 ==> 0 <= s.currentIndex <= n - 1)
    && s.pose == PoseOf(s.flight)
    && (s.flight.Some? ==> FlightConsistent(props.cards, s.currentIndex, s.flight.value))
    && (forall k :: 0 <= k < |s.log| ==> CallbackOrigin(props.cards, s.log[k]))
  }

  lemma InitValid(props: Props)
    ensures SessionValid(props, Init())
  {
  }

  /** Every event keeps the invariant. */
  lemma StepValid(props: Props, s: Session, e: Event)
    requires SessionValid(props, s)
    ensures SessionValid(props, Step(props, s, e))
  {
  }

  /** Any sequence of events keeps the invariant. */
  lemma {:induction false} RunValid(props: Props, s: Session, events: seq<Event>)
    requires SessionValid(props, s)
    ensures SessionValid(props, Run(props, s, events))
    decreases |events|
  {
    if events != [] {
      StepValid(props, s, events[0]);
      RunValid(props, Step(props, s, events[0]), events[1..]);
    }
  }

  /** From mount, with at least one card, the index stays within the stack whatever the events. */
  lemma IndexInRange(props: Props, events: seq<Event>)
    requires |props.cards| > 0
    ensures 0 <= Run(props, Init(), events).currentIndex <= |props.cards| - 1
  {
    InitValid(props);
    RunValid(props, Init(), events);
  }

  /** From mount, every save callback received a card that is not the last, every discard one that is not the first. */
  lemma CallbacksNeverTakeTheEnds(props: Props, events: seq<Event>, k: nat)
    requires k < |Run(props, Init(), events).log|
    ensures Run(props, Init(), events).log[k].Saved? ==>
      exists j :: 0 <= j < |props.cards| - 1 && props.cards[j] == Run(props, Init(), events).log[k].card
    ensures Run(props, Init(), events).log[k].Discarded? ==>
      exists j :: 1 <= j < |props.cards| && props.cards[j] == Run(props, Init(), events).log[k].card
  {
    InitValid(props);
    RunValid(props, Init(), events);
    assert CallbackOrigin(props.cards, Run(props, Init(), events).log[k]);
  }

  /**
   * A full save: from any valid state whose current card has one after it, a save key, the spring's
   * start and its rest advance the index by one, call `onSave` once with the card the press captured
   * (the one at the old index) and leave the card at rest.
   */
  lemma SaveCycle(props: Props, s: Session, key: string)
    requires SessionValid(props, s)
    requires KeyAction(key) == Some(Save)
    requires 0 <= s.currentIndex < |props.cards| - 1
    ensures var r := OnRest(props, OnStart(OnKey(props, s, key)));
      && r.currentIndex == s.currentIndex + 1
      && r.log == s.log + (if props.hasOnSave then [Saved(props.cards[s.currentIndex])] else [])
      && r.pose == Rest && r.flight == None
  {
  }

  /**
   * A full discard: from any valid state past the first card, a discard key, the spring's start and its
   * rest move the index back by one and call `onDiscard` once with the card at the old index.
   */
  lemma DiscardCycle(props: Props, s: Session, key: string)
    requires SessionValid(props, s)
    requires KeyAction(key) == Some(Discard)
    requires 0 < s.currentIndex < |props.cards|
    ensures var r := OnRest(props, OnStart(OnKey(props, s, key)));
      && r.currentIndex == s.currentIndex - 1
      && r.log == s.log + (if props.hasOnDiscard then [Discarded(props.cards[s.currentIndex])] else [])
      && r.pose == Rest && r.flight == None
  {
  }

  /** A running animation does not block a second key press: it is accepted and replaces the pending flight. */
  lemma NoInFlightGuard(props: Props, s: Session, key: string)
    requires SessionValid(props, s)
    requires s.flight.Some?
    requires KeyAction(key) == Some(Save) && s.currentIndex < |props.cards| - 1
    ensures OnKey(props, s, key).flight == Some(Flight(Save, props.cards[s.currentIndex], false))
  {
  }

  /**
   * Two save presses, each followed only by the spring's start, move the index two places before
   * either flight has come to rest and before any callback has run.
   */
  lemma TwoSavesBeforeAnyRest(a: Card, b: Card, c: Card)
    ensures var props := Props([a, b, c], true, true);
      var r := Run(props, Init(), [KeyDown("d"), AnimStart, KeyDown("d"), AnimStart]);
      r.currentIndex == 2 && r.log == [] && r.flight == Some(Flight(Save, b, true))
  {
  }

  /**
   * The second press replaces the first flight, so the first card's `onRest` never comes: the stack
   * moves past card `a` but only card `b` is ever reported to `onSave`.
   */
  lemma InterruptedCardNeverReported(a: Card, b: Card, c: Card)
    ensures var props := Props([a, b, c], true, true);
      var r := Run(props, Init(), [KeyDown("d"), AnimStart, KeyDown("d"), AnimStart, AnimRest]);
      r.currentIndex == 2 && r.log == [Saved(b)] && r.flight == None && r.pose == Rest
  {
  }

  // ----- Render -----

  /** What the render step gives one visible card. */
  datatype CardView = CardView(index: int, card: Card, isTop: bool, stackOffset: int, zIndex: int)

  function ViewAt(cards: seq<Card>, currentIndex: int, index: nat): CardView
    requires index < |cards|
  {
    CardView(index, cards[index], index == currentIndex, (index - currentIndex) * 4, |cards| - index)
  }

  /** The first index the render step shows. */
  function FirstShown(n: nat, currentIndex: int): (r: nat)
    ensures r <= n
  {
    if currentIndex <= 0 then 0 else if currentIndex >= n then n else currentIndex
  }

  /**
   * `cards.map` from position `index` on: a card before `currentIndex` renders nothing, every other one
   * its view. The result is exactly the views of the positions from `max(index, currentIndex)` on, in order.
   */
  function RenderFrom(cards: seq<Card>, currentIndex: int, index: nat): (r: seq<CardView>)
    requires index <= |cards|
    ensures var lo := if index < FirstShown(|cards|, currentIndex) then FirstShown(|cards|, currentIndex) else index;
      && |r| == |cards| - lo
      && forall k :: 0 <= k < |r| ==> r[k] == ViewAt(cards, currentIndex, lo + k)
    decreases |cards| - index
  {
    if index == |cards| then []
    else
      (if index < currentIndex then [] else [ViewAt(cards, currentIndex, index)])
      + RenderFrom(cards, currentIndex, index + 1)
  }

  /** The whole stack as rendered: one view per card from `currentIndex` on, none for the cards before it. */
  function Render(cards: seq<Card>, currentIndex: int): (r: seq<CardView>)
    ensures |r| == |cards| - FirstShown(|cards|, currentIndex)
    ensures forall k :: 0 <= k < |r| ==> r[k].index >= currentIndex
  {
    RenderFrom(cards, currentIndex, 0)
  }

  /** The end-of-stack message: for a non-negative index, shown exactly when no card is rendered. */
  function ShowsEndMessage(cards: seq<Card>, currentIndex: int): (r: bool)
    ensures 0 <= currentIndex ==> (r <==> Render(cards, currentIndex) == [])
  {
    currentIndex >= |cards|
  }

  /** The positions of the cards a render shows. */
  function ShownIndices(views: seq<CardView>): set<int> {
    set v | v in views :: v.index
  }

  /** Render shows exactly the cards from `currentIndex` on, each once and in stack order. */
  lemma RenderedCards(cards: seq<Card>, currentIndex: int)
    requires 0 <= currentIndex
    ensures forall i :: 0 <= i < |cards| ==> (i in ShownIndices(Render(cards, currentIndex)) <==> i >= currentIndex)
    ensures forall k :: 0 <= k < |Render(cards, currentIndex)| ==>
      Render(cards, currentIndex)[k].index == currentIndex + k &&
      Render(cards, currentIndex)[k].card == cards[currentIndex + k]
  {
    var r := Render(cards, currentIndex);
    forall i | 0 <= i < |cards|
      ensures i in ShownIndices(r) <==> i >= currentIndex
    {
      if i >= currentIndex {
        assert r[i - currentIndex] in r;
      }
      if i in ShownIndices(r) {
        var v :| v in r && v.index == i;
        var k :| 0 <= k < |r| && r[k] == v;
      }
    }
  }

  /**
   * The top card is the first one rendered, it sits at `currentIndex` and is the only top card; each card
   * is offset 4 pixels per position below the top.
   */
  lemma TopCardAndOffsets(cards: seq<Card>, currentIndex: int)
    requires 0 <= currentIndex < |cards|
    ensures |Render(cards, currentIndex)| > 0
    ensures Render(cards, currentIndex)[0].isTop && Render(cards, currentIndex)[0].index == currentIndex
    ensures forall k :: 0 < k < |Render(cards, currentIndex)| ==> !Render(cards, currentIndex)[k].isTop
    ensures forall k :: 0 <= k < |Render(cards, currentIndex)| ==> Render(cards, currentIndex)[k].stackOffset == 4 * k
  {
  }

  /** `zIndex` strictly decreases down the rendered stack and stays positive, so the top card is drawn above the rest. */
  lemma ZIndexDecreasing(cards: seq<Card>, currentIndex: int)
    ensures forall j, k :: 0 <= j < k < |Render(cards, currentIndex)| ==>
      Render(cards, currentIndex)[j].zIndex > Render(cards, currentIndex)[k].zIndex
    ensures forall k :: 0 <= k < |Render(cards, currentIndex)| ==>
      1 <= Render(cards, currentIndex)[k].zIndex <= Render(cards, currentIndex)[0].zIndex
  {
  }

  /** From mount, the end-of-stack message shows exactly when the stack is empty. */
  lemma EndMessageOnlyWhenEmpty(props: Props, events: seq<Event>)
    ensures ShowsEndMessage(props.cards, Run(props, Init(), events).currentIndex) <==> |props.cards| == 0
  {
    InitValid(props);
    RunValid(props, Init(), events);
  }

  /** The component: the props it was given and its state fields. */
  class CardStack {
    const props: Props
    var currentIndex: int
    var pose: Pose
    var flight: Option<Flight>
    var log: seq<Callback>

    function State(): Session
      reads this
    {
      Session(currentIndex, pose, flight, log)
    }

    ghost predicate Valid()
      reads this
    {
      SessionValid(props, State())
    }

    constructor (cards: seq<Card>, hasOnSave: bool, hasOnDiscard: bool)
      ensures props == Props(cards, hasOnSave, hasOnDiscard)
      ensures State() == Init() && Valid()
    {
      props := Props(cards, hasOnSave, hasOnDiscard);
      currentIndex, pose, flight, log := 0, Rest, None, [];
    }

    /** `handleKeyDown`: looks up the current card, maps the key, checks the guard and starts the flight. */
    method HandleKeyDown(key: string)
      requires Valid()
      modifies this
      ensures State() == OnKey(props, old(State()), key)
      ensures Valid()
    {
      ghost var before := State();
      if !(0 <= currentIndex < |props.cards|) {
        StepValid(props, before, KeyDown(key));
        return;
      }
      var currentCard := props.cards[currentIndex];
      if key == "ArrowRight" || Lower(key) == "d" {
        if currentIndex < |props.cards| - 1 {
          pose := FlyRight;
          flight := Some(Flight(Save, currentCard, false));
        }
      } else if key == "ArrowLeft" || Lower(key) == "a" {
        if currentIndex > 0 {
          pose := FlyLeft;
          flight := Some(Flight(Discard, currentCard, false));
        }
      }
      StepValid(props, before, KeyDown(key));
    }

    /** The flight's `onStart`: `setCurrentIndex(current => current + 1)` or `current - 1`. */
    method AnimStart()
      requires Valid()
      modifies this
      ensures State() == OnStart(old(State()))
      ensures Valid()
    {
      ghost var before := State();
      if flight.Some? && !flight.value.started {
        var f := flight.value;
        if f.action == Save {
          currentIndex := currentIndex + 1;
        } else {
          currentIndex := currentIndex - 1;
        }
        flight := Some(f.(started := true));
      }
      StepValid(props, before, Event.AnimStart);
    }

    /** The flight's `onRest`: call the callback with the captured card, then snap back to rest. */
    method AnimRest()
      requires Valid()
      modifies this
      ensures State() == OnRest(props, old(State()))
      ensures Valid()
    {
      ghost var before := State();
      if flight.Some? && flight.value.started {
        var f := flight.value;
        if f.action == Save {
          if props.hasOnSave {
            log := log + [Saved(f.card)];
          }
        } else {
          if props.hasOnDiscard {
            log := log + [Discarded(f.card)];
          }
        }
        pose := Rest;
        flight := None;
      }
      StepValid(props, before, Event.AnimRest);
    }
  }
}
