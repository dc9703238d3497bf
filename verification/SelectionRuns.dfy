// The Micro's attention key and dial over runs of the bridge: which opens go
// out when every open is answered with success (config/bin/xeneon-micro-bridge).

module SelectionRuns {
  import opened Optional
  import opened KeySelection
  import opened MicroBridge

  // A lit session on one roster, with no open outstanding.
  predicate Ready(s: State) {
    && s.portal && s.micro && IsT3(s.snapshot) && s.pending.None? && Settled(s)
    && s.frame == Some(SignatureOf(s.snapshot.value)) && s.acknowledged == IdsOf(Agents(s.snapshot))
    && Reselected(s.selected, Agents(s.snapshot)) == s.selected
  }

  predicate Recent(s: State, times: seq<real>) {
    forall i :: 0 <= i < |times| ==> times[i] - s.received <= 4.0
  }

  const QUIET := Host(false, true, true, true, true)

  // A touch, an update, the result of the open it may have caused, an update.
  function Round(control: Control, request: nat, now: real): seq<Event> {
    [FromMicro(MicroMessage(None, true, control), now, true, true), Tick(now, QUIET),
     FromPortal(ActionResult(request, true), now), Tick(now, QUIET)]
  }

  function Rounds(control: Control, request: nat, times: seq<real>): seq<Event>
    decreases |times|
  {
    if times == [] then [] else Round(control, request, times[0]) + Rounds(control, request + 1, times[1..])
  }

  // The agents of the opens, in order.
  function OpensOn(wire: seq<Wire>): seq<string>
    decreases |wire|
  {
    if wire == [] then []
    else (if wire[0].SentOpen? then [wire[0].agent] else []) + OpensOn(wire[1..])
  }

  // The cards up to the first that cannot be opened.
  function Openable(cards: seq<Card>): seq<Card>
    decreases |cards|
  {
    if cards == [] || !cards[0].canOpen then [] else [cards[0]] + Openable(cards[1..])
  }

  lemma {:induction false} OpensInTwoParts(a: seq<Wire>, b: seq<Wire>)
    ensures OpensOn(a + b) == OpensOn(a) + OpensOn(b)
    decreases |a|
  {
    if a == [] {
      assert a + b == b;
    } else {
      assert (a + b)[1..] == a[1..] + b;
      OpensInTwoParts(a[1..], b);
    }
  }

  // The state after some events, and the opens they cause.
  function EndOf(s: State, events: seq<Event>): State
    decreases |events|
  {
    if events == [] then s else EndOf(StepOf(s, events[0]).state, events[1..])
  }

  function OpensOf(s: State, events: seq<Event>): seq<string>
    decreases |events|
  {
    if events == [] then []
    else
      var step := StepOf(s, events[0]);
      OpensOn(step.wire) + OpensOf(step.state, events[1..])
  }

  predicate Leads(s: State, events: seq<Event>, t: State, agents: seq<string>) {
    EndOf(s, events) == t && OpensOf(s, events) == agents
  }

  lemma OneStep(s: State, event: Event)
    ensures var step := StepOf(s, event); Leads(s, [event], step.state, OpensOn(step.wire))
  {
    var step := StepOf(s, event);
    assert [event][1..] == [];
    assert OpensOn(step.wire) + [] == OpensOn(step.wire);
  }

  lemma Regroup<T>(a: seq<T>, b: seq<T>, c: seq<T>)
    ensures (a + b) + c == a + (b + c)
  {
  }

  lemma {:induction false} LeadsOn(
      s: State, a: seq<Event>, b: seq<Event>, t: State, u: State, x: seq<string>, y: seq<string>)
    requires Leads(s, a, t, x) && Leads(t, b, u, y)
    ensures Leads(s, a + b, u, x + y)
    decreases |a|
  {
    if a == [] {
      assert a + b == b && x + y == y;
    } else {
      var step := StepOf(s, a[0]);
      var rest := OpensOf(step.state, a[1..]);
      assert (a + b)[1..] == a[1..] + b;
      LeadsOn(step.state, a[1..], b, t, u, rest, y);
      Regroup(OpensOn(step.wire), rest, y);
    }
  }

  lemma TwoSteps(s: State, first: Event, second: Event, t: State, u: State, x: seq<string>)
    requires StepOf(s, first).state == t && OpensOn(StepOf(s, first).wire) == x
    requires StepOf(t, second).state == u && OpensOn(StepOf(t, second).wire) == []
    ensures Leads(s, [first, second], u, x)
  {
    OneStep(s, first);
    OneStep(t, second);
    LeadsOn(s, [first], [second], t, u, x, []);
    assert [first] + [second] == [first, second] && x + [] == x;
  }

  predicate RunsTo(events: seq<Event>, s: State, agents: seq<string>) {
    Run(events).state == s && OpensOn(Run(events).wire) == agents
  }

  lemma NextEvent(events: seq<Event>, n: nat, s: State, before: seq<string>)
    requires n < |events| && RunsTo(events[..n], s, before)
    ensures var step := StepOf(s, events[n]);
      RunsTo(events[..n + 1], step.state, before + OpensOn(step.wire))
  {
    assert events[..n + 1][..n] == events[..n];
    OpensInTwoParts(Run(events[..n]).wire, StepOf(s, events[n]).wire);
  }

  lemma FirstEvent(events: seq<Event>, n: nat, s: State)
    requires n < |events|
    ensures var step := StepOf(s, events[n]);
      && EndOf(s, events[n..]) == EndOf(step.state, events[n + 1..])
      && OpensOf(s, events[n..]) == OpensOn(step.wire) + OpensOf(step.state, events[n + 1..])
  {
    assert events[n..][1..] == events[n + 1..];
  }

  // A run goes on from where it is.
  lemma {:induction false} RunGoesOn(
      events: seq<Event>, n: nat, s: State, before: seq<string>, t: State, agents: seq<string>)
    requires n <= |events| && RunsTo(events[..n], s, before) && Leads(s, events[n..], t, agents)
    ensures RunsTo(events, t, before + agents)
    decreases |events| - n
  {
    if n == |events| {
      assert events[..n] == events && before + [] == before;
    } else {
      var step := StepOf(s, events[n]);
      var rest := OpensOf(step.state, events[n + 1..]);
      NextEvent(events, n, s, before);
      FirstEvent(events, n, s);
      RunGoesOn(events, n + 1, step.state, before + OpensOn(step.wire), t, rest);
      Regroup(before, OpensOn(step.wire), rest);
    }
  }

  // ---- One round ----

  lemma QuietTick(s: State, now: real)
    requires s.portal && s.micro && IsT3(s.snapshot) && Settled(s) && now - s.received <= 4.0
    requires s.pending.Some? ==> now - s.pending.value.since <= 25.0
    requires s.frame == Some(SignatureOf(s.snapshot.value)) && s.acknowledged == IdsOf(Agents(s.snapshot))
    requires Reselected(s.selected, Agents(s.snapshot)) == s.selected
    ensures var tick := StepOf(s, Tick(now, QUIET)); tick.state == s && OpensOn(tick.wire) == []
  {
    assert Shown(s, QUIET) == Effect(s, [Published(s.acknowledged)], true);
    assert Driven(s, now, QUIET) == Effect(s, [Published(s.acknowledged)], true);
    assert Updated(s, now, QUIET) == Effect(s, [Published(s.acknowledged)], true);
    assert OpensOn([Published(s.acknowledged)]) == [];
  }

  function Target(s: State, control: Control): Option<Card> {
    Choice(control, Agents(s.snapshot), s.selected)
  }

  predicate Opens(s: State, control: Control) {
    Target(s, control).Some? && Target(s, control).value.canOpen
  }

  function Touched(s: State, control: Control, now: real): State {
    if Opens(s, control) then
      s.(issued := s.issued + 1, pending := Some(Pending(s.issued, Target(s, control).value.id, now)))
    else s
  }

  function Openings(s: State, control: Control): seq<string> {
    if Opens(s, control) then [Target(s, control).value.id] else []
  }

  lemma TouchOpens(s: State, control: Control, now: real)
    requires Ready(s) && now - s.received <= 4.0
    ensures var touch := StepOf(s, FromMicro(MicroMessage(None, true, control), now, true, true));
      touch.state == Touched(s, control, now) && OpensOn(touch.wire) == Openings(s, control)
  {
    var message := MicroMessage(None, true, control);
    var acted := Acted(s, control, now, true);
    assert Answered(s, message, true) == Effect(s, [], true);
    assert MicroEvent(s, message, now, true, true) == Effect(acted.state, [] + acted.wire, acted.ok);
    assert [] + acted.wire == acted.wire;
    var heard := DeviceSaid(None, true);
    var touch := StepOf(s, FromMicro(message, now, true, true));
    assert touch.wire == [heard] + acted.wire;
    OpensInTwoParts([heard], acted.wire);
    assert OpensOn([heard]) == [];
    assert Opens(s, control) ==> |acted.wire| == 1 && acted.wire[0].SentOpen? && acted.wire[1..] == [];
  }

  lemma ResultSelects(s: State, request: nat, now: real)
    requires s.portal
    ensures var result := StepOf(s, FromPortal(ActionResult(request, true), now));
      && OpensOn(result.wire) == []
      && result.state == if s.pending.Some? && s.pending.value.request == request
                         then s.(pending := None, selected := Some(s.pending.value.agent)) else s
  {
  }

  function Selected(s: State, control: Control): State {
    if Opens(s, control) then s.(issued := s.issued + 1, selected := Some(Target(s, control).value.id)) else s
  }

  lemma TouchAndUpdate(s: State, control: Control, now: real)
    requires Ready(s) && now - s.received <= 4.0
    ensures Leads(s, [FromMicro(MicroMessage(None, true, control), now, true, true), Tick(now, QUIET)],
      Touched(s, control, now), Openings(s, control))
  {
    var t := Touched(s, control, now);
    TouchOpens(s, control, now);
    QuietTick(t, now);
    TwoSteps(s, FromMicro(MicroMessage(None, true, control), now, true, true), Tick(now, QUIET), t, t,
      Openings(s, control));
  }

  lemma ResultAndUpdate(s: State, control: Control, request: nat, now: real)
    requires Ready(s) && now - s.received <= 4.0 && Named(s, control, request)
    ensures Leads(Touched(s, control, now), [FromPortal(ActionResult(request, true), now), Tick(now, QUIET)],
      Selected(s, control), [])
    ensures Ready(Selected(s, control))
  {
    var t, u := Touched(s, control, now), Selected(s, control);
    ResultSelects(t, request, now);
    if Opens(s, control) {
      SelectionIsShown(s, control);
    }
    QuietTick(u, now);
    TwoSteps(t, FromPortal(ActionResult(request, true), now), Tick(now, QUIET), u, u, []);
  }

  // The result names the open, if there is one.
  predicate Named(s: State, control: Control, request: nat) {
    request == s.issued || !Opens(s, control)
  }

  lemma OneRound(s: State, control: Control, request: nat, now: real)
    requires Ready(s) && now - s.received <= 4.0 && Named(s, control, request)
    ensures Leads(s, Round(control, request, now), Selected(s, control), Openings(s, control))
    ensures Ready(Selected(s, control))
  {
    var touch := [FromMicro(MicroMessage(None, true, control), now, true, true), Tick(now, QUIET)];
    var result := [FromPortal(ActionResult(request, true), now), Tick(now, QUIET)];
    TouchAndUpdate(s, control, now);
    ResultAndUpdate(s, control, request, now);
    LeadsOn(s, touch, result, Touched(s, control, now), Selected(s, control), Openings(s, control), []);
    assert touch + result == Round(control, request, now);
    assert Openings(s, control) + [] == Openings(s, control);
  }

  lemma SelectionIsShown(s: State, control: Control)
    requires Opens(s, control)
    ensures var id := Some(Target(s, control).value.id); Reselected(id, Agents(s.snapshot)) == id
  {
    ChoiceIsShown(control, Agents(s.snapshot), s.selected);
  }

  // ---- Any number of rounds ----

  // The agents that the next k touches open.
  function Opened(s: State, control: Control, k: nat): seq<string> {
    IdsOf(Openable(Chosen(control, Agents(s.snapshot), s.selected, k)))
  }

  lemma OpenedFirst(s: State, control: Control, k: nat)
    requires k > 0
    ensures Opened(s, control, k) == Openings(s, control) + Opened(Selected(s, control), control, k - 1)
  {
    var agents := Agents(s.snapshot);
    if Target(s, control).Some? {
      var card := Target(s, control).value;
      ChosenStep(control, agents, s.selected, card, k);
      var rest := Chosen(control, agents, Some(card.id), k - 1);
      assert ([card] + rest)[1..] == rest;
    }
    if !Opens(s, control) {
      NothingChosen(s, control, k - 1);
    }
  }

  lemma NothingChosen(s: State, control: Control, k: nat)
    requires !Opens(s, control)
    ensures Openable(Chosen(control, Agents(s.snapshot), s.selected, k)) == []
  {
  }

  // The state after k touches.
  function Final(s: State, control: Control, k: nat): State
    decreases k
  {
    if k == 0 then s else Final(Selected(s, control), control, k - 1)
  }

  lemma ManyTouches(s: State, control: Control, request: nat, times: seq<real>)
    requires times != []
    ensures var next, k := Selected(s, control), |times| - 1;
      && Rounds(control, request, times) == Round(control, request, times[0]) + Rounds(control, request + 1, times[1..])
      && Final(s, control, |times|) == Final(next, control, k)
      && Opened(s, control, |times|) == Openings(s, control) + Opened(next, control, k)
  {
    OpenedFirst(s, control, |times|);
  }

  // Every touch opens the card it chooses, until one cannot be opened; from
  // then on none does.
  lemma {:induction false} TouchesOpenWhatTheyChoose(s: State, control: Control, request: nat, times: seq<real>)
    requires Ready(s) && Recent(s, times) && Named(s, control, request)
    ensures Leads(s, Rounds(control, request, times), Final(s, control, |times|), Opened(s, control, |times|))
    decreases |times|
  {
    if times != [] {
      var next, k := Selected(s, control), |times| - 1;
      OneRound(s, control, request, times[0]);
      TouchesOpenWhatTheyChoose(next, control, request + 1, times[1..]);
      LeadsOn(s, Round(control, request, times[0]), Rounds(control, request + 1, times[1..]), next,
        Final(next, control, k), Openings(s, control), Opened(next, control, k));
      ManyTouches(s, control, request, times);
    }
  }

  lemma TouchesInARun(
      events: seq<Event>, s: State, control: Control, request: nat, times: seq<real>, cards: seq<Card>)
    requires s == Run(events).state && Ready(s) && Recent(s, times) && Named(s, control, request)
    requires cards == Chosen(control, Agents(s.snapshot), s.selected, |times|)
    ensures OpensOn(Run(events + Rounds(control, request, times)).wire)
      == OpensOn(Run(events).wire) + IdsOf(Openable(cards))
  {
    var rounds := Rounds(control, request, times);
    var all, n := events + rounds, |events|;
    TouchesOpenWhatTheyChoose(s, control, request, times);
    assert all[..n] == events && all[n..] == rounds;
    RunGoesOn(all, n, s, OpensOn(Run(events).wire), Final(s, control, |times|), Opened(s, control, |times|));
  }

  lemma {:induction false} AllOpenable(cards: seq<Card>)
    ensures Openable(cards) == cards <==> forall c :: c in cards ==> c.canOpen
    decreases |cards|
  {
    if cards != [] {
      AllOpenable(cards[1..]);
      assert forall c :: c in cards <==> c == cards[0] || c in cards[1..];
      assert cards == [cards[0]] + cards[1..];
    }
  }

  lemma {:induction false} CardsAtMembers(agents: seq<Card>, places: seq<nat>)
    requires forall k :: 0 <= k < |places| ==> places[k] < |agents|
    ensures forall c :: c in CardsAt(agents, places) <==> exists i :: i in places && i < |agents| && agents[i] == c
  {
    if places != [] {
      CardsAtMembers(agents, places[1..]);
      assert forall i :: i in places <==> i == places[0] || i in places[1..];
    }
  }

  // The cards that need attention, in roster order from the selected one.
  function Waiting(agents: seq<Card>, selected: Option<string>): seq<Card> {
    CardsAt(agents, Ahead(agents, Current(agents, selected), 0))
  }

  lemma WaitingMeaning(agents: seq<Card>, selected: Option<string>)
    requires Distinct(agents)
    ensures Chosen(ATTENTION, agents, selected, |Waiting(agents, selected)|) == Waiting(agents, selected)
    ensures forall c :: c in Waiting(agents, selected) <==> c in agents && Waits(c)
    ensures Openable(Waiting(agents, selected)) == Waiting(agents, selected)
      <==> forall c :: c in agents && Waits(c) ==> c.canOpen
  {
    var order := Ahead(agents, Current(agents, selected), 0);
    AttentionIsFair(agents, selected);
    CardsAtMembers(agents, order);
    CardsAtLength(agents, order);
    AllOpenable(CardsAt(agents, order));
  }

  lemma {:induction false} CardsAtLength(agents: seq<Card>, places: seq<nat>)
    requires forall k :: 0 <= k < |places| ==> places[k] < |agents|
    ensures |CardsAt(agents, places)| == |places|
  {
    if places != [] {
      CardsAtLength(agents, places[1..]);
    }
  }

  // In any run that is ready, with k agents needing attention, k attention
  // presses whose opens succeed send an open for each of them once, in roster
  // order from the selected one, up to the first that cannot be opened; so for
  // all of them exactly if all can be.
  lemma AttentionOpensEach(events: seq<Event>, s: State, times: seq<real>)
    requires s == Run(events).state && Ready(s) && Recent(s, times) && Distinct(Agents(s.snapshot))
    requires |times| == |Waiting(Agents(s.snapshot), s.selected)|
    ensures var agents, cards := Agents(s.snapshot), Waiting(Agents(s.snapshot), s.selected);
      && OpensOn(Run(events + Rounds(ATTENTION, s.issued, times)).wire)
         == OpensOn(Run(events).wire) + IdsOf(Openable(cards))
      && (forall c :: c in cards <==> c in agents && Waits(c))
      && (Openable(cards) == cards <==> forall c :: c in agents && Waits(c) ==> c.canOpen)
  {
    WaitingMeaning(Agents(s.snapshot), s.selected);
    TouchesInARun(events, s, ATTENTION, s.issued, times, Waiting(Agents(s.snapshot), s.selected));
  }

  // One turn of the dial from any position passes the whole roster.
  lemma TurnIsPermutation(agents: seq<Card>, from: int)
    requires agents != [] && -1 <= from < |agents|
    ensures multiset(Following(agents, from, |agents|)) == multiset(agents)
  {
    FullTurn(agents, from);
  }

  lemma SameOpenable(cards: seq<Card>, agents: seq<Card>)
    requires multiset(cards) == multiset(agents)
    ensures Openable(cards) == cards <==> forall c :: c in agents ==> c.canOpen
  {
    AllOpenable(cards);
    forall c: Card ensures c in cards <==> c in agents {
      assert c in cards <==> c in multiset(cards);
      assert c in agents <==> c in multiset(agents);
    }
  }

  // And n clockwise steps send an open for each of the n agents once.
  lemma DialOpensEach(events: seq<Event>, s: State, times: seq<real>)
    requires s == Run(events).state && Ready(s) && Recent(s, times) && Distinct(Agents(s.snapshot))
    requires Agents(s.snapshot) != [] && |times| == |Agents(s.snapshot)|
    ensures var agents := Agents(s.snapshot);
      var cards := Following(agents, Current(agents, s.selected), |agents|);
      && OpensOn(Run(events + Rounds(CLOCKWISE, s.issued, times)).wire)
         == OpensOn(Run(events).wire) + IdsOf(Openable(cards))
      && multiset(cards) == multiset(agents)
      && (Openable(cards) == cards <==> forall c :: c in agents ==> c.canOpen)
  {
    var agents := Agents(s.snapshot);
    var cards := Following(agents, Current(agents, s.selected), |agents|);
    DialFollowsRoster(agents, s.selected, |agents|);
    TurnIsPermutation(agents, Current(agents, s.selected));
    SameOpenable(cards, agents);
    TouchesInARun(events, s, CLOCKWISE, s.issued, times, cards);
  }

  // A chosen agent that cannot be opened stops its control for good.
  lemma AnUnopenableAgentBlocks(events: seq<Event>, s: State, control: Control, request: nat, times: seq<real>)
    requires s == Run(events).state && Ready(s) && Recent(s, times) && !Opens(s, control)
    ensures OpensOn(Run(events + Rounds(control, request, times)).wire) == OpensOn(Run(events).wire)
  {
    TouchesInARun(
      events, s, control, request, times, Chosen(control, Agents(s.snapshot), s.selected, |times|));
    NothingChosen(s, control, |times|);
  }

  // ---- Getting there ----

  function Answer(request: nat): MicroMessage {
    MicroMessage(Some(request), true, NoKey)
  }

  function Greeting(snapshot: Snapshot, now: real): seq<Event> {
    [Connected(true), FromPortal(SnapshotMessage(snapshot), now), Tick(now, QUIET),
     FromMicro(Answer(0), now, true, true), FromMicro(Answer(1), now, true, true)]
  }

  function Lit(snapshot: Snapshot, now: real): State {
    var agents := Agents(Some(snapshot));
    State(Some(snapshot), now, FocusedId(agents), None, Some(SignatureOf(snapshot)), None, None, now, IdsOf(agents),
      true, true, 2)
  }

  // With both requests of its frame still unanswered, and with the second.
  function Asked(snapshot: Snapshot, now: real): State {
    var ids := IdsOf(Agents(Some(snapshot)));
    HalfLit(snapshot, now).(acknowledged := [], lightsRequest := Some(LightsRequest(0, ids)))
  }

  function HalfLit(snapshot: Snapshot, now: real): State {
    Lit(snapshot, now).(ringRequest := Some(1))
  }

  lemma FirstFrame(snapshot: Snapshot, now: real)
    requires snapshot.t3 && |snapshot.agents| <= 64
    ensures var heard := START.(portal := true, snapshot := Some(snapshot), received := now);
      StepOf(heard, Tick(now, QUIET)).state == Asked(snapshot, now)
  {
  }

  lemma FirstAnswers(snapshot: Snapshot, now: real)
    ensures StepOf(Asked(snapshot, now), FromMicro(Answer(0), now, true, true)).state == HalfLit(snapshot, now)
    ensures StepOf(HalfLit(snapshot, now), FromMicro(Answer(1), now, true, true)).state == Lit(snapshot, now)
  {
  }

  lemma LitIsReady(snapshot: Snapshot, now: real)
    requires snapshot.t3
    ensures Ready(Lit(snapshot, now))
  {
    FocusIsOnRoster(Agents(Some(snapshot)));
  }

  // Any first snapshot of T3 Code leads there, once the device has answered.
  lemma ReadyIsReached(snapshot: Snapshot, now: real)
    requires snapshot.t3 && |snapshot.agents| <= 64
    ensures Run(Greeting(snapshot, now)).state == Lit(snapshot, now) && Ready(Lit(snapshot, now))
  {
    var g, open := Greeting(snapshot, now), START.(portal := true);
    var heard := open.(snapshot := Some(snapshot), received := now);
    assert StepOf(open, g[1]).state == heard;
    FirstFrame(snapshot, now);
    FirstAnswers(snapshot, now);
    LitIsReady(snapshot, now);
    FiveSteps(g, open, heard, Asked(snapshot, now), HalfLit(snapshot, now), Lit(snapshot, now));
  }

  lemma FiveSteps(g: seq<Event>, a: State, b: State, c: State, d: State, e: State)
    requires |g| == 5 && StepOf(START, g[0]).state == a && StepOf(a, g[1]).state == b
    requires StepOf(b, g[2]).state == c && StepOf(c, g[3]).state == d && StepOf(d, g[4]).state == e
    ensures Run(g).state == e
  {
    assert g[..0] == [] && g[..5] == g;
    Reaches(g, 0, START, a);
    Reaches(g, 1, a, b);
    Reaches(g, 2, b, c);
    Reaches(g, 3, c, d);
    Reaches(g, 4, d, e);
  }

  lemma Reaches(g: seq<Event>, n: nat, s: State, t: State)
    requires n < |g| && Run(g[..n]).state == s && StepOf(s, g[n]).state == t
    ensures Run(g[..n + 1]).state == t
  {
    assert g[..n + 1][..n] == g[..n];
  }

  lemma {:induction false} FocusIsOnRoster(agents: seq<Card>)
    ensures FocusedId(agents).Some? ==> FocusedId(agents).value in IdsOf(agents)
  {
    if agents != [] {
      FocusIsOnRoster(agents[1..]);
      assert IdsOf(agents)[1..] == IdsOf(agents[1..]);
    }
  }
}
