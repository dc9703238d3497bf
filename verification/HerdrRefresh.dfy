// One Herdr reconciliation's collection loop (`refresh_herdr`,
// crates/xeneon-agent-core/src/runtime.rs): what each session's socket answers
// is a nondeterministic `Outcome`.

module HerdrRefresh {
  import opened Optional
  import opened PortalModel
  import opened ReviewLatch
  import opened T3Code

  // `observe_session`'s answer before it numbers its cards from the offset.
  datatype Raw = Raw(compatible: bool, agents: seq<AgentView>, targets: Targets, order: Option<OrderMode>)

  datatype Subscription = Kept | SubscriptionFailed | Renewed(reconciled: Option<Raw>)

  datatype Outcome = SnapshotFailed | Observation(first: Raw, subscription: Subscription)

  datatype SessionView = SessionView(name: string, state: SessionState)

  datatype Collected = Collected(
    sessions: seq<SessionView>, agents: seq<AgentView>, targets: Targets, connected: nat, modes: seq<OrderMode>)

  const NOTHING_COLLECTED := Collected([], [], map[], 0, [])

  function NumberFrom(offset: nat, agents: seq<AgentView>): seq<AgentView> {
    seq(|agents|, i requires 0 <= i < |agents| => agents[i].(sourceOrder := offset + i))
  }

  function Disarm(agents: seq<AgentView>): (r: seq<AgentView>)
    ensures Ids(r) == Ids(agents) && (DistinctIds(agents) ==> DistinctIds(r))
  {
    var r := seq(|agents|, i requires 0 <= i < |agents| => agents[i].(actions := NO_ACTIONS));
    assert forall i :: 0 <= i < |agents| ==> r[i] in r && agents[i] in agents && r[i].id == agents[i].id;
    r
  }

  function OfSession(agents: seq<AgentView>, name: string): seq<AgentView> {
    if agents == [] then []
    else if agents[0].session == name then [agents[0]] + OfSession(agents[1..], name)
    else OfSession(agents[1..], name)
  }

  // ---- Specification ----

  // The cards a session contributes, and what routes to them.
  function Contribution(name: string, outcome: Outcome, previous: seq<AgentView>): (seq<AgentView>, Targets) {
    match outcome
    case SnapshotFailed => (Disarm(OfSession(previous, name)), map[])
    case Observation(first, subscription) =>
      if !first.compatible then ([], map[])
      else
        match subscription
        case Kept => (first.agents, first.targets)
        case SubscriptionFailed => (Disarm(first.agents), map[])
        case Renewed(None) => (Disarm(first.agents), map[])
        case Renewed(Some(second)) => if second.compatible then (second.agents, second.targets) else ([], map[])
  }

  function StateOf(outcome: Outcome): SessionState {
    match outcome
    case SnapshotFailed => Stale
    case Observation(first, subscription) =>
      if !first.compatible then Incompatible
      else
        match subscription
        case Kept => Connected
        case SubscriptionFailed => Stale
        case Renewed(None) => Stale
        case Renewed(Some(second)) => if second.compatible then Connected else Incompatible
  }

  // The ordering mode a connected session reported.
  function ReportedOrder(outcome: Outcome): Option<OrderMode> {
    if !StateOf(outcome).Connected? then None
    else if outcome.subscription.Renewed? then outcome.subscription.reconciled.value.order
    else outcome.first.order
  }

  function CollectSession(c: Collected, name: string, outcome: Outcome, previous: seq<AgentView>): Collected {
    var cards := Contribution(name, outcome, previous);
    var order := ReportedOrder(outcome);
    Collected(
      c.sessions + [SessionView(name, StateOf(outcome))],
      c.agents + NumberFrom(|c.agents|, cards.0),
      c.targets + cards.1,
      c.connected + if StateOf(outcome).Connected? then 1 else 0,
      c.modes + if order.Some? then [order.value] else [])
  }

  function Collect(names: seq<string>, outcomes: seq<Outcome>, previous: seq<AgentView>): Collected
    requires |names| == |outcomes|
  {
    if names == [] then NOTHING_COLLECTED
    else
      var n := |names| - 1;
      CollectSession(Collect(names[..n], outcomes[..n], previous), names[n], outcomes[n], previous)
  }

  function HerdrOrder(total: nat, c: Collected): OrderSnapshot {
    if total > 0 && c.connected == total && |c.modes| == c.connected
       && forall i :: 0 <= i < |c.modes| ==> c.modes[i] == c.modes[0]
    then OrderSnapshot(true, c.modes[0])
    else ORDER_UNAVAILABLE
  }

  // ---- The loop ----

  method StaleFromPrevious(previous: seq<AgentView>, name: string, offset: nat) returns (stale: seq<AgentView>)
    ensures stale == NumberFrom(offset, Disarm(OfSession(previous, name)))
  {
    stale := OfSession(previous, name);
    ghost var kept := stale;
    var sourceOffset := offset;
    for i := 0 to |stale|
      invariant |stale| == |kept| && sourceOffset == offset + i
      invariant forall k :: 0 <= k < i ==> stale[k] == kept[k].(actions := NO_ACTIONS, sourceOrder := offset + k)
      invariant forall k :: i <= k < |stale| ==> stale[k] == kept[k]
    {
      stale := stale[i := stale[i].(actions := NO_ACTIONS, sourceOrder := sourceOffset)];
      sourceOffset := sourceOffset + 1;
    }
  }

  lemma DisarmNumbered(offset: nat, agents: seq<AgentView>)
    ensures Disarm(NumberFrom(offset, agents)) == NumberFrom(offset, Disarm(agents))
  {
  }

  // Which snapshot of a session that answered counts, and as what.
  method Reconcile(first: Raw, subscription: Subscription) returns (state: SessionState, observation: Raw)
    ensures var outcome := Observation(first, subscription);
      && state == StateOf(outcome)
      && (state != Connected ==> ReportedOrder(outcome) == None)
      && (state == Connected ==> observation.order == ReportedOrder(outcome))
      && forall previous, name :: Contribution(name, outcome, previous) ==
           if state == Connected then (observation.agents, observation.targets)
           else if state == Stale then (Disarm(observation.agents), map[])
           else ([], map[])
  {
    state, observation := Connected, first;
    if !first.compatible {
      state := Incompatible;
    } else if subscription.SubscriptionFailed? || subscription == Renewed(None) {
      state := Stale;
    } else if subscription.Renewed? {
      observation := subscription.reconciled.value;
      if !observation.compatible {
        state := Incompatible;
      }
    }
  }

  // What one session adds to the roster, numbered from the offset.
  method SessionCards(name: string, outcome: Outcome, previous: seq<AgentView>, offset: nat)
      returns (state: SessionState, cards: seq<AgentView>, targets: Targets, order: Option<OrderMode>)
    ensures state == StateOf(outcome) && order == ReportedOrder(outcome)
    ensures cards == NumberFrom(offset, Contribution(name, outcome, previous).0)
    ensures targets == Contribution(name, outcome, previous).1
  {
    cards, targets, order := [], map[], None;
    if outcome.SnapshotFailed? {
      state := Stale;
      cards := StaleFromPrevious(previous, name, offset);
    } else {
      var observation;
      state, observation := Reconcile(outcome.first, outcome.subscription);
      if state == Stale {
        DisarmNumbered(offset, observation.agents);
        cards := Disarm(NumberFrom(offset, observation.agents));
      } else if state == Connected {
        cards := NumberFrom(offset, observation.agents);
        targets, order := observation.targets, observation.order;
      }
    }
  }

  method CollectHerdr(names: seq<string>, outcomes: seq<Outcome>, previous: seq<AgentView>) returns (c: Collected)
    requires |names| == |outcomes|
    ensures c == Collect(names, outcomes, previous)
  {
    var sessions: seq<SessionView>, agents: seq<AgentView>, targets: Targets := [], [], map[];
    var connected, sourceOffset := 0, 0;
    var orderModes: seq<OrderMode> := [];
    for n := 0 to |names|
      invariant Collected(sessions, agents, targets, connected, orderModes)
        == Collect(names[..n], outcomes[..n], previous)
      invariant sourceOffset == |agents|
    {
      assert names[..n + 1][..n] == names[..n] && outcomes[..n + 1][..n] == outcomes[..n];
      var state, cards, routes, order := SessionCards(names[n], outcomes[n], previous, sourceOffset);
      sessions := sessions + [SessionView(names[n], state)];
      if state == Connected {
        connected := connected + 1;
        if order.Some? {
          orderModes := orderModes + [order.value];
        }
      }
      sourceOffset := sourceOffset + |cards|;
      agents, targets := agents + cards, targets + routes;
    }
    assert names[..|names|] == names && outcomes[..|names|] == outcomes;
    c := Collected(sessions, agents, targets, connected, orderModes);
  }

  // ---- What the adapter promises (herdr.rs) ----

  predicate HerdrCard(a: AgentView) {
    a.id.HerdrAgent? && a.id.herdrSession == a.session
  }

  predicate RawContract(name: string, raw: Raw) {
    && DistinctIds(raw.agents)
    && raw.targets.Keys == Ids(raw.agents)
    && (forall a :: a in raw.agents ==> HerdrCard(a) && a.session == name && !a.reviewReady)
    && (forall id :: id in raw.targets ==> raw.targets[id].HerdrTarget? && raw.targets[id].herdrSession == name)
  }

  predicate OutcomeContract(name: string, outcome: Outcome) {
    outcome.Observation? ==>
      && RawContract(name, outcome.first)
      && (outcome.subscription.Renewed? && outcome.subscription.reconciled.Some? ==>
            RawContract(name, outcome.subscription.reconciled.value))
  }

  // Cards an answer of this session reported.
  function Reported(outcome: Outcome): set<AgentId> {
    match outcome
    case SnapshotFailed => {}
    case Observation(first, subscription) =>
      Ids(first.agents) + (if subscription.Renewed? && subscription.reconciled.Some?
                           then Ids(subscription.reconciled.value.agents) else {})
  }

  predicate PreviousContract(previous: seq<AgentView>) {
    DistinctIds(previous) && forall a :: a in previous ==> HerdrCard(a)
  }

  // ---- What every prefix of the loop keeps ----

  // A card without a private target offers nothing, and every target has a card.
  predicate FailClosed(agents: seq<AgentView>, targets: Targets) {
    && (forall a :: a in agents && a.id !in targets ==> a.actions == NO_ACTIONS)
    && targets.Keys <= Ids(agents)
  }

  predicate CountedInPlace(agents: seq<AgentView>) {
    forall i :: 0 <= i < |agents| ==> agents[i].sourceOrder == i
  }

  predicate HerdrRouted(targets: Targets) {
    forall id :: id in targets ==>
      id.HerdrAgent? && targets[id].HerdrTarget? && targets[id].herdrSession == id.herdrSession
  }

  predicate CollectedWell(c: Collected, processed: set<string>) {
    && CountedInPlace(c.agents)
    && DistinctIds(c.agents)
    && FailClosed(c.agents, c.targets)
    && (forall a :: a in c.agents ==> HerdrCard(a) && a.session in processed)
    && HerdrRouted(c.targets)
  }

  lemma IdsConcat(s: seq<AgentView>, t: seq<AgentView>)
    ensures Ids(s + t) == Ids(s) + Ids(t)
  {
    assert forall a :: a in s + t <==> a in s || a in t;
  }

  lemma NumberFromKeeps(offset: nat, agents: seq<AgentView>)
    ensures Ids(NumberFrom(offset, agents)) == Ids(agents)
    ensures DistinctIds(agents) ==> DistinctIds(NumberFrom(offset, agents))
    ensures forall a :: a in NumberFrom(offset, agents) ==>
      exists b :: b in agents && a == b.(sourceOrder := a.sourceOrder)
  {
    var r := NumberFrom(offset, agents);
    assert forall i :: 0 <= i < |agents| ==> r[i] in r && agents[i] in agents && r[i].id == agents[i].id;
  }

  lemma {:induction false} OfSessionKeeps(agents: seq<AgentView>, name: string)
    ensures forall a :: a in OfSession(agents, name) <==> a in agents && a.session == name
    ensures Ids(OfSession(agents, name)) <= Ids(agents)
    ensures DistinctIds(agents) ==> DistinctIds(OfSession(agents, name))
  {
    if agents != [] {
      OfSessionKeeps(agents[1..], name);
      assert agents == [agents[0]] + agents[1..];
    }
  }

  // What one session contributes.
  predicate ContributionWell(name: string, cards: seq<AgentView>, targets: Targets) {
    && DistinctIds(cards)
    && FailClosed(cards, targets)
    && (forall a :: a in cards ==> HerdrCard(a) && a.session == name)
    && HerdrRouted(targets)
  }

  lemma DisarmedCards(cards: seq<AgentView>, name: string)
    requires DistinctIds(cards) && forall a :: a in cards ==> HerdrCard(a) && a.session == name
    ensures ContributionWell(name, Disarm(cards), map[])
  {
    var r := Disarm(cards);
    forall a | a in r ensures HerdrCard(a) && a.session == name && a.actions == NO_ACTIONS {
      var i :| 0 <= i < |r| && r[i] == a;
      assert cards[i] in cards;
    }
  }

  lemma ContributionIsWell(name: string, outcome: Outcome, previous: seq<AgentView>)
    requires OutcomeContract(name, outcome) && PreviousContract(previous)
    ensures var cards := Contribution(name, outcome, previous);
      ContributionWell(name, cards.0, cards.1) && Ids(cards.0) <= Ids(previous) + Reported(outcome)
  {
    OfSessionKeeps(previous, name);
    if outcome.SnapshotFailed? {
      DisarmedCards(OfSession(previous, name), name);
    } else if StateOf(outcome).Stale? {
      DisarmedCards(outcome.first.agents, name);
    }
  }

  lemma AppendDistinct(s: seq<AgentView>, t: seq<AgentView>)
    requires DistinctIds(s) && DistinctIds(t) && Ids(s) !! Ids(t)
    ensures DistinctIds(s + t)
  {
    forall i, j | 0 <= i < |s| && 0 <= j < |t| ensures s[i].id != t[j].id {
      assert s[i] in s && t[j] in t;
      assert s[i].id in Ids(s) && t[j].id in Ids(t);
    }
    var r := s + t;
    forall i, j | 0 <= i < j < |r| ensures r[i].id != r[j].id {
      if |s| <= i {
        assert r[i] == t[i - |s|] && r[j] == t[j - |s|];
      } else if |s| <= j {
        assert r[i] == s[i] && r[j] == t[j - |s|];
      }
    }
  }

  lemma AppendFailClosed(s: seq<AgentView>, t: seq<AgentView>, left: Targets, right: Targets)
    requires FailClosed(s, left) && FailClosed(t, right)
    ensures FailClosed(s + t, left + right)
  {
    IdsConcat(s, t);
  }

  lemma NumberedWell(offset: nat, name: string, cards: seq<AgentView>, targets: Targets)
    requires ContributionWell(name, cards, targets)
    ensures ContributionWell(name, NumberFrom(offset, cards), targets)
  {
    NumberFromKeeps(offset, cards);
    forall a | a in NumberFrom(offset, cards)
      ensures HerdrCard(a) && a.session == name && (a.id !in targets ==> a.actions == NO_ACTIONS)
    {
      var b :| b in cards && a == b.(sourceOrder := a.sourceOrder);
    }
  }

  lemma AppendWell(c: Collected, processed: set<string>, name: string, added: seq<AgentView>, targets: Targets)
    requires CollectedWell(c, processed) && name !in processed && ContributionWell(name, added, targets)
    requires forall i :: 0 <= i < |added| ==> added[i].sourceOrder == |c.agents| + i
    ensures CollectedWell(c.(agents := c.agents + added, targets := c.targets + targets), processed + {name})
  {
    forall a, b | a in c.agents && b in added ensures a.id != b.id {
      assert HerdrCard(a) && HerdrCard(b);
    }
    AppendDistinct(c.agents, added);
    AppendFailClosed(c.agents, added, c.targets, targets);
    assert CountedInPlace(c.agents + added);
  }

  predicate DistinctNames(names: seq<string>) {
    forall i, j :: 0 <= i < j < |names| ==> names[i] != names[j]
  }

  function NameSet(names: seq<string>): set<string> {
    set n | n in names
  }

  lemma CollectSessionWell(
      c: Collected, processed: set<string>, name: string, outcome: Outcome, previous: seq<AgentView>)
    requires CollectedWell(c, processed) && name !in processed
    requires OutcomeContract(name, outcome) && PreviousContract(previous)
    ensures CollectedWell(CollectSession(c, name, outcome, previous), processed + {name})
    ensures Ids(CollectSession(c, name, outcome, previous).agents) <= Ids(c.agents) + Ids(previous) + Reported(outcome)
  {
    var cards := Contribution(name, outcome, previous);
    ContributionIsWell(name, outcome, previous);
    NumberedWell(|c.agents|, name, cards.0, cards.1);
    AppendWell(c, processed, name, NumberFrom(|c.agents|, cards.0), cards.1);
    NumberFromKeeps(|c.agents|, cards.0);
    IdsConcat(c.agents, NumberFrom(|c.agents|, cards.0));
  }

  // Through any mix of failures the roster is numbered in place, names every
  // card once, and offers actions only where it can route them.
  lemma {:induction false} CollectWell(names: seq<string>, outcomes: seq<Outcome>, previous: seq<AgentView>)
    requires |names| == |outcomes| && DistinctNames(names) && PreviousContract(previous)
    requires forall i :: 0 <= i < |names| ==> OutcomeContract(names[i], outcomes[i])
    ensures CollectedWell(Collect(names, outcomes, previous), NameSet(names))
  {
    if names != [] {
      var n := |names| - 1;
      CollectWell(names[..n], outcomes[..n], previous);
      assert names[n] !in NameSet(names[..n]);
      CollectSessionWell(
        Collect(names[..n], outcomes[..n], previous), NameSet(names[..n]), names[n], outcomes[n], previous);
      assert NameSet(names) == NameSet(names[..n]) + {names[n]};
    }
  }

  lemma {:induction false} CollectCounts(names: seq<string>, outcomes: seq<Outcome>, previous: seq<AgentView>)
    requires |names| == |outcomes|
    ensures var c := Collect(names, outcomes, previous);
      && |c.modes| <= c.connected <= |names|
      && (|c.modes| == |names| <==> forall i :: 0 <= i < |names| ==> ReportedOrder(outcomes[i]).Some?)
      && (|c.modes| == |names| ==> forall i :: 0 <= i < |names| ==> c.modes[i] == ReportedOrder(outcomes[i]).value)
  {
    if names != [] {
      var n := |names| - 1;
      CollectCounts(names[..n], outcomes[..n], previous);
      forall i | 0 <= i < n ensures outcomes[..n][i] == outcomes[i] {
      }
    }
  }

  // Ordering is published exactly when every discovered session is connected
  // and reported that one mode.
  lemma OrderPublishedIffUniform(names: seq<string>, outcomes: seq<Outcome>, previous: seq<AgentView>, mode: OrderMode)
    requires |names| == |outcomes|
    ensures HerdrOrder(|names|, Collect(names, outcomes, previous)) == OrderSnapshot(true, mode) <==>
      names != [] && forall i :: 0 <= i < |names| ==> ReportedOrder(outcomes[i]) == Some(mode)
  {
    CollectCounts(names, outcomes, previous);
    var c := Collect(names, outcomes, previous);
    if names != [] && forall i :: 0 <= i < |names| ==> ReportedOrder(outcomes[i]) == Some(mode) {
      assert |c.modes| == |names| == c.connected;
      assert forall i :: 0 <= i < |names| ==> c.modes[i] == ReportedOrder(outcomes[i]).value == mode;
    }
    if HerdrOrder(|names|, c) == OrderSnapshot(true, mode) {
      forall i | 0 <= i < |names| ensures ReportedOrder(outcomes[i]) == Some(mode) {
        assert c.modes[i] == c.modes[0] == mode;
      }
    }
  }

  // ---- What a collection shows of each session ----

  // The cards of one session, in the order of the roster.
  function CardsIn(agents: seq<AgentView>, name: string): seq<AgentView> {
    if agents == [] then []
    else
      var n := |agents| - 1;
      CardsIn(agents[..n], name) + if agents[n].session == name then [agents[n]] else []
  }

  function Unnumbered(a: AgentView): AgentView {
    a.(sourceOrder := 0)
  }

  // Cards up to their place, and up to their place and actions.
  function AllUnnumbered(agents: seq<AgentView>): seq<AgentView> {
    seq(|agents|, i requires 0 <= i < |agents| => Unnumbered(agents[i]))
  }

  function Faces(agents: seq<AgentView>): seq<AgentView> {
    seq(|agents|, i requires 0 <= i < |agents| => Unnumbered(agents[i]).(actions := NO_ACTIONS))
  }

  // The session answered, and what it answered last is what counts.
  predicate AnswersAs(outcome: Outcome, raw: Raw) {
    && raw.compatible && outcome.Observation? && outcome.first.compatible
    && (outcome.subscription.Kept? ==> raw == outcome.first)
    && (outcome.subscription.Renewed? ==> outcome.subscription.reconciled == Some(raw))
    && !outcome.subscription.SubscriptionFailed?
  }

  // It answered, but its subscription or the read after it failed.
  predicate LosesTouch(outcome: Outcome) {
    && outcome.Observation? && outcome.first.compatible
    && (outcome.subscription.SubscriptionFailed? || outcome.subscription == Renewed(None))
  }

  predicate SpeaksOtherwise(outcome: Outcome) {
    && outcome.Observation?
    && (!outcome.first.compatible
        || (outcome.subscription.Renewed? && outcome.subscription.reconciled.Some?
            && !outcome.subscription.reconciled.value.compatible))
  }

  // These cards of a session are as the last answer or the previous roster had
  // them, in that order, and only an answering session keeps its actions and targets.
  ghost predicate ShowsSession(
      cards: seq<AgentView>, targets: Targets, outcome: Outcome, name: string, previous: seq<AgentView>)
  {
    && (outcome.SnapshotFailed? ==> Faces(cards) == Faces(CardsIn(previous, name)))
    && (LosesTouch(outcome) ==> Faces(cards) == Faces(outcome.first.agents))
    && (outcome.SnapshotFailed? || LosesTouch(outcome) ==>
          forall a :: a in cards ==> a.actions == NO_ACTIONS && a.id !in targets)
    && (SpeaksOtherwise(outcome) ==> cards == [])
    && (forall raw :: AnswersAs(outcome, raw) ==>
          && AllUnnumbered(cards) == AllUnnumbered(raw.agents)
          && forall a :: a in raw.agents ==> Lookup(targets, a.id) == Lookup(raw.targets, a.id))
  }

  lemma {:induction false} CardsInBoth(a: seq<AgentView>, b: seq<AgentView>, name: string)
    ensures CardsIn(a + b, name) == CardsIn(a, name) + CardsIn(b, name)
  {
    if b == [] {
      assert a + b == a;
    } else {
      var n := |b| - 1;
      assert (a + b)[..|a| + n] == a + b[..n];
      CardsInBoth(a, b[..n], name);
    }
  }

  lemma {:induction false} CardsInAll(agents: seq<AgentView>, name: string, mine: bool)
    requires forall a :: a in agents ==> (a.session == name <==> mine)
    ensures CardsIn(agents, name) == if mine then agents else []
  {
    if agents != [] {
      var n := |agents| - 1;
      assert agents[n] in agents && agents == agents[..n] + [agents[n]];
      CardsInAll(agents[..n], name, mine);
    }
  }

  lemma {:induction false} OfSessionIsCardsIn(agents: seq<AgentView>, name: string)
    ensures OfSession(agents, name) == CardsIn(agents, name)
  {
    if agents != [] {
      assert agents == [agents[0]] + agents[1..];
      CardsInBoth([agents[0]], agents[1..], name);
      assert CardsIn([agents[0]], name) == if agents[0].session == name then [agents[0]] else [];
      OfSessionIsCardsIn(agents[1..], name);
    }
  }

  // What a session contributes, before it is numbered from its offset.
  lemma ContributionShows(name: string, outcome: Outcome, previous: seq<AgentView>, offset: nat)
    requires OutcomeContract(name, outcome)
    ensures var c := Contribution(name, outcome, previous);
      ShowsSession(NumberFrom(offset, c.0), c.1, outcome, name, previous)
  {
    OfSessionIsCardsIn(previous, name);
    var c := Contribution(name, outcome, previous);
    var cards := NumberFrom(offset, c.0);
    assert forall i :: 0 <= i < |cards| ==> cards[i] == c.0[i].(sourceOrder := offset + i);
  }

  // Both targets route the session's cards alike.
  ghost predicate SameRoutes(a: Targets, b: Targets, name: string) {
    forall id: AgentId :: id.HerdrAgent? && id.herdrSession == name ==> Lookup(a, id) == Lookup(b, id)
  }

  lemma SameRoutesShow(cards: seq<AgentView>, a: Targets, b: Targets, outcome: Outcome, name: string,
                       previous: seq<AgentView>)
    requires ShowsSession(cards, a, outcome, name, previous) && SameRoutes(a, b, name)
    requires OutcomeContract(name, outcome) && forall c :: c in cards ==> HerdrCard(c) && c.session == name
    ensures ShowsSession(cards, b, outcome, name, previous)
  {
    forall c | c in cards ensures Lookup(a, c.id) == Lookup(b, c.id) {
    }
    forall raw, c | AnswersAs(outcome, raw) && c in raw.agents ensures Lookup(a, c.id) == Lookup(b, c.id) {
    }
  }

  lemma RoutesApart(c: Collected, processed: set<string>, name: string, cards: seq<AgentView>, targets: Targets,
                    other: string)
    requires CollectedWell(c, processed) && name !in processed && ContributionWell(name, cards, targets)
    ensures SameRoutes(targets, c.targets + targets, name)
    ensures other != name ==> SameRoutes(c.targets, c.targets + targets, other)
  {
    forall id | id in c.targets ensures id.HerdrAgent? && id.herdrSession in processed {
      var a :| a in c.agents && a.id == id;
    }
    forall id | id in targets ensures id.HerdrAgent? && id.herdrSession == name {
      var a :| a in cards && a.id == id;
    }
  }

  // Appending one session's cards.
  lemma CardsAppended(agents: seq<AgentView>, added: seq<AgentView>, name: string, other: string)
    requires forall a :: a in agents ==> a.session != name
    requires forall a :: a in added ==> a.session == name
    ensures CardsIn(agents + added, name) == added
    ensures other != name ==> CardsIn(agents + added, other) == CardsIn(agents, other)
  {
    CardsInAll(agents, name, false);
    CardsInAll(added, name, true);
    CardsInBoth(agents, added, name);
    CardsInBoth(agents, added, other);
    if other != name {
      CardsInAll(added, other, false);
    }
    assert [] + added == added;
    assert CardsIn(agents, other) + [] == CardsIn(agents, other);
  }

  lemma AddedSession(c: Collected, processed: set<string>, name: string, outcome: Outcome, previous: seq<AgentView>,
                     added: seq<AgentView>, targets: Targets)
    requires CollectedWell(c, processed) && name !in processed
    requires OutcomeContract(name, outcome) && PreviousContract(previous)
    requires added == NumberFrom(|c.agents|, Contribution(name, outcome, previous).0)
    requires targets == Contribution(name, outcome, previous).1
    ensures ContributionWell(name, added, targets) && ShowsSession(added, targets, outcome, name, previous)
  {
    var cards := Contribution(name, outcome, previous);
    ContributionIsWell(name, outcome, previous);
    NumberedWell(|c.agents|, name, cards.0, cards.1);
    ContributionShows(name, outcome, previous, |c.agents|);
  }

  lemma OneMoreSession(c: Collected, processed: set<string>, name: string, outcome: Outcome, previous: seq<AgentView>,
                       other: string)
    requires CollectedWell(c, processed) && name !in processed
    requires OutcomeContract(name, outcome) && PreviousContract(previous)
    ensures var d := CollectSession(c, name, outcome, previous);
      && ShowsSession(CardsIn(d.agents, name), d.targets, outcome, name, previous)
      && (other != name ==> CardsIn(d.agents, other) == CardsIn(c.agents, other))
      && (other != name ==> SameRoutes(c.targets, d.targets, other))
  {
    var cards := Contribution(name, outcome, previous);
    var added := NumberFrom(|c.agents|, cards.0);
    AddedSession(c, processed, name, outcome, previous, added, cards.1);
    RoutesApart(c, processed, name, added, cards.1, other);
    CardsAppended(c.agents, added, name, other);
    SameRoutesShow(added, cards.1, c.targets + cards.1, outcome, name, previous);
  }

  lemma {:induction false} CardsInAreOf(agents: seq<AgentView>, name: string)
    ensures forall a :: a in CardsIn(agents, name) <==> a in agents && a.session == name
  {
    if agents != [] {
      var n := |agents| - 1;
      CardsInAreOf(agents[..n], name);
      assert agents == agents[..n] + [agents[n]];
    }
  }

  predicate AllContracts(names: seq<string>, outcomes: seq<Outcome>) {
    |names| == |outcomes| && forall k :: 0 <= k < |names| ==> OutcomeContract(names[k], outcomes[k])
  }

  // What the first n sessions make of the roster.
  function Prefix(names: seq<string>, outcomes: seq<Outcome>, previous: seq<AgentView>, n: nat): Collected
    requires |names| == |outcomes| && n <= |names|
  {
    Collect(names[..n], outcomes[..n], previous)
  }

  lemma PrefixNext(names: seq<string>, outcomes: seq<Outcome>, previous: seq<AgentView>, n: nat)
    requires |names| == |outcomes| && n < |names|
    ensures Prefix(names, outcomes, previous, n + 1)
      == CollectSession(Prefix(names, outcomes, previous, n), names[n], outcomes[n], previous)
  {
    assert names[..n + 1][..n] == names[..n] && outcomes[..n + 1][..n] == outcomes[..n];
  }

  lemma PrefixWell(names: seq<string>, outcomes: seq<Outcome>, previous: seq<AgentView>, n: nat)
    requires AllContracts(names, outcomes) && DistinctNames(names) && PreviousContract(previous) && n <= |names|
    ensures CollectedWell(Prefix(names, outcomes, previous, n), NameSet(names[..n]))
    ensures n < |names| ==> names[n] !in NameSet(names[..n])
  {
    CollectWell(names[..n], outcomes[..n], previous);
  }

  // The roster shows this session as its outcome says.
  ghost predicate Shows(c: Collected, name: string, outcome: Outcome, previous: seq<AgentView>) {
    ShowsSession(CardsIn(c.agents, name), c.targets, outcome, name, previous)
  }

  lemma ShownOnce(names: seq<string>, outcomes: seq<Outcome>, previous: seq<AgentView>, i: nat)
    requires AllContracts(names, outcomes) && DistinctNames(names) && PreviousContract(previous) && i < |names|
    ensures Shows(Prefix(names, outcomes, previous, i + 1), names[i], outcomes[i], previous)
  {
    PrefixWell(names, outcomes, previous, i);
    PrefixNext(names, outcomes, previous, i);
    OneMoreSession(Prefix(names, outcomes, previous, i), NameSet(names[..i]), names[i], outcomes[i], previous, "");
  }

  lemma StaysShown(names: seq<string>, outcomes: seq<Outcome>, previous: seq<AgentView>, i: nat, n: nat)
    requires AllContracts(names, outcomes) && DistinctNames(names) && PreviousContract(previous) && i < n < |names|
    requires Shows(Prefix(names, outcomes, previous, n), names[i], outcomes[i], previous)
    ensures Shows(Prefix(names, outcomes, previous, n + 1), names[i], outcomes[i], previous)
  {
    var c := Prefix(names, outcomes, previous, n);
    PrefixWell(names, outcomes, previous, n);
    PrefixNext(names, outcomes, previous, n);
    OneMoreSession(c, NameSet(names[..n]), names[n], outcomes[n], previous, names[i]);
    StillShows(c, Prefix(names, outcomes, previous, n + 1), outcomes[i], names[i], previous);
  }

  lemma {:induction false} ShownSince(
      names: seq<string>, outcomes: seq<Outcome>, previous: seq<AgentView>, i: nat, n: nat)
    requires AllContracts(names, outcomes) && DistinctNames(names) && PreviousContract(previous) && i < n <= |names|
    ensures Shows(Prefix(names, outcomes, previous, n), names[i], outcomes[i], previous)
  {
    if n == i + 1 {
      ShownOnce(names, outcomes, previous, i);
    } else {
      ShownSince(names, outcomes, previous, i, n - 1);
      StaysShown(names, outcomes, previous, i, n - 1);
    }
  }

  // Whatever the sessions answer, the collected roster shows each of them as
  // its own outcome says.
  lemma CollectShows(names: seq<string>, outcomes: seq<Outcome>, previous: seq<AgentView>, i: nat)
    requires AllContracts(names, outcomes) && DistinctNames(names) && PreviousContract(previous) && i < |names|
    ensures Shows(Collect(names, outcomes, previous), names[i], outcomes[i], previous)
  {
    ShownSince(names, outcomes, previous, i, |names|);
    assert names[..|names|] == names && outcomes[..|names|] == outcomes;
  }

  lemma StillShows(c: Collected, d: Collected, outcome: Outcome, name: string, previous: seq<AgentView>)
    requires ShowsSession(CardsIn(c.agents, name), c.targets, outcome, name, previous)
    requires CardsIn(d.agents, name) == CardsIn(c.agents, name) && SameRoutes(c.targets, d.targets, name)
    requires OutcomeContract(name, outcome) && forall a :: a in c.agents ==> HerdrCard(a)
    ensures ShowsSession(CardsIn(d.agents, name), d.targets, outcome, name, previous)
  {
    CardsInAreOf(c.agents, name);
    SameRoutesShow(CardsIn(c.agents, name), c.targets, d.targets, outcome, name, previous);
  }

  predicate Answers(outcome: Outcome) {
    !outcome.SnapshotFailed? && !LosesTouch(outcome) && !SpeaksOtherwise(outcome)
  }

  predicate ListedAs(view: SessionView, name: string, outcome: Outcome) {
    && view.name == name
    && (view.state.Connected? <==> Answers(outcome))
    && (view.state.Stale? <==> outcome.SnapshotFailed? || LosesTouch(outcome))
    && (view.state.Incompatible? <==> SpeaksOtherwise(outcome))
  }

  // Every session is listed in discovery order with its state, and those that
  // answer are counted.
  lemma {:induction false} CollectLists(names: seq<string>, outcomes: seq<Outcome>, previous: seq<AgentView>)
    requires |names| == |outcomes|
    ensures var c := Collect(names, outcomes, previous);
      && |c.sessions| == |names| && c.connected <= |names|
      && (forall i :: 0 <= i < |names| ==> ListedAs(c.sessions[i], names[i], outcomes[i]))
      && (c.connected == |names| <==> forall i :: 0 <= i < |names| ==> Answers(outcomes[i]))
      && (c.connected == 0 <==> forall i :: 0 <= i < |names| ==> !Answers(outcomes[i]))
  {
    if names != [] {
      var n := |names| - 1;
      CollectLists(names[..n], outcomes[..n], previous);
      assert forall i :: 0 <= i < n ==> outcomes[..n][i] == outcomes[i] && names[..n][i] == names[i];
      assert ListedAs(SessionView(names[n], StateOf(outcomes[n])), names[n], outcomes[n]);
    }
  }

  // A session's mode counts if it answers, and is that of its last answer.
  lemma ReportedOrderMeaning(outcome: Outcome, mode: OrderMode)
    ensures ReportedOrder(outcome) == Some(mode) <==> exists raw :: AnswersAs(outcome, raw) && raw.order == Some(mode)
  {
    if outcome.Observation? {
      assert AnswersAs(outcome, outcome.first) || !Answers(outcome) || !outcome.subscription.Kept?;
      if Answers(outcome) && outcome.subscription.Renewed? {
        assert AnswersAs(outcome, outcome.subscription.reconciled.value);
      }
    }
  }
}
