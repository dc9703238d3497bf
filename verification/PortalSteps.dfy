// What the daemon's steps leave of the portal, in terms of the portal's own
// fields and of what the managers answered (crates/xeneon-agent-core/src/runtime.rs).

module PortalSteps {
  import opened Optional
  import opened PortalModel
  import opened ReviewLatch
  import opened T3Code
  import opened HerdrRefresh
  import opened OrderProtocol
  import opened PortalState
  import opened PortalRuns

  // ---- The roster is in the published order ----

  ghost predicate InPublishedOrder(p: Portal) {
    InOrder(if p.order.available then p.order.mode else Priority, p.agents)
  }

  // The step commits a roster, publishes an ordering or clears the portal.
  predicate Commits(s: System, step: Step) {
    match step
    case DiscoverFails => s.job.Discovering? && s.portal.backend.HerdrManager?
    case FinishHerdr(_) =>
      s.job.Collecting? && |s.job.outcomes| == |s.job.names| && s.portal.backend.HerdrManager?
    case FinishT3(_, _) => s.job.ObservingT3? && s.portal.backend.T3Manager?
    case PublishT3Order => s.job.OrderingT3?
    case EndOrder => s.job.OrderingHerdr? && s.job.phase.Settled? && s.job.phase.end.Published?
    case Switch(cited, manager) => s.job.NoJob? && cited == s.portal.sequence && s.portal.backend != manager
    case _ => false
  }

  // It clears a badge, or withdraws the ordering, without sorting again.
  predicate Disturbs(s: System, step: Step) {
    match step
    case OpenAnswered(id, ok) => id in s.opening && ok
    case EndOrder => s.job.OrderingHerdr? && s.job.phase.Settled? && s.job.phase.end.Withdrawn?
    case _ => false
  }

  lemma RefreshSorts(s: System, step: Step)
    requires Commits(s, step) && (step.FinishHerdr? || step.FinishT3?)
    ensures InPublishedOrder(Do(s, step).portal)
  {
    match step {
      case FinishHerdr(now) =>
        var c := Collect(s.job.names, s.job.outcomes, s.job.previous);
        var order := HerdrOrder(|s.job.names|, c);
        ArrangedSorts(order, Apply(c.agents, c.targets, s.portal.memory, now).0);
      case FinishT3(o, now) =>
        var stale := o.session.Stale?;
        var settled := Apply(if stale then Disarm(s.portal.agents) else o.agents, if stale then map[] else o.targets,
          s.portal.memory, now);
        ArrangedSorts(OrderSnapshot(o.session.Connected?, s.portal.t3Order), settled.0);
    }
  }

  lemma ArrangedSorts(order: OrderSnapshot, agents: seq<AgentView>)
    ensures InOrder(if order.available then order.mode else Priority, Arranged(order, agents))
  {
    SortOrders(if order.available then order.mode else Priority, agents);
  }

  // An ordering command that succeeds publishes its mode and shows the same
  // cards in that order; nothing else but the number changes.
  lemma PublishingSorts(s: System, step: Step)
    requires Commits(s, step) && (step.EndOrder? || step.PublishT3Order?)
    ensures var p, q := s.portal, Do(s, step).portal;
      && q.order == OrderSnapshot(true, s.job.mode) && InOrder(s.job.mode, q.agents)
      && multiset(q.agents) == multiset(p.agents) && q.sequence == Advance(p.sequence)
      && q == p.(order := q.order, agents := q.agents, sequence := q.sequence, t3Order := q.t3Order)
      && q.t3Order == (if step.PublishT3Order? then s.job.mode else p.t3Order)
  {
    OrderPublishedMeaning(s.portal, s.job.mode);
  }

  lemma CommitSorts(s: System, step: Step)
    requires Commits(s, step)
    ensures InPublishedOrder(Do(s, step).portal)
  {
    match step
    case FinishHerdr(_) => RefreshSorts(s, step);
    case FinishT3(_, _) => RefreshSorts(s, step);
    case EndOrder => PublishingSorts(s, step);
    case PublishT3Order => PublishingSorts(s, step);
    case DiscoverFails => SortOrders(Priority, Disarm(s.portal.agents));
    case Switch(_, _) =>
  }

  lemma QuietStep(s: System, step: Step)
    requires !Commits(s, step) && !Disturbs(s, step)
    ensures Do(s, step).portal.agents == s.portal.agents && Do(s, step).portal.order == s.portal.order
  {
  }

  // Nothing has disturbed the order since the latest commit.
  predicate Undisturbed(s: System, steps: seq<Step>) {
    steps == []
    || var n := |steps| - 1;
       var before := After(s, steps[..n]);
       Commits(before, steps[n]) || (!Disturbs(before, steps[n]) && Undisturbed(s, steps[..n]))
  }

  // In every run the roster is in the published order, by priority if none is
  // published, until a badge is cleared or the ordering is withdrawn.
  lemma {:induction false} RosterIsInOrder(backend: AgentBackend, t3Order: OrderMode, modes: Modes, steps: seq<Step>)
    requires Undisturbed(Start(backend, t3Order, modes), steps)
    ensures InPublishedOrder(After(Start(backend, t3Order, modes), steps).portal)
  {
    if steps != [] {
      var n := |steps| - 1;
      var before := After(Start(backend, t3Order, modes), steps[..n]);
      if Commits(before, steps[n]) {
        CommitSorts(before, steps[n]);
      } else {
        RosterIsInOrder(backend, t3Order, modes, steps[..n]);
        QuietStep(before, steps[n]);
      }
    }
  }

  // A withdrawn ordering leaves the cards as they stood: by priority only if
  // they happened to be.
  lemma WithdrawalLeavesTheOrder(p: Portal, idle: AgentView, blocked: AgentView)
    ensures InPublishedOrder(OrderWithdrawn(p)) <==> InOrder(Priority, p.agents)
    ensures idle.status.Idle? && blocked.status.Blocked? && p.agents == [idle, blocked] ==>
      !InPublishedOrder(OrderWithdrawn(p))
  {
    CompareMeaning(Priority, idle, blocked);
    if p.agents == [idle, blocked] {
      assert p.agents[0] == idle && p.agents[1] == blocked;
    }
  }

  // A reviewed card stays above work that now outranks it.
  lemma AClearedBadgeStaysPut(p: Portal, done: AgentView, working: AgentView)
    requires p.agents == [done, working] && !p.order.available && done.id != working.id
    requires done.status.Done? && done.reviewReady && working.status.Working?
    ensures InPublishedOrder(p) && !InPublishedOrder(ReviewAcknowledged(p, done.id))
  {
    CompareMeaning(Priority, done, working);
    var q := ReviewAcknowledged(p, done.id);
    assert IndexOf(p.agents, done.id) == 0;
    assert q.agents == [done.(reviewReady := false), working];
    CompareMeaning(Priority, q.agents[0], q.agents[1]);
    assert Compare(Priority, q.agents[0], q.agents[1]) > 0;
  }

  // ---- Refreshes of Herdr ----

  // The same card, up to where it stands and what the latch shows of it.
  predicate Looks(a: AgentView, b: AgentView) {
    a == b.(sourceOrder := a.sourceOrder, reviewReady := a.reviewReady, observedFor := a.observedFor)
  }

  // Every observed card is shown, and no other.
  ghost predicate AllShown(shown: seq<AgentView>, agents: seq<AgentView>) {
    forall a :: a in agents ==> exists b :: b in shown && Looks(b, a)
  }

  ghost predicate NoneElse(shown: seq<AgentView>, agents: seq<AgentView>) {
    forall b :: b in shown ==> exists a :: a in agents && Looks(b, a)
  }

  lemma CommitShowsAll(agents: seq<AgentView>, targets: Targets, m: Memory, order: OrderSnapshot, now: nat)
    requires DistinctIds(agents)
    ensures var shown := Arranged(order, Apply(agents, targets, m, now).0);
      AllShown(shown, agents) && |shown| == |agents|
  {
    var r := Apply(agents, targets, m, now);
    CommitPublishes(agents, targets, m, order, now);
    var shown := Arranged(order, r.0);
    forall a | a in agents ensures exists b :: b in shown && Looks(b, a) {
      assert a.id in Ids(shown);
      var b :| b in shown && b.id == a.id;
      var c :| c in agents && c.id == b.id && b == Show(c, Lookup(r.1.observed, c.id), now);
      SameIdSameCard(agents, a, c);
      assert Looks(b, a);
    }
  }

  lemma CommitShowsNoneElse(agents: seq<AgentView>, targets: Targets, m: Memory, order: OrderSnapshot, now: nat)
    requires DistinctIds(agents)
    ensures NoneElse(Arranged(order, Apply(agents, targets, m, now).0), agents)
  {
    var r := Apply(agents, targets, m, now);
    CommitPublishes(agents, targets, m, order, now);
    forall b | b in Arranged(order, r.0) ensures exists a :: a in agents && Looks(b, a) {
      var c :| c in agents && c.id == b.id && b == Show(c, Lookup(r.1.observed, c.id), now);
      assert Looks(b, c);
    }
  }

  lemma SameIdSameCard(agents: seq<AgentView>, a: AgentView, b: AgentView)
    requires DistinctIds(agents) && a in agents && b in agents && a.id == b.id
    ensures a == b
  {
  }

  // The connection, sessions and ordering a completed refresh publishes.
  lemma FinishHerdrPublishes(s: System, now: nat)
    requires Sound(s) && Commits(s, FinishHerdr(now))
    ensures var q, names, outcomes := Do(s, FinishHerdr(now)).portal, s.job.names, s.job.outcomes;
      && |q.sessions| == |names|
      && (forall i :: 0 <= i < |names| ==> ListedAs(q.sessions[i], names[i], outcomes[i]))
      && (q.connection.OfflineAll? <==> names == [])
      && (q.connection.Online? <==> names != [] && forall i :: 0 <= i < |names| ==> Answers(outcomes[i]))
      && (q.connection.Reconnecting? <==> names != [] && forall i :: 0 <= i < |names| ==> !Answers(outcomes[i]))
      && q.sequence == Advance(s.portal.sequence)
  {
    CollectLists(s.job.names, s.job.outcomes, s.job.previous);
  }

  lemma FinishHerdrOrders(s: System, now: nat, mode: OrderMode)
    requires Sound(s) && Commits(s, FinishHerdr(now))
    ensures var q, names, outcomes := Do(s, FinishHerdr(now)).portal, s.job.names, s.job.outcomes;
      q.order == OrderSnapshot(true, mode) <==>
      names != [] && forall i :: 0 <= i < |names| ==>
        exists raw :: AnswersAs(outcomes[i], raw) && raw.order == Some(mode)
  {
    var names, outcomes := s.job.names, s.job.outcomes;
    OrderPublishedIffUniform(names, outcomes, s.job.previous, mode);
    forall i | 0 <= i < |names|
      ensures ReportedOrder(outcomes[i]) == Some(mode) <==>
        exists raw :: AnswersAs(outcomes[i], raw) && raw.order == Some(mode)
    {
      ReportedOrderMeaning(outcomes[i], mode);
    }
  }

  lemma FaceOf(xs: seq<AgentView>, ys: seq<AgentView>, y: AgentView) returns (x: AgentView)
    requires Faces(xs) == Faces(ys) && y in ys
    ensures x in xs && Unnumbered(x).(actions := NO_ACTIONS) == Unnumbered(y).(actions := NO_ACTIONS)
  {
    var i :| 0 <= i < |ys| && ys[i] == y;
    assert |Faces(xs)| == |xs| && |Faces(ys)| == |ys|;
    x := xs[i];
    assert Faces(xs)[i] == Faces(ys)[i];
  }

  lemma UnnumberedOf(xs: seq<AgentView>, ys: seq<AgentView>, y: AgentView) returns (x: AgentView)
    requires AllUnnumbered(xs) == AllUnnumbered(ys) && y in ys
    ensures x in xs && Unnumbered(x) == Unnumbered(y)
  {
    var i :| 0 <= i < |ys| && ys[i] == y;
    assert |AllUnnumbered(xs)| == |xs| && |AllUnnumbered(ys)| == |ys|;
    x := xs[i];
    assert AllUnnumbered(xs)[i] == AllUnnumbered(ys)[i];
  }

  // What a refresh shows of a session: its cards as its last answer had them;
  // its cards without actions if it lost touch or did not answer at all; none
  // if it speaks another protocol.
  ghost predicate ShowsOutcome(q: Portal, name: string, outcome: Outcome, previous: seq<AgentView>) {
    ShowsAnswer(q, outcome) && KeepsCards(q, name, outcome, previous) && ShowsOnly(q, name, outcome, previous)
  }

  ghost predicate ShowsAnswer(q: Portal, outcome: Outcome) {
    forall raw, a :: AnswersAs(outcome, raw) && a in raw.agents ==>
      (exists b :: b in q.agents && Looks(b, a)) && Lookup(q.targets, a.id) == Lookup(raw.targets, a.id)
  }

  ghost predicate KeepsCards(q: Portal, name: string, outcome: Outcome, previous: seq<AgentView>) {
    && (LosesTouch(outcome) ==> forall a :: a in outcome.first.agents ==> ShownDisarmed(q, a))
    && (outcome.SnapshotFailed? ==> forall a :: a in previous && a.session == name ==> ShownDisarmed(q, a))
  }

  ghost predicate ShowsOnly(q: Portal, name: string, outcome: Outcome, previous: seq<AgentView>) {
    forall b :: b in q.agents && b.session == name ==> CameFrom(b.id, outcome, previous)
  }

  ghost predicate CameFrom(id: AgentId, outcome: Outcome, previous: seq<AgentView>) {
    && !SpeaksOtherwise(outcome)
    && (forall raw :: AnswersAs(outcome, raw) ==> id in Ids(raw.agents))
    && (LosesTouch(outcome) ==> id in Ids(outcome.first.agents))
    && (outcome.SnapshotFailed? ==> id in Ids(previous))
  }

  ghost predicate ShownDisarmed(q: Portal, a: AgentView) {
    (exists b :: b in q.agents && Looks(b, a.(actions := NO_ACTIONS))) && a.id !in q.targets
  }

  lemma DisarmedShown(cards: seq<AgentView>, targets: Targets, q: Portal, sources: seq<AgentView>, a: AgentView)
    requires Faces(cards) == Faces(sources) && a in sources && q.targets == targets
    requires forall c :: c in cards ==> c.actions == NO_ACTIONS && c.id !in targets
    requires forall c :: c in cards ==> exists b :: b in q.agents && Looks(b, c)
    ensures ShownDisarmed(q, a)
  {
    var c := FaceOf(cards, sources, a);
    var b :| b in q.agents && Looks(b, c);
    assert Looks(b, a.(actions := NO_ACTIONS));
  }

  lemma AnsweredShown(cards: seq<AgentView>, q: Portal, raw: Raw, a: AgentView)
    requires AllUnnumbered(cards) == AllUnnumbered(raw.agents) && a in raw.agents
    requires forall c :: c in cards ==> exists b :: b in q.agents && Looks(b, c)
    ensures exists b :: b in q.agents && Looks(b, a)
  {
    var c := UnnumberedOf(cards, raw.agents, a);
    var b :| b in q.agents && Looks(b, c);
    assert Looks(b, a);
  }

  lemma ShownCameFrom(cards: seq<AgentView>, targets: Targets, outcome: Outcome, name: string,
                      previous: seq<AgentView>, c: AgentView)
    requires ShowsSession(cards, targets, outcome, name, previous) && c in cards
    ensures CameFrom(c.id, outcome, previous)
  {
    forall raw | AnswersAs(outcome, raw) ensures c.id in Ids(raw.agents) {
      var a := UnnumberedOf(raw.agents, cards, c);
      assert a.id == Unnumbered(a).id == Unnumbered(c).id == c.id;
    }
    if LosesTouch(outcome) {
      var a := FaceOf(outcome.first.agents, cards, c);
      assert a.id == Unnumbered(a).(actions := NO_ACTIONS).id == Unnumbered(c).(actions := NO_ACTIONS).id == c.id;
    }
    if outcome.SnapshotFailed? {
      var a := FaceOf(CardsIn(previous, name), cards, c);
      CardsInAreOf(previous, name);
      assert a.id == Unnumbered(a).(actions := NO_ACTIONS).id == Unnumbered(c).(actions := NO_ACTIONS).id == c.id;
    }
  }

  lemma AnswerIsShown(c: Collected, cards: seq<AgentView>, q: Portal, name: string, outcome: Outcome,
                      previous: seq<AgentView>)
    requires ShowsSession(cards, c.targets, outcome, name, previous) && q.targets == c.targets
    requires forall x :: x in cards ==> exists b :: b in q.agents && Looks(b, x)
    ensures ShowsAnswer(q, outcome)
  {
    forall raw, a | AnswersAs(outcome, raw) && a in raw.agents
      ensures (exists b :: b in q.agents && Looks(b, a)) && Lookup(q.targets, a.id) == Lookup(raw.targets, a.id)
    {
      AnsweredShown(cards, q, raw, a);
    }
  }

  lemma CardsAreKept(c: Collected, cards: seq<AgentView>, q: Portal, name: string, outcome: Outcome,
                     previous: seq<AgentView>)
    requires ShowsSession(cards, c.targets, outcome, name, previous) && q.targets == c.targets
    requires forall x :: x in cards ==> exists b :: b in q.agents && Looks(b, x)
    ensures KeepsCards(q, name, outcome, previous)
  {
    CardsInAreOf(previous, name);
    forall a | LosesTouch(outcome) && a in outcome.first.agents ensures ShownDisarmed(q, a) {
      DisarmedShown(cards, c.targets, q, outcome.first.agents, a);
    }
    forall a | outcome.SnapshotFailed? && a in previous && a.session == name ensures ShownDisarmed(q, a) {
      DisarmedShown(cards, c.targets, q, CardsIn(previous, name), a);
    }
  }

  lemma OnlyThoseAreShown(c: Collected, cards: seq<AgentView>, q: Portal, name: string, outcome: Outcome,
                          previous: seq<AgentView>)
    requires ShowsSession(cards, c.targets, outcome, name, previous)
    requires forall b :: b in q.agents && b.session == name ==> b.id in Ids(cards)
    ensures ShowsOnly(q, name, outcome, previous)
  {
    forall b | b in q.agents && b.session == name ensures CameFrom(b.id, outcome, previous) {
      var a :| a in cards && a.id == b.id;
      ShownCameFrom(cards, c.targets, outcome, name, previous, a);
    }
  }

  lemma AllOfSession(agents: seq<AgentView>, q: Portal, name: string)
    requires AllShown(q.agents, agents)
    ensures forall x :: x in CardsIn(agents, name) ==> exists b :: b in q.agents && Looks(b, x)
  {
    CardsInAreOf(agents, name);
  }

  lemma OnlyOfSession(agents: seq<AgentView>, q: Portal, name: string)
    requires NoneElse(q.agents, agents)
    ensures forall b :: b in q.agents && b.session == name ==> b.id in Ids(CardsIn(agents, name))
  {
    CardsInAreOf(agents, name);
    forall b | b in q.agents && b.session == name ensures b.id in Ids(CardsIn(agents, name)) {
      var a :| a in agents && Looks(b, a);
      assert a in CardsIn(agents, name);
    }
  }

  lemma FinishShowsAll(s: System, c: Collected, now: nat, k: nat)
    requires Sound(s) && Commits(s, FinishHerdr(now)) && k < |s.job.names|
    requires c == Collect(s.job.names, s.job.outcomes, s.job.previous)
    ensures var q := Do(s, FinishHerdr(now)).portal;
      && ShowsAnswer(q, s.job.outcomes[k])
      && KeepsCards(q, s.job.names[k], s.job.outcomes[k], s.job.previous)
  {
    var name, outcome, q := s.job.names[k], s.job.outcomes[k], Do(s, FinishHerdr(now)).portal;
    CollectedSoundly(s);
    CommitShowsAll(c.agents, c.targets, s.portal.memory, HerdrOrder(|s.job.names|, c), now);
    CollectShows(s.job.names, s.job.outcomes, s.job.previous, k);
    AllOfSession(c.agents, q, name);
    AnswerIsShown(c, CardsIn(c.agents, name), q, name, outcome, s.job.previous);
    CardsAreKept(c, CardsIn(c.agents, name), q, name, outcome, s.job.previous);
  }

  lemma FinishShowsOnly(s: System, c: Collected, now: nat, k: nat)
    requires Sound(s) && Commits(s, FinishHerdr(now)) && k < |s.job.names|
    requires c == Collect(s.job.names, s.job.outcomes, s.job.previous)
    ensures ShowsOnly(Do(s, FinishHerdr(now)).portal, s.job.names[k], s.job.outcomes[k], s.job.previous)
  {
    var name, outcome, q := s.job.names[k], s.job.outcomes[k], Do(s, FinishHerdr(now)).portal;
    CollectedSoundly(s);
    CommitShowsNoneElse(c.agents, c.targets, s.portal.memory, HerdrOrder(|s.job.names|, c), now);
    CollectShows(s.job.names, s.job.outcomes, s.job.previous, k);
    OnlyOfSession(c.agents, q, name);
    OnlyThoseAreShown(c, CardsIn(c.agents, name), q, name, outcome, s.job.previous);
  }

  lemma FinishShowsListed(s: System, c: Collected, now: nat)
    requires Sound(s) && Commits(s, FinishHerdr(now))
    requires c == Collect(s.job.names, s.job.outcomes, s.job.previous)
    ensures forall b :: b in Do(s, FinishHerdr(now)).portal.agents ==> b.session in s.job.names
  {
    CollectedSoundly(s);
    CommitShowsNoneElse(c.agents, c.targets, s.portal.memory, HerdrOrder(|s.job.names|, c), now);
    forall b | b in Do(s, FinishHerdr(now)).portal.agents ensures b.session in s.job.names {
      var a :| a in c.agents && Looks(b, a);
    }
  }

  // A completed refresh shows every session as its outcome says, and no other.
  lemma FinishHerdrShows(s: System, now: nat)
    requires Sound(s) && Commits(s, FinishHerdr(now))
    ensures var q := Do(s, FinishHerdr(now)).portal;
      && (forall k :: 0 <= k < |s.job.names| ==>
            ShowsOutcome(q, s.job.names[k], s.job.outcomes[k], s.job.previous))
      && forall b :: b in q.agents ==> b.session in s.job.names
  {
    var c := Collect(s.job.names, s.job.outcomes, s.job.previous);
    forall k | 0 <= k < |s.job.names|
      ensures ShowsOutcome(
        Do(s, FinishHerdr(now)).portal, s.job.names[k], s.job.outcomes[k], s.job.previous)
    {
      FinishShowsAll(s, c, now, k);
      FinishShowsOnly(s, c, now, k);
    }
    FinishShowsListed(s, c, now);
  }

  // ---- What a refresh started from is what is still shown ----

  predicate SameButBadges(before: seq<AgentView>, agents: seq<AgentView>) {
    && |before| == |agents|
    && forall i :: 0 <= i < |agents| ==> agents[i] == before[i].(reviewReady := agents[i].reviewReady)
  }

  predicate StartedFrom(s: System) {
    s.job.Collecting? ==> SameButBadges(s.job.previous, s.portal.agents)
  }

  lemma OpenKeepsStart(s: System, id: AgentId, ok: bool)
    requires StartedFrom(s)
    ensures StartedFrom(Do(s, OpenAnswered(id, ok)))
  {
  }

  lemma CollectingIsUndisturbed(s: System, step: Step)
    requires StartedFrom(s) && !step.OpenAnswered?
    ensures StartedFrom(Do(s, step))
  {
  }

  lemma {:induction false} CollectsWhatIsShown(
      backend: AgentBackend, t3Order: OrderMode, modes: Modes, steps: seq<Step>)
    ensures StartedFrom(After(Start(backend, t3Order, modes), steps))
  {
    if steps != [] {
      var n := |steps| - 1;
      var before := After(Start(backend, t3Order, modes), steps[..n]);
      CollectsWhatIsShown(backend, t3Order, modes, steps[..n]);
      match steps[n]
      case OpenAnswered(id, ok) => OpenKeepsStart(before, id, ok);
      case _ => CollectingIsUndisturbed(before, steps[n]);
    }
  }

  // No run loses a card of a session because its snapshot failed: what was on
  // show of it stays on show, badge included, without actions.
  lemma FailedSessionsKeepTheirCards(
      backend: AgentBackend, t3Order: OrderMode, modes: Modes, steps: seq<Step>, now: nat, k: nat, a: AgentView)
    requires LegalRun(Start(backend, t3Order, modes), steps)
    requires var s := After(Start(backend, t3Order, modes), steps);
      && Commits(s, FinishHerdr(now)) && k < |s.job.names| && s.job.outcomes[k].SnapshotFailed?
      && a in s.portal.agents && a.session == s.job.names[k]
    ensures var q := Do(After(Start(backend, t3Order, modes), steps), FinishHerdr(now)).portal;
      && a.id !in q.targets
      && exists b ::
           b in q.agents && b == a.(actions := NO_ACTIONS, sourceOrder := b.sourceOrder, observedFor := b.observedFor)
  {
    var s := After(Start(backend, t3Order, modes), steps);
    EveryRunIsSound(backend, t3Order, modes, steps);
    CollectsWhatIsShown(backend, t3Order, modes, steps);
    FailedCardStays(s, now, k, a);
  }

  lemma FailedCardStays(s: System, now: nat, k: nat, a: AgentView)
    requires Sound(s) && StartedFrom(s) && Commits(s, FinishHerdr(now))
    requires k < |s.job.names| && s.job.outcomes[k].SnapshotFailed?
    requires a in s.portal.agents && a.session == s.job.names[k]
    ensures var q := Do(s, FinishHerdr(now)).portal;
      && a.id !in q.targets
      && exists b ::
           b in q.agents && b == a.(actions := NO_ACTIONS, sourceOrder := b.sourceOrder, observedFor := b.observedFor)
  {
    FinishHerdrShows(s, now);
    FinishHerdrKeeps(s, now);
    var i :| 0 <= i < |s.portal.agents| && s.portal.agents[i] == a;
    var p, q := s.job.previous[i], Do(s, FinishHerdr(now)).portal;
    assert p in s.job.previous && a == p.(reviewReady := a.reviewReady);
    LatchStays(s, now, a.id);
    BadgeStays(s.portal, q, a, p);
  }

  // The shown badge is that of the latch, before and after.
  lemma BadgeStays(p: Portal, q: Portal, a: AgentView, before: AgentView)
    requires LatchesShown(p.agents, p.memory.observed) && LatchesShown(q.agents, q.memory.observed)
    requires a in p.agents && a == before.(reviewReady := a.reviewReady) && ShownDisarmed(q, before)
    requires Lookup(q.memory.observed, a.id) == Lookup(p.memory.observed, a.id)
    ensures exists b ::
      b in q.agents && b == a.(actions := NO_ACTIONS, sourceOrder := b.sourceOrder, observedFor := b.observedFor)
  {
    var b :| b in q.agents && Looks(b, before.(actions := NO_ACTIONS));
    assert Lookup(q.memory.observed, b.id) == Lookup(p.memory.observed, a.id);
    assert b.reviewReady == a.reviewReady;
  }

  // A card that no session reported keeps its latch.
  lemma LatchStays(s: System, now: nat, id: AgentId)
    requires Sound(s) && Commits(s, FinishHerdr(now))
    ensures var q := Do(s, FinishHerdr(now)).portal;
      id in Ids(q.agents) && id !in q.targets ==>
        Lookup(q.memory.observed, id) == Lookup(s.portal.memory.observed, id)
  {
    var c := Collect(s.job.names, s.job.outcomes, s.job.previous);
    CollectedSoundly(s);
    var settled := Apply(c.agents, c.targets, s.portal.memory, now);
    UnreportedLatch(c.agents, c.targets, s.portal.memory, now, id);
    ArrangedKeeps(HerdrOrder(|s.job.names|, c), settled.0);
  }

  lemma UnreportedLatch(agents: seq<AgentView>, targets: Targets, m: Memory, now: nat, id: AgentId)
    requires DistinctIds(agents)
    ensures var r := Apply(agents, targets, m, now);
      && Ids(r.0) == Ids(agents)
      && (id in Ids(agents) && id !in targets ==> Lookup(r.1.observed, id) == Lookup(m.observed, id))
  {
    ApplyIsPerCard(agents, targets, m, now);
    SameIdsPointwise(agents, Apply(agents, targets, m, now).0);
  }

  // ---- The other commits ----

  // A failed discovery keeps the cards, without actions, and lists every
  // session as stale.
  lemma DiscoverFailsLeaves(s: System)
    requires Commits(s, DiscoverFails)
    ensures var p, q := s.portal, Do(s, DiscoverFails).portal;
      && AllDisarmed(q.agents, p.agents) && q.targets == map[]
      && |q.sessions| == |p.sessions|
      && (forall i :: 0 <= i < |p.sessions| ==> q.sessions[i] == SessionView(p.sessions[i].name, Stale))
      && q.connection.OfflineAll? && !q.order.available && q.sequence == Advance(p.sequence)
      && q.backend == p.backend && q.memory == p.memory
  {
    var p := s.portal;
    ArrangedKeeps(ORDER_UNAVAILABLE, Disarm(p.agents));
    DisarmedAll(p.agents, Arranged(ORDER_UNAVAILABLE, Disarm(p.agents)));
  }

  // The same cards, each without its actions.
  ghost predicate AllDisarmed(shown: seq<AgentView>, agents: seq<AgentView>) {
    |shown| == |agents| && forall a :: a in agents ==> a.(actions := NO_ACTIONS) in shown
  }

  lemma DisarmedAll(agents: seq<AgentView>, shown: seq<AgentView>)
    requires |shown| == |agents| && forall a :: a in shown <==> a in Disarm(agents)
    ensures AllDisarmed(shown, agents)
  {
    forall a | a in agents ensures a.(actions := NO_ACTIONS) in shown {
      var i :| 0 <= i < |agents| && agents[i] == a;
      assert Disarm(agents)[i] in Disarm(agents);
    }
  }

  // A T3 Code observation replaces the roster; a stale one leaves the cards
  // without actions.
  lemma FinishT3Shows(s: System, o: T3Observation, now: nat)
    requires Sound(s) && T3Contract(o) && Commits(s, FinishT3(o, now))
    ensures var p, q := s.portal, Do(s, FinishT3(o, now)).portal;
      && (!o.session.Stale? ==>
            AllShown(q.agents, o.agents) && |q.agents| == |o.agents| && q.targets == o.targets)
      && (o.session.Stale? ==>
            && q.targets == map[] && |q.agents| == |p.agents|
            && forall a :: a in p.agents ==> exists b :: b in q.agents && Looks(b, a.(actions := NO_ACTIONS)))
  {
    var p, q := s.portal, Do(s, FinishT3(o, now)).portal;
    var order := OrderSnapshot(o.session.Connected?, p.t3Order);
    if o.session.Stale? {
      StaleShows(p.agents, p.memory, order, now);
    } else {
      CommitShowsAll(o.agents, o.targets, p.memory, order, now);
    }
  }

  lemma StaleShows(agents: seq<AgentView>, m: Memory, order: OrderSnapshot, now: nat)
    requires DistinctIds(agents)
    ensures var shown := Arranged(order, Apply(Disarm(agents), map[], m, now).0);
      && |shown| == |agents|
      && forall a :: a in agents ==> exists b :: b in shown && Looks(b, a.(actions := NO_ACTIONS))
  {
    CommitShowsAll(Disarm(agents), map[], m, order, now);
    forall a | a in agents ensures a.(actions := NO_ACTIONS) in Disarm(agents) {
      var i :| 0 <= i < |agents| && agents[i] == a;
      assert Disarm(agents)[i] in Disarm(agents);
    }
  }

  lemma FinishT3Publishes(s: System, o: T3Observation, now: nat)
    requires Commits(s, FinishT3(o, now))
    ensures var p, q := s.portal, Do(s, FinishT3(o, now)).portal;
      && q.order.available == o.session.Connected? && q.order.mode == p.t3Order == q.t3Order
      && q.sessions == [SessionView(T3_SESSION, o.session)] && q.t3Sequence == o.projection
      && (q.connection.Online? <==> o.session.Connected?) && (q.connection.OfflineAll? <==> o.session.Offline?)
      && !q.connection.Degraded? && q.sequence == Advance(p.sequence) && q.backend == p.backend
  {
  }

  // A switch forgets all of the manager before; a stale or repeated one does nothing.
  lemma SwitchClears(s: System, cited: nat, manager: AgentBackend)
    requires s.job.NoJob?
    ensures var p, q := s.portal, Do(s, Switch(cited, manager)).portal;
      && (cited == p.sequence ==> q.backend == manager)
      && (cited != p.sequence || p.backend == manager ==> q == p)
      && (cited == p.sequence && p.backend != manager ==>
            && q.shownBackend == manager && q.agents == [] && q.targets == map[] && q.sessions == []
            && q.memory.observed == map[] && q.memory.focused == map[] && q.t3Sequence.None?
            && !q.order.available && q.connection.Reconnecting? && q.sequence == Advance(p.sequence)
            && q.t3Order == p.t3Order)
  {
  }

  // A successful open takes the badge off that card alone, in place, and the
  // latch with it.
  lemma OpenClearsBadge(s: System, id: AgentId)
    requires Sound(s) && id in s.opening
    ensures var p, q := s.portal, Do(s, OpenAnswered(id, true)).portal;
      && |q.agents| == |p.agents|
      && (forall i :: 0 <= i < |p.agents| ==>
            q.agents[i] == p.agents[i].(reviewReady := p.agents[i].reviewReady && p.agents[i].id != id))
      && (id in q.memory.observed ==> !q.memory.observed[id].reviewReady)
      && (forall other :: other != id ==> Lookup(q.memory.observed, other) == Lookup(p.memory.observed, other))
      && q.targets == p.targets && q.order == p.order && q.memory.focused == p.memory.focused
  {
    AcknowledgedMeaning(s.portal, id);
  }

  lemma AcknowledgedMeaning(p: Portal, id: AgentId)
    requires DistinctIds(p.agents) && LatchesShown(p.agents, p.memory.observed)
    ensures var q := ReviewAcknowledged(p, id);
      && |q.agents| == |p.agents|
      && (forall i :: 0 <= i < |p.agents| ==>
            q.agents[i] == p.agents[i].(reviewReady := p.agents[i].reviewReady && p.agents[i].id != id))
      && (id in q.memory.observed ==> !q.memory.observed[id].reviewReady)
      && (forall other :: other != id ==> Lookup(q.memory.observed, other) == Lookup(p.memory.observed, other))
      && q.targets == p.targets && q.order == p.order && q.memory.focused == p.memory.focused
  {
    var k := IndexOf(p.agents, id);
    if k < |p.agents| {
      assert p.agents[k] in p.agents;
      if p.agents[k].reviewReady {
        assert id in p.memory.observed;
      }
    } else {
      assert id !in Ids(p.agents);
    }
  }

  // ---- What may begin ----

  // Refreshes and ordering commands begin only while nobody holds the mutex; a
  // command, and a switch, only on the current number.
  lemma MutexIsExclusive(s: System, step: Step)
    requires step.BeginHerdr? || step.BeginT3? || step.BeginOrder? || step.OrderT3? || step.Switch?
    ensures !s.job.NoJob? ==> Do(s, step) == s
    ensures step.BeginHerdr? && s.job.NoJob? ==> (Do(s, step).job.Discovering? <==> s.portal.backend.HerdrManager?)
    ensures step.BeginOrder? && s.job.NoJob? ==>
      (Do(s, step) != s <==>
        s.portal.backend.HerdrManager? && step.cited == s.portal.sequence && s.portal.order.available)
    ensures step.OrderT3? && s.job.NoJob? ==>
      (Do(s, step) != s <==>
        s.portal.backend.T3Manager? && step.cited == s.portal.sequence && s.portal.order.available)
    ensures !step.Switch? ==> Do(s, step).portal == s.portal
  {
  }

  // The command remembers the published mode, and what every session held then.
  lemma OrderCommandBegins(s: System, cited: nat, mode: OrderMode)
    requires s.job.NoJob? && s.portal.backend.HerdrManager? && cited == s.portal.sequence && s.portal.order.available
    ensures var t := Do(s, BeginOrder(cited, mode));
      t.job == OrderingHerdr(mode, s.portal.order.mode, Locating) && t.before == s.modes && t.modes == s.modes
  {
  }

  // Only a dispatched open of a Herdr card can clear a badge when it is answered.
  lemma OnlyOpensAreAwaited(s: System, command: AgentCommand)
    ensures var t := Do(s, AgentActs(command));
      && t.portal == s.portal
      && t.opening == (if command.action.OpenAgent? && Decide(s.portal, command).Dispatch?
                          && s.portal.targets[command.id].HerdrTarget?
                       then s.opening + multiset{command.id} else s.opening)
  {
  }
}
