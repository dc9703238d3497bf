// Every interleaving of refreshes, ordering commands, manager switches,
// acknowledgements and voice updates. A step is one lock-protected section of
// crates/xeneon-agent-core/src/runtime.rs, or one answer arriving while the
// `order_operation` mutex is held across it.

module PortalRuns {
  import opened Optional
  import opened PortalModel
  import opened ReviewLatch
  import opened T3Code
  import opened HerdrRefresh
  import opened OrderProtocol
  import opened PortalState

  // Who holds `order_operation`, with its locals. `era` is the number of
  // switches completed when it took the mutex, before it observed anything.
  datatype Job =
    | NoJob
    | Discovering(era: nat)
    | Collecting(era: nat, previous: seq<AgentView>, names: seq<string>, outcomes: seq<Outcome>)
    | ObservingT3(era: nat)
    | OrderingHerdr(mode: OrderMode, held: OrderMode, phase: OrderPhase)
    | OrderingT3(mode: OrderMode)

  // An observation of `manager`, begun after `era` switches, reported this id,
  // or this target for it.
  datatype Evidence =
    | Evidence(era: nat, manager: AgentBackend, id: AgentId)
    | Route(era: nat, manager: AgentBackend, id: AgentId, target: AgentTarget)

  // `opening` holds the Herdr opens dispatched and not yet answered, `modes`
  // what the running Herdr sessions hold, and `covered` the sessions the
  // ordering was last published for. `before` is `modes` when the latest
  // ordering command began, `discovered` the sessions it found.
  datatype System = System(
    portal: Portal, job: Job, era: nat, evidence: set<Evidence>, opening: multiset<AgentId>,
    modes: Modes, covered: set<string>, before: Modes, discovered: seq<string>)

  function Start(backend: AgentBackend, t3Order: OrderMode, modes: Modes): System {
    System(Fresh(backend, t3Order), NoJob, 0, {}, multiset{}, modes, {}, modes, [])
  }

  datatype Step =
    | BeginHerdr
    | DiscoverFails
    | Discovered(names: seq<string>)
    | SessionAnswers(outcome: Outcome)
    | FinishHerdr(now: nat)
    | BeginT3
    | T3TaskFails
    | FinishT3(observation: T3Observation, now: nat)
    | OrderT3(cited: nat, mode: OrderMode)
    | PublishT3Order
    | BeginOrder(cited: nat, mode: OrderMode)
    | OrderMoves(move: OrderMove)
    | EndOrder
    | SessionEnds(name: string)
    | Switch(cited: nat, manager: AgentBackend)
    | AgentActs(command: AgentCommand)
    | OpenAnswered(id: AgentId, ok: bool)
    | VoiceUpdate

  function Gathered(era: nat, manager: AgentBackend, ids: set<AgentId>): set<Evidence> {
    set id | id in ids :: Evidence(era, manager, id)
  }

  function Routes(era: nat, manager: AgentBackend, targets: Targets): set<Evidence> {
    set id | id in targets :: Route(era, manager, id, targets[id])
  }

  function AnswerRoutes(era: nat, outcome: Outcome): set<Evidence> {
    if outcome.SnapshotFailed? then {}
    else
      Routes(era, HerdrManager, outcome.first.targets)
      + if outcome.subscription.Renewed? && outcome.subscription.reconciled.Some?
        then Routes(era, HerdrManager, outcome.subscription.reconciled.value.targets) else {}
  }

  // A step that is not enabled changes nothing.
  function Do(s: System, step: Step): System {
    match step
    case BeginHerdr =>
      if s.job.NoJob? && s.portal.backend.HerdrManager? then s.(job := Discovering(s.era)) else s
    case DiscoverFails =>
      if s.job.Discovering? then s.(job := NoJob, portal := DiscoveryFails(s.portal)) else s
    case Discovered(names) =>
      if s.job.Discovering? then s.(job := Collecting(s.job.era, s.portal.agents, names, [])) else s
    case SessionAnswers(outcome) =>
      if s.job.Collecting? && |s.job.outcomes| < |s.job.names|
      then s.(job := s.job.(outcomes := s.job.outcomes + [outcome]),
              evidence := s.evidence + Gathered(s.job.era, HerdrManager, Reported(outcome))
                + AnswerRoutes(s.job.era, outcome))
      else s
    case FinishHerdr(now) =>
      if s.job.Collecting? && |s.job.outcomes| == |s.job.names|
      then
        var c := Collect(s.job.names, s.job.outcomes, s.job.previous);
        s.(job := NoJob, covered := NameSet(s.job.names), portal := HerdrCommits(s.portal, |s.job.names|, c, now))
      else s
    case BeginT3 => if s.job.NoJob? then s.(job := ObservingT3(s.era)) else s
    case T3TaskFails => if s.job.ObservingT3? then s.(job := NoJob) else s
    case FinishT3(observation, now) =>
      if s.job.ObservingT3?
      then s.(job := NoJob, portal := T3Commits(s.portal, observation, now),
              evidence := s.evidence + Gathered(s.job.era, T3Manager, Ids(observation.agents))
                + Routes(s.job.era, T3Manager, observation.targets))
      else s
    case OrderT3(cited, mode) =>
      if s.job.NoJob? && s.portal.backend.T3Manager? && cited == s.portal.sequence && s.portal.order.available
      then s.(job := OrderingT3(mode)) else s
    case PublishT3Order =>
      if s.job.OrderingT3?
      then s.(job := NoJob, portal := OrderPublished(s.portal, s.job.mode).(t3Order := s.job.mode)) else s
    case BeginOrder(cited, mode) =>
      if s.job.NoJob? && s.portal.backend.HerdrManager? && cited == s.portal.sequence && s.portal.order.available
      then s.(job := OrderingHerdr(mode, s.portal.order.mode, Locating), before := s.modes) else s
    case OrderMoves(move) =>
      if s.job.OrderingHerdr?
      then
        var (phase, modes) := Move(s.job.mode, s.job.held, s.job.phase, s.modes, move);
        s.(job := s.job.(phase := phase), modes := modes, discovered := FoundBy(move, s.job.phase, s.discovered))
      else s
    case EndOrder =>
      if s.job.OrderingHerdr? && s.job.phase.Settled?
      then
        match s.job.phase.end
        case Published =>
          s.(job := NoJob, portal := OrderPublished(s.portal, s.job.mode), covered := s.job.phase.reached)
        case Withdrawn => s.(job := NoJob, portal := OrderWithdrawn(s.portal))
        case Untouched => s.(job := NoJob)
      else s
    case SessionEnds(name) => s.(modes := s.modes - {name})
    case Switch(cited, manager) =>
      if s.job.NoJob? && cited == s.portal.sequence && s.portal.backend != manager
      then s.(portal := Switched(s.portal, manager), era := s.era + 1) else s
    case AgentActs(command) =>
      var decision := Decide(s.portal, command);
      if command.action.OpenAgent? && decision.Dispatch? && decision.target.HerdrTarget?
      then s.(opening := s.opening + multiset{command.id}) else s
    case OpenAnswered(id, ok) =>
      if id in s.opening
      then s.(opening := s.opening - multiset{id}, portal := if ok then ReviewAcknowledged(s.portal, id) else s.portal)
      else s
    case VoiceUpdate => s.(portal := s.portal.(sequence := Advance(s.portal.sequence)))
  }

  // A connected session that reports its ordering reports what it holds.
  predicate ReportsMode(modes: Modes, name: string, outcome: Outcome) {
    ReportedOrder(outcome).Some? ==> Lookup(modes, name) == ReportedOrder(outcome)
  }

  // What the environment is held to.
  predicate Legal(s: System, step: Step) {
    match step
    case Discovered(names) => DistinctNames(names)
    case SessionAnswers(outcome) =>
      s.job.Collecting? && |s.job.outcomes| < |s.job.names| ==>
        var name := s.job.names[|s.job.outcomes|];
        OutcomeContract(name, outcome) && ReportsMode(s.modes, name, outcome)
    case OrderMoves(move) => Truthful(move)
    case FinishT3(observation, _) => T3Contract(observation)
    case _ => true
  }

  function After(s: System, steps: seq<Step>): System {
    if steps == [] then s else Do(After(s, steps[..|steps| - 1]), steps[|steps| - 1])
  }

  ghost predicate LegalRun(s: System, steps: seq<Step>) {
    forall n :: 0 <= n < |steps| ==> Legal(After(s, steps[..n]), steps[n])
  }

  // ---- Invariants ----

  // Every latch belongs to a shown card, which shows it.
  predicate LatchesShown(agents: seq<AgentView>, seen: Latches) {
    && seen.Keys <= Ids(agents)
    && forall a :: a in agents ==> (a.reviewReady <==> a.id in seen && seen[a.id].reviewReady)
  }

  predicate FocusShown(agents: seq<AgentView>, focused: Focus) {
    forall s :: s in focused ==>
      && (exists a :: a in agents && a.session == s)
      && (focused[s].Some? ==> focused[s].value in Ids(agents))
  }

  predicate Owned(p: Portal) {
    match p.backend
    case HerdrManager => (forall a :: a in p.agents ==> HerdrCard(a)) && HerdrRouted(p.targets)
    case T3Manager =>
      && (forall a :: a in p.agents ==> a.id.T3Thread? && a.session == T3_SESSION && !a.focused)
      && (forall id :: id in p.targets ==> p.targets[id].T3Target?)
      && (forall s :: s in p.memory.focused ==> p.memory.focused[s].None?)
  }

  predicate Attentive(o: Observed) {
    && (o.status.Done? ==> o.reviewReady)
    && (o.status.Blocked? || o.status.Working? || o.status.Unknown? ==> !o.reviewReady)
  }

  predicate Remembers(a: AgentView, seen: Latches) {
    a.id in seen && seen[a.id].status == a.status && Attentive(seen[a.id])
  }

  predicate T3Attentive(p: Portal) {
    p.backend.T3Manager? ==> forall a :: a in p.agents ==> Remembers(a, p.memory.observed)
  }

  predicate Roster(p: Portal) {
    && DistinctIds(p.agents)
    && Numbered(p.agents)
    && FailClosed(p.agents, p.targets)
    && LatchesShown(p.agents, p.memory.observed)
    && FocusShown(p.agents, p.memory.focused)
    && Owned(p)
    && T3Attentive(p)
    && p.shownBackend == p.backend
  }

  predicate Evidenced(s: System, ids: set<AgentId>) {
    forall id :: id in ids ==> Evidence(s.era, s.portal.backend, id) in s.evidence
  }

  predicate Routed(s: System, targets: Targets) {
    forall id :: id in targets ==> Route(s.era, s.portal.backend, id, targets[id]) in s.evidence
  }

  predicate AnswerRouted(s: System, outcome: Outcome) {
    AnswerRoutes(s.era, outcome) <= s.evidence
  }

  predicate JobSound(s: System) {
    match s.job
    case NoJob => true
    case Discovering(era) => era == s.era && s.portal.backend.HerdrManager?
    case Collecting(era, previous, names, outcomes) =>
      && era == s.era && s.portal.backend.HerdrManager?
      && DistinctNames(names) && |outcomes| <= |names|
      && (forall i :: 0 <= i < |outcomes| ==>
            OutcomeContract(names[i], outcomes[i]) && Evidenced(s, Reported(outcomes[i])))
      && (forall i :: 0 <= i < |outcomes| ==> AnswerRouted(s, outcomes[i]))
      && PreviousContract(previous) && Evidenced(s, Ids(previous))
      && (forall a :: a in previous && a.reviewReady ==> a.id in s.portal.memory.observed)
    case ObservingT3(era) => era == s.era
    case OrderingHerdr(_, _, _) => s.portal.backend.HerdrManager?
    case OrderingT3(_) => s.portal.backend.T3Manager?
  }

  predicate Sound(s: System) {
    && Roster(s.portal) && Evidenced(s, Ids(s.portal.agents)) && Routed(s, s.portal.targets) && JobSound(s)
    && forall id :: id in s.opening ==> id.HerdrAgent?
  }

  // ---- Reordering ----

  lemma ArrangedKeeps(order: OrderSnapshot, s: seq<AgentView>)
    ensures multiset(Arranged(order, s)) == multiset(s) && |Arranged(order, s)| == |s|
    ensures Ids(Arranged(order, s)) == Ids(s)
    ensures forall a :: a in Arranged(order, s) <==> a in s
    ensures DistinctIds(s) ==> DistinctIds(Arranged(order, s))
    ensures Numbered(s) ==> Numbered(Arranged(order, s))
  {
    var mode := if order.available then order.mode else Priority;
    SortContents(mode, s);
    SameCards(s, Sorted(mode, s));
    SortKeepsNumbering(mode, s);
  }

  lemma {:induction false} SameOrders(s: seq<AgentView>, t: seq<AgentView>)
    requires |s| == |t| && forall i :: 0 <= i < |s| ==> s[i].sourceOrder == t[i].sourceOrder
    ensures Orders(s) == Orders(t)
  {
    if s != [] {
      SameOrders(s[1..], t[1..]);
    }
  }

  lemma SameIdsPointwise(s: seq<AgentView>, t: seq<AgentView>)
    requires |s| == |t| && forall i :: 0 <= i < |s| ==> s[i].id == t[i].id
    ensures Ids(s) == Ids(t) && (DistinctIds(s) <==> DistinctIds(t))
  {
    forall i | 0 <= i < |s| ensures s[i].id in Ids(t) && t[i].id in Ids(s) {
      assert s[i] in s && t[i] in t;
    }
  }

  lemma DisarmKeeps(s: seq<AgentView>)
    ensures Ids(Disarm(s)) == Ids(s) && (DistinctIds(s) ==> DistinctIds(Disarm(s)))
    ensures Orders(Disarm(s)) == Orders(s)
    ensures forall a :: a in Disarm(s) ==>
      a.actions == NO_ACTIONS && exists b :: b in s && a == b.(actions := NO_ACTIONS)
  {
    SameOrders(Disarm(s), s);
    var r := Disarm(s);
    forall a | a in r ensures a.actions == NO_ACTIONS && exists b :: b in s && a == b.(actions := NO_ACTIONS) {
      var i :| 0 <= i < |r| && r[i] == a;
      assert s[i] in s;
    }
  }

  // ---- What a commit publishes ----

  lemma {:induction false} FocusInRoster(agents: seq<AgentView>, targets: Targets)
    ensures CurrentFocus(agents, targets).Keys == ConnectedSessions(targets)
    ensures var f := CurrentFocus(agents, targets);
      forall s :: s in f && f[s].Some? ==> exists a :: a in agents && a.focused && a.id == f[s].value
    decreases |agents|
  {
    FocusKeys(agents, targets);
    if agents != [] {
      FocusInRoster(agents[..|agents| - 1], targets);
      assert agents == agents[..|agents| - 1] + [agents[|agents| - 1]];
    }
  }

  ghost predicate Publishes(
      agents: seq<AgentView>, targets: Targets, m: Memory, now: nat, shown: seq<AgentView>, m': Memory)
  {
    && Ids(shown) == Ids(agents) && DistinctIds(shown) && |shown| == |agents|
    && (Numbered(agents) ==> Numbered(shown))
    && (forall a :: a in shown ==>
          exists b :: b in agents && b.id == a.id && a == Show(b, Lookup(m'.observed, b.id), now))
    && (forall id ::
          Lookup(m'.observed, id) == Remembered(Lookup(m.observed, id), EventFor(id, agents, targets, m.focused, now)))
    && m'.focused == CurrentFocus(agents, targets)
  }

  // Before the roster is put in order.
  ghost predicate Reconciled(
      agents: seq<AgentView>, targets: Targets, m: Memory, now: nat, settled: seq<AgentView>, m': Memory)
  {
    && |settled| == |agents|
    && (forall i :: 0 <= i < |agents| ==> settled[i] == Show(agents[i], Lookup(m'.observed, agents[i].id), now))
    && (forall id ::
          Lookup(m'.observed, id) == Remembered(Lookup(m.observed, id), EventFor(id, agents, targets, m.focused, now)))
    && m'.focused == CurrentFocus(agents, targets)
  }

  lemma ApplySettles(agents: seq<AgentView>, targets: Targets, m: Memory, now: nat)
    requires DistinctIds(agents)
    ensures var r := Apply(agents, targets, m, now); Reconciled(agents, targets, m, now, r.0, r.1)
  {
    ApplyIsPerCard(agents, targets, m, now);
  }

  lemma ArrangedPublishes(agents: seq<AgentView>, targets: Targets, m: Memory, order: OrderSnapshot, now: nat,
                          settled: seq<AgentView>, m': Memory)
    requires DistinctIds(agents) && Reconciled(agents, targets, m, now, settled, m')
    ensures Publishes(agents, targets, m, now, Arranged(order, settled), m')
  {
    SameIdsPointwise(agents, settled);
    SameOrders(agents, settled);
    ArrangedKeeps(order, settled);
    forall a | a in Arranged(order, settled)
      ensures exists b :: b in agents && b.id == a.id && a == Show(b, Lookup(m'.observed, b.id), now)
    {
      var i :| 0 <= i < |settled| && settled[i] == a;
      assert agents[i] in agents;
    }
  }

  lemma CommitPublishes(agents: seq<AgentView>, targets: Targets, m: Memory, order: OrderSnapshot, now: nat)
    requires DistinctIds(agents)
    ensures var r := Apply(agents, targets, m, now);
      Publishes(agents, targets, m, now, Arranged(order, r.0), r.1)
  {
    var r := Apply(agents, targets, m, now);
    ApplySettles(agents, targets, m, now);
    ArrangedPublishes(agents, targets, m, order, now, r.0, r.1);
  }

  lemma PublishedLatches(
      agents: seq<AgentView>, targets: Targets, m: Memory, now: nat, shown: seq<AgentView>, m': Memory)
    requires Publishes(agents, targets, m, now, shown, m')
    requires forall a :: a in agents && a.reviewReady ==> a.id in m.observed
    ensures LatchesShown(shown, m'.observed)
  {
    forall id | id in m'.observed ensures id in Ids(agents) {
      assert Lookup(m'.observed, id).Some?;
    }
    forall a | a in shown ensures a.reviewReady <==> a.id in m'.observed && m'.observed[a.id].reviewReady {
      var b :| b in agents && b.id == a.id && a == Show(b, Lookup(m'.observed, b.id), now);
      if b.id !in m'.observed {
        assert Lookup(m'.observed, b.id)
          == Remembered(Lookup(m.observed, b.id), EventFor(b.id, agents, targets, m.focused, now));
        assert b.id !in m.observed;
      }
    }
  }

  lemma PublishedActions(
      agents: seq<AgentView>, targets: Targets, m: Memory, now: nat, shown: seq<AgentView>, m': Memory)
    requires Publishes(agents, targets, m, now, shown, m') && FailClosed(agents, targets)
    ensures FailClosed(shown, targets)
  {
    forall a | a in shown && a.id !in targets ensures a.actions == NO_ACTIONS {
      var b :| b in agents && b.id == a.id && a == Show(b, Lookup(m'.observed, b.id), now);
    }
  }

  lemma PublishedFocus(agents: seq<AgentView>, targets: Targets, m: Memory, now: nat, shown: seq<AgentView>, m': Memory)
    requires Publishes(agents, targets, m, now, shown, m') && targets.Keys <= Ids(agents)
    requires forall a :: a in agents && a.id in targets ==> a.session == targets[a.id].Session()
    ensures FocusShown(shown, m'.focused)
  {
    FocusInRoster(agents, targets);
    forall s | s in m'.focused ensures exists a :: a in shown && a.session == s {
      var id :| id in targets && targets[id].Session() == s;
      PublishedSession(agents, targets, m, now, shown, m', id);
    }
    forall s | s in m'.focused && m'.focused[s].Some? ensures m'.focused[s].value in Ids(shown) {
      var b :| b in agents && b.focused && b.id == m'.focused[s].value;
    }
  }

  lemma PublishedSession(
      agents: seq<AgentView>, targets: Targets, m: Memory, now: nat, shown: seq<AgentView>, m': Memory, id: AgentId)
    requires Publishes(agents, targets, m, now, shown, m') && id in targets && id in Ids(agents)
    requires forall a :: a in agents && a.id in targets ==> a.session == targets[a.id].Session()
    ensures exists a :: a in shown && a.session == targets[id].Session()
  {
    var a :| a in shown && a.id == id;
    var b :| b in agents && b.id == a.id && a == Show(b, Lookup(m'.observed, b.id), now);
    assert a.session == targets[id].Session();
  }

  // A step that ends a job and publishes a sound roster the evidence covers.
  lemma PortalReplaced(s: System, t: System)
    requires Sound(s) && Roster(t.portal) && t.job.NoJob?
    requires t.portal.backend == s.portal.backend && t.era == s.era
    requires s.evidence <= t.evidence && t.opening == s.opening
    requires Evidenced(t, Ids(t.portal.agents)) && Routed(t, t.portal.targets)
    ensures Sound(t)
  {
  }

  // ---- Herdr commits ----

  lemma HerdrRoster(p: Portal, agents: seq<AgentView>, m: Memory, now: nat)
    requires p.backend.HerdrManager? && p.shownBackend == p.backend
    requires Publishes(agents, p.targets, m, now, p.agents, p.memory)
    requires CountedInPlace(agents) && FailClosed(agents, p.targets) && HerdrRouted(p.targets)
    requires forall a :: a in agents ==> HerdrCard(a) && (a.reviewReady ==> a.id in m.observed)
    ensures Roster(p)
  {
    CountedInPlaceIsNumbered(agents);
    PublishedLatches(agents, p.targets, m, now, p.agents, p.memory);
    PublishedActions(agents, p.targets, m, now, p.agents, p.memory);
    PublishedFocus(agents, p.targets, m, now, p.agents, p.memory);
    forall a | a in p.agents ensures HerdrCard(a) {
      var b :| b in agents && b.id == a.id && a == Show(b, Lookup(p.memory.observed, b.id), now);
    }
  }

  lemma HerdrCommitKeeps(p: Portal, total: nat, c: Collected, processed: set<string>, now: nat)
    requires Roster(p) && p.backend.HerdrManager? && CollectedWell(c, processed)
    requires forall a :: a in c.agents && a.reviewReady ==> a.id in p.memory.observed
    ensures Roster(HerdrCommits(p, total, c, now))
    ensures Ids(HerdrCommits(p, total, c, now).agents) == Ids(c.agents)
  {
    CommitPublishes(c.agents, c.targets, p.memory, HerdrOrder(total, c), now);
    HerdrRoster(HerdrCommits(p, total, c, now), c.agents, p.memory, now);
  }

  // Every card in the collected roster came from `previous` or an answer.
  lemma {:induction false} CollectedFrom(
      names: seq<string>, outcomes: seq<Outcome>, previous: seq<AgentView>, ids: set<AgentId>)
    requires |names| == |outcomes| && PreviousContract(previous)
    requires forall i :: 0 <= i < |names| ==> OutcomeContract(names[i], outcomes[i])
    requires Ids(previous) <= ids && forall i :: 0 <= i < |names| ==> Reported(outcomes[i]) <= ids
    ensures Ids(Collect(names, outcomes, previous).agents) <= ids
  {
    if names != [] {
      var n := |names| - 1;
      CollectedFrom(names[..n], outcomes[..n], previous, ids);
      ContributionIsWell(names[n], outcomes[n], previous);
      var before := Collect(names[..n], outcomes[..n], previous);
      var cards := Contribution(names[n], outcomes[n], previous);
      NumberFromKeeps(|before.agents|, cards.0);
      IdsConcat(before.agents, NumberFrom(|before.agents|, cards.0));
    }
  }

  lemma ContributionReady(name: string, outcome: Outcome, previous: seq<AgentView>)
    requires OutcomeContract(name, outcome) && PreviousContract(previous)
    ensures forall a :: a in Contribution(name, outcome, previous).0 && a.reviewReady ==>
      exists b :: b in previous && b.reviewReady && b.id == a.id
  {
    OfSessionKeeps(previous, name);
    if outcome.SnapshotFailed? {
      DisarmKeeps(OfSession(previous, name));
    } else if outcome.Observation? {
      DisarmKeeps(outcome.first.agents);
    }
  }

  // A collected card is latched only if `previous` showed it latched.
  lemma {:induction false} CollectedReady(
      names: seq<string>, outcomes: seq<Outcome>, previous: seq<AgentView>, a: AgentView)
    requires |names| == |outcomes| && PreviousContract(previous)
    requires forall i :: 0 <= i < |names| ==> OutcomeContract(names[i], outcomes[i])
    requires a in Collect(names, outcomes, previous).agents && a.reviewReady
    ensures exists b :: b in previous && b.reviewReady && b.id == a.id
  {
    var n := |names| - 1;
    var before := Collect(names[..n], outcomes[..n], previous);
    if a in before.agents {
      CollectedReady(names[..n], outcomes[..n], previous, a);
    } else {
      var cards := Contribution(names[n], outcomes[n], previous).0;
      NumberFromKeeps(|before.agents|, cards);
      var b :| b in cards && a == b.(sourceOrder := a.sourceOrder);
      ContributionReady(names[n], outcomes[n], previous);
    }
  }

  // Every routed target came from an answer.
  lemma {:induction false} CollectedRoutes(
      names: seq<string>, outcomes: seq<Outcome>, previous: seq<AgentView>, era: nat, known: set<Evidence>)
    requires |names| == |outcomes|
    requires forall i :: 0 <= i < |names| ==> AnswerRoutes(era, outcomes[i]) <= known
    ensures Routes(era, HerdrManager, Collect(names, outcomes, previous).targets) <= known
  {
    if names != [] {
      var n := |names| - 1;
      CollectedRoutes(names[..n], outcomes[..n], previous, era, known);
      var before := Collect(names[..n], outcomes[..n], previous).targets;
      var added := Contribution(names[n], outcomes[n], previous).1;
      assert Routes(era, HerdrManager, added) <= AnswerRoutes(era, outcomes[n]);
      RoutesMerge(era, before, added);
    }
  }

  lemma RoutesMerge(era: nat, left: Targets, right: Targets)
    ensures Routes(era, HerdrManager, left + right)
      <= Routes(era, HerdrManager, left) + Routes(era, HerdrManager, right)
  {
  }

  lemma RoutesAreRouted(s: System, targets: Targets)
    ensures Routes(s.era, s.portal.backend, targets) <= s.evidence <==> Routed(s, targets)
  {
    if Routes(s.era, s.portal.backend, targets) <= s.evidence {
      forall id | id in targets ensures Route(s.era, s.portal.backend, id, targets[id]) in s.evidence {
        assert Route(s.era, s.portal.backend, id, targets[id]) in Routes(s.era, s.portal.backend, targets);
      }
    }
  }

  lemma CollectedSoundly(s: System)
    requires JobSound(s) && s.job.Collecting? && |s.job.outcomes| == |s.job.names|
    ensures var c := Collect(s.job.names, s.job.outcomes, s.job.previous);
      && CollectedWell(c, NameSet(s.job.names))
      && Evidenced(s, Ids(c.agents)) && Routed(s, c.targets)
      && (forall a :: a in c.agents && a.reviewReady ==> a.id in s.portal.memory.observed)
  {
    var names, outcomes, previous := s.job.names, s.job.outcomes, s.job.previous;
    CollectWell(names, outcomes, previous);
    forall a | a in Collect(names, outcomes, previous).agents && a.reviewReady
      ensures a.id in s.portal.memory.observed
    {
      CollectedReady(names, outcomes, previous, a);
    }
    CollectedRoutes(names, outcomes, previous, s.era, s.evidence);
    RoutesAreRouted(s, Collect(names, outcomes, previous).targets);
    var known := set e | e in s.evidence && e.Evidence? && e.era == s.era && e.manager == s.portal.backend :: e.id;
    forall ids | Evidenced(s, ids) ensures ids <= known {
      forall id | id in ids ensures id in known {
        assert Evidence(s.era, s.portal.backend, id) in s.evidence;
      }
    }
    CollectedFrom(names, outcomes, previous, known);
  }

  lemma HerdrCommitSound(s: System, c: Collected, now: nat)
    requires Sound(s) && s.job.Collecting? && |s.job.outcomes| == |s.job.names|
    requires c == Collect(s.job.names, s.job.outcomes, s.job.previous)
    ensures var p := HerdrCommits(s.portal, |s.job.names|, c, now);
      && Roster(p) && p.backend == s.portal.backend
      && Evidenced(s, Ids(p.agents)) && Routed(s, p.targets)
  {
    CollectedSoundly(s);
    HerdrCommitKeeps(s.portal, |s.job.names|, c, NameSet(s.job.names), now);
  }

  lemma FinishHerdrKeeps(s: System, now: nat)
    requires Sound(s) && s.job.Collecting? && |s.job.outcomes| == |s.job.names|
    ensures Sound(Do(s, FinishHerdr(now)))
  {
    var c := Collect(s.job.names, s.job.outcomes, s.job.previous);
    HerdrCommitSound(s, c, now);
    PortalReplaced(s, s.(job := NoJob, covered := NameSet(s.job.names),
      portal := HerdrCommits(s.portal, |s.job.names|, c, now)));
  }

  // ---- T3 commits ----

  lemma T3FocusEmpty(agents: seq<AgentView>, targets: Targets)
    requires forall a :: a in agents ==> !a.focused
    ensures forall s :: s in CurrentFocus(agents, targets) ==> CurrentFocus(agents, targets)[s].None?
  {
    FocusInRoster(agents, targets);
  }

  predicate T3Commit(p: Portal, agents: seq<AgentView>, targets: Targets) {
    && DistinctIds(agents) && Numbered(agents) && FailClosed(agents, targets)
    && (forall a :: a in agents ==> a.id.T3Thread? && a.session == T3_SESSION && !a.focused)
    && (forall a :: a in agents && a.id !in targets ==> Remembers(a, p.memory.observed))
    && (forall a :: a in agents && a.reviewReady ==> a.id in p.memory.observed)
    && (forall id :: id in targets ==> targets[id].T3Target?)
    && (forall a :: a in agents && a.id in targets && targets[a.id].Acknowledged() ==> a.status.Idle?)
  }

  lemma OneCardPerId(agents: seq<AgentView>, a: AgentView, b: AgentView)
    requires DistinctIds(agents) && a in agents && b in agents && a.id == b.id
    ensures a == b
  {
  }

  lemma T3CardRemembered(p: Portal, agents: seq<AgentView>, targets: Targets, now: nat, a: AgentView)
    requires Roster(p) && p.backend.T3Manager? && T3Commit(p, agents, targets) && a in agents
    ensures var event := EventFor(a.id, agents, targets, p.memory.focused, now);
      var o := Remembered(Lookup(p.memory.observed, a.id), event);
      o.Some? && o.value.status == a.status && Attentive(o.value)
  {
    var found := Find(agents, a.id);
    OneCardPerId(agents, a, found.value);
    if a.id in targets {
      T3FocusEmpty(agents, targets);
      var acks := FocusAcknowledgements(p.memory.focused, CurrentFocus(agents, targets));
      assert a.id !in acks;
      if a.id in p.memory.observed {
        var b :| b in p.agents && b.id == a.id;
        assert Remembers(b, p.memory.observed);
      }
    }
  }

  lemma T3Roster(p: Portal, r: Portal, agents: seq<AgentView>, now: nat)
    requires Roster(p) && p.backend.T3Manager? && T3Commit(p, agents, r.targets)
    requires r.backend.T3Manager? && r.shownBackend == r.backend
    requires Publishes(agents, r.targets, p.memory, now, r.agents, r.memory)
    ensures Roster(r)
  {
    PublishedLatches(agents, r.targets, p.memory, now, r.agents, r.memory);
    PublishedActions(agents, r.targets, p.memory, now, r.agents, r.memory);
    PublishedFocus(agents, r.targets, p.memory, now, r.agents, r.memory);
    T3FocusEmpty(agents, r.targets);
    forall a | a in r.agents
      ensures a.id.T3Thread? && a.session == T3_SESSION && !a.focused && Remembers(a, r.memory.observed)
    {
      var b :| b in agents && b.id == a.id && a == Show(b, Lookup(r.memory.observed, b.id), now);
      T3CardRemembered(p, agents, r.targets, now, b);
      assert Lookup(r.memory.observed, b.id)
          == Remembered(Lookup(p.memory.observed, b.id), EventFor(b.id, agents, r.targets, p.memory.focused, now));
    }
  }

  lemma T3CommitKeeps(p: Portal, o: T3Observation, now: nat, agents: seq<AgentView>, targets: Targets)
    requires Roster(p) && p.backend.T3Manager? && T3Commit(p, agents, targets)
    requires agents == (if o.session.Stale? then Disarm(p.agents) else o.agents)
    requires targets == (if o.session.Stale? then map[] else o.targets)
    ensures Roster(T3Commits(p, o, now)) && Ids(T3Commits(p, o, now).agents) == Ids(agents)
  {
    var r := T3Commits(p, o, now);
    CommitPublishes(agents, targets, p.memory, r.order, now);
    T3Roster(p, r, agents, now);
  }

  lemma StaleRosterCommits(p: Portal)
    requires Roster(p) && p.backend.T3Manager?
    ensures T3Commit(p, Disarm(p.agents), map[])
  {
    DisarmKeeps(p.agents);
    forall a | a in Disarm(p.agents)
      ensures a.id.T3Thread? && a.session == T3_SESSION && !a.focused && Remembers(a, p.memory.observed)
    {
      var b :| b in p.agents && a == b.(actions := NO_ACTIONS);
      assert Remembers(b, p.memory.observed);
    }
  }

  lemma ObservedRosterCommits(p: Portal, o: T3Observation)
    requires T3Contract(o)
    ensures T3Commit(p, o.agents, o.targets)
  {
    CountedInPlaceIsNumbered(o.agents);
    forall a | a in o.agents
      ensures a.id.T3Thread? && a.session == T3_SESSION && !a.focused && !a.reviewReady && a.id in o.targets
      ensures o.targets[a.id].Acknowledged() ==> a.status.Idle?
    {
      var i :| 0 <= i < |o.agents| && o.agents[i] == a;
    }
    forall id | id in o.targets ensures o.targets[id].T3Target? {
      var i :| 0 <= i < |o.agents| && o.agents[i].id == id;
    }
  }

  lemma FinishT3Keeps(s: System, o: T3Observation, now: nat)
    requires Sound(s) && s.job.ObservingT3? && T3Contract(o)
    ensures Sound(Do(s, FinishT3(o, now)))
  {
    var p := s.portal;
    if p.backend.T3Manager? {
      if o.session.Stale? {
        StaleRosterCommits(p);
        DisarmKeeps(p.agents);
        T3CommitKeeps(p, o, now, Disarm(p.agents), map[]);
      } else {
        ObservedRosterCommits(p, o);
        T3CommitKeeps(p, o, now, o.agents, o.targets);
      }
    }
  }

  // ---- The other steps ----

  lemma DisarmShown(p: Portal)
    requires Roster(p) && p.backend.HerdrManager?
    ensures var d := Disarm(p.agents);
      && LatchesShown(d, p.memory.observed) && FocusShown(d, p.memory.focused)
      && forall a :: a in d ==> HerdrCard(a)
  {
    var d := Disarm(p.agents);
    DisarmKeeps(p.agents);
    forall a | a in d
      ensures HerdrCard(a) && (a.reviewReady <==> a.id in p.memory.observed && p.memory.observed[a.id].reviewReady)
    {
      var b :| b in p.agents && a == b.(actions := NO_ACTIONS);
    }
    forall s | s in p.memory.focused ensures exists a :: a in d && a.session == s {
      var b :| b in p.agents && b.session == s;
      var i :| 0 <= i < |p.agents| && p.agents[i] == b;
      assert d[i].session == s && d[i] in d;
    }
  }

  lemma ShownReordered(order: OrderSnapshot, d: seq<AgentView>, seen: Latches, focused: Focus)
    requires LatchesShown(d, seen) && FocusShown(d, focused)
    ensures LatchesShown(Arranged(order, d), seen) && FocusShown(Arranged(order, d), focused)
  {
    ArrangedKeeps(order, d);
    forall s | s in focused ensures exists a :: a in Arranged(order, d) && a.session == s {
      var a :| a in d && a.session == s;
    }
  }

  lemma DiscoveryFailureKeeps(p: Portal)
    requires Roster(p) && p.backend.HerdrManager?
    ensures Roster(DiscoveryFails(p)) && Ids(DiscoveryFails(p).agents) == Ids(p.agents)
  {
    var d := Disarm(p.agents);
    DisarmKeeps(p.agents);
    DisarmShown(p);
    ShownReordered(ORDER_UNAVAILABLE, d, p.memory.observed, p.memory.focused);
    FailedRoster(p, d, Arranged(ORDER_UNAVAILABLE, d));
  }

  lemma FailedRoster(p: Portal, d: seq<AgentView>, shown: seq<AgentView>)
    requires Roster(p) && p.backend.HerdrManager? && shown == Arranged(ORDER_UNAVAILABLE, d)
    requires Ids(d) == Ids(p.agents) && DistinctIds(d) && |d| == |p.agents| && Orders(d) == Orders(p.agents)
    requires forall a :: a in d ==> a.actions == NO_ACTIONS && HerdrCard(a)
    requires LatchesShown(shown, p.memory.observed) && FocusShown(shown, p.memory.focused)
    ensures Roster(p.(connection := OfflineAll, sessions := MarkStale(p.sessions), order := ORDER_UNAVAILABLE,
      agents := shown, targets := map[], sequence := Advance(p.sequence)))
    ensures Ids(shown) == Ids(p.agents)
  {
    ArrangedKeeps(ORDER_UNAVAILABLE, d);
  }

  // One card's latch is cleared, shown and remembered together.
  predicate UnlatchedAt(before: seq<AgentView>, i: nat, after: seq<AgentView>) {
    && i < |before| == |after|
    && after == before[i := before[i].(reviewReady := false)]
  }

  lemma UnlatchedCards(before: seq<AgentView>, i: nat, after: seq<AgentView>, targets: Targets)
    requires UnlatchedAt(before, i, after) && DistinctIds(before) && Numbered(before) && FailClosed(before, targets)
    ensures Ids(after) == Ids(before) && DistinctIds(after) && Numbered(after) && FailClosed(after, targets)
  {
    SameIdsPointwise(before, after);
    SameOrders(before, after);
    forall a | a in after ensures exists b :: b in before && a.id == b.id && a.actions == b.actions {
      var k :| 0 <= k < |after| && after[k] == a;
      assert before[k] in before;
    }
  }

  lemma UnlatchedFocus(before: seq<AgentView>, i: nat, after: seq<AgentView>, focused: Focus)
    requires UnlatchedAt(before, i, after) && FocusShown(before, focused)
    ensures FocusShown(after, focused)
  {
    SameIdsPointwise(before, after);
    forall s | s in focused ensures exists a :: a in after && a.session == s {
      var b :| b in before && b.session == s;
      var k :| 0 <= k < |before| && before[k] == b;
      assert after[k] in after && after[k].session == s;
    }
  }

  lemma UnlatchedLatches(before: seq<AgentView>, i: nat, after: seq<AgentView>, seen: Latches)
    requires UnlatchedAt(before, i, after) && DistinctIds(before) && LatchesShown(before, seen)
    ensures LatchesShown(after, Unlatch(seen, before[i].id))
    ensures forall a :: a in after ==> exists b :: b in before && a.id == b.id && a.session == b.session
  {
    SameIdsPointwise(before, after);
    forall a | a in after
      ensures a.reviewReady <==> a.id in seen && Unlatch(seen, before[i].id)[a.id].reviewReady
      ensures exists b :: b in before && a.id == b.id && a.session == b.session
    {
      var k :| 0 <= k < |after| && after[k] == a;
      assert before[k] in before && before[i] in before;
      assert k != i ==> before[k].id != before[i].id;
    }
  }

  lemma UnlatchKeeps(p: Portal, i: nat, r: Portal)
    requires Roster(p) && p.backend.HerdrManager? && i < |p.agents| && UnlatchedAt(p.agents, i, r.agents)
    requires r == p.(agents := r.agents, memory := p.memory.(observed := Unlatch(p.memory.observed, p.agents[i].id)),
                     sequence := r.sequence)
    ensures Roster(r) && Ids(r.agents) == Ids(p.agents)
  {
    UnlatchedCards(p.agents, i, r.agents, p.targets);
    UnlatchedFocus(p.agents, i, r.agents, p.memory.focused);
    UnlatchedLatches(p.agents, i, r.agents, p.memory.observed);
    forall a | a in r.agents ensures HerdrCard(a) {
      var b :| b in p.agents && a.id == b.id && a.session == b.session;
    }
  }

  lemma AcknowledgeKeeps(p: Portal, id: AgentId)
    requires Roster(p) && id.HerdrAgent?
    ensures Roster(ReviewAcknowledged(p, id)) && Ids(ReviewAcknowledged(p, id).agents) == Ids(p.agents)
    ensures ReviewAcknowledged(p, id).memory.observed.Keys == p.memory.observed.Keys
  {
    var i := IndexOf(p.agents, id);
    if i < |p.agents| {
      assert p.agents[i] in p.agents;
      if p.agents[i].reviewReady {
        UnlatchKeeps(p, i, ReviewAcknowledged(p, id));
      }
    }
  }

  // What the holder of the mutex relies on survives what runs beside it.
  lemma JobFramed(s: System, t: System)
    requires JobSound(s) && t.job == s.job && t.era == s.era && s.evidence <= t.evidence
    requires t.portal.backend == s.portal.backend
    requires s.portal.memory.observed.Keys <= t.portal.memory.observed.Keys
    ensures JobSound(t)
  {
  }

  lemma AnswerKeeps(s: System, outcome: Outcome)
    requires Sound(s) && Legal(s, SessionAnswers(outcome))
    ensures Sound(Do(s, SessionAnswers(outcome)))
  {
    if s.job.Collecting? && |s.job.outcomes| < |s.job.names| {
      var t := s.(evidence := s.evidence + Gathered(s.era, HerdrManager, Reported(outcome))
        + AnswerRoutes(s.era, outcome));
      JobFramed(s, t);
      assert Evidenced(t, Reported(outcome)) && AnswerRouted(t, outcome);
      OneMoreAnswer(t, outcome);
    }
  }

  lemma OneMoreAnswer(s: System, outcome: Outcome)
    requires JobSound(s) && s.job.Collecting? && |s.job.outcomes| < |s.job.names|
    requires OutcomeContract(s.job.names[|s.job.outcomes|], outcome)
    requires Evidenced(s, Reported(outcome)) && AnswerRouted(s, outcome)
    ensures JobSound(s.(job := s.job.(outcomes := s.job.outcomes + [outcome])))
  {
    var t := s.(job := s.job.(outcomes := s.job.outcomes + [outcome]));
    forall i | 0 <= i < |t.job.outcomes|
      ensures OutcomeContract(t.job.names[i], t.job.outcomes[i]) && Evidenced(t, Reported(t.job.outcomes[i]))
      ensures AnswerRouted(t, t.job.outcomes[i])
    {
      assert i < |s.job.outcomes| ==> t.job.outcomes[i] == s.job.outcomes[i];
    }
  }

  lemma DiscoveredKeeps(s: System, names: seq<string>)
    requires Sound(s) && DistinctNames(names)
    ensures Sound(Do(s, Discovered(names)))
  {
  }

  lemma DiscoverFailsKeeps(s: System)
    requires Sound(s)
    ensures Sound(Do(s, DiscoverFails))
  {
    if s.job.Discovering? { DiscoveryFailureKeeps(s.portal); }
  }

  lemma OrderKeeps(p: Portal, mode: OrderMode)
    requires Roster(p)
    ensures Roster(OrderPublished(p, mode)) && Ids(OrderPublished(p, mode).agents) == Ids(p.agents)
  {
    ArrangedKeeps(OrderSnapshot(true, mode), p.agents);
  }

  lemma PublishT3OrderKeeps(s: System)
    requires Sound(s)
    ensures Sound(Do(s, PublishT3Order))
  {
    if s.job.OrderingT3? {
      OrderKeeps(s.portal, s.job.mode);
      assert Roster(OrderPublished(s.portal, s.job.mode).(t3Order := s.job.mode));
    }
  }

  lemma PublishKeeps(s: System, mode: OrderMode, covered: set<string>)
    requires Sound(s)
    ensures Sound(s.(job := NoJob, portal := OrderPublished(s.portal, mode), covered := covered))
  {
    OrderKeeps(s.portal, mode);
    PortalReplaced(s, s.(job := NoJob, portal := OrderPublished(s.portal, mode), covered := covered));
  }

  lemma WithdrawKeeps(s: System)
    requires Sound(s)
    ensures Sound(s.(job := NoJob, portal := OrderWithdrawn(s.portal))) && Sound(s.(job := NoJob))
  {
    PortalReplaced(s, s.(job := NoJob, portal := OrderWithdrawn(s.portal)));
    PortalReplaced(s, s.(job := NoJob));
  }

  lemma EndOrderKeeps(s: System)
    requires Sound(s)
    ensures Sound(Do(s, EndOrder))
  {
    if s.job.OrderingHerdr? && s.job.phase.Settled? {
      WithdrawKeeps(s);
      PublishKeeps(s, s.job.mode, s.job.phase.reached);
    }
  }

  lemma OpeningReplaced(s: System, opening: multiset<AgentId>)
    requires Sound(s) && forall id :: id in opening ==> id.HerdrAgent?
    ensures Sound(s.(opening := opening))
  {
    JobFramed(s, s.(opening := opening));
  }

  lemma ActKeeps(s: System, command: AgentCommand)
    requires Sound(s)
    ensures Sound(Do(s, AgentActs(command)))
  {
    var decision := Decide(s.portal, command);
    if decision.Dispatch? && decision.target.HerdrTarget? {
      assert command.id in s.portal.targets && command.id.HerdrAgent?;
      OpeningReplaced(s, s.opening + multiset{command.id});
    }
  }

  lemma OpenAnsweredKeeps(s: System, id: AgentId, ok: bool)
    requires Sound(s)
    ensures Sound(Do(s, OpenAnswered(id, ok)))
  {
    var t := Do(s, OpenAnswered(id, ok));
    if id in s.opening {
      AcknowledgeKeeps(s.portal, id);
      JobFramed(s, t);
    }
  }

  lemma VoiceUpdateKeeps(s: System)
    requires Sound(s)
    ensures Sound(Do(s, VoiceUpdate))
  {
    JobFramed(s, Do(s, VoiceUpdate));
  }

  lemma SwitchKeeps(s: System, cited: nat, manager: AgentBackend)
    requires Sound(s)
    ensures Sound(Do(s, Switch(cited, manager)))
  {
  }

  lemma BeginStepsKeep(s: System, step: Step)
    requires Sound(s) && (step.BeginHerdr? || step.BeginT3? || step.T3TaskFails? || step.BeginOrder? || step.OrderT3?
             || step.OrderMoves? || step.SessionEnds?)
    ensures Sound(Do(s, step))
  {
    assert Do(s, step).portal == s.portal && Do(s, step).evidence == s.evidence;
  }

  lemma StepKeeps(s: System, step: Step)
    requires Sound(s) && Legal(s, step)
    ensures Sound(Do(s, step))
  {
    match step
    case FinishHerdr(now) => if s.job.Collecting? && |s.job.outcomes| == |s.job.names| { FinishHerdrKeeps(s, now); }
    case FinishT3(o, now) => if s.job.ObservingT3? { FinishT3Keeps(s, o, now); }
    case SessionAnswers(outcome) => AnswerKeeps(s, outcome);
    case Discovered(names) => DiscoveredKeeps(s, names);
    case DiscoverFails => DiscoverFailsKeeps(s);
    case PublishT3Order => PublishT3OrderKeeps(s);
    case EndOrder => EndOrderKeeps(s);
    case AgentActs(command) => ActKeeps(s, command);
    case OpenAnswered(id, ok) => OpenAnsweredKeeps(s, id, ok);
    case Switch(cited, manager) => SwitchKeeps(s, cited, manager);
    case VoiceUpdate => VoiceUpdateKeeps(s);
    case _ => BeginStepsKeep(s, step);
  }

  lemma PrefixIsLegal(s: System, steps: seq<Step>, n: nat)
    requires LegalRun(s, steps) && n <= |steps|
    ensures LegalRun(s, steps[..n])
    ensures n < |steps| ==> Legal(After(s, steps[..n]), steps[n])
  {
    forall k | 0 <= k < n ensures Legal(After(s, steps[..n][..k]), steps[..n][k]) {
      assert steps[..n][..k] == steps[..k];
      assert Legal(After(s, steps[..k]), steps[k]);
    }
  }

  // Isolation, fail-closed cards, latches and T3 attention hold throughout
  // every run, whatever the interleaving.
  lemma {:induction false} EveryRunIsSound(backend: AgentBackend, t3Order: OrderMode, modes: Modes, steps: seq<Step>)
    requires LegalRun(Start(backend, t3Order, modes), steps)
    ensures Sound(After(Start(backend, t3Order, modes), steps))
  {
    if steps != [] {
      var n := |steps| - 1;
      var s := Start(backend, t3Order, modes);
      PrefixIsLegal(s, steps, n);
      EveryRunIsSound(backend, t3Order, modes, steps[..n]);
      StepKeeps(After(s, steps[..n]), steps[n]);
    }
  }

  // Nothing of an earlier manager survives: every card, private target, latch
  // and focus entry was reported by an observation of the present manager that
  // began after the latest switch.
  lemma OnlyTheCurrentManager(backend: AgentBackend, t3Order: OrderMode, modes: Modes, steps: seq<Step>)
    requires LegalRun(Start(backend, t3Order, modes), steps)
    ensures var s := After(Start(backend, t3Order, modes), steps);
      && s.portal.shownBackend == s.portal.backend
      && Evidenced(s, Ids(s.portal.agents))
      && Routed(s, s.portal.targets)
      && Evidenced(s, s.portal.memory.observed.Keys)
      && (forall x :: x in s.portal.memory.focused ==>
            var focus := s.portal.memory.focused[x];
            focus.Some? ==> Evidence(s.era, s.portal.backend, focus.value) in s.evidence)
  {
    EveryRunIsSound(backend, t3Order, modes, steps);
  }

  // While T3 Code is the manager, stale or not, attention means what its
  // statuses mean: finished work is shown review-ready, and nothing that is
  // blocked, working or unknown is.
  lemma T3AttentionIsExact(backend: AgentBackend, t3Order: OrderMode, modes: Modes, steps: seq<Step>, a: AgentView)
    requires LegalRun(Start(backend, t3Order, modes), steps)
    requires var p := After(Start(backend, t3Order, modes), steps).portal; p.backend.T3Manager? && a in p.agents
    ensures a.status.Done? ==> a.reviewReady
    ensures a.status.Blocked? || a.status.Working? || a.status.Unknown? ==> !a.reviewReady
  {
    EveryRunIsSound(backend, t3Order, modes, steps);
    var p := After(Start(backend, t3Order, modes), steps).portal;
    assert Remembers(a, p.memory.observed);
  }

  // In every reachable state grouping the roster would put card i at place i,
  // so no toggle, failure or stale session has lost or doubled a card.
  lemma GroupedPlacesInEveryRun(backend: AgentBackend, t3Order: OrderMode, modes: Modes, steps: seq<Step>)
    requires LegalRun(Start(backend, t3Order, modes), steps)
    ensures var agents := After(Start(backend, t3Order, modes), steps).portal.agents;
      && |Sorted(Grouped, agents)| == |agents|
      && forall i :: 0 <= i < |agents| ==> Sorted(Grouped, agents)[i].sourceOrder == i
  {
    EveryRunIsSound(backend, t3Order, modes, steps);
    var agents := After(Start(backend, t3Order, modes), steps).portal.agents;
    SortContents(Grouped, agents);
    GroupedOrderPlacesEveryCard(agents);
  }

  // ---- The sequence number identifies the action state ----

  predicate SameActions(p: Portal, q: Portal) {
    p.agents == q.agents && p.targets == q.targets && p.order == q.order && p.backend == q.backend
  }

  predicate Advances(p: Portal, q: Portal) {
    || (q.sequence == p.sequence && SameActions(p, q))
    || q.sequence == if p.sequence < 0xFFFF_FFFF_FFFF_FFFF then p.sequence + 1 else 0xFFFF_FFFF_FFFF_FFFF
  }

  lemma RefreshAdvances(s: System, step: Step)
    requires step.DiscoverFails? || step.FinishHerdr? || step.FinishT3?
    ensures Advances(s.portal, Do(s, step).portal)
  {
  }

  lemma OrderAdvances(s: System, step: Step)
    requires step.PublishT3Order? || step.EndOrder?
    ensures Advances(s.portal, Do(s, step).portal)
  {
  }

  lemma CommandAdvances(s: System, step: Step)
    requires step.Switch? || step.OpenAnswered?
    ensures Advances(s.portal, Do(s, step).portal)
  {
  }

  lemma StepAdvances(s: System, step: Step)
    ensures Advances(s.portal, Do(s, step).portal)
  {
    if step.DiscoverFails? || step.FinishHerdr? || step.FinishT3? {
      RefreshAdvances(s, step);
    } else if step.PublishT3Order? || step.EndOrder? {
      OrderAdvances(s, step);
    } else if step.Switch? || step.OpenAnswered? {
      CommandAdvances(s, step);
    }
  }

  lemma AfterAdvances(s: System, steps: seq<Step>)
    requires steps != []
    ensures Advances(After(s, steps[..|steps| - 1]).portal, After(s, steps).portal)
  {
    StepAdvances(After(s, steps[..|steps| - 1]), steps[|steps| - 1]);
  }

  lemma {:induction false} SequenceIsBounded(s: System, steps: seq<Step>)
    requires s.portal.sequence <= U64_MAX
    ensures After(s, steps).portal.sequence <= U64_MAX
  {
    if steps != [] {
      SequenceIsBounded(s, steps[..|steps| - 1]);
      AfterAdvances(s, steps);
    }
  }

  // Two states of a run with one number below the maximum have the same cards,
  // targets, ordering and manager.
  lemma {:induction false} SequenceIdentifies(s: System, steps: seq<Step>, i: nat)
    requires i <= |steps| && s.portal.sequence <= U64_MAX
    ensures var p, q := After(s, steps[..i]).portal, After(s, steps).portal;
      && p.sequence <= q.sequence <= U64_MAX
      && (p.sequence == q.sequence < U64_MAX ==> SameActions(p, q))
  {
    SequenceIsBounded(s, steps);
    if i < |steps| {
      var n := |steps| - 1;
      assert steps[..n][..i] == steps[..i];
      SequenceIdentifies(s, steps[..n], i);
      AfterAdvances(s, steps);
    } else {
      assert steps[..i] == steps;
    }
  }

  // The card itself offers this action, under the very capability supplied.
  predicate Grants(a: AgentView, command: AgentCommand) {
    match command.action
    case OpenAgent => a.actions.open && command.capability.None?
    case ZoomAgent => a.actions.zoom && command.capability.None?
    case ApproveAgent => Names(a.actions.approve, command.capability)
    case InterruptAgent => Names(a.actions.interrupt, command.capability)
  }

  predicate Names(offer: Option<Capability>, supplied: Option<string>) {
    offer.Some? && supplied == Some(offer.value.capabilityId)
  }

  // An agent action is dispatched only to the target, and under the capability,
  // that the cited number named in the snapshot the client saw.
  lemma DispatchMatchesCitedSnapshot(s: System, steps: seq<Step>, i: nat, command: AgentCommand)
    requires i <= |steps| && s.portal.sequence <= U64_MAX
    ensures var cited := After(s, steps[..i]).portal;
      var decision := Decide(After(s, steps).portal, command);
      decision.Dispatch? && command.sequence == cited.sequence < U64_MAX ==>
        && (exists a :: a in cited.agents && a.id == command.id && Grants(a, command))
        && Lookup(cited.targets, command.id) == Some(decision.target)
        && (decision.target.T3Target? ==> command.action.OpenAgent?)
        && decision.capability == command.capability
  {
    SequenceIdentifies(s, steps, i);
    var p := After(s, steps).portal;
    if Decide(p, command).Dispatch? {
      DispatchIsGranted(p, command);
    }
  }

  lemma DispatchIsGranted(p: Portal, command: AgentCommand)
    requires Decide(p, command).Dispatch?
    ensures exists a :: a in p.agents && a.id == command.id && Grants(a, command)
  {
    var card := Find(p.agents, command.id).value;
    assert card in p.agents && Grants(card, command);
  }

  // And it is dispatched whenever the current number is cited and the card on
  // show has a target and grants it; T3 Code's threads can only be opened.
  lemma GrantedIsDispatched(
      backend: AgentBackend, t3Order: OrderMode, modes: Modes, steps: seq<Step>, command: AgentCommand, a: AgentView)
    requires LegalRun(Start(backend, t3Order, modes), steps)
    requires a in After(Start(backend, t3Order, modes), steps).portal.agents && a.id == command.id
    ensures var p := After(Start(backend, t3Order, modes), steps).portal;
      Decide(p, command).Dispatch? <==>
        && command.sequence == p.sequence && command.id in p.targets && Grants(a, command)
        && (p.targets[command.id].T3Target? ==> command.action.OpenAgent?)
  {
    EveryRunIsSound(backend, t3Order, modes, steps);
    GrantedNow(After(Start(backend, t3Order, modes), steps).portal, command, a);
  }

  lemma GrantedNow(p: Portal, command: AgentCommand, a: AgentView)
    requires DistinctIds(p.agents) && a in p.agents && a.id == command.id
    ensures Decide(p, command).Dispatch? <==>
      && command.sequence == p.sequence && command.id in p.targets && Grants(a, command)
      && (p.targets[command.id].T3Target? ==> command.action.OpenAgent?)
  {
    FindsTheCard(p.agents, a);
  }

  lemma FindsTheCard(agents: seq<AgentView>, a: AgentView)
    requires DistinctIds(agents) && a in agents
    ensures Find(agents, a.id) == Some(a)
  {
    var found := Find(agents, a.id).value;
    assert found in agents && found.id == a.id;
  }

  // Why a command is rejected.
  lemma RejectionMeaning(p: Portal, command: AgentCommand)
    ensures var d, guarded := Decide(p, command), command.action.ApproveAgent? || command.action.InterruptAgent?;
      var shown, routed := command.id in Ids(p.agents), command.id in p.targets;
      && (d == Reject("invalid_command") <==> guarded != command.capability.Some?)
      && (d == Reject("stale_snapshot") <==> guarded == command.capability.Some? && command.sequence != p.sequence)
      && (d == Reject("session_disconnected") <==>
            guarded == command.capability.Some? && command.sequence == p.sequence && shown && !routed)
      && (d == Reject("capability_expired") ==> guarded && shown && routed)
      && (d == Reject("target_unavailable") ==> !shown || !guarded || p.targets[command.id].T3Target?)
  {
  }
}
