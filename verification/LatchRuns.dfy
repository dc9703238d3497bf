// The review badge in every run of the daemon: the commits, opens and switches
// of a run of PortalRuns are a history in the sense of ReviewLatch.

module LatchRuns {
  import opened Optional
  import opened PortalModel
  import opened ReviewLatch
  import opened T3Code
  import opened HerdrRefresh
  import opened OrderProtocol
  import opened PortalState
  import opened PortalRuns

  // What a step does to the memory of cards and focus, if anything.
  function OperationOf(s: System, step: Step): Option<Operation> {
    match step
    case FinishHerdr(now) =>
      if s.job.Collecting? && |s.job.outcomes| == |s.job.names| && s.portal.backend.HerdrManager? then
        var c := Collect(s.job.names, s.job.outcomes, s.job.previous);
        Some(Operation.Reconcile(c.agents, c.targets, now))
      else None
    case FinishT3(o, now) =>
      if s.job.ObservingT3? && s.portal.backend.T3Manager? then
        Some(if o.session.Stale? then Operation.Reconcile(Disarm(s.portal.agents), map[], now)
             else Operation.Reconcile(o.agents, o.targets, now))
      else None
    case OpenAnswered(id, ok) => if id in s.opening && ok then Some(Open(id)) else None
    case Switch(cited, manager) =>
      if s.job.NoJob? && cited == s.portal.sequence && s.portal.backend != manager then Some(SwitchManager) else None
    case _ => None
  }

  function Listed(op: Option<Operation>): seq<Operation> {
    if op.Some? then [op.value] else []
  }

  function OperationsOf(s: System, steps: seq<Step>): seq<Operation> {
    if steps == [] then []
    else
      var n := |steps| - 1;
      OperationsOf(s, steps[..n]) + Listed(OperationOf(After(s, steps[..n]), steps[n]))
  }

  predicate Distinct(op: Option<Operation>) {
    op.Some? && op.value.Reconcile? ==> DistinctIds(op.value.agents)
  }

  lemma OpenMemory(p: Portal, id: AgentId)
    requires PortalRuns.Roster(p)
    ensures ReviewAcknowledged(p, id).memory == Perform(p.memory, Open(id))
  {
    var i := IndexOf(p.agents, id);
    if id in p.memory.observed {
      assert id in Ids(p.agents);
      var k :| 0 <= k < |p.agents| && p.agents[k].id == id;
      assert k == i;
      assert p.agents[i] in p.agents;
      if !p.agents[i].reviewReady {
        assert Unlatch(p.memory.observed, id) == p.memory.observed;
      }
    } else if i < |p.agents| {
      assert p.agents[i] in p.agents;
    }
  }

  lemma HerdrOperation(s: System, now: nat)
    requires Sound(s)
    ensures var op := OperationOf(s, FinishHerdr(now));
      && Distinct(op)
      && Do(s, FinishHerdr(now)).portal.memory
         == (if op.Some? then Perform(s.portal.memory, op.value) else s.portal.memory)
  {
    if s.job.Collecting? && |s.job.outcomes| == |s.job.names| {
      CollectedSoundly(s);
    }
  }

  lemma T3Operation(s: System, o: T3Observation, now: nat)
    requires Sound(s) && T3Contract(o)
    ensures var op := OperationOf(s, FinishT3(o, now));
      && Distinct(op)
      && Do(s, FinishT3(o, now)).portal.memory
         == (if op.Some? then Perform(s.portal.memory, op.value) else s.portal.memory)
  {
    DisarmKeeps(s.portal.agents);
  }

  lemma OtherOperation(s: System, step: Step)
    requires !step.FinishHerdr? && !step.FinishT3? && !step.OpenAnswered?
    ensures var op := OperationOf(s, step);
      && Distinct(op)
      && Do(s, step).portal.memory == (if op.Some? then Perform(s.portal.memory, op.value) else s.portal.memory)
  {
  }

  lemma OpenOperation(s: System, id: AgentId, ok: bool)
    requires Sound(s)
    ensures var op := OperationOf(s, OpenAnswered(id, ok));
      && Distinct(op)
      && Do(s, OpenAnswered(id, ok)).portal.memory
         == (if op.Some? then Perform(s.portal.memory, op.value) else s.portal.memory)
  {
    OpenMemory(s.portal, id);
  }

  // A run's memory is what its operations leave.
  lemma {:induction false} MemoryOfRun(backend: AgentBackend, t3Order: OrderMode, modes: Modes, steps: seq<Step>)
    requires LegalRun(Start(backend, t3Order, modes), steps)
    ensures var s := Start(backend, t3Order, modes);
      && After(s, steps).portal.memory == MemoryAfter(OperationsOf(s, steps))
      && DistinctRosters(OperationsOf(s, steps))
  {
    if steps != [] {
      var n, s := |steps| - 1, Start(backend, t3Order, modes);
      PrefixIsLegal(s, steps, n);
      MemoryOfRun(backend, t3Order, modes, steps[..n]);
      EveryRunIsSound(backend, t3Order, modes, steps[..n]);
      var before, step := After(s, steps[..n]), steps[n];
      match step {
        case FinishHerdr(now) => HerdrOperation(before, now);
        case FinishT3(o, now) => T3Operation(before, o, now);
        case OpenAnswered(id, ok) => OpenOperation(before, id, ok);
        case _ => OtherOperation(before, step);
      }
      OneMore(OperationsOf(s, steps[..n]), OperationOf(before, step));
    }
  }

  lemma OneMore(ops: seq<Operation>, op: Option<Operation>)
    requires DistinctRosters(ops) && Distinct(op)
    ensures DistinctRosters(ops + Listed(op))
    ensures MemoryAfter(ops + Listed(op)) == if op.Some? then Perform(MemoryAfter(ops), op.value) else MemoryAfter(ops)
  {
    if op.Some? {
      assert (ops + [op.value])[..|ops|] == ops;
    } else {
      assert ops + [] == ops;
    }
  }

  // In every run, a card on show is review-ready exactly if its history armed
  // it during this stay and nothing at or after that cleared it.
  lemma BadgeInEveryRun(backend: AgentBackend, t3Order: OrderMode, modes: Modes, steps: seq<Step>, a: AgentView)
    requires LegalRun(Start(backend, t3Order, modes), steps)
    requires a in After(Start(backend, t3Order, modes), steps).portal.agents
    ensures var history := HistoryOf(a.id, OperationsOf(Start(backend, t3Order, modes), steps));
      a.reviewReady <==> exists i :: ArmedSince(history, i)
  {
    var s := Start(backend, t3Order, modes);
    EveryRunIsSound(backend, t3Order, modes, steps);
    MemoryOfRun(backend, t3Order, modes, steps);
    LatchRefinesHistory(a.id, OperationsOf(s, steps));
  }

  // ---- How long a card has been as it is ----

  lemma {:induction false} HistoryLength(id: AgentId, ops: seq<Operation>)
    ensures |HistoryOf(id, ops)| == |ops|
  {
    if ops != [] {
      HistoryLength(id, ops[..|ops| - 1]);
    }
  }

  lemma {:induction false} HistoryAt(id: AgentId, ops: seq<Operation>, k: nat)
    requires k < |ops|
    ensures |HistoryOf(id, ops)| == |ops| && HistoryOf(id, ops)[k] == EventOf(id, ops[..k], ops[k])
  {
    var n := |ops| - 1;
    HistoryLength(id, ops);
    HistoryLength(id, ops[..n]);
    if k < n {
      HistoryAt(id, ops[..n], k);
      assert ops[..n][..k] == ops[..k];
    }
  }

  lemma SinceOfOperations(id: AgentId, ops: seq<Operation>) returns (k: int)
    requires DistinctRosters(ops) && id in MemoryAfter(ops).observed
    ensures RunBegan(HistoryOf(id, ops), k) && k < |ops| && ops[k].Reconcile? && id in ops[k].targets
    ensures MemoryAfter(ops).observed[id].since == ops[k].now
  {
    MemoryIsHistory(id, ops);
    k := SinceHistory(HistoryOf(id, ops));
    BeganAtCommit(id, ops, k);
  }

  lemma BeganAtCommit(id: AgentId, ops: seq<Operation>, k: int)
    requires RunBegan(HistoryOf(id, ops), k)
    ensures k < |ops| && ops[k].Reconcile? && id in ops[k].targets && HistoryOf(id, ops)[k].now == ops[k].now
  {
    HistoryLength(id, ops);
    HistoryAt(id, ops, k);
  }

  // In every run, what is remembered of a card dates from the commit that
  // began its current unchanged run.
  lemma SinceInEveryRun(backend: AgentBackend, t3Order: OrderMode, modes: Modes, steps: seq<Step>, id: AgentId)
      returns (k: int)
    requires LegalRun(Start(backend, t3Order, modes), steps)
    requires id in After(Start(backend, t3Order, modes), steps).portal.memory.observed
    ensures var s := Start(backend, t3Order, modes);
      var ops := OperationsOf(s, steps);
      && RunBegan(HistoryOf(id, ops), k) && k < |ops| && ops[k].Reconcile? && id in ops[k].targets
      && After(s, steps).portal.memory.observed[id].since == ops[k].now
  {
    MemoryOfRun(backend, t3Order, modes, steps);
    k := SinceOfOperations(id, OperationsOf(Start(backend, t3Order, modes), steps));
  }

  // Every remembered card shows its age at the latest reconciliation.
  predicate Aged(p: Portal, last: Option<Operation>)
    requires last.Some? ==> last.value.Reconcile?
  {
    forall a :: a in p.agents && a.id in p.memory.observed ==>
      last.Some? && a.observedFor == Elapsed(p.memory.observed[a.id].since, last.value.now)
  }

  // The latest reconciliation after one more operation.
  function Latest(last: Option<Operation>, op: Option<Operation>): (r: Option<Operation>)
    requires last.Some? ==> last.value.Reconcile?
    ensures r.Some? ==> r.value.Reconcile?
  {
    match op
    case Some(Reconcile(_, _, _)) => op
    case Some(SwitchManager) => None
    case _ => last
  }

  lemma LatestOfRun(ops: seq<Operation>, op: Option<Operation>)
    ensures LastReconcile(ops + Listed(op)) == Latest(LastReconcile(ops), op)
  {
    if op.Some? {
      assert (ops + [op.value])[..|ops|] == ops;
    } else {
      assert ops + [] == ops;
    }
  }

  lemma CommitShowsAges(p: Portal, op: Operation, order: OrderSnapshot)
    requires op.Reconcile? && DistinctIds(op.agents)
    ensures var settled := Apply(op.agents, op.targets, p.memory, op.now);
      Aged(p.(agents := Arranged(order, settled.0), memory := settled.1), Some(op))
  {
    var settled := Apply(op.agents, op.targets, p.memory, op.now);
    CommitPublishes(op.agents, op.targets, p.memory, order, op.now);
    forall a | a in Arranged(order, settled.0) && a.id in settled.1.observed
      ensures a.observedFor == Elapsed(settled.1.observed[a.id].since, op.now)
    {
      var b :| b in op.agents && b.id == a.id && a == Show(b, Lookup(settled.1.observed, b.id), op.now);
    }
  }

  lemma AcknowledgedAges(p: Portal, id: AgentId, last: Option<Operation>)
    requires (last.Some? ==> last.value.Reconcile?) && Aged(p, last)
    ensures Aged(ReviewAcknowledged(p, id), last)
  {
    var q := ReviewAcknowledged(p, id);
    forall a | a in q.agents && a.id in q.memory.observed
      ensures last.Some? && a.observedFor == Elapsed(q.memory.observed[a.id].since, last.value.now)
    {
      var k :| 0 <= k < |q.agents| && q.agents[k] == a;
      assert p.agents[k] in p.agents && p.agents[k].id == a.id;
    }
  }

  lemma SameCardsAge(p: Portal, q: Portal, last: Option<Operation>)
    requires (last.Some? ==> last.value.Reconcile?) && Aged(p, last) && q.memory == p.memory
    requires forall a :: a in q.agents ==> exists b :: b in p.agents && b.id == a.id && b.observedFor == a.observedFor
    ensures Aged(q, last)
  {
  }

  lemma FailedDiscoveryAges(p: Portal, last: Option<Operation>)
    requires (last.Some? ==> last.value.Reconcile?) && Aged(p, last)
    ensures Aged(DiscoveryFails(p), last)
  {
    DisarmKeeps(p.agents);
    ArrangedKeeps(ORDER_UNAVAILABLE, Disarm(p.agents));
    var q := DiscoveryFails(p);
    assert forall a :: a in q.agents ==> a in p.agents || a in Disarm(p.agents);
    SameCardsAge(p, q, last);
  }

  lemma PublishedOrderAges(p: Portal, mode: OrderMode, t3Order: OrderMode, last: Option<Operation>)
    requires (last.Some? ==> last.value.Reconcile?) && Aged(p, last)
    ensures Aged(OrderPublished(p, mode).(t3Order := t3Order), last) && Aged(OrderPublished(p, mode), last)
  {
    ArrangedKeeps(OrderSnapshot(true, mode), p.agents);
  }

  // A step takes shown ages to those at the latest reconciliation after it.
  predicate StepAges(s: System, step: Step, last: Option<Operation>)
    requires last.Some? ==> last.value.Reconcile?
  {
    Aged(Do(s, step).portal, Latest(last, OperationOf(s, step)))
  }

  lemma HerdrAges(s: System, now: nat, last: Option<Operation>)
    requires Sound(s) && (last.Some? ==> last.value.Reconcile?) && Aged(s.portal, last)
    ensures StepAges(s, FinishHerdr(now), last)
  {
    var op := OperationOf(s, FinishHerdr(now));
    if op.Some? {
      HerdrOperation(s, now);
      var c := Collect(s.job.names, s.job.outcomes, s.job.previous);
      CommitShowsAges(s.portal, op.value, HerdrOrder(|s.job.names|, c));
    }
  }

  lemma T3Ages(s: System, o: T3Observation, now: nat, last: Option<Operation>)
    requires Sound(s) && T3Contract(o) && (last.Some? ==> last.value.Reconcile?) && Aged(s.portal, last)
    ensures StepAges(s, FinishT3(o, now), last)
  {
    var op := OperationOf(s, FinishT3(o, now));
    if op.Some? {
      T3Operation(s, o, now);
      CommitShowsAges(s.portal, op.value, OrderSnapshot(o.session.Connected?, s.portal.t3Order));
    }
  }

  lemma DiscoverFailsAges(s: System, last: Option<Operation>)
    requires (last.Some? ==> last.value.Reconcile?) && Aged(s.portal, last)
    ensures StepAges(s, DiscoverFails, last)
  {
    FailedDiscoveryAges(s.portal, last);
  }

  lemma PublishT3OrderAges(s: System, last: Option<Operation>)
    requires (last.Some? ==> last.value.Reconcile?) && Aged(s.portal, last)
    ensures StepAges(s, PublishT3Order, last)
  {
    if s.job.OrderingT3? {
      PublishedOrderAges(s.portal, s.job.mode, s.job.mode, last);
    }
  }

  lemma EndOrderAges(s: System, last: Option<Operation>)
    requires (last.Some? ==> last.value.Reconcile?) && Aged(s.portal, last)
    ensures StepAges(s, EndOrder, last)
  {
    if s.job.OrderingHerdr? {
      PublishedOrderAges(s.portal, s.job.mode, s.portal.t3Order, last);
    }
  }

  lemma OpenAges(s: System, id: AgentId, ok: bool, last: Option<Operation>)
    requires (last.Some? ==> last.value.Reconcile?) && Aged(s.portal, last)
    ensures StepAges(s, OpenAnswered(id, ok), last)
  {
    AcknowledgedAges(s.portal, id, last);
  }

  lemma SwitchAges(s: System, cited: nat, manager: AgentBackend, last: Option<Operation>)
    requires (last.Some? ==> last.value.Reconcile?) && Aged(s.portal, last)
    ensures StepAges(s, Switch(cited, manager), last)
  {
  }

  predicate LeavesRoster(step: Step) {
    !(step.DiscoverFails? || step.FinishHerdr? || step.FinishT3? || step.PublishT3Order? || step.EndOrder?
      || step.OpenAnswered? || step.Switch?)
  }

  lemma OtherAges(s: System, step: Step, last: Option<Operation>)
    requires LeavesRoster(step)
    requires (last.Some? ==> last.value.Reconcile?) && Aged(s.portal, last)
    ensures StepAges(s, step, last)
  {
    RosterStays(s, step);
    SameCardsAge(s.portal, Do(s, step).portal, last);
  }

  lemma RosterStays(s: System, step: Step)
    requires LeavesRoster(step)
    ensures Do(s, step).portal.agents == s.portal.agents && Do(s, step).portal.memory == s.portal.memory
    ensures OperationOf(s, step) == None
  {
  }

  lemma {:induction false} AgesOfRun(backend: AgentBackend, t3Order: OrderMode, modes: Modes, steps: seq<Step>)
    requires LegalRun(Start(backend, t3Order, modes), steps)
    ensures var s := Start(backend, t3Order, modes); Aged(After(s, steps).portal, LastReconcile(OperationsOf(s, steps)))
  {
    if steps != [] {
      var n, s := |steps| - 1, Start(backend, t3Order, modes);
      PrefixIsLegal(s, steps, n);
      AgesOfRun(backend, t3Order, modes, steps[..n]);
      EveryRunIsSound(backend, t3Order, modes, steps[..n]);
      var before, step := After(s, steps[..n]), steps[n];
      var last := LastReconcile(OperationsOf(s, steps[..n]));
      match step {
        case FinishHerdr(now) => HerdrAges(before, now, last);
        case FinishT3(o, now) => T3Ages(before, o, now, last);
        case DiscoverFails => DiscoverFailsAges(before, last);
        case PublishT3Order => PublishT3OrderAges(before, last);
        case EndOrder => EndOrderAges(before, last);
        case OpenAnswered(id, ok) => OpenAges(before, id, ok, last);
        case Switch(cited, manager) => SwitchAges(before, cited, manager, last);
        case _ => OtherAges(before, step, last);
      }
      LatestOfRun(OperationsOf(s, steps[..n]), OperationOf(before, step));
    }
  }

  // In every run, the age on a remembered card is the time from the commit that
  // began its current unchanged run to the latest commit.
  lemma AgeInEveryRun(backend: AgentBackend, t3Order: OrderMode, modes: Modes, steps: seq<Step>, a: AgentView)
      returns (k: int)
    requires LegalRun(Start(backend, t3Order, modes), steps)
    requires a in After(Start(backend, t3Order, modes), steps).portal.agents
    requires a.id in After(Start(backend, t3Order, modes), steps).portal.memory.observed
    ensures var ops := OperationsOf(Start(backend, t3Order, modes), steps);
      && RunBegan(HistoryOf(a.id, ops), k) && k < |ops| && ops[k].Reconcile? && LastReconcile(ops).Some?
      && a.observedFor == Elapsed(ops[k].now, LastReconcile(ops).value.now)
  {
    k := SinceInEveryRun(backend, t3Order, modes, steps, a.id);
    AgesOfRun(backend, t3Order, modes, steps);
  }
}
