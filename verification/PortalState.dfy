// The daemon's shared state and the sections that update it under its write
// lock (crates/xeneon-agent-core/src/runtime.rs).

module PortalState {
  import opened Optional
  import opened PortalModel
  import opened ReviewLatch
  import opened T3Code
  import opened HerdrRefresh

  datatype ConnectionState = Online | Degraded | Reconnecting | OfflineAll

  const U64_MAX := 0xFFFF_FFFF_FFFF_FFFF

  // `saturating_add(1)`.
  function Advance(sequence: nat): nat {
    if sequence < U64_MAX then sequence + 1 else U64_MAX
  }

  datatype Portal = Portal(
    backend: AgentBackend, shownBackend: AgentBackend, connection: ConnectionState,
    sessions: seq<SessionView>, agents: seq<AgentView>, order: OrderSnapshot, sequence: nat,
    targets: Targets, memory: Memory, t3Order: OrderMode, t3Sequence: Option<nat>)

  function Fresh(backend: AgentBackend, t3Order: OrderMode): Portal {
    Portal(backend, backend, OfflineAll, [], [], ORDER_UNAVAILABLE, 0, map[], Memory(map[], map[]), t3Order, None)
  }

  // ---- What each section computes ----

  function MarkStale(sessions: seq<SessionView>): seq<SessionView> {
    seq(|sessions|, i requires 0 <= i < |sessions| => sessions[i].(state := Stale))
  }

  function HerdrConnection(total: nat, connected: nat): ConnectionState {
    if total == 0 then OfflineAll
    else if connected == total then Online
    else if connected > 0 then Degraded
    else Reconnecting
  }

  function DiscoveryFails(p: Portal): Portal {
    if !p.backend.HerdrManager? then p
    else p.(connection := OfflineAll, sessions := MarkStale(p.sessions), order := ORDER_UNAVAILABLE,
            agents := Sorted(Priority, Disarm(p.agents)), targets := map[], sequence := Advance(p.sequence))
  }

  function HerdrCommits(p: Portal, total: nat, c: Collected, now: nat): Portal {
    if !p.backend.HerdrManager? then p
    else
      var settled := Apply(c.agents, c.targets, p.memory, now);
      var order := HerdrOrder(total, c);
      p.(connection := HerdrConnection(total, c.connected), sessions := c.sessions, order := order,
         agents := Arranged(order, settled.0), targets := c.targets, memory := settled.1,
         sequence := Advance(p.sequence))
  }

  function T3Commits(p: Portal, o: T3Observation, now: nat): Portal {
    if !p.backend.T3Manager? then p
    else
      var stale := o.session.Stale?;
      var targets := if stale then map[] else o.targets;
      var settled := Apply(if stale then Disarm(p.agents) else o.agents, targets, p.memory, now);
      var order := OrderSnapshot(o.session.Connected?, p.t3Order);
      p.(connection := if o.session.Connected? then Online else if o.session.Offline? then OfflineAll else Reconnecting,
         sessions := [SessionView(T3_SESSION, o.session)], order := order, agents := Arranged(order, settled.0),
         targets := targets, memory := settled.1, t3Sequence := o.projection, sequence := Advance(p.sequence))
  }

  function OrderPublished(p: Portal, mode: OrderMode): Portal {
    var order := OrderSnapshot(true, mode);
    p.(order := order, agents := Arranged(order, p.agents), sequence := Advance(p.sequence))
  }

  // The mode is published and the same cards are shown in its order.
  lemma OrderPublishedMeaning(p: Portal, mode: OrderMode)
    ensures var q := OrderPublished(p, mode);
      && q.order.available && q.order.mode == mode && InOrder(mode, q.agents)
      && multiset(q.agents) == multiset(p.agents) && q.sequence == Advance(p.sequence)
      && q == p.(order := q.order, agents := q.agents, sequence := q.sequence)
  {
    SortOrders(mode, p.agents);
    SortContents(mode, p.agents);
  }

  function OrderWithdrawn(p: Portal): Portal {
    p.(order := ORDER_UNAVAILABLE, sequence := Advance(p.sequence))
  }

  function Switched(p: Portal, mode: AgentBackend): Portal {
    p.(backend := mode, shownBackend := mode, connection := Reconnecting, sessions := [], agents := [],
       order := ORDER_UNAVAILABLE, targets := map[], memory := Memory(map[], map[]), t3Sequence := None,
       sequence := Advance(p.sequence))
  }

  function IndexOf(agents: seq<AgentView>, id: AgentId): (i: nat)
    ensures i <= |agents|
    ensures i < |agents| ==> agents[i].id == id
    ensures forall k :: 0 <= k < i ==> agents[k].id != id
  {
    if agents == [] || agents[0].id == id then 0 else 1 + IndexOf(agents[1..], id)
  }

  function ReviewAcknowledged(p: Portal, id: AgentId): Portal {
    var i := IndexOf(p.agents, id);
    if i == |p.agents| || !p.agents[i].reviewReady then p
    else p.(agents := p.agents[i := p.agents[i].(reviewReady := false)],
            memory := p.memory.(observed := Unlatch(p.memory.observed, id)), sequence := Advance(p.sequence))
  }

  // ---- The state object ----

  class RuntimeState {
    var backend: AgentBackend
    var shownBackend: AgentBackend
    var connection: ConnectionState
    var sessions: seq<SessionView>
    var agents: seq<AgentView>
    var order: OrderSnapshot
    var sequence: nat
    var targets: Targets
    var t3Order: OrderMode
    var t3Sequence: Option<nat>
    const memory: AttentionMemory

    function Value(): Portal
      reads this, memory
    {
      Portal(backend, shownBackend, connection, sessions, agents, order, sequence, targets, memory.Value(), t3Order,
        t3Sequence)
    }

    constructor (backend: AgentBackend, t3Order: OrderMode)
      ensures Value() == Fresh(backend, t3Order) && fresh(memory)
    {
      this.backend, shownBackend, this.t3Order := backend, backend, t3Order;
      connection, sessions, agents, targets := OfflineAll, [], [], map[];
      order, sequence, t3Sequence := ORDER_UNAVAILABLE, 0, None;
      memory := new AttentionMemory();
    }

    method DiscoveryFailed()
      modifies this
      ensures Value() == DiscoveryFails(old(Value()))
    {
      if backend != HerdrManager { return; }
      connection, sessions := OfflineAll, MarkStale(sessions);
      order := ORDER_UNAVAILABLE;
      agents := Sorted(Priority, Disarm(agents));
      targets := map[];
      sequence := Advance(sequence);
    }

    // Settles a collected roster against the memory and puts it in order.
    method Settle(collected: seq<AgentView>, collectedTargets: Targets, ordering: OrderSnapshot, now: nat)
        returns (settled: seq<AgentView>)
      modifies memory
      ensures var s := Apply(collected, collectedTargets, old(memory.Value()), now);
        settled == Arranged(ordering, s.0) && memory.Value() == s.1
    {
      var slice := new AgentView[|collected|](i requires 0 <= i < |collected| => collected[i]);
      assert slice[..] == collected;
      memory.ApplyAgentObservations(slice, collectedTargets, now);
      ApplyAgentOrder(slice, ordering);
      settled := slice[..];
    }

    method CommitHerdr(total: nat, c: Collected, now: nat)
      modifies this, memory
      ensures Value() == HerdrCommits(old(Value()), total, c, now)
    {
      if backend != HerdrManager { return; }
      var ordering := HerdrOrder(total, c);
      agents := Settle(c.agents, c.targets, ordering, now);
      sessions, order := c.sessions, ordering;
      connection := HerdrConnection(total, c.connected);
      sequence := Advance(sequence);
      targets := c.targets;
    }

    method CommitT3(o: T3Observation, now: nat)
      modifies this, memory
      ensures Value() == T3Commits(old(Value()), o, now)
    {
      if backend != T3Manager { return; }
      var roster, routes := o.agents, o.targets;
      if o.session == Stale {
        roster, routes := Disarm(agents), map[];
      }
      var ordering := OrderSnapshot(o.session == Connected, t3Order);
      agents := Settle(roster, routes, ordering, now);
      match o.session {
        case Connected => connection := Online;
        case Offline => connection := OfflineAll;
        case _ => connection := Reconnecting;
      }
      sessions, order := [SessionView(T3_SESSION, o.session)], ordering;
      sequence := Advance(sequence);
      targets, t3Sequence := routes, o.projection;
    }

    method PublishOrder(mode: OrderMode)
      modifies this
      ensures Value() == OrderPublished(old(Value()), mode)
      ensures InOrder(mode, agents) && multiset(agents) == multiset(old(agents))
    {
      OrderPublishedMeaning(Value(), mode);
      order := OrderSnapshot(true, mode);
      agents := Arranged(order, agents);
      sequence := Advance(sequence);
    }

    method WithdrawOrder()
      modifies this
      ensures Value() == OrderWithdrawn(old(Value()))
    {
      order := ORDER_UNAVAILABLE;
      sequence := Advance(sequence);
    }

    // `process_backend_command`: stale requests fail, repeats change nothing.
    method SwitchBackend(cited: nat, mode: AgentBackend) returns (ok: bool)
      modifies this, memory
      ensures ok == (cited == old(sequence))
      ensures Value() == if ok && old(backend) != mode then Switched(old(Value()), mode) else old(Value())
    {
      if cited != sequence { return false; }
      if backend == mode { return true; }
      backend := mode;
      targets := map[];
      memory.Clear();
      t3Sequence, sessions, agents := None, [], [];
      order, connection, shownBackend := ORDER_UNAVAILABLE, Reconnecting, mode;
      sequence := Advance(sequence);
      ok := true;
    }

    method AcknowledgeReviewReady(id: AgentId)
      modifies this, memory
      ensures Value() == ReviewAcknowledged(old(Value()), id)
    {
      var i := IndexOf(agents, id);
      if i == |agents| || !agents[i].reviewReady { return; }
      agents := agents[i := agents[i].(reviewReady := false)];
      memory.observed := Unlatch(memory.observed, id);
      sequence := Advance(sequence);
    }
  }

  // ---- Dispatch of agent actions (`process_command`) ----

  datatype AgentAction = OpenAgent | ZoomAgent | ApproveAgent | InterruptAgent

  datatype AgentCommand = AgentCommand(sequence: nat, id: AgentId, action: AgentAction, capability: Option<string>)

  datatype Decision = Reject(code: string) | Dispatch(target: AgentTarget, capability: Option<string>)

  function Required(action: AgentAction, actions: AgentActions): Option<Capability> {
    match action
    case ApproveAgent => actions.approve
    case InterruptAgent => actions.interrupt
    case _ => None
  }

  // `validate_command`, `enabled` and `command_capability_matches` together.
  predicate Offered(command: AgentCommand, actions: AgentActions) {
    match command.action
    case OpenAgent => actions.open
    case ZoomAgent => actions.zoom
    case _ =>
      var offer := Required(command.action, actions);
      offer.Some? && command.capability == Some(offer.value.capabilityId)
  }

  function Decide(p: Portal, command: AgentCommand): Decision {
    var guarded := command.action.ApproveAgent? || command.action.InterruptAgent?;
    if guarded != command.capability.Some? then Reject("invalid_command")
    else if command.sequence != p.sequence then Reject("stale_snapshot")
    else
      var card := Find(p.agents, command.id);
      if card.None? then Reject("target_unavailable")
      else if command.id !in p.targets then Reject("session_disconnected")
      else if !Offered(command, card.value.actions) then
        Reject(if guarded then "capability_expired" else "target_unavailable")
      else
        var target := p.targets[command.id];
        if target.T3Target? && !command.action.OpenAgent? then Reject("target_unavailable")
        else Dispatch(target, command.capability)
  }
}
