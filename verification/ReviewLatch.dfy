// The review-ready latch: `apply_agent_observations` and `next_review_ready`
// (crates/xeneon-agent-core/src/runtime.rs), proved to implement a statement
// about each card's whole observation history.

module ReviewLatch {
  import opened Optional
  import opened PortalModel

  const T3_SESSION := "t3code"

  datatype AgentTarget =
    | HerdrTarget(herdrSession: string, pane: string, herdrSeq: nat, revision: nat)
    | T3Target(threadId: string, t3Seq: nat, settled: bool)
  {
    function Session(): string {
      if HerdrTarget? then herdrSession else T3_SESSION
    }

    function StateChangeSeq(): nat {
      if HerdrTarget? then herdrSeq else t3Seq
    }

    predicate Acknowledged() {
      T3Target? && settled
    }
  }

  type Targets = map<AgentId, AgentTarget>

  datatype Observed = Observed(status: AgentStatus, stateChangeSeq: nat, since: nat, reviewReady: bool)

  type Latches = map<AgentId, Observed>

  type Focus = map<string, Option<AgentId>>

  datatype Memory = Memory(observed: Latches, focused: Focus)

  // ---- Specification of one reconciliation ----

  function NextReviewReady(previous: Option<Observed>, current: AgentStatus): bool {
    match current
    case Done => true
    case Idle => previous.Some? && (previous.value.reviewReady || previous.value.status.Working?)
    case _ => false
  }

  function Settle(previous: Option<Observed>, status: AgentStatus, sequence: nat, cleared: bool, now: nat): Observed {
    var same := previous.Some? && previous.value.status == status && previous.value.stateChangeSeq == sequence;
    var ready := if same then previous.value.reviewReady else NextReviewReady(previous, status);
    Observed(status, sequence, if same then previous.value.since else now, ready && !cleared)
  }

  // Whole seconds from `since` to `now`, both in milliseconds.
  function Elapsed(since: nat, now: nat): nat {
    if since <= now then (now - since) / 1000 else 0
  }

  lemma ElapsedMeaning(since: nat, now: nat)
    ensures since <= now ==> 1000 * Elapsed(since, now) <= now - since < 1000 * Elapsed(since, now) + 1000
    ensures since > now ==> Elapsed(since, now) == 0
  {
  }

  function Show(a: AgentView, o: Option<Observed>, now: nat): AgentView {
    if o.Some? then a.(reviewReady := o.value.reviewReady, observedFor := Elapsed(o.value.since, now)) else a
  }

  function ConnectedSessions(targets: Targets): set<string> {
    set id | id in targets :: targets[id].Session()
  }

  function CurrentFocus(agents: seq<AgentView>, targets: Targets): Focus
    decreases |agents|
  {
    if agents == [] then map s | s in ConnectedSessions(targets) :: None
    else
      var focus := CurrentFocus(agents[..|agents| - 1], targets);
      var a := agents[|agents| - 1];
      if a.id in targets && a.focused then focus[targets[a.id].Session() := Some(a.id)] else focus
  }

  predicate Refocused(before: Focus, current: Focus, s: string) {
    s in before && s in current && before[s] != current[s] && current[s].Some?
  }

  function FocusAcknowledgements(before: Focus, current: Focus): set<AgentId> {
    set s | s in current && Refocused(before, current, s) :: current[s].value
  }

  function SettleCard(a: AgentView, targets: Targets, seen: Latches, acks: set<AgentId>, now: nat): Option<Observed> {
    if a.id in targets then
      var t := targets[a.id];
      Some(Settle(Lookup(seen, a.id), a.status, t.StateChangeSeq(), a.id in acks || t.Acknowledged(), now))
    else Lookup(seen, a.id)
  }

  function SettleAll(agents: seq<AgentView>, targets: Targets, seen: Latches, acks: set<AgentId>, now: nat):
      (r: (seq<AgentView>, Latches))
    ensures |r.0| == |agents|
    decreases |agents|
  {
    if agents == [] then ([], seen)
    else
      var before := SettleAll(agents[..|agents| - 1], targets, seen, acks, now);
      var a := agents[|agents| - 1];
      var o := SettleCard(a, targets, before.1, acks, now);
      (before.0 + [Show(a, o, now)],
       if a.id in targets then before.1[a.id := o.value] else before.1)
  }

  function Retain(seen: Latches, ids: set<AgentId>): Latches {
    map id | id in seen && id in ids :: seen[id]
  }

  function Apply(agents: seq<AgentView>, targets: Targets, memory: Memory, now: nat): (seq<AgentView>, Memory) {
    var focus := CurrentFocus(agents, targets);
    var acks := FocusAcknowledgements(memory.focused, focus);
    var settled := SettleAll(agents, targets, memory.observed, acks, now);
    (settled.0, Memory(Retain(settled.1, Ids(agents)), focus))
  }

  // ---- The in-place algorithm ----

  lemma {:induction false} FocusKeys(agents: seq<AgentView>, targets: Targets)
    ensures CurrentFocus(agents, targets).Keys == ConnectedSessions(targets)
    decreases |agents|
  {
    if agents != [] {
      FocusKeys(agents[..|agents| - 1], targets);
    }
  }

  class AttentionMemory {
    var observed: Latches
    var focused: Focus

    function Value(): Memory
      reads this
    {
      Memory(observed, focused)
    }

    constructor ()
      ensures Value() == Memory(map[], map[])
    {
      observed, focused := map[], map[];
    }

    method Clear()
      modifies this
      ensures Value() == Memory(map[], map[])
    {
      observed, focused := map[], map[];
    }

    // One pass over the current focus, in no particular order.
    method AcknowledgeFocus(current: Focus) returns (acks: set<AgentId>)
      modifies this`focused
      ensures acks == FocusAcknowledgements(old(focused), current)
      ensures focused == current
    {
      var before := focused;
      acks := {};
      var todo := current.Keys;
      while todo != {}
        invariant todo <= current.Keys
        invariant forall s :: s in todo ==> (s in focused <==> s in before) && (s in before ==> focused[s] == before[s])
        invariant forall s :: s in current.Keys - todo ==> s in focused && focused[s] == current[s]
        invariant acks == set s | s in current && s !in todo && Refocused(before, current, s) :: current[s].value
      {
        var s :| s in todo;
        ghost var done := todo;
        if s in focused && focused[s] != current[s] && current[s].Some? {
          acks := acks + {current[s].value};
        }
        focused := focused[s := current[s]];
        todo := todo - {s};
        assert forall x :: x !in todo <==> x !in done || x == s;
      }
      focused := map s | s in focused && s in current :: focused[s];
    }

    static method ReadFocus(agents: array<AgentView>, targets: Targets) returns (current: Focus)
      ensures current == CurrentFocus(agents[..], targets)
    {
      current := map s | s in ConnectedSessions(targets) :: None;
      for i := 0 to agents.Length
        invariant current == CurrentFocus(agents[..i], targets)
      {
        assert agents[..i + 1][..i] == agents[..i];
        if agents[i].id in targets && agents[i].focused {
          current := current[targets[agents[i].id].Session() := Some(agents[i].id)];
        }
      }
      assert agents[..agents.Length] == agents[..];
    }

    method SettleCards(agents: array<AgentView>, targets: Targets, acks: set<AgentId>, now: nat)
      modifies this`observed, agents
      ensures (agents[..], observed) == SettleAll(old(agents[..]), targets, old(observed), acks, now)
    {
      ghost var a0, seen := agents[..], observed;
      for i := 0 to agents.Length
        invariant (agents[..i], observed) == SettleAll(a0[..i], targets, seen, acks, now)
        invariant agents[i..] == a0[i..]
      {
        var a := agents[i];
        assert a == agents[i..][0] == a0[i];
        SettleAllStep(a0, i, targets, seen, acks, now);
        var o := SettleCard(a, targets, observed, acks, now);
        agents[i] := Show(a, o, now);
        if a.id in targets {
          observed := observed[a.id := o.value];
        }
        assert agents[..i + 1] == agents[..i] + [agents[i]];
        assert agents[i + 1..] == a0[i + 1..];
      }
      assert agents[..agents.Length] == agents[..] && a0[..agents.Length] == a0;
    }

    method ApplyAgentObservations(agents: array<AgentView>, targets: Targets, now: nat)
      modifies this, agents
      ensures (agents[..], Value()) == Apply(old(agents[..]), targets, old(Value()), now)
    {
      var current := ReadFocus(agents, targets);
      var acks := AcknowledgeFocus(current);
      SettleCards(agents, targets, acks, now);
      SameIds(old(agents[..]), targets, old(observed), acks, now);
      observed := Retain(observed, Ids(agents[..]));
    }
  }

  lemma SettleAllStep(agents: seq<AgentView>, i: nat, targets: Targets, seen: Latches, acks: set<AgentId>, now: nat)
    requires i < |agents|
    ensures var before := SettleAll(agents[..i], targets, seen, acks, now);
      var o := SettleCard(agents[i], targets, before.1, acks, now);
      SettleAll(agents[..i + 1], targets, seen, acks, now)
      == (before.0 + [Show(agents[i], o, now)],
          if agents[i].id in targets then before.1[agents[i].id := o.value] else before.1)
  {
    assert agents[..i + 1][..i] == agents[..i];
  }

  lemma {:induction false} SameIds(
      agents: seq<AgentView>, targets: Targets, seen: Latches, acks: set<AgentId>, now: nat)
    ensures forall i :: 0 <= i < |agents| ==> SettleAll(agents, targets, seen, acks, now).0[i].id == agents[i].id
    ensures Ids(SettleAll(agents, targets, seen, acks, now).0) == Ids(agents)
    decreases |agents|
  {
    var r := SettleAll(agents, targets, seen, acks, now).0;
    if agents != [] {
      SameIds(agents[..|agents| - 1], targets, seen, acks, now);
    }
    forall id ensures id in Ids(r) <==> id in Ids(agents) {
      if id in Ids(r) {
        var i :| 0 <= i < |r| && r[i].id == id;
        assert agents[i] in agents;
      }
      if id in Ids(agents) {
        var i :| 0 <= i < |agents| && agents[i].id == id;
        assert r[i] in r;
      }
    }
  }

  // ---- Cards do not interfere ----

  lemma {:induction false} OthersUntouched(
      agents: seq<AgentView>, targets: Targets, seen: Latches, acks: set<AgentId>, now: nat, id: AgentId)
    requires id !in Ids(agents)
    ensures Lookup(SettleAll(agents, targets, seen, acks, now).1, id) == Lookup(seen, id)
    decreases |agents|
  {
    if agents != [] {
      var n := |agents| - 1;
      assert agents[n] in agents;
      forall a | a in agents[..n] ensures a.id != id {
        assert a in agents;
      }
      OthersUntouched(agents[..n], targets, seen, acks, now, id);
    }
  }

  lemma {:induction false} SettleIsPerCard(
      agents: seq<AgentView>, targets: Targets, seen: Latches, acks: set<AgentId>, now: nat, i: nat)
    requires DistinctIds(agents) && i < |agents|
    ensures var r := SettleAll(agents, targets, seen, acks, now);
      var o := SettleCard(agents[i], targets, seen, acks, now);
      r.0[i] == Show(agents[i], o, now) && Lookup(r.1, agents[i].id) == o
    decreases |agents|
  {
    var n := |agents| - 1;
    if i < n {
      SettleIsPerCard(agents[..n], targets, seen, acks, now, i);
    } else {
      OthersUntouched(agents[..n], targets, seen, acks, now, agents[n].id);
    }
  }

  // What one reconciliation says about one card.
  datatype CardEvent =
    | Seen(status: AgentStatus, sequence: nat, cleared: bool, now: nat)
    | Unseen
    | Opened
    | Left

  function Remembered(previous: Option<Observed>, event: CardEvent): Option<Observed> {
    match event
    case Seen(status, sequence, cleared, now) => Some(Settle(previous, status, sequence, cleared, now))
    case Unseen => previous
    case Opened => if previous.Some? then Some(previous.value.(reviewReady := false)) else None
    case Left => None
  }

  function Find(agents: seq<AgentView>, id: AgentId): (r: Option<AgentView>)
    ensures r.Some? <==> id in Ids(agents)
    ensures r.Some? ==> r.value in agents && r.value.id == id
  {
    if agents == [] then None
    else if agents[0].id == id then Some(agents[0])
    else Find(agents[1..], id)
  }

  function EventFor(id: AgentId, agents: seq<AgentView>, targets: Targets, focused: Focus, now: nat): CardEvent {
    var found := Find(agents, id);
    if found.None? then Left
    else if id !in targets then Unseen
    else
      var acks := FocusAcknowledgements(focused, CurrentFocus(agents, targets));
      Seen(found.value.status, targets[id].StateChangeSeq(), id in acks || targets[id].Acknowledged(), now)
  }

  // A reconciliation is one event per card; the published card shows what is
  // then remembered of it, and a card never observed is published unchanged.
  lemma ApplyIsPerCard(agents: seq<AgentView>, targets: Targets, memory: Memory, now: nat)
    requires DistinctIds(agents)
    ensures var r := Apply(agents, targets, memory, now);
      && |r.0| == |agents|
      && (forall id :: Lookup(r.1.observed, id)
                       == Remembered(Lookup(memory.observed, id), EventFor(id, agents, targets, memory.focused, now)))
      && (forall i :: 0 <= i < |agents| ==>
            var o := Lookup(r.1.observed, agents[i].id);
            r.0[i] == Show(agents[i], o, now))
  {
    var acks := FocusAcknowledgements(memory.focused, CurrentFocus(agents, targets));
    var r := Apply(agents, targets, memory, now);
    forall id
      ensures Lookup(r.1.observed, id)
              == Remembered(Lookup(memory.observed, id), EventFor(id, agents, targets, memory.focused, now))
    {
      ApplyRemembers(agents, targets, memory, now, id);
    }
    forall i | 0 <= i < |agents|
      ensures r.0[i] == Show(agents[i], Lookup(r.1.observed, agents[i].id), now)
    {
      assert agents[i] in agents;
      SettleIsPerCard(agents, targets, memory.observed, acks, now, i);
    }
  }

  lemma ApplyRemembers(agents: seq<AgentView>, targets: Targets, memory: Memory, now: nat, id: AgentId)
    requires DistinctIds(agents)
    ensures Lookup(Apply(agents, targets, memory, now).1.observed, id)
      == Remembered(Lookup(memory.observed, id), EventFor(id, agents, targets, memory.focused, now))
  {
    var acks := FocusAcknowledgements(memory.focused, CurrentFocus(agents, targets));
    var found := Find(agents, id);
    if found.Some? {
      var i :| 0 <= i < |agents| && agents[i] == found.value;
      SettleIsPerCard(agents, targets, memory.observed, acks, now, i);
    }
  }

  // ---- The history specification ----

  function Remember(h: seq<CardEvent>): Option<Observed> {
    if h == [] then None else Remembered(Remember(h[..|h| - 1]), h[|h| - 1])
  }

  // Status and sequence of the card's last observation since it entered.
  function LastSeen(h: seq<CardEvent>): Option<(AgentStatus, nat)> {
    if h == [] then None
    else
      match h[|h| - 1]
      case Seen(status, sequence, _, _) => Some((status, sequence))
      case Left => None
      case _ => LastSeen(h[..|h| - 1])
  }

  predicate Changes(h: seq<CardEvent>, i: nat)
    requires i < |h|
  {
    h[i].Seen? && LastSeen(h[..i]) != Some((h[i].status, h[i].sequence))
  }

  predicate Arms(h: seq<CardEvent>, i: nat)
    requires i < |h|
  {
    && Changes(h, i)
    && (|| h[i].status.Done?
        || (h[i].status.Idle? && LastSeen(h[..i]).Some? && LastSeen(h[..i]).value.0.Working?))
  }

  predicate Clears(h: seq<CardEvent>, j: nat)
    requires j < |h|
  {
    || h[j].Opened?
    || (h[j].Seen? && (h[j].cleared || (Changes(h, j) && !h[j].status.Done? && !h[j].status.Idle?)))
  }

  // Observation i armed the latch during the current stay on the roster, and
  // nothing at or after i cleared it.
  ghost predicate ArmedSince(h: seq<CardEvent>, i: int) {
    && 0 <= i < |h| && Arms(h, i)
    && forall j :: i <= j < |h| ==> !h[j].Left? && !Clears(h, j)
  }

  // Observation k began the current run of unchanged observations.
  ghost predicate RunBegan(h: seq<CardEvent>, k: int) {
    && 0 <= k < |h| && Changes(h, k)
    && forall j :: k < j < |h| ==> !h[j].Left? && !Changes(h, j)
  }

  lemma PrefixAgrees(h: seq<CardEvent>, i: nat)
    requires h != [] && i < |h| - 1
    ensures var p := h[..|h| - 1];
      p[i] == h[i] && Changes(h, i) == Changes(p, i) && Arms(h, i) == Arms(p, i) && Clears(h, i) == Clears(p, i)
  {
    assert h[..|h| - 1][..i] == h[..i];
  }

  lemma ArmedStep(h: seq<CardEvent>, i: int)
    requires h != []
    ensures var n := |h| - 1;
      ArmedSince(h, i) <==>
      !h[n].Left? && !Clears(h, n) && if i == n then Arms(h, n) else ArmedSince(h[..n], i)
  {
    var n := |h| - 1;
    forall j: nat | j < n
      ensures h[..n][j] == h[j] && Arms(h, j) == Arms(h[..n], j) && Clears(h, j) == Clears(h[..n], j)
    {
      PrefixAgrees(h, j);
    }
    if 0 <= i < n && ArmedSince(h, i) {
      forall j: nat | i <= j < n ensures !h[..n][j].Left? && !Clears(h[..n], j) {
        assert !h[j].Left? && !Clears(h, j);
      }
    }
  }

  lemma RunStep(h: seq<CardEvent>, k: int)
    requires h != []
    ensures var n := |h| - 1;
      RunBegan(h, k) <==>
      if k == n then Changes(h, n) else RunBegan(h[..n], k) && !h[n].Left? && !Changes(h, n)
  {
    var n := |h| - 1;
    forall j: nat | j < n ensures h[..n][j] == h[j] && Changes(h, j) == Changes(h[..n], j) {
      PrefixAgrees(h, j);
    }
    if 0 <= k < n && RunBegan(h, k) {
      forall j: nat | k < j < n ensures !h[..n][j].Left? && !Changes(h[..n], j) {
        assert !h[j].Left? && !Changes(h, j);
      }
    }
  }

  lemma {:induction false} RememberIsLastSeen(h: seq<CardEvent>)
    ensures Remember(h).Some? <==> LastSeen(h).Some?
    ensures Remember(h).Some? ==> LastSeen(h).value == (Remember(h).value.status, Remember(h).value.stateChangeSeq)
  {
    if h != [] {
      RememberIsLastSeen(h[..|h| - 1]);
    }
  }

  // The latch is exactly the history statement.
  lemma {:induction false} LatchHistory(h: seq<CardEvent>)
    ensures (Remember(h).Some? && Remember(h).value.reviewReady) <==> exists i :: ArmedSince(h, i)
  {
    if h != [] {
      var n := |h| - 1;
      LatchHistory(h[..n]);
      RememberIsLastSeen(h[..n]);
      ArmedStep(h, n);
      if i :| ArmedSince(h, i) {
        ArmedStep(h, i);
      }
      if i :| ArmedSince(h[..n], i) {
        ArmedStep(h, i);
      }
    }
  }

  // `since` is when the current unchanged run began.
  lemma {:induction false} SinceHistory(h: seq<CardEvent>) returns (k: int)
    requires Remember(h).Some?
    ensures RunBegan(h, k) && Remember(h).value.since == h[k].now
  {
    var n := |h| - 1;
    RememberIsLastSeen(h[..n]);
    if Changes(h, n) {
      k := n;
    } else {
      k := SinceHistory(h[..n]);
    }
    RunStep(h, k);
  }

  // ---- Whole runs ----

  datatype Operation =
    | Reconcile(agents: seq<AgentView>, targets: Targets, now: nat)
    | Open(id: AgentId)
    | SwitchManager

  function Perform(memory: Memory, op: Operation): Memory {
    match op
    case Reconcile(agents, targets, now) => Apply(agents, targets, memory, now).1
    case Open(id) => memory.(observed := Unlatch(memory.observed, id))
    case SwitchManager => Memory(map[], map[])
  }

  function Unlatch(seen: Latches, id: AgentId): Latches {
    if id in seen then seen[id := seen[id].(reviewReady := false)] else seen
  }

  function MemoryAfter(ops: seq<Operation>): Memory {
    if ops == [] then Memory(map[], map[]) else Perform(MemoryAfter(ops[..|ops| - 1]), ops[|ops| - 1])
  }

  // ---- What a history says about focus, read off the rosters alone ----

  predicate FocusedFor(a: AgentView, targets: Targets, session: string) {
    a.id in targets && a.focused && targets[a.id].Session() == session
  }

  // The last focused card that routes to the session.
  ghost predicate FocusIs(agents: seq<AgentView>, targets: Targets, session: string, id: AgentId) {
    exists i :: 0 <= i < |agents| && agents[i].id == id && FocusedFor(agents[i], targets, session)
      && forall j :: i < j < |agents| ==> !FocusedFor(agents[j], targets, session)
  }

  // The latest reconciliation since the last manager switch.
  function LastReconcile(ops: seq<Operation>): Option<Operation>
    ensures var r := LastReconcile(ops); r.Some? ==> r.value.Reconcile?
  {
    if ops == [] then None
    else
      match ops[|ops| - 1]
      case Reconcile(_, _, _) => Some(ops[|ops| - 1])
      case Open(_) => LastReconcile(ops[..|ops| - 1])
      case SwitchManager => None
  }

  predicate HasSession(targets: Targets, session: string) {
    exists id :: id in targets && targets[id].Session() == session
  }

  // A focus transition to this card: its session had a target in the previous
  // reconciliation too, where another card or none had the focus.
  ghost predicate NewlyFocused(earlier: seq<Operation>, op: Operation, id: AgentId)
    requires op.Reconcile?
  {
    var last := LastReconcile(earlier);
    && id in op.targets && last.Some?
    && var session := op.targets[id].Session();
    && FocusIs(op.agents, op.targets, session, id)
    && HasSession(last.value.targets, session)
    && !FocusIs(last.value.agents, last.value.targets, session, id)
  }

  ghost function EventOf(id: AgentId, earlier: seq<Operation>, op: Operation): CardEvent {
    match op
    case Reconcile(agents, targets, now) =>
      var found := Find(agents, id);
      if found.None? then Left
      else if id !in targets then Unseen
      else
        Seen(found.value.status, targets[id].StateChangeSeq(),
          NewlyFocused(earlier, op, id) || targets[id].Acknowledged(), now)
    case Open(which) => if which == id then Opened else Unseen
    case SwitchManager => Left
  }

  ghost function HistoryOf(id: AgentId, ops: seq<Operation>): seq<CardEvent> {
    if ops == [] then []
    else HistoryOf(id, ops[..|ops| - 1]) + [EventOf(id, ops[..|ops| - 1], ops[|ops| - 1])]
  }

  ghost predicate DistinctRosters(ops: seq<Operation>) {
    forall i :: 0 <= i < |ops| && ops[i].Reconcile? ==> DistinctIds(ops[i].agents)
  }

  // ---- The remembered focus is the one the history shows ----

  lemma {:induction false} CurrentFocusMeaning(agents: seq<AgentView>, targets: Targets, session: string, id: AgentId)
    ensures session in CurrentFocus(agents, targets) <==> HasSession(targets, session)
    ensures Lookup(CurrentFocus(agents, targets), session) == Some(Some(id)) <==> FocusIs(agents, targets, session, id)
    decreases |agents|
  {
    FocusKeys(agents, targets);
    if agents != [] {
      var n := |agents| - 1;
      CurrentFocusMeaning(agents[..n], targets, session, id);
      FocusIsLast(agents, targets, session, id);
    }
  }

  lemma FocusIsLast(agents: seq<AgentView>, targets: Targets, session: string, id: AgentId)
    requires agents != []
    ensures var n := |agents| - 1;
      FocusIs(agents, targets, session, id) <==>
      if FocusedFor(agents[n], targets, session) then agents[n].id == id else FocusIs(agents[..n], targets, session, id)
  {
    var n := |agents| - 1;
    if FocusIs(agents[..n], targets, session, id) && !FocusedFor(agents[n], targets, session) {
      var i :| 0 <= i < n && agents[..n][i].id == id && FocusedFor(agents[..n][i], targets, session)
        && forall j :: i < j < n ==> !FocusedFor(agents[..n][j], targets, session);
      forall j | i < j < |agents| ensures !FocusedFor(agents[j], targets, session) {
        assert j < n ==> agents[..n][j] == agents[j];
      }
      assert agents[i].id == id;
    }
    if FocusIs(agents, targets, session, id) && !FocusedFor(agents[n], targets, session) {
      var i :| 0 <= i < |agents| && agents[i].id == id && FocusedFor(agents[i], targets, session)
        && forall j :: i < j < |agents| ==> !FocusedFor(agents[j], targets, session);
      assert agents[..n][i] == agents[i];
    }
  }

  // The daemon remembers the focus of the latest reconciliation since a switch.
  lemma {:induction false} FocusIsHistory(ops: seq<Operation>)
    ensures var last := LastReconcile(ops);
      MemoryAfter(ops).focused == if last.Some? then CurrentFocus(last.value.agents, last.value.targets) else map[]
  {
    if ops != [] {
      FocusIsHistory(ops[..|ops| - 1]);
    }
  }

  lemma AcknowledgedMeansNewlyFocused(ops: seq<Operation>, op: Operation, id: AgentId)
    requires op.Reconcile?
    ensures id in FocusAcknowledgements(MemoryAfter(ops).focused, CurrentFocus(op.agents, op.targets))
      <==> NewlyFocused(ops, op, id)
  {
    FocusIsHistory(ops);
    var before, current := MemoryAfter(ops).focused, CurrentFocus(op.agents, op.targets);
    var last := LastReconcile(ops);
    forall session
      ensures Lookup(current, session) == Some(Some(id)) <==> FocusIs(op.agents, op.targets, session, id)
      ensures last.Some? ==> (session in before <==> HasSession(last.value.targets, session))
      ensures last.Some? ==>
        (Lookup(before, session) == Some(Some(id)) <==> FocusIs(last.value.agents, last.value.targets, session, id))
    {
      CurrentFocusMeaning(op.agents, op.targets, session, id);
      if last.Some? {
        CurrentFocusMeaning(last.value.agents, last.value.targets, session, id);
      }
    }
    if id in FocusAcknowledgements(before, current) {
      var session :| session in current && Refocused(before, current, session) && current[session].value == id;
      assert Lookup(current, session) == Some(Some(id));
    }
    if NewlyFocused(ops, op, id) {
      var session := op.targets[id].Session();
      assert Lookup(current, session) == Some(Some(id));
      assert Refocused(before, current, session);
    }
  }

  // Merely remaining focused clears nothing, and neither does the first focus
  // seen after a switch or after the session was away.
  lemma RemainingFocusedNeverClears(id: AgentId, ops: seq<Operation>, op: Operation)
    requires op.Reconcile? && id in op.targets
    requires var session, last := op.targets[id].Session(), LastReconcile(ops);
      || last.None? || !HasSession(last.value.targets, session)
      || FocusIs(last.value.agents, last.value.targets, session, id)
    ensures id !in FocusAcknowledgements(MemoryAfter(ops).focused, CurrentFocus(op.agents, op.targets))
    ensures EventOf(id, ops, op).Seen? ==> EventOf(id, ops, op).cleared == op.targets[id].Acknowledged()
  {
    AcknowledgedMeansNewlyFocused(ops, op, id);
  }

  lemma {:induction false} MemoryIsHistory(id: AgentId, ops: seq<Operation>)
    requires DistinctRosters(ops)
    ensures Lookup(MemoryAfter(ops).observed, id) == Remember(HistoryOf(id, ops))
  {
    if ops != [] {
      var n := |ops| - 1;
      MemoryIsHistory(id, ops[..n]);
      var h := HistoryOf(id, ops);
      assert h[..|h| - 1] == HistoryOf(id, ops[..n]);
      if ops[n].Reconcile? {
        ApplyIsPerCard(ops[n].agents, ops[n].targets, MemoryAfter(ops[..n]), ops[n].now);
        AcknowledgedMeansNewlyFocused(ops[..n], ops[n], id);
      }
    }
  }

  // After any run, every card's latch is what its history says.
  lemma LatchRefinesHistory(id: AgentId, ops: seq<Operation>)
    requires DistinctRosters(ops)
    ensures var m := MemoryAfter(ops).observed;
      (id in m && m[id].reviewReady) <==> exists i :: ArmedSince(HistoryOf(id, ops), i)
  {
    MemoryIsHistory(id, ops);
    LatchHistory(HistoryOf(id, ops));
  }
}
