// The T3 Code adapter (crates/xeneon-agent-core/src/t3code.rs): thread
// classification, the status feed, and the bounded roster built from rows.

module T3Code {
  import opened Optional
  import opened PortalModel
  import opened ReviewLatch

  const MAX_ROSTER := 64
  const SNOOZE_END := "2999-01-01T00:00:00Z"

  datatype TurnRow =
    TurnRow(state: string, requestedAt: string, startedAt: Option<string>, completedAt: Option<string>)

  datatype ThreadRow = ThreadRow(
    threadId: string, pendingApprovals: int, pendingInputs: int, actionablePlan: bool,
    settledAt: Option<string>, snoozedUntil: Option<string>, createdAt: string,
    sessionStatus: Option<string>, lastTurn: Option<TurnRow>, activeWork: bool,
    visitedAt: Option<string>, card: string)

  datatype Classification = Classification(status: AgentStatus, stateChangeSeq: nat, acknowledged: bool)

  // RFC 3339 text to milliseconds; unreadable or negative timestamps are `None`.
  type Timestamps = string -> Option<nat>

  function Parse(ts: Timestamps, value: Option<string>): Option<nat> {
    if value.Some? then ts(value.value) else None
  }

  function OrElse<T>(value: Option<T>, default: T): T {
    if value.Some? then value.value else default
  }

  function TurnStarted(row: ThreadRow, ts: Timestamps): nat {
    var created := OrElse(ts(row.createdAt), 0);
    if row.lastTurn.None? then created
    else
      var turn := row.lastTurn.value;
      var started := Parse(ts, turn.startedAt);
      if started.Some? then started.value else OrElse(ts(turn.requestedAt), created)
  }

  function TurnFinished(row: ThreadRow, ts: Timestamps): nat {
    var completed := if row.lastTurn.Some? then Parse(ts, row.lastTurn.value.completedAt) else None;
    OrElse(completed, TurnStarted(row, ts))
  }

  predicate Visited(row: ThreadRow, ts: Timestamps) {
    var visited := Parse(ts, row.visitedAt);
    visited.Some? && visited.value >= TurnFinished(row, ts)
  }

  function Classify(row: ThreadRow, now: nat, ts: Timestamps): Option<Classification> {
    var snoozed := Parse(ts, row.snoozedUntil);
    var session := OrElse(row.sessionStatus, "stopped");
    var settled := row.settledAt.Some?;
    var created := OrElse(ts(row.createdAt), 0);
    var started := TurnStarted(row, ts);
    var finished := TurnFinished(row, ts);
    if !row.activeWork && row.pendingApprovals == 0 && row.pendingInputs == 0
       && snoozed.Some? && snoozed.value > now then None
    else if session != "running" && session != "ready" && (settled || row.lastTurn.None?) then None
    else if row.pendingApprovals > 0 || row.pendingInputs > 0 || row.actionablePlan then
      Some(Classification(Blocked, started, false))
    else if row.activeWork then Some(Classification(Working, started, false))
    else
      Some(
        match row.lastTurn
        case None =>
          if session == "running" then Classification(Working, created, false)
          else if session == "error" then Classification(Blocked, finished, false)
          else Classification(Idle, created, settled)
        case Some(turn) =>
          if (session == "running" && turn.state == "pending") || turn.state == "running" then
            Classification(Working, started, false)
          else if session == "error" || turn.state == "error" then Classification(Blocked, finished, false)
          else if turn.state == "completed" || turn.state == "interrupted" then
            if settled || Visited(row, ts)
            then Classification(Idle, OrElse(Parse(ts, row.settledAt), finished), true)
            else Classification(Done, finished, false)
          else if session == "running" then Classification(Working, started, false)
          else Classification(Unknown, started, false))
  }

  // ---- What a classification means, for every row ----

  predicate TurnIs(row: ThreadRow, states: set<string>) {
    row.lastTurn.Some? && row.lastTurn.value.state in states
  }

  predicate SessionIs(row: ThreadRow, status: string) {
    row.sessionStatus == Some(status)
  }

  predicate Asks(row: ThreadRow) {
    row.pendingApprovals > 0 || row.pendingInputs > 0 || row.actionablePlan
  }

  // Work goes on: reported as such, in the last turn, or by a running session
  // whose last turn is not known to have ended.
  predicate Works(row: ThreadRow) {
    || row.activeWork
    || TurnIs(row, {"running"})
    || (SessionIs(row, "running") && !TurnIs(row, {"error", "completed", "interrupted"}))
  }

  predicate Failed(row: ThreadRow) {
    !Works(row) && (SessionIs(row, "error") || TurnIs(row, {"error"}))
  }

  predicate Ended(row: ThreadRow) {
    !Works(row) && !Failed(row) && TurnIs(row, {"completed", "interrupted"})
  }

  // Snoozed and quiet, or settled or never used without a live session.
  predicate Hidden(row: ThreadRow, now: nat, ts: Timestamps) {
    || (!row.activeWork && row.pendingApprovals == 0 && row.pendingInputs == 0
        && row.snoozedUntil.Some? && ts(row.snoozedUntil.value).Some? && ts(row.snoozedUntil.value).value > now)
    || (!SessionIs(row, "running") && !SessionIs(row, "ready") && (row.settledAt.Some? || row.lastTurn.None?))
  }

  // The first readable time of several, or 0.
  function FirstTime(ts: Timestamps, texts: seq<Option<string>>): nat {
    if texts == [] then 0
    else if texts[0].Some? && ts(texts[0].value).Some? then ts(texts[0].value).value
    else FirstTime(ts, texts[1..])
  }

  function StartTexts(row: ThreadRow): seq<Option<string>> {
    if row.lastTurn.None? then [Some(row.createdAt)]
    else [row.lastTurn.value.startedAt, Some(row.lastTurn.value.requestedAt), Some(row.createdAt)]
  }

  function EndTexts(row: ThreadRow): seq<Option<string>> {
    (if row.lastTurn.None? then [] else [row.lastTurn.value.completedAt]) + StartTexts(row)
  }

  // Settled, or visited when the last turn had ended.
  predicate Reviewed(row: ThreadRow, ts: Timestamps) {
    || row.settledAt.Some?
    || (row.visitedAt.Some? && ts(row.visitedAt.value).Some?
        && ts(row.visitedAt.value).value >= FirstTime(ts, EndTexts(row)))
  }

  lemma TimesMeaning(row: ThreadRow, ts: Timestamps)
    ensures TurnStarted(row, ts) == FirstTime(ts, StartTexts(row))
    ensures TurnFinished(row, ts) == FirstTime(ts, EndTexts(row))
    ensures OrElse(Parse(ts, row.settledAt), TurnFinished(row, ts)) == FirstTime(ts, [row.settledAt] + EndTexts(row))
  {
    StartTime(row, ts);
    if row.lastTurn.Some? {
      FirstTimeUnfolds(ts, row.lastTurn.value.completedAt, StartTexts(row));
    } else {
      assert EndTexts(row) == StartTexts(row);
    }
    FirstTimeUnfolds(ts, row.settledAt, EndTexts(row));
  }

  lemma StartTime(row: ThreadRow, ts: Timestamps)
    ensures TurnStarted(row, ts) == FirstTime(ts, StartTexts(row))
  {
    FirstTimeUnfolds(ts, Some(row.createdAt), []);
    if row.lastTurn.Some? {
      var turn := row.lastTurn.value;
      FirstTimeUnfolds(ts, turn.startedAt, [Some(turn.requestedAt), Some(row.createdAt)]);
      FirstTimeUnfolds(ts, Some(turn.requestedAt), [Some(row.createdAt)]);
    }
  }

  lemma FirstTimeUnfolds(ts: Timestamps, text: Option<string>, rest: seq<Option<string>>)
    ensures FirstTime(ts, [text] + rest)
      == if text.Some? && ts(text.value).Some? then ts(text.value).value else FirstTime(ts, rest)
    ensures [text] + [] == [text] && (rest != [] ==> [text] + rest == [text, rest[0]] + rest[1..])
  {
    assert ([text] + rest)[1..] == rest;
  }

  // Every thread row: whether it is shown, as what, since when, and whether
  // that counts as reviewed. A question outranks work, work outranks failure.
  lemma ThreadMeaning(row: ThreadRow, now: nat, ts: Timestamps)
    ensures var c := Classify(row, now, ts);
      && (c.None? <==> Hidden(row, now, ts))
      && (c.Some? ==>
            && (c.value.status.Blocked? <==> Asks(row) || Failed(row))
            && (c.value.status.Working? <==> !Asks(row) && Works(row))
            && (c.value.status.Done? <==> !Asks(row) && Ended(row) && !Reviewed(row, ts))
            && (c.value.status.Idle? <==>
                  !Asks(row) && !Works(row) && !Failed(row)
                  && (row.lastTurn.None? || (Ended(row) && Reviewed(row, ts))))
            && (c.value.acknowledged <==>
                  c.value.status.Idle? && if row.lastTurn.None? then row.settledAt.Some? else Reviewed(row, ts)))
  {
    TimesMeaning(row, ts);
  }

  lemma ThreadSequence(row: ThreadRow, now: nat, ts: Timestamps)
    requires !Hidden(row, now, ts)
    ensures Classify(row, now, ts).Some?
    ensures Classify(row, now, ts).value.stateChangeSeq
      == if Asks(row) || Works(row) || (!Failed(row) && !Ended(row)) then FirstTime(ts, StartTexts(row))
         else if Ended(row) && Reviewed(row, ts) then FirstTime(ts, [row.settledAt] + EndTexts(row))
         else FirstTime(ts, EndTexts(row))
  {
    TimesMeaning(row, ts);
    ThreadMeaning(row, now, ts);
  }

  // ---- The status feed ----

  datatype StatusThread = StatusThread(
    threadId: string, status: string, settled: bool, snoozed: bool, pendingInput: bool,
    backgroundWork: bool, updatedAt: string, latestRunCompletedAt: Option<string>,
    lastVisitedAt: Option<string>, card: string)

  predicate FeedActive(t: StatusThread) {
    || t.backgroundWork
    || t.status in ["working", "running", "preparing", "starting", "waiting", "queued"]
  }

  function FeedTurnState(status: string): string {
    if status in ["failed", "error", "blocked"] then "error"
    else if status in ["working", "running", "preparing", "starting", "waiting"] then "running"
    else if status in ["completed", "idle", "done"] then "completed"
    else if status in ["interrupted", "cancelled"] then "interrupted"
    else if status == "queued" then "pending"
    else "unknown"
  }

  function FeedRow(t: StatusThread): ThreadRow {
    ThreadRow(
      t.threadId, 0, if t.pendingInput then 1 else 0, false,
      if t.settled then Some(t.updatedAt) else None,
      if t.snoozed then Some(SNOOZE_END) else None,
      t.updatedAt, Some("ready"),
      if t.status == "idle" && t.latestRunCompletedAt.None? then None
      else Some(TurnRow(FeedTurnState(t.status), t.updatedAt, None, t.latestRunCompletedAt)),
      FeedActive(t), t.lastVisitedAt, t.card)
  }

  // What a feed thread becomes, through both translations: it is hidden exactly
  // while snoozed and quiet, a pending input always outranks activity, and every
  // recognised quiet status has one meaning.
  lemma FeedThreadMeaning(t: StatusThread, now: nat, ts: Timestamps)
    requires ts(SNOOZE_END).Some? && ts(SNOOZE_END).value > now
    ensures var c := Classify(FeedRow(t), now, ts);
      var quiet := !t.pendingInput && !FeedActive(t);
      var finished := quiet && (t.status in ["completed", "done", "interrupted", "cancelled"]
                                || (t.status == "idle" && t.latestRunCompletedAt.Some?));
      var reviewed := t.settled || Visited(FeedRow(t), ts);
      && (c.None? <==> quiet && t.snoozed)
      && (c.Some? ==>
            && (c.value.status.Blocked? <==> t.pendingInput || (quiet && t.status in ["failed", "error", "blocked"]))
            && (c.value.status.Working? <==> !t.pendingInput && FeedActive(t))
            && (c.value.status.Done? <==> finished && !reviewed)
            && (c.value.status.Idle? <==> (finished && reviewed) || (quiet && t.status == "idle" && !finished))
            && (c.value.acknowledged <==> c.value.status.Idle? && reviewed && (finished || t.settled)))
  {
    var row := FeedRow(t);
    assert OrElse(row.sessionStatus, "stopped") == "ready";
    assert row.lastTurn.Some? ==> row.lastTurn.value.state == FeedTurnState(t.status);
  }

  // Only an idle card can carry a recorded human acknowledgement.
  lemma AcknowledgedIsIdle(row: ThreadRow, now: nat, ts: Timestamps)
    ensures var c := Classify(row, now, ts); c.Some? && c.value.acknowledged ==> c.value.status.Idle?
  {
  }

  // ---- The bounded roster ----

  datatype SessionState = Connected | Stale | Incompatible | Offline

  datatype T3Observation =
    T3Observation(session: SessionState, agents: seq<AgentView>, targets: Targets, projection: Option<nat>)

  // Rows that classify, in order.
  function Shown(rows: seq<ThreadRow>, now: nat, ts: Timestamps): seq<ThreadRow> {
    if rows == [] then []
    else
      var earlier := Shown(rows[..|rows| - 1], now, ts);
      if Classify(rows[|rows| - 1], now, ts).Some? then earlier + [rows[|rows| - 1]] else earlier
  }

  lemma {:induction false} ShownClassify(rows: seq<ThreadRow>, now: nat, ts: Timestamps)
    ensures forall r :: r in Shown(rows, now, ts) ==> r in rows && Classify(r, now, ts).Some?
  {
    if rows != [] {
      ShownClassify(rows[..|rows| - 1], now, ts);
    }
  }

  // The first MAX_ROSTER of them.
  function Roster(rows: seq<ThreadRow>, now: nat, ts: Timestamps): seq<ThreadRow> {
    var shown := Shown(rows, now, ts);
    if |shown| <= MAX_ROSTER then shown else shown[..MAX_ROSTER]
  }

  lemma {:induction false} ShownGrows(rows: seq<ThreadRow>, n: nat, now: nat, ts: Timestamps)
    requires n <= |rows|
    ensures Shown(rows[..n], now, ts) <= Shown(rows, now, ts)
  {
    if n == |rows| {
      assert rows[..n] == rows;
    } else {
      var m := |rows| - 1;
      assert rows[..m][..n] == rows[..n];
      ShownGrows(rows[..m], n, now, ts);
    }
  }

  function ClassOf(row: ThreadRow, now: nat, ts: Timestamps): Classification {
    OrElse(Classify(row, now, ts), Classification(Unknown, 0, false))
  }

  function RowCard(row: ThreadRow, c: Classification, order: nat): AgentView {
    AgentView(T3Thread(row.threadId), c.status, false, T3_SESSION, false, 0, c.stateChangeSeq, order,
              AgentActions(true, false, None, None), row.card)
  }

  function RowTarget(row: ThreadRow, c: Classification): AgentTarget {
    T3Target(row.threadId, c.stateChangeSeq, c.acknowledged)
  }

  function RowTargets(roster: seq<ThreadRow>, now: nat, ts: Timestamps): Targets {
    if roster == [] then map[]
    else
      var r := roster[|roster| - 1];
      RowTargets(roster[..|roster| - 1], now, ts)[T3Thread(r.threadId) := RowTarget(r, ClassOf(r, now, ts))]
  }

  predicate DistinctThreads(rows: seq<ThreadRow>) {
    forall i, j :: 0 <= i < j < |rows| ==> rows[i].threadId != rows[j].threadId
  }

  lemma {:induction false} ShownDistinct(rows: seq<ThreadRow>, now: nat, ts: Timestamps)
    requires DistinctThreads(rows)
    ensures DistinctThreads(Shown(rows, now, ts))
  {
    if rows != [] {
      var n := |rows| - 1;
      var earlier := Shown(rows[..n], now, ts);
      ShownDistinct(rows[..n], now, ts);
      ShownClassify(rows[..n], now, ts);
      forall r | r in earlier ensures r.threadId != rows[n].threadId {
        assert r in rows[..n];
      }
    }
  }

  // What the runtime relies on.
  predicate T3Contract(o: T3Observation) {
    && DistinctIds(o.agents)
    && o.targets.Keys == Ids(o.agents)
    && (!o.session.Connected? ==> o.agents == [])
    && (forall i :: 0 <= i < |o.agents| ==>
          var a := o.agents[i];
          && a.sourceOrder == i && a.id.T3Thread? && a.session == T3_SESSION && !a.focused && !a.reviewReady
          && o.targets[a.id].T3Target?
          && o.targets[a.id].StateChangeSeq() == a.stateChangeSeq
          && (o.targets[a.id].Acknowledged() ==> a.status.Idle?))
  }

  lemma ShownNext(rows: seq<ThreadRow>, n: nat, now: nat, ts: Timestamps)
    requires n < |rows|
    ensures Shown(rows[..n + 1], now, ts)
      == Shown(rows[..n], now, ts) + if Classify(rows[n], now, ts).Some? then [rows[n]] else []
  {
    assert rows[..n + 1][..n] == rows[..n];
  }

  lemma TargetsNext(roster: seq<ThreadRow>, row: ThreadRow, now: nat, ts: Timestamps)
    ensures RowTargets(roster + [row], now, ts)
      == RowTargets(roster, now, ts)[T3Thread(row.threadId) := RowTarget(row, ClassOf(row, now, ts))]
  {
    assert (roster + [row])[..|roster|] == roster;
  }

  // The roster is the first MAX_ROSTER rows that classify, in row order.
  method ObservationFromRows(rows: seq<ThreadRow>, now: nat, ts: Timestamps, projection: Option<nat>)
      returns (o: T3Observation)
    ensures o.session == Connected && o.projection == projection
    ensures var roster := Roster(rows, now, ts);
      && |o.agents| == |roster|
      && (forall i :: 0 <= i < |roster| ==> o.agents[i] == RowCard(roster[i], ClassOf(roster[i], now, ts), i))
      && o.targets == RowTargets(roster, now, ts)
  {
    var agents: seq<AgentView>, targets: Targets := [], map[];
    ghost var roster: seq<ThreadRow> := [];
    var n := 0;
    while n < |rows|
      invariant 0 <= n <= |rows| && |agents| == |roster| <= MAX_ROSTER
      invariant roster == Shown(rows[..n], now, ts)
      invariant forall i :: 0 <= i < |roster| ==> agents[i] == RowCard(roster[i], ClassOf(roster[i], now, ts), i)
      invariant targets == RowTargets(roster, now, ts)
    {
      if |agents| >= MAX_ROSTER {
        break;
      }
      var classified := Classify(rows[n], now, ts);
      ShownNext(rows, n, now, ts);
      if classified.Some? {
        targets := targets[T3Thread(rows[n].threadId) := RowTarget(rows[n], classified.value)];
        agents := agents + [RowCard(rows[n], classified.value, |agents|)];
        TargetsNext(roster, rows[n], now, ts);
        roster := roster + [rows[n]];
      }
      n := n + 1;
    }
    ShownGrows(rows, n, now, ts);
    assert rows[..|rows|] == rows;
    assert roster == Roster(rows, now, ts);
    o := T3Observation(Connected, agents, targets, projection);
  }

  lemma {:induction false} TargetOfRow(roster: seq<ThreadRow>, now: nat, ts: Timestamps, i: nat)
    requires DistinctThreads(roster) && i < |roster|
    ensures Lookup(RowTargets(roster, now, ts), T3Thread(roster[i].threadId))
            == Some(RowTarget(roster[i], ClassOf(roster[i], now, ts)))
  {
    var n := |roster| - 1;
    if i < n {
      assert roster[i].threadId != roster[n].threadId;
      TargetOfRow(roster[..n], now, ts, i);
    }
  }

  lemma {:induction false} TargetKeys(roster: seq<ThreadRow>, now: nat, ts: Timestamps, id: AgentId)
    requires id in RowTargets(roster, now, ts)
    ensures exists i :: 0 <= i < |roster| && id == T3Thread(roster[i].threadId)
  {
    var n := |roster| - 1;
    if id != T3Thread(roster[n].threadId) {
      TargetKeys(roster[..n], now, ts, id);
      var i :| 0 <= i < n && id == T3Thread(roster[..n][i].threadId);
      assert roster[i].threadId == roster[..n][i].threadId;
    }
  }

  lemma RosterDistinct(rows: seq<ThreadRow>, now: nat, ts: Timestamps)
    requires DistinctThreads(rows)
    ensures DistinctThreads(Roster(rows, now, ts))
  {
    ShownDistinct(rows, now, ts);
  }

  lemma CardsMeetContract(roster: seq<ThreadRow>, classes: seq<Classification>, o: T3Observation)
    requires DistinctThreads(roster) && o.session == Connected && |o.agents| == |roster| == |classes|
    requires forall i :: 0 <= i < |roster| ==> classes[i].acknowledged ==> classes[i].status.Idle?
    requires forall i :: 0 <= i < |roster| ==> o.agents[i] == RowCard(roster[i], classes[i], i)
    requires forall i :: 0 <= i < |roster| ==>
        Lookup(o.targets, T3Thread(roster[i].threadId)) == Some(RowTarget(roster[i], classes[i]))
    requires forall id :: id in o.targets ==> exists i :: 0 <= i < |roster| && id == T3Thread(roster[i].threadId)
    ensures T3Contract(o)
  {
    forall id ensures id in o.targets <==> id in Ids(o.agents) {
      if id in o.targets {
        var i :| 0 <= i < |roster| && id == T3Thread(roster[i].threadId);
        assert o.agents[i] in o.agents;
      }
      if id in Ids(o.agents) {
        var i :| 0 <= i < |o.agents| && o.agents[i].id == id;
        assert Lookup(o.targets, T3Thread(roster[i].threadId)).Some?;
      }
    }
  }

  // Distinct threads make an observation the runtime can rely on.
  lemma RosterMeetsContract(rows: seq<ThreadRow>, now: nat, ts: Timestamps, o: T3Observation)
    requires DistinctThreads(rows) && o.session == Connected
    requires var roster := Roster(rows, now, ts);
      && |o.agents| == |roster|
      && (forall i :: 0 <= i < |roster| ==> o.agents[i] == RowCard(roster[i], ClassOf(roster[i], now, ts), i))
      && o.targets == RowTargets(roster, now, ts)
    ensures T3Contract(o)
  {
    var roster := Roster(rows, now, ts);
    RosterDistinct(rows, now, ts);
    var classes := seq(|roster|, i requires 0 <= i < |roster| => ClassOf(roster[i], now, ts));
    forall i | 0 <= i < |roster|
      ensures classes[i].acknowledged ==> classes[i].status.Idle?
      ensures Lookup(o.targets, T3Thread(roster[i].threadId)) == Some(RowTarget(roster[i], classes[i]))
    {
      AcknowledgedIsIdle(roster[i], now, ts);
      TargetOfRow(roster, now, ts, i);
    }
    forall id | id in o.targets ensures exists i :: 0 <= i < |roster| && id == T3Thread(roster[i].threadId) {
      TargetKeys(roster, now, ts, id);
    }
    CardsMeetContract(roster, classes, o);
  }

  // Card i is that of row i of the roster, as classified: it can be opened, and
  // its target says whether it was reviewed.
  lemma RosterCards(rows: seq<ThreadRow>, now: nat, ts: Timestamps, o: T3Observation, i: nat)
    requires DistinctThreads(rows) && o.targets == RowTargets(Roster(rows, now, ts), now, ts)
    requires i < |Roster(rows, now, ts)| == |o.agents|
    requires var row := Roster(rows, now, ts)[i]; o.agents[i] == RowCard(row, ClassOf(row, now, ts), i)
    ensures var a, row, c := o.agents[i], Roster(rows, now, ts)[i], Classify(Roster(rows, now, ts)[i], now, ts);
      && c.Some? && a.status == c.value.status && a.stateChangeSeq == c.value.stateChangeSeq
      && a.id == T3Thread(row.threadId) && a.card == row.card
      && a.actions.open && !a.actions.zoom && a.actions.approve.None? && a.actions.interrupt.None?
      && Lookup(o.targets, a.id) == Some(T3Target(row.threadId, a.stateChangeSeq, c.value.acknowledged))
  {
    var roster := Roster(rows, now, ts);
    ShownClassify(rows, now, ts);
    assert roster[i] in Shown(rows, now, ts);
    RosterDistinct(rows, now, ts);
    TargetOfRow(roster, now, ts, i);
  }

  // It has the first 64 of the rows that are not hidden, in their order.
  lemma RosterIsBounded(rows: seq<ThreadRow>, now: nat, ts: Timestamps)
    ensures var roster, shown := Roster(rows, now, ts), Shown(rows, now, ts);
      && roster <= shown && |roster| == (if |shown| < 64 then |shown| else 64)
      && forall r :: r in shown <==> r in rows && !Hidden(r, now, ts)
  {
    ShownExactly(rows, now, ts);
  }

  lemma {:induction false} ShownExactly(rows: seq<ThreadRow>, now: nat, ts: Timestamps)
    ensures forall r :: r in Shown(rows, now, ts) <==> r in rows && !Hidden(r, now, ts)
  {
    if rows != [] {
      var n := |rows| - 1;
      ShownExactly(rows[..n], now, ts);
      ThreadMeaning(rows[n], now, ts);
      assert rows == rows[..n] + [rows[n]];
    }
  }

  // A feed thread dates from its update while it goes on or asks, and from the
  // end of its latest run, if that is known, once it has ended.
  lemma FeedSequence(t: StatusThread, now: nat, ts: Timestamps)
    ensures var c, row := Classify(FeedRow(t), now, ts), FeedRow(t);
      var updated := FirstTime(ts, [Some(t.updatedAt)]);
      var ended := FirstTime(ts, [t.latestRunCompletedAt, Some(t.updatedAt)]);
      && (c.Some? && (t.pendingInput || FeedActive(t)) ==> c.value.stateChangeSeq == updated)
      && (c.Some? && c.value.status.Done? ==> c.value.stateChangeSeq == ended)
      && (c.Some? && c.value.status.Blocked? && !t.pendingInput ==> c.value.stateChangeSeq == ended)
  {
    ThreadMeaning(FeedRow(t), now, ts);
    FeedTimes(t, ts);
    if !Hidden(FeedRow(t), now, ts) {
      ThreadSequence(FeedRow(t), now, ts);
    }
  }

  lemma FeedTimes(t: StatusThread, ts: Timestamps)
    ensures FirstTime(ts, StartTexts(FeedRow(t))) == FirstTime(ts, [Some(t.updatedAt)])
    ensures FeedRow(t).lastTurn.Some? ==>
      FirstTime(ts, EndTexts(FeedRow(t))) == FirstTime(ts, [t.latestRunCompletedAt, Some(t.updatedAt)])
  {
    var text := Some(t.updatedAt);
    FirstTimeUnfolds(ts, text, []);
    FirstTimeUnfolds(ts, text, [text]);
    FirstTimeUnfolds(ts, None, [text, text]);
    FirstTimeUnfolds(ts, t.latestRunCompletedAt, [text]);
    FirstTimeUnfolds(ts, t.latestRunCompletedAt, [None, text, text]);
  }
}
