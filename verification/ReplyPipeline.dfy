// One portal connection (`handle_client_inner`,
// crates/xeneon-agent-core/src/runtime.rs): a command loop and a writer joined
// by a channel of capacity one, racing with snapshot updates and disconnects.

module ReplyPipeline {
  import opened Optional

  type Line = string

  datatype Loop = Running | Ended(clean: bool)

  datatype Writer = Writing | WriteFailed | Closed

  // A reply is represented by the line it answers. `sent` and `started` record
  // every line the client wrote and every line whose command began.
  datatype Pipe = Pipe(
    sent: seq<Line>, unread: seq<Line>, halfClosed: bool, started: seq<Line>,
    inFlight: Option<Line>, settled: Option<Line>, channel: seq<Line>, received: seq<Line>,
    commands: Loop, writer: Writer, stopping: bool)

  const CONNECTED := Pipe([], [], false, [], None, None, [], [], Running, Writing, false)

  datatype Step =
    | ClientSends(line: Line)
    | ClientHalfCloses
    | NextLine
    | ReadFails
    | CommandSettles
    | Enqueue
    | WriteUpdate(ok: bool)
    | WriteReply(ok: bool)
    | WriterCloses
    | SignalStop

  predicate AtLoopTop(p: Pipe) {
    p.commands.Running? && p.inFlight.None? && p.settled.None?
  }

  function Do(p: Pipe, step: Step): Pipe {
    match step
    case ClientSends(line) => if p.halfClosed then p else p.(sent := p.sent + [line], unread := p.unread + [line])
    case ClientHalfCloses => p.(halfClosed := true)
    case NextLine =>
      // The biased select looks at the stop signal before the next line.
      if !AtLoopTop(p) then p
      else if p.stopping then p.(commands := Ended(true))
      else if p.unread != [] then
        p.(inFlight := Some(p.unread[0]), started := p.started + [p.unread[0]], unread := p.unread[1..])
      else if p.halfClosed then p.(commands := Ended(true))
      else p
    case ReadFails => if AtLoopTop(p) && !p.stopping then p.(commands := Ended(false)) else p
    case CommandSettles => if p.inFlight.Some? then p.(inFlight := None, settled := p.inFlight) else p
    case Enqueue =>
      if p.settled.None? then p
      else if p.stopping then p.(settled := None, commands := Ended(true))
      else if p.channel == [] then p.(settled := None, channel := [p.settled.value])
      else p
    case WriteUpdate(ok) => if p.writer.Writing? && !ok then p.(writer := WriteFailed) else p
    case WriteReply(ok) =>
      if !p.writer.Writing? || p.channel == [] then p
      else if ok then p.(channel := p.channel[1..], received := p.received + [p.channel[0]])
      else p.(channel := p.channel[1..], writer := WriteFailed)
    case WriterCloses =>
      if p.writer.Writing? && p.commands.Ended? && p.channel == [] then p.(writer := Closed) else p
    case SignalStop => if p.writer.WriteFailed? then p.(stopping := true, channel := []) else p
  }

  function After(p: Pipe, steps: seq<Step>): Pipe {
    if steps == [] then p else Do(After(p, steps[..|steps| - 1]), steps[|steps| - 1])
  }

  // The handler returns when both halves have.
  predicate Returned(p: Pipe) {
    p.commands.Ended? && !p.writer.Writing?
  }

  function Optionally(x: Option<Line>): seq<Line> {
    if x.Some? then [x.value] else []
  }

  // Replies on their way to the client, oldest first.
  function Pending(p: Pipe): seq<Line> {
    p.channel + Optionally(p.settled) + Optionally(p.inFlight)
  }

  predicate Sound(p: Pipe) {
    && p.sent == p.started + p.unread
    && p.received <= p.started
    && (!p.writer.WriteFailed? ==> p.started == p.received + Pending(p))
    && |p.channel| <= 1
    && (p.inFlight.Some? ==> p.settled.None? && p.commands.Running?)
    && (p.settled.Some? ==> p.commands.Running?)
    && (p.stopping ==> p.writer.WriteFailed?)
    && (p.writer.Closed? ==> p.commands.Ended? && p.channel == [])
    && (p.commands == Ended(true) && !p.stopping && p.writer != WriteFailed ==> p.unread == [] && p.halfClosed)
  }

  lemma PrefixExtends(a: seq<Line>, b: seq<Line>, c: seq<Line>)
    requires a <= b
    ensures a <= b + c
  {
  }

  lemma NextLineKeeps(p: Pipe)
    requires Sound(p)
    ensures Sound(Do(p, NextLine))
  {
    if AtLoopTop(p) && !p.stopping && p.unread != [] {
      assert p.unread == [p.unread[0]] + p.unread[1..];
      assert Do(p, NextLine).started + p.unread[1..] == p.sent;
      PrefixExtends(p.received, p.started, [p.unread[0]]);
    }
  }

  lemma WriteReplyKeeps(p: Pipe, ok: bool)
    requires Sound(p)
    ensures Sound(Do(p, WriteReply(ok)))
  {
    if p.writer.Writing? && p.channel != [] {
      assert p.channel == [p.channel[0]] + p.channel[1..];
      var q := Do(p, WriteReply(ok));
      if ok {
        assert q.received + Pending(q) == p.received + Pending(p);
      }
    }
  }

  lemma ClientSendsKeeps(p: Pipe, line: Line)
    requires Sound(p)
    ensures Sound(Do(p, ClientSends(line)))
  {
    assert p.started + (p.unread + [line]) == p.sent + [line];
  }

  lemma CommandSettlesKeeps(p: Pipe)
    requires Sound(p)
    ensures Sound(Do(p, CommandSettles))
  {
    assert Pending(Do(p, CommandSettles)) == Pending(p);
  }

  lemma EnqueueKeeps(p: Pipe)
    requires Sound(p)
    ensures Sound(Do(p, Enqueue))
  {
    assert !p.stopping ==> Pending(Do(p, Enqueue)) == Pending(p);
  }

  lemma OtherKeeps(p: Pipe, step: Step)
    requires Sound(p) && !step.NextLine? && !step.WriteReply? && !step.ClientSends? && !step.CommandSettles?
      && !step.Enqueue?
    ensures Sound(Do(p, step))
  {
  }

  lemma NothingIsTakenBack(p: Pipe, step: Step)
    ensures p.received <= Do(p, step).received && p.sent <= Do(p, step).sent
  {
  }

  lemma StepKeeps(p: Pipe, step: Step)
    requires Sound(p)
    ensures Sound(Do(p, step))
    ensures p.received <= Do(p, step).received && p.sent <= Do(p, step).sent
  {
    NothingIsTakenBack(p, step);
    match step
    case NextLine => NextLineKeeps(p);
    case WriteReply(ok) => WriteReplyKeeps(p, ok);
    case ClientSends(line) => ClientSendsKeeps(p, line);
    case CommandSettles => CommandSettlesKeeps(p);
    case Enqueue => EnqueueKeeps(p);
    case _ => OtherKeeps(p, step);
  }

  lemma {:induction false} RunKeeps(steps: seq<Step>)
    ensures Sound(After(CONNECTED, steps))
  {
    if steps != [] {
      RunKeeps(steps[..|steps| - 1]);
      StepKeeps(After(CONNECTED, steps[..|steps| - 1]), steps[|steps| - 1]);
    }
  }

  // In every interleaving the replies received answer the first lines sent, in
  // order.
  lemma RepliesAreAPrefix(steps: seq<Step>)
    ensures var p := After(CONNECTED, steps); p.received <= p.started <= p.sent
  {
    RunKeeps(steps);
  }

  // A half-closed connection whose reads and writes all succeed answers every line.
  lemma HalfCloseLosesNothing(steps: seq<Step>)
    requires var p := After(CONNECTED, steps); p.commands == Ended(true) && p.writer.Closed?
    ensures var p := After(CONNECTED, steps); p.received == p.sent
  {
    RunKeeps(steps);
  }

  // However it returns, no command of this client is left running.
  lemma ReturnsSettled(steps: seq<Step>)
    requires Returned(After(CONNECTED, steps))
    ensures After(CONNECTED, steps).inFlight.None? && After(CONNECTED, steps).settled.None?
  {
    RunKeeps(steps);
  }

  lemma StoppedStays(p: Pipe, step: Step)
    requires p.stopping
    ensures Do(p, step).stopping && Do(p, step).started == p.started
  {
  }

  // Once a write failure has been signalled, no command starts.
  lemma {:induction false} NothingStartsAfterStop(steps: seq<Step>, n: nat)
    requires n <= |steps| && After(CONNECTED, steps[..n]).stopping
    ensures After(CONNECTED, steps).stopping
    ensures After(CONNECTED, steps).started == After(CONNECTED, steps[..n]).started
  {
    if n == |steps| {
      assert steps[..n] == steps;
    } else {
      var m := |steps| - 1;
      assert steps[..m][..n] == steps[..n];
      NothingStartsAfterStop(steps[..m], n);
      StoppedStays(After(CONNECTED, steps[..m]), steps[m]);
    }
  }

  // ---- A half-closed connection never sticks ----

  function Work(p: Pipe): nat {
    5 * |p.unread| + (if p.inFlight.Some? then 4 else 0) + (if p.settled.Some? then 3 else 0) + 2 * |p.channel|
    + (if p.commands.Running? then 1 else 0) + (if p.writer.Writing? then 1 else 0)
  }

  // A half-closed connection without a failure so far.
  predicate Draining(p: Pipe) {
    p.halfClosed && !p.writer.WriteFailed? && p.commands != Ended(false)
  }

  predicate Fails(step: Step) {
    step.ReadFails? || step == WriteUpdate(false) || step == WriteReply(false)
  }

  // Steps without failures, each of which changes something.
  predicate Effective(p: Pipe, steps: seq<Step>)
    decreases |steps|
  {
    steps == [] || (!Fails(steps[0]) && Do(p, steps[0]) != p && Effective(Do(p, steps[0]), steps[1..]))
  }

  ghost predicate Stuck(p: Pipe) {
    forall step :: Fails(step) || Do(p, step) == p
  }

  function NextInternal(p: Pipe): Step {
    if p.channel != [] then WriteReply(true)
    else if p.settled.Some? then Enqueue
    else if p.inFlight.Some? then CommandSettles
    else if p.commands.Running? then NextLine
    else WriterCloses
  }

  lemma {:induction false} HalfClosedDrains(p: Pipe) returns (steps: seq<Step>)
    requires Sound(p) && Draining(p)
    ensures var q := After(p, steps); Returned(q) && q.sent == p.sent && q.received == q.sent
    decreases Work(p)
  {
    if p.commands.Ended? && p.writer.Closed? {
      steps := [];
    } else {
      var step := NextInternal(p);
      var q := Do(p, step);
      StepKeeps(p, step);
      assert Work(q) < Work(p);
      var rest := HalfClosedDrains(q);
      steps := [step] + rest;
      AfterFirst(p, step, rest);
    }
  }

  lemma EffectiveStepWorks(p: Pipe, step: Step)
    requires Sound(p) && Draining(p) && !Fails(step) && Do(p, step) != p
    ensures Draining(Do(p, step)) && Do(p, step).sent == p.sent && Work(Do(p, step)) < Work(p)
  {
  }

  lemma StuckMeansReturned(p: Pipe)
    requires Sound(p) && Draining(p)
    ensures Stuck(p) <==> Returned(p)
  {
    if !Returned(p) {
      var step := NextInternal(p);
      assert !Fails(step) && Work(Do(p, step)) < Work(p);
    }
  }

  // No schedule sticks: whatever is scheduled, a half-closed connection has no
  // more than `Work` effective steps, and when none is left every line is answered.
  lemma {:induction false} EveryScheduleDrains(p: Pipe, steps: seq<Step>)
    requires Sound(p) && Draining(p) && Effective(p, steps)
    ensures var q := After(p, steps);
      && |steps| + Work(q) <= Work(p)
      && (Stuck(q) <==> Returned(q))
      && (Returned(q) ==> q.sent == p.sent && q.received == q.sent)
    decreases |steps|
  {
    if steps == [] {
      StuckMeansReturned(p);
    } else {
      var step, rest := steps[0], steps[1..];
      StepKeeps(p, step);
      EffectiveStepWorks(p, step);
      EveryScheduleDrains(Do(p, step), rest);
      assert steps == [step] + rest;
      AfterFirst(p, step, rest);
    }
  }

  // ---- Neither does one that fails ----

  // Steps of the handler itself that bring no new failure.
  predicate Ours(step: Step) {
    !Fails(step) && !step.ClientSends? && !step.ClientHalfCloses?
  }

  function WorkLeft(p: Pipe): nat {
    Work(p) + if p.writer.WriteFailed? && !p.stopping then 1 else 0
  }

  predicate Ending(p: Pipe) {
    p.halfClosed || p.writer.WriteFailed? || p.commands.Ended?
  }

  // Once the client has half-closed, or a read or a write failed, the handler's
  // own steps are bounded, and it returns before they run out.
  lemma EndingEnds(p: Pipe, step: Step)
    requires Sound(p) && Ending(p) && Ours(step)
    ensures Ending(Do(p, step))
    ensures Do(p, step) != p ==> WorkLeft(Do(p, step)) < WorkLeft(p)
  {
  }

  lemma NothingLeftMeansReturned(p: Pipe)
    requires Sound(p) && Ending(p) && forall step :: Ours(step) ==> Do(p, step) == p
    ensures Returned(p)
  {
    assert Ours(NextInternal(p)) && Ours(SignalStop) && Ours(WriterCloses) && Ours(NextLine);
    assert Ours(Enqueue) && Ours(CommandSettles);
    if p.writer.WriteFailed? {
      assert Do(p, SignalStop) == p;
      assert Do(p, Enqueue) == p && Do(p, CommandSettles) == p && Do(p, NextLine) == p;
    } else {
      assert Do(p, NextInternal(p)) == p;
    }
  }

  lemma {:induction false} AfterFirst(p: Pipe, step: Step, rest: seq<Step>)
    ensures After(p, [step] + rest) == After(Do(p, step), rest)
  {
    var steps := [step] + rest;
    if rest == [] {
      assert steps[..0] == [];
    } else {
      assert steps[..|steps| - 1] == [step] + rest[..|rest| - 1];
      AfterFirst(p, step, rest[..|rest| - 1]);
    }
  }
}
