// The ordering command as a sequence of answers from the Herdr sessions
// (`process_agent_order_command`, crates/xeneon-agent-core/src/runtime.rs).
// Everything between two awaits is one move; other sections run in between.

module OrderProtocol {
  import opened Optional
  import opened PortalModel

  // The mode each running session holds.
  type Modes = map<string, OrderMode>

  type Priors = seq<(string, OrderMode)>

  datatype OrderEnd = Published | Withdrawn | Untouched

  // What the command awaits, with its locals.
  datatype OrderPhase =
    | Locating
    | Reading(names: seq<string>, priors: Priors)
    | Setting(names: seq<string>, priors: Priors, next: nat, attempted: Priors)
    | Undoing(priors: Priors, attempted: Priors, left: nat, compensated: bool)
    | Checking(priors: Priors, next: nat, compensated: bool)
    | Settled(end: OrderEnd, reached: set<string>)

  // A SET that is not answered may still have been applied.
  datatype OrderMove =
    | DiscoveryAnswers(names: Option<seq<string>>)
    | GetAnswers(answered: bool)
    | SetAnswers(applied: bool, answered: bool)

  predicate Truthful(move: OrderMove) {
    move.SetAnswers? && move.answered ==> move.applied
  }

  function NamesOf(priors: Priors): set<string> {
    set p | p in priors :: p.0
  }

  function Applied(modes: Modes, name: string, mode: OrderMode, applied: bool): Modes {
    if applied && name in modes then modes[name := mode] else modes
  }

  // `mode` is asked for, `held` is what was published when the command began.
  function Move(mode: OrderMode, held: OrderMode, phase: OrderPhase, modes: Modes, move: OrderMove):
      (OrderPhase, Modes)
  {
    match (phase, move)
    case (Locating, DiscoveryAnswers(names)) =>
      (if names.None? || names.value == [] then Settled(Untouched, {}) else Reading(names.value, []), modes)
    case (Reading(names, priors), GetAnswers(answered)) => (Read(held, names, priors, modes, answered), modes)
    case (Setting(names, priors, next, attempted), SetAnswers(applied, answered)) =>
      if next >= |priors| then (Settled(Published, set n | n in names), modes)
      else if priors[next].1 == mode then (Setting(names, priors, next + 1, attempted), modes)
      else
        var name, tried := priors[next].0, attempted + [priors[next]];
        (if answered && name in modes then Setting(names, priors, next + 1, tried)
         else Undoing(priors, tried, |tried|, true),
         Applied(modes, name, mode, applied))
    case (Undoing(priors, attempted, left, compensated), SetAnswers(applied, answered)) =>
      if left == 0 || left > |attempted| then (Checking(priors, 0, compensated), modes)
      else
        var p := attempted[left - 1];
        (Undoing(priors, attempted, left - 1, compensated && answered && p.0 in modes),
         Applied(modes, p.0, p.1, applied))
    case (Checking(priors, next, compensated), GetAnswers(answered)) =>
      if next >= |priors| then (Settled(if compensated then Untouched else Withdrawn, {}), modes)
      else
        var p := priors[next];
        (Checking(priors, next + 1, compensated && answered && Lookup(modes, p.0) == Some(p.1)), modes)
    case _ => (phase, modes)
  }

  function Read(held: OrderMode, names: seq<string>, priors: Priors, modes: Modes, answered: bool): OrderPhase {
    if |priors| >= |names| then Reading(names, priors)
    else
      var name := names[|priors|];
      if !answered || name !in modes then Settled(Untouched, {})
      else
        var read := priors + [(name, modes[name])];
        if |read| < |names| then Reading(names, read)
        else if exists i :: 0 <= i < |read| && read[i].1 != held then Settled(Untouched, {})
        else Setting(names, read, 0, [])
  }

  // ---- What every move keeps ----

  // Those of these sessions that still run hold the mode.
  predicate Holding(modes: Modes, names: set<string>, mode: OrderMode) {
    forall n :: n in names && n in modes ==> modes[n] == mode
  }

  // Sessions may have ended, but none of these holds another mode than before.
  predicate Unchanged(before: Modes, modes: Modes, except: set<string>) {
    forall n :: n in modes ==> n in before && (n !in except ==> modes[n] == before[n])
  }

  predicate ReadFrom(before: Modes, priors: Priors) {
    forall p :: p in priors ==> p.0 in before && before[p.0] == p.1
  }

  predicate Named(priors: Priors, names: seq<string>) {
    forall k :: 0 <= k < |priors| && k < |names| ==> priors[k].0 == names[k]
  }

  predicate AllWere(priors: Priors, held: OrderMode) {
    forall p :: p in priors ==> p.1 == held
  }

  predicate SetUpTo(modes: Modes, priors: Priors, next: nat, mode: OrderMode) {
    forall k :: 0 <= k < next && k < |priors| && priors[k].0 in modes ==> modes[priors[k].0] == mode
  }

  predicate RestoredUpTo(modes: Modes, priors: Priors, next: nat) {
    forall k :: 0 <= k < next && k < |priors| && priors[k].0 in modes ==> modes[priors[k].0] == priors[k].1
  }

  predicate Tried(priors: Priors, attempted: Priors) {
    forall p :: p in attempted ==> p in priors
  }

  predicate PhaseSound(
      mode: OrderMode, held: OrderMode, phase: OrderPhase, before: Modes, modes: Modes, covered: set<string>) {
    && Holding(before, covered, held)
    && match phase
       case Locating => Unchanged(before, modes, {})
       case Reading(names, priors) =>
         && Unchanged(before, modes, {}) && ReadFrom(before, priors)
         && |priors| <= |names| && Named(priors, names)
       case Setting(names, priors, next, attempted) =>
         && |priors| == |names| && Named(priors, names)
         && Unchanged(before, modes, NamesOf(attempted)) && Tried(priors, attempted)
         && ReadFrom(before, priors) && AllWere(priors, held) && next <= |priors| && SetUpTo(modes, priors, next, mode)
         && (attempted != [] ==> held != mode)
       case Undoing(priors, attempted, left, _) =>
         && Unchanged(before, modes, NamesOf(attempted)) && Tried(priors, attempted)
         && ReadFrom(before, priors) && AllWere(priors, held) && left <= |attempted|
       case Checking(priors, next, compensated) =>
         && Unchanged(before, modes, NamesOf(priors)) && ReadFrom(before, priors) && AllWere(priors, held)
         && next <= |priors| && (compensated ==> RestoredUpTo(modes, priors, next))
       case Settled(end, reached) =>
         && modes.Keys <= before.Keys
         && (end.Published? ==> Holding(modes, reached, mode))
         && (end.Untouched? ==> Unchanged(before, modes, {}))
  }

  lemma UnchangedStillHolds(before: Modes, modes: Modes, covered: set<string>, held: OrderMode)
    requires Holding(before, covered, held) && Unchanged(before, modes, {})
    ensures Holding(modes, covered, held)
  {
  }

  lemma ReadKeeps(mode: OrderMode, held: OrderMode, phase: OrderPhase, before: Modes, modes: Modes,
                  covered: set<string>, answered: bool)
    requires PhaseSound(mode, held, phase, before, modes, covered) && phase.Reading?
    ensures PhaseSound(mode, held, Read(held, phase.names, phase.priors, modes, answered), before, modes, covered)
  {
    var names, priors := phase.names, phase.priors;
    if |priors| < |names| && answered && names[|priors|] in modes {
      var read := priors + [(names[|priors|], modes[names[|priors|]])];
      assert ReadFrom(before, read);
    }
  }

  lemma AttemptGrows(attempted: Priors, p: (string, OrderMode))
    ensures NamesOf(attempted + [p]) == NamesOf(attempted) + {p.0}
  {
    assert forall q :: q in attempted + [p] <==> q in attempted || q == p;
  }

  lemma SetKeeps(mode: OrderMode, held: OrderMode, phase: OrderPhase, before: Modes, modes: Modes,
                 covered: set<string>, applied: bool, answered: bool)
    requires PhaseSound(mode, held, phase, before, modes, covered) && phase.Setting? && (answered ==> applied)
    ensures var r := Move(mode, held, phase, modes, SetAnswers(applied, answered));
      PhaseSound(mode, held, r.0, before, r.1, covered)
  {
    var priors, next, attempted := phase.priors, phase.next, phase.attempted;
    if next >= |priors| {
      forall n | n in phase.names && n in modes ensures modes[n] == mode {
        var k :| 0 <= k < |priors| && phase.names[k] == n;
        assert priors[k].0 == n;
      }
    } else if priors[next].1 == mode {
      assert priors[next] in priors && attempted == [];
    } else {
      assert priors[next] in priors;
      AttemptGrows(attempted, priors[next]);
    }
  }

  lemma UndoKeeps(mode: OrderMode, held: OrderMode, phase: OrderPhase, before: Modes, modes: Modes,
                  covered: set<string>, applied: bool, answered: bool)
    requires PhaseSound(mode, held, phase, before, modes, covered) && phase.Undoing?
    ensures var r := Move(mode, held, phase, modes, SetAnswers(applied, answered));
      PhaseSound(mode, held, r.0, before, r.1, covered)
  {
    if phase.left > 0 {
      var p := phase.attempted[phase.left - 1];
      assert p in phase.attempted && p.0 in NamesOf(phase.attempted);
    } else {
      assert NamesOf(phase.attempted) <= NamesOf(phase.priors);
    }
  }

  lemma CheckKeeps(mode: OrderMode, held: OrderMode, phase: OrderPhase, before: Modes, modes: Modes,
                   covered: set<string>, answered: bool)
    requires PhaseSound(mode, held, phase, before, modes, covered) && phase.Checking?
    ensures var r := Move(mode, held, phase, modes, GetAnswers(answered));
      PhaseSound(mode, held, r.0, before, r.1, covered)
  {
    if phase.next >= |phase.priors| && phase.compensated {
      forall n | n in modes ensures n in before && modes[n] == before[n] {
        if n in NamesOf(phase.priors) {
          var p :| p in phase.priors && p.0 == n;
          var k :| 0 <= k < |phase.priors| && phase.priors[k] == p;
        }
      }
    }
  }

  lemma MoveKeeps(mode: OrderMode, held: OrderMode, phase: OrderPhase, before: Modes, modes: Modes,
                  covered: set<string>, move: OrderMove)
    requires PhaseSound(mode, held, phase, before, modes, covered) && Truthful(move)
    ensures var r := Move(mode, held, phase, modes, move);
      PhaseSound(mode, held, r.0, before, r.1, covered)
  {
    match (phase, move)
    case (Reading(_, _), GetAnswers(answered)) => ReadKeeps(mode, held, phase, before, modes, covered, answered);
    case (Setting(_, _, _, _), SetAnswers(applied, answered)) =>
      SetKeeps(mode, held, phase, before, modes, covered, applied, answered);
    case (Undoing(_, _, _, _), SetAnswers(applied, answered)) =>
      UndoKeeps(mode, held, phase, before, modes, covered, applied, answered);
    case (Checking(_, _, _), GetAnswers(answered)) => CheckKeeps(mode, held, phase, before, modes, covered, answered);
    case _ =>
  }

  lemma SessionEndKeeps(mode: OrderMode, held: OrderMode, phase: OrderPhase, before: Modes, modes: Modes,
                        covered: set<string>, name: string)
    requires PhaseSound(mode, held, phase, before, modes, covered)
    ensures PhaseSound(mode, held, phase, before, modes - {name}, covered)
  {
  }

  // ---- Whole commands ----

  function AfterMoves(mode: OrderMode, held: OrderMode, phase: OrderPhase, modes: Modes, moves: seq<OrderMove>):
      (OrderPhase, Modes)
  {
    if moves == [] then (phase, modes)
    else
      var n := |moves| - 1;
      var earlier := AfterMoves(mode, held, phase, modes, moves[..n]);
      Move(mode, held, earlier.0, earlier.1, moves[n])
  }

  predicate AllTruthful(moves: seq<OrderMove>) {
    forall i :: 0 <= i < |moves| ==> Truthful(moves[i])
  }

  // Some answers lead from one phase and these modes to another.
  ghost predicate Leads(
      mode: OrderMode, held: OrderMode, phase: OrderPhase, modes: Modes, reached: OrderPhase, left: Modes)
  {
    exists moves :: AllTruthful(moves) && AfterMoves(mode, held, phase, modes, moves) == (reached, left)
  }

  lemma LeadsNowhere(mode: OrderMode, held: OrderMode, phase: OrderPhase, modes: Modes)
    ensures Leads(mode, held, phase, modes, phase, modes)
  {
    assert AllTruthful([]) && AfterMoves(mode, held, phase, modes, []) == (phase, modes);
  }

  lemma LeadsOn(mode: OrderMode, held: OrderMode, phase: OrderPhase, modes: Modes, reached: OrderPhase, left: Modes,
                move: OrderMove)
    requires Leads(mode, held, phase, modes, reached, left) && Truthful(move)
    ensures var r := Move(mode, held, reached, left, move); Leads(mode, held, phase, modes, r.0, r.1)
  {
    var moves :| AllTruthful(moves) && AfterMoves(mode, held, phase, modes, moves) == (reached, left);
    var more := moves + [move];
    assert more[..|more| - 1] == moves;
    assert AllTruthful(more) && AfterMoves(mode, held, phase, modes, more) == Move(mode, held, reached, left, move);
  }

  lemma {:induction false} MovesInTwoParts(mode: OrderMode, held: OrderMode, phase: OrderPhase, modes: Modes,
                                           a: seq<OrderMove>, b: seq<OrderMove>)
    ensures var mid := AfterMoves(mode, held, phase, modes, a);
      AfterMoves(mode, held, phase, modes, a + b) == AfterMoves(mode, held, mid.0, mid.1, b)
  {
    if b == [] {
      assert a + b == a;
    } else {
      assert (a + b)[..|a + b| - 1] == a + b[..|b| - 1];
      MovesInTwoParts(mode, held, phase, modes, a, b[..|b| - 1]);
    }
  }

  lemma LeadsThrough(mode: OrderMode, held: OrderMode, phase: OrderPhase, modes: Modes,
                     mid: OrderPhase, between: Modes, reached: OrderPhase, left: Modes)
    requires Leads(mode, held, phase, modes, mid, between) && Leads(mode, held, mid, between, reached, left)
    ensures Leads(mode, held, phase, modes, reached, left)
  {
    var a :| AllTruthful(a) && AfterMoves(mode, held, phase, modes, a) == (mid, between);
    var b :| AllTruthful(b) && AfterMoves(mode, held, mid, between, b) == (reached, left);
    MovesInTwoParts(mode, held, phase, modes, a, b);
    assert AllTruthful(a + b);
  }

  // One answer in each phase, for the loops that perform them.
  lemma LeadsSet(mode: OrderMode, held: OrderMode, start: OrderPhase, modes: Modes, names: seq<string>, priors: Priors,
                 next: nat, attempted: Priors, left: Modes, applied: bool, ok: bool)
    requires Leads(mode, held, start, modes, Setting(names, priors, next, attempted), left)
    requires next < |priors| && priors[next].1 != mode && (ok ==> applied) && priors[next].0 in left
    ensures var tried := attempted + [priors[next]];
      Leads(mode, held, start, modes,
        if ok then Setting(names, priors, next + 1, tried) else Undoing(priors, tried, |tried|, true),
        Applied(left, priors[next].0, mode, applied))
  {
    LeadsOn(mode, held, start, modes, Setting(names, priors, next, attempted), left, SetAnswers(applied, ok));
  }

  lemma LeadsSkip(mode: OrderMode, held: OrderMode, start: OrderPhase, modes: Modes, names: seq<string>, priors: Priors,
                  next: nat, attempted: Priors, left: Modes)
    requires Leads(mode, held, start, modes, Setting(names, priors, next, attempted), left)
    ensures next < |priors| && priors[next].1 == mode ==>
      Leads(mode, held, start, modes, Setting(names, priors, next + 1, attempted), left)
    ensures next >= |priors| ==> Leads(mode, held, start, modes, Settled(Published, set n | n in names), left)
  {
    LeadsOn(mode, held, start, modes, Setting(names, priors, next, attempted), left, SetAnswers(false, false));
  }

  lemma LeadsUndo(mode: OrderMode, held: OrderMode, start: OrderPhase, modes: Modes, priors: Priors, attempted: Priors,
                  n: nat, compensated: bool, left: Modes, applied: bool, ok: bool)
    requires Leads(mode, held, start, modes, Undoing(priors, attempted, n, compensated), left)
    requires n <= |attempted| && (ok ==> applied) && (n > 0 ==> attempted[n - 1].0 in left)
    ensures n > 0 ==>
      Leads(mode, held, start, modes, Undoing(priors, attempted, n - 1, compensated && ok),
        Applied(left, attempted[n - 1].0, attempted[n - 1].1, applied))
    ensures n == 0 ==> Leads(mode, held, start, modes, Checking(priors, 0, compensated), left)
  {
    LeadsOn(mode, held, start, modes, Undoing(priors, attempted, n, compensated), left, SetAnswers(applied, ok));
  }

  lemma LeadsCheck(mode: OrderMode, held: OrderMode, start: OrderPhase, modes: Modes, priors: Priors,
                   next: nat, compensated: bool, left: Modes, answered: bool)
    requires Leads(mode, held, start, modes, Checking(priors, next, compensated), left)
    ensures next < |priors| ==>
      var same := answered && Lookup(left, priors[next].0) == Some(priors[next].1);
      Leads(mode, held, start, modes, Checking(priors, next + 1, compensated && same), left)
    ensures next >= |priors| ==>
      Leads(mode, held, start, modes, Settled(if compensated then Untouched else Withdrawn, {}), left)
  {
    LeadsOn(mode, held, start, modes, Checking(priors, next, compensated), left, GetAnswers(answered));
  }

  // The names the discovery answered stay what the command is about.
  predicate About(phase: OrderPhase, discovered: seq<string>) {
    match phase
    case Reading(names, _) => names == discovered
    case Setting(names, _, _, _) => names == discovered
    case Settled(Published, reached) => reached == set n | n in discovered
    case _ => true
  }

  function FoundBy(move: OrderMove, phase: OrderPhase, discovered: seq<string>): seq<string> {
    if phase.Locating? && move.DiscoveryAnswers? && move.names.Some? then move.names.value else discovered
  }

  lemma MoveKeepsNames(mode: OrderMode, held: OrderMode, phase: OrderPhase, modes: Modes, move: OrderMove,
                       discovered: seq<string>)
    requires About(phase, discovered)
    ensures About(Move(mode, held, phase, modes, move).0, FoundBy(move, phase, discovered))
  {
  }

  // ---- Commands whose answers are all positive ----

  // The positive answer to what the command awaits.
  function Positive(phase: OrderPhase, names: seq<string>): OrderMove {
    match phase
    case Locating => DiscoveryAnswers(Some(names))
    case Reading(_, _) => GetAnswers(true)
    case Checking(_, _, _) => GetAnswers(true)
    case _ => SetAnswers(true, true)
  }

  function AfterPositive(
      mode: OrderMode, held: OrderMode, phase: OrderPhase, modes: Modes, names: seq<string>, k: nat):
      (OrderPhase, Modes)
    decreases k
  {
    if k == 0 then (phase, modes)
    else
      var next := Move(mode, held, phase, modes, Positive(phase, names));
      AfterPositive(mode, held, next.0, next.1, names, k - 1)
  }

  predicate AllAre(modes: Modes, names: seq<string>, mode: OrderMode) {
    forall k :: 0 <= k < |names| ==> Lookup(modes, names[k]) == Some(mode)
  }

  predicate AllHeldWere(names: seq<string>, priors: Priors, held: OrderMode) {
    |priors| <= |names| && forall k :: 0 <= k < |priors| ==> priors[k] == (names[k], held)
  }

  predicate OnTrack(mode: OrderMode, held: OrderMode, phase: OrderPhase, modes: Modes, names: seq<string>) {
    match phase
    case Locating => AllAre(modes, names, held)
    case Reading(ns, priors) =>
      ns == names && AllHeldWere(names, priors, held) && |priors| < |names| && AllAre(modes, names, held)
    case Setting(ns, priors, next, _) =>
      && ns == names && AllHeldWere(names, priors, held) && next <= |priors| == |names|
      && AllAre(modes, names[..next], mode) && (held == mode ==> AllAre(modes, names, mode))
      && forall k :: 0 <= k < |names| ==> names[k] in modes
    case Settled(end, reached) => end.Published? && reached == (set n | n in names) && AllAre(modes, names, mode)
    case _ => false
  }

  function Remaining(phase: OrderPhase, names: seq<string>): nat {
    match phase
    case Locating => 2 * |names| + 2
    case Reading(_, priors) => if |priors| <= |names| then 2 * |names| - |priors| + 1 else 0
    case Setting(_, priors, next, _) => if next <= |priors| then |priors| - next + 1 else 0
    case _ => 0
  }

  lemma SetStaysOnTrack(mode: OrderMode, held: OrderMode, phase: OrderPhase, modes: Modes, names: seq<string>)
    requires OnTrack(mode, held, phase, modes, names) && phase.Setting?
    ensures var next := Move(mode, held, phase, modes, SetAnswers(true, true));
      OnTrack(mode, held, next.0, next.1, names) && Remaining(next.0, names) == Remaining(phase, names) - 1
  {
    if phase.next < |phase.priors| {
      assert names[..phase.next + 1] == names[..phase.next] + [names[phase.next]];
      assert forall k :: 0 <= k < phase.next ==> names[..phase.next][k] == names[k];
    } else {
      assert names[..phase.next] == names;
    }
  }

  lemma StaysOnTrack(mode: OrderMode, held: OrderMode, phase: OrderPhase, modes: Modes, names: seq<string>)
    requires OnTrack(mode, held, phase, modes, names) && !phase.Settled? && names != []
    ensures var next := Move(mode, held, phase, modes, Positive(phase, names));
      OnTrack(mode, held, next.0, next.1, names) && Remaining(next.0, names) == Remaining(phase, names) - 1
  {
    if phase.Setting? {
      SetStaysOnTrack(mode, held, phase, modes, names);
    }
  }

  lemma {:induction false} TrackEndsPublished(
      mode: OrderMode, held: OrderMode, phase: OrderPhase, modes: Modes, names: seq<string>)
    requires OnTrack(mode, held, phase, modes, names) && names != []
    ensures var end := AfterPositive(mode, held, phase, modes, names, Remaining(phase, names));
      end.0 == Settled(Published, set n | n in names) && AllAre(end.1, names, mode)
    decreases Remaining(phase, names)
  {
    if !phase.Settled? {
      var next := Move(mode, held, phase, modes, Positive(phase, names));
      StaysOnTrack(mode, held, phase, modes, names);
      TrackEndsPublished(mode, held, next.0, next.1, names);
    }
  }

  // A command that discovers running sessions which all hold the published mode,
  // and is answered by each, publishes the mode asked for, and all hold it.
  lemma AnsweredCommandPublishes(mode: OrderMode, held: OrderMode, modes: Modes, names: seq<string>)
    requires names != [] && AllAre(modes, names, held)
    ensures var end := AfterPositive(mode, held, Locating, modes, names, 2 * |names| + 2);
      end.0 == Settled(Published, set n | n in names) && AllAre(end.1, names, mode)
  {
    TrackEndsPublished(mode, held, Locating, modes, names);
  }

  predicate OnUndo(held: OrderMode, phase: OrderPhase, modes: Modes) {
    match phase
    case Undoing(priors, attempted, left, compensated) =>
      && compensated && left <= |attempted| && AllWere(priors, held) && Tried(priors, attempted)
      && forall p :: p in priors ==> p.0 in modes && (modes[p.0] == held || p.0 in NamesOf(attempted[..left]))
    case Checking(priors, next, compensated) =>
      && compensated && next <= |priors| && AllWere(priors, held)
      && forall p :: p in priors ==> Lookup(modes, p.0) == Some(held)
    case Settled(end, _) => end.Untouched?
    case _ => false
  }

  function UndoRemaining(phase: OrderPhase): nat {
    match phase
    case Undoing(priors, _, left, _) => left + |priors| + 2
    case Checking(priors, next, _) => if next <= |priors| then |priors| - next + 1 else 0
    case _ => 0
  }

  lemma StaysOnUndo(mode: OrderMode, held: OrderMode, phase: OrderPhase, modes: Modes)
    requires OnUndo(held, phase, modes) && !phase.Settled?
    ensures var next := Move(mode, held, phase, modes, Positive(phase, []));
      && OnUndo(held, next.0, next.1) && UndoRemaining(next.0) == UndoRemaining(phase) - 1
      && next.1.Keys == modes.Keys
      && (forall n :: n in modes && modes[n] == held ==> next.1[n] == held)
      && (phase.Checking? ==> next.1 == modes)
  {
    match phase
    case Undoing(priors, attempted, left, _) =>
      if left > 0 {
        assert attempted[left - 1] in attempted;
        assert attempted[..left] == attempted[..left - 1] + [attempted[left - 1]];
        AttemptGrows(attempted[..left - 1], attempted[left - 1]);
      } else {
        assert attempted[..left] == [];
      }
    case Checking(priors, next, _) =>
      if next < |priors| {
        assert priors[next] in priors;
      }
  }

  // An undo that every session answers ends with all of them as they were, and
  // does not withdraw the ordering.
  lemma {:induction false} AnsweredUndoRestores(mode: OrderMode, held: OrderMode, phase: OrderPhase, modes: Modes)
    requires OnUndo(held, phase, modes)
    ensures var end := AfterPositive(mode, held, phase, modes, [], UndoRemaining(phase));
      end.0.Settled? && end.0.end.Untouched? && end.1.Keys == modes.Keys
      && (phase.Undoing? ==> forall p :: p in phase.priors ==> Lookup(end.1, p.0) == Some(p.1))
      && (phase.Checking? ==> end.1 == modes)
    decreases UndoRemaining(phase)
  {
    if !phase.Settled? {
      var next := Move(mode, held, phase, modes, Positive(phase, []));
      StaysOnUndo(mode, held, phase, modes);
      AnsweredUndoRestores(mode, held, next.0, next.1);
    }
  }
}
