// The agent-ordering transaction (`process_agent_order_command`,
// crates/xeneon-agent-core/src/runtime.rs): one mode set across every running
// Herdr session, undone on failure, withdrawn when it cannot be undone. The
// methods here are the source's loops; each performs the moves of
// OrderProtocol, whose interleavings with everything else PortalRuns has.

module Ordering {
  import opened Optional
  import opened PortalModel
  import opened ReviewLatch
  import opened T3Code
  import opened HerdrRefresh
  import opened OrderProtocol
  import opened PortalState
  import opened PortalRuns

  // The running Herdr sessions. Any request may fail, and a failed SET may or
  // may not have been applied before its answer was lost.
  class HerdrFleet {
    var modes: Modes

    constructor (modes: Modes)
      ensures this.modes == modes
    {
      this.modes := modes;
    }

    method GetAgentOrder(name: string) returns (answer: Option<OrderMode>)
      ensures answer.Some? ==> answer == Lookup(modes, name)
    {
      answer := None;
      if * {
        answer := Lookup(modes, name);
      }
    }

    method SetAgentOrder(name: string, mode: OrderMode) returns (ok: bool, ghost applied: bool)
      modifies this
      ensures modes == Applied(old(modes), name, mode, applied)
      ensures ok ==> applied && name in modes
    {
      ok, applied := false, false;
      if name in modes {
        var reached: bool := *;
        if reached {
          modes := modes[name := mode];
          applied := true;
          ok := *;
        }
      }
    }
  }

  predicate AllHold(modes: Modes, names: set<string>, mode: OrderMode) {
    forall n :: n in names ==> Lookup(modes, n) == Some(mode)
  }

  predicate HoldEach(modes: Modes, priors: Priors) {
    forall i :: 0 <= i < |priors| ==> Lookup(modes, priors[i].0) == Some(priors[i].1)
  }

  // Only these sessions may differ.
  ghost predicate SameElsewhere(before: Modes, after: Modes, names: set<string>) {
    before.Keys == after.Keys && forall n :: n !in names ==> Lookup(after, n) == Lookup(before, n)
  }

  method ReadPriorModes(fleet: HerdrFleet, names: seq<string>, ghost mode: OrderMode, ghost held: OrderMode)
      returns (priors: Option<Priors>)
    requires names != []
    ensures priors.Some? ==>
      && |priors.value| == |names| && HoldEach(fleet.modes, priors.value)
      && forall i :: 0 <= i < |names| ==> priors.value[i].0 == names[i]
    ensures Leads(mode, held, Reading(names, []), fleet.modes,
      if priors.None? || (exists i :: 0 <= i < |priors.value| && priors.value[i].1 != held) then Settled(Untouched, {})
      else Setting(names, priors.value, 0, []), fleet.modes)
  {
    var read: Priors := [];
    ghost var phase := Reading(names, []);
    LeadsNowhere(mode, held, phase, fleet.modes);
    for i := 0 to |names|
      invariant |read| == i && HoldEach(fleet.modes, read)
      invariant forall k :: 0 <= k < i ==> read[k].0 == names[k]
      invariant Leads(mode, held, Reading(names, []), fleet.modes, phase, fleet.modes)
      invariant phase == if i < |names| then Reading(names, read)
        else if exists k :: 0 <= k < |read| && read[k].1 != held then Settled(Untouched, {})
        else Setting(names, read, 0, [])
    {
      var answer := fleet.GetAgentOrder(names[i]);
      LeadsOn(mode, held, Reading(names, []), fleet.modes, phase, fleet.modes, GetAnswers(answer.Some?));
      if answer.None? {
        return None;
      }
      read := read + [(names[i], answer.value)];
      phase := Read(held, names, phase.priors, fleet.modes, true);
    }
    priors := Some(read);
  }

  method UndoAttempts(
      fleet: HerdrFleet, attempted: Priors, priors: Priors, ghost mode: OrderMode, ghost held: OrderMode)
      returns (compensated: bool)
    requires forall p :: p in attempted ==> p.0 in fleet.modes
    modifies fleet
    ensures SameElsewhere(old(fleet.modes), fleet.modes, NamesOf(attempted))
    ensures Leads(mode, held, Undoing(priors, attempted, |attempted|, true), old(fleet.modes),
      Checking(priors, 0, compensated), fleet.modes)
  {
    compensated := true;
    ghost var start := Undoing(priors, attempted, |attempted|, true);
    LeadsNowhere(mode, held, start, fleet.modes);
    for i := |attempted| downto 0
      invariant SameElsewhere(old(fleet.modes), fleet.modes, NamesOf(attempted))
      invariant Leads(mode, held, start, old(fleet.modes), Undoing(priors, attempted, i, compensated), fleet.modes)
    {
      assert attempted[i] in attempted;
      ghost var before, applied := fleet.modes, false;
      var ok;
      ok, applied := fleet.SetAgentOrder(attempted[i].0, attempted[i].1);
      LeadsUndo(mode, held, start, old(fleet.modes), priors, attempted, i + 1, compensated, before, applied, ok);
      if !ok {
        compensated := false;
      }
    }
    LeadsUndo(mode, held, start, old(fleet.modes), priors, attempted, 0, compensated, fleet.modes, false, false);
  }

  // Sets every attempted session back, newest first, then re-reads them all.
  method Compensate(fleet: HerdrFleet, attempted: Priors, priors: Priors, ghost mode: OrderMode, ghost held: OrderMode)
      returns (compensated: bool)
    requires forall p :: p in attempted ==> p.0 in fleet.modes
    modifies fleet
    ensures compensated ==> HoldEach(fleet.modes, priors)
    ensures SameElsewhere(old(fleet.modes), fleet.modes, NamesOf(attempted))
    ensures Leads(mode, held, Undoing(priors, attempted, |attempted|, true), old(fleet.modes),
      Settled(if compensated then Untouched else Withdrawn, {}), fleet.modes)
  {
    compensated := UndoAttempts(fleet, attempted, priors, mode, held);
    ghost var undone := compensated;
    compensated := Recheck(fleet, priors, compensated, mode, held);
    LeadsThrough(mode, held, Undoing(priors, attempted, |attempted|, true), old(fleet.modes),
      Checking(priors, 0, undone), fleet.modes, Settled(if compensated then Untouched else Withdrawn, {}), fleet.modes);
  }

  method Recheck(fleet: HerdrFleet, priors: Priors, undone: bool, ghost mode: OrderMode, ghost held: OrderMode)
      returns (compensated: bool)
    ensures compensated ==> HoldEach(fleet.modes, priors)
    ensures Leads(mode, held, Checking(priors, 0, undone), fleet.modes,
      Settled(if compensated then Untouched else Withdrawn, {}), fleet.modes)
  {
    compensated := undone;
    ghost var start := Checking(priors, 0, undone);
    LeadsNowhere(mode, held, start, fleet.modes);
    for i := 0 to |priors|
      invariant compensated ==> HoldEach(fleet.modes, priors[..i])
      invariant Leads(mode, held, start, fleet.modes, Checking(priors, i, compensated), fleet.modes)
    {
      var actual := fleet.GetAgentOrder(priors[i].0);
      LeadsCheck(mode, held, start, fleet.modes, priors, i, compensated, fleet.modes, actual.Some?);
      if actual != Some(priors[i].1) {
        compensated := false;
      } else if compensated {
        HoldOneMore(fleet.modes, priors, i);
      }
    }
    assert priors[..|priors|] == priors;
    LeadsCheck(mode, held, start, fleet.modes, priors, |priors|, compensated, fleet.modes, true);
  }

  lemma HoldOneMore(modes: Modes, priors: Priors, i: nat)
    requires i < |priors| && HoldEach(modes, priors[..i]) && Lookup(modes, priors[i].0) == Some(priors[i].1)
    ensures HoldEach(modes, priors[..i + 1])
  {
    assert forall k :: 0 <= k < i ==> priors[..i][k] == priors[..i + 1][k];
  }

  datatype SetResult = AllSet | Restored | NotRestored

  function EndOf(result: SetResult): OrderEnd {
    match result
    case AllSet => Published
    case Restored => Untouched
    case NotRestored => Withdrawn
  }

  // Every session up to the first that fails.
  method TrySets(fleet: HerdrFleet, names: seq<string>, priors: Priors, mode: OrderMode, ghost held: OrderMode)
      returns (failed: bool, attempted: Priors)
    requires HoldEach(fleet.modes, priors)
    modifies fleet
    ensures SameElsewhere(old(fleet.modes), fleet.modes, NamesOf(attempted)) && NamesOf(attempted) <= NamesOf(priors)
    ensures !failed ==> AllHold(fleet.modes, NamesOf(priors), mode)
    ensures Leads(mode, held, Setting(names, priors, 0, []), old(fleet.modes),
      if failed then Undoing(priors, attempted, |attempted|, true) else Settled(Published, NameSet(names)), fleet.modes)
  {
    attempted := [];
    ghost var start, first := Setting(names, priors, 0, []), fleet.modes;
    LeadsNowhere(mode, held, start, fleet.modes);
    for i := 0 to |priors|
      invariant SetSoFar(first, fleet.modes, priors, i, attempted, mode)
      invariant Leads(mode, held, start, first, Setting(names, priors, i, attempted), fleet.modes)
    {
      StillRuns(first, fleet.modes, priors, i, attempted, mode);
      if priors[i].1 != mode {
        ghost var before, earlier, applied := fleet.modes, attempted, false;
        attempted := attempted + [priors[i]];
        var ok;
        ok, applied := fleet.SetAgentOrder(priors[i].0, mode);
        LeadsSet(mode, held, start, first, names, priors, i, earlier, before, applied, ok);
        OneMoreSet(first, before, priors, i, earlier, mode, applied);
        if !ok {
          failed := true;
          return;
        }
      } else {
        LeadsSkip(mode, held, start, first, names, priors, i, attempted, fleet.modes);
      }
    }
    LeadsSkip(mode, held, start, first, names, priors, |priors|, attempted, fleet.modes);
    AllWereSet(first, fleet.modes, priors, attempted, mode);
    failed := false;
  }

  ghost predicate SetSoFar(first: Modes, modes: Modes, priors: Priors, n: nat, attempted: Priors, mode: OrderMode) {
    && SameElsewhere(first, modes, NamesOf(attempted)) && NamesOf(attempted) <= NamesOf(priors)
    && (forall p :: p in attempted ==> Lookup(modes, p.0) == Some(mode))
    && (forall k :: 0 <= k < n && k < |priors| ==> priors[k].1 == mode || priors[k].0 in NamesOf(attempted))
  }

  lemma StillRuns(first: Modes, modes: Modes, priors: Priors, n: nat, attempted: Priors, mode: OrderMode)
    requires SetSoFar(first, modes, priors, n, attempted, mode) && HoldEach(first, priors) && n < |priors|
    ensures priors[n].0 in modes
  {
    assert Lookup(first, priors[n].0).Some?;
  }

  lemma OneMoreSet(
      first: Modes, modes: Modes, priors: Priors, n: nat, attempted: Priors, mode: OrderMode, applied: bool)
    requires SetSoFar(first, modes, priors, n, attempted, mode) && n < |priors| && priors[n].0 in modes
    ensures var tried, after := attempted + [priors[n]], Applied(modes, priors[n].0, mode, applied);
      && SameElsewhere(first, after, NamesOf(tried)) && NamesOf(tried) <= NamesOf(priors)
      && (applied ==> SetSoFar(first, after, priors, n + 1, tried, mode))
  {
    AttemptGrows(attempted, priors[n]);
    assert priors[n] in priors;
  }

  lemma AllWereSet(first: Modes, modes: Modes, priors: Priors, attempted: Priors, mode: OrderMode)
    requires SetSoFar(first, modes, priors, |priors|, attempted, mode) && HoldEach(first, priors)
    ensures AllHold(modes, NamesOf(priors), mode)
  {
    forall n | n in NamesOf(priors) ensures Lookup(modes, n) == Some(mode) {
      var p :| p in priors && p.0 == n;
      var k :| 0 <= k < |priors| && priors[k] == p;
      if n in NamesOf(attempted) {
        var q :| q in attempted && q.0 == n;
      } else {
        assert Lookup(first, priors[k].0) == Some(priors[k].1);
      }
    }
  }

  method SetEach(fleet: HerdrFleet, names: seq<string>, priors: Priors, mode: OrderMode, ghost held: OrderMode)
      returns (result: SetResult)
    requires HoldEach(fleet.modes, priors)
    modifies fleet
    ensures SameElsewhere(old(fleet.modes), fleet.modes, NamesOf(priors))
    ensures result == AllSet ==> AllHold(fleet.modes, NamesOf(priors), mode)
    ensures result == Restored ==> HoldEach(fleet.modes, priors)
    ensures Leads(mode, held, Setting(names, priors, 0, []), old(fleet.modes),
      Settled(EndOf(result), if result == AllSet then NameSet(names) else {}), fleet.modes)
  {
    var failed, attempted := TrySets(fleet, names, priors, mode, held);
    if !failed {
      return AllSet;
    }
    ghost var between := fleet.modes;
    AttemptsRun(priors, attempted, old(fleet.modes), between);
    var compensated := Compensate(fleet, attempted, priors, mode, held);
    result := if compensated then Restored else NotRestored;
    LeadsThrough(mode, held, Setting(names, priors, 0, []), old(fleet.modes),
      Undoing(priors, attempted, |attempted|, true), between, Settled(EndOf(result), {}), fleet.modes);
  }

  lemma AttemptsRun(priors: Priors, attempted: Priors, before: Modes, modes: Modes)
    requires HoldEach(before, priors) && before.Keys == modes.Keys && NamesOf(attempted) <= NamesOf(priors)
    ensures forall p :: p in attempted ==> p.0 in modes
  {
    forall p | p in attempted ensures p.0 in modes {
      assert p.0 in NamesOf(attempted);
      var q :| q in priors && q.0 == p.0;
      var i :| 0 <= i < |priors| && priors[i] == q;
      assert Lookup(before, priors[i].0).Some?;
    }
  }

  lemma RestoredExactly(before: Modes, after: Modes, priors: Priors)
    requires HoldEach(before, priors) && HoldEach(after, priors) && SameElsewhere(before, after, NamesOf(priors))
    ensures after == before
  {
    forall n ensures Lookup(after, n) == Lookup(before, n) {
      if n in NamesOf(priors) {
        var k :| 0 <= k < |priors| && priors[k].0 == n;
      }
    }
    forall n | n in before ensures n in after && after[n] == before[n] {
      assert Lookup(after, n) == Lookup(before, n);
    }
  }

  // ---- What runs between the awaits ----

  // Sections under the state's lock that do not take `order_operation`.
  datatype Section = VoiceSection | OpenSection(id: AgentId)

  function AfterSections(p: Portal, sections: seq<Section>): Portal {
    if sections == [] then p
    else
      var earlier := AfterSections(p, sections[..|sections| - 1]);
      match sections[|sections| - 1]
      case VoiceSection => earlier.(sequence := Advance(earlier.sequence))
      case OpenSection(id) => ReviewAcknowledged(earlier, id)
  }

  ghost predicate Interleaved(p: Portal, q: Portal) {
    exists sections :: AfterSections(p, sections) == q
  }

  lemma {:induction false} SectionsKeepOrder(p: Portal, sections: seq<Section>)
    ensures var q := AfterSections(p, sections);
      q.backend == p.backend && q.order == p.order && q.t3Order == p.t3Order && q.targets == p.targets
  {
    if sections != [] {
      SectionsKeepOrder(p, sections[..|sections| - 1]);
    }
  }

  lemma {:induction false} SectionsInTwoParts(p: Portal, a: seq<Section>, b: seq<Section>)
    ensures AfterSections(p, a + b) == AfterSections(AfterSections(p, a), b)
  {
    if b == [] {
      assert a + b == a;
    } else {
      assert (a + b)[..|a + b| - 1] == a + b[..|b| - 1];
      SectionsInTwoParts(p, a, b[..|b| - 1]);
    }
  }

  lemma InterleavedTwice(p: Portal, q: Portal, r: Portal)
    requires Interleaved(p, q) && Interleaved(q, r)
    ensures Interleaved(p, r)
  {
    var a :| AfterSections(p, a) == q;
    var b :| AfterSections(q, b) == r;
    SectionsInTwoParts(p, a, b);
  }

  // Any number of such sections, as an await lets them run.
  method Await(state: RuntimeState)
    modifies state, state.memory
    ensures Interleaved(old(state.Value()), state.Value())
    ensures state.backend == old(state.backend) && state.order == old(state.order)
    ensures state.t3Order == old(state.t3Order)
  {
    ghost var start, sections: seq<Section> := state.Value(), [];
    assert AfterSections(start, []) == start;
    var count := *;
    if count < 0 {
      count := 0;
    }
    for i := 0 to count
      invariant AfterSections(start, sections) == state.Value()
    {
      ghost var earlier := sections;
      if * {
        state.sequence := Advance(state.sequence);
        sections := sections + [VoiceSection];
      } else {
        var id: AgentId := *;
        state.AcknowledgeReviewReady(id);
        sections := sections + [OpenSection(id)];
      }
      assert sections[..|sections| - 1] == earlier;
    }
    SectionsKeepOrder(start, sections);
  }

  // The published ordering is what every session it was published for holds.
  predicate OrderHeld(p: Portal, modes: Modes, covered: set<string>) {
    p.backend.HerdrManager? && p.order.available ==> AllHold(modes, covered, p.order.mode)
  }

  // The SETs, whatever undoes them, and the write that ends the command.
  method SetAndSettle(
      state: RuntimeState, fleet: HerdrFleet, names: seq<string>, priors: Priors, mode: OrderMode,
      ghost held: OrderMode)
      returns (result: SetResult, ghost at: Portal)
    requires HoldEach(fleet.modes, priors)
    modifies state, state.memory, fleet
    ensures SameElsewhere(old(fleet.modes), fleet.modes, NamesOf(priors))
    ensures result == AllSet ==> AllHold(fleet.modes, NamesOf(priors), mode)
    ensures result == Restored ==> HoldEach(fleet.modes, priors)
    ensures Leads(mode, held, Setting(names, priors, 0, []), old(fleet.modes),
      Settled(EndOf(result), if result == AllSet then NameSet(names) else {}), fleet.modes)
    ensures Interleaved(old(state.Value()), at)
    ensures state.Value() == match result
      case AllSet => OrderPublished(at, mode)
      case NotRestored => OrderWithdrawn(at)
      case Restored => at
  {
    result := SetEach(fleet, names, priors, mode, held);
    Await(state);
    at := state.Value();
    if result == AllSet {
      state.PublishOrder(mode);
    } else if result == NotRestored {
      state.WithdrawOrder();
    }
  }

  // What the command leaves, `at` being the state its own last write found.
  ghost predicate EndsAs(at: Portal, after: Portal, end: OrderEnd, mode: OrderMode) {
    after == match end
      case Published => OrderPublished(at, mode)
      case Withdrawn => OrderWithdrawn(at)
      case Untouched => at
  }

  function Reached(end: OrderEnd, discovered: Option<seq<string>>): set<string> {
    if end.Published? && discovered.Some? then NameSet(discovered.value) else {}
  }

  method OrderSessions(state: RuntimeState, fleet: HerdrFleet, names: seq<string>, mode: OrderMode, held: OrderMode)
      returns (end: OrderEnd, ghost at: Portal)
    requires names != []
    modifies state, state.memory, fleet
    ensures Interleaved(old(state.Value()), at) && EndsAs(at, state.Value(), end, mode)
    ensures SameElsewhere(old(fleet.modes), fleet.modes, NameSet(names))
    ensures end.Published? ==> AllHold(fleet.modes, NameSet(names), mode)
    ensures end.Untouched? ==> fleet.modes == old(fleet.modes)
    ensures Leads(
      mode, held, Reading(names, []), old(fleet.modes), Settled(end, Reached(end, Some(names))), fleet.modes)
  {
    ghost var start := state.Value();
    var read := ReadPriorModes(fleet, names, mode, held);
    Await(state);
    at := state.Value();
    if read.None? {
      return Untouched, at;
    }
    var priors := read.value;
    SameNames(priors, names);
    if exists i :: 0 <= i < |priors| && priors[i].1 != held {
      return Untouched, at;
    }
    var result;
    ghost var found;
    result, found := SetAndSettle(state, fleet, names, priors, mode, held);
    InterleavedTwice(start, at, found);
    LeadsThrough(mode, held, Reading(names, []), old(fleet.modes), Setting(names, priors, 0, []), old(fleet.modes),
      Settled(EndOf(result), if result == AllSet then NameSet(names) else {}), fleet.modes);
    if result == Restored {
      RestoredExactly(old(fleet.modes), fleet.modes, priors);
    }
    return EndOf(result), found;
  }

  // Success leaves every discovered session in the requested mode; failure
  // leaves every session exactly as it was, or ordering published unavailable.
  method ProcessAgentOrderCommand(
      state: RuntimeState, fleet: HerdrFleet, cited: nat, mode: OrderMode, discovered: Option<seq<string>>,
      ghost covered: set<string>)
      returns (ok: bool, ghost coveredNow: set<string>, ghost at: Portal)
    requires OrderHeld(state.Value(), fleet.modes, covered)
    modifies state, state.memory, fleet
    ensures Interleaved(old(state.Value()), at)
    ensures ok ==>
      cited == old(state.sequence) && old(state.order.available) &&
      state.Value() == OrderPublished(at, mode).(
        t3Order := if old(state.backend) == T3Manager then mode else old(state.t3Order))
    ensures ok ==>
      state.order == OrderSnapshot(true, mode) && InOrder(mode, state.agents)
      && multiset(state.agents) == multiset(at.agents)
    ensures old(state.backend) == T3Manager ==> fleet.modes == old(fleet.modes)
    ensures ok && old(state.backend) == HerdrManager ==>
      discovered.Some? && discovered.value != [] && AllHold(fleet.modes, NameSet(discovered.value), mode)
    ensures !ok ==>
      || (state.Value() == at && fleet.modes == old(fleet.modes))
      || state.Value() == OrderWithdrawn(at)
    ensures discovered.Some? ==> SameElsewhere(old(fleet.modes), fleet.modes, NameSet(discovered.value))
    ensures discovered.None? ==> fleet.modes == old(fleet.modes)
    ensures OrderHeld(state.Value(), fleet.modes, coveredNow)
    ensures cited == old(state.sequence) && old(state.order.available) && old(state.backend) == HerdrManager ==>
      exists end ::
        && Leads(mode, old(state.order.mode), Locating, old(fleet.modes),
             Settled(end, Reached(end, discovered)), fleet.modes)
        && EndsAs(at, state.Value(), end, mode) && (ok <==> end.Published?)
  {
    ok, coveredNow, at := false, covered, state.Value();
    assert AfterSections(at, []) == at;
    var authoritative := state.order;
    if cited != state.sequence || !authoritative.available {
      return;
    }
    ghost var start := at;
    Await(state);
    at := state.Value();
    if state.backend == T3Manager {
      OrderPublishedMeaning(at, mode);
      state.t3Order := mode;
      state.PublishOrder(mode);
      ok := true;
      return;
    }
    ghost var held := authoritative.mode;
    LeadsFromDiscovery(mode, held, fleet.modes, discovered);
    if discovered.None? || discovered.value == [] {
      assert EndsAs(at, state.Value(), Untouched, mode);
      return;
    }
    var end;
    ghost var found;
    end, found := OrderSessions(state, fleet, discovered.value, mode, authoritative.mode);
    InterleavedTwice(start, at, found);
    at := found;
    LeadsThrough(mode, held, Locating, old(fleet.modes), Reading(discovered.value, []), old(fleet.modes),
      Settled(end, Reached(end, discovered)), fleet.modes);
    InterleavedKeepsOrder(start, at);
    if end == Published {
      OrderPublishedMeaning(at, mode);
      ok, coveredNow := true, NameSet(discovered.value);
    }
  }

  lemma LeadsFromDiscovery(mode: OrderMode, held: OrderMode, modes: Modes, discovered: Option<seq<string>>)
    ensures Leads(mode, held, Locating, modes,
      if discovered.None? || discovered.value == [] then Settled(Untouched, {}) else Reading(discovered.value, []),
      modes)
  {
    LeadsNowhere(mode, held, Locating, modes);
    LeadsOn(mode, held, Locating, modes, Locating, modes, DiscoveryAnswers(discovered));
  }

  lemma InterleavedKeepsOrder(p: Portal, q: Portal)
    requires Interleaved(p, q)
    ensures q.backend == p.backend && q.order == p.order && q.t3Order == p.t3Order && q.targets == p.targets
  {
    var sections :| AfterSections(p, sections) == q;
    SectionsKeepOrder(p, sections);
  }

  lemma SameNames(priors: Priors, names: seq<string>)
    requires |priors| == |names| && forall i :: 0 <= i < |names| ==> priors[i].0 == names[i]
    ensures NamesOf(priors) == NameSet(names)
  {
    assert forall i :: 0 <= i < |names| ==> priors[i] in priors && priors[i].0 in names;
  }

  // ---- Every run ----

  predicate PublishedIsHeld(s: System) {
    s.portal.backend.HerdrManager? && s.portal.order.available ==> Holding(s.modes, s.covered, s.portal.order.mode)
  }

  // What a collection has been told is what those sessions still hold.
  predicate Current(modes: Modes, names: seq<string>, outcomes: seq<Outcome>)
    requires |outcomes| <= |names|
  {
    forall i :: 0 <= i < |outcomes| && ReportedOrder(outcomes[i]).Some? && names[i] in modes ==>
      modes[names[i]] == ReportedOrder(outcomes[i]).value
  }

  // Outside an ordering command every session the ordering was published for,
  // and still running, holds it; within one, what it has read and set is as its
  // locals say.
  predicate FleetSound(s: System) {
    (s.job.OrderingHerdr? ==> About(s.job.phase, s.discovered))
    && match s.job
    case OrderingHerdr(mode, held, phase) =>
      && s.portal.order == OrderSnapshot(true, held)
      && PhaseSound(mode, held, phase, s.before, s.modes, s.covered)
    case Collecting(_, _, names, outcomes) =>
      PublishedIsHeld(s) && |outcomes| <= |names| && Current(s.modes, names, outcomes)
    case _ => PublishedIsHeld(s)
  }

  lemma FinishHerdrHolds(s: System, now: nat)
    requires FleetSound(s) && JobSound(s) && s.job.Collecting? && |s.job.outcomes| == |s.job.names|
    ensures FleetSound(Do(s, FinishHerdr(now)))
  {
    var names, outcomes := s.job.names, s.job.outcomes;
    var order := HerdrOrder(|names|, Collect(names, outcomes, s.job.previous));
    if order.available {
      OrderPublishedIffUniform(names, outcomes, s.job.previous, order.mode);
      forall n | n in NameSet(names) && n in s.modes ensures s.modes[n] == order.mode {
        var i :| 0 <= i < |names| && names[i] == n;
        assert ReportedOrder(outcomes[i]) == Some(order.mode);
      }
    }
  }

  lemma OrderMoveHolds(s: System, move: OrderMove)
    requires FleetSound(s) && Truthful(move)
    ensures FleetSound(Do(s, OrderMoves(move)))
  {
    if s.job.OrderingHerdr? {
      MoveKeeps(s.job.mode, s.job.held, s.job.phase, s.before, s.modes, s.covered, move);
      MoveKeepsNames(s.job.mode, s.job.held, s.job.phase, s.modes, move, s.discovered);
    }
  }

  lemma EndOrderHolds(s: System)
    requires FleetSound(s)
    ensures FleetSound(Do(s, EndOrder))
  {
    if s.job.OrderingHerdr? && s.job.phase.Settled? && s.job.phase.end.Untouched? {
      UnchangedStillHolds(s.before, s.modes, s.covered, s.job.held);
    }
  }

  lemma SessionEndHolds(s: System, name: string)
    requires FleetSound(s)
    ensures FleetSound(Do(s, SessionEnds(name)))
  {
    if s.job.OrderingHerdr? {
      SessionEndKeeps(s.job.mode, s.job.held, s.job.phase, s.before, s.modes, s.covered, name);
    }
  }

  lemma AnswerHolds(s: System, outcome: Outcome)
    requires FleetSound(s) && Legal(s, SessionAnswers(outcome))
    ensures FleetSound(Do(s, SessionAnswers(outcome)))
  {
  }

  // The steps that touch neither the fleet nor what is published of it, or
  // publish nothing.
  lemma OtherStepHolds(s: System, step: Step)
    requires FleetSound(s) && JobSound(s)
    requires !step.FinishHerdr? && !step.OrderMoves? && !step.EndOrder? && !step.SessionEnds? && !step.SessionAnswers?
    ensures FleetSound(Do(s, step))
  {
  }

  lemma StepHolds(s: System, step: Step)
    requires FleetSound(s) && JobSound(s) && Legal(s, step)
    ensures FleetSound(Do(s, step))
  {
    match step
    case FinishHerdr(now) =>
      if s.job.Collecting? && |s.job.outcomes| == |s.job.names| { FinishHerdrHolds(s, now); }
    case OrderMoves(move) => OrderMoveHolds(s, move);
    case EndOrder => EndOrderHolds(s);
    case SessionEnds(name) => SessionEndHolds(s, name);
    case SessionAnswers(outcome) => AnswerHolds(s, outcome);
    case _ => OtherStepHolds(s, step);
  }

  // In every run, with any failed, lost or ambiguous answers.
  lemma {:induction false} FleetSoundInEveryRun(
      backend: AgentBackend, t3Order: OrderMode, modes: Modes, steps: seq<Step>)
    requires LegalRun(Start(backend, t3Order, modes), steps)
    ensures FleetSound(After(Start(backend, t3Order, modes), steps))
  {
    if steps != [] {
      var n, s := |steps| - 1, Start(backend, t3Order, modes);
      PrefixIsLegal(s, steps, n);
      FleetSoundInEveryRun(backend, t3Order, modes, steps[..n]);
      EveryRunIsSound(backend, t3Order, modes, steps[..n]);
      StepHolds(After(s, steps[..n]), steps[n]);
    }
  }

  // Whenever ordering is published as available outside an ordering command,
  // every session it was published for, and still running, holds that mode.
  lemma PublishedOrderIsHeld(backend: AgentBackend, t3Order: OrderMode, modes: Modes, steps: seq<Step>)
    requires LegalRun(Start(backend, t3Order, modes), steps)
    ensures var s := After(Start(backend, t3Order, modes), steps);
      s.portal.backend.HerdrManager? && s.portal.order.available && !s.job.OrderingHerdr? ==>
        Holding(s.modes, s.covered, s.portal.order.mode)
  {
    FleetSoundInEveryRun(backend, t3Order, modes, steps);
  }

  // However an ordering command ends in any run: it published the mode and
  // every session it discovered holds it; or it published nothing and every
  // session holds what it held when the command began; or ordering is withdrawn.
  ghost predicate EndsWell(s: System, t: System) {
    s.job.OrderingHerdr? && t.job.NoJob? ==>
      || (t.portal == OrderPublished(s.portal, s.job.mode) && t.covered == NameSet(s.discovered)
          && Holding(t.modes, t.covered, s.job.mode)
          && t.portal.order == OrderSnapshot(true, s.job.mode) && InOrder(s.job.mode, t.portal.agents)
          && multiset(t.portal.agents) == multiset(s.portal.agents))
      || (t.portal == s.portal && Unchanged(s.before, t.modes, {}))
      || t.portal == OrderWithdrawn(s.portal)
  }

  lemma EndOfCommand(s: System)
    requires FleetSound(s)
    ensures EndsWell(s, Do(s, EndOrder))
  {
    if s.job.OrderingHerdr? {
      OrderPublishedMeaning(s.portal, s.job.mode);
    }
  }

  lemma OrderCommandEnds(backend: AgentBackend, t3Order: OrderMode, modes: Modes, steps: seq<Step>)
    requires LegalRun(Start(backend, t3Order, modes), steps)
    ensures var s := After(Start(backend, t3Order, modes), steps); EndsWell(s, Do(s, EndOrder))
  {
    FleetSoundInEveryRun(backend, t3Order, modes, steps);
    EndOfCommand(After(Start(backend, t3Order, modes), steps));
  }
}
