// Taking the Micro over from the Herdr bridge service and giving it back
// (`HerdrOwner` and its use by `Bridge`, config/bin/xeneon-micro-bridge): a
// restore marker written before the service is stopped outlives any crash.

module Takeover {
  // The last three fields are history. `owed`: a stop was sent and no start has
  // succeeded since. `observed`: some takeover saw the service active since the
  // marker was last removed. `blind`: a start was sent with nothing observed.
  datatype Station = Station(
    active: bool, marker: bool, lock: bool, micro: bool, owed: bool, observed: bool, blind: bool)

  // What the host does. A stop or start that does not answer success may still
  // have been applied, at once or later.
  datatype Host = Host(
    probed: bool, created: bool, written: bool, stopApplied: bool, stopAnswered: bool, locked: bool, others: bool,
    connected: bool, statusRemoved: bool, startApplied: bool, startAnswered: bool, unlinked: bool)
  {
    predicate Truthful() {
      (stopAnswered ==> stopApplied) && (startAnswered ==> startApplied)
    }
  }

  // Whether the bridge may manage the service, and whether it guards the Micro
  // socket with the ownership lock (the daemon always does).
  datatype Config = Config(manage: bool, locking: bool)

  // The states an operation passes through, and whether it raised nothing.
  datatype Outcome = Outcome(states: seq<Station>, ok: bool)

  function Last(s: Station, states: seq<Station>): Station {
    if states == [] then s else states[|states| - 1]
  }

  function Next(s: Station, first: Outcome, second: Outcome): Outcome {
    if first.ok then Outcome(first.states + second.states, second.ok) else first
  }

  function Stopped(s: Station, config: Config, h: Host): Outcome {
    if !h.probed then Outcome([], false)
    else if !s.active then Outcome([], true)
    else if !config.manage then Outcome([], false)
    else
      var seen := s.(observed := true);
      if !h.created then Outcome([seen], false)
      else
        var marked := seen.(marker := true);
        if !h.written then Outcome([seen, marked], false)
        else
          var stopped := marked.(active := marked.active && !h.stopApplied, owed := true);
          Outcome([seen, marked, stopped], h.stopAnswered)
  }

  function Locked(s: Station, config: Config, h: Host): Outcome {
    if config.locking && !s.lock then
      if h.locked then Outcome([s.(lock := true)], !h.others) else Outcome([], false)
    else Outcome([], !h.others)
  }

  function Acquired(s: Station, config: Config, h: Host): Outcome {
    var stopped := Stopped(s, config, h);
    Next(s, stopped, Locked(Last(s, stopped.states), config, h))
  }

  function Connected(s: Station, h: Host): Outcome {
    if h.connected then Outcome([s.(micro := true)], true) else Outcome([], false)
  }

  // `Bridge.update` on a fresh T3 snapshot.
  function Taken(s: Station, config: Config, h: Host): Outcome {
    if s.micro then Outcome([], true)
    else
      var acquired := Acquired(s, config, h);
      Next(s, acquired, Connected(Last(s, acquired.states), h))
  }

  function Restored(s: Station, h: Host): Outcome {
    var unlocked := s.(lock := false);
    Next(s, Outcome([unlocked], true), Started(unlocked, h))
  }

  function Started(s: Station, h: Host): Outcome {
    if !s.marker then Outcome([], true)
    else
      var started := s.(
        active := s.active || h.startApplied,
        owed := s.owed && !h.startAnswered,
        blind := s.blind || !s.observed);
      if !h.startAnswered || !h.unlinked then Outcome([started], false)
      else Outcome([started, started.(marker := false, observed := false)], true)
  }

  // `Bridge.release`: a restore that fails is only reported.
  function Released(s: Station, h: Host): Outcome {
    var dropped := s.(micro := false);
    if !h.statusRemoved then Outcome([dropped], false)
    else Outcome([dropped] + Restored(dropped, h).states, true)
  }

  // ---- The bridge, one host effect at a time ----

  class HerdrOwner {
    const config: Config
    var active: bool
    var marker: bool
    var lock: bool
    var micro: bool
    ghost var owed: bool
    ghost var observed: bool
    ghost var blind: bool
    ghost var history: seq<Station>

    ghost function Now(): Station
      reads this
    {
      Station(active, marker, lock, micro, owed, observed, blind)
    }

    constructor (config: Config, s: Station)
      ensures this.config == config && Now() == s && history == []
    {
      this.config := config;
      active, marker, lock, micro := s.active, s.marker, s.lock, s.micro;
      owed, observed, blind, history := s.owed, s.observed, s.blind, [];
    }

    ghost method Seen()
      modifies `history
      ensures history == old(history) + [Now()]
    {
      history := history + [Now()];
    }

    ghost predicate Did(before: Station, historyBefore: seq<Station>, outcome: Outcome, ok: bool)
      reads this
    {
      && history == historyBefore + outcome.states && ok == outcome.ok
      && Now() == Last(before, outcome.states)
    }

    method StopService(h: Host) returns (ok: bool)
      modifies this
      ensures Did(old(Now()), old(history), Stopped(old(Now()), config, h), ok)
    {
      if !h.probed {
        return false;
      }
      if active {
        if !config.manage {
          return false;
        }
        observed := true;
        Seen();
        if !h.created {
          return false;
        }
        marker := true;
        Seen();
        if !h.written {
          return false;
        }
        active := active && !h.stopApplied;
        owed := true;
        Seen();
        if !h.stopAnswered {
          return false;
        }
      }
      ok := true;
    }

    method LockMicro(h: Host) returns (ok: bool)
      modifies this
      ensures Did(old(Now()), old(history), Locked(old(Now()), config, h), ok)
    {
      if config.locking && !lock {
        if !h.locked {
          return false;
        }
        lock := true;
        Seen();
      }
      ok := !h.others;
    }

    method Acquire(h: Host) returns (ok: bool)
      modifies this
      ensures Did(old(Now()), old(history), Acquired(old(Now()), config, h), ok)
    {
      ok := StopService(h);
      if ok {
        ok := LockMicro(h);
      }
    }

    method Connect(h: Host) returns (ok: bool)
      modifies this
      ensures Did(old(Now()), old(history), Connected(old(Now()), h), ok)
    {
      ok := h.connected;
      if ok {
        micro := true;
        Seen();
      }
    }

    method TakeMicro(h: Host) returns (ok: bool)
      modifies this
      ensures Did(old(Now()), old(history), Taken(old(Now()), config, h), ok)
    {
      ok := true;
      if !micro {
        ok := Acquire(h);
        if ok {
          ok := Connect(h);
        }
      }
    }

    method StartService(h: Host) returns (ok: bool)
      modifies this
      ensures Did(old(Now()), old(history), Started(old(Now()), h), ok)
    {
      if marker {
        active := active || h.startApplied;
        owed, blind := owed && !h.startAnswered, blind || !observed;
        Seen();
        if !h.startAnswered || !h.unlinked {
          return false;
        }
        marker, observed := false, false;
        Seen();
      }
      ok := true;
    }

    method Restore(h: Host) returns (ok: bool)
      modifies this
      ensures Did(old(Now()), old(history), Restored(old(Now()), h), ok)
    {
      lock := false;
      Seen();
      ok := StartService(h);
    }

    method Release(h: Host) returns (ok: bool)
      modifies this
      ensures Did(old(Now()), old(history), Released(old(Now()), h), ok)
    {
      micro := false;
      Seen();
      if !h.statusRemoved {
        return false;
      }
      var restored := Restore(h);
      ok := true;
    }
  }

  // ---- Every state of every run ----

  predicate Safe(config: Config, s: Station) {
    && (s.owed ==> s.marker)
    && (s.marker ==> s.observed)
    && !s.blind
    && (config.locking && s.micro ==> s.lock)
  }

  predicate AllSafe(config: Config, states: seq<Station>) {
    forall i :: 0 <= i < |states| ==> Safe(config, states[i])
  }

  datatype Act =
    | Takeover(host: Host)
    | Release(host: Host)
    | Restart(host: Host)
    | Cut(act: Act, upto: nat)
    | Elsewhere(active: bool)

  // A crash loses the lock and the connection, and nothing else.
  function Crashed(s: Station): Station {
    s.(lock := false, micro := false)
  }

  function StatesOf(config: Config, s: Station, act: Act): seq<Station> {
    match act
    case Takeover(h) => Taken(s, config, h).states
    case Release(h) => Released(s, h).states
    case Restart(h) => [Crashed(s)] + Restored(Crashed(s), h).states
    case Elsewhere(active) => [s.(active := active)]
    case Cut(inner, upto) => CutOff(s, StatesOf(config, s, inner), upto)
  }

  function Visited(config: Config, s: Station, acts: seq<Act>): seq<Station> {
    if acts == [] then [s]
    else
      var earlier := Visited(config, s, acts[..|acts| - 1]);
      earlier + StatesOf(config, Last(s, earlier), acts[|acts| - 1])
  }

  predicate Keeps(config: Config, s: Station, outcome: Outcome) {
    AllSafe(config, outcome.states) && Safe(config, Last(s, outcome.states))
  }

  lemma NextKeeps(config: Config, s: Station, first: Outcome, second: Outcome)
    requires Keeps(config, s, first) && Keeps(config, Last(s, first.states), second)
    ensures Keeps(config, s, Next(s, first, second))
    ensures Next(s, first, second).ok ==>
      Last(s, Next(s, first, second).states) == Last(Last(s, first.states), second.states)
  {
  }

  lemma StoppedKeeps(config: Config, s: Station, h: Host)
    requires Safe(config, s)
    ensures Keeps(config, s, Stopped(s, config, h))
  {
  }

  lemma AcquiredKeeps(config: Config, s: Station, h: Host)
    requires Safe(config, s)
    ensures var acquired := Acquired(s, config, h);
      Keeps(config, s, acquired) && (acquired.ok && config.locking ==> Last(s, acquired.states).lock)
  {
    var stopped := Stopped(s, config, h);
    StoppedKeeps(config, s, h);
    NextKeeps(config, s, stopped, Locked(Last(s, stopped.states), config, h));
  }

  lemma TakenIsSafe(config: Config, s: Station, h: Host)
    requires Safe(config, s)
    ensures AllSafe(config, Taken(s, config, h).states)
  {
    AcquiredKeeps(config, s, h);
    var acquired := Acquired(s, config, h);
    if acquired.ok {
      NextKeeps(config, s, acquired, Connected(Last(s, acquired.states), h));
    }
  }

  lemma RestoredIsSafe(config: Config, s: Station, h: Host)
    requires Safe(config, s) && !s.micro
    ensures AllSafe(config, Restored(s, h).states)
  {
  }

  lemma {:induction false} ActIsSafe(config: Config, s: Station, act: Act)
    requires Safe(config, s)
    ensures AllSafe(config, StatesOf(config, s, act))
  {
    match act
    case Takeover(h) => TakenIsSafe(config, s, h);
    case Release(h) => RestoredIsSafe(config, s.(micro := false), h);
    case Restart(h) => RestoredIsSafe(config, Crashed(s), h);
    case Elsewhere(_) =>
    case Cut(inner, upto) =>
      ActIsSafe(config, s, inner);
      CutIsSafe(config, s, StatesOf(config, s, inner), upto);
  }

  function CutOff(s: Station, full: seq<Station>, upto: nat): seq<Station> {
    var kept := if upto < |full| then full[..upto] else full;
    kept + [Crashed(Last(s, kept))]
  }

  lemma CutIsSafe(config: Config, s: Station, full: seq<Station>, upto: nat)
    requires Safe(config, s) && AllSafe(config, full)
    ensures AllSafe(config, CutOff(s, full, upto))
  {
    var kept := if upto < |full| then full[..upto] else full;
    assert AllSafe(config, kept) && Safe(config, Last(s, kept));
  }

  // Through any takeovers, failures, releases, crashes and restarts: a stop
  // not yet undone is marked, a start is sent only if some takeover since the
  // last completed restore saw the service active, and a connected Micro is
  // guarded by the lock.
  lemma {:induction false} EveryStateIsRestorable(config: Config, s: Station, acts: seq<Act>)
    requires Safe(config, s)
    ensures AllSafe(config, Visited(config, s, acts))
  {
    if acts != [] {
      var earlier := Visited(config, s, acts[..|acts| - 1]);
      EveryStateIsRestorable(config, s, acts[..|acts| - 1]);
      ActIsSafe(config, Last(s, earlier), acts[|acts| - 1]);
    }
  }

  // Whatever happened, a restore that succeeds leaves no marker, nothing owed
  // and, if a stop was owed, the service running.
  lemma RestoreAfterAnyCrash(config: Config, s: Station, acts: seq<Act>, h: Host)
    requires Safe(config, s) && h.Truthful()
    requires Restored(Crashed(Last(s, Visited(config, s, acts))), h).ok
    ensures var crashed := Crashed(Last(s, Visited(config, s, acts)));
      var after := Last(crashed, Restored(crashed, h).states);
      && !after.marker && !after.owed && !after.lock
      && (crashed.owed ==> after.active)
      && (!crashed.marker ==> after.active == crashed.active)
  {
    EveryStateIsRestorable(config, s, acts);
  }

  // A takeover connects exactly if it found the service inactive or, with leave
  // to manage it, marked it and had its stop answered; took the lock; found no
  // other bridge; and reached the device. A service it stopped is then inactive.
  lemma ConnectsOnlyAlone(config: Config, s: Station, h: Host)
    requires !s.micro
    ensures var held := Last(s, Taken(s, config, h).states);
      && (held.micro <==>
            && h.probed && (s.active ==> config.manage && h.created && h.written && h.stopAnswered)
            && (config.locking && !s.lock ==> h.locked) && !h.others && h.connected)
      && (Taken(s, config, h).ok <==> held.micro)
  {
    StopEnds(config, s, h);
    AcquiredLeaves(config, s, h);
    StopLeaves(config, s, h);
    LockEnds(config, Last(s, Stopped(s, config, h).states), h);
    ConnectEnds(Last(s, Acquired(s, config, h).states), h);
  }

  lemma StopEnds(config: Config, s: Station, h: Host)
    ensures Stopped(s, config, h).ok <==>
      h.probed && (s.active ==> config.manage && h.created && h.written && h.stopAnswered)
  {
  }

  lemma LockEnds(config: Config, s: Station, h: Host)
    ensures Locked(s, config, h).ok <==> (config.locking && !s.lock ==> h.locked) && !h.others
  {
  }

  lemma ConnectEnds(s: Station, h: Host)
    requires !s.micro
    ensures Connected(s, h).ok == h.connected && (Last(s, Connected(s, h).states).micro <==> h.connected)
  {
  }

  // What it then found or made of the service.
  lemma TakeoverLeaves(config: Config, s: Station, h: Host)
    requires !s.micro
    ensures var held := Last(s, Taken(s, config, h).states);
      && (held.micro && h.Truthful() ==> !held.active)
      && (held.micro && s.active ==> held.marker && held.owed)
      && (held.micro && config.locking ==> held.lock || s.lock)
      && (!s.active ==> held.marker == s.marker && held.owed == s.owed && held.active == s.active)
      && (s.active && !config.manage ==> held == s)
  {
    StopLeaves(config, s, h);
    AcquiredLeaves(config, s, h);
  }

  lemma StopLeaves(config: Config, s: Station, h: Host)
    ensures var stopped := Stopped(s, config, h);
      var t := Last(s, stopped.states);
      && t.lock == s.lock && t.micro == s.micro
      && (stopped.ok && h.Truthful() ==> !t.active)
      && (stopped.ok && s.active ==> t.marker && t.owed)
      && (!s.active ==> t == s) && (s.active && !config.manage ==> t == s && !stopped.ok)
  {
  }

  lemma AcquiredLeaves(config: Config, s: Station, h: Host)
    ensures var acquired, t := Acquired(s, config, h), Last(s, Stopped(s, config, h).states);
      var u := Last(s, acquired.states);
      && u == t.(lock := u.lock)
      && (acquired.ok <==> Stopped(s, config, h).ok && Locked(t, config, h).ok)
      && (!Stopped(s, config, h).ok ==> u == t)
      && (acquired.ok && config.locking ==> u.lock)
  {
  }

  // The same in any run: whenever a takeover leaves the device connected that
  // was not, the service is inactive and no other bridge was found.
  lemma ConnectedMeansAlone(config: Config, s: Station, acts: seq<Act>, h: Host)
    requires h.Truthful()
    ensures var before := Last(s, Visited(config, s, acts));
      var after := Last(before, StatesOf(config, before, Takeover(h)));
      !before.micro && after.micro ==>
        !after.active && !h.others && (before.active ==> after.marker) && (config.locking ==> after.lock || before.lock)
  {
    var before := Last(s, Visited(config, s, acts));
    if !before.micro {
      ConnectsOnlyAlone(config, before, h);
      TakeoverLeaves(config, before, h);
    }
  }

  // A release always lets the device go; with its status removed it also gives
  // up the lock, and starts the service if a marker says so.
  lemma ReleaseMeaning(s: Station, h: Host)
    requires h.Truthful()
    ensures var after := Last(s, Released(s, h).states);
      && !after.micro && (Released(s, h).ok <==> h.statusRemoved)
      && (!h.statusRemoved ==> after == s.(micro := false))
      && (h.statusRemoved ==>
            && !after.lock
            && (!s.marker ==> after.active == s.active && !after.marker)
            && (s.marker && h.startAnswered ==> after.active && (after.marker <==> !h.unlinked))
            && (s.marker && !h.startAnswered ==> after.marker))
  {
  }

  const CALM := Station(false, false, false, false, false, false, false)
  const GOOD := Host(true, true, true, true, true, true, false, true, true, true, true, true)

  lemma TakenFromInactive(config: Config, s: Station, h: Host)
    requires !s.active
    ensures var held := Last(s, Taken(s, config, h).states); held == s.(lock := held.lock, micro := held.micro)
  {
    var acquired := Last(s, Acquired(s, config, h).states);
    assert acquired == s.(lock := acquired.lock);
  }

  // Without a marker left over from an earlier takeover, a service that was
  // inactive at takeover stays inactive through the release.
  lemma InactiveStaysInactive(config: Config, s: Station, take: Host, give: Host)
    requires !s.active
    ensures var held := Last(s, Taken(s, config, take).states);
      var after := Last(held, Released(held, give).states);
      after.active <==> s.marker && give.statusRemoved && give.startApplied
  {
    TakenFromInactive(config, s, take);
  }

  // Nobody else starts the service during this act.
  predicate NotStartedElsewhere(act: Act) {
    match act
    case Elsewhere(active) => !active
    case Cut(inner, _) => NotStartedElsewhere(inner)
    case _ => true
  }

  predicate Resting(s: Station) {
    !s.active && !s.marker
  }

  predicate AllResting(states: seq<Station>) {
    forall i :: 0 <= i < |states| ==> Resting(states[i])
  }

  lemma TakenRests(config: Config, s: Station, h: Host)
    requires Resting(s)
    ensures AllResting(Taken(s, config, h).states)
  {
    var acquired := Acquired(s, config, h);
    assert AllResting(acquired.states) && Resting(Last(s, acquired.states));
  }

  lemma {:induction false} ActRests(config: Config, s: Station, act: Act)
    requires Resting(s) && NotStartedElsewhere(act)
    ensures AllResting(StatesOf(config, s, act))
  {
    match act
    case Takeover(h) => TakenRests(config, s, h);
    case Cut(inner, upto) =>
      ActRests(config, s, inner);
      CutRests(s, StatesOf(config, s, inner), upto);
    case _ =>
  }

  lemma CutRests(s: Station, full: seq<Station>, upto: nat)
    requires Resting(s) && AllResting(full)
    ensures AllResting(CutOff(s, full, upto))
  {
    var kept := if upto < |full| then full[..upto] else full;
    assert AllResting(kept) && Resting(Last(s, kept));
  }

  // A service that is inactive, with no marker left, is never made active by
  // any takeovers, releases, crashes and restarts, unless somebody else starts it.
  lemma {:induction false} InactiveInEveryRun(config: Config, s: Station, acts: seq<Act>)
    requires Resting(s) && forall i :: 0 <= i < |acts| ==> NotStartedElsewhere(acts[i])
    ensures AllResting(Visited(config, s, acts))
  {
    if acts != [] {
      var n := |acts| - 1;
      InactiveInEveryRun(config, s, acts[..n]);
      ActRests(config, Last(s, Visited(config, s, acts[..n])), acts[n]);
    }
  }

  lemma VisitedNext(config: Config, s: Station, acts: seq<Act>, act: Act)
    ensures var t := Last(s, Visited(config, s, acts));
      Last(s, Visited(config, s, acts + [act])) == Last(t, StatesOf(config, t, act))
  {
    var more, earlier := acts + [act], Visited(config, s, acts);
    assert more[..|more| - 1] == acts && more[|more| - 1] == act;
    LastOfBoth(s, earlier, StatesOf(config, Last(s, earlier), act));
  }

  lemma LastOfBoth(s: Station, a: seq<Station>, b: seq<Station>)
    ensures Last(s, a + b) == Last(Last(s, a), b)
  {
  }

  // A marker does survive: the start succeeds, its removal does not, the user
  // stops the service, and the next release starts it again.
  lemma ALeftoverMarkerStartsAgain(config: Config)
    requires config.manage && config.locking
    ensures var acts := [Elsewhere(true)] + [Takeover(GOOD)] + [Release(GOOD.(unlinked := false))]
        + [Elsewhere(false)] + [Takeover(GOOD)];
      var taken := Last(CALM, Visited(config, CALM, acts));
      !taken.active && taken.micro && Last(taken, Released(taken, GOOD).states).active
  {
    var one := [Elsewhere(true)];
    var two := one + [Takeover(GOOD)];
    var three := two + [Release(GOOD.(unlinked := false))];
    VisitedNext(config, CALM, [], Elsewhere(true));
    assert [] + one == one;
    VisitedNext(config, CALM, one, Takeover(GOOD));
    VisitedNext(config, CALM, two, Release(GOOD.(unlinked := false)));
    VisitedNext(config, CALM, three, Elsewhere(false));
    VisitedNext(config, CALM, three + [Elsewhere(false)], Takeover(GOOD));
    LeftoverStates(config);
  }

  lemma LeftoverStates(config: Config)
    requires config.manage && config.locking
    ensures var held := Station(false, true, true, true, true, true, false);
      var kept := Station(true, true, false, false, false, true, false);
      && Last(CALM.(active := true), Taken(CALM.(active := true), config, GOOD).states) == held
      && Last(held, Released(held, GOOD.(unlinked := false)).states) == kept
      && Last(kept.(active := false), Taken(kept.(active := false), config, GOOD).states)
        == kept.(active := false, lock := true, micro := true)
  {
  }
}
