// Choosing the compositor window to focus
// (crates/xeneon-agent-core/src/desktop.rs): the bounded process-ancestry walk
// and the two window selectors.

module Desktop {
  import opened Optional

  const WALK_LIMIT := 32

  datatype ProcessInfo = ProcessInfo(parent: int, command: seq<string>, environment: seq<string>)

  type ProcessTable = map<int, ProcessInfo>

  // The k-th process on the parent chain, if the chain is that long.
  function Chain(pid: int, table: ProcessTable, k: nat): Option<int> {
    if k == 0 then Some(pid)
    else
      var child := Chain(pid, table, k - 1);
      if child.None? || child.value !in table || table[child.value].parent <= 1 then None
      else Some(table[child.value].parent)
  }

  lemma {:induction false} ChainRepeats(pid: int, table: ProcessTable, j: nat, i: nat, m: nat)
    requires Chain(pid, table, j) == Chain(pid, table, i)
    ensures Chain(pid, table, j + m) == Chain(pid, table, i + m)
  {
    if m > 0 {
      ChainRepeats(pid, table, j, i, m - 1);
    }
  }

  // A chain that has come back to where it was only repeats itself.
  lemma {:induction false} CycleAddsNothing(pid: int, table: ProcessTable, j: nat, i: nat, k: nat, ancestor: int)
    requires j < i && Chain(pid, table, j) == Chain(pid, table, i)
    requires forall n: nat :: n < i ==> Chain(pid, table, n) != Some(ancestor)
    ensures Chain(pid, table, k) != Some(ancestor)
    decreases k
  {
    if k >= i {
      ChainRepeats(pid, table, j, i, k - i);
      CycleAddsNothing(pid, table, j, i, k - (i - j), ancestor);
    }
  }

  lemma {:induction false} ChainEnds(pid: int, table: ProcessTable, i: nat, k: nat)
    requires Chain(pid, table, i).None? && i <= k
    ensures Chain(pid, table, k).None?
  {
    if i < k {
      ChainEnds(pid, table, i, k - 1);
    }
  }

  ghost predicate Descends(pid: int, ancestor: int, table: ProcessTable) {
    exists k: nat :: k < WALK_LIMIT && Chain(pid, table, k) == Some(ancestor)
  }

  // The walk answers exactly whether the ancestor is among the first 32
  // processes of the chain; its cycle guard never changes the answer.
  method IsDescendant(pid: int, ancestor: int, table: ProcessTable) returns (found: bool)
    ensures found <==> Descends(pid, ancestor, table)
  {
    var current := pid;
    var visited: set<int> := {};
    for i := 0 to WALK_LIMIT
      invariant Chain(pid, table, i) == Some(current)
      invariant forall n: nat :: n < i ==> Chain(pid, table, n) != Some(ancestor)
      invariant forall n: nat :: n < i ==> Chain(pid, table, n).Some?
      invariant visited == set n: nat | n < i :: Chain(pid, table, n).value
    {
      if current == ancestor {
        return true;
      }
      if current in visited {
        var j: nat :| j < i && Chain(pid, table, j).value == current;
        forall k: nat ensures Chain(pid, table, k) != Some(ancestor) {
          CycleAddsNothing(pid, table, j, i, k, ancestor);
        }
        return false;
      }
      visited := visited + {current};
      if current !in table || table[current].parent <= 1 {
        assert Chain(pid, table, i + 1).None?;
        forall k: nat ensures Chain(pid, table, k) != Some(ancestor) {
          if k > i { ChainEnds(pid, table, i + 1, k); }
        }
        return false;
      }
      current := table[current].parent;
    }
    found := false;
  }

  // ---- Windows ----

  datatype HyprClient = HyprClient(
    address: string, class_: string, initialClass: string, title: string, initialTitle: string,
    pid: int, floating: bool, focusHistory: Option<int>)

  function Lower(s: string): string {
    seq(|s|, i requires 0 <= i < |s| => if 'A' <= s[i] <= 'Z' then (s[i] as int + 32) as char else s[i])
  }

  predicate Contains(s: string, part: string) {
    exists i :: 0 <= i <= |s| && part <= s[i..]
  }

  function Keep(s: seq<HyprClient>, p: HyprClient -> bool): seq<HyprClient> {
    if s == [] then [] else (if p(s[0]) then [s[0]] else []) + Keep(s[1..], p)
  }

  datatype Refusal = NoWindow | NoHistory | Tied

  datatype Choice = Chosen(client: HyprClient) | Nothing | Refused(why: Refusal)

  function Earliest(s: seq<HyprClient>): int
    requires s != [] && forall c :: c in s ==> c.focusHistory.Some?
  {
    var first := s[0].focusHistory.value;
    if |s| == 1 then first
    else
      var rest := Earliest(s[1..]);
      if first <= rest then first else rest
  }

  function FocusedAt(history: int): HyprClient -> bool {
    (c: HyprClient) => c.focusHistory == Some(history)
  }

  function OfClass(windowClass: string): HyprClient -> bool {
    (c: HyprClient) => Lower(c.class_) == Lower(windowClass) || Lower(c.initialClass) == Lower(windowClass)
  }

  function Titled(title: string): HyprClient -> bool {
    (c: HyprClient) => Lower(c.initialTitle) == Lower(title)
  }

  function Tiled(): HyprClient -> bool {
    (c: HyprClient) => !c.floating
  }

  function Hinting(hint: string): HyprClient -> bool {
    (c: HyprClient) => Hinted(c, hint)
  }

  // The unique most recently focused window (history 0 is the latest).
  function MostRecent(candidates: seq<HyprClient>): Choice
    requires candidates != []
  {
    if |candidates| == 1 then Chosen(candidates[0])
    else if exists c :: c in candidates && c.focusHistory.None? then Refused(NoHistory)
    else
      var best := Earliest(candidates);
      var recent := Keep(candidates, FocusedAt(best));
      if |recent| == 1 then Chosen(recent[0]) else Refused(Tied)
  }

  predicate Hinted(c: HyprClient, hint: string) {
    || Contains(Lower(c.class_), Lower(hint)) || Contains(Lower(c.initialClass), Lower(hint))
    || Contains(Lower(c.title), Lower(hint)) || Contains(Lower(c.initialTitle), Lower(hint))
  }

  // Narrow to the preferred ones, unless none is.
  function Prefer(s: seq<HyprClient>, p: HyprClient -> bool): seq<HyprClient> {
    var kept := Keep(s, p);
    if kept == [] then s else kept
  }

  // `hosts` says whether some process of the session descends from the window.
  function SelectHerdr(clients: seq<HyprClient>, hosts: HyprClient -> bool, hint: string): Choice {
    var owning := Keep(clients, hosts);
    if owning == [] then Refused(NoWindow) else MostRecent(Prefer(owning, Hinting(hint)))
  }

  function SelectDesktop(clients: seq<HyprClient>, windowClass: string, mainTitle: string): Choice {
    var candidates := Keep(clients, OfClass(windowClass));
    if candidates == [] then Nothing
    else
      var titled := Prefer(candidates, Titled(mainTitle));
      MostRecent(if |titled| == 1 then titled else Prefer(titled, Tiled()))
  }

  ghost predicate SessionProcess(pid: int, clientPid: int, table: ProcessTable, matches: ProcessInfo -> bool) {
    pid in table && Descends(pid, clientPid, table) && matches(table[pid])
  }

  // The next key a walk over the table meets; the table fixes no order.
  method AnyOf<T>(keys: set<T>) returns (key: T)
    requires keys != {}
    ensures key in keys
  {
    key :| key in keys;
  }

  // Whether any process of the session descends from the window's process.
  method ClientHostsSession(clientPid: int, table: ProcessTable, matches: ProcessInfo -> bool) returns (hosts: bool)
    ensures hosts <==> exists pid :: SessionProcess(pid, clientPid, table, matches)
  {
    var todo := table.Keys;
    while todo != {}
      invariant todo <= table.Keys
      invariant forall pid :: SessionProcess(pid, clientPid, table, matches) ==> pid in todo
    {
      var pid := AnyOf(todo);
      var descends := IsDescendant(pid, clientPid, table);
      if descends && matches(table[pid]) {
        assert SessionProcess(pid, clientPid, table, matches);
        return true;
      }
      todo := todo - {pid};
    }
    hosts := false;
  }

  // ---- What the names mean, letter by letter ----

  predicate SameLetter(a: char, b: char) {
    || a == b
    || ('A' <= a <= 'Z' && b as int == a as int + 32)
    || ('A' <= b <= 'Z' && a as int == b as int + 32)
  }

  // Equal up to the case of ASCII letters.
  predicate SameText(a: string, b: string) {
    |a| == |b| && forall i :: 0 <= i < |a| ==> SameLetter(a[i], b[i])
  }

  predicate MentionsAt(text: string, part: string, i: int) {
    0 <= i <= |text| - |part| && SameText(text[i..i + |part|], part)
  }

  ghost predicate Mentions(text: string, part: string) {
    exists i :: MentionsAt(text, part, i)
  }

  lemma LowerMeaning(a: string, b: string)
    ensures Lower(a) == Lower(b) <==> SameText(a, b)
  {
    if Lower(a) == Lower(b) {
      assert |Lower(a)| == |a| && |Lower(b)| == |b|;
      forall i | 0 <= i < |a| ensures SameLetter(a[i], b[i]) {
        assert Lower(a)[i] == Lower(b)[i];
      }
    }
  }

  lemma MatchAt(text: string, part: string, i: int)
    requires 0 <= i <= |text|
    ensures Lower(part) <= Lower(text)[i..] <==> MentionsAt(text, part, i)
  {
    var low, sought := Lower(text), Lower(part);
    assert |low| == |text| && |sought| == |part|;
    if i <= |text| - |part| {
      LowerMeaning(text[i..i + |part|], part);
      assert low[i..][..|part|] == Lower(text[i..i + |part|]);
      assert sought <= low[i..] <==> sought == low[i..][..|part|];
    }
  }

  lemma ContainsMeaning(text: string, part: string)
    ensures Contains(Lower(text), Lower(part)) <==> Mentions(text, part)
  {
    if i :| 0 <= i <= |Lower(text)| && Lower(part) <= Lower(text)[i..] {
      MatchAt(text, part, i);
    }
    if i :| MentionsAt(text, part, i) {
      MatchAt(text, part, i);
    }
  }

  // A window satisfies a hint by any of its names, whatever their case.
  lemma HintMeaning(c: HyprClient, hint: string)
    ensures Hinting(hint)(c) <==>
      || Mentions(c.class_, hint) || Mentions(c.initialClass, hint)
      || Mentions(c.title, hint) || Mentions(c.initialTitle, hint)
  {
    ContainsMeaning(c.class_, hint);
    ContainsMeaning(c.initialClass, hint);
    ContainsMeaning(c.title, hint);
    ContainsMeaning(c.initialTitle, hint);
  }

  lemma ClassMeaning(c: HyprClient, windowClass: string, title: string)
    ensures OfClass(windowClass)(c) <==> SameText(c.class_, windowClass) || SameText(c.initialClass, windowClass)
    ensures Titled(title)(c) <==> SameText(c.initialTitle, title)
  {
    LowerMeaning(c.class_, windowClass);
    LowerMeaning(c.initialClass, windowClass);
    LowerMeaning(c.initialTitle, title);
  }

  // From each process to its parent, never to the first process or beyond it.
  ghost predicate IsPath(path: seq<int>, table: ProcessTable) {
    forall i, j :: 0 <= i < j < |path| && j == i + 1 ==> IsParent(path[i], path[j], table)
  }

  predicate IsParent(pid: int, parent: int, table: ProcessTable) {
    pid in table && table[pid].parent == parent && parent > 1
  }

  lemma {:induction false} ChainIsPath(pid: int, table: ProcessTable, k: nat) returns (path: seq<int>)
    requires Chain(pid, table, k).Some?
    ensures |path| == k + 1 && IsPath(path, table) && path[0] == pid && path[k] == Chain(pid, table, k).value
  {
    if k == 0 {
      path := [pid];
    } else {
      var earlier := ChainIsPath(pid, table, k - 1);
      path := earlier + [Chain(pid, table, k).value];
    }
  }

  lemma {:induction false} PathIsChain(path: seq<int>, table: ProcessTable, k: nat)
    requires k < |path| && IsPath(path, table)
    ensures Chain(path[0], table, k) == Some(path[k])
  {
    if k > 0 {
      PathIsChain(path, table, k - 1);
    }
  }

  // A process descends from another exactly if a path of at most 32 processes
  // leads up to it.
  lemma DescendsByPath(pid: int, ancestor: int, table: ProcessTable)
    ensures Descends(pid, ancestor, table) <==>
      exists path: seq<int> ::
        0 < |path| <= 32 && IsPath(path, table) && path[0] == pid && path[|path| - 1] == ancestor
  {
    if Descends(pid, ancestor, table) {
      var k: nat :| k < WALK_LIMIT && Chain(pid, table, k) == Some(ancestor);
      var path := ChainIsPath(pid, table, k);
    }
    if path: seq<int> :| 0 < |path| <= 32 && IsPath(path, table) && path[0] == pid && path[|path| - 1] == ancestor {
      PathIsChain(path, table, |path| - 1);
    }
  }

  // ---- The order of the client list never matters ----

  lemma {:induction false} KeepContents(s: seq<HyprClient>, p: HyprClient -> bool, x: HyprClient)
    ensures multiset(Keep(s, p))[x] == if p(x) then multiset(s)[x] else 0
    ensures x in Keep(s, p) <==> x in s && p(x)
  {
    if s != [] {
      KeepContents(s[1..], p, x);
      assert s == [s[0]] + s[1..];
    }
  }

  lemma KeepPermuted(s: seq<HyprClient>, t: seq<HyprClient>, p: HyprClient -> bool)
    requires multiset(s) == multiset(t)
    ensures multiset(Keep(s, p)) == multiset(Keep(t, p)) && |Keep(s, p)| == |Keep(t, p)|
  {
    forall x ensures multiset(Keep(s, p))[x] == multiset(Keep(t, p))[x] {
      KeepContents(s, p, x);
      KeepContents(t, p, x);
    }
    SameLength(Keep(s, p), Keep(t, p));
  }

  lemma SameLength(s: seq<HyprClient>, t: seq<HyprClient>)
    requires multiset(s) == multiset(t)
    ensures |s| == |t| && (|s| == 1 ==> s == t)
    ensures forall c :: c in s <==> c in t
  {
    assert |multiset(s)| == |multiset(t)|;
    assert forall c :: (c in s <==> c in multiset(s)) && (c in t <==> c in multiset(t));
    if |s| == 1 {
      assert t[0] in s;
    }
  }

  lemma {:induction false} EarliestIsLeast(s: seq<HyprClient>)
    requires s != [] && forall c :: c in s ==> c.focusHistory.Some?
    ensures forall c :: c in s ==> Earliest(s) <= c.focusHistory.value
    ensures exists c :: c in s && c.focusHistory == Some(Earliest(s))
  {
    assert s[0] in s;
    if |s| > 1 {
      EarliestIsLeast(s[1..]);
      var c :| c in s[1..] && c.focusHistory == Some(Earliest(s[1..]));
      assert c in s;
    }
  }

  // A window is chosen exactly when it occurs once and was focused strictly
  // more recently than every other candidate, or is the only one.
  lemma MostRecentMeaning(candidates: seq<HyprClient>, c: HyprClient)
    requires candidates != []
    ensures MostRecent(candidates) == Chosen(c) <==> StrictlyLatest(c, candidates)
  {
    if |candidates| == 1 {
      assert candidates == [candidates[0]];
    } else if exists d :: d in candidates && d.focusHistory.None? {
      if multiset(candidates)[c] == 1 {
        SoleCandidate(candidates, c);
      }
    } else {
      EarliestIsLeast(candidates);
      RecentMeaning(candidates, Earliest(candidates), c);
    }
  }

  // Why none is chosen: several candidates, one of which was never focused, or
  // two that were focused last alike.
  lemma RefusalMeaning(candidates: seq<HyprClient>)
    requires candidates != []
    ensures MostRecent(candidates) == Refused(NoHistory) <==>
      |candidates| > 1 && exists d :: d in candidates && d.focusHistory.None?
    ensures MostRecent(candidates) == Refused(Tied) <==>
      |candidates| > 1 && forall c :: c in candidates ==> c.focusHistory.Some? && !StrictlyLatest(c, candidates)
    ensures MostRecent(candidates) != Nothing && MostRecent(candidates) != Refused(NoWindow)
  {
    forall c ensures MostRecent(candidates) == Chosen(c) <==> StrictlyLatest(c, candidates) {
      MostRecentMeaning(candidates, c);
    }
  }

  // A Herdr window is missed exactly if none hosts the session.
  lemma SelectHerdrMisses(clients: seq<HyprClient>, hosts: HyprClient -> bool, hint: string)
    ensures SelectHerdr(clients, hosts, hint) == Refused(NoWindow) <==> forall c :: c in clients ==> !hosts(c)
  {
    KeepMeaning(clients, hosts);
    var owning := Keep(clients, hosts);
    if owning != [] {
      PreferMeaning(owning, Hinting(hint));
      RefusalMeaning(Prefer(owning, Hinting(hint)));
    }
  }

  lemma SoleCandidate(candidates: seq<HyprClient>, c: HyprClient)
    requires |candidates| > 1 && multiset(candidates)[c] == 1
    ensures exists d :: d in candidates && d != c
  {
    assert candidates == [candidates[0], candidates[1]] + candidates[2..];
    assert candidates[0] in candidates && candidates[1] in candidates;
  }

  predicate StrictlyLatest(c: HyprClient, candidates: seq<HyprClient>) {
    && multiset(candidates)[c] == 1
    && forall d :: d in candidates && d != c ==>
         c.focusHistory.Some? && d.focusHistory.Some? && c.focusHistory.value < d.focusHistory.value
  }

  lemma RecentMeaning(candidates: seq<HyprClient>, best: int, c: HyprClient)
    requires |candidates| > 1 && forall d :: d in candidates ==> d.focusHistory.Some? && best <= d.focusHistory.value
    requires exists d :: d in candidates && d.focusHistory == Some(best)
    ensures Keep(candidates, FocusedAt(best)) == [c] <==> StrictlyLatest(c, candidates)
  {
    var recent := Keep(candidates, FocusedAt(best));
    forall x: HyprClient
      ensures multiset(recent)[x] == if x.focusHistory == Some(best) then multiset(candidates)[x] else 0
    {
      KeepContents(candidates, FocusedAt(best), x);
    }
    if recent == [c] {
      LoneIsRecent(candidates, recent, best, c);
    }
    if StrictlyLatest(c, candidates) {
      RecentIsLone(candidates, recent, best, c);
    }
  }

  lemma LoneIsRecent(candidates: seq<HyprClient>, recent: seq<HyprClient>, best: int, c: HyprClient)
    requires recent == [c]
    requires forall d :: d in candidates ==> d.focusHistory.Some? && best <= d.focusHistory.value
    requires forall x: HyprClient ::
      multiset(recent)[x] == if x.focusHistory == Some(best) then multiset(candidates)[x] else 0
    ensures StrictlyLatest(c, candidates)
  {
    assert multiset(recent)[c] == 1;
    forall d | d in candidates && d != c ensures c.focusHistory == Some(best) && best < d.focusHistory.value {
      assert multiset(recent)[d] == 0;
      assert multiset(candidates)[d] > 0;
    }
  }

  lemma RecentIsLone(candidates: seq<HyprClient>, recent: seq<HyprClient>, best: int, c: HyprClient)
    requires StrictlyLatest(c, candidates)
    requires exists d :: d in candidates && d.focusHistory == Some(best)
    requires forall d :: d in candidates ==> d.focusHistory.Some? && best <= d.focusHistory.value
    requires forall x: HyprClient ::
      multiset(recent)[x] == if x.focusHistory == Some(best) then multiset(candidates)[x] else 0
    ensures recent == [c]
  {
    var b :| b in candidates && b.focusHistory == Some(best);
    assert c in multiset(candidates);
    assert c in candidates;
    assert b == c;
    forall x | x in recent ensures x == c {
      assert x in multiset(recent);
      assert x in candidates;
    }
    OnlyOne(recent, c);
  }

  lemma OnlyOne(s: seq<HyprClient>, c: HyprClient)
    requires multiset(s)[c] == 1 && forall x :: x in s ==> x == c
    ensures s == [c]
  {
    assert c in s;
    if |s| > 1 {
      SoleCandidate(s, c);
    }
  }

  lemma MostRecentPermuted(s: seq<HyprClient>, t: seq<HyprClient>)
    requires s != [] && t != [] && multiset(s) == multiset(t)
    ensures MostRecent(s) == MostRecent(t)
  {
    SameLength(s, t);
    if |s| > 1 && forall c :: c in s ==> c.focusHistory.Some? {
      EarliestPermuted(s, t);
      var recent := FocusedAt(Earliest(s));
      KeepPermuted(s, t, recent);
      SameLength(Keep(s, recent), Keep(t, recent));
    }
  }

  lemma EarliestPermuted(s: seq<HyprClient>, t: seq<HyprClient>)
    requires s != [] && t != [] && forall c :: c in s <==> c in t
    requires forall c :: c in s ==> c.focusHistory.Some?
    ensures Earliest(s) == Earliest(t)
  {
    EarliestIsLeast(s);
    EarliestIsLeast(t);
  }

  lemma PreferPermuted(s: seq<HyprClient>, t: seq<HyprClient>, p: HyprClient -> bool)
    requires multiset(s) == multiset(t)
    ensures multiset(Prefer(s, p)) == multiset(Prefer(t, p))
    ensures |Prefer(s, p)| == |Prefer(t, p)| && (s != [] ==> Prefer(s, p) != [])
  {
    KeepPermuted(s, t, p);
    SameLength(s, t);
  }

  // The same window, or the same refusal, for every ordering of the clients.
  lemma SelectHerdrIgnoresOrder(s: seq<HyprClient>, t: seq<HyprClient>, hosts: HyprClient -> bool, hint: string)
    requires multiset(s) == multiset(t)
    ensures SelectHerdr(s, hosts, hint) == SelectHerdr(t, hosts, hint)
  {
    var hinted: HyprClient -> bool := Hinting(hint);
    KeepPermuted(s, t, hosts);
    var a, b := Keep(s, hosts), Keep(t, hosts);
    if a != [] {
      PreferPermuted(a, b, hinted);
      MostRecentPermuted(Prefer(a, hinted), Prefer(b, hinted));
    }
  }

  lemma SelectDesktopIgnoresOrder(s: seq<HyprClient>, t: seq<HyprClient>, windowClass: string, mainTitle: string)
    requires multiset(s) == multiset(t)
    ensures SelectDesktop(s, windowClass, mainTitle) == SelectDesktop(t, windowClass, mainTitle)
  {
    var classed: HyprClient -> bool := OfClass(windowClass);
    var main: HyprClient -> bool := Titled(mainTitle);
    var tiled: HyprClient -> bool := Tiled();
    KeepPermuted(s, t, classed);
    var a, b := Keep(s, classed), Keep(t, classed);
    if a != [] {
      PreferPermuted(a, b, main);
      var x, y := Prefer(a, main), Prefer(b, main);
      PreferPermuted(x, y, tiled);
      MostRecentPermuted(if |x| == 1 then x else Prefer(x, tiled), if |y| == 1 then y else Prefer(y, tiled));
    }
  }

  lemma KeepMeaning(s: seq<HyprClient>, p: HyprClient -> bool)
    ensures forall x :: x in Keep(s, p) <==> x in s && p(x)
    ensures forall x :: multiset(Keep(s, p))[x] == if p(x) then multiset(s)[x] else 0
    ensures Keep(s, p) == [] <==> forall x :: x in s ==> !p(x)
  {
    forall x: HyprClient
      ensures x in Keep(s, p) <==> x in s && p(x)
      ensures multiset(Keep(s, p))[x] == if p(x) then multiset(s)[x] else 0
    {
      KeepContents(s, p, x);
    }
    if Keep(s, p) != [] {
      assert Keep(s, p)[0] in Keep(s, p);
    }
  }

  ghost predicate Preferred(c: HyprClient, clients: seq<HyprClient>, hosts: HyprClient -> bool, hint: string) {
    && c in clients && hosts(c)
    && ((exists d :: d in clients && hosts(d) && Hinted(d, hint)) ==> Hinted(c, hint))
  }

  // A focused Herdr window always hosts the session, satisfies the hint if any
  // owner does, and is strictly more recent than every other such window.
  lemma SelectHerdrMeaning(clients: seq<HyprClient>, hosts: HyprClient -> bool, hint: string, c: HyprClient)
    ensures SelectHerdr(clients, hosts, hint) == Chosen(c) <==>
      && Preferred(c, clients, hosts, hint) && multiset(clients)[c] == 1
      && forall d :: Preferred(d, clients, hosts, hint) && d != c ==>
           c.focusHistory.Some? && d.focusHistory.Some? && c.focusHistory.value < d.focusHistory.value
  {
    var owning := Keep(clients, hosts);
    KeepMeaning(clients, hosts);
    if owning != [] {
      var candidates := Prefer(owning, Hinting(hint));
      PreferMeaning(owning, Hinting(hint));
      HintedMeaning(clients, hosts, hint, owning, candidates);
      if c in candidates {
        PreferCount(owning, Hinting(hint), c);
        KeepContents(clients, hosts, c);
      }
      ChosenAmong(candidates, multiset(clients)[c], c);
    }
  }

  lemma HintedMeaning(clients: seq<HyprClient>, hosts: HyprClient -> bool, hint: string,
                      owning: seq<HyprClient>, candidates: seq<HyprClient>)
    requires forall d :: d in owning <==> d in clients && hosts(d)
    requires forall d :: d in candidates <==>
      d in owning && ((exists e :: e in owning && Hinted(e, hint)) ==> Hinted(d, hint))
    ensures forall d :: d in candidates <==> Preferred(d, clients, hosts, hint)
  {
  }

  predicate IsClass(c: HyprClient, windowClass: string) {
    Lower(c.class_) == Lower(windowClass) || Lower(c.initialClass) == Lower(windowClass)
  }

  predicate HasTitle(c: HyprClient, title: string) {
    Lower(c.initialTitle) == Lower(title)
  }

  // In the class, and with the main title if any of the class has it.
  ghost predicate TitlePreferred(c: HyprClient, clients: seq<HyprClient>, windowClass: string, mainTitle: string) {
    && c in clients && IsClass(c, windowClass)
    && ((exists d :: d in clients && IsClass(d, windowClass) && HasTitle(d, mainTitle)) ==> HasTitle(c, mainTitle))
  }

  // And tiled, if any of those is.
  ghost predicate DesktopPreferred(c: HyprClient, clients: seq<HyprClient>, windowClass: string, mainTitle: string) {
    && TitlePreferred(c, clients, windowClass, mainTitle)
    && ((exists d :: TitlePreferred(d, clients, windowClass, mainTitle) && !d.floating) ==> !c.floating)
  }

  lemma PreferMeaning(s: seq<HyprClient>, p: HyprClient -> bool)
    ensures forall c :: c in Prefer(s, p) <==> c in s && ((exists d :: d in s && p(d)) ==> p(c))
    ensures forall c :: c in Prefer(s, p) ==> multiset(Prefer(s, p))[c] == multiset(s)[c]
    ensures s != [] ==> Prefer(s, p) != []
  {
    KeepMeaning(s, p);
  }

  lemma PreferOne(s: seq<HyprClient>, p: HyprClient -> bool)
    requires |s| == 1
    ensures Prefer(s, p) == s
  {
    assert s == [s[0]] && s[1..] == [] && Keep(s[1..], p) == [];
  }

  // The application's windows after both preferences.
  function DesktopCandidates(clients: seq<HyprClient>, windowClass: string, mainTitle: string): seq<HyprClient> {
    Prefer(Prefer(Keep(clients, OfClass(windowClass)), Titled(mainTitle)), Tiled())
  }

  lemma SelectDesktopIsMostRecent(clients: seq<HyprClient>, windowClass: string, mainTitle: string)
    ensures var candidates := DesktopCandidates(clients, windowClass, mainTitle);
      && (candidates == [] <==> Keep(clients, OfClass(windowClass)) == [])
      && SelectDesktop(clients, windowClass, mainTitle) == if candidates == [] then Nothing else MostRecent(candidates)
  {
    var own := Keep(clients, OfClass(windowClass));
    var titled := Prefer(own, Titled(mainTitle));
    PreferMeaning(own, Titled(mainTitle));
    PreferMeaning(titled, Tiled());
    if |titled| == 1 {
      PreferOne(titled, Tiled());
    }
  }

  lemma DesktopCandidatesMeaning(clients: seq<HyprClient>, windowClass: string, mainTitle: string)
    ensures var candidates := DesktopCandidates(clients, windowClass, mainTitle);
      forall d :: d in candidates <==> DesktopPreferred(d, clients, windowClass, mainTitle)
  {
    var titled := Prefer(Keep(clients, OfClass(windowClass)), Titled(mainTitle));
    TitledCandidates(clients, windowClass, mainTitle);
    PreferMeaning(titled, Tiled());
    TiledMeaning(clients, windowClass, mainTitle, titled, Prefer(titled, Tiled()));
  }

  lemma TitledCandidates(clients: seq<HyprClient>, windowClass: string, mainTitle: string)
    ensures var titled := Prefer(Keep(clients, OfClass(windowClass)), Titled(mainTitle));
      forall d :: d in titled <==> TitlePreferred(d, clients, windowClass, mainTitle)
  {
    var own := Keep(clients, OfClass(windowClass));
    KeepMeaning(clients, OfClass(windowClass));
    PreferMeaning(own, Titled(mainTitle));
    TitledMeaning(clients, windowClass, mainTitle, own, Prefer(own, Titled(mainTitle)));
  }

  lemma DesktopCandidatesCount(clients: seq<HyprClient>, windowClass: string, mainTitle: string, c: HyprClient)
    requires c in DesktopCandidates(clients, windowClass, mainTitle)
    ensures multiset(DesktopCandidates(clients, windowClass, mainTitle))[c] == multiset(clients)[c]
  {
    var own := Keep(clients, OfClass(windowClass));
    var titled := Prefer(own, Titled(mainTitle));
    PreferCount(titled, Tiled(), c);
    PreferCount(own, Titled(mainTitle), c);
    KeepContents(clients, OfClass(windowClass), c);
  }

  lemma PreferCount(s: seq<HyprClient>, p: HyprClient -> bool, c: HyprClient)
    requires c in Prefer(s, p)
    ensures multiset(Prefer(s, p))[c] == multiset(s)[c] && c in s
  {
    KeepContents(s, p, c);
  }

  // A desktop application's window is chosen exactly if it is the application's,
  // has the main title and is tiled as far as any does, and was focused strictly
  // more recently than every other such window; nothing is, exactly if none is
  // the application's.
  lemma SelectDesktopMeaning(clients: seq<HyprClient>, windowClass: string, mainTitle: string, c: HyprClient)
    ensures SelectDesktop(clients, windowClass, mainTitle) == Chosen(c) <==>
      && DesktopPreferred(c, clients, windowClass, mainTitle) && multiset(clients)[c] == 1
      && forall d :: DesktopPreferred(d, clients, windowClass, mainTitle) && d != c ==>
           c.focusHistory.Some? && d.focusHistory.Some? && c.focusHistory.value < d.focusHistory.value
    ensures SelectDesktop(clients, windowClass, mainTitle) == Nothing <==>
      forall d :: d in clients ==> !IsClass(d, windowClass)
  {
    var candidates := DesktopCandidates(clients, windowClass, mainTitle);
    KeepMeaning(clients, OfClass(windowClass));
    SelectDesktopIsMostRecent(clients, windowClass, mainTitle);
    DesktopCandidatesMeaning(clients, windowClass, mainTitle);
    if c in candidates {
      DesktopCandidatesCount(clients, windowClass, mainTitle, c);
    }
    if candidates != [] {
      ChosenAmong(candidates, multiset(clients)[c], c);
      ChoiceIsMade(candidates);
    }
  }

  lemma ChosenAmong(candidates: seq<HyprClient>, count: nat, c: HyprClient)
    requires candidates != [] && (c in candidates ==> multiset(candidates)[c] == count)
    ensures MostRecent(candidates) == Chosen(c) <==>
      && c in candidates && count == 1
      && forall d :: d in candidates && d != c ==>
           c.focusHistory.Some? && d.focusHistory.Some? && c.focusHistory.value < d.focusHistory.value
  {
    MostRecentMeaning(candidates, c);
    assert c in candidates <==> multiset(candidates)[c] > 0;
  }

  lemma ChoiceIsMade(candidates: seq<HyprClient>)
    requires candidates != []
    ensures MostRecent(candidates) != Nothing
  {
  }

  lemma TitledMeaning(
      clients: seq<HyprClient>, windowClass: string, mainTitle: string, own: seq<HyprClient>, titled: seq<HyprClient>)
    requires forall d :: d in own <==> d in clients && IsClass(d, windowClass)
    requires forall d :: d in titled <==>
      d in own && ((exists e :: e in own && HasTitle(e, mainTitle)) ==> HasTitle(d, mainTitle))
    ensures forall d :: d in titled <==> TitlePreferred(d, clients, windowClass, mainTitle)
  {
  }

  lemma TiledMeaning(
      clients: seq<HyprClient>, windowClass: string, mainTitle: string, titled: seq<HyprClient>, tiled: seq<HyprClient>)
    requires forall d :: d in titled <==> TitlePreferred(d, clients, windowClass, mainTitle)
    requires forall d :: d in tiled <==> d in titled && ((exists e :: e in titled && !e.floating) ==> !d.floating)
    ensures forall d :: d in tiled <==> DesktopPreferred(d, clients, windowClass, mainTitle)
  {
  }
}
