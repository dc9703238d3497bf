// The portal's public vocabulary (crates/xeneon-agent-core/src/model.rs) and
// its two roster orders.

module Optional {
  datatype Option<+T> = None | Some(value: T)

  function Lookup<K, V>(m: map<K, V>, key: K): Option<V> {
    if key in m then Some(m[key]) else None
  }
}

module PortalModel {
  import opened Optional

  datatype AgentStatus = Blocked | Done | Working | Idle | Unknown

  datatype AgentBackend = HerdrManager | T3Manager

  datatype OrderMode = Grouped | Priority

  datatype OrderSnapshot = OrderSnapshot(available: bool, mode: OrderMode)

  const ORDER_UNAVAILABLE := OrderSnapshot(false, Grouped)

  datatype Capability = Capability(capabilityId: string, expiresAt: nat, expectedRevision: nat)

  datatype AgentActions =
    AgentActions(open: bool, zoom: bool, approve: Option<Capability>, interrupt: Option<Capability>)

  const NO_ACTIONS := AgentActions(false, false, None, None)

  // A portal id is a UUIDv5 of these parts. The hash is taken to be injective,
  // so an id is represented by what it was derived from.
  datatype AgentId = HerdrAgent(herdrSession: string, terminal: string) | T3Thread(thread: string)

  // `card` stands for the display fields that no decision reads.
  datatype AgentView = AgentView(
    id: AgentId, status: AgentStatus, reviewReady: bool, session: string, focused: bool,
    observedFor: nat, stateChangeSeq: nat, sourceOrder: nat, actions: AgentActions, card: string)

  function Ids(agents: seq<AgentView>): set<AgentId> {
    set a | a in agents :: a.id
  }

  predicate DistinctIds(agents: seq<AgentView>) {
    forall i, j :: 0 <= i < j < |agents| ==> agents[i].id != agents[j].id
  }

  // ---- Comparators: negative, zero or positive, as Rust's `Ordering` ----

  function CompareInt(a: int, b: int): int {
    if a < b then -1 else if a == b then 0 else 1
  }

  function Then(first: int, second: int): int {
    if first != 0 then first else second
  }

  function CompareText(a: string, b: string): int {
    if a == [] && b == [] then 0
    else if a == [] then -1
    else if b == [] then 1
    else Then(CompareInt(a[0] as int, b[0] as int), CompareText(a[1..], b[1..]))
  }

  function CompareId(a: AgentId, b: AgentId): int {
    match (a, b)
    case (HerdrAgent(s, t), HerdrAgent(u, v)) => Then(CompareText(s, u), CompareText(t, v))
    case (HerdrAgent(_, _), T3Thread(_)) => -1
    case (T3Thread(_), HerdrAgent(_, _)) => 1
    case (T3Thread(s), T3Thread(t)) => CompareText(s, t)
  }

  function StatusRank(s: AgentStatus): nat {
    match s
    case Blocked => 0
    case Done => 1
    case Working => 2
    case Idle => 3
    case Unknown => 4
  }

  function AttentionRank(a: AgentView): nat {
    if a.reviewReady && (a.status.Done? || a.status.Idle?) then StatusRank(Done)
    else if a.status.Done? then StatusRank(Idle)
    else StatusRank(a.status)
  }

  // `apply_agent_order`'s grouped comparator and `sort_agents`' priority one.
  function Compare(mode: OrderMode, a: AgentView, b: AgentView): int {
    match mode
    case Grouped => Then(CompareInt(a.sourceOrder, b.sourceOrder), CompareId(a.id, b.id))
    case Priority =>
      Then(CompareInt(AttentionRank(a), AttentionRank(b)),
           Then(CompareInt(b.stateChangeSeq, a.stateChangeSeq),
                Then(CompareInt(a.sourceOrder, b.sourceOrder), CompareId(a.id, b.id))))
  }

  lemma {:induction false} TextOrder(a: string, b: string)
    ensures CompareText(b, a) == -CompareText(a, b)
    ensures CompareText(a, b) == 0 <==> a == b
  {
    if a != [] && b != [] {
      TextOrder(a[1..], b[1..]);
      if CompareText(a, b) == 0 {
        assert a == [a[0]] + a[1..] && b == [b[0]] + b[1..];
      }
    }
  }

  lemma {:induction false} TextTransitive(a: string, b: string, c: string)
    requires CompareText(a, b) <= 0 && CompareText(b, c) <= 0
    ensures CompareText(a, c) <= 0
    ensures CompareText(a, c) == 0 ==> CompareText(a, b) == 0 && CompareText(b, c) == 0
  {
    if a != [] && b != [] && c != [] && a[0] == b[0] == c[0] {
      TextTransitive(a[1..], b[1..], c[1..]);
    }
  }

  lemma IdOrder(a: AgentId, b: AgentId)
    ensures CompareId(b, a) == -CompareId(a, b)
    ensures CompareId(a, b) == 0 <==> a == b
  {
    match (a, b)
    case (HerdrAgent(s, t), HerdrAgent(u, v)) =>
      TextOrder(s, u);
      TextOrder(t, v);
    case (T3Thread(s), T3Thread(t)) => TextOrder(s, t);
    case _ =>
  }

  lemma IdTransitive(a: AgentId, b: AgentId, c: AgentId)
    requires CompareId(a, b) <= 0 && CompareId(b, c) <= 0
    ensures CompareId(a, c) <= 0
    ensures CompareId(a, c) == 0 ==> CompareId(a, b) == 0 && CompareId(b, c) == 0
  {
    match (a, b, c)
    case (HerdrAgent(s, t), HerdrAgent(u, v), HerdrAgent(x, y)) =>
      TextTransitive(s, u, x);
      if CompareText(s, x) == 0 { TextTransitive(t, v, y); }
    case (T3Thread(s), T3Thread(t), T3Thread(u)) => TextTransitive(s, t, u);
    case _ =>
  }

  // Both comparators are total orders, strict between cards of distinct ids.
  lemma OrderIsTotal(mode: OrderMode, a: AgentView, b: AgentView)
    ensures Compare(mode, b, a) == -Compare(mode, a, b)
    ensures Compare(mode, a, b) == 0 ==> a.id == b.id
  {
    IdOrder(a.id, b.id);
  }

  lemma OrderIsTransitive(mode: OrderMode, a: AgentView, b: AgentView, c: AgentView)
    requires Compare(mode, a, b) <= 0 && Compare(mode, b, c) <= 0
    ensures Compare(mode, a, c) <= 0
  {
    if CompareId(a.id, b.id) <= 0 && CompareId(b.id, c.id) <= 0 {
      IdTransitive(a.id, b.id, c.id);
    }
  }

  // ---- What the orders mean ----

  // Finished work that nobody has looked at.
  predicate AwaitsReview(a: AgentView) {
    a.reviewReady && (a.status.Done? || a.status.Idle?)
  }

  predicate Rests(a: AgentView) {
    !a.reviewReady && (a.status.Done? || a.status.Idle?)
  }

  // Blocked before awaiting review before working before resting before unknown.
  predicate Outranks(a: AgentView, b: AgentView) {
    || (a.status.Blocked? && !b.status.Blocked?)
    || (AwaitsReview(a) && (b.status.Working? || Rests(b) || b.status.Unknown?))
    || (a.status.Working? && (Rests(b) || b.status.Unknown?))
    || (Rests(a) && b.status.Unknown?)
  }

  predicate FirstFound(a: AgentView, b: AgentView) {
    a.sourceOrder < b.sourceOrder || (a.sourceOrder == b.sourceOrder && CompareId(a.id, b.id) <= 0)
  }

  // Within one rank the newer change comes first.
  predicate Precedes(mode: OrderMode, a: AgentView, b: AgentView) {
    match mode
    case Grouped => FirstFound(a, b)
    case Priority =>
      || Outranks(a, b)
      || (!Outranks(b, a)
          && (a.stateChangeSeq > b.stateChangeSeq || (a.stateChangeSeq == b.stateChangeSeq && FirstFound(a, b))))
  }

  // The comparators order cards by status and review, then by the newest
  // change, then by where they were found; or by that alone.
  lemma CompareMeaning(mode: OrderMode, a: AgentView, b: AgentView)
    ensures Compare(mode, a, b) <= 0 <==> Precedes(mode, a, b)
  {
    IdOrder(a.id, b.id);
  }

  // No card is shown below one it outranks.
  lemma PriorityShowsUrgentFirst(s: seq<AgentView>, i: nat, j: nat)
    requires InOrder(Priority, s) && i < j < |s|
    ensures s[j].status.Blocked? ==> s[i].status.Blocked?
    ensures AwaitsReview(s[j]) ==> s[i].status.Blocked? || AwaitsReview(s[i])
    ensures s[j].status.Working? ==> s[i].status.Blocked? || AwaitsReview(s[i]) || s[i].status.Working?
    ensures Rests(s[j]) ==> !s[i].status.Unknown?
    ensures s[i].status == s[j].status && s[i].reviewReady == s[j].reviewReady ==>
      s[i].stateChangeSeq >= s[j].stateChangeSeq
  {
    CompareMeaning(Priority, s[i], s[j]);
  }

  // ---- The roster sort (the standard library's stable `sort_by`) ----

  function Insert(mode: OrderMode, x: AgentView, s: seq<AgentView>): seq<AgentView> {
    if s == [] || Compare(mode, x, s[0]) <= 0 then [x] + s else [s[0]] + Insert(mode, x, s[1..])
  }

  function Sorted(mode: OrderMode, s: seq<AgentView>): seq<AgentView> {
    if s == [] then [] else Insert(mode, s[0], Sorted(mode, s[1..]))
  }

  ghost predicate InOrder(mode: OrderMode, s: seq<AgentView>) {
    forall i, j :: 0 <= i < j < |s| ==> Compare(mode, s[i], s[j]) <= 0
  }

  lemma {:induction false} InsertContents(mode: OrderMode, x: AgentView, s: seq<AgentView>)
    ensures multiset(Insert(mode, x, s)) == multiset(s) + multiset{x}
  {
    if s != [] && Compare(mode, x, s[0]) > 0 {
      InsertContents(mode, x, s[1..]);
      assert s == [s[0]] + s[1..];
    }
  }

  lemma PrependKeepsOrder(mode: OrderMode, x: AgentView, s: seq<AgentView>)
    requires InOrder(mode, s)
    requires forall y :: y in s ==> Compare(mode, x, y) <= 0
    ensures InOrder(mode, [x] + s)
  {
    var r := [x] + s;
    forall i, j | 0 <= i < j < |r| ensures Compare(mode, r[i], r[j]) <= 0 {
      assert r[j] == s[j - 1] && r[j] in s;
    }
  }

  lemma {:induction false} InsertKeepsOrder(mode: OrderMode, x: AgentView, s: seq<AgentView>)
    requires InOrder(mode, s)
    ensures InOrder(mode, Insert(mode, x, s))
  {
    if s == [] {
    } else if Compare(mode, x, s[0]) <= 0 {
      forall y | y in s ensures Compare(mode, x, y) <= 0 {
        if y != s[0] { OrderIsTransitive(mode, x, s[0], y); }
      }
      PrependKeepsOrder(mode, x, s);
    } else {
      var rest := Insert(mode, x, s[1..]);
      InsertKeepsOrder(mode, x, s[1..]);
      InsertContents(mode, x, s[1..]);
      OrderIsTotal(mode, x, s[0]);
      forall y | y in rest ensures Compare(mode, s[0], y) <= 0 {
        assert y in multiset(rest);
        assert y == x || y in s[1..];
      }
      PrependKeepsOrder(mode, s[0], rest);
    }
  }

  lemma {:induction false} SortContents(mode: OrderMode, s: seq<AgentView>)
    ensures multiset(Sorted(mode, s)) == multiset(s)
    ensures |Sorted(mode, s)| == |s|
  {
    if s != [] {
      SortContents(mode, s[1..]);
      InsertContents(mode, s[0], Sorted(mode, s[1..]));
      assert s == [s[0]] + s[1..];
    }
    assert |multiset(Sorted(mode, s))| == |multiset(s)|;
  }

  lemma {:induction false} SortOrders(mode: OrderMode, s: seq<AgentView>)
    ensures InOrder(mode, Sorted(mode, s))
  {
    if s != [] {
      SortOrders(mode, s[1..]);
      InsertKeepsOrder(mode, s[0], Sorted(mode, s[1..]));
    }
  }

  lemma {:induction false} AtMostOnce(s: seq<AgentView>, a: AgentView)
    requires DistinctIds(s)
    ensures multiset(s)[a] <= 1
  {
    if s != [] {
      assert s == [s[0]] + s[1..];
      AtMostOnce(s[1..], a);
      if s[0] == a {
        assert a !in s[1..];
      }
    }
  }

  lemma Repeated(t: seq<AgentView>, i: nat, j: nat)
    requires i < j < |t| && t[i] == t[j]
    ensures multiset(t)[t[j]] >= 2
  {
    assert t == t[..j] + t[j..];
    assert t[i] in t[..j] && t[j..][0] == t[j];
    assert multiset(t[..j])[t[i]] >= 1 && multiset(t[j..])[t[j]] >= 1;
  }

  lemma SameCards(s: seq<AgentView>, t: seq<AgentView>)
    requires multiset(s) == multiset(t)
    ensures |s| == |t|
    ensures forall a :: a in s <==> a in t
    ensures Ids(s) == Ids(t)
    ensures DistinctIds(s) ==> DistinctIds(t)
  {
    assert |s| == |multiset(s)| && |t| == |multiset(t)|;
    assert forall a :: (a in s <==> a in multiset(s)) && (a in t <==> a in multiset(t));
    if DistinctIds(s) {
      forall i, j | 0 <= i < j < |t| ensures t[i].id != t[j].id {
        assert t[i] in s && t[j] in s;
        if t[i] == t[j] {
          Repeated(t, i, j);
          AtMostOnce(s, t[j]);
        }
      }
    }
  }

  lemma SameHead(mode: OrderMode, s: seq<AgentView>, t: seq<AgentView>)
    requires s != [] && t != []
    requires InOrder(mode, s) && InOrder(mode, t) && DistinctIds(s)
    requires s[0] in t && t[0] in s
    ensures s[0] == t[0]
  {
    var i :| 0 <= i < |t| && t[i] == s[0];
    var j :| 0 <= j < |s| && s[j] == t[0];
    OrderIsTotal(mode, s[0], t[0]);
  }

  lemma TailContents(s: seq<AgentView>)
    requires s != []
    ensures multiset(s[1..]) == multiset(s) - multiset{s[0]}
  {
    assert s == [s[0]] + s[1..];
  }

  // An ordered roster is determined by its cards alone.
  lemma {:induction false} OrderedIsUnique(mode: OrderMode, s: seq<AgentView>, t: seq<AgentView>)
    requires InOrder(mode, s) && InOrder(mode, t) && multiset(s) == multiset(t) && DistinctIds(s)
    ensures s == t
  {
    SameCards(s, t);
    if s != [] {
      SameHead(mode, s, t);
      TailContents(s);
      TailContents(t);
      OrderedIsUnique(mode, s[1..], t[1..]);
      assert s == [s[0]] + s[1..] && t == [t[0]] + t[1..];
    }
  }

  // Either order is independent of the order the cards arrive in.
  lemma SortIgnoresInputOrder(mode: OrderMode, s: seq<AgentView>, t: seq<AgentView>)
    requires DistinctIds(s) && multiset(s) == multiset(t)
    ensures Sorted(mode, s) == Sorted(mode, t)
  {
    SortContents(mode, s);
    SortContents(mode, t);
    SortOrders(mode, s);
    SortOrders(mode, t);
    SameCards(s, Sorted(mode, s));
    OrderedIsUnique(mode, Sorted(mode, s), Sorted(mode, t));
  }

  function ApplyModes(modes: seq<OrderMode>, s: seq<AgentView>): seq<AgentView> {
    if modes == [] then s else Sorted(modes[|modes| - 1], ApplyModes(modes[..|modes| - 1], s))
  }

  // Toggling loses nothing: after any toggles the roster is what the last mode
  // makes of the cards that were there to begin with.
  lemma {:induction false} TogglingLosesNothing(modes: seq<OrderMode>, s: seq<AgentView>)
    requires DistinctIds(s)
    ensures multiset(ApplyModes(modes, s)) == multiset(s)
    ensures modes != [] ==> ApplyModes(modes, s) == Sorted(modes[|modes| - 1], s)
  {
    if modes != [] {
      var before := ApplyModes(modes[..|modes| - 1], s);
      TogglingLosesNothing(modes[..|modes| - 1], s);
      SameCards(s, before);
      SortContents(modes[|modes| - 1], before);
      SortIgnoresInputOrder(modes[|modes| - 1], before, s);
    }
  }

  // ---- Source order is always 0..n-1 ----

  function Orders(s: seq<AgentView>): multiset<int> {
    if s == [] then multiset{} else multiset{s[0].sourceOrder} + Orders(s[1..])
  }

  function Upto(n: nat): multiset<int> {
    if n == 0 then multiset{} else Upto(n - 1) + multiset{n - 1}
  }

  // The source orders are exactly 0..n-1, each once.
  predicate Numbered(s: seq<AgentView>) {
    Orders(s) == Upto(|s|)
  }

  lemma {:induction false} OrdersAppend(s: seq<AgentView>, t: seq<AgentView>)
    ensures Orders(s + t) == Orders(s) + Orders(t)
  {
    if s == [] {
      assert s + t == t;
    } else {
      assert (s + t)[0] == s[0] && (s + t)[1..] == s[1..] + t;
      OrdersAppend(s[1..], t);
    }
  }

  lemma {:induction false} CountedInPlaceIsNumbered(s: seq<AgentView>)
    requires forall i :: 0 <= i < |s| ==> s[i].sourceOrder == i
    ensures Numbered(s)
  {
    if s != [] {
      var n := |s| - 1;
      CountedInPlaceIsNumbered(s[..n]);
      assert s == s[..n] + [s[n]];
      OrdersAppend(s[..n], [s[n]]);
      assert Orders([s[n]]) == multiset{n};
    }
  }

  lemma {:induction false} InsertOrders(mode: OrderMode, x: AgentView, s: seq<AgentView>)
    ensures Orders(Insert(mode, x, s)) == Orders(s) + multiset{x.sourceOrder}
  {
    if s != [] && Compare(mode, x, s[0]) > 0 {
      InsertOrders(mode, x, s[1..]);
      assert Insert(mode, x, s)[1..] == Insert(mode, x, s[1..]);
    } else {
      assert ([x] + s)[1..] == s;
    }
  }

  lemma {:induction false} SortKeepsNumbering(mode: OrderMode, s: seq<AgentView>)
    ensures Orders(Sorted(mode, s)) == Orders(s)
  {
    if s != [] {
      SortKeepsNumbering(mode, s[1..]);
      InsertOrders(mode, s[0], Sorted(mode, s[1..]));
    }
  }

  lemma {:induction false} UptoHas(n: nat, k: int)
    ensures Upto(n)[k] == if 0 <= k < n then 1 else 0
  {
    if n > 0 { UptoHas(n - 1, k); }
  }

  lemma {:induction false} OrdersHas(s: seq<AgentView>, i: nat)
    requires i < |s|
    ensures s[i].sourceOrder in Orders(s)
  {
    if i > 0 { OrdersHas(s[1..], i - 1); }
  }

  lemma {:induction false} OrdersFrom(s: seq<AgentView>, k: int) returns (i: nat)
    requires k in Orders(s)
    ensures i < |s| && s[i].sourceOrder == k
  {
    if s[0].sourceOrder == k { return 0; }
    var j := OrdersFrom(s[1..], k);
    return j + 1;
  }

  lemma LastIsHighest(s: seq<AgentView>, n: nat)
    requires |s| == n + 1 && InOrder(Grouped, s) && Numbered(s)
    ensures s[n].sourceOrder == n
  {
    UptoHas(n + 1, n);
    var k := OrdersFrom(s, n);
    OrdersHas(s, n);
    UptoHas(n + 1, s[n].sourceOrder);
    assert k < n ==> Compare(Grouped, s[k], s[n]) <= 0;
  }

  lemma ButLastIsNumbered(s: seq<AgentView>, n: nat)
    requires |s| == n + 1 && Numbered(s) && s[n].sourceOrder == n
    ensures Numbered(s[..n])
  {
    assert s == s[..n] + [s[n]];
    OrdersAppend(s[..n], [s[n]]);
    assert Orders([s[n]]) == multiset{n};
    assert Orders(s[..n]) == Orders(s) - multiset{n};
    assert Upto(n) == Upto(n + 1) - multiset{n};
  }

  // A numbered roster in grouped order shows card i at position i.
  lemma {:induction false} NumberedInGroupedOrder(s: seq<AgentView>)
    requires InOrder(Grouped, s) && Numbered(s)
    ensures forall i :: 0 <= i < |s| ==> s[i].sourceOrder == i
  {
    if s != [] {
      var n := |s| - 1;
      LastIsHighest(s, n);
      ButLastIsNumbered(s, n);
      NumberedInGroupedOrder(s[..n]);
    }
  }

  lemma GroupedOrderPlacesEveryCard(s: seq<AgentView>)
    requires Numbered(s)
    ensures forall i :: 0 <= i < |s| ==> |Sorted(Grouped, s)| == |s| && Sorted(Grouped, s)[i].sourceOrder == i
  {
    SortContents(Grouped, s);
    SortOrders(Grouped, s);
    SortKeepsNumbering(Grouped, s);
    NumberedInGroupedOrder(Sorted(Grouped, s));
  }

  // ---- The in-place entry points ----

  function Arranged(order: OrderSnapshot, s: seq<AgentView>): seq<AgentView> {
    Sorted(if order.available then order.mode else Priority, s)
  }

  method SortAgents(agents: array<AgentView>, mode: OrderMode)
    modifies agents
    ensures agents[..] == Sorted(mode, old(agents[..]))
  {
    var sorted := Sorted(mode, agents[..]);
    SortContents(mode, agents[..]);
    forall i | 0 <= i < agents.Length {
      agents[i] := sorted[i];
    }
  }

  method ApplyAgentOrder(agents: array<AgentView>, order: OrderSnapshot)
    modifies agents
    ensures agents[..] == Arranged(order, old(agents[..]))
  {
    if order.available && order.mode == Grouped {
      SortAgents(agents, Grouped);
    } else {
      SortAgents(agents, Priority);
    }
  }
}
