// Which agent a control of the Micro picks (`effective_state`, `lights`,
// `ring_state` and `choose_agent` of config/bin/xeneon-micro-bridge).

module KeySelection {
  import opened Optional
  import opened PortalModel

  const SLOTS := 6

  datatype Card = Card(id: string, status: AgentStatus, reviewReady: bool, focused: bool, canOpen: bool)

  datatype Shade = ShadeBlocked | ShadeReview | ShadeWorking | ShadeIdle | ShadeUnknown

  // The key and what was done to it; anything else the Micro reports is `NoKey`.
  datatype Key = Slot(number: nat) | DialClockwise | DialCounter | Attention | OtherKey
  datatype Gesture = Press | Step | OtherGesture
  datatype Control = NoKey | Touched(key: Key, gesture: Gesture)

  datatype Light = Light(color: nat, breathing: bool)

  datatype Voice = VoiceRecording | VoiceProcessing | VoiceError | VoiceOther

  datatype Ring = RingVoice(voice: Voice) | RingAgents(shade: Shade)

  function EffectiveState(card: Card): Shade {
    match card.status
    case Blocked => ShadeBlocked
    case Working => ShadeWorking
    case _ =>
      if card.reviewReady then ShadeReview
      else if card.status in {Done, Idle} then ShadeIdle
      else ShadeUnknown
  }

  predicate NeedsAttention(card: Card) {
    EffectiveState(card) in {ShadeBlocked, ShadeReview}
  }

  // Blocked, or not working and awaiting review.
  predicate Waits(card: Card) {
    card.status.Blocked? || (card.reviewReady && !card.status.Working?)
  }

  lemma AttentionMeaning(card: Card)
    ensures NeedsAttention(card) <==> Waits(card)
  {
  }

  function Color(shade: Shade): nat {
    match shade
    case ShadeBlocked => 0xFFAA00
    case ShadeReview => 0x00FF00
    case ShadeWorking => 0x0080FF
    case ShadeIdle => 0x242424
    case ShadeUnknown => 0x800080
  }

  function Lights(agents: seq<Card>): seq<Light> {
    seq(SLOTS, (i: nat) =>
      if i < |agents| then Light(Color(EffectiveState(agents[i])), EffectiveState(agents[i]) == ShadeWorking)
      else Light(0, false))
  }

  function RingState(voice: Voice, agents: seq<Card>): Ring {
    if voice != VoiceOther then RingVoice(voice)
    else if exists a :: a in agents && EffectiveState(a) == ShadeBlocked then RingAgents(ShadeBlocked)
    else if exists a :: a in agents && EffectiveState(a) == ShadeReview then RingAgents(ShadeReview)
    else if exists a :: a in agents && EffectiveState(a) == ShadeWorking then RingAgents(ShadeWorking)
    else RingAgents(ShadeIdle)
  }

  // Each light is that of the agent in its place: its colour by status and
  // review, breathing while it works, dark where there is none.
  lemma LightMeaning(agents: seq<Card>, i: nat)
    requires i < 6
    ensures |Lights(agents)| == 6
    ensures i >= |agents| ==> Lights(agents)[i] == Light(0, false)
    ensures i < |agents| ==>
      var light, card := Lights(agents)[i], agents[i];
      && (light.breathing <==> card.status.Working?)
      && (card.status.Blocked? ==> light.color == 0xFFAA00)
      && (card.status.Working? ==> light.color == 0x0080FF)
      && (Waits(card) && !card.status.Blocked? ==> light.color == 0x00FF00)
      && ((card.status.Done? || card.status.Idle?) && !card.reviewReady ==> light.color == 0x242424)
      && (card.status.Unknown? && !card.reviewReady ==> light.color == 0x800080)
  {
  }

  // The ring shows what the microphone does, or else the most urgent agent.
  lemma RingMeaning(voice: Voice, agents: seq<Card>)
    ensures var ring := RingState(voice, agents);
      var blocked := exists a :: a in agents && a.status.Blocked?;
      var waiting := exists a :: a in agents && Waits(a);
      var working := exists a :: a in agents && a.status.Working?;
      && (voice != VoiceOther ==> ring == RingVoice(voice))
      && (voice == VoiceOther ==>
            && (ring == RingAgents(ShadeBlocked) <==> blocked)
            && (ring == RingAgents(ShadeReview) <==> !blocked && waiting)
            && (ring == RingAgents(ShadeWorking) <==> !blocked && !waiting && working)
            && (ring == RingAgents(ShadeIdle) <==> !blocked && !waiting && !working))
  {
    if a :| a in agents && a.status.Blocked? {
      assert EffectiveState(a) == ShadeBlocked;
    }
    if a :| a in agents && Waits(a) {
      assert EffectiveState(a) in {ShadeBlocked, ShadeReview};
    }
    if a :| a in agents && a.status.Working? {
      assert EffectiveState(a) == ShadeWorking;
    }
  }

  // The six lights tell how many agents are shown and the state of each.
  lemma LightsIdentifyStates(a: seq<Card>, b: seq<Card>)
    requires |a| <= SLOTS && |b| <= SLOTS
    ensures Lights(a) == Lights(b) <==>
      |a| == |b| && forall i :: 0 <= i < |a| ==> EffectiveState(a[i]) == EffectiveState(b[i])
  {
    if Lights(a) == Lights(b) {
      var least: nat := if |a| < |b| then |a| else |b|;
      if least < SLOTS {
        SameLight(a, b, least);
      }
      forall i: nat | i < |a| ensures EffectiveState(a[i]) == EffectiveState(b[i]) {
        SameLight(a, b, i);
      }
    }
  }

  lemma SameLight(a: seq<Card>, b: seq<Card>, i: nat)
    requires Lights(a) == Lights(b) && i < SLOTS
    ensures i < |a| <==> i < |b|
    ensures i < |a| ==> EffectiveState(a[i]) == EffectiveState(b[i])
  {
    assert Lights(a)[i] == Lights(b)[i];
  }

  // ---- Choosing ----

  // The position of the selected agent, or -1.
  function Current(agents: seq<Card>, selected: Option<string>): (i: int)
    ensures -1 <= i < |agents|
    ensures i >= 0 ==> selected == Some(agents[i].id)
    ensures i == -1 ==> forall k :: 0 <= k < |agents| ==> selected != Some(agents[k].id)
  {
    if agents == [] then -1
    else if selected == Some(agents[0].id) then 0
    else
      var rest := Current(agents[1..], selected);
      if rest == -1 then -1 else rest + 1
  }

  // The position `offset` further around a roster of n from `from`.
  function Turned(from: int, offset: nat, n: nat): nat
    requires -1 <= from < n && 0 <= from + offset < 2 * n
  {
    if from + offset < n then from + offset else from + offset - n
  }

  // The first card after `from`, going around once, that needs attention.
  function Seek(agents: seq<Card>, from: int, offset: nat): (next: Option<nat>)
    requires -1 <= from < |agents| && 0 < offset
    ensures next.Some? ==> next.value < |agents| && NeedsAttention(agents[next.value])
    decreases |agents| - offset
  {
    if offset > |agents| then None
    else
      var place := Turned(from, offset, |agents|);
      if NeedsAttention(agents[place]) then Some(place) else Seek(agents, from, offset + 1)
  }

  function Choice(control: Control, agents: seq<Card>, selected: Option<string>): Option<Card> {
    var n, current := |agents|, Current(agents, selected);
    match control
    case Touched(Slot(k), Press) => if k < SLOTS && k < n then Some(agents[k]) else None
    case Touched(DialClockwise, Step) => if n > 0 then Some(agents[Turned(current, 1, n)]) else None
    case Touched(DialCounter, Step) =>
      // From nothing selected, a step back lands on the last agent but one.
      if n == 0 then None
      else Some(agents[if current > 0 then current - 1 else if current == 0 || n == 1 then n - 1 else n - 2])
    case Touched(Attention, Press) =>
      if n == 0 then None
      else
        var next := Seek(agents, current, 1);
        if next.Some? then Some(agents[next.value]) else None
    case _ => None
  }

  lemma {:induction false} MultipleIsFar(n: int, d: nat)
    requires n >= 0
    ensures d != 0 ==> n * d >= n
  {
    if d > 1 {
      MultipleIsFar(n, d - 1);
      assert n * d == n * (d - 1) + n;
    }
  }

  lemma RemainderIsUnique(x: int, n: nat, q: int, r: nat)
    requires r < n && x == n * q + r
    ensures x % n == r
  {
    var d := q - x / n;
    assert n * d == x % n - r;
    MultipleIsFar(n, if d > 0 then d else -d);
    assert n * -d == -(n * d);
  }

  lemma Around(x: int, n: nat)
    requires 0 <= x < 2 * n
    ensures x % n == if x < n then x else x - n
  {
    RemainderIsUnique(x, n, if x < n then 0 else 1, if x < n then x else x - n);
  }

  lemma StepBelow(x: int, n: nat)
    requires -2 <= x < n && n > 0
    ensures x % n == if x >= 0 then x else if x == -1 || n == 1 then n - 1 else n - 2
  {
    if x >= 0 {
      RemainderIsUnique(x, n, 0, x);
    } else if x == -1 || n > 1 {
      RemainderIsUnique(x, n, -1, x + n);
    } else {
      RemainderIsUnique(x, n, -2, 0);
    }
  }

  method ChooseAgent(control: Control, agents: seq<Card>, selected: Option<string>) returns (chosen: Option<Card>)
    ensures chosen == Choice(control, agents, selected)
  {
    if control == NoKey {
      return None;
    }
    if control.gesture == Press && control.key.Slot? && control.key.number < SLOTS {
      var index := control.key.number;
      return if index < |agents| then Some(agents[index]) else None;
    }
    var current := Current(agents, selected);
    if control.gesture == Step && control.key in {DialClockwise, DialCounter} && agents != [] {
      var index := (current + if control.key == DialClockwise then 1 else -1) % |agents|;
      Around(current + 1, |agents|);
      StepBelow(current - 1, |agents|);
      return Some(agents[index]);
    }
    if control.gesture == Press && control.key == Attention {
      var offset := 1;
      while offset < |agents| + 1
        invariant 1 <= offset <= |agents| + 1
        invariant agents != [] ==> Seek(agents, current, 1) == Seek(agents, current, offset)
      {
        Around(current + offset, |agents|);
        var agent := agents[(current + offset) % |agents|];
        if NeedsAttention(agent) {
          return Some(agent);
        }
        offset := offset + 1;
      }
    }
    chosen := None;
  }

  // Nothing but pressing a slot or the attention key, or turning the dial, chooses.
  lemma OnlyTheseChoose(control: Control, agents: seq<Card>, selected: Option<string>)
    requires Choice(control, agents, selected).Some?
    ensures control.Touched?
    ensures control.gesture == Press ==>
      control.key == Attention || (control.key.Slot? && control.key.number < SLOTS && control.key.number < |agents|)
    ensures control.gesture == Step ==> control.key in {DialClockwise, DialCounter}
    ensures control.gesture != OtherGesture && Choice(control, agents, selected).value in agents
  {
  }

  const ATTENTION := Touched(Attention, Press)
  const CLOCKWISE := Touched(DialClockwise, Step)
  const COUNTER := Touched(DialCounter, Step)

  // ---- Presses whose opens are all acknowledged, on one roster ----

  predicate Distinct(agents: seq<Card>) {
    forall i, j :: 0 <= i < j < |agents| ==> agents[i].id != agents[j].id
  }

  // The cards chosen by `k` touches, each selected before the next.
  function Chosen(control: Control, agents: seq<Card>, selected: Option<string>, k: nat): seq<Card>
    decreases k
  {
    if k == 0 then []
    else
      match Choice(control, agents, selected)
      case None => []
      case Some(card) => [card] + Chosen(control, agents, Some(card.id), k - 1)
  }

  function SelectedAfter(control: Control, agents: seq<Card>, selected: Option<string>, k: nat): Option<string>
    decreases k
  {
    if k == 0 then selected
    else
      match Choice(control, agents, selected)
      case None => selected
      case Some(card) => SelectedAfter(control, agents, Some(card.id), k - 1)
  }

  lemma CurrentIsPosition(agents: seq<Card>, i: nat)
    requires Distinct(agents) && i < |agents|
    ensures Current(agents, Some(agents[i].id)) == i
  {
  }

  lemma ChosenStep(control: Control, agents: seq<Card>, selected: Option<string>, card: Card, k: nat)
    requires k > 0 && Choice(control, agents, selected) == Some(card)
    ensures Chosen(control, agents, selected, k) == [card] + Chosen(control, agents, Some(card.id), k - 1)
    ensures SelectedAfter(control, agents, selected, k) == SelectedAfter(control, agents, Some(card.id), k - 1)
  {
  }

  // The positions needing attention among offsets `offset + 1 .. n` from `from`.
  function Ahead(agents: seq<Card>, from: int, offset: nat): (places: seq<nat>)
    requires agents != [] ==> -1 <= from < |agents|
    ensures forall k :: 0 <= k < |places| ==> places[k] < |agents|
    decreases |agents| - offset
  {
    if offset >= |agents| then []
    else
      var place := Turned(from, offset + 1, |agents|);
      (if NeedsAttention(agents[place]) then [place] else []) + Ahead(agents, from, offset + 1)
  }

  predicate NoRepeats(places: seq<nat>) {
    forall i, j :: 0 <= i < j < |places| ==> places[i] != places[j]
  }

  function CardsAt(agents: seq<Card>, places: seq<nat>): seq<Card>
    requires forall k :: 0 <= k < |places| ==> places[k] < |agents|
  {
    if places == [] then [] else [agents[places[0]]] + CardsAt(agents, places[1..])
  }

  // The cards at those positions.
  function CardsAhead(agents: seq<Card>, from: int, offset: nat): (cards: seq<Card>)
    requires -1 <= from < |agents|
    ensures |cards| == |Ahead(agents, from, offset)|
    decreases |agents| - offset
  {
    if offset >= |agents| then []
    else
      var card := agents[Turned(from, offset + 1, |agents|)];
      (if NeedsAttention(card) then [card] else []) + CardsAhead(agents, from, offset + 1)
  }

  lemma {:induction false} CardsAheadAreAtAhead(agents: seq<Card>, from: int, offset: nat)
    requires -1 <= from < |agents| && offset <= |agents|
    ensures CardsAhead(agents, from, offset) == CardsAt(agents, Ahead(agents, from, offset))
    decreases |agents| - offset
  {
    if offset < |agents| {
      CardsAheadAreAtAhead(agents, from, offset + 1);
      AheadUnfolds(agents, from, offset);
      CardsAtFirst(agents, Turned(from, offset + 1, |agents|), Ahead(agents, from, offset + 1));
    }
  }

  lemma AheadUnfolds(agents: seq<Card>, from: int, offset: nat)
    requires -1 <= from < |agents| && offset < |agents|
    ensures var place := Turned(from, offset + 1, |agents|);
      if NeedsAttention(agents[place]) then
        && Ahead(agents, from, offset) == [place] + Ahead(agents, from, offset + 1)
        && CardsAhead(agents, from, offset) == [agents[place]] + CardsAhead(agents, from, offset + 1)
      else
        && Ahead(agents, from, offset) == Ahead(agents, from, offset + 1)
        && CardsAhead(agents, from, offset) == CardsAhead(agents, from, offset + 1)
  {
  }

  lemma CardsAtFirst(agents: seq<Card>, place: nat, rest: seq<nat>)
    requires place < |agents| && forall k :: 0 <= k < |rest| ==> rest[k] < |agents|
    ensures CardsAt(agents, [place] + rest) == [agents[place]] + CardsAt(agents, rest)
  {
    assert ([place] + rest)[1..] == rest;
  }

  // One full turn passes every position that needs attention exactly once.
  lemma {:induction false} AheadMembers(agents: seq<Card>, from: int, offset: nat)
    requires -1 <= from < |agents| && offset <= |agents|
    ensures forall i :: i in Ahead(agents, from, offset) <==>
      0 <= i < |agents| && NeedsAttention(agents[i])
      && (from + offset < i || (i <= from && from + offset < i + |agents|))
    ensures NoRepeats(Ahead(agents, from, offset))
    decreases |agents| - offset
  {
    if offset < |agents| {
      AheadMembers(agents, from, offset + 1);
      var a, rest := Ahead(agents, from, offset), Ahead(agents, from, offset + 1);
      var place := Turned(from, offset + 1, |agents|);
      assert place !in rest;
      if NeedsAttention(agents[place]) {
        assert a == [place] + rest;
      }
    }
  }

  // What `Seek` finds next is the head of what lies ahead.
  lemma {:induction false} SeekIsNext(agents: seq<Card>, from: int, offset: nat) returns (next: nat)
    requires -1 <= from < |agents| && CardsAhead(agents, from, offset) != []
    ensures offset < next <= |agents| && Seek(agents, from, offset + 1) == Some(Turned(from, next, |agents|))
    ensures CardsAhead(agents, from, offset)
      == [agents[Turned(from, next, |agents|)]] + CardsAhead(agents, from, next)
    decreases |agents| - offset
  {
    next := offset + 1;
    var card := agents[Turned(from, offset + 1, |agents|)];
    if NeedsAttention(card) {
      assert CardsAhead(agents, from, offset) == [card] + CardsAhead(agents, from, offset + 1);
    } else {
      assert CardsAhead(agents, from, offset) == CardsAhead(agents, from, offset + 1);
      next := SeekIsNext(agents, from, offset + 1);
    }
  }

  // Seeking from a place `shift` further on finds the same card, sooner.
  lemma {:induction false} SeekShifts(agents: seq<Card>, from: int, shift: nat, offset: nat)
    requires -1 <= from < |agents| && 0 < offset && 0 <= from + shift < 2 * |agents|
    requires Seek(agents, from, shift + offset).Some?
    ensures Seek(agents, Turned(from, shift, |agents|), offset) == Seek(agents, from, shift + offset)
    decreases |agents| - offset
  {
    if !NeedsAttention(agents[Turned(from, shift + offset, |agents|)]) {
      SeekShifts(agents, from, shift, offset + 1);
    }
  }

  lemma OnePress(agents: seq<Card>, from: int, offset: nat, selected: Option<string>) returns (next: nat)
    requires -1 <= from < |agents| && CardsAhead(agents, from, offset) != [] && offset <= |agents|
    requires Current(agents, selected) == if offset == 0 then from else Turned(from, offset, |agents|)
    ensures offset < next <= |agents|
    ensures Choice(ATTENTION, agents, selected) == Some(agents[Turned(from, next, |agents|)])
    ensures CardsAhead(agents, from, offset)
      == [agents[Turned(from, next, |agents|)]] + CardsAhead(agents, from, next)
  {
    next := SeekIsNext(agents, from, offset);
    if offset > 0 {
      SeekShifts(agents, from, offset, 1);
    }
  }

  lemma {:induction false} ChosenIsAhead(
      agents: seq<Card>, from: int, offset: nat, selected: Option<string>, cards: seq<Card>)
    requires Distinct(agents) && -1 <= from < |agents| && offset <= |agents|
    requires Current(agents, selected) == if offset == 0 then from else Turned(from, offset, |agents|)
    requires cards == CardsAhead(agents, from, offset)
    ensures Chosen(ATTENTION, agents, selected, |cards|) == cards
    decreases |agents| - offset
  {
    if cards != [] {
      var next := OnePress(agents, from, offset, selected);
      var card := agents[Turned(from, next, |agents|)];
      CurrentIsPosition(agents, Turned(from, next, |agents|));
      ChosenIsAhead(agents, from, next, Some(card.id), cards[1..]);
      ChosenStep(ATTENTION, agents, selected, card, |cards|);
    }
  }

  // With k agents needing attention, k presses open each of them once, in
  // roster order from the selected one, whatever is selected.
  lemma AttentionIsFair(agents: seq<Card>, selected: Option<string>)
    requires Distinct(agents)
    ensures var order := Ahead(agents, Current(agents, selected), 0);
      && (forall i :: i in order <==> 0 <= i < |agents| && Waits(agents[i]))
      && NoRepeats(order)
      && Chosen(ATTENTION, agents, selected, |order|) == CardsAt(agents, order)
  {
    if agents != [] {
      var from := Current(agents, selected);
      AheadMembers(agents, from, 0);
      forall i | 0 <= i < |agents| ensures NeedsAttention(agents[i]) <==> Waits(agents[i]) {
        AttentionMeaning(agents[i]);
      }
      CardsAheadAreAtAhead(agents, from, 0);
      ChosenIsAhead(agents, from, 0, selected, CardsAhead(agents, from, 0));
    }
  }

  // ---- The dial ----

  // The k cards that follow position `from`, going around.
  function Following(agents: seq<Card>, from: int, k: nat): (cards: seq<Card>)
    requires agents != [] && -1 <= from < |agents|
    ensures |cards| == k
    decreases k
  {
    if k == 0 then []
    else
      var next := Turned(from, 1, |agents|);
      [agents[next]] + Following(agents, next, k - 1)
  }

  lemma {:induction false} DialFollowsRoster(agents: seq<Card>, selected: Option<string>, k: nat)
    requires Distinct(agents) && agents != []
    ensures Chosen(CLOCKWISE, agents, selected, k) == Following(agents, Current(agents, selected), k)
    decreases k
  {
    if k > 0 {
      var next := Turned(Current(agents, selected), 1, |agents|);
      CurrentIsPosition(agents, next);
      ChosenStep(CLOCKWISE, agents, selected, agents[next], k);
      DialFollowsRoster(agents, Some(agents[next].id), k - 1);
    }
  }

  lemma {:induction false} FollowingIsRotation(agents: seq<Card>, from: int, k: nat)
    requires agents != [] && -1 <= from < |agents| && k <= |agents|
    ensures forall j :: 0 <= j < k ==> Following(agents, from, k)[j] == agents[Turned(from, j + 1, |agents|)]
    decreases k
  {
    if k > 0 {
      FollowingIsRotation(agents, Turned(from, 1, |agents|), k - 1);
    }
  }

  lemma FullTurn(agents: seq<Card>, from: int)
    requires agents != [] && -1 <= from < |agents|
    ensures Following(agents, from, |agents|) == Rotated(agents, from + 1)
  {
    FollowingIsRotation(agents, from, |agents|);
  }

  // n clockwise steps visit all n agents once each: a rotation of the roster.
  lemma DialVisitsEveryAgent(agents: seq<Card>, selected: Option<string>)
    requires Distinct(agents) && agents != []
    ensures Chosen(CLOCKWISE, agents, selected, |agents|) == Rotated(agents, Current(agents, selected) + 1)
  {
    FullTurn(agents, Current(agents, selected));
    DialFollowsRoster(agents, selected, |agents|);
  }

  function Rotated(agents: seq<Card>, from: nat): (cards: seq<Card>)
    requires from <= |agents|
    ensures multiset(cards) == multiset(agents)
  {
    assert agents == agents[..from] + agents[from..];
    agents[from..] + agents[..from]
  }

  lemma {:induction false} SelectedInTwoParts(
      control: Control, agents: seq<Card>, selected: Option<string>, j: nat, k: nat)
    requires agents != [] && control in {CLOCKWISE, COUNTER}
    ensures SelectedAfter(control, agents, selected, j + k)
      == SelectedAfter(control, agents, SelectedAfter(control, agents, selected, j), k)
    decreases j
  {
    if j > 0 {
      var card := Choice(control, agents, selected).value;
      ChosenStep(control, agents, selected, card, j);
      ChosenStep(control, agents, selected, card, j + k);
      SelectedInTwoParts(control, agents, Some(card.id), j - 1, k);
    }
  }

  // m steps one way are undone by m steps back exactly when a shown agent was
  // selected to begin with.
  lemma DialUndoes(agents: seq<Card>, selected: Option<string>, m: nat)
    requires Distinct(agents) && agents != []
    ensures SelectedAfter(COUNTER, agents, SelectedAfter(CLOCKWISE, agents, selected, m), m) == selected
      <==> m == 0 || Current(agents, selected) >= 0
  {
    DialUndoesFrom(agents, selected, SelectedAfter(CLOCKWISE, agents, selected, m), m);
  }

  // From nothing selected, a step forth and one back end on the last agent,
  // and a step back alone on the last but one.
  lemma NothingSelectedIsNotRestored(a: Card, b: Card, c: Card)
    requires Distinct([a, b, c])
    ensures SelectedAfter(COUNTER, [a, b, c], SelectedAfter(CLOCKWISE, [a, b, c], None, 1), 1) == Some(c.id)
    ensures Choice(COUNTER, [a, b, c], None) == Some(b)
  {
    var agents := [a, b, c];
    CurrentIsPosition(agents, 0);
    ChosenStep(CLOCKWISE, agents, None, a, 1);
    ChosenStep(COUNTER, agents, Some(a.id), c, 1);
    assert SelectedAfter(CLOCKWISE, agents, Some(a.id), 0) == Some(a.id);
    assert SelectedAfter(COUNTER, agents, Some(c.id), 0) == Some(c.id);
  }

  lemma {:induction false} DialUndoesFrom(agents: seq<Card>, selected: Option<string>, forth: Option<string>, m: nat)
    requires Distinct(agents) && agents != [] && forth == SelectedAfter(CLOCKWISE, agents, selected, m)
    ensures SelectedAfter(COUNTER, agents, forth, m) == selected <==> m == 0 || Current(agents, selected) >= 0
    decreases m
  {
    if m > 0 {
      var i := Current(agents, selected);
      var j := if i == |agents| - 1 then 0 else i + 1;
      var next := Some(agents[j].id);
      StepForth(agents, selected, i, j, m);
      DialUndoesFrom(agents, next, forth, m - 1);
      SelectedInTwoParts(COUNTER, agents, forth, m - 1, 1);
      StepBack(agents, next, selected, i, j);
    }
  }

  lemma StepForth(agents: seq<Card>, selected: Option<string>, i: int, j: nat, m: nat)
    requires Distinct(agents) && agents != [] && i == Current(agents, selected) && m > 0
    requires j == if i == |agents| - 1 then 0 else i + 1
    ensures Current(agents, Some(agents[j].id)) == j
    ensures SelectedAfter(CLOCKWISE, agents, selected, m) == SelectedAfter(CLOCKWISE, agents, Some(agents[j].id), m - 1)
  {
    CurrentIsPosition(agents, j);
    ChosenStep(CLOCKWISE, agents, selected, agents[j], m);
  }

  lemma StepBack(agents: seq<Card>, next: Option<string>, selected: Option<string>, i: int, j: nat)
    requires agents != [] && i == Current(agents, selected) && j == Current(agents, next)
    requires j == if i == |agents| - 1 then 0 else i + 1
    ensures SelectedAfter(COUNTER, agents, next, 1) == selected <==> i >= 0
  {
    var card := Choice(COUNTER, agents, next).value;
    ChosenStep(COUNTER, agents, next, card, 1);
    assert SelectedAfter(COUNTER, agents, Some(card.id), 0) == Some(card.id);
  }
}
