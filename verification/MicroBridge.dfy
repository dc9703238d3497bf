// The lighting and action protocol of the Micro controller bridge (`Bridge`,
// config/bin/xeneon-micro-bridge): no control acts before the device has
// acknowledged both lighting requests of the frame that shows its agent.

module MicroBridge {
  import opened Optional
  import opened PortalModel
  import opened KeySelection

  datatype Snapshot = Snapshot(sequence: nat, t3: bool, connected: bool, voice: Voice, agents: seq<Card>)

  datatype Signature = Signature(lights: seq<Light>, ids: seq<string>, ring: Ring)

  datatype LightsRequest = LightsRequest(request: nat, ids: seq<string>)

  datatype Pending = Pending(request: nat, agent: string, since: real)

  datatype State = State(
    snapshot: Option<Snapshot>, received: real, selected: Option<string>, pending: Option<Pending>,
    frame: Option<Signature>, lightsRequest: Option<LightsRequest>, ringRequest: Option<nat>, ledSentAt: real,
    acknowledged: seq<string>, portal: bool, micro: bool, issued: nat)

  const START := State(None, 0.0, None, None, None, None, None, 0.0, [], false, false, 0)

  datatype PortalMessage =
    | SnapshotMessage(snapshot: Snapshot)
    | ActionResult(request: nat, ok: bool)
    | OtherMessage

  datatype MicroMessage = MicroMessage(request: Option<nat>, ok: bool, control: Control)

  // What passes over the two sockets in either direction, as it passes, and
  // what the bridge does that can be seen from outside.
  datatype Wire =
    | DeviceSaid(answers: Option<nat>, positive: bool)
    | PortalSaid(message: PortalMessage, heardAt: real)
    | SentLights(request: nat, ids: seq<string>, lights: seq<Light>, sentAt: real)
    | SentRing(request: nat, ring: Ring)
    | SentOpen(request: nat, sequence: nat, agent: string, slot: nat, at: real)
    | OpenExpired(request: nat, at: real)
    | Published(slots: seq<string>)
    | LetGo
    | PortalLost

  // What the host does during one update.
  datatype Host = Host(marked: bool, taken: bool, lightsSent: bool, ringSent: bool, published: bool)

  datatype Effect = Effect(state: State, wire: seq<Wire>, ok: bool)

  // ---- What each step does ----

  function Agents(snapshot: Option<Snapshot>): (agents: seq<Card>)
    ensures |agents| <= SLOTS
  {
    if snapshot.None? || !snapshot.value.connected then []
    else if |snapshot.value.agents| <= SLOTS then snapshot.value.agents
    else snapshot.value.agents[..SLOTS]
  }

  function IdsOf(agents: seq<Card>): (ids: seq<string>)
    ensures |ids| == |agents| && forall i :: 0 <= i < |ids| ==> ids[i] == agents[i].id
  {
    seq(|agents|, i requires 0 <= i < |agents| => agents[i].id)
  }

  predicate IsT3(snapshot: Option<Snapshot>) {
    snapshot.Some? && snapshot.value.t3
  }

  function FocusedId(agents: seq<Card>): Option<string> {
    if agents == [] then None else if agents[0].focused then Some(agents[0].id) else FocusedId(agents[1..])
  }

  function Reselected(selected: Option<string>, agents: seq<Card>): Option<string> {
    if selected.Some? && selected.value in IdsOf(agents) then selected else FocusedId(agents)
  }

  function SignatureOf(snapshot: Snapshot): Signature {
    var agents := Agents(Some(snapshot));
    Signature(Lights(agents), IdsOf(agents), RingState(snapshot.voice, snapshot.agents))
  }

  function Released(s: State): State {
    s.(micro := false, frame := None, pending := None, lightsRequest := None, ringRequest := None, acknowledged := [])
  }

  // Every error releases the Micro and drops the portal.
  function Failed(s: State): State {
    Released(s).(portal := false, snapshot := None)
  }

  function Expired(s: State, now: real): Effect {
    if s.pending.Some? && now - s.pending.value.since > 25.0
    then Effect(s.(pending := None), [OpenExpired(s.pending.value.request, now)], true)
    else Effect(s, [], true)
  }

  predicate Stale(s: State, now: real) {
    !IsT3(s.snapshot) || now - s.received > 4.0
  }

  predicate Settled(s: State) {
    s.lightsRequest.None? && s.ringRequest.None?
  }

  // Sends a new frame when what should be shown has changed.
  function Relit(s: State, now: real, host: Host): Effect
    requires s.snapshot.Some?
  {
    var signature := SignatureOf(s.snapshot.value);
    if s.frame == Some(signature) then Effect(s, [], true)
    else
      var lights := SentLights(s.issued, signature.ids, signature.lights, now);
      if !host.lightsSent then Effect(s.(issued := s.issued + 1), [lights], false)
      else
        var asked := s.(ringRequest := Some(s.issued + 1), ledSentAt := now, issued := s.issued + 2);
        var wire := [lights, SentRing(s.issued + 1, signature.ring)];
        if !host.ringSent then Effect(asked, wire, false)
        else
          var request := LightsRequest(s.issued, signature.ids);
          Effect(asked.(lightsRequest := Some(request), frame := Some(signature)), wire, true)
  }

  function Shown(s: State, host: Host): Effect {
    if Settled(s) && s.acknowledged == IdsOf(Agents(s.snapshot))
    then Effect(s, [Published(s.acknowledged)], host.published)
    else Effect(s, [], true)
  }

  function Then(first: Effect, second: Effect): Effect {
    Effect(second.state, first.wire + second.wire, second.ok)
  }

  function Refreshed(s: State, now: real, host: Host): Effect
    requires s.snapshot.Some?
  {
    var lit := Relit(s, now, host);
    if !lit.ok then lit else Then(lit, Shown(lit.state, host))
  }

  function Driven(s: State, now: real, host: Host): Effect
    requires s.snapshot.Some?
  {
    if !s.micro && !host.taken then Effect(s, [], false)
    else
      var held := s.(micro := true);
      if !Settled(held) && now - held.ledSentAt > 5.0 then Effect(held, [], false)
      else
        Refreshed(held.(selected := Reselected(held.selected, Agents(held.snapshot))), now, host)
  }

  function Continued(s: State, now: real, host: Host): Effect {
    if Stale(s, now) then if s.micro || host.marked then Effect(Released(s), [LetGo], true) else Effect(s, [], true)
    else Driven(s, now, host)
  }

  function Updated(s: State, now: real, host: Host): Effect {
    var expired := Expired(s, now);
    Then(expired, Continued(expired.state, now, host))
  }

  function PortalEvent(s: State, message: PortalMessage, now: real): Effect {
    match message
    case SnapshotMessage(snapshot) =>
      if |snapshot.agents| > 64 then Effect(s, [], false)
      else Effect(s.(snapshot := Some(snapshot), received := now), [], true)
    case ActionResult(request, ok) =>
      if s.pending.Some? && s.pending.value.request == request
      then Effect(s.(pending := None, selected := if ok then Some(s.pending.value.agent) else s.selected), [], true)
      else Effect(s, [], true)
    case OtherMessage => Effect(s, [], true)
  }

  function LightsAnswered(s: State, message: MicroMessage, published: bool): Effect {
    if s.lightsRequest.None? || message.request != Some(s.lightsRequest.value.request) then Effect(s, [], true)
    else if !message.ok then Effect(s, [], false)
    else
      var lit := s.(acknowledged := s.lightsRequest.value.ids, lightsRequest := None);
      if s.ringRequest.None? then Effect(lit, [Published(lit.acknowledged)], published) else Effect(lit, [], true)
  }

  function RingAnswered(s: State, message: MicroMessage, published: bool): Effect {
    if s.ringRequest.None? || message.request != s.ringRequest then Effect(s, [], true)
    else if !message.ok then Effect(s, [], false)
    else
      var lit := s.(ringRequest := None);
      if s.lightsRequest.None? then Effect(lit, [Published(lit.acknowledged)], published) else Effect(lit, [], true)
  }

  predicate Gated(s: State, now: real) {
    Stale(s, now) || s.pending.Some? || !Settled(s) || s.acknowledged != IdsOf(Agents(s.snapshot))
  }

  function Acted(s: State, control: Control, now: real, delivered: bool): Effect {
    if Gated(s, now) then Effect(s, [], true)
    else
      var target := Choice(control, Agents(s.snapshot), s.selected);
      if target.None? || !target.value.canOpen then Effect(s, [], true)
      else
        var slot := Current(Agents(s.snapshot), Some(target.value.id));
        var open := SentOpen(s.issued, s.snapshot.value.sequence, target.value.id, if slot < 0 then 0 else slot, now);
        var sent := s.(issued := s.issued + 1);
        if !delivered then Effect(sent, [open], false)
        else Effect(sent.(pending := Some(Pending(s.issued, target.value.id, now))), [open], true)
  }

  function Answered(s: State, message: MicroMessage, published: bool): Effect {
    var lights := LightsAnswered(s, message, published);
    if !lights.ok then lights else Then(lights, RingAnswered(lights.state, message, published))
  }

  function MicroEvent(s: State, message: MicroMessage, now: real, published: bool, delivered: bool): Effect {
    var answered := Answered(s, message, published);
    if !answered.ok then answered else Then(answered, Acted(answered.state, message.control, now, delivered))
  }

  lemma Appended(before: seq<Wire>, first: Effect, second: Effect)
    ensures before + first.wire + second.wire == before + Then(first, second).wire
  {
  }

  lemma HeardAfter(before: seq<Wire>, w: Wire, effect: Effect)
    ensures before + [w] + effect.wire == before + Heard(w, effect).wire
  {
  }

  // ---- The bridge ----

  class Bridge {
    var snapshot: Option<Snapshot>
    var received: real
    var selected: Option<string>
    var pending: Option<Pending>
    var frame: Option<Signature>
    var lightsRequest: Option<LightsRequest>
    var ringRequest: Option<nat>
    var ledSentAt: real
    var acknowledged: seq<string>
    var portal: bool
    var micro: bool
    var issued: nat
    ghost var wire: seq<Wire>

    function Value(): State
      reads this
    {
      State(snapshot, received, selected, pending, frame, lightsRequest, ringRequest, ledSentAt, acknowledged,
        portal, micro, issued)
    }

    constructor ()
      ensures Value() == START && wire == []
    {
      snapshot, received, selected, pending := None, 0.0, None, None;
      frame, lightsRequest, ringRequest, ledSentAt := None, None, None, 0.0;
      acknowledged, portal, micro, issued, wire := [], false, false, 0, [];
    }

    ghost predicate Did(before: State, wireBefore: seq<Wire>, effect: Effect, ok: bool)
      reads this
    {
      Value() == effect.state && wire == wireBefore + effect.wire && ok == effect.ok
    }

    ghost method Log(w: Wire)
      modifies `wire
      ensures wire == old(wire) + [w]
    {
      wire := wire + [w];
    }

    // A request no one else has used.
    method Fresh() returns (request: nat)
      modifies `issued
      ensures request == old(issued) && issued == old(issued) + 1
    {
      request := issued;
      issued := issued + 1;
    }

    method Release()
      modifies this
      ensures Value() == Released(old(Value())) && wire == old(wire) + [LetGo]
    {
      micro := false;
      frame, pending, lightsRequest, ringRequest := None, None, None, None;
      acknowledged := [];
      Log(LetGo);
    }

    // What `run` does about any error.
    method Fail()
      modifies this
      ensures Value() == Failed(old(Value())) && wire == old(wire) + [LetGo, PortalLost]
    {
      Release();
      portal, snapshot := false, None;
      Log(PortalLost);
    }

    method SendFrame(now: real, host: Host) returns (ok: bool)
      requires snapshot.Some?
      modifies this
      ensures Did(old(Value()), old(wire), Relit(old(Value()), now, host), ok)
    {
      var signature := SignatureOf(snapshot.value);
      if frame != Some(signature) {
        var request := Fresh();
        Log(SentLights(request, signature.ids, signature.lights, now));
        if !host.lightsSent {
          return false;
        }
        var ring := Fresh();
        ringRequest := Some(ring);
        ledSentAt := now;
        Log(SentRing(ring, signature.ring));
        if !host.ringSent {
          return false;
        }
        lightsRequest := Some(LightsRequest(request, signature.ids));
        frame := Some(signature);
      }
      ok := true;
    }

    method ExpirePending(now: real)
      modifies this
      ensures Did(old(Value()), old(wire), Expired(old(Value()), now), true)
    {
      if pending.Some? && now - pending.value.since > 25.0 {
        Log(OpenExpired(pending.value.request, now));
        pending := None;
      }
    }

    method PublishWhenSettled(host: Host) returns (ok: bool)
      modifies this
      ensures Did(old(Value()), old(wire), Shown(old(Value()), host), ok)
    {
      ok := true;
      if acknowledged == IdsOf(Agents(snapshot)) && lightsRequest.None? && ringRequest.None? {
        Log(Published(acknowledged));
        ok := host.published;
      }
    }

    method Refresh(now: real, host: Host) returns (ok: bool)
      requires snapshot.Some?
      modifies this
      ensures Did(old(Value()), old(wire), Refreshed(old(Value()), now, host), ok)
    {
      ok := SendFrame(now, host);
      if ok {
        ok := PublishWhenSettled(host);
      }
    }

    method Drive(now: real, host: Host) returns (ok: bool)
      requires snapshot.Some?
      modifies this
      ensures Did(old(Value()), old(wire), Driven(old(Value()), now, host), ok)
    {
      if !micro {
        if !host.taken {
          return false;
        }
        micro := true;
      }
      if (lightsRequest.Some? || ringRequest.Some?) && now - ledSentAt > 5.0 {
        return false;
      }
      selected := Reselected(selected, Agents(snapshot));
      ok := Refresh(now, host);
    }

    method Continue(now: real, host: Host) returns (ok: bool)
      modifies this
      ensures Did(old(Value()), old(wire), Continued(old(Value()), now, host), ok)
    {
      if !IsT3(snapshot) || now - received > 4.0 {
        if micro || host.marked {
          Release();
        }
        return true;
      }
      ok := Drive(now, host);
    }

    method Update(now: real, host: Host) returns (ok: bool)
      modifies this
      ensures Did(old(Value()), old(wire), Updated(old(Value()), now, host), ok)
    {
      ghost var first, before := Expired(Value(), now), wire;
      ExpirePending(now);
      ghost var second := Continued(first.state, now, host);
      ok := Continue(now, host);
      Appended(before, first, second);
    }

    method OnPortal(message: PortalMessage, now: real) returns (ok: bool)
      modifies this
      ensures Did(old(Value()), old(wire), PortalEvent(old(Value()), message, now), ok)
    {
      match message {
        case SnapshotMessage(heard) =>
          if |heard.agents| > 64 {
            return false;
          }
          snapshot, received := Some(heard), now;
        case ActionResult(request, succeeded) =>
          if pending.Some? && pending.value.request == request {
            if succeeded {
              selected := Some(pending.value.agent);
            }
            pending := None;
          }
        case OtherMessage =>
      }
      ok := true;
    }

    method AnswerLights(message: MicroMessage, published: bool) returns (ok: bool)
      modifies this
      ensures Did(old(Value()), old(wire), LightsAnswered(old(Value()), message, published), ok)
    {
      ok := true;
      if lightsRequest.Some? && message.request == Some(lightsRequest.value.request) {
        if !message.ok {
          return false;
        }
        acknowledged := lightsRequest.value.ids;
        lightsRequest := None;
        if ringRequest.None? {
          Log(Published(acknowledged));
          ok := published;
        }
      }
    }

    method AnswerRing(message: MicroMessage, published: bool) returns (ok: bool)
      modifies this
      ensures Did(old(Value()), old(wire), RingAnswered(old(Value()), message, published), ok)
    {
      ok := true;
      if ringRequest.Some? && message.request == ringRequest {
        if !message.ok {
          return false;
        }
        ringRequest := None;
        if lightsRequest.None? {
          Log(Published(acknowledged));
          ok := published;
        }
      }
    }

    method Answer(message: MicroMessage, published: bool) returns (ok: bool)
      modifies this
      ensures Did(old(Value()), old(wire), Answered(old(Value()), message, published), ok)
    {
      ok := AnswerLights(message, published);
      if ok {
        ok := AnswerRing(message, published);
      }
    }

    method OnMicro(message: MicroMessage, now: real, published: bool, delivered: bool) returns (ok: bool)
      modifies this
      ensures Did(old(Value()), old(wire), MicroEvent(old(Value()), message, now, published, delivered), ok)
    {
      ok := Answer(message, published);
      if ok {
        ok := Act(message.control, now, delivered);
      }
    }

    method Act(control: Control, now: real, delivered: bool) returns (ok: bool)
      modifies this
      ensures Did(old(Value()), old(wire), Acted(old(Value()), control, now, delivered), ok)
    {
      if !IsT3(snapshot) || pending.Some? || now - received > 4.0 || lightsRequest.Some? || ringRequest.Some?
        || acknowledged != IdsOf(Agents(snapshot))
      {
        return true;
      }
      var target := ChooseAgent(control, Agents(snapshot), selected);
      if target.Some? && target.value.canOpen {
        var slot := Current(Agents(snapshot), Some(target.value.id));
        var request := Fresh();
        Log(SentOpen(request, snapshot.value.sequence, target.value.id, if slot < 0 then 0 else slot, now));
        if !delivered {
          return false;
        }
        pending := Some(Pending(request, target.value.id, now));
      }
      ok := true;
    }

    method HearPortal(message: PortalMessage, now: real) returns (ok: bool)
      modifies this
      ensures Did(old(Value()), old(wire), Heard(PortalSaid(message, now), PortalEvent(old(Value()), message, now)), ok)
    {
      Log(PortalSaid(message, now));
      ok := OnPortal(message, now);
    }

    method HearMicro(message: MicroMessage, now: real, published: bool, delivered: bool) returns (ok: bool)
      modifies this
      ensures Did(old(Value()), old(wire),
        Heard(DeviceSaid(message.request, message.ok), MicroEvent(old(Value()), message, now, published, delivered)),
        ok)
    {
      ghost var before, said := wire, DeviceSaid(message.request, message.ok);
      ghost var effect := MicroEvent(Value(), message, now, published, delivered);
      Log(said);
      ok := OnMicro(message, now, published, delivered);
      HeardAfter(before, said, effect);
    }

    method Try(event: Event) returns (ok: bool)
      modifies this
      ensures Did(old(Value()), old(wire), Tried(old(Value()), event), ok)
    {
      ok := true;
      match event {
        case Connected(reached) =>
          if !portal {
            portal, ok := reached, reached;
          }
        case Tick(now, host) =>
          if portal {
            ok := Update(now, host);
          }
        case FromPortal(message, now) =>
          if portal {
            ok := HearPortal(message, now);
          }
        case FromMicro(answer, now, published, delivered) =>
          if micro {
            ok := HearMicro(answer, now, published, delivered);
          }
      }
    }

    // One round of `run`: the event, and on any error the release.
    method Handle(event: Event)
      modifies this
      ensures Did(old(Value()), old(wire), StepOf(old(Value()), event), StepOf(old(Value()), event).ok)
    {
      var ok := Try(event);
      if !ok {
        Fail();
      }
    }
  }

  // ---- What somebody watching the wire knows ----

  datatype View = View(
    lights: Option<LightsRequest>, lightsOk: bool, shown: seq<Light>,
    ring: Option<nat>, ringOk: bool, ambient: Ring,
    open: Option<Pending>, snapshot: Option<Snapshot>, heard: real, sent: nat)
  {
    // The device answered both requests of the last frame of this session.
    predicate Lit() {
      lights.Some? && lightsOk && ring.Some? && ringOk
    }
  }

  const DARK := View(None, false, [], None, false, RingAgents(ShadeIdle), None, None, 0.0, 0)

  // An answer counts only for the request it names, and only if positive.
  function See(v: View, w: Wire): View {
    match w
    case DeviceSaid(None, _) => v
    case DeviceSaid(Some(request), ok) =>
      v.(lightsOk := v.lightsOk || (ok && v.lights.Some? && v.lights.value.request == request),
         ringOk := v.ringOk || (ok && v.ring == Some(request)))
    case PortalSaid(SnapshotMessage(snapshot), at) => v.(snapshot := Some(snapshot), heard := at)
    case PortalSaid(ActionResult(request, _), _) =>
      v.(open := if v.open.Some? && v.open.value.request == request then None else v.open)
    case PortalSaid(OtherMessage, _) => v
    case SentLights(request, ids, lights, _) =>
      v.(lights := Some(LightsRequest(request, ids)), lightsOk := false, shown := lights,
         ring := None, ringOk := false, sent := v.sent + 1)
    case SentRing(request, ring) => v.(ring := Some(request), ringOk := false, ambient := ring, sent := v.sent + 1)
    case SentOpen(request, _, agent, _, at) => v.(open := Some(Pending(request, agent, at)), sent := v.sent + 1)
    case OpenExpired(_, _) => v.(open := None)
    case Published(_) => v
    case LetGo => v.(lights := None, lightsOk := false, ring := None, ringOk := false, open := None)
    case PortalLost => v.(snapshot := None)
  }

  function SeeAll(v: View, wire: seq<Wire>): View
    decreases |wire|
  {
    if wire == [] then v else SeeAll(See(v, wire[0]), wire[1..])
  }

  // The last snapshot heard is at most four seconds old.
  predicate Recent(v: View, at: real) {
    at - v.heard <= 4.0
  }

  // What may pass next. Frames and opens need a recent snapshot. An open needs
  // a fully acknowledged frame that shows its agent in the slot it has now, the
  // sequence last heard, and no open pending.
  ghost predicate Permitted(v: View, w: Wire) {
    match w
    case DeviceSaid(_, _) => true
    case PortalSaid(_, _) => true
    case SentLights(request, ids, lights, at) =>
      && request == v.sent && Usable(v.snapshot) && Recent(v, at)
      && ids == IdsOf(Agents(v.snapshot)) && lights == Lights(Agents(v.snapshot))
    case SentRing(request, ring) =>
      && request == v.sent && v.lights.Some? && v.ring.None? && Usable(v.snapshot)
      && ring == RingState(v.snapshot.value.voice, v.snapshot.value.agents)
    case SentOpen(request, sequence, agent, slot, at) =>
      && request == v.sent && v.Lit() && v.open.None? && Recent(v, at)
      && Usable(v.snapshot) && sequence == v.snapshot.value.sequence
      && v.lights.value.ids == IdsOf(Agents(v.snapshot))
      && slot < |v.lights.value.ids| && v.lights.value.ids[slot] == agent
      && exists card :: card in Agents(v.snapshot) && card.id == agent && card.canOpen
    case OpenExpired(request, at) => v.open.Some? && v.open.value.request == request && at - v.open.value.since > 25.0
    case Published(slots) => v.Lit() && slots == v.lights.value.ids
    case LetGo => true
    case PortalLost => true
  }

  predicate Usable(snapshot: Option<Snapshot>) {
    IsT3(snapshot) && |snapshot.value.agents| <= 64
  }

  ghost predicate AllPermitted(v: View, wire: seq<Wire>) {
    forall n :: 0 <= n < |wire| ==> Permitted(SeeAll(v, wire[..n]), wire[n])
  }

  // The bridge's fields are what the wire shows.
  ghost predicate Matches(s: State, v: View) {
    BaseMatches(s, v) && LightsMatch(s, v) && RingMatches(s, v)
  }

  ghost predicate BaseMatches(s: State, v: View) {
    && s.snapshot == v.snapshot && s.issued == v.sent && s.pending == v.open
    && (s.snapshot.Some? ==> |s.snapshot.value.agents| <= 64 && s.received == v.heard)
    && (v.lights.Some? <==> s.frame.Some?) && (v.lights.Some? <==> v.ring.Some?)
    && (v.lights.Some? ==> s.frame == Some(Signature(v.shown, v.lights.value.ids, v.ambient)))
    && (v.lights.None? ==> s.acknowledged == [] && !v.lightsOk && !v.ringOk)
    && (!s.micro ==> s.frame.None? && s.pending.None?)
  }

  ghost predicate LightsMatch(s: State, v: View) {
    && s.lightsRequest == (if v.lights.Some? && !v.lightsOk then v.lights else None)
    && (v.lights.Some? && v.lightsOk ==> s.acknowledged == v.lights.value.ids)
  }

  ghost predicate RingMatches(s: State, v: View) {
    s.ringRequest == (if v.ring.Some? && !v.ringOk then v.ring else None)
  }

  // An effect on state and wire that keeps them matched, unless it failed.
  ghost predicate Keeps(v: View, effect: Effect) {
    && AllPermitted(v, effect.wire)
    && effect.state.issued == SeeAll(v, effect.wire).sent
    && (effect.ok ==> Matches(effect.state, SeeAll(v, effect.wire)))
  }

  lemma {:induction false} SeeInTwoParts(v: View, a: seq<Wire>, b: seq<Wire>)
    ensures SeeAll(v, a + b) == SeeAll(SeeAll(v, a), b)
    decreases |a|
  {
    if a == [] {
      assert a + b == b;
    } else {
      assert (a + b)[1..] == a[1..] + b;
      SeeInTwoParts(See(v, a[0]), a[1..], b);
    }
  }

  lemma PermittedInTwoParts(v: View, a: seq<Wire>, b: seq<Wire>)
    requires AllPermitted(v, a) && AllPermitted(SeeAll(v, a), b)
    ensures AllPermitted(v, a + b)
  {
    forall n | 0 <= n < |a + b| ensures Permitted(SeeAll(v, (a + b)[..n]), (a + b)[n]) {
      if n < |a| {
        assert (a + b)[..n] == a[..n];
      } else {
        assert (a + b)[..n] == a + b[..n - |a|];
        SeeInTwoParts(v, a, b[..n - |a|]);
        assert Permitted(SeeAll(SeeAll(v, a), b[..n - |a|]), b[n - |a|]);
      }
    }
  }

  lemma One(v: View, w: Wire)
    ensures SeeAll(v, []) == v && SeeAll(v, [w]) == See(v, w)
    ensures AllPermitted(v, [])
    ensures Permitted(v, w) ==> AllPermitted(v, [w])
  {
    assert [w][..0] == [];
  }

  lemma Two(v: View, w: Wire, x: Wire)
    ensures SeeAll(v, [w, x]) == See(See(v, w), x)
    ensures Permitted(v, w) && Permitted(See(v, w), x) ==> AllPermitted(v, [w, x])
  {
    One(v, w);
    One(See(v, w), x);
    SeeInTwoParts(v, [w], [x]);
    assert [w, x] == [w] + [x];
    if Permitted(v, w) && Permitted(See(v, w), x) {
      PermittedInTwoParts(v, [w], [x]);
    }
  }

  lemma ThenKeeps(v: View, first: Effect, second: Effect)
    requires Keeps(v, first) && Keeps(SeeAll(v, first.wire), second)
    ensures Keeps(v, Then(first, second))
  {
    SeeInTwoParts(v, first.wire, second.wire);
    PermittedInTwoParts(v, first.wire, second.wire);
  }

  lemma RelitKeeps(s: State, v: View, now: real, host: Host)
    requires Matches(s, v) && IsT3(s.snapshot) && s.micro && now - s.received <= 4.0
    ensures Keeps(v, Relit(s, now, host))
    ensures var lit := Relit(s, now, host);
      lit.ok ==> lit.state.frame == Some(SignatureOf(s.snapshot.value)) && lit.state.snapshot == s.snapshot
  {
    var signature := SignatureOf(s.snapshot.value);
    var lights := SentLights(s.issued, signature.ids, signature.lights, now);
    var ring := SentRing(s.issued + 1, signature.ring);
    One(v, lights);
    Two(v, lights, ring);
  }

  lemma DrivenKeeps(s: State, v: View, now: real, host: Host)
    requires Matches(s, v) && IsT3(s.snapshot) && now - s.received <= 4.0
    ensures Keeps(v, Driven(s, now, host))
  {
    One(v, LetGo);
    var chosen := s.(micro := true, selected := Reselected(s.selected, Agents(s.snapshot)));
    RelitKeeps(chosen, v, now, host);
    var lit := Relit(chosen, now, host);
    if lit.ok {
      ShownKeeps(lit.state, SeeAll(v, lit.wire), host);
      ThenKeeps(v, lit, Shown(lit.state, host));
    }
  }

  lemma ShownKeeps(s: State, v: View, host: Host)
    requires Matches(s, v) && s.frame.Some?
    ensures Keeps(v, Shown(s, host))
  {
    One(v, Published(s.acknowledged));
  }

  lemma UpdateKeeps(s: State, v: View, now: real, host: Host)
    requires Matches(s, v)
    ensures Keeps(v, Updated(s, now, host))
  {
    var expired := Expired(s, now);
    if s.pending.Some? {
      One(v, OpenExpired(s.pending.value.request, now));
    }
    One(v, LetGo);
    var t, w := expired.state, SeeAll(v, expired.wire);
    assert Keeps(v, expired);
    ContinuedKeeps(t, w, now, host);
    ThenKeeps(v, expired, Continued(t, now, host));
  }

  lemma ContinuedKeeps(s: State, v: View, now: real, host: Host)
    requires Matches(s, v)
    ensures Keeps(v, Continued(s, now, host))
  {
    One(v, LetGo);
    if !Stale(s, now) {
      DrivenKeeps(s, v, now, host);
    }
  }

  lemma PortalEventKeeps(s: State, v: View, message: PortalMessage, now: real)
    requires Matches(s, v)
    ensures Keeps(See(v, PortalSaid(message, now)), PortalEvent(s, message, now))
  {
    One(See(v, PortalSaid(message, now)), LetGo);
  }

  // The device's message is on the wire before the bridge looks at it.
  lemma LightsAnsweredKeeps(s: State, v: View, message: MicroMessage, published: bool)
    requires Matches(s, v)
    ensures var heard := See(v, DeviceSaid(message.request, message.ok));
      var answered := LightsAnswered(s, message, published);
      && AllPermitted(heard, answered.wire) && SeeAll(heard, answered.wire) == heard
      && answered.state.issued == heard.sent
      && (answered.ok ==> BaseMatches(answered.state, heard) && LightsMatch(answered.state, heard))
      && (answered.ok ==> RingMatches(answered.state, v))
  {
    var heard := See(v, DeviceSaid(message.request, message.ok));
    One(heard, LetGo);
    if s.lightsRequest.Some? {
      One(heard, Published(s.lightsRequest.value.ids));
    }
  }

  lemma RingAnsweredKeeps(s: State, v: View, message: MicroMessage, published: bool)
    requires var heard := See(v, DeviceSaid(message.request, message.ok));
      BaseMatches(s, heard) && LightsMatch(s, heard) && RingMatches(s, v)
    ensures var heard, answered := See(v, DeviceSaid(message.request, message.ok)), RingAnswered(s, message, published);
      Keeps(heard, answered) && SeeAll(heard, answered.wire) == heard
  {
    var heard := See(v, DeviceSaid(message.request, message.ok));
    One(heard, LetGo);
    One(heard, Published(s.acknowledged));
  }

  lemma ChoiceIsShown(control: Control, agents: seq<Card>, selected: Option<string>)
    requires Choice(control, agents, selected).Some?
    ensures var card := Choice(control, agents, selected).value;
      card in agents && 0 <= Current(agents, Some(card.id)) && agents[Current(agents, Some(card.id))].id == card.id
  {
  }

  lemma ActedKeeps(s: State, v: View, control: Control, now: real, delivered: bool)
    requires Matches(s, v)
    ensures Keeps(v, Acted(s, control, now, delivered))
  {
    One(v, LetGo);
    var agents := Agents(s.snapshot);
    var target := Choice(control, agents, s.selected);
    if !Gated(s, now) && target.Some? && target.value.canOpen {
      ChoiceIsShown(control, agents, s.selected);
      var slot := Current(agents, Some(target.value.id));
      One(v, SentOpen(s.issued, s.snapshot.value.sequence, target.value.id, slot, now));
      assert s.acknowledged != [];
    }
  }

  lemma MicroEventKeeps(s: State, v: View, message: MicroMessage, now: real, published: bool, delivered: bool)
    requires Matches(s, v)
    ensures Keeps(See(v, DeviceSaid(message.request, message.ok)), MicroEvent(s, message, now, published, delivered))
  {
    var heard, answered := See(v, DeviceSaid(message.request, message.ok)), Answered(s, message, published);
    AnsweredKeeps(s, v, message, published);
    if answered.ok {
      ActedKeeps(answered.state, SeeAll(heard, answered.wire), message.control, now, delivered);
      ThenKeeps(heard, answered, Acted(answered.state, message.control, now, delivered));
    }
  }

  lemma AnsweredKeeps(s: State, v: View, message: MicroMessage, published: bool)
    requires Matches(s, v)
    ensures Keeps(See(v, DeviceSaid(message.request, message.ok)), Answered(s, message, published))
  {
    var heard, lights := See(v, DeviceSaid(message.request, message.ok)), LightsAnswered(s, message, published);
    LightsAnsweredKeeps(s, v, message, published);
    if lights.ok {
      RingAnsweredKeeps(lights.state, v, message, published);
      AnswersKeep(heard, lights, RingAnswered(lights.state, message, published));
    }
  }

  lemma AnswersKeep(v: View, first: Effect, second: Effect)
    requires AllPermitted(v, first.wire) && SeeAll(v, first.wire) == v && Keeps(v, second)
    ensures Keeps(v, Then(first, second))
  {
    SeeInTwoParts(v, first.wire, second.wire);
    PermittedInTwoParts(v, first.wire, second.wire);
  }

  // ---- Whole runs of one process ----

  datatype Event =
    | Connected(reached: bool)
    | Tick(now: real, host: Host)
    | FromPortal(message: PortalMessage, now: real)
    | FromMicro(answer: MicroMessage, now: real, published: bool, delivered: bool)

  // What arrives is on the wire whatever the bridge makes of it.
  function Heard(w: Wire, effect: Effect): Effect {
    Effect(effect.state, [w] + effect.wire, effect.ok)
  }

  // Updates run, and messages arrive, only on open sockets.
  function Tried(s: State, event: Event): Effect {
    match event
    case Connected(reached) => Effect(if reached then s.(portal := true) else s, [], s.portal || reached)
    case Tick(now, host) => if s.portal then Updated(s, now, host) else Effect(s, [], true)
    case FromPortal(message, now) =>
      if s.portal then Heard(PortalSaid(message, now), PortalEvent(s, message, now)) else Effect(s, [], true)
    case FromMicro(message, now, published, delivered) =>
      if s.micro
      then Heard(DeviceSaid(message.request, message.ok), MicroEvent(s, message, now, published, delivered))
      else Effect(s, [], true)
  }

  function StepOf(s: State, event: Event): Effect {
    var tried := Tried(s, event);
    if tried.ok then tried else Then(tried, Effect(Failed(tried.state), [LetGo, PortalLost], true))
  }

  function Run(events: seq<Event>): Effect {
    if events == [] then Effect(START, [], true)
    else
      var earlier := Run(events[..|events| - 1]);
      Then(earlier, StepOf(earlier.state, events[|events| - 1]))
  }

  lemma StepKeeps(s: State, v: View, event: Event)
    requires Matches(s, v)
    ensures Keeps(v, StepOf(s, event)) && StepOf(s, event).ok
  {
    var tried := Tried(s, event);
    TriedKeeps(s, v, event);
    if !tried.ok {
      Two(SeeAll(v, tried.wire), LetGo, PortalLost);
      ThenKeeps(v, tried, Effect(Failed(tried.state), [LetGo, PortalLost], true));
    }
  }

  lemma TriedKeeps(s: State, v: View, event: Event)
    requires Matches(s, v)
    ensures Keeps(v, Tried(s, event))
  {
    One(v, LetGo);
    match event {
      case Connected(_) =>
      case Tick(now, host) => UpdateKeeps(s, v, now, host);
      case FromPortal(message, now) =>
        PortalEventKeeps(s, v, message, now);
        HeardKeeps(v, PortalSaid(message, now), PortalEvent(s, message, now));
      case FromMicro(message, now, published, delivered) =>
        MicroEventKeeps(s, v, message, now, published, delivered);
        HeardKeeps(v, DeviceSaid(message.request, message.ok), MicroEvent(s, message, now, published, delivered));
    }
  }

  lemma HeardKeeps(v: View, w: Wire, effect: Effect)
    requires Permitted(v, w) && Keeps(See(v, w), effect)
    ensures Keeps(v, Heard(w, effect))
  {
    One(v, w);
    SeeInTwoParts(v, [w], effect.wire);
    PermittedInTwoParts(v, [w], effect.wire);
  }

  // In every run the bridge's fields match the wire, and everything that ever
  // passed over it was permitted.
  lemma {:induction false} EveryRunIsPermitted(events: seq<Event>)
    ensures Keeps(DARK, Run(events)) && Run(events).ok
  {
    if events == [] {
      One(DARK, LetGo);
    } else {
      var earlier := Run(events[..|events| - 1]);
      EveryRunIsPermitted(events[..|events| - 1]);
      StepKeeps(earlier.state, SeeAll(DARK, earlier.wire), events[|events| - 1]);
      ThenKeeps(DARK, earlier, StepOf(earlier.state, events[|events| - 1]));
    }
  }

  // ---- What the device and the portal must have said ----

  // The last frame of the session on this wire showed these ids, and after each
  // of its two requests the device answered that request with success.
  ghost predicate AcknowledgedOn(wire: seq<Wire>, ids: seq<string>) {
    exists i, j, k, m ::
      && 0 <= i < j < |wire| && i < k < m < |wire|
      && wire[i].SentLights? && wire[i].ids == ids && wire[j] == DeviceSaid(Some(wire[i].request), true)
      && wire[k].SentRing? && wire[m] == DeviceSaid(Some(wire[k].request), true)
      && SameFrame(wire, i) && SameRing(wire, k)
  }

  ghost predicate SameFrame(wire: seq<Wire>, i: int)
    requires 0 <= i
  {
    forall n :: i < n < |wire| ==> !wire[n].SentLights? && !wire[n].LetGo?
  }

  ghost predicate SameRing(wire: seq<Wire>, k: int)
    requires 0 <= k
  {
    forall n :: k < n < |wire| ==> !wire[n].SentRing? && !wire[n].SentLights? && !wire[n].LetGo?
  }

  lemma SeeLast(v: View, wire: seq<Wire>)
    requires wire != []
    ensures var n := |wire| - 1; SeeAll(v, wire) == See(SeeAll(v, wire[..n]), wire[n])
  {
    var n := |wire| - 1;
    assert wire == wire[..n] + [wire[n]];
    SeeInTwoParts(v, wire[..n], [wire[n]]);
    One(SeeAll(v, wire[..n]), wire[n]);
  }

  lemma {:induction false} LightsWereSent(wire: seq<Wire>) returns (i: int)
    requires SeeAll(DARK, wire).lights.Some?
    ensures 0 <= i < |wire| && wire[i].SentLights? && SameFrame(wire, i)
    ensures SeeAll(DARK, wire).lights.value == LightsRequest(wire[i].request, wire[i].ids)
    ensures SeeAll(DARK, wire).shown == wire[i].lights
  {
    SeeLast(DARK, wire);
    var n := |wire| - 1;
    if wire[n].SentLights? {
      i := n;
    } else {
      i := LightsWereSent(wire[..n]);
    }
  }

  lemma {:induction false} RingWasSent(wire: seq<Wire>) returns (k: int)
    requires SeeAll(DARK, wire).ring.Some?
    ensures 0 <= k < |wire| && wire[k].SentRing? && SameRing(wire, k)
    ensures SeeAll(DARK, wire).ring.value == wire[k].request && SeeAll(DARK, wire).ambient == wire[k].ring
  {
    SeeLast(DARK, wire);
    var n := |wire| - 1;
    if wire[n].SentRing? {
      k := n;
    } else {
      k := RingWasSent(wire[..n]);
    }
  }

  lemma {:induction false} LightsWereAnswered(wire: seq<Wire>, i: int) returns (j: int)
    requires 0 <= i < |wire| && wire[i].SentLights? && SameFrame(wire, i) && SeeAll(DARK, wire).lightsOk
    ensures i < j < |wire| && wire[j] == DeviceSaid(Some(wire[i].request), true)
  {
    SeeLast(DARK, wire);
    var n := |wire| - 1;
    var v := SeeAll(DARK, wire[..n]);
    if i < n {
      if v.lightsOk {
        j := LightsWereAnswered(wire[..n], i);
      } else {
        var last := LightsWereSent(wire[..n]);
        assert last == i;
        j := n;
      }
    }
  }

  lemma {:induction false} RingWasAnswered(wire: seq<Wire>, k: int) returns (m: int)
    requires 0 <= k < |wire| && wire[k].SentRing? && SameRing(wire, k) && SeeAll(DARK, wire).ringOk
    ensures k < m < |wire| && wire[m] == DeviceSaid(Some(wire[k].request), true)
  {
    SeeLast(DARK, wire);
    var n := |wire| - 1;
    var v := SeeAll(DARK, wire[..n]);
    if k < n {
      if v.ringOk {
        m := RingWasAnswered(wire[..n], k);
      } else {
        var last := RingWasSent(wire[..n]);
        assert last == k;
        m := n;
      }
    }
  }

  lemma LitMeansAcknowledged(wire: seq<Wire>)
    requires SeeAll(DARK, wire).Lit()
    ensures AcknowledgedOn(wire, SeeAll(DARK, wire).lights.value.ids)
  {
    var i := LightsWereSent(wire);
    var k := RingWasSent(wire);
    var j := LightsWereAnswered(wire, i);
    var m := RingWasAnswered(wire, k);
    assert i < k;
  }

  // What the bridge takes to be shown is what it sent last, lights and ring.
  ghost predicate FrameSent(wire: seq<Wire>, frame: Signature) {
    exists i, k ::
      && 0 <= i < |wire| && wire[i].SentLights? && SameFrame(wire, i)
      && wire[i].ids == frame.ids && wire[i].lights == frame.lights
      && 0 <= k < |wire| && wire[k].SentRing? && SameRing(wire, k) && wire[k].ring == frame.ring
  }

  lemma FramesAreSent(events: seq<Event>)
    ensures var run := Run(events); run.state.frame.Some? ==> FrameSent(run.wire, run.state.frame.value)
  {
    EveryRunIsPermitted(events);
    if Run(events).state.frame.Some? {
      var i := LightsWereSent(Run(events).wire);
      var k := RingWasSent(Run(events).wire);
    }
  }

  // A frame with no lighting request outstanding was acknowledged in full by
  // the device, and the acknowledged slots are that frame's.
  lemma SettledFrameIsAcknowledged(events: seq<Event>)
    ensures var s := Run(events).state;
      s.frame.Some? && Settled(s) ==>
        s.acknowledged == s.frame.value.ids && AcknowledgedOn(Run(events).wire, s.acknowledged)
  {
    EveryRunIsPermitted(events);
    var s := Run(events).state;
    if s.frame.Some? && Settled(s) {
      LitMeansAcknowledged(Run(events).wire);
    }
  }

  // No open is outstanding: since the last one the portal answered it, 25
  // seconds passed, or the session ended.
  ghost predicate NoOpenOn(wire: seq<Wire>) {
    forall i :: 0 <= i < |wire| && wire[i].SentOpen? ==> exists j :: i < j < |wire| && Ends(wire[i], wire[j])
  }

  predicate Ends(open: Wire, w: Wire)
    requires open.SentOpen?
  {
    match w
    case PortalSaid(ActionResult(request, _), _) => request == open.request
    case OpenExpired(request, at) => request == open.request && at - open.at > 25.0
    case LetGo => true
    case _ => false
  }

  predicate TellsSnapshot(w: Wire) {
    w.PortalSaid? && w.message.SnapshotMessage?
  }

  // The last snapshot on this wire is this one, heard at most four seconds
  // before that time, and the portal was not lost since.
  ghost predicate HeardOn(wire: seq<Wire>, snapshot: Snapshot, at: real) {
    exists i :: LastHeard(wire, i) && wire[i].message.snapshot == snapshot && at - wire[i].heardAt <= 4.0
  }

  ghost predicate LastHeard(wire: seq<Wire>, i: int) {
    && 0 <= i < |wire| && TellsSnapshot(wire[i])
    && forall n :: i < n < |wire| ==> !TellsSnapshot(wire[n]) && !wire[n].PortalLost?
  }

  lemma {:induction false} SnapshotWasHeard(wire: seq<Wire>) returns (i: int)
    requires SeeAll(DARK, wire).snapshot.Some?
    ensures LastHeard(wire, i)
    ensures var v := SeeAll(DARK, wire);
      wire[i].message.snapshot == v.snapshot.value && wire[i].heardAt == v.heard
  {
    SeeLast(DARK, wire);
    var n := |wire| - 1;
    if TellsSnapshot(wire[n]) {
      i := n;
    } else {
      i := SnapshotWasHeard(wire[..n]);
    }
  }

  lemma RecentlyHeard(wire: seq<Wire>, at: real)
    requires SeeAll(DARK, wire).snapshot.Some? && Recent(SeeAll(DARK, wire), at)
    ensures HeardOn(wire, SeeAll(DARK, wire).snapshot.value, at)
  {
    var i := SnapshotWasHeard(wire);
  }

  // Every open in every run names an agent the device acknowledged at the slot
  // it has now, cites the number last heard, at most four seconds before, and
  // finds no other outstanding.
  lemma OpensAreGated(events: seq<Event>, n: nat)
    requires n < |Run(events).wire| && Run(events).wire[n].SentOpen?
    ensures var v, earlier, open := SeeAll(DARK, Run(events).wire[..n]), Run(events).wire[..n], Run(events).wire[n];
      && IsT3(v.snapshot) && open.sequence == v.snapshot.value.sequence
      && open.slot < |Agents(v.snapshot)| && Agents(v.snapshot)[open.slot].id == open.agent
      && AcknowledgedOn(earlier, IdsOf(Agents(v.snapshot))) && NoOpenOn(earlier)
      && HeardOn(earlier, v.snapshot.value, open.at)
  {
    EveryRunIsPermitted(events);
    GatedOpen(Run(events).wire, n);
  }

  lemma PermittedPrefix(wire: seq<Wire>, n: nat)
    requires AllPermitted(DARK, wire) && n <= |wire|
    ensures AllPermitted(DARK, wire[..n])
  {
    forall k | 0 <= k < n ensures Permitted(SeeAll(DARK, wire[..n][..k]), wire[..n][k]) {
      assert wire[..n][..k] == wire[..k];
    }
  }

  lemma GatedOpen(wire: seq<Wire>, n: nat)
    requires AllPermitted(DARK, wire) && n < |wire| && wire[n].SentOpen?
    ensures var v := SeeAll(DARK, wire[..n]);
      && IsT3(v.snapshot) && wire[n].sequence == v.snapshot.value.sequence
      && wire[n].slot < |Agents(v.snapshot)| && Agents(v.snapshot)[wire[n].slot].id == wire[n].agent
      && AcknowledgedOn(wire[..n], IdsOf(Agents(v.snapshot))) && NoOpenOn(wire[..n])
      && HeardOn(wire[..n], v.snapshot.value, wire[n].at)
  {
    assert Permitted(SeeAll(DARK, wire[..n]), wire[n]);
    LitMeansAcknowledged(wire[..n]);
    RecentlyHeard(wire[..n], wire[n].at);
    PermittedPrefix(wire, n);
    ClosedMeansEnded(wire[..n]);
  }

  // An open is remembered until it ends.
  lemma {:induction false} ClosedMeansEnded(wire: seq<Wire>)
    requires AllPermitted(DARK, wire)
    ensures forall i :: 0 <= i < |wire| && wire[i].SentOpen? ==>
      || (exists j :: i < j < |wire| && Ends(wire[i], wire[j]))
      || SeeAll(DARK, wire).open == Some(Pending(wire[i].request, wire[i].agent, wire[i].at))
  {
    if wire != [] {
      var n := |wire| - 1;
      SeeLast(DARK, wire);
      assert Permitted(SeeAll(DARK, wire[..n]), wire[n]);
      PermittedPrefix(wire, n);
      ClosedMeansEnded(wire[..n]);
      forall i | 0 <= i < |wire| && wire[i].SentOpen?
        ensures (exists j :: i < j < |wire| && Ends(wire[i], wire[j]))
          || SeeAll(DARK, wire).open == Some(Pending(wire[i].request, wire[i].agent, wire[i].at))
      {
        if i < n {
          assert wire[..n][i] == wire[i];
          if j :| i < j < n && Ends(wire[..n][i], wire[..n][j]) {
            assert Ends(wire[i], wire[j]);
          } else {
            assert SeeAll(DARK, wire[..n]).open == Some(Pending(wire[i].request, wire[i].agent, wire[i].at));
            assert Ends(wire[i], wire[n]) || SeeAll(DARK, wire).open == SeeAll(DARK, wire[..n]).open;
          }
        }
      }
    }
  }

  // In any run, an open caused by pressing slot key k names the agent that the
  // device has acknowledged on light k.
  lemma SlotKeyOpensItsLight(
      events: seq<Event>, k: nat, answer: MicroMessage, now: real, published: bool, delivered: bool)
    requires answer.control == Touched(Slot(k), Press)
    ensures var run := Run(events);
      var step := Tried(run.state, FromMicro(answer, now, published, delivered));
      forall n :: 0 <= n < |step.wire| && step.wire[n].SentOpen? ==>
        exists ids :: k < |ids| && ids[k] == step.wire[n].agent && AcknowledgedOn(run.wire + step.wire[..n], ids)
  {
    var run := Run(events);
    var event := FromMicro(answer, now, published, delivered);
    var step := Tried(run.state, event);
    EveryRunIsPermitted(events);
    TriedKeeps(run.state, SeeAll(DARK, run.wire), event);
    forall n | 0 <= n < |step.wire| && step.wire[n].SentOpen?
      ensures exists ids :: k < |ids| && ids[k] == step.wire[n].agent && AcknowledgedOn(run.wire + step.wire[..n], ids)
    {
      SeeInTwoParts(DARK, run.wire, step.wire[..n]);
      var v := SeeAll(DARK, run.wire + step.wire[..n]);
      assert Permitted(v, step.wire[n]);
      LitMeansAcknowledged(run.wire + step.wire[..n]);
      SlotOpensItsAgent(run.state, k, answer, now, published, delivered);
      SnapshotStays(SeeAll(DARK, run.wire), step.wire[..n]);
      assert v.lights.value.ids[k] == step.wire[n].agent;
    }
  }

  lemma SlotOpensItsAgent(s: State, k: nat, answer: MicroMessage, now: real, published: bool, delivered: bool)
    requires answer.control == Touched(Slot(k), Press)
    ensures var wire := Tried(s, FromMicro(answer, now, published, delivered)).wire;
      forall w :: w in wire ==>
        && !w.PortalSaid? && !w.PortalLost?
        && (w.SentOpen? ==> k < |Agents(s.snapshot)| && w.agent == Agents(s.snapshot)[k].id)
  {
    var answered := Answered(s, answer, published);
    AnswersKeepSnapshot(s, answer, published);
    if answered.ok {
      SlotActs(answered.state, k, now, delivered);
    }
  }

  lemma AnswersKeepSnapshot(s: State, answer: MicroMessage, published: bool)
    ensures Answered(s, answer, published).state.snapshot == s.snapshot
    ensures forall w :: w in Answered(s, answer, published).wire ==> w.Published?
  {
    var lights := LightsAnswered(s, answer, published);
    assert forall w :: w in lights.wire ==> w.Published?;
    assert forall w :: w in RingAnswered(lights.state, answer, published).wire ==> w.Published?;
  }

  lemma SlotActs(s: State, k: nat, now: real, delivered: bool)
    ensures var wire := Acted(s, Touched(Slot(k), Press), now, delivered).wire;
      forall w :: w in wire ==> w.SentOpen? && k < |Agents(s.snapshot)| && w.agent == Agents(s.snapshot)[k].id
  {
  }

  lemma {:induction false} SnapshotStays(v: View, wire: seq<Wire>)
    requires forall w :: w in wire ==> !w.PortalSaid? && !w.PortalLost?
    ensures SeeAll(v, wire).snapshot == v.snapshot
    decreases |wire|
  {
    if wire != [] {
      assert wire[0] in wire;
      SnapshotStays(See(v, wire[0]), wire[1..]);
    }
  }

  predicate IsRequest(w: Wire) {
    w.SentLights? || w.SentRing? || w.SentOpen?
  }

  // No two requests of a run share a name.
  lemma RequestsAreDistinct(events: seq<Event>, i: nat, j: nat)
    requires i < j < |Run(events).wire| && IsRequest(Run(events).wire[i]) && IsRequest(Run(events).wire[j])
    ensures Run(events).wire[i].request < Run(events).wire[j].request
  {
    EveryRunIsPermitted(events);
    RequestsRise(Run(events).wire, i, j);
  }

  // An answer to a request of a superseded frame changes nothing.
  lemma LateAnswersCountForNothing(events: seq<Event>, i: nat, j: nat, n: nat)
    requires i < j < n < |Run(events).wire| && (Run(events).wire[i].SentLights? || Run(events).wire[i].SentRing?)
    requires Run(events).wire[j].SentLights? && Run(events).wire[n].DeviceSaid?
    ensures var wire := Run(events).wire;
      wire[n].answers == Some(wire[i].request) ==> See(SeeAll(DARK, wire[..n]), wire[n]) == SeeAll(DARK, wire[..n])
  {
    EveryRunIsPermitted(events);
    SupersededRequest(Run(events).wire, i, j, n);
    AnswerIgnored(SeeAll(DARK, Run(events).wire[..n]), Run(events).wire[n], Run(events).wire[i].request);
  }

  lemma AnswerIgnored(v: View, w: Wire, request: nat)
    requires w.DeviceSaid? && (v.lights.Some? ==> v.lights.value.request != request)
    requires v.ring.Some? ==> v.ring.value != request
    ensures w.answers == Some(request) ==> See(v, w) == v
  {
  }

  lemma SupersededRequest(wire: seq<Wire>, i: nat, j: nat, n: nat)
    requires AllPermitted(DARK, wire) && i < j < n <= |wire| && IsRequest(wire[i]) && wire[j].SentLights?
    ensures var v := SeeAll(DARK, wire[..n]);
      && (v.lights.Some? ==> v.lights.value.request != wire[i].request)
      && (v.ring.Some? ==> v.ring.value != wire[i].request)
  {
    var v := SeeAll(DARK, wire[..n]);
    assert wire[..n][j] == wire[j];
    if v.lights.Some? {
      var last := LightsWereSent(wire[..n]);
      assert j <= last;
      RequestsRise(wire, i, last);
    }
    if v.ring.Some? {
      var last := RingWasSent(wire[..n]);
      assert j <= last;
      RequestsRise(wire, i, last);
    }
  }

  lemma RequestsRise(wire: seq<Wire>, i: nat, j: nat)
    requires AllPermitted(DARK, wire) && i < j < |wire| && IsRequest(wire[i]) && IsRequest(wire[j])
    ensures wire[i].request < wire[j].request
  {
    assert Permitted(SeeAll(DARK, wire[..i]), wire[i]) && Permitted(SeeAll(DARK, wire[..j]), wire[j]);
    RequestsAreCounted(DARK, wire, i, j);
  }

  lemma RequestsAreCounted(v: View, wire: seq<Wire>, i: nat, j: nat)
    requires i < j <= |wire| && IsRequest(wire[i])
    ensures SeeAll(v, wire[..i]).sent < SeeAll(v, wire[..j]).sent
  {
    var before := SeeAll(v, wire[..i]);
    SeeInTwoParts(v, wire[..i], wire[i..j]);
    assert wire[..i] + wire[i..j] == wire[..j];
    SeeInTwoParts(before, [wire[i]], wire[i + 1..j]);
    assert [wire[i]] + wire[i + 1..j] == wire[i..j];
    One(before, wire[i]);
    SentNeverFalls(See(before, wire[i]), wire[i + 1..j]);
  }

  lemma {:induction false} SentNeverFalls(v: View, wire: seq<Wire>)
    ensures v.sent <= SeeAll(v, wire).sent
    decreases |wire|
  {
    if wire != [] {
      SentNeverFalls(See(v, wire[0]), wire[1..]);
    }
  }

  // ---- What updates and answers leave ----

  // The agents shown are the first six, and none without a connection.
  lemma AgentsMeaning(snapshot: Snapshot)
    ensures var agents := Agents(Some(snapshot));
      && agents <= snapshot.agents && (!snapshot.connected ==> agents == [])
      && (snapshot.connected ==> |agents| == if |snapshot.agents| < 6 then |snapshot.agents| else 6)
  {
  }

  // The snapshot last heard is one of T3 Code, and recent.
  predicate Fresh(v: View, now: real) {
    v.snapshot.Some? && v.snapshot.value.t3 && Recent(v, now)
  }

  // In any run an update more than four seconds after the last snapshot, or
  // with another manager, lets a held device go and sends nothing.
  lemma StaleUpdatesLetGo(events: seq<Event>, now: real, host: Host)
    requires Run(events).state.portal && !Fresh(SeeAll(DARK, Run(events).wire), now)
    ensures var s, step := Run(events).state, StepOf(Run(events).state, Tick(now, host));
      && !step.state.micro && step.state.frame.None? && step.state.pending.None? && step.state.acknowledged == []
      && (s.micro || host.marked ==> LetGo in step.wire)
      && forall w :: w in step.wire ==> w == LetGo || w.OpenExpired?
  {
    EveryRunIsPermitted(events);
    StaleUpdate(Run(events).state, SeeAll(DARK, Run(events).wire), now, host);
  }

  lemma StaleUpdate(s: State, v: View, now: real, host: Host)
    requires Matches(s, v) && s.portal && !Fresh(v, now)
    ensures var step := StepOf(s, Tick(now, host));
      && !step.state.micro && step.state.frame.None? && step.state.pending.None? && step.state.acknowledged == []
      && (s.micro || host.marked ==> LetGo in step.wire)
      && forall w :: w in step.wire ==> w == LetGo || w.OpenExpired?
  {
    var expired := Expired(s, now);
    assert Stale(expired.state, now);
    assert Updated(s, now, host) == Then(expired, Continued(expired.state, now, host));
  }

  // A control pressed then does nothing.
  lemma StaleControlsDoNothing(events: seq<Event>, control: Control, now: real, delivered: bool)
    requires !Fresh(SeeAll(DARK, Run(events).wire), now)
    ensures Acted(Run(events).state, control, now, delivered) == Effect(Run(events).state, [], true)
  {
    EveryRunIsPermitted(events);
  }

  // An update that goes well on a fresh snapshot holds the device, has sent the
  // frame of exactly these agents, and waits neither too long for lighting
  // answers nor for an open; it moves a selection only from an agent not shown.
  lemma FreshUpdatesShow(s: State, now: real, host: Host)
    requires s.portal && IsT3(s.snapshot) && now - s.received <= 4.0 && Tried(s, Tick(now, host)).ok
    ensures var t, agents := Tried(s, Tick(now, host)).state, Agents(s.snapshot);
      && t.micro && t.portal && t.snapshot == s.snapshot && t.received == s.received
      && t.frame.Some? && t.frame.value.ids == IdsOf(agents) && t.frame.value.lights == Lights(agents)
      && t.frame.value.ring == RingState(s.snapshot.value.voice, s.snapshot.value.agents)
      && (Settled(t) || now - t.ledSentAt <= 5.0)
      && (t.pending.Some? ==> t.pending == s.pending && now - t.pending.value.since <= 25.0)
      && (s.pending.Some? && now - s.pending.value.since <= 25.0 ==> t.pending == s.pending)
      && (t.selected.Some? ==> t.selected.value in IdsOf(agents))
      && (s.selected.Some? && s.selected.value in IdsOf(agents) ==> t.selected == s.selected)
  {
    var expired := Expired(s, now).state;
    var held := expired.(micro := true, selected := Reselected(expired.selected, Agents(s.snapshot)));
    FocusIsShown(Agents(s.snapshot));
    DrivenRefreshes(s, held, now, host);
    RefreshShows(held, now, host);
  }

  lemma DrivenRefreshes(s: State, held: State, now: real, host: Host)
    requires s.portal && IsT3(s.snapshot) && now - s.received <= 4.0 && Tried(s, Tick(now, host)).ok
    requires var expired := Expired(s, now).state;
      held == expired.(micro := true, selected := Reselected(expired.selected, Agents(s.snapshot)))
    ensures Refreshed(held, now, host).ok && (Settled(held) || now - held.ledSentAt <= 5.0)
    ensures Tried(s, Tick(now, host)).state == Refreshed(held, now, host).state
  {
  }

  lemma RefreshShows(s: State, now: real, host: Host)
    requires s.snapshot.Some? && Refreshed(s, now, host).ok && (Settled(s) || now - s.ledSentAt <= 5.0)
    ensures var t := Refreshed(s, now, host).state;
      && t.frame == Some(SignatureOf(s.snapshot.value)) && (Settled(t) || now - t.ledSentAt <= 5.0)
      && t.micro == s.micro && t.portal == s.portal && t.snapshot == s.snapshot && t.received == s.received
      && t.pending == s.pending && t.selected == s.selected
  {
  }

  // The status is published whenever the frame of these agents is settled.
  lemma SettledIsPublished(s: State, now: real, host: Host)
    requires s.portal && IsT3(s.snapshot) && now - s.received <= 4.0 && Tried(s, Tick(now, host)).ok
    ensures var step := Tried(s, Tick(now, host));
      Settled(step.state) && step.state.acknowledged == IdsOf(Agents(s.snapshot)) ==>
        step.wire != [] && step.wire[|step.wire| - 1] == Published(step.state.acknowledged)
  {
    var expired := Expired(s, now).state;
    var held := expired.(micro := true, selected := Reselected(expired.selected, Agents(s.snapshot)));
    DrivenRefreshes(s, held, now, host);
    var lit := Relit(held, now, host);
    assert Refreshed(held, now, host) == Then(lit, Shown(lit.state, host));
    assert Tried(s, Tick(now, host)).wire == Expired(s, now).wire + (lit.wire + Shown(lit.state, host).wire);
  }

  lemma {:induction false} FocusIsShown(agents: seq<Card>)
    ensures FocusedId(agents).Some? ==> FocusedId(agents).value in IdsOf(agents)
    ensures FocusedId(agents).None? <==> forall a :: a in agents ==> !a.focused
  {
    if agents != [] {
      FocusIsShown(agents[1..]);
      assert IdsOf(agents)[1..] == IdsOf(agents[1..]);
      assert agents == [agents[0]] + agents[1..];
    }
  }

  // A lighting request unanswered for five seconds ends the session, as does
  // losing the device, the portal or a frame.
  lemma UnansweredLightingEnds(s: State, now: real, host: Host)
    requires s.portal && IsT3(s.snapshot) && now - s.received <= 4.0
    requires !Settled(s) && now - s.ledSentAt > 5.0
    ensures var t := StepOf(s, Tick(now, host)).state;
      !t.micro && !t.portal && t.snapshot.None? && t.frame.None? && t.pending.None? && t.acknowledged == []
  {
  }

  // So does a rejected frame; an answer to anything else settles nothing.
  lemma LightingAnswers(s: State, message: MicroMessage, now: real, published: bool, delivered: bool)
    requires s.micro && message.control.NoKey?
    ensures var t := StepOf(s, FromMicro(message, now, published, delivered)).state;
      var lights := s.lightsRequest.Some? && message.request == Some(s.lightsRequest.value.request);
      var ring := s.ringRequest.Some? && message.request == s.ringRequest;
      && ((lights || ring) && !message.ok ==> !t.micro && !t.portal && t.frame.None? && t.acknowledged == [])
      && (!lights && !ring ==> t == s)
      && (lights && !ring && message.ok && published ==>
            t == s.(lightsRequest := None, acknowledged := s.lightsRequest.value.ids))
      && (ring && !lights && message.ok && published ==> t == s.(ringRequest := None))
  {
  }

  // Only its own result ends a pending open, and only success selects.
  lemma ResultsSettleTheirOpen(s: State, request: nat, ok: bool, now: real)
    requires s.portal
    ensures var t := StepOf(s, FromPortal(ActionResult(request, ok), now)).state;
      var own := s.pending.Some? && s.pending.value.request == request;
      && (!own ==> t == s)
      && (own ==> t.pending.None? && t == s.(pending := None, selected := t.selected))
      && (own ==> t.selected == if ok then Some(s.pending.value.agent) else s.selected)
  {
  }
}
