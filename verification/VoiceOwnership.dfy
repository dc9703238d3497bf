// Which portal client owns the recording: the voice handlers and the client
// lifetime of crates/xeneon-agent-core/src/runtime.rs. Each client has its own
// connection (ReplyPipeline); a voice command takes effect while it is in
// flight there, under the voice mutex, and cleanup follows the handler's end.

module VoiceOwnership {
  import opened Optional
  import opened Voice
  import P = ReplyPipeline

  type Client = nat

  datatype Voices = Voices(world: World, owner: Option<Client>, latched: bool, state: VoiceState, owned: bool)

  function Perform(w: World, token: string, action: VoiceAction, h: Host): (World, VoiceResult) {
    match action
    case VoiceStart => (Last(w, StartTrace(w, token, h)), StartResult(w, h))
    case VoiceStop => (Last(w, FinishTrace(w, token, true, h)), FinishResult(w, token, true, h))
    case VoiceCancel => (Last(w, FinishTrace(w, token, false, h)), FinishResult(w, token, false, h))
  }

  function Publish(v: Voices, token: string, after: World, result: VoiceResult, owner: Option<Client>): Voices {
    if result.Shown? then Voices(after, owner, false, result.state, result.owned)
    else Voices(after, owner, true, VoiceError, Owns(after, token))
  }

  function AfterCommand(v: Voices, token: string, action: VoiceAction, client: Client, h: Host): Voices {
    var (after, result) := Perform(v.world, token, action, h);
    Publish(v, token, after, result,
            if result.Fault? then v.owner else if action.VoiceStart? then Some(client) else None)
  }

  function AfterDisconnect(v: Voices, token: string, client: Client, h: Host): Voices {
    if v.owner != Some(client) then v
    else
      var (after, result) := Perform(v.world, token, VoiceCancel, h);
      Publish(v, token, after, result, None)
  }

  // `refresh_voice` reads under the voice mutex and writes after leaving it.
  datatype Reading = Reading(state: VoiceState, owned: bool)

  function ReadVoice(v: Voices, token: string, readable: bool): Reading {
    Reading(ReadState(v.world, readable), Owns(v.world, token))
  }

  // A latched error stays shown, and ownership is not touched.
  function WriteVoice(v: Voices, read: Reading): Voices {
    v.(state := if v.latched then VoiceError else read.state, owned := read.owned)
  }

  // Sections of other handlers under the voice mutex.
  datatype Section = Command(action: VoiceAction, client: Client, host: Host) | Disconnect(client: Client, host: Host)

  function AfterSections(v: Voices, token: string, sections: seq<Section>): Voices {
    if sections == [] then v
    else
      var earlier := AfterSections(v, token, sections[..|sections| - 1]);
      match sections[|sections| - 1]
      case Command(action, client, host) => AfterCommand(earlier, token, action, client, host)
      case Disconnect(client, host) => AfterDisconnect(earlier, token, client, host)
  }

  class VoiceHandlers {
    const controller: VoiceController
    var owner: Option<Client>
    var latched: bool
    var state: VoiceState
    var owned: bool

    function Value(): Voices
      reads this, controller, controller.desk
    {
      Voices(controller.desk.Now(), owner, latched, state, owned)
    }

    constructor (controller: VoiceController)
      ensures this.controller == controller
      ensures Value() == Voices(controller.desk.Now(), None, false, VoiceUnavailable, false)
    {
      this.controller := controller;
      owner, latched, state, owned := None, false, VoiceUnavailable, false;
    }

    method PerformAction(action: VoiceAction, h: Host) returns (result: VoiceResult)
      modifies controller.desk
      ensures (controller.desk.Now(), result) == Perform(old(controller.desk.Now()), controller.token, action, h)
    {
      match action {
        case VoiceStart => result := controller.Start(h);
        case VoiceStop => result := controller.Finish(true, h);
        case VoiceCancel => result := controller.Finish(false, h);
      }
    }

    method Show(result: VoiceResult)
      modifies this`latched, this`state, this`owned
      ensures Value() == Publish(old(Value()), controller.token, controller.desk.Now(), result, owner)
    {
      if result.Shown? {
        latched, state, owned := false, result.state, result.owned;
      } else {
        latched, state, owned := true, VoiceError, Owns(controller.desk.Now(), controller.token);
      }
    }

    method ProcessVoiceCommand(action: VoiceAction, client: Client, h: Host) returns (result: VoiceResult)
      modifies this, controller.desk
      ensures Value() == AfterCommand(old(Value()), controller.token, action, client, h)
    {
      result := PerformAction(action, h);
      if result.Shown? {
        owner := if action == VoiceStart then Some(client) else None;
      }
      Show(result);
    }

    method CancelForDisconnectedClient(client: Client, h: Host)
      modifies this, controller.desk
      ensures Value() == AfterDisconnect(old(Value()), controller.token, client, h)
    {
      if owner != Some(client) {
        return;
      }
      var result := PerformAction(VoiceCancel, h);
      owner := None;
      Show(result);
    }

    // Other handlers, while `refresh_voice` waits for the state lock.
    method Await() returns (ghost sections: seq<Section>)
      modifies this, controller.desk
      ensures Value() == AfterSections(old(Value()), controller.token, sections)
    {
      sections := [];
      var count := *;
      if count < 0 {
        count := 0;
      }
      for i := 0 to count
        invariant Value() == AfterSections(old(Value()), controller.token, sections)
      {
        ghost var earlier := sections;
        var action: VoiceAction, client: Client, host: Host := *, *, *;
        if * {
          var result := ProcessVoiceCommand(action, client, host);
          sections := sections + [Command(action, client, host)];
        } else {
          CancelForDisconnectedClient(client, host);
          sections := sections + [Disconnect(client, host)];
        }
        assert sections[..|sections| - 1] == earlier;
      }
    }

    method RefreshVoice(readable: bool) returns (ghost sections: seq<Section>)
      modifies this, controller.desk
      ensures var between := AfterSections(old(Value()), controller.token, sections);
        Value() == WriteVoice(between, ReadVoice(old(Value()), controller.token, readable))
    {
      var read := Reading(ReadState(controller.desk.Now(), readable), Owns(controller.desk.Now(), controller.token));
      sections := Await();
      state := if latched then VoiceError else read.state;
      owned := read.owned;
    }
  }

  // ---- Client lifetimes ----

  // `pipes` holds every client that ever connected, `gone` those whose handler
  // has returned and cleaned up. `read` is a refresh between its two halves.
  datatype Portals = Portals(voices: Voices, pipes: map<Client, P.Pipe>, gone: set<Client>, read: Option<Reading>)

  // What a line asks of the voice controller, if it is a voice command.
  type Parser = P.Line -> Option<VoiceAction>

  datatype Step =
    | Connects(client: Client)
    | NeverServed(client: Client)
    | Pipes(client: Client, step: P.Step)
    | Settles(client: Client, host: Host)
    | CleansUp(client: Client, host: Host)
    | RefreshReads(readable: bool)
    | RefreshWrites
    | RecorderMoves(recorder: Recorder)

  // The handler whose first snapshot cannot be written returns at once.
  const UNSERVED := P.CONNECTED.(commands := P.Ended(false), writer := P.WriteFailed)

  function Do(p: Portals, token: string, parse: Parser, step: Step): Portals {
    match step
    case Connects(c) => if c in p.pipes then p else p.(pipes := p.pipes[c := P.CONNECTED])
    case NeverServed(c) => if Lookup(p.pipes, c) == Some(P.CONNECTED) then p.(pipes := p.pipes[c := UNSERVED]) else p
    case Pipes(c, step) =>
      if c in p.pipes && !step.CommandSettles? then p.(pipes := p.pipes[c := P.Do(p.pipes[c], step)]) else p
    case Settles(c, host) =>
      if c in p.pipes && p.pipes[c].inFlight.Some? then
        var action := parse(p.pipes[c].inFlight.value);
        var settled := p.(pipes := p.pipes[c := P.Do(p.pipes[c], P.CommandSettles)]);
        if action.Some? then settled.(voices := AfterCommand(p.voices, token, action.value, c, host)) else settled
      else p
    case CleansUp(c, host) =>
      if c in p.pipes && P.Returned(p.pipes[c]) && c !in p.gone
      then p.(voices := AfterDisconnect(p.voices, token, c, host), gone := p.gone + {c}) else p
    case RefreshReads(readable) => p.(read := Some(ReadVoice(p.voices, token, readable)))
    case RefreshWrites => if p.read.Some? then p.(voices := WriteVoice(p.voices, p.read.value), read := None) else p
    case RecorderMoves(recorder) => p.(voices := p.voices.(world := p.voices.world.(recorder := recorder)))
  }

  function After(p: Portals, token: string, parse: Parser, steps: seq<Step>): Portals {
    if steps == [] then p else Do(After(p, token, parse, steps[..|steps| - 1]), token, parse, steps[|steps| - 1])
  }

  // A recorded owner is still being served, and the marker carries our token.
  predicate OwnerSound(p: Portals, token: string) {
    p.voices.owner.Some? ==>
      p.voices.owner.value in p.pipes && p.voices.owner.value !in p.gone && Owns(p.voices.world, token)
  }

  predicate PipesSound(p: Portals) {
    && (forall c :: c in p.pipes ==> P.Sound(p.pipes[c]))
    && (forall c :: c in p.gone ==> c in p.pipes && P.Returned(p.pipes[c]))
  }

  lemma CommandKeepsMarker(v: Voices, token: string, action: VoiceAction, client: Client, h: Host)
    requires v.owner.Some? ==> Owns(v.world, token)
    ensures var after := AfterCommand(v, token, action, client, h);
      && (after.owner.Some? ==> Owns(after.world, token))
      && (after.owner == v.owner || after.owner == None || (after.owner == Some(client) && action.VoiceStart?))
  {
  }

  // A handler that has returned stays so, whatever its client still does.
  lemma ReturnedStays(p: P.Pipe, step: P.Step)
    requires P.Sound(p) && P.Returned(p)
    ensures P.Returned(P.Do(p, step)) && p.inFlight.None? && p.settled.None?
  {
  }

  lemma PipeKeeps(p: Portals, token: string, parse: Parser, c: Client, step: P.Step)
    requires PipesSound(p) && c in p.pipes
    ensures PipesSound(p.(pipes := p.pipes[c := P.Do(p.pipes[c], step)]))
  {
    P.StepKeeps(p.pipes[c], step);
    if c in p.gone {
      ReturnedStays(p.pipes[c], step);
    }
  }

  // The owner of a settling command cannot have gone: nothing of a gone client
  // is in flight.
  lemma SettleKeeps(p: Portals, token: string, parse: Parser, c: Client, host: Host)
    requires OwnerSound(p, token) && PipesSound(p)
    ensures var q := Do(p, token, parse, Settles(c, host)); OwnerSound(q, token) && PipesSound(q)
  {
    if c in p.pipes && p.pipes[c].inFlight.Some? {
      PipeKeeps(p, token, parse, c, P.CommandSettles);
      assert c !in p.gone;
      var action := parse(p.pipes[c].inFlight.value);
      if action.Some? {
        CommandKeepsMarker(p.voices, token, action.value, c, host);
      }
    }
  }

  lemma StepKeepsOwner(p: Portals, token: string, parse: Parser, step: Step)
    requires OwnerSound(p, token) && PipesSound(p)
    ensures OwnerSound(Do(p, token, parse, step), token) && PipesSound(Do(p, token, parse, step))
    ensures p.gone <= Do(p, token, parse, step).gone
  {
    match step
    case Pipes(c, pipe) => if c in p.pipes { PipeKeeps(p, token, parse, c, pipe); }
    case Settles(c, host) => SettleKeeps(p, token, parse, c, host);
    case _ =>
  }

  lemma {:induction false} OwnerHoldsMarker(p: Portals, token: string, parse: Parser, steps: seq<Step>)
    requires OwnerSound(p, token) && PipesSound(p)
    ensures OwnerSound(After(p, token, parse, steps), token) && PipesSound(After(p, token, parse, steps))
  {
    if steps != [] {
      var n := |steps| - 1;
      OwnerHoldsMarker(p, token, parse, steps[..n]);
      StepKeepsOwner(After(p, token, parse, steps[..n]), token, parse, steps[n]);
    }
  }

  // Once a client's handler has returned, no later state has a command of that
  // client in flight or names it as the owner.
  lemma {:induction false} GoneClientsNeverOwn(
      p: Portals, token: string, parse: Parser, steps: seq<Step>, n: nat, c: Client)
    requires OwnerSound(p, token) && PipesSound(p) && n <= |steps|
    requires c in After(p, token, parse, steps[..n]).gone
    ensures var later := After(p, token, parse, steps);
      && c in later.gone && later.voices.owner != Some(c)
      && c in later.pipes && later.pipes[c].inFlight.None? && later.pipes[c].settled.None?
  {
    OwnerHoldsMarker(p, token, parse, steps);
    if n == |steps| {
      assert steps[..n] == steps;
    } else {
      var m := |steps| - 1;
      assert steps[..m][..n] == steps[..n];
      GoneClientsNeverOwn(p, token, parse, steps[..m], n, c);
      OwnerHoldsMarker(p, token, parse, steps[..m]);
      StepKeepsOwner(After(p, token, parse, steps[..m]), token, parse, steps[m]);
    }
    var later := After(p, token, parse, steps);
    ReturnedStays(later.pipes[c], P.ClientHalfCloses);
  }

  // ---- What the handlers leave ----

  // A command that succeeds shows its own outcome and settles who owns the
  // recording; one that fails latches the error and leaves the owner.
  lemma CommandMeaning(p: Portals, token: string, parse: Parser, action: VoiceAction, client: Client, h: Host)
    requires h.Truthful() && client in p.pipes && p.pipes[client].inFlight.Some?
    requires parse(p.pipes[client].inFlight.value) == Some(action)
    ensures var v, after := p.voices, Do(p, token, parse, Settles(client, h)).voices;
      var begins := h.readable && v.world.recorder.Silent? && v.world.marker.NoMarker? && h.created && h.written;
      var succeeds := h.answered && (if action.VoiceStart? then begins else Owns(v.world, token) && h.removed);
      && (succeeds && action.VoiceStart? ==>
            after == Voices(World(MarkerFile(token), Recording(true)), Some(client), false, VoiceRecording, true))
      && (succeeds && !action.VoiceStart? ==>
            && after.owner.None? && !after.latched && !after.owned && after.world.marker.NoMarker?
            && after.state == (if action.VoiceStop? then VoiceProcessing else VoiceIdle)
            && (v.world.recorder.Recording? ==>
                  after.world.recorder == if action.VoiceStop? then Transcribing else Silent))
      && (!succeeds ==>
            && after.owner == v.owner && after.latched && after.state == VoiceError
            && (after.owned <==> after.world.marker == MarkerFile(token)))
  {
    StartMeaning(p.voices.world, token, h);
    FinishMeaning(p.voices.world, token, true, h);
    FinishMeaning(p.voices.world, token, false, h);
  }

  // When the owner of a recording disconnects, in any run, the recording is
  // cancelled: it is silent and unmarked, or the failure is latched and shown.
  lemma DisconnectCancels(p: Portals, token: string, parse: Parser, steps: seq<Step>, c: Client, h: Host)
    requires OwnerSound(p, token) && PipesSound(p) && h.Truthful()
    requires var q := After(p, token, parse, steps);
      q.voices.owner == Some(c) && c in q.pipes && P.Returned(q.pipes[c])
    ensures var before, after := After(p, token, parse, steps).voices,
        Do(After(p, token, parse, steps), token, parse, CleansUp(c, h)).voices;
      && after.owner.None?
      && (h.answered && h.removed ==>
            && after.world.marker.NoMarker? && !after.world.recorder.Recording?
            && (before.world.recorder.Recording? ==> after.world.recorder.Silent?)
            && (!before.world.recorder.Recording? ==> after.world.recorder == before.world.recorder)
            && !after.latched && after.state == VoiceIdle && !after.owned)
      && (!h.answered || !h.removed ==>
            after.latched && after.state == VoiceError && after.owned && after.world.marker == MarkerFile(token))
  {
    OwnerHoldsMarker(p, token, parse, steps);
    FinishMeaning(After(p, token, parse, steps).voices.world, token, false, h);
  }

  // The disconnect of any other client changes nothing of the recording.
  lemma OthersMayLeave(p: Portals, token: string, parse: Parser, c: Client, h: Host)
    requires p.voices.owner != Some(c)
    ensures Do(p, token, parse, CleansUp(c, h)).voices == p.voices
  {
  }

  // A refresh shows the recorder as it was read, unless an error is latched.
  lemma RefreshMeaning(p: Portals, token: string, parse: Parser, readable: bool)
    ensures var read := Do(p, token, parse, RefreshReads(readable));
      && read.voices == p.voices && read.read.Some?
      && (read.read.value.owned <==> p.voices.world.marker == MarkerFile(token))
      && (read.read.value.state == VoiceUnavailable <==> !readable)
      && (readable ==>
            && (read.read.value.state == VoiceIdle <==> p.voices.world.recorder.Silent?)
            && (read.read.value.state == VoiceRecording <==> p.voices.world.recorder.Recording?)
            && (read.read.value.state == VoiceProcessing <==> p.voices.world.recorder.Transcribing?))
    ensures p.read.Some? ==>
      var after := Do(p, token, parse, RefreshWrites).voices;
      && after.owner == p.voices.owner && after.latched == p.voices.latched && after.world == p.voices.world
      && after.owned == p.read.value.owned
      && after.state == if p.voices.latched then VoiceError else p.read.value.state
  {
  }
}
