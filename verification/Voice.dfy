// The voice ownership protocol (crates/xeneon-agent-core/src/voice.rs): a
// marker file written before a recording is started and removed after it ends,
// so that a crash anywhere leaves evidence for the cleanup to act on.

module Voice {
  datatype Marker = NoMarker | MarkerFile(contents: string) | NotRegular

  // `Recording(true)` is a recording this portal started.
  datatype Recorder = Silent | Recording(portal: bool) | Transcribing

  datatype World = World(marker: Marker, recorder: Recorder)

  datatype VoiceState = VoiceIdle | VoiceRecording | VoiceProcessing | VoiceError | VoiceUnavailable

  datatype VoiceAction = VoiceStart | VoiceStop | VoiceCancel

  datatype VoiceFault = Unavailable | NotIdle | NotOwned | CommandFailed | OwnershipFailed

  datatype VoiceResult = Shown(state: VoiceState, owned: bool) | Fault(fault: VoiceFault)

  // What the host does with one operation. A command that does not answer
  // success may still have been applied; one that answers success was.
  datatype Host = Host(
    readable: bool, created: bool, written: bool, unlinked: bool,
    applied: bool, answered: bool, cancelApplied: bool, cancelAnswered: bool, removed: bool)
  {
    predicate Truthful() {
      (answered ==> applied) && (cancelAnswered ==> cancelApplied)
    }
  }

  function ReadState(w: World, readable: bool): VoiceState {
    if !readable then VoiceUnavailable
    else
      match w.recorder
      case Silent => VoiceIdle
      case Recording(_) => VoiceRecording
      case Transcribing => VoiceProcessing
  }

  predicate Owns(w: World, token: string) {
    w.marker == MarkerFile(token)
  }

  function Quiet(w: World): World {
    w.(recorder := if w.recorder.Recording? then Silent else w.recorder)
  }

  // ---- Every state an operation passes through ----

  function StartTrace(w: World, token: string, h: Host): seq<World> {
    if ReadState(w, h.readable) != VoiceIdle || w.marker != NoMarker || !h.created then []
    else
      var made := w.(marker := MarkerFile(""));
      if !h.written then [made] + if h.unlinked then [w] else []
      else
        var claimed := w.(marker := MarkerFile(token));
        var started := if h.applied then claimed.(recorder := Recording(true)) else claimed;
        if h.answered then [made, claimed, started]
        else
          var cancelled := if h.cancelApplied then Quiet(started) else started;
          [made, claimed, started, cancelled]
          + if h.removed then [cancelled.(marker := NoMarker)] else []
  }

  function StartResult(w: World, h: Host): VoiceResult {
    var state := ReadState(w, h.readable);
    if state == VoiceUnavailable then Fault(Unavailable)
    else if state != VoiceIdle then Fault(NotIdle)
    else if w.marker != NoMarker || !h.created || !h.written then Fault(OwnershipFailed)
    else if h.answered then Shown(VoiceRecording, true)
    else Fault(CommandFailed)
  }

  function FinishTrace(w: World, token: string, stop: bool, h: Host): seq<World> {
    if !Owns(w, token) then []
    else
      var ended := if !h.applied || !w.recorder.Recording? then w
                   else w.(recorder := if stop then Transcribing else Silent);
      [ended] + if h.answered && h.removed then [ended.(marker := NoMarker)] else []
  }

  function FinishResult(w: World, token: string, stop: bool, h: Host): VoiceResult {
    if !Owns(w, token) then Fault(NotOwned)
    else if !h.answered then Fault(CommandFailed)
    else if !h.removed then Fault(OwnershipFailed)
    else Shown(if stop then VoiceProcessing else VoiceIdle, false)
  }

  // `--cleanup-dictation`, run before the daemon starts and after it stops.
  function CleanupTrace(w: World, h: Host): seq<World> {
    if !w.marker.MarkerFile? then []
    else if ReadState(w, h.readable) == VoiceIdle then if h.removed then [w.(marker := NoMarker)] else []
    else
      var cancelled := if h.cancelApplied then Quiet(w) else w;
      [cancelled] + if h.cancelAnswered && h.removed then [cancelled.(marker := NoMarker)] else []
  }

  predicate CleanupOk(w: World, h: Host) {
    || w.marker.NoMarker?
    || (w.marker.MarkerFile? && h.removed && (ReadState(w, h.readable) == VoiceIdle || h.cancelAnswered))
  }

  function Last(w: World, trace: seq<World>): World {
    if trace == [] then w else trace[|trace| - 1]
  }

  // ---- The controller, one host effect at a time ----

  class Desk {
    var marker: Marker
    var recorder: Recorder
    ghost var history: seq<World>

    function Now(): World
      reads this
    {
      World(marker, recorder)
    }

    constructor (w: World)
      ensures Now() == w && history == []
    {
      marker, recorder, history := w.marker, w.recorder, [];
    }

    method SetMarker(m: Marker)
      modifies this
      ensures Now() == old(Now()).(marker := m) && history == old(history) + [Now()]
    {
      marker := m;
      history := history + [Now()];
    }

    method SetRecorder(r: Recorder)
      modifies this
      ensures Now() == old(Now()).(recorder := r) && history == old(history) + [Now()]
    {
      recorder := r;
      history := history + [Now()];
    }
  }

  class VoiceController {
    const token: string
    const desk: Desk

    constructor (token: string, desk: Desk)
      ensures this.token == token && this.desk == desk
    {
      this.token, this.desk := token, desk;
    }

    method ClaimMarker(h: Host) returns (ok: bool)
      modifies desk
      ensures desk.recorder == old(desk.recorder)
      ensures ok == (old(desk.marker) == NoMarker && h.created && h.written)
      ensures ok ==> desk.marker == MarkerFile(token)
      ensures var made := old(desk.Now()).(marker := MarkerFile(""));
        desk.history == old(desk.history) + (
          if ok then [made, desk.Now()]
          else if old(desk.marker) != NoMarker || !h.created then []
          else [made] + if h.unlinked then [old(desk.Now())] else [])
      ensures desk.Now() == Last(old(desk.Now()), desk.history[|old(desk.history)|..])
    {
      if desk.marker != NoMarker || !h.created {
        return false;
      }
      desk.SetMarker(MarkerFile(""));
      if !h.written {
        if h.unlinked {
          desk.SetMarker(NoMarker);
        }
        return false;
      }
      desk.SetMarker(MarkerFile(token));
      ok := true;
    }

    method Start(h: Host) returns (result: VoiceResult)
      modifies desk
      ensures result == StartResult(old(desk.Now()), h)
      ensures var trace := StartTrace(old(desk.Now()), token, h);
        desk.history == old(desk.history) + trace && desk.Now() == Last(old(desk.Now()), trace)
    {
      match ReadState(desk.Now(), h.readable) {
        case VoiceIdle =>
        case VoiceUnavailable => return Fault(Unavailable);
        case _ => return Fault(NotIdle);
      }
      var claimed := ClaimMarker(h);
      if !claimed {
        return Fault(OwnershipFailed);
      }
      desk.SetRecorder(if h.applied then Recording(true) else desk.recorder);
      if h.answered {
        return Shown(VoiceRecording, true);
      }
      desk.SetRecorder(if h.cancelApplied then Quiet(desk.Now()).recorder else desk.recorder);
      if Owns(desk.Now(), token) && h.removed {
        desk.SetMarker(NoMarker);
      }
      result := Fault(CommandFailed);
    }

    method Finish(stop: bool, h: Host) returns (result: VoiceResult)
      modifies desk
      ensures result == FinishResult(old(desk.Now()), token, stop, h)
      ensures var trace := FinishTrace(old(desk.Now()), token, stop, h);
        desk.history == old(desk.history) + trace && desk.Now() == Last(old(desk.Now()), trace)
    {
      if !Owns(desk.Now(), token) {
        return Fault(NotOwned);
      }
      if h.applied && desk.recorder.Recording? {
        desk.SetRecorder(if stop then Transcribing else Silent);
      } else {
        desk.SetRecorder(desk.recorder);
      }
      if !h.answered {
        return Fault(CommandFailed);
      }
      if !h.removed {
        return Fault(OwnershipFailed);
      }
      desk.SetMarker(NoMarker);
      result := Shown(if stop then VoiceProcessing else VoiceIdle, false);
    }
  }

  method CleanupOwnedDictation(desk: Desk, h: Host) returns (ok: bool)
    modifies desk
    ensures ok == CleanupOk(old(desk.Now()), h)
    ensures var trace := CleanupTrace(old(desk.Now()), h);
      desk.history == old(desk.history) + trace && desk.Now() == Last(old(desk.Now()), trace)
  {
    if !desk.marker.MarkerFile? {
      return desk.marker == NoMarker;
    }
    if ReadState(desk.Now(), h.readable) != VoiceIdle {
      desk.SetRecorder(if h.cancelApplied then Quiet(desk.Now()).recorder else desk.recorder);
      if !h.cancelAnswered {
        return false;
      }
    }
    if h.removed {
      desk.SetMarker(NoMarker);
    }
    ok := h.removed;
  }

  // ---- What each operation leaves ----

  // A start succeeds exactly from a silent recorder without a marker, and then
  // leaves a recording of ours; one refused before it claims anything changes nothing.
  lemma StartMeaning(w: World, token: string, h: Host)
    requires h.Truthful()
    ensures var result, after := StartResult(w, h), Last(w, StartTrace(w, token, h));
      var begins := h.readable && w.recorder.Silent? && w.marker.NoMarker? && h.created && h.written;
      && (result == Shown(VoiceRecording, true) <==> begins && h.answered)
      && (result.Shown? ==> result == Shown(VoiceRecording, true) && after == World(MarkerFile(token), Recording(true)))
      && (result == Fault(Unavailable) <==> !h.readable)
      && (result == Fault(NotIdle) <==> h.readable && !w.recorder.Silent?)
      && (result == Fault(CommandFailed) <==> begins && !h.answered)
      && (!h.readable || !w.recorder.Silent? || !w.marker.NoMarker? ==> after == w && StartTrace(w, token, h) == [])
      && (h.readable && w.recorder.Silent? && w.marker.NoMarker? && !begins ==>
            && result == Fault(OwnershipFailed) && after.recorder.Silent?
            && after.marker == if h.created && !h.unlinked then MarkerFile("") else NoMarker)
      && (begins && !h.answered ==>
            && (h.cancelApplied ==> after.recorder.Silent?)
            && after.marker == if h.removed then NoMarker else MarkerFile(token))
  {
  }

  // A stop or cancel of our own recording ends it as its name says and gives
  // the marker up; it touches nothing that is not ours.
  lemma FinishMeaning(w: World, token: string, stop: bool, h: Host)
    requires h.Truthful()
    ensures var result, after := FinishResult(w, token, stop, h), Last(w, FinishTrace(w, token, stop, h));
      var ours := w.marker == MarkerFile(token);
      && (result.Shown? <==> ours && h.answered && h.removed)
      && (result.Shown? ==>
            && result == Shown(if stop then VoiceProcessing else VoiceIdle, false) && after.marker.NoMarker?
            && (w.recorder.Recording? ==> if stop then after.recorder.Transcribing? else after.recorder.Silent?)
            && (!w.recorder.Recording? ==> after.recorder == w.recorder))
      && (result == Fault(NotOwned) <==> !ours) && (!ours ==> after == w)
      && (!result.Shown? ==> after.marker == w.marker)
  {
  }

  // A cleanup acts only where there is a marker, and cancels unless the
  // recorder is seen idle.
  lemma CleanupMeaning(w: World, h: Host)
    requires h.Truthful()
    ensures var after := Last(w, CleanupTrace(w, h));
      && (!w.marker.MarkerFile? ==> after == w && (CleanupOk(w, h) <==> w.marker.NoMarker?))
      && (w.marker.MarkerFile? && CleanupOk(w, h) ==>
            after == World(NoMarker, if w.recorder.Recording? then Silent else w.recorder))
      && (w.marker.MarkerFile? && !CleanupOk(w, h) ==> after.marker == w.marker)
  {
  }

  // ---- Write-ahead: a live portal recording is always marked ----

  predicate Safe(w: World) {
    w.recorder == Recording(true) ==> w.marker.MarkerFile?
  }

  predicate AllSafe(trace: seq<World>) {
    forall i :: 0 <= i < |trace| ==> Safe(trace[i])
  }

  // The start was applied without an answer, and its one cancel was not applied.
  predicate Orphans(w: World, h: Host) {
    && ReadState(w, h.readable) == VoiceIdle && w.marker == NoMarker && h.created && h.written
    && h.applied && !h.answered && !h.cancelApplied && h.removed
  }

  // A start can leave an unmarked live recording in exactly one way, and then
  // only by its fifth and last effect.
  lemma StartIsWriteAhead(w: World, token: string, h: Host)
    requires Safe(w)
    ensures var t := StartTrace(w, token, h);
      forall i :: 0 <= i < |t| ==> (Safe(t[i]) <==> !(Orphans(w, h) && i == 4))
    ensures AllSafe(StartTrace(w, token, h)) <==> !Orphans(w, h)
  {
    var t := StartTrace(w, token, h);
    if Orphans(w, h) {
      assert !Safe(t[4]);
    }
  }

  // Such a start exists: the recorder starts and then stops answering.
  lemma AnUnansweredStartCanOrphan()
    ensures var w := World(NoMarker, Silent);
      var h := Host(true, true, true, true, true, false, false, false, true);
      h.Truthful() && Safe(w) && StartResult(w, h) == Fault(CommandFailed)
      && Last(w, StartTrace(w, "token", h)) == World(NoMarker, Recording(true))
  {
  }

  lemma FinishIsWriteAhead(w: World, token: string, stop: bool, h: Host)
    requires Safe(w) && h.Truthful()
    ensures AllSafe(FinishTrace(w, token, stop, h))
    ensures FinishResult(w, token, stop, h).Shown? ==>
      var after := Last(w, FinishTrace(w, token, stop, h));
      after.marker == NoMarker && after.recorder != Recording(true)
  {
  }

  // A successful cleanup leaves neither marker nor portal recording.
  lemma CleanupIsWriteAhead(w: World, h: Host)
    requires Safe(w) && h.Truthful()
    ensures AllSafe(CleanupTrace(w, h))
    ensures CleanupOk(w, h) ==>
      var after := Last(w, CleanupTrace(w, h)); after.marker == NoMarker && after.recorder != Recording(true)
  {
  }

  // One operation of one daemon, cut short by a crash after `upto` effects (or
  // complete, when it has no more), or a change made by somebody else.
  datatype Act =
    | Operation(kind: ActKind, token: string, host: Host, upto: nat)
    | Elsewhere(recorder: Recorder)

  datatype ActKind = StartKind | StopKind | CancelKind | CleanupKind

  function TraceOf(w: World, act: Act): seq<World> {
    match act
    case Elsewhere(recorder) => [w.(recorder := recorder)]
    case Operation(kind, token, host, upto) =>
      var full := match kind
        case StartKind => StartTrace(w, token, host)
        case StopKind => FinishTrace(w, token, true, host)
        case CancelKind => FinishTrace(w, token, false, host)
        case CleanupKind => CleanupTrace(w, host);
      if upto < |full| then full[..upto] else full
  }

  // Nobody else starts a portal recording; a cancel after an unanswered start works.
  predicate Allowed(w: World, act: Act) {
    match act
    case Elsewhere(recorder) => recorder == Recording(true) ==> w.recorder == Recording(true)
    case Operation(kind, _, host, upto) => host.Truthful() && (kind.StartKind? && Orphans(w, host) ==> upto < 5)
  }

  // Every state visited, oldest first.
  function Visited(w: World, acts: seq<Act>): seq<World> {
    if acts == [] then [w]
    else
      var earlier := Visited(w, acts[..|acts| - 1]);
      earlier + TraceOf(Last(w, earlier), acts[|acts| - 1])
  }

  ghost predicate AllowedRun(w: World, acts: seq<Act>) {
    forall n :: 0 <= n < |acts| ==> Allowed(Last(w, Visited(w, acts[..n])), acts[n])
  }

  lemma ActIsWriteAhead(w: World, act: Act)
    requires Safe(w) && Allowed(w, act)
    ensures AllSafe(TraceOf(w, act))
  {
    if act.Operation? {
      match act.kind {
        case StartKind => StartIsWriteAhead(w, act.token, act.host);
        case StopKind => FinishIsWriteAhead(w, act.token, true, act.host);
        case CancelKind => FinishIsWriteAhead(w, act.token, false, act.host);
        case CleanupKind => CleanupIsWriteAhead(w, act.host);
      }
    }
  }

  // Through any operations, crashes and restarts, every state is safe.
  lemma {:induction false} EveryStateIsMarked(w: World, acts: seq<Act>)
    requires Safe(w) && AllowedRun(w, acts)
    ensures AllSafe(Visited(w, acts))
  {
    if acts != [] {
      var n := |acts| - 1;
      forall k | 0 <= k < n ensures Allowed(Last(w, Visited(w, acts[..n][..k])), acts[..n][k]) {
        assert acts[..n][..k] == acts[..k];
        assert Allowed(Last(w, Visited(w, acts[..k])), acts[k]);
      }
      EveryStateIsMarked(w, acts[..n]);
      ActIsWriteAhead(Last(w, Visited(w, acts[..n])), acts[n]);
    }
  }

  // So a cleanup that succeeds after any crash leaves nothing behind.
  lemma CleanupAfterAnyCrash(w: World, acts: seq<Act>, h: Host)
    requires Safe(w) && AllowedRun(w, acts) && h.Truthful()
    requires var crashed := Last(w, Visited(w, acts)); CleanupOk(crashed, h)
    ensures var crashed := Last(w, Visited(w, acts));
      var after := Last(crashed, CleanupTrace(crashed, h));
      after.marker == NoMarker && after.recorder != Recording(true)
  {
    EveryStateIsMarked(w, acts);
    CleanupIsWriteAhead(Last(w, Visited(w, acts)), h);
  }
}
