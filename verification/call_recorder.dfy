/** When a recording is deferred, and the numbers of players and recorders. */
module CallRecorders {
  import opened Text
  import opened CallMedia
  import opened CallPlayers

  // ------------------------------------------------------ deferred starts

  /** A stream that starts a recording that waits. */
  predicate StartsDeferred(streams: seq<Stream>) {
    exists i :: 0 <= i < |streams| && streams[i].activeAudio && streams[i].disk == Writable
  }

  /** Recording was asked for before there was audio, and has neither started
      nor been called off since. */
  predicate Deferred(steps: seq<CallStep>) {
    if steps == [] then false
    else
      var before, last := steps[..|steps| - 1], steps[|steps| - 1];
      match last
      case Media(streams) => Deferred(before) && !StartsDeferred(streams)
      case ToggleRecording(on, _, disk) =>
        on && (LastPort(before) == None || (Deferred(before) && disk != Writable))
      case Hangup => false
      case _ => Deferred(before)
  }

  lemma StreamPending(c: Call, callId: int, s: Stream)
    requires CallInvariant(c)
    ensures StreamActive(c, callId, s).pendingStart <==> c.pendingStart && s.disk != Writable
  {
    hide FilesAccounted, Wired;
  }

  lemma {:induction false} MediaPending(c: Call, callId: int, streams: seq<Stream>)
    requires CallInvariant(c) && !c.disconnected
    ensures MediaState(c, callId, streams).pendingStart <==> c.pendingStart && !StartsDeferred(streams)
  {
    hide CallInvariant, StreamActive;
    if streams != [] {
      var n := |streams| - 1;
      var before := streams[..n];
      MediaPending(c, callId, before);
      MediaKeepsInvariant(c, callId, before);
      StreamPending(MediaState(c, callId, before), callId, streams[n]);
      assert forall i :: 0 <= i < n ==> before[i] == streams[i];
      if StartsDeferred(before) {
        var i :| 0 <= i < n && before[i].activeAudio && before[i].disk == Writable;
        assert streams[i].activeAudio && streams[i].disk == Writable;
      }
    }
  }

  lemma StepPending(c: Call, callId: int, step: CallStep)
    requires CallInvariant(c) && !step.Media?
    ensures CallApply(c, callId, step).pendingStart <==>
            match step
            case ToggleRecording(on, _, disk) => on && (c.audMed == None || (c.pendingStart && disk != Writable))
            case Hangup => false
            case _ => c.pendingStart
  {
    hide FilesAccounted, Wired, MediaState;
  }

  /** In every run up to the hang-up a start of the recording is pending if and
      only if it was deferred: for want of audio, and then until a stream with
      a writable disk, until it is called off, or until the hang-up. */
  lemma {:induction false} EveryDeferredRun(phone: string, codecs: Option<seq<string>>, enabled: bool, callId: int,
                                            steps: seq<CallStep>)
    requires forall i :: 0 <= i < |steps| - 1 ==> !steps[i].Hangup?
    ensures CallRun(NewCall(phone, codecs, enabled), callId, steps).pendingStart <==> Deferred(steps)
  {
    if steps == [] {
    } else {
      hide CallInvariant, CallApply, LastPort, Plays, StartsDeferred;
      var n := |steps| - 1;
      var c := CallRun(NewCall(phone, codecs, enabled), callId, steps[..n]);
      EveryDeferredRun(phone, codecs, enabled, callId, steps[..n]);
      EveryCallRun(phone, codecs, enabled, callId, steps[..n]);
      PortOfRun(phone, codecs, enabled, callId, steps[..n]);
      if steps[n].Media? {
        MediaPending(c, callId, steps[n].streams);
        MediaApplies(c, callId, steps[n]);
      } else {
        StepPending(c, callId, steps[n]);
      }
    }
  }

  lemma PortOfRun(phone: string, codecs: Option<seq<string>>, enabled: bool, callId: int, steps: seq<CallStep>)
    ensures CallRun(NewCall(phone, codecs, enabled), callId, steps).audMed == LastPort(steps)
  {
    hide CallRun, LastPort, Playing;
    EveryPlayerRun(phone, codecs, enabled, callId, steps);
  }

  // --------------------------------------------------------------- numbers

  predicate Below(p: Port, made: nat) {
    match p
    case Player(n) => n < made
    case Recorder(n) => n < made
    case _ => true
  }

  /** The players and recorders made so far have different numbers, and no
      connection is of one that is still to be made. */
  predicate Numbered(c: Call) {
    && (c.player.Some? ==> c.player.value < c.made)
    && (c.recorder.Some? ==> c.recorder.value < c.made)
    && (c.player.Some? ==> c.player != c.recorder)
    && forall e :: e in c.edges ==> Below(e.0, c.made) && Below(e.1, c.made)
  }

  lemma StopNumbered(c: Call)
    requires Numbered(c)
    ensures Numbered(StopPlayer(c)) && StopPlayer(c).made == c.made
  {
  }

  lemma PlayNumbered(c: Call, path: string)
    requires Numbered(c)
    ensures Numbered(PlayFile(c, path))
  {
    hide StopPlayer;
    StopNumbered(c);
  }

  lemma PlayerNumbered(c: Call, path: string, mohExists: bool)
    requires Numbered(c)
    ensures Numbered(PlayFile(c, path)) && Numbered(StartMoh(c, mohExists)) && Numbered(StopPlayer(c))
  {
    hide Numbered, PlayFile, StopPlayer;
    PlayNumbered(c, path);
    PlayNumbered(c, DEFAULT_MOH);
    StopNumbered(c);
  }

  lemma RecorderNumbered(c: Call, callId: int, aud: Option<nat>, stamp: int, disk: Disk)
    requires Numbered(c)
    ensures Numbered(StartRecording(c, callId, aud, stamp, disk)) && Numbered(StopRecording(c))
    ensures aud.Some? ==> Numbered(ReconnectRecorder(c, callId, aud.value, stamp, disk))
  {
  }

  lemma StreamNumbered(c: Call, callId: int, s: Stream)
    requires Numbered(c)
    ensures Numbered(StreamActive(c, callId, s))
  {
    hide PlayFile, StartMoh, StartRecording, ReconnectRecorder;
    var a := c.(audMed := Some(s.port), counted := true, edges := c.edges - s.lost + {(Audio(s.port), Playback)});
    var b := if a.player.Some? then a.(edges := a.edges + PlayerTo(a, Audio(s.port))) else StartMoh(a, s.mohExists);
    PlayerNumbered(a, "", s.mohExists);
    RecorderNumbered(b, callId, Some(s.port), s.stamp, s.disk);
  }

  lemma {:induction false} MediaNumbered(c: Call, callId: int, streams: seq<Stream>)
    requires Numbered(c)
    ensures Numbered(MediaState(c, callId, streams))
  {
    hide Numbered, StreamActive;
    if streams != [] {
      MediaNumbered(c, callId, streams[..|streams| - 1]);
      if streams[|streams| - 1].activeAudio {
        StreamNumbered(MediaState(c, callId, streams[..|streams| - 1]), callId, streams[|streams| - 1]);
      }
    }
  }

  lemma StepNumbered(c: Call, callId: int, step: CallStep)
    requires Numbered(c)
    ensures Numbered(CallApply(c, callId, step))
  {
    hide PlayFile, StartMoh, StopPlayer, StartRecording, StopRecording, MediaState, Normal;
    match step {
      case Media(streams) => MediaNumbered(c, callId, streams);
      case ToggleRecording(on, stamp, disk) =>
        RecorderNumbered(c.(recordingEnabled := on), callId, c.audMed, stamp, disk);
      case PlayAudio(path) => PlayerNumbered(c, path, true);
      case StopAudio(mohExists) =>
        PlayerNumbered(c, "", mohExists);
        PlayerNumbered(StopPlayer(c), "", mohExists);
      case ChangeCodecs(_) =>
      case Hangup =>
        var d := c.(disconnected := true);
        RecorderNumbered(d, callId, None, 0, Writable);
        PlayerNumbered(StopRecording(d), "", true);
    }
  }

  /** In every run each player and each recorder is a new one: no connection
      made before it was made is its. */
  lemma {:induction false} EveryNumberedRun(phone: string, codecs: Option<seq<string>>, enabled: bool, callId: int,
                                            steps: seq<CallStep>)
    ensures Numbered(CallRun(NewCall(phone, codecs, enabled), callId, steps))
  {
    if steps == [] {
    } else {
      hide Numbered, CallApply;
      var n := |steps| - 1;
      EveryNumberedRun(phone, codecs, enabled, callId, steps[..n]);
      StepNumbered(CallRun(NewCall(phone, codecs, enabled), callId, steps[..n]), callId, steps[n]);
    }
  }
}
