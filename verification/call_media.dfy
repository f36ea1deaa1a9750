/** One call's recording, playback and media callbacks. */
module CallMedia {
  import opened Text
  import SdpRewriter

  // ------------------------------------------------------------ the record

  /** A WAV file, named after the phone, the call and a time stamp. */
  datatype File = Wav(phone: string, callId: int, stamp: int)

  /** Ports of the conference bridge. */
  datatype Port = Audio(n: nat) | Player(n: nat) | Recorder(n: nat) | Playback

  /** What the file system does when a recorder is to be created. */
  datatype Disk = Writable | NoDirectory | CreateFails

  /** One media stream of a media-state callback, with the connections that
      the bridge lost when it gave the stream its port. */
  datatype Stream = Stream(activeAudio: bool, port: nat, stamp: int, disk: Disk, mohExists: bool,
                           lost: set<(Port, Port)>)

  const DEFAULT_MOH := "/app/audio/moh.wav"

  /** The fields of a call, the connections it made, and the files it wrote.
      `made` numbers its players and recorders. */
  datatype Call = Call(
    phone: string, codecs: Option<seq<string>>, recordingEnabled: bool,
    recorder: Option<nat>, file: Option<File>, startedAt: Option<int>, pendingStart: bool,
    player: Option<nat>, playing: Option<string>, audMed: Option<nat>,
    counted: bool, disconnected: bool,
    edges: set<(Port, Port)>, wavs: seq<File>, sidecars: seq<File>, made: nat)

  /** `list(codecs) if codecs else None` */
  function Normal(codecs: Option<seq<string>>): Option<seq<string>> {
    if codecs == Some([]) then None else codecs
  }

  function NewCall(phone: string, codecs: Option<seq<string>>, recordingEnabled: bool): Call {
    Call(phone, Normal(codecs), recordingEnabled, None, None, None, false, None, None, None,
         false, false, {}, [], [], 0)
  }

  // --------------------------------------------------------- specification

  function PlayerTo(c: Call, to: Port): set<(Port, Port)> {
    if c.player.Some? then {(Player(c.player.value), to)} else {}
  }

  function StartRecording(c: Call, callId: int, aud: Option<nat>, stamp: int, disk: Disk): Call {
    if !c.recordingEnabled || c.recorder.Some? then c
    else if aud.None? then c.(pendingStart := true)
    else if disk != Writable then c
    else
      var f, r := Wav(c.phone, callId, stamp), Recorder(c.made);
      c.(recorder := Some(c.made), file := Some(f), startedAt := Some(stamp), pendingStart := false,
         made := c.made + 1, wavs := c.wavs + [f],
         edges := c.edges + {(Audio(aud.value), r)} + PlayerTo(c, r))
  }

  function ReconnectRecorder(c: Call, callId: int, aud: nat, stamp: int, disk: Disk): Call {
    if !c.recordingEnabled then c
    else if c.pendingStart || c.recorder.None? then StartRecording(c, callId, Some(aud), stamp, disk)
    else
      var r := Recorder(c.recorder.value);
      c.(edges := c.edges + {(Audio(aud), r)} + PlayerTo(c, r))
  }

  function StopRecording(c: Call): Call {
    if c.recorder.None? then c.(pendingStart := false)
    else
      c.(sidecars := c.sidecars + (if c.file.Some? then [c.file.value] else []),
         recorder := None, file := None, startedAt := None, pendingStart := false)
  }

  function StopPlayer(c: Call): Call {
    if c.player.None? then c
    else
      var cut := if c.audMed.Some? then {(Player(c.player.value), Audio(c.audMed.value))} else {};
      c.(edges := c.edges - cut, player := None, playing := None)
  }

  /** `play_file`; without audio it raises and changes nothing. */
  function PlayFile(c: Call, path: string): Call {
    if c.audMed.None? then c
    else
      var s := StopPlayer(c);
      var p := Player(s.made);
      s.(player := Some(s.made), playing := Some(path), made := s.made + 1,
         edges := s.edges + {(p, Audio(s.audMed.value))}
                  + (if s.recorder.Some? then {(p, Recorder(s.recorder.value))} else {}))
  }

  function StartMoh(c: Call, mohExists: bool): Call {
    if mohExists then PlayFile(c, DEFAULT_MOH) else c
  }

  function StopPlayback(c: Call, mohExists: bool): Call {
    StartMoh(StopPlayer(c), mohExists)
  }

  /** An audio stream that went active. */
  function StreamActive(c: Call, callId: int, s: Stream): Call {
    var a := c.(audMed := Some(s.port), counted := true, edges := c.edges - s.lost + {(Audio(s.port), Playback)});
    var b := if a.player.Some? then a.(edges := a.edges + PlayerTo(a, Audio(s.port)))
             else StartMoh(a, s.mohExists);
    ReconnectRecorder(b, callId, s.port, s.stamp, s.disk)
  }

  function MediaState(c: Call, callId: int, streams: seq<Stream>): Call {
    if streams == [] then c
    else
      var s := streams[|streams| - 1];
      var before := MediaState(c, callId, streams[..|streams| - 1]);
      if s.activeAudio then StreamActive(before, callId, s) else before
  }

  /** The recording toggle of `set_recording_enabled`. */
  function SetRecording(c: Call, enabled: bool, callId: int, stamp: int, disk: Disk): Call {
    var t := c.(recordingEnabled := enabled);
    if !enabled then StopRecording(t)
    else if t.audMed.Some? then StartRecording(t, callId, t.audMed, stamp, disk)
    else t.(pendingStart := true)
  }

  /** `onCallSdpCreated`: what the call sends instead of `sdp`. */
  function OutgoingSdp(c: Call, sdp: string): string {
    match c.codecs
    case None => sdp
    case Some(list) => SdpRewriter.Filtered(sdp, SdpRewriter.AllowedSet(list, true))
  }

  function Disconnect(c: Call): Call {
    StopPlayer(StopRecording(c.(disconnected := true)))
  }

  // ------------------------------------------------------------- the class

  class SipCall {
    const phoneId: string
    var codecs: Option<seq<string>>
    var recordingEnabled: bool
    var recorder: Option<nat>
    var recordingFile: Option<File>
    var startedAt: Option<int>
    var pendingStart: bool
    var player: Option<nat>
    var playerFile: Option<string>
    var audMed: Option<nat>
    var autoCaptureStarted: bool
    var disconnected: bool
    // what the call did to the bridge and to the disk
    var edges: set<(Port, Port)>
    var wavs: seq<File>
    var sidecars: seq<File>
    var made: nat

    function View(): Call
      reads this
    {
      Call(phoneId, codecs, recordingEnabled, recorder, recordingFile, startedAt, pendingStart, player,
           playerFile, audMed, autoCaptureStarted, disconnected, edges, wavs, sidecars, made)
    }

    constructor (phoneId: string, codecs: Option<seq<string>>, recordingEnabled: bool)
      ensures View() == NewCall(phoneId, codecs, recordingEnabled)
    {
      this.phoneId := phoneId;
      this.codecs := Normal(codecs);
      this.recordingEnabled := recordingEnabled;
      recorder, recordingFile, startedAt, pendingStart := None, None, None, false;
      player, playerFile, audMed := None, None, None;
      autoCaptureStarted, disconnected := false, false;
      edges, wavs, sidecars, made := {}, [], [], 0;
    }

    method Connect(source: Port, sink: Port)
      modifies this`edges
      ensures edges == old(edges) + {(source, sink)}
    {
      edges := edges + {(source, sink)};
    }

    /** `_start_recording` */
    method Start(callId: int, aud: Option<nat>, stamp: int, disk: Disk)
      modifies this
      ensures View() == StartRecording(old(View()), callId, aud, stamp, disk)
    {
      if !recordingEnabled {
        return;
      }
      if recorder.Some? {
        return;
      }
      if aud.None? {
        pendingStart := true;
        return;
      }
      if disk != Writable {
        return;
      }
      CreateRecorder(Wav(phoneId, callId, stamp), stamp);
      FeedRecorder(aud.value);
    }

    /** The bookkeeping of a recorder that was created. */
    method CreateRecorder(f: File, stamp: int)
      modifies this
      ensures View() == old(View()).(recorder := Some(old(made)), file := Some(f), startedAt := Some(stamp),
                                     pendingStart := false, made := old(made) + 1, wavs := old(wavs) + [f])
    {
      recorder, made := Some(made), made + 1;
      wavs := wavs + [f];
      recordingFile, startedAt := Some(f), Some(stamp);
      pendingStart := false;
    }

    /** Connects the audio port and the player to the recorder. */
    method FeedRecorder(aud: nat)
      requires recorder.Some?
      modifies this`edges
      ensures edges == old(edges) + {(Audio(aud), Recorder(recorder.value))}
                       + PlayerTo(old(View()), Recorder(recorder.value))
    {
      Connect(Audio(aud), Recorder(recorder.value));
      if player.Some? {
        Connect(Player(player.value), Recorder(recorder.value));
      }
    }

    /** `_reconnect_recorder` */
    method Reconnect(callId: int, aud: nat, stamp: int, disk: Disk)
      modifies this
      ensures View() == ReconnectRecorder(old(View()), callId, aud, stamp, disk)
    {
      if !recordingEnabled {
        return;
      }
      if pendingStart || recorder.None? {
        Start(callId, Some(aud), stamp, disk);
        return;
      }
      FeedRecorder(aud);
    }

    /** `_stop_recording` with its sidecar */
    method Stop()
      modifies this
      ensures View() == StopRecording(old(View()))
    {
      if recorder.None? {
        pendingStart := false;
        return;
      }
      if recordingFile.Some? {
        sidecars := sidecars + [recordingFile.value];
      }
      recorder := None;
      recordingFile := None;
      startedAt := None;
      pendingStart := false;
    }

    /** `_stop_player` */
    method StopCurrentPlayer()
      modifies this
      ensures View() == StopPlayer(old(View()))
    {
      if player.Some? {
        if audMed.Some? {
          edges := edges - {(Player(player.value), Audio(audMed.value))};
        }
        player := None;
        playerFile := None;
      }
    }

    /** `play_file`; `ok` is false when it raises. */
    method Play(path: string) returns (ok: bool)
      modifies this
      ensures ok == old(audMed).Some?
      ensures View() == PlayFile(old(View()), path)
    {
      if audMed.None? {
        return false;
      }
      StopCurrentPlayer();
      var p := made;
      made := made + 1;
      Connect(Player(p), Audio(audMed.value));
      if recorder.Some? {
        Connect(Player(p), Recorder(recorder.value));
      }
      player := Some(p);
      playerFile := Some(path);
      ok := true;
      assert View().edges == PlayFile(old(View()), path).edges;
    }

    /** `stop_playback` */
    method StopAudio(mohExists: bool)
      modifies this
      ensures View() == StopPlayback(old(View()), mohExists)
    {
      StopCurrentPlayer();
      if mohExists {
        var _ := Play(DEFAULT_MOH);
      }
    }

    /** `onCallMediaState`: `first` says that the first-active callback fires. */
    method OnCallMediaState(callId: int, streams: seq<Stream>) returns (first: bool)
      modifies this
      ensures View() == MediaState(old(View()), callId, streams)
      ensures first == (!old(autoCaptureStarted) && autoCaptureStarted)
    {
      hide StreamActive;
      first := false;
      for i := 0 to |streams|
        invariant View() == MediaState(old(View()), callId, streams[..i])
        invariant first == (!old(autoCaptureStarted) && autoCaptureStarted)
        invariant old(autoCaptureStarted) ==> autoCaptureStarted
      {
        var s := streams[i];
        assert streams[..i + 1][..i] == streams[..i];
        if s.activeAudio {
          if !autoCaptureStarted {
            first := true;
          }
          OnStreamActive(callId, s);
        }
      }
      assert streams[..|streams|] == streams;
    }

    /** The body of the loop: playback, player, and the recorder last, over
        whatever the bridge kept. */
    method OnStreamActive(callId: int, s: Stream)
      modifies this
      ensures View() == StreamActive(old(View()), callId, s)
      ensures autoCaptureStarted
    {
      edges := edges - s.lost;
      audMed := Some(s.port);
      autoCaptureStarted := true;
      Connect(Audio(s.port), Playback);
      if player.Some? {
        Connect(Player(player.value), Audio(s.port));
      } else if s.mohExists {
        var _ := Play(DEFAULT_MOH);
      }
      Reconnect(callId, s.port, s.stamp, s.disk);
    }

    /** One step of `set_recording_enabled`. */
    method Toggle(enabled: bool, callId: int, stamp: int, disk: Disk)
      modifies this
      ensures View() == SetRecording(old(View()), enabled, callId, stamp, disk)
    {
      recordingEnabled := enabled;
      if enabled {
        if audMed.Some? {
          Start(callId, audMed, stamp, disk);
        } else {
          pendingStart := true;
        }
      } else {
        Stop();
      }
    }

    /** `onCallState` for the DISCONNECTED state */
    method OnDisconnected()
      modifies this
      ensures View() == Disconnect(old(View()))
    {
      disconnected := true;
      Stop();
      StopCurrentPlayer();
    }

    /** `onCallSdpCreated` */
    method OnCallSdpCreated(sdp: string) returns (out: string)
      ensures out == OutgoingSdp(View(), sdp)
    {
      if codecs.None? || sdp == "" {
        return sdp;
      }
      out := SdpRewriter.FilterAudioCodecs(sdp, codecs.value, true);
    }

    method SetCodecs(list: Option<seq<string>>)
      modifies this`codecs
      ensures View() == old(View()).(codecs := Normal(list))
    {
      codecs := Normal(list);
    }
  }

  // ------------------------------------------------------------ invariants

  /** The recorder, its file and its start time come together, pending
      excludes active, and disabled means idle. */
  predicate RecorderConsistent(c: Call) {
    && (c.recorder.Some? <==> c.file.Some?)
    && (c.recorder.Some? <==> c.startedAt.Some?)
    && (c.pendingStart ==> c.recorder.None?)
    && (!c.recordingEnabled ==> c.recorder.None? && !c.pendingStart)
    && (c.disconnected ==> c.recorder.None? && c.player.None?)
  }

  /** Every WAV opened has its sidecar, in order, but for the one still open. */
  predicate FilesAccounted(c: Call) {
    c.wavs == c.sidecars + (if c.file.Some? then [c.file.value] else [])
  }

  /** The latest audio port is heard, the player feeds it, and both feed the
      recorder. */
  predicate Wired(c: Call) {
    && (c.audMed.Some? ==> (Audio(c.audMed.value), Playback) in c.edges)
    && (c.player.Some? || c.recorder.Some? ==> c.audMed.Some?)
    && (c.player.Some? ==> (Player(c.player.value), Audio(c.audMed.value)) in c.edges)
    && (c.recorder.Some? ==> (Audio(c.audMed.value), Recorder(c.recorder.value)) in c.edges)
    && (c.recorder.Some? && c.player.Some? ==> (Player(c.player.value), Recorder(c.recorder.value)) in c.edges)
  }

  predicate CallInvariant(c: Call) {
    RecorderConsistent(c) && FilesAccounted(c) && Wired(c) && (c.counted <==> c.audMed.Some?)
  }

  /** What can happen to a call, in any order. */
  datatype CallStep =
    | Media(streams: seq<Stream>)
    | ToggleRecording(enabled: bool, stamp: int, disk: Disk)
    | PlayAudio(path: string)
    | StopAudio(mohExists: bool)
    | ChangeCodecs(list: Option<seq<string>>)
    | Hangup

  function CallApply(c: Call, callId: int, step: CallStep): Call {
    match step
    case Media(streams) => MediaState(c, callId, streams)
    case ToggleRecording(enabled, stamp, disk) => SetRecording(c, enabled, callId, stamp, disk)
    case PlayAudio(path) => PlayFile(c, path)
    case StopAudio(mohExists) => StopPlayback(c, mohExists)
    case ChangeCodecs(list) => c.(codecs := Normal(list))
    case Hangup => Disconnect(c)
  }

  function CallRun(c: Call, callId: int, steps: seq<CallStep>): Call {
    if steps == [] then c
    else CallApply(CallRun(c, callId, steps[..|steps| - 1]), callId, steps[|steps| - 1])
  }

  lemma StreamKeepsInvariant(c: Call, callId: int, s: Stream)
    requires CallInvariant(c) && !c.disconnected
    ensures var d := StreamActive(c, callId, s);
            CallInvariant(d) && d.counted && !d.disconnected
            && d.phone == c.phone && d.codecs == c.codecs && d.recordingEnabled == c.recordingEnabled
  {
  }

  lemma {:induction false} MediaKeepsInvariant(c: Call, callId: int, streams: seq<Stream>)
    requires CallInvariant(c) && !c.disconnected
    ensures CallInvariant(MediaState(c, callId, streams)) && !MediaState(c, callId, streams).disconnected
    ensures MediaState(c, callId, streams).phone == c.phone
    ensures MediaState(c, callId, streams).codecs == c.codecs
    ensures MediaState(c, callId, streams).recordingEnabled == c.recordingEnabled
    ensures MediaState(c, callId, streams).counted <==>
      c.counted || exists i :: 0 <= i < |streams| && streams[i].activeAudio
  {
    if streams != [] {
      var n := |streams| - 1;
      hide StreamActive, CallInvariant;
      MediaKeepsInvariant(c, callId, streams[..n]);
      if streams[n].activeAudio {
        StreamKeepsInvariant(MediaState(c, callId, streams[..n]), callId, streams[n]);
      }
      assert streams == streams[..n] + [streams[n]];
      assert forall i :: 0 <= i < n ==> streams[..n][i] == streams[i];
    }
  }

  lemma StepKeepsInvariant(c: Call, callId: int, step: CallStep)
    requires CallInvariant(c) && !c.disconnected
    ensures CallInvariant(CallApply(c, callId, step))
    ensures CallApply(c, callId, step).disconnected <==> step.Hangup?
  {
    hide CallInvariant, MediaState, SetRecording, PlayFile, StopPlayback, Disconnect, Normal;
    match step {
      case Media(streams) => MediaKeepsInvariant(c, callId, streams);
      case ToggleRecording(enabled, stamp, disk) => ToggleKeepsInvariant(c, enabled, callId, stamp, disk);
      case PlayAudio(path) => PlayKeepsInvariant(c, path);
      case StopAudio(mohExists) => StopKeepsInvariant(c, mohExists);
      case ChangeCodecs(list) => CodecsKeepInvariant(c, Normal(list));
      case Hangup => HangupKeepsInvariant(c);
    }
  }

  lemma ToggleKeepsInvariant(c: Call, enabled: bool, callId: int, stamp: int, disk: Disk)
    requires CallInvariant(c) && !c.disconnected
    ensures var d := SetRecording(c, enabled, callId, stamp, disk);
            CallInvariant(d) && !d.disconnected
  {
  }

  lemma PlayKeepsInvariant(c: Call, path: string)
    requires CallInvariant(c) && !c.disconnected
    ensures CallInvariant(PlayFile(c, path)) && !PlayFile(c, path).disconnected
  {
  }

  lemma StopKeepsInvariant(c: Call, mohExists: bool)
    requires CallInvariant(c) && !c.disconnected
    ensures CallInvariant(StopPlayback(c, mohExists)) && !StopPlayback(c, mohExists).disconnected
  {
  }

  lemma CodecsKeepInvariant(c: Call, list: Option<seq<string>>)
    requires CallInvariant(c)
    ensures CallInvariant(c.(codecs := list))
  {
  }

  lemma HangupKeepsInvariant(c: Call)
    requires CallInvariant(c) && !c.disconnected
    ensures CallInvariant(Disconnect(c)) && Disconnect(c).disconnected
  {
  }

  /** In every run of a call up to its hang-up, whatever the order of media
      changes, toggles, play and stop, and whatever connections the bridge loses
      at a media change: recorder, file and start time agree, the files are
      accounted for, and the connections are up to date. */
  lemma {:induction false} EveryCallRun(phone: string, codecs: Option<seq<string>>, enabled: bool, callId: int,
                                        steps: seq<CallStep>)
    requires forall i :: 0 <= i < |steps| - 1 ==> !steps[i].Hangup?
    ensures var c := CallRun(NewCall(phone, codecs, enabled), callId, steps);
            && CallInvariant(c)
            && (c.disconnected <==> steps != [] && steps[|steps| - 1].Hangup?)
            && (c.disconnected ==> c.sidecars == c.wavs)
  {
    if steps != [] {
      var n := |steps| - 1;
      EveryCallRun(phone, codecs, enabled, callId, steps[..n]);
      StepKeepsInvariant(CallRun(NewCall(phone, codecs, enabled), callId, steps[..n]), callId, steps[n]);
    }
  }

  // -------------------------------------------- recording is never missed

  predicate DiskIsWritable(step: CallStep) {
    match step
    case Media(streams) => forall i :: 0 <= i < |streams| ==> streams[i].disk == Writable
    case ToggleRecording(_, _, disk) => disk == Writable
    case _ => true
  }

  /** A call records exactly while recording is on and it has audio. */
  predicate RecordsWhenItShould(c: Call) {
    c.recorder.Some? <==> c.recordingEnabled && c.audMed.Some? && !c.disconnected
  }

  lemma {:induction false} MediaRecords(c: Call, callId: int, streams: seq<Stream>)
    requires CallInvariant(c) && !c.disconnected && RecordsWhenItShould(c)
    requires forall i :: 0 <= i < |streams| ==> streams[i].disk == Writable
    ensures RecordsWhenItShould(MediaState(c, callId, streams))
  {
    if streams != [] {
      var n := |streams| - 1;
      MediaRecords(c, callId, streams[..n]);
      MediaKeepsInvariant(c, callId, streams[..n]);
    }
  }

  /** While the disk accepts new files, no interleaving of toggles and media
      changes loses a recording or leaves one running. */
  lemma {:induction false} RecordingFollowsTheFlag(phone: string, codecs: Option<seq<string>>, enabled: bool, callId: int,
                                                   steps: seq<CallStep>)
    requires forall i :: 0 <= i < |steps| - 1 ==> !steps[i].Hangup?
    requires forall i :: 0 <= i < |steps| ==> DiskIsWritable(steps[i])
    ensures RecordsWhenItShould(CallRun(NewCall(phone, codecs, enabled), callId, steps))
  {
    if steps != [] {
      var n := |steps| - 1;
      var c := CallRun(NewCall(phone, codecs, enabled), callId, steps[..n]);
      RecordingFollowsTheFlag(phone, codecs, enabled, callId, steps[..n]);
      EveryCallRun(phone, codecs, enabled, callId, steps[..n]);
      assert DiskIsWritable(steps[n]);
      if steps[n].Media? {
        MediaRecords(c, callId, steps[n].streams);
        MediaKeepsInvariant(c, callId, steps[n].streams);
      }
    }
  }
}
