/** What a call plays, through which port, and how its files are named, read off
    its history. */
module CallPlayers {
  import opened Text
  import opened CallMedia

  const HOLD_MUSIC := "/app/audio/moh.wav"

  // ------------------------------------------------------------ the history

  /** The port of the last active audio stream. */
  function LastActive(streams: seq<Stream>): Option<nat> {
    if streams == [] then None
    else
      var last := streams[|streams| - 1];
      if last.activeAudio then Some(last.port) else LastActive(streams[..|streams| - 1])
  }

  function LastPort(steps: seq<CallStep>): Option<nat> {
    if steps == [] then None
    else
      var before, last := LastPort(steps[..|steps| - 1]), steps[|steps| - 1];
      if last.Media? && LastActive(last.streams).Some? then LastActive(last.streams) else before
  }

  /** An active audio stream comes while the hold music is there. */
  predicate MohStarts(streams: seq<Stream>) {
    exists i :: 0 <= i < |streams| && streams[i].activeAudio && streams[i].mohExists
  }

  /** The file that is playing: what was asked for once there was audio, the
      hold music after a stop or when audio comes and nothing plays. */
  function Playing(steps: seq<CallStep>): Option<string> {
    if steps == [] then None
    else
      var before, audio := Playing(steps[..|steps| - 1]), LastPort(steps[..|steps| - 1]).Some?;
      match steps[|steps| - 1]
      case Media(streams) => if before.None? && MohStarts(streams) then Some(HOLD_MUSIC) else before
      case PlayAudio(path) => if audio then Some(path) else before
      case StopAudio(mohExists) => if mohExists && audio then Some(HOLD_MUSIC) else None
      case Hangup => None
      case _ => before
  }

  /** The last file asked for, once there was audio, since the last stop. */
  function Asked(steps: seq<CallStep>): Option<string> {
    if steps == [] then None
    else
      var before := Asked(steps[..|steps| - 1]);
      match steps[|steps| - 1]
      case PlayAudio(path) => if LastPort(steps[..|steps| - 1]).Some? then Some(path) else before
      case StopAudio(_) => None
      case _ => before
  }

  // ------------------------------------------------------------- the player

  /** Port and player of a call. */
  predicate Plays(c: Call, port: Option<nat>, file: Option<string>) {
    c.audMed == port && c.playing == file && (c.player.Some? <==> file.Some?)
  }

  predicate SamePlayer(c: Call, d: Call) {
    d.player == c.player && d.playing == c.playing && d.audMed == c.audMed
  }

  /** The recorder does not touch the player. */
  lemma RecorderKeepsPlayer(c: Call, callId: int, aud: Option<nat>, stamp: int, disk: Disk)
    ensures SamePlayer(c, StartRecording(c, callId, aud, stamp, disk)) && SamePlayer(c, StopRecording(c))
    ensures aud.Some? ==> SamePlayer(c, ReconnectRecorder(c, callId, aud.value, stamp, disk))
  {
  }

  lemma ToggleKeepsPlayer(c: Call, on: bool, callId: int, stamp: int, disk: Disk)
    ensures SamePlayer(c, SetRecording(c, on, callId, stamp, disk))
  {
    hide StartRecording, StopRecording, ReconnectRecorder;
    var t := c.(recordingEnabled := on);
    RecorderKeepsPlayer(t, callId, t.audMed, stamp, disk);
  }

  lemma StreamPlays(c: Call, callId: int, s: Stream)
    requires c.player.Some? <==> c.playing.Some?
    ensures var d := StreamActive(c, callId, s);
            && Plays(d, Some(s.port), if c.playing.Some? then c.playing else if s.mohExists then Some(HOLD_MUSIC) else None)
            && (c.player.Some? ==> d.player == c.player)
  {
    hide ReconnectRecorder, StartRecording;
    var a := c.(audMed := Some(s.port), counted := true, edges := c.edges - s.lost + {(Audio(s.port), Playback)});
    var b := if a.player.Some? then a.(edges := a.edges + PlayerTo(a, Audio(s.port))) else StartMoh(a, s.mohExists);
    RecorderKeepsPlayer(b, callId, Some(s.port), s.stamp, s.disk);
  }

  /** A media change moves the call to the last active port, keeps a player
      with its file, and else starts the hold music where it is there. */
  lemma {:induction false} MediaPlays(c: Call, callId: int, streams: seq<Stream>)
    requires c.player.Some? <==> c.playing.Some?
    ensures var d := MediaState(c, callId, streams);
            && Plays(d, if LastActive(streams).Some? then LastActive(streams) else c.audMed,
                     if c.playing.None? && MohStarts(streams) then Some(HOLD_MUSIC) else c.playing)
            && (c.player.Some? ==> d.player == c.player)
  {
    hide StreamActive;
    if streams != [] {
      var n := |streams| - 1;
      MediaPlays(c, callId, streams[..n]);
      assert forall i :: 0 <= i < n ==> streams[..n][i] == streams[i];
      assert MohStarts(streams) <==> MohStarts(streams[..n]) || (streams[n].activeAudio && streams[n].mohExists);
      if streams[n].activeAudio {
        StreamPlays(MediaState(c, callId, streams[..n]), callId, streams[n]);
      }
    }
  }

  lemma StepPlays(c: Call, callId: int, step: CallStep)
    requires (c.player.Some? <==> c.playing.Some?) && !step.Media?
    ensures Plays(CallApply(c, callId, step), c.audMed,
                  match step
                  case PlayAudio(path) => if c.audMed.Some? then Some(path) else c.playing
                  case StopAudio(mohExists) => if mohExists && c.audMed.Some? then Some(HOLD_MUSIC) else None
                  case Hangup => None
                  case _ => c.playing)
  {
    hide SetRecording, StopRecording, MediaState, Normal;
    match step {
      case ToggleRecording(on, stamp, disk) => ToggleKeepsPlayer(c, on, callId, stamp, disk);
      case Hangup => RecorderKeepsPlayer(c.(disconnected := true), callId, None, 0, Writable);
      case _ =>
    }
  }

  /** In every run a call plays through its last active port exactly what its
      history says, and nothing when that is nothing. */
  lemma {:induction false} EveryPlayerRun(phone: string, codecs: Option<seq<string>>, enabled: bool, callId: int,
                                          steps: seq<CallStep>)
    ensures Plays(CallRun(NewCall(phone, codecs, enabled), callId, steps), LastPort(steps), Playing(steps))
  {
    hide CallApply, MediaState, Normal;
    if steps != [] {
      var n := |steps| - 1;
      var c := CallRun(NewCall(phone, codecs, enabled), callId, steps[..n]);
      EveryPlayerRun(phone, codecs, enabled, callId, steps[..n]);
      if steps[n].Media? {
        MediaPlays(c, callId, steps[n].streams);
        MediaApplies(c, callId, steps[n]);
      } else {
        StepPlays(c, callId, steps[n]);
      }
    }
  }

  lemma MediaApplies(c: Call, callId: int, step: CallStep)
    requires step.Media?
    ensures CallApply(c, callId, step) == MediaState(c, callId, step.streams)
  {
    hide MediaState;
  }

  /** The hold music is there at each media change and at each stop. */
  predicate MohThere(step: CallStep) {
    match step
    case Media(streams) => forall i :: 0 <= i < |streams| ==> streams[i].mohExists
    case StopAudio(mohExists) => mohExists
    case _ => true
  }

  lemma {:induction false} ActiveStarts(streams: seq<Stream>)
    requires forall i :: 0 <= i < |streams| ==> streams[i].mohExists
    ensures LastActive(streams).Some? <==> MohStarts(streams)
  {
    if streams != [] {
      var n := |streams| - 1;
      ActiveStarts(streams[..n]);
      assert forall i :: 0 <= i < n ==> streams[..n][i] == streams[i];
    }
  }

  lemma {:induction false} AskedIsPlaying(steps: seq<CallStep>)
    requires forall i :: 0 <= i < |steps| ==> MohThere(steps[i]) && !steps[i].Hangup?
    ensures Playing(steps) ==
            if LastPort(steps).None? then None else if Asked(steps).Some? then Asked(steps) else Some(HOLD_MUSIC)
    ensures LastPort(steps).None? ==> Asked(steps).None?
  {
    hide LastActive, MohStarts;
    if steps != [] {
      var n := |steps| - 1;
      assert forall i :: 0 <= i < n ==> steps[..n][i] == steps[i];
      AskedIsPlaying(steps[..n]);
      assert MohThere(steps[n]);
      if steps[n].Media? {
        ActiveStarts(steps[n].streams);
      }
    }
  }

  /** As long as the hold music is there, a call with audio always plays: the
      last file asked for since the last stop, else the hold music. */
  lemma AlwaysPlays(phone: string, codecs: Option<seq<string>>, enabled: bool, callId: int, steps: seq<CallStep>)
    requires forall i :: 0 <= i < |steps| ==> MohThere(steps[i]) && !steps[i].Hangup?
    ensures var c := CallRun(NewCall(phone, codecs, enabled), callId, steps);
            && (c.audMed.Some? <==> LastPort(steps).Some?)
            && (c.player.Some? <==> c.audMed.Some?)
            && (c.audMed.Some? ==> c.playing == if Asked(steps).Some? then Asked(steps) else Some("/app/audio/moh.wav"))
  {
    hide CallRun, Playing, Asked, LastPort;
    EveryPlayerRun(phone, codecs, enabled, callId, steps);
    AskedIsPlaying(steps);
  }

  /** A player that is stopped or replaced no longer feeds the audio port, and
      every other connection stays. */
  lemma StoppedIsCut(c: Call, path: string)
    requires c.player.Some? && c.audMed.Some?
    ensures var d := StopPlayer(c);
            && d.player == None && d.playing == None
            && d.edges == c.edges - {(Player(c.player.value), Audio(c.audMed.value))}
    ensures c.player.value < c.made ==>
            (Player(c.player.value), Audio(c.audMed.value)) !in PlayFile(c, path).edges
            && (Player(c.player.value), Audio(c.audMed.value)) !in Disconnect(c).edges
  {
  }

  // --------------------------------------------------------------- the files

  /** The time stamps of the steps that can start a recording, in order. */
  function StreamStamps(streams: seq<Stream>): seq<int> {
    if streams == [] then [] else StreamStamps(streams[..|streams| - 1]) + [streams[|streams| - 1].stamp]
  }

  function Stamps(steps: seq<CallStep>): seq<int> {
    if steps == [] then []
    else
      Stamps(steps[..|steps| - 1])
      + match steps[|steps| - 1]
        case Media(streams) => StreamStamps(streams)
        case ToggleRecording(_, stamp, _) => [stamp]
        case _ => []
  }

  /** `xs` is what is left of `ys` when some elements go. */
  predicate Within(xs: seq<int>, ys: seq<int>) {
    if xs == [] then true
    else if ys == [] then false
    else (Within(xs[..|xs| - 1], ys[..|ys| - 1]) && xs[|xs| - 1] == ys[|ys| - 1]) || Within(xs, ys[..|ys| - 1])
  }

  lemma WithinSnoc(xs: seq<int>, ys: seq<int>, y: int)
    requires Within(xs, ys)
    ensures Within(xs, ys + [y]) && Within(xs + [y], ys + [y])
  {
    assert (ys + [y])[..|ys|] == ys && (xs + [y])[..|xs|] == xs;
  }

  lemma {:induction false} WithinLonger(xs: seq<int>, ys: seq<int>, zs: seq<int>)
    requires Within(xs, ys)
    ensures Within(xs, ys + zs)
  {
    if zs == [] {
      assert ys + zs == ys;
    } else {
      WithinLonger(xs, ys, zs[..|zs| - 1]);
      WithinSnoc(xs, ys + zs[..|zs| - 1], zs[|zs| - 1]);
      assert ys + zs[..|zs| - 1] + [zs[|zs| - 1]] == ys + zs;
    }
  }

  function FileStamps(wavs: seq<File>): seq<int> {
    seq(|wavs|, i requires 0 <= i < |wavs| => wavs[i].stamp)
  }

  /** Every file is named after the call, and the open one after its start. */
  predicate FilesNamed(c: Call, phone: string, callId: int) {
    && c.phone == phone
    && (forall i :: 0 <= i < |c.wavs| ==> c.wavs[i].phone == phone && c.wavs[i].callId == callId)
    && (c.file.Some? ==> c.wavs != [] && c.file.value == c.wavs[|c.wavs| - 1] && c.startedAt == Some(c.file.value.stamp))
  }

  /** A step opens no file, or one with its stamp. */
  predicate FilesGrow(c: Call, d: Call, phone: string, callId: int, stamp: int) {
    && FilesNamed(d, phone, callId)
    && (d.wavs == c.wavs || d.wavs == c.wavs + [Wav(phone, callId, stamp)])
  }

  predicate SameFiles(c: Call, d: Call) {
    d.phone == c.phone && d.wavs == c.wavs && d.file == c.file && d.startedAt == c.startedAt
  }

  /** The player does not touch the files. */
  lemma PlayerKeepsFiles(c: Call, path: string, mohExists: bool)
    ensures SameFiles(c, PlayFile(c, path)) && SameFiles(c, StartMoh(c, mohExists)) && SameFiles(c, StopPlayer(c))
  {
  }

  lemma StartFiles(c: Call, callId: int, aud: Option<nat>, stamp: int, disk: Disk)
    requires FilesNamed(c, c.phone, callId)
    ensures FilesGrow(c, StartRecording(c, callId, aud, stamp, disk), c.phone, callId, stamp)
    ensures aud.Some? ==> FilesGrow(c, ReconnectRecorder(c, callId, aud.value, stamp, disk), c.phone, callId, stamp)
    ensures FilesNamed(StopRecording(c), c.phone, callId) && StopRecording(c).wavs == c.wavs
  {
  }

  lemma StreamFiles(c: Call, callId: int, s: Stream)
    requires FilesNamed(c, c.phone, callId)
    ensures FilesGrow(c, StreamActive(c, callId, s), c.phone, callId, s.stamp)
  {
    hide ReconnectRecorder, StartRecording, StopRecording, PlayFile, StartMoh;
    var a := c.(audMed := Some(s.port), counted := true, edges := c.edges - s.lost + {(Audio(s.port), Playback)});
    var b := if a.player.Some? then a.(edges := a.edges + PlayerTo(a, Audio(s.port))) else StartMoh(a, s.mohExists);
    PlayerKeepsFiles(a, "", s.mohExists);
    StartFiles(b, callId, Some(s.port), s.stamp, s.disk);
  }

  lemma StepFiles(c: Call, callId: int, step: CallStep)
    requires FilesNamed(c, c.phone, callId) && !step.Media?
    ensures var d := CallApply(c, callId, step);
            if step.ToggleRecording? then FilesGrow(c, d, c.phone, callId, step.stamp)
            else FilesNamed(d, c.phone, callId) && d.wavs == c.wavs
  {
    hide StartRecording, StopRecording, StopPlayer, PlayFile, StartMoh, MediaState, Normal;
    match step {
      case ToggleRecording(on, stamp, disk) =>
        var t := c.(recordingEnabled := on);
        StartFiles(t, callId, t.audMed, stamp, disk);
      case PlayAudio(path) => PlayerKeepsFiles(c, path, true);
      case StopAudio(mohExists) =>
        PlayerKeepsFiles(c, "", mohExists);
        PlayerKeepsFiles(StopPlayer(c), "", mohExists);
      case Hangup =>
        var t := c.(disconnected := true);
        StartFiles(t, callId, None, 0, Writable);
        PlayerKeepsFiles(StopRecording(t), "", true);
      case _ =>
    }
  }

  lemma FileStampsSnoc(wavs: seq<File>, f: File)
    ensures FileStamps(wavs + [f]) == FileStamps(wavs) + [f.stamp]
  {
  }

  lemma GrowWithin(c: Call, d: Call, phone: string, callId: int, stamp: int, ys: seq<int>)
    requires FilesGrow(c, d, phone, callId, stamp) && Within(FileStamps(c.wavs), ys)
    ensures Within(FileStamps(d.wavs), ys + [stamp])
  {
    hide FilesNamed, Within;
    WithinSnoc(FileStamps(c.wavs), ys, stamp);
    FileStampsSnoc(c.wavs, Wav(phone, callId, stamp));
  }

  lemma {:induction false} MediaFiles(c: Call, callId: int, streams: seq<Stream>, ys: seq<int>)
    requires FilesNamed(c, c.phone, callId) && Within(FileStamps(c.wavs), ys)
    ensures var d := MediaState(c, callId, streams);
            FilesNamed(d, c.phone, callId) && Within(FileStamps(d.wavs), ys + StreamStamps(streams))
  {
    hide StreamActive, FilesNamed, Within, FileStamps;
    if streams == [] {
      assert ys + [] == ys;
    } else {
      var n := |streams| - 1;
      MediaFiles(c, callId, streams[..n], ys);
      var d, zs := MediaState(c, callId, streams[..n]), ys + StreamStamps(streams[..n]);
      assert ys + StreamStamps(streams) == zs + [streams[n].stamp];
      assert d.phone == c.phone by { NamedPhone(d, c.phone, callId); }
      if streams[n].activeAudio {
        StreamFiles(d, callId, streams[n]);
        GrowWithin(d, StreamActive(d, callId, streams[n]), c.phone, callId, streams[n].stamp, zs);
      } else {
        WithinSnoc(FileStamps(d.wavs), zs, streams[n].stamp);
      }
    }
  }

  lemma NamedPhone(c: Call, phone: string, callId: int)
    requires FilesNamed(c, phone, callId)
    ensures c.phone == phone
  {
  }

  /** In every run the files of a call carry its phone, its id and, in their
      order, stamps of steps that came; so that with increasing stamps no two
      files have the same name. */
  lemma {:induction false} EveryFileRun(phone: string, codecs: Option<seq<string>>, enabled: bool, callId: int,
                                        steps: seq<CallStep>)
    ensures var c := CallRun(NewCall(phone, codecs, enabled), callId, steps);
            FilesNamed(c, phone, callId) && Within(FileStamps(c.wavs), Stamps(steps))
  {
    hide CallApply, Within, FileStamps, MediaState, StreamStamps;
    if steps == [] {
      NoFiles(phone, codecs, enabled, callId);
    } else {
      hide FilesNamed;
      var n := |steps| - 1;
      var c, ys := CallRun(NewCall(phone, codecs, enabled), callId, steps[..n]), Stamps(steps[..n]);
      EveryFileRun(phone, codecs, enabled, callId, steps[..n]);
      NamedPhone(c, phone, callId);
      if steps[n].Media? {
        MediaFiles(c, callId, steps[n].streams, ys);
        MediaApplies(c, callId, steps[n]);
      } else {
        StepFiles(c, callId, steps[n]);
        if steps[n].ToggleRecording? {
          GrowWithin(c, CallApply(c, callId, steps[n]), phone, callId, steps[n].stamp, ys);
        } else {
          assert ys + [] == ys;
        }
      }
    }
  }

  lemma NoFiles(phone: string, codecs: Option<seq<string>>, enabled: bool, callId: int)
    ensures var c := NewCall(phone, codecs, enabled);
            FilesNamed(c, phone, callId) && Within(FileStamps(c.wavs), [])
  {
    hide Normal;
    assert FileStamps([]) == [];
  }

  lemma {:induction false} WithinIncreasing(xs: seq<int>, ys: seq<int>)
    requires Within(xs, ys) && forall i, j :: 0 <= i < j < |ys| ==> ys[i] < ys[j]
    ensures forall i, j :: 0 <= i < j < |xs| ==> xs[i] < xs[j]
    ensures xs != [] ==> ys != [] && xs[|xs| - 1] <= ys[|ys| - 1]
  {
    if xs != [] && ys != [] {
      var x, y := xs[..|xs| - 1], ys[..|ys| - 1];
      if Within(x, y) && xs[|xs| - 1] == ys[|ys| - 1] {
        WithinIncreasing(x, y);
      } else {
        WithinIncreasing(xs, y);
      }
    }
  }

  /** With increasing time stamps no two recordings of a call share a file. */
  lemma FilesDistinct(phone: string, codecs: Option<seq<string>>, enabled: bool, callId: int, steps: seq<CallStep>)
    requires forall i, j :: 0 <= i < j < |Stamps(steps)| ==> Stamps(steps)[i] < Stamps(steps)[j]
    ensures var wavs := CallRun(NewCall(phone, codecs, enabled), callId, steps).wavs;
            forall i, j :: 0 <= i < j < |wavs| ==> wavs[i] != wavs[j]
  {
    hide CallRun, Stamps;
    EveryFileRun(phone, codecs, enabled, callId, steps);
    var wavs := CallRun(NewCall(phone, codecs, enabled), callId, steps).wavs;
    WithinIncreasing(FileStamps(wavs), Stamps(steps));
    forall i, j | 0 <= i < j < |wavs| ensures wavs[i] != wavs[j] {
      assert FileStamps(wavs)[i] < FileStamps(wavs)[j];
    }
  }
}
