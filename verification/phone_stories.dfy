/** Each tracked call of a reachable state is a run of one call: it is what its
    own story makes it. */
module PhoneStories {
  import opened Text
  import opened CallMedia
  import opened CallPlayers
  import opened PhoneSystem
  import opened PhoneInvariants
  import opened PhoneLaws
  import opened PhoneHistory

  // ------------------------------------------------------- the calls' stories

  /** A tracked call: as it was made, and what happened to it since. */
  datatype Story = Story(start: Call, past: seq<CallStep>)

  /** What a step is for the call `cid` of phone `p`. */
  function Means(s: Step, p: string, cid: int): seq<CallStep> {
    match s
    case MediaChange(id, streams) => if id == cid then [Media(streams)] else []
    case Play(id, path) => if id == cid then [PlayAudio(path)] else []
    case StopPlay(id, mohExists) => if id == cid then [StopAudio(mohExists)] else []
    case CodecList(q, list) => if q == p then [ChangeCodecs(Some(list))] else []
    case RecordingFlag(q, on, stamp, disks) =>
      if q == p then [ToggleRecording(on, stamp, if cid in disks then disks[cid] else Writable)] else []
    case _ => []
  }

  /** A call's story after a step; `cfg` has the configurations before it. */
  function Told(st: Option<Story>, cfg: string -> Option<Config>, cid: int, s: Step): Option<Story> {
    match s
    case Incoming(q, id) => if id == cid && cfg(q).Some? then Some(Begun(q, cfg(q).value)) else st
    case Outgoing(q, id) => if id == cid && cfg(q).Some? then Some(Begun(q, cfg(q).value)) else st
    case Ended(id) => if id == cid then None else st
    case Add(q, _, _) => if st.Some? && st.value.start.phone == q then None else st
    case Drop(q) => if st.Some? && st.value.start.phone == q then None else st
    case Register(q, _) => if st.Some? && st.value.start.phone == q then None else st
    case _ =>
      if st.Some? then Some(Story(st.value.start, st.value.past + Means(s, st.value.start.phone, cid))) else st
  }

  /** A call starts with its phone's codec list and recording flag. */
  function Begun(q: string, cfg: Config): Story {
    Story(NewCall(q, cfg.codecs, cfg.recording), [])
  }

  function StoryOf(steps: seq<Step>, cid: int): Option<Story> {
    if steps == [] then None
    else
      var before := steps[..|steps| - 1];
      Told(StoryOf(before, cid), q => ConfigOf(before, q), cid, steps[|steps| - 1])
  }

  function Ends(st: Story, cid: int): Call {
    CallRun(st.start, cid, st.past)
  }

  /** The table has the call exactly when there is a story, and as it ends. */
  ghost predicate Tells(calls: map<int, Call>, cid: int, st: Option<Story>) {
    && (cid in calls <==> st.Some?)
    && (st.Some? ==> calls[cid] == Ends(st.value, cid) && calls[cid].phone == st.value.start.phone)
  }

  lemma EndsSnoc(st: Story, cid: int, step: CallStep)
    ensures Ends(Story(st.start, st.past + [step]), cid) == CallApply(Ends(st, cid), cid, step)
  {
    hide CallApply;
    assert (st.past + [step])[..|st.past|] == st.past;
  }

  lemma NothingHappens(st: Story)
    ensures Story(st.start, st.past + []) == st
  {
    assert st.past + [] == st.past;
  }

  /** One of the table's calls over a step: as the step that it means for it. */
  ghost predicate Moves(w: World, x: World, cid: int, steps: seq<CallStep>)
    requires cid in w.calls
  {
    && x.calls.Keys == w.calls.Keys && |steps| <= 1
    && x.calls[cid] == (if steps == [] then w.calls[cid] else CallApply(w.calls[cid], cid, steps[0]))
    && x.calls[cid].phone == w.calls[cid].phone
  }

  lemma MediaMoves(w: World, id: int, streams: seq<Stream>, cid: int)
    requires cid in w.calls && id in w.calls
    ensures Moves(w, CallMediaState(w, id, streams), cid, if id == cid then [Media(streams)] else [])
  {
    hide MediaState, CallMediaState;
    MediaTables(w, id, streams);
    SamePhone(w.calls[id], id, Media(streams));
  }

  lemma PlayMoves(w: World, id: int, path: string, mohExists: bool, cid: int)
    requires cid in w.calls && id in w.calls
    ensures Moves(w, WithCall(w, id, PlayFile(w.calls[id], path)), cid, if id == cid then [PlayAudio(path)] else [])
    ensures Moves(w, WithCall(w, id, StopPlayback(w.calls[id], mohExists)), cid,
                  if id == cid then [CallStep.StopAudio(mohExists)] else [])
  {
    hide PlayFile, StopPlayback;
    SamePhone(w.calls[id], id, PlayAudio(path));
    SamePhone(w.calls[id], id, CallStep.StopAudio(mohExists));
  }

  lemma CodecMoves(w: World, q: string, list: seq<string>, cid: int)
    requires Invariant(w) && cid in w.calls
    ensures Moves(w, SetCodecs(w, q, list), cid, if q == w.calls[cid].phone then [ChangeCodecs(Some(list))] else [])
  {
    OwnerRegistered(w, cid);
    hide Invariant, Normal;
  }

  lemma RecordingAt(w: World, q: string, on: bool, stamp: int, disks: map<int, Disk>, cid: int)
    requires cid in w.calls && cid in w.owner
    ensures var x := SetRecordingFlag(w, q, on, stamp, disks);
            && x.calls.Keys == w.calls.Keys
            && x.calls[cid] == if q in w.configs && w.owner[cid] == q
                               then SetRecording(w.calls[cid], on, cid, stamp, DiskFor(disks, cid)) else w.calls[cid]
  {
    hide SetRecording, DiskFor;
  }

  lemma RecordingMoves(w: World, q: string, on: bool, stamp: int, disks: map<int, Disk>, cid: int)
    requires Invariant(w) && cid in w.calls
    ensures Moves(w, SetRecordingFlag(w, q, on, stamp, disks), cid,
                  if q == w.calls[cid].phone
                  then [ToggleRecording(on, stamp, if cid in disks then disks[cid] else Writable)] else [])
  {
    OwnerRegistered(w, cid);
    hide Invariant, SetRecording, SetRecordingFlag;
    RecordingAt(w, q, on, stamp, disks, cid);
    SamePhone(w.calls[cid], cid, ToggleRecording(on, stamp, if cid in disks then disks[cid] else Writable));
  }

  lemma NothingMoves(w: World, x: World, cid: int)
    requires cid in w.calls && x.calls == w.calls
    ensures Moves(w, x, cid, [])
  {
  }

  lemma CallAfter(w: World, s: Step, cid: int)
    requires Invariant(w) && Enabled(w, s) && cid in w.calls && (Quiet(s) || s.AutoAnswers?)
    ensures Moves(w, Apply(w, s), cid, Means(s, w.calls[cid].phone, cid))
  {
    hide Invariant, Moves, CallMediaState, WithCall, SetAutoAnswer, SetCodecs, SetRecordingFlag, SetCapture, StartAll, StopAll;
    match s {
      case MediaChange(id, streams) => MediaMoves(w, id, streams, cid);
      case Play(id, path) => PlayMoves(w, id, path, false, cid);
      case StopPlay(id, mohExists) => PlayMoves(w, id, "", mohExists, cid);
      case CodecList(q, list) => CodecMoves(w, q, list, cid);
      case RecordingFlag(q, on, stamp, disks) => RecordingMoves(w, q, on, stamp, disks, cid);
      case AutoAnswerFlag(q, on) =>
        FlagTables(w, q, on);
        NothingMoves(w, SetAutoAnswer(w, q, on), cid);
      case CaptureFlag(q, on) =>
        FlagTables(w, q, on);
        NothingMoves(w, SetCapture(w, q, on), cid);
      case TakeIncoming(q, n) => NothingMoves(w, w.(incoming := w.incoming[q := w.incoming[q][n..]]), cid);
      case AutoAnswers => NothingMoves(w, AutoAnswered(w), cid);
      case Poll => NothingMoves(w, Drain(w), cid);
    }
  }

  lemma OwnerRegistered(w: World, cid: int)
    requires Invariant(w) && cid in w.calls
    ensures w.calls[cid].phone in w.configs && cid in w.owner && w.owner[cid] == w.calls[cid].phone
  {
    CallIsTracked(w, cid);
    KeysAgree(w);
    AccountsAreConfigs(w);
    hide Invariant, CallInvariant;
  }

  lemma {:induction false} SamePhone(c: Call, cid: int, step: CallStep)
    ensures CallApply(c, cid, step).phone == c.phone
    decreases if step.Media? then |step.streams| else 0
  {
    if step.Media? && step.streams != [] {
      var n := |step.streams| - 1;
      hide StreamActive;
      SamePhone(c, cid, Media(step.streams[..n]));
      StreamPhone(MediaState(c, cid, step.streams[..n]), cid, step.streams[n]);
    }
  }

  lemma StreamPhone(c: Call, cid: int, s: Stream)
    ensures StreamActive(c, cid, s).phone == c.phone
  {
  }

  // ----------------------------------------------------------------- the runs

  lemma MovesTell(w: World, x: World, cid: int, st: Option<Story>, steps: seq<CallStep>)
    requires Tells(w.calls, cid, st) && (st.Some? ==> Moves(w, x, cid, steps)) && x.calls.Keys == w.calls.Keys
    ensures Tells(x.calls, cid, if st.Some? then Some(Story(st.value.start, st.value.past + steps)) else None)
  {
    hide CallApply, CallRun;
    if st.Some? {
      if steps == [] {
        NothingHappens(st.value);
      } else {
        assert steps == [steps[0]];
        EndsSnoc(st.value, cid, steps[0]);
      }
    }
  }

  lemma GoneTell(w: World, x: World, cid: int, st: Option<Story>, gone: set<int>)
    requires Tells(w.calls, cid, st) && x.calls == w.calls - gone
    ensures Tells(x.calls, cid, if cid in gone then None else st)
  {
    hide CallRun;
  }

  /** The calls of a phone go with it. */
  lemma PhoneGoneTell(w: World, x: World, q: string, cid: int, st: Option<Story>)
    requires Invariant(w) && Tells(w.calls, cid, st)
    requires x.calls == w.calls - (if q in w.accounts then CallsOf(w, q) else {})
    ensures Tells(x.calls, cid, if st.Some? && st.value.start.phone == q then None else st)
  {
    hide CallRun;
    KeysAgree(w);
    AccountsAreConfigs(w);
    if cid in w.calls {
      OwnerRegistered(w, cid);
    }
    hide Invariant;
    GoneTell(w, x, cid, st, if q in w.accounts then CallsOf(w, q) else {});
  }

  lemma NewTell(w: World, q: string, id: int, cid: int, st: Option<Story>)
    requires Tells(w.calls, cid, st) && id !in w.calls && w.accounts == w.configs.Keys
    ensures var next := if id == cid && q in w.configs then Some(Begun(q, w.configs[q])) else st;
            Tells(IncomingCall(w, q, id).calls, cid, next) && Tells(MakeCall(w, q, id).calls, cid, next)
  {
    hide Queued, CallApply, Normal;
  }

  lemma PhoneTell(w: World, s: Step, cid: int, st: Option<Story>, cfg: string -> Option<Config>)
    requires Invariant(w) && Enabled(w, s) && Tells(w.calls, cid, st) && (s.Add? || s.Drop? || s.Register?)
    ensures Tells(Apply(w, s).calls, cid, Told(st, cfg, cid, s))
  {
    AccountsAreConfigs(w);
    hide Invariant, Tells, AddPhone, DropPhone, CallsOf;
    match s {
      case Add(q, c, tp) =>
        AddTablesAre(w, q, c, tp);
        PhoneGoneTell(w, AddPhone(w, q, c, tp), q, cid, st);
      case Drop(q) =>
        DropTables(w, q);
        PhoneGoneTell(w, DropPhone(w, q), q, cid, st);
      case Register(q, tp) =>
        if q in w.configs {
          AddTablesAre(w, q, w.configs[q], tp);
          PhoneGoneTell(w, AddPhone(w, q, w.configs[q], tp), q, cid, st);
        } else {
          assert w.calls - {} == w.calls;
          PhoneGoneTell(w, w, q, cid, st);
        }
    }
  }

  lemma StoryStep(w: World, s: Step, cid: int, st: Option<Story>, cfg: string -> Option<Config>)
    requires Invariant(w) && Enabled(w, s) && Tells(w.calls, cid, st)
    requires forall q :: cfg(q) == At(w.configs, q)
    ensures Tells(Apply(w, s).calls, cid, Told(st, cfg, cid, s))
  {
    hide Invariant, Enabled, Tells, Told, Apply;
    if Quiet(s) || s.AutoAnswers? {
      QuietTell(w, s, cid, st, cfg);
    } else if s.Add? || s.Drop? || s.Register? {
      PhoneTell(w, s, cid, st, cfg);
    } else {
      CallTell(w, s, cid, st, cfg);
    }
  }

  lemma CallTell(w: World, s: Step, cid: int, st: Option<Story>, cfg: string -> Option<Config>)
    requires Invariant(w) && Enabled(w, s) && Tells(w.calls, cid, st)
    requires s.Incoming? || s.Outgoing? || s.Ended?
    requires forall q :: cfg(q) == At(w.configs, q)
    ensures Tells(Apply(w, s).calls, cid, Told(st, cfg, cid, s))
  {
    hide Invariant, Tells, Means, IncomingCall, MakeCall, CallDisconnected, Begun;
    AccountsAreConfigs(w);
    match s {
      case Ended(id) =>
        EndedCalls(w, id);
        GoneTell(w, CallDisconnected(w, id), cid, st, {id});
      case Incoming(q, id) => NewTell(w, q, id, cid, st);
      case Outgoing(q, id) => NewTell(w, q, id, cid, st);
    }
  }

  lemma QuietTell(w: World, s: Step, cid: int, st: Option<Story>, cfg: string -> Option<Config>)
    requires Invariant(w) && Enabled(w, s) && Tells(w.calls, cid, st) && (Quiet(s) || s.AutoAnswers?)
    ensures Tells(Apply(w, s).calls, cid, Told(st, cfg, cid, s))
  {
    hide Invariant, Apply, Means, Enabled, CallRun, CallApply;
    SameTables(w, s);
    if st.Some? {
      CallAfter(w, s, cid);
      MovesTell(w, Apply(w, s), cid, st, Means(s, st.value.start.phone, cid));
    } else {
      MovesTell(w, Apply(w, s), cid, st, []);
    }
  }

  /** In every reachable state the tracked calls are those that have a story,
      each in the state where its own run of media changes, toggles, requests
      and codec lists leads. */
  lemma {:induction false} EveryStory(steps: seq<Step>, cid: int)
    requires Run(steps).Some?
    ensures Tells(Run(steps).value.calls, cid, StoryOf(steps, cid))
  {
    hide Apply, Enabled, Told, Invariant, Tells, ConfigOf;
    if steps == [] {
      NoStory(cid);
    } else {
      var before := steps[..|steps| - 1];
      EveryStory(before, cid);
      EveryRun(before);
      forall q ensures ConfigOf(before, q) == At(Run(before).value.configs, q) {
        EveryConfigRun(before, q);
      }
      StoryStep(Run(before).value, steps[|steps| - 1], cid, StoryOf(before, cid), q => ConfigOf(before, q));
    }
  }

  lemma NoStory(cid: int)
    ensures Tells(Empty.calls, cid, None)
  {
  }

  lemma {:induction false} StoryStarts(steps: seq<Step>, cid: int)
    requires StoryOf(steps, cid).Some?
    ensures exists q, codecs, on :: StoryOf(steps, cid).value.start == NewCall(q, codecs, on)
  {
    hide ConfigOf, Means, NewCall;
    if steps != [] {
      var before := steps[..|steps| - 1];
      if StoryOf(before, cid).Some? {
        StoryStarts(before, cid);
      }
    }
  }

  /** A tracked call plays, through its last active port, what its story says. */
  lemma TrackedCallPlays(steps: seq<Step>, cid: int)
    requires Run(steps).Some? && cid in Run(steps).value.calls
    ensures StoryOf(steps, cid).Some?
    ensures var past := StoryOf(steps, cid).value.past;
            Plays(Run(steps).value.calls[cid], LastPort(past), Playing(past))
  {
    hide Run, StoryOf, CallRun, NewCall, LastPort, Playing, Plays;
    EveryStory(steps, cid);
    StoryStarts(steps, cid);
    var st := StoryOf(steps, cid).value;
    var q, codecs, on :| st.start == NewCall(q, codecs, on);
    EveryPlayerRun(q, codecs, on, cid, st.past);
  }
}
