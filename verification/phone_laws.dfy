/** Counters, ownership, outgoing SDP and auto-answers in every run. */
module PhoneLaws {
  import opened Text
  import opened CallMedia
  import opened PhoneSystem
  import opened PhoneInvariants
  import opened CallRequests
  import SdpRewriter

  // ------------------------------------------------------------- counters

  /** The phone's counter is the number of its tracked calls that went active. */
  predicate CountExactAt(w: World, p: string) {
    ActiveCount(w, p) == |Counted(w.calls, p)|
  }

  ghost predicate CountsExact(w: World) {
    forall p :: CountExactAt(w, p)
  }

  /** A call that never went active ends while its phone has an active one. */
  predicate EndsUncounted(w: World, s: Step)
    requires Enabled(w, s)
  {
    s.Ended? && !w.calls[s.cid].counted && w.calls[s.cid].phone in w.active
  }

  lemma SameCountsAt(w: World, x: World, p: string)
    requires x.active == w.active && CountExactAt(w, p)
    requires x.calls.Keys == w.calls.Keys
    requires forall cid :: cid in w.calls ==>
      x.calls[cid].phone == w.calls[cid].phone && x.calls[cid].counted == w.calls[cid].counted
    ensures CountExactAt(x, p)
  {
    hide Counted;
    CountedSame(w.calls, x.calls, p);
  }

  lemma NewCallCounts(w: World, p: string, cid: int, c: Call)
    requires cid !in w.calls && !c.counted
    ensures Counted(w.calls[cid := c], p) == Counted(w.calls, p)
  {
  }

  lemma TrackCounts(w: World, q: string, cid: int, p: string)
    requires cid !in w.calls && CountExactAt(w, p)
    ensures CountExactAt(Track(w, q, cid), p)
    ensures CountExactAt(IncomingCall(w, q, cid), p)
  {
    hide Counted, Queued;
    NewCallCounts(w, p, cid, Track(w, q, cid).calls[cid]);
  }

  lemma DropFields(w: World, p: string)
    requires p in w.accounts
    ensures var x := DropPhone(w, p);
            && x.calls == w.calls - CallsOf(w, p) && x.owner == w.owner - CallsOf(w, p)
            && x.active == w.active - {p} && x.autoAnswer == w.autoAnswer - {p}
  {
    hide PhoneDropped, CallsOf;
    DroppedFields(w.(accounts := w.accounts - {p}, configs := w.configs - {p}), w, p);
  }

  lemma DroppedFields(v: World, w: World, p: string)
    requires v == w.(accounts := v.accounts, configs := v.configs)
    ensures var x := PhoneDropped(v, p);
            && x.calls == w.calls - CallsOf(w, p) && x.owner == w.owner - CallsOf(w, p)
            && x.active == w.active - {p} && x.autoAnswer == w.autoAnswer - {p}
  {
    hide Keeping, CallsOf;
    SameOwner(v, w, p);
  }

  lemma DropCounts(w: World, q: string, p: string)
    requires Invariant(w) && CountExactAt(w, p)
    ensures CountExactAt(DropPhone(w, q), p)
  {
    hide Counted, PhoneDropped, CallsOf, Invariant;
    if q in w.accounts {
      DropFields(w, q);
      CountedAfterDrop(w, q, p);
    }
  }

  lemma CountedAfterDrop(w: World, q: string, p: string)
    requires Invariant(w)
    ensures Counted(w.calls - CallsOf(w, q), p) == if p == q then {} else Counted(w.calls, p)
  {
    hide CallInvariant, NoDup, TransportsMatch, QueuesOwned, FollowsConfig;
    assert forall cid :: cid in w.calls ==> TrackedCall(w.calls[cid], w.owner[cid], w.accounts);
  }

  lemma MediaCounts(w: World, cid: int, streams: seq<Stream>, p: string)
    requires Invariant(w) && cid in w.calls && CountExactAt(w, p)
    ensures CountExactAt(CallMediaState(w, cid, streams), p)
  {
    hide MediaState, CallInvariant, Counted, Invariant;
    CallIsTracked(w, cid);
    var c, d := w.calls[cid], MediaState(w.calls[cid], cid, streams);
    MediaKeepsInvariant(c, cid, streams);
    CountedGrows(w.calls, cid, d, p);
    if !(!c.counted && d.counted && p == d.phone) {
      CountedUnchanged(w.calls, cid, d, p);
    }
  }

  lemma CountedUnchanged(calls: map<int, Call>, cid: int, d: Call, p: string)
    requires cid in calls && d.phone == calls[cid].phone && (d.counted == calls[cid].counted || p != d.phone)
    ensures Counted(calls[cid := d], p) == Counted(calls, p)
  {
  }

  lemma EndedCounts(w: World, cid: int, p: string)
    requires Invariant(w) && cid in w.calls && CountExactAt(w, p)
    ensures CountExactAt(CallDisconnected(w, cid), p) <==>
            !(p == w.calls[cid].phone && !w.calls[cid].counted && p in w.active)
  {
    hide CallDisconnected, Counted, TablesAgree, QueuesOwned, TransportsMatch, FollowsConfig, CountersBounded;
    EndedCalls(w, cid);
    CountersAfterEnd(w, cid);
    CountedFalls(w.calls, cid, p);
    assert p in w.active ==> w.active[p] > 0 by { Positive(w, p); }
  }

  lemma Positive(w: World, p: string)
    requires Invariant(w)
    ensures p in w.active ==> w.active[p] > 0
  {
    hide TablesAgree, QueuesOwned, TransportsMatch, FollowsConfig, Counted;
  }

  lemma PlayCounts(c: Call, path: string, mohExists: bool)
    ensures PlayFile(c, path).counted == c.counted && PlayFile(c, path).phone == c.phone
    ensures StopPlayback(c, mohExists).counted == c.counted && StopPlayback(c, mohExists).phone == c.phone
  {
  }

  lemma ToggleCounts(c: Call, on: bool, cid: int, stamp: int, disk: Disk)
    ensures SetRecording(c, on, cid, stamp, disk).counted == c.counted
    ensures SetRecording(c, on, cid, stamp, disk).phone == c.phone
  {
  }

  lemma CodecCounts(w: World, q: string, list: seq<string>, p: string)
    requires CountExactAt(w, p)
    ensures CountExactAt(SetCodecs(w, q, list), p)
  {
    hide CountExactAt, Normal;
    SameCountsAt(w, SetCodecs(w, q, list), p);
  }

  lemma RecordingCounts(w: World, q: string, on: bool, stamp: int, disks: map<int, Disk>, p: string)
    requires CountExactAt(w, p)
    ensures CountExactAt(SetRecordingFlag(w, q, on, stamp, disks), p)
  {
    hide SetRecording, CountExactAt, DiskFor;
    forall cid | cid in w.calls
      ensures var d := SetRecording(w.calls[cid], on, cid, stamp, DiskFor(disks, cid));
              d.counted == w.calls[cid].counted && d.phone == w.calls[cid].phone
    {
      ToggleCounts(w.calls[cid], on, cid, stamp, DiskFor(disks, cid));
    }
    SameCountsAt(w, SetRecordingFlag(w, q, on, stamp, disks), p);
  }

  lemma QuietCounts(w: World, q: string, on: bool, n: nat, p: string)
    requires CountExactAt(w, p)
    ensures CountExactAt(SetAutoAnswer(w, q, on), p) && CountExactAt(SetCapture(w, q, on), p)
    ensures CountExactAt(AutoAnswered(w), p) && CountExactAt(Drain(w), p)
  {
    hide Counted, StartAll, StopAll, FirstOf;
  }

  lemma AddCounts(w: World, q: string, cfg: Config, tp: nat, p: string)
    requires Invariant(w) && CountExactAt(w, p)
    ensures CountExactAt(AddPhone(w, q, cfg, tp), p)
  {
    hide DropPhone, Counted, Invariant;
    if q in w.accounts {
      DropCounts(w, q, p);
    }
  }

  lemma StepCounts(w: World, s: Step, p: string)
    requires Invariant(w) && CountExactAt(w, p) && Enabled(w, s)
    ensures CountExactAt(Apply(w, s), p) <==> !(EndsUncounted(w, s) && w.calls[s.cid].phone == p)
  {
    hide Invariant, CountExactAt, AddPhone, DropPhone, IncomingCall, CallMediaState, CallDisconnected, PlayFile,
      StopPlayback, SetAutoAnswer, SetCodecs, SetRecordingFlag, SetCapture, Track, AutoAnswered, Drain;
    match s {
      case Add(q, cfg, tp) => AddCounts(w, q, cfg, tp, p);
      case Drop(q) => DropCounts(w, q, p);
      case Register(q, tp) =>
        if q in w.configs {
          AddCounts(w, q, w.configs[q], tp, p);
        }
      case Incoming(q, cid) => TrackCounts(w, q, cid, p);
      case Outgoing(q, cid) => TrackCounts(w, q, cid, p);
      case MediaChange(cid, streams) => MediaCounts(w, cid, streams, p);
      case Ended(cid) => EndedCounts(w, cid, p);
      case Play(cid, path) =>
        PlayCounts(w.calls[cid], path, false);
        SameCountsAt(w, Apply(w, s), p);
      case StopPlay(cid, mohExists) =>
        PlayCounts(w.calls[cid], "", mohExists);
        SameCountsAt(w, Apply(w, s), p);
      case AutoAnswerFlag(q, on) => QuietCounts(w, q, on, 0, p);
      case CodecList(q, list) => CodecCounts(w, q, list, p);
      case RecordingFlag(q, on, stamp, disks) => RecordingCounts(w, q, on, stamp, disks, p);
      case CaptureFlag(q, on) => QuietCounts(w, q, on, 0, p);
      case TakeIncoming(q, n) => SameCountsAt(w, Apply(w, s), p);
      case AutoAnswers => QuietCounts(w, "", true, 0, p);
      case Poll => QuietCounts(w, "", true, 0, p);
    }
  }

  /** The counters stay exact over a step if and only if the step is not the
      end of a never-active call on a phone with an active one. */
  lemma CountsAfterStep(w: World, s: Step)
    requires Invariant(w) && CountsExact(w) && Enabled(w, s)
    ensures CountsExact(Apply(w, s)) <==> !EndsUncounted(w, s)
  {
    hide Apply, CountExactAt, Invariant;
    var x := Apply(w, s);
    if EndsUncounted(w, s) {
      var p := w.calls[s.cid].phone;
      assert CountExactAt(w, p);
      StepCounts(w, s, p);
      assert !CountExactAt(x, p);
    } else {
      forall p ensures CountExactAt(x, p) {
        assert CountExactAt(w, p);
        StepCounts(w, s, p);
      }
    }
  }

  /** Only calls that went active end, as long as their phone has active calls. */
  ghost predicate CountedEndings(steps: seq<Step>) {
    steps == [] || (
      && CountedEndings(steps[..|steps| - 1])
      && var w := Run(steps[..|steps| - 1]);
         w.Some? && Enabled(w.value, steps[|steps| - 1]) && !EndsUncounted(w.value, steps[|steps| - 1]))
  }

  lemma {:induction false} EveryCountedRun(steps: seq<Step>)
    requires CountedEndings(steps)
    ensures Run(steps).Some? && CountsExact(Run(steps).value)
  {
    hide Enabled, CountsExact, EndsUncounted;
    if steps == [] {
      EmptyIsExact();
    } else {
      hide Apply, Invariant;
      EveryCountedRun(steps[..|steps| - 1]);
      EveryRun(steps[..|steps| - 1]);
      CountsAfterStep(Run(steps[..|steps| - 1]).value, steps[|steps| - 1]);
    }
  }

  lemma EmptyIsExact()
    ensures CountsExact(Empty)
  {
    forall p ensures Counted(Empty.calls, p) == {} {}
  }

  // ------------------------------------------------------------ ownership

  lemma {:induction false} FirstTrackedIsMember(q: seq<int>, tracked: set<int>)
    ensures FirstTracked(q, tracked).Some? ==> FirstTracked(q, tracked).value in q && FirstTracked(q, tracked).value in tracked
    ensures exists n: nat :: n <= |q| && AfterFirstTracked(q, tracked) == q[n..]
  {
    if q == [] {
      assert q[0..] == [];
    } else if q[0] in tracked {
      assert AfterFirstTracked(q, tracked) == q[1..];
    } else {
      FirstTrackedIsMember(q[1..], tracked);
      var n: nat :| n <= |q[1..]| && AfterFirstTracked(q[1..], tracked) == q[1..][n..];
      assert q[1..][n..] == q[n + 1..];
    }
  }

  lemma {:induction false} FirstLiveBelongs(order: seq<int>, w: World, p: string, live: set<int>)
    ensures FirstLive(order, w.owner, p, live).Some? ==> BelongsTo(w, p, FirstLive(order, w.owner, p, live).value)
  {
    if order != [] {
      FirstLiveBelongs(order[1..], w, p, live);
    }
  }

  lemma {:induction false} LiveCallsBelong(order: seq<int>, w: World, p: string, live: set<int>)
    ensures forall cid :: cid in LiveCalls(order, w.owner, p, live) ==> BelongsTo(w, p, cid)
  {
    if order != [] {
      LiveCallsBelong(order[1..], w, p, live);
    }
  }

  lemma {:induction false} WithAudioAreListed(ids: seq<int>, calls: map<int, Call>)
    ensures forall cid :: cid in WithAudio(ids, calls) ==> cid in ids
  {
    if ids != [] {
      WithAudioAreListed(ids[1..], calls);
    }
  }

  lemma GetCallBelongs(w: World, p: string, id: Option<int>, fromIncoming: bool, live: set<int>)
    requires Invariant(w)
    ensures GetCall(w, p, id, fromIncoming, live).Some? ==> BelongsTo(w, p, GetCall(w, p, id, fromIncoming, live).value)
  {
    hide TablesAgree, TransportsMatch, FollowsConfig, CountersBounded, FirstTracked, FirstLive, NoDup;
    FirstLiveBelongs(w.order, w, p, live);
    if p in w.incoming {
      FirstTrackedIsMember(w.incoming[p], w.calls.Keys);
      assert QueueOwned(w.incoming[p], p, w.owner);
    }
  }

  /** Looking up a call takes a prefix of the phone's own incoming queue: it is
      a `TakeIncoming` step. */
  lemma GetCallTakesPrefix(w: World, p: string, id: Option<int>, fromIncoming: bool) returns (n: nat)
    requires p in w.incoming
    ensures n <= |w.incoming[p]| && IncomingAfter(w, p, id, fromIncoming) == w.incoming[p := w.incoming[p][n..]]
  {
    hide FirstTracked, AfterFirstTracked;
    FirstTrackedIsMember(w.incoming[p], w.calls.Keys);
    if id.None? && fromIncoming {
      n :| n <= |w.incoming[p]| && AfterFirstTracked(w.incoming[p], w.calls.Keys) == w.incoming[p][n..];
    } else {
      n := 0;
      assert w.incoming[p][0..] == w.incoming[p];
    }
  }

  /** Whatever a phone's tools ask for, they act on tracked calls of that phone only. */
  lemma OnlyOwnCalls(steps: seq<Step>, p: string, op: Operation, live: set<int>)
    requires Run(steps).Some? && Touches(Run(steps).value, p, op, live).Some?
    ensures var w := Run(steps).value;
            forall cid :: cid in Touches(w, p, op, live).value ==>
              BelongsTo(w, p, cid) && cid in w.calls && w.calls[cid].phone == p && p in w.accounts
  {
    hide Run, Touches, Invariant, BelongsTo;
    var w := Run(steps).value;
    EveryRun(steps);
    forall cid | cid in Touches(w, p, op, live).value
      ensures BelongsTo(w, p, cid) && cid in w.calls && w.calls[cid].phone == p && p in w.accounts
    {
      TouchedBelongs(w, p, op, live, cid);
      OwnedIsTracked(w, p, cid);
    }
  }

  lemma TouchedBelongs(w: World, p: string, op: Operation, live: set<int>, cid: int)
    requires Invariant(w) && Touches(w, p, op, live).Some? && cid in Touches(w, p, op, live).value
    ensures BelongsTo(w, p, cid)
  {
    hide Invariant, GetCall, LiveCalls, BelongsTo, WithAudio;
    LiveCallsBelong(w.order, w, p, live);
    if op.Conference? {
      WithAudioAreListed(op.ids, w.calls);
    } else if op.Hold? || op.Unhold? || op.Dtmf? {
      GetCallBelongs(w, p, Some(op.cid), false, live);
    } else if !op.HangupAll? && !op.AttendedTransfer? {
      GetCallBelongs(w, p, op.id, op.Answer? || op.Reject?, live);
    }
  }

  lemma OwnedIsTracked(w: World, p: string, cid: int)
    requires Invariant(w) && BelongsTo(w, p, cid)
    ensures cid in w.calls && w.calls[cid].phone == p && p in w.accounts
  {
    KeysAgree(w);
    CallIsTracked(w, cid);
    hide Invariant, CallInvariant;
  }

  /** An explicit call id is accepted exactly when the phone owns the call. */
  lemma ExplicitIdAccepted(steps: seq<Step>, p: string, cid: int, live: set<int>)
    requires Run(steps).Some?
    ensures Touches(Run(steps).value, p, Operation.Hangup(Some(cid)), live).Some? <==> BelongsTo(Run(steps).value, p, cid)
    ensures Touches(Run(steps).value, p, Operation.Hold(cid), live).Some? <==> BelongsTo(Run(steps).value, p, cid)
  {
    hide Run, Invariant;
    EveryRun(steps);
    KeysAgree(Run(steps).value);
  }

  // ---------------------------------------------------------- outgoing SDP

  /** In every reachable state, what a call sends is its SDP filtered by its
      phone's current codec list. */
  lemma OutgoingSdpIsCurrent(steps: seq<Step>, cid: int, sdp: string)
    requires Run(steps).Some? && cid in Run(steps).value.calls
    ensures var w := Run(steps).value;
            var p := w.calls[cid].phone;
            p in w.configs
            && OutgoingSdp(w.calls[cid], sdp) ==
               (match w.configs[p].codecs
                case None => sdp
                case Some(list) => SdpRewriter.Filtered(sdp, SdpRewriter.AllowedSet(list, true)))
  {
    hide Run, Invariant, SdpRewriter.Filtered, CallInvariant;
    var w := Run(steps).value;
    EveryRun(steps);
    CallIsTracked(w, cid);
    CallFollows(w, cid);
    AccountsAreConfigs(w);
    EmptyListIsNoFilter(sdp);
  }

  lemma AccountsAreConfigs(w: World)
    requires Invariant(w)
    ensures w.accounts == w.configs.Keys
  {
    hide TablesAgree, TransportsMatch, QueuesOwned, FollowsConfig, CountersBounded;
  }

  lemma EmptyListIsNoFilter(sdp: string)
    ensures SdpRewriter.Filtered(sdp, SdpRewriter.AllowedSet([], true)) == sdp
  {
    hide SdpRewriter.Rewrite, SdpRewriter.BailsOut;
    assert SdpRewriter.AllowedSet([], true) == {};
  }

  // --------------------------------------------------------- auto-answers

  /** A pending auto-answer that is tracked belongs to the phone it waits on. */
  ghost predicate PendingOwned(autoAnswer: map<string, seq<int>>, owner: map<int, string>) {
    forall p, cid :: p in autoAnswer && cid in autoAnswer[p] && cid in owner ==> owner[cid] == p
  }

  /** The step hands out an id that another phone still has pending. */
  ghost predicate ReusesPending(w: World, s: Step) {
    (s.Incoming? || s.Outgoing?) && s.p in w.accounts
    && exists q :: q in w.autoAnswer && q != s.p && s.cid in w.autoAnswer[q]
  }

  lemma PendingAfterTrack(w: World, p: string, cid: int, pending: map<string, seq<int>>)
    requires PendingOwned(w.autoAnswer, w.owner)
    requires pending == w.autoAnswer || pending == Queued(w.autoAnswer, p, cid)
    ensures PendingOwned(pending, w.owner[cid := p]) <==>
            !exists q :: q in w.autoAnswer && q != p && cid in w.autoAnswer[q]
  {
    var reused := exists q :: q in w.autoAnswer && q != p && cid in w.autoAnswer[q];
    if reused {
      var q :| q in w.autoAnswer && q != p && cid in w.autoAnswer[q];
      assert q in pending && cid in pending[q] && w.owner[cid := p][cid] != q;
    } else {
      forall q, id | q in pending && id in pending[q] && id in w.owner[cid := p]
        ensures w.owner[cid := p][id] == q
      {
        assert q != p || id != cid ==> q in w.autoAnswer && id in w.autoAnswer[q];
      }
    }
  }

  lemma PendingSmaller(w: World, x: World)
    requires PendingOwned(w.autoAnswer, w.owner)
    requires forall p :: p in x.autoAnswer ==> x.autoAnswer[p] == [] || (p in w.autoAnswer && x.autoAnswer[p] == w.autoAnswer[p])
    requires forall cid :: cid in x.owner ==> cid in w.owner && x.owner[cid] == w.owner[cid]
    ensures PendingOwned(x.autoAnswer, x.owner)
  {
  }

  lemma DropPending(w: World, p: string)
    requires PendingOwned(w.autoAnswer, w.owner)
    ensures PendingOwned(DropPhone(w, p).autoAnswer, DropPhone(w, p).owner)
  {
    hide PendingOwned, PhoneDropped, CallsOf;
    if p in w.accounts {
      DropFields(w, p);
    }
    PendingSmaller(w, DropPhone(w, p));
  }

  lemma AddPending(w: World, p: string, cfg: Config, tp: nat)
    requires PendingOwned(w.autoAnswer, w.owner)
    ensures PendingOwned(AddPhone(w, p, cfg, tp).autoAnswer, AddPhone(w, p, cfg, tp).owner)
  {
    hide PendingOwned, DropPhone;
    DropPending(w, p);
    var v := if p in w.accounts then DropPhone(w, p) else w;
    PendingSmaller(v, AddPhone(w, p, cfg, tp));
  }

  lemma EndedPending(w: World, cid: int)
    requires PendingOwned(w.autoAnswer, w.owner) && Invariant(w) && cid in w.calls
    ensures PendingOwned(CallDisconnected(w, cid).autoAnswer, CallDisconnected(w, cid).owner)
  {
    hide PendingOwned, CallDisconnected, Invariant;
    EndedCalls(w, cid);
    PendingSmaller(w, CallDisconnected(w, cid));
  }

  /** The steps that hand out no call id, add or drop no phone and end no call. */
  predicate Quiet(s: Step) {
    s.MediaChange? || s.Play? || s.StopPlay? || s.AutoAnswerFlag? || s.CodecList? || s.RecordingFlag?
    || s.CaptureFlag? || s.TakeIncoming? || s.Poll?
  }

  lemma QuietPending(w: World, s: Step)
    requires Enabled(w, s) && Quiet(s)
    ensures Apply(w, s).autoAnswer == w.autoAnswer && Apply(w, s).owner == w.owner
  {
    hide CallMediaState, PlayFile, StopPlayback, SetAutoAnswer, SetCodecs, SetRecordingFlag, SetCapture, StartAll, StopAll;
    if s.MediaChange? {
      MediaPending(w, s.cid, s.streams);
    } else if s.AutoAnswerFlag? {
      FlagPending(w, s.p, s.on);
    } else if s.CaptureFlag? {
      FlagPending(w, s.p, s.on);
    } else if s.CodecList? {
      CodecPending(w, s.p, s.list);
    } else if s.RecordingFlag? {
      RecordingPending(w, s.p, s.on, s.stamp, s.disks);
    }
  }

  lemma MediaPending(w: World, cid: int, streams: seq<Stream>)
    requires cid in w.calls
    ensures var x := CallMediaState(w, cid, streams);
            x.autoAnswer == w.autoAnswer && x.owner == w.owner
  {
    hide MediaState;
  }

  lemma FlagPending(w: World, p: string, on: bool)
    ensures var x := SetAutoAnswer(w, p, on);
            x.autoAnswer == w.autoAnswer && x.owner == w.owner
    ensures var x := SetCapture(w, p, on);
            x.autoAnswer == w.autoAnswer && x.owner == w.owner
  {
    hide FirstOf, ActiveCount;
  }

  lemma CodecPending(w: World, p: string, list: seq<string>)
    ensures var x := SetCodecs(w, p, list);
            x.autoAnswer == w.autoAnswer && x.owner == w.owner
  {
    hide Normal;
  }

  lemma RecordingPending(w: World, p: string, on: bool, stamp: int, disks: map<int, Disk>)
    ensures var x := SetRecordingFlag(w, p, on, stamp, disks);
            x.autoAnswer == w.autoAnswer && x.owner == w.owner
  {
    hide SetRecording, DiskFor;
  }

  lemma TrackPending(w: World, p: string, cid: int, incoming: bool)
    requires PendingOwned(w.autoAnswer, w.owner) && p in w.accounts
    ensures var x := if incoming then IncomingCall(w, p, cid) else MakeCall(w, p, cid);
            PendingOwned(x.autoAnswer, x.owner) <==> !exists q :: q in w.autoAnswer && q != p && cid in w.autoAnswer[q]
  {
    hide PendingOwned, Queued, NewCall;
    var x := if incoming then IncomingCall(w, p, cid) else MakeCall(w, p, cid);
    PendingAfterTrack(w, p, cid, x.autoAnswer);
  }

  /** Pending auto-answers stay with their phone over a step if and only if it
      does not give another phone a call id that is still pending. */
  lemma PendingAfterStep(w: World, s: Step)
    requires Invariant(w) && PendingOwned(w.autoAnswer, w.owner) && Enabled(w, s)
    ensures PendingOwned(Apply(w, s).autoAnswer, Apply(w, s).owner) <==> !ReusesPending(w, s)
  {
    hide Invariant, PendingOwned, DropPhone, AddPhone, CallDisconnected, IncomingCall, MakeCall, CallMediaState,
      PlayFile, StopPlayback, SetAutoAnswer, SetCodecs, SetRecordingFlag, SetCapture, Drain;
    if Quiet(s) {
      QuietPending(w, s);
    } else if s.Add? {
      AddPending(w, s.p, s.cfg, s.tp);
    } else if s.Drop? {
      DropPending(w, s.p);
    } else if s.Register? {
      if s.p in w.configs {
        AddPending(w, s.p, w.configs[s.p], s.tp);
      }
    } else if s.Incoming? || s.Outgoing? {
      AnswerOfUnknown(w, s);
      if s.p in w.accounts {
        TrackPending(w, s.p, s.cid, s.Incoming?);
      }
    } else if s.Ended? {
      EndedPending(w, s.cid);
    } else {
      PendingSmaller(w, AutoAnswered(w));
    }
  }

  lemma AnswerOfUnknown(w: World, s: Step)
    requires s.Incoming? || s.Outgoing?
    ensures s.p !in w.accounts ==> IncomingCall(w, s.p, s.cid) == w && MakeCall(w, s.p, s.cid) == w
  {
    hide Track, Queued;
  }

  /** No step of the run gives a phone a call id that is pending on another. */
  ghost predicate FreshRun(steps: seq<Step>) {
    steps == [] || (
      && FreshRun(steps[..|steps| - 1])
      && var w := Run(steps[..|steps| - 1]);
         w.Some? && Enabled(w.value, steps[|steps| - 1]) && !ReusesPending(w.value, steps[|steps| - 1]))
  }

  lemma {:induction false} EveryFreshRun(steps: seq<Step>)
    requires FreshRun(steps)
    ensures Run(steps).Some? && PendingOwned(Run(steps).value.autoAnswer, Run(steps).value.owner)
  {
    hide Enabled, PendingOwned, ReusesPending, Invariant;
    if steps == [] {
      NothingPending();
    } else {
      hide Apply;
      EveryFreshRun(steps[..|steps| - 1]);
      EveryRun(steps[..|steps| - 1]);
      PendingAfterStep(Run(steps[..|steps| - 1]).value, steps[|steps| - 1]);
    }
  }

  lemma NothingPending()
    ensures PendingOwned(Empty.autoAnswer, Empty.owner)
  {
  }

  /** In such a run `process_auto_answers` answers a phone's own calls only. */
  lemma AutoAnswersOwnCalls(steps: seq<Step>)
    requires FreshRun(steps)
    ensures Run(steps).Some?
    ensures var w := Run(steps).value;
            forall p, cid :: Answers(w, p, cid) ==>
              BelongsTo(w, p, cid) && w.calls[cid].phone == p && p in w.accounts
  {
    hide Run, FreshRun, Invariant, PendingOwned, BelongsTo;
    EveryFreshRun(steps);
    EveryRun(steps);
    var w := Run(steps).value;
    forall p, cid | Answers(w, p, cid)
      ensures BelongsTo(w, p, cid) && w.calls[cid].phone == p && p in w.accounts
    {
      PendingBelongs(w, p, cid);
      OwnedIsTracked(w, p, cid);
    }
  }

  lemma PendingBelongs(w: World, p: string, cid: int)
    requires Invariant(w) && PendingOwned(w.autoAnswer, w.owner) && Answers(w, p, cid)
    ensures BelongsTo(w, p, cid)
  {
    KeysAgree(w);
    hide Invariant;
  }

  // --------------------------------------------------- whose queues there are

  /** Exactly the registered phones have an incoming and an auto-answer queue. */
  predicate QueuesOfPhones(w: World) {
    w.incoming.Keys == w.accounts && w.autoAnswer.Keys == w.accounts
  }

  lemma DropQueues(w: World, p: string)
    requires p in w.accounts
    ensures var x := DropPhone(w, p);
            && x.incoming == w.incoming - {p} && x.autoAnswer == w.autoAnswer - {p} && x.accounts == w.accounts - {p}
            && x.captures == w.captures && x.stops == w.stops + (if p in w.captures then [p] else [])
  {
    hide PhoneDropped;
    DroppedQueues(w.(accounts := w.accounts - {p}, configs := w.configs - {p}), p);
  }

  lemma DroppedQueues(v: World, p: string)
    ensures var x := PhoneDropped(v, p);
            && x.incoming == v.incoming - {p} && x.autoAnswer == v.autoAnswer - {p} && x.accounts == v.accounts
            && x.captures == v.captures && x.stops == v.stops + (if p in v.captures then [p] else [])
  {
    hide Keeping, CallsOf;
  }

  lemma DropQueuesOfPhones(w: World, p: string)
    requires QueuesOfPhones(w)
    ensures QueuesOfPhones(DropPhone(w, p))
  {
    hide PhoneDropped;
    if p in w.accounts {
      DropQueues(w, p);
    }
  }

  lemma AddQueuesOfPhones(w: World, p: string, cfg: Config, tp: nat)
    requires QueuesOfPhones(w)
    ensures QueuesOfPhones(AddPhone(w, p, cfg, tp))
  {
    hide DropPhone;
    DropQueuesOfPhones(w, p);
  }

  lemma TrackQueues(w: World, p: string, cid: int)
    requires QueuesOfPhones(w)
    ensures QueuesOfPhones(IncomingCall(w, p, cid)) && QueuesOfPhones(MakeCall(w, p, cid))
  {
    hide NewCall;
  }

  lemma EndedQueues(w: World, cid: int)
    requires QueuesOfPhones(w) && cid in w.calls
    ensures QueuesOfPhones(CallDisconnected(w, cid))
  {
    hide Keeping, Disconnect, CountDown, Stale;
    var v := w.(calls := w.calls[cid := Disconnect(w.calls[cid])]);
    CountDownQueues(Forget(v, Stale(v)).(incoming := QueuesWithin(v.incoming, v.calls.Keys - Stale(v))), w.calls[cid].phone);
  }

  lemma CountDownQueues(w: World, p: string)
    ensures var x := CountDown(w, p);
            x.incoming == w.incoming && x.autoAnswer == w.autoAnswer && x.accounts == w.accounts
  {
    if p in w.active {
      if w.active[p] - 1 > 0 {
        assert CountDown(w, p).incoming == w.incoming;
      } else {
        assert CountDown(w, p).incoming == w.incoming;
      }
    } else {
      assert CountDown(w, p) == w;
    }
  }

  lemma MediaQueues(w: World, cid: int, streams: seq<Stream>)
    requires cid in w.calls
    ensures var x := CallMediaState(w, cid, streams);
            x.incoming == w.incoming && x.autoAnswer == w.autoAnswer && x.accounts == w.accounts
  {
    hide MediaState, RegisterActive;
    var d := MediaState(w.calls[cid], cid, streams);
    var v := w.(calls := w.calls[cid := d]);
    RegisterQueues(v, w.calls[cid].phone, cid);
    if !w.calls[cid].counted && d.counted {
      assert CallMediaState(w, cid, streams) == RegisterActive(v, w.calls[cid].phone, cid);
    } else {
      assert CallMediaState(w, cid, streams) == v;
    }
  }

  lemma RegisterQueues(w: World, p: string, cid: int)
    ensures var x := RegisterActive(w, p, cid);
            x.incoming == w.incoming && x.autoAnswer == w.autoAnswer && x.accounts == w.accounts
  {
    hide ActiveCount;
  }

  lemma SettingQueues(w: World, p: string, on: bool, list: seq<string>)
    ensures var x := SetAutoAnswer(w, p, on);
            x.incoming == w.incoming && x.autoAnswer == w.autoAnswer && x.accounts == w.accounts
    ensures var x := SetCodecs(w, p, list);
            x.incoming == w.incoming && x.autoAnswer == w.autoAnswer && x.accounts == w.accounts
    ensures var x := SetCapture(w, p, on);
            x.incoming == w.incoming && x.autoAnswer == w.autoAnswer && x.accounts == w.accounts
  {
    hide FirstOf, ActiveCount, Normal;
  }

  lemma RecordingQueues(w: World, p: string, on: bool, stamp: int, disks: map<int, Disk>)
    ensures var x := SetRecordingFlag(w, p, on, stamp, disks);
            x.incoming == w.incoming && x.autoAnswer == w.autoAnswer && x.accounts == w.accounts
  {
    hide SetRecording, DiskFor;
  }

  /** The steps that touch no phone and no queue but what is in it. */
  lemma QuietQueues(w: World, s: Step)
    requires Enabled(w, s) && Quiet(s) && QueuesOfPhones(w)
    ensures QueuesOfPhones(Apply(w, s))
  {
    hide CallMediaState, PlayFile, StopPlayback, SetAutoAnswer, SetCodecs, SetRecordingFlag, SetCapture, StartAll, StopAll;
    match s {
      case MediaChange(cid, streams) => MediaQueues(w, cid, streams);
      case AutoAnswerFlag(p, on) => SettingQueues(w, p, on, []);
      case CodecList(p, list) => SettingQueues(w, p, true, list);
      case CaptureFlag(p, on) => SettingQueues(w, p, on, []);
      case RecordingFlag(p, on, stamp, disks) => RecordingQueues(w, p, on, stamp, disks);
      case _ =>
    }
  }

  lemma StepQueues(w: World, s: Step)
    requires Enabled(w, s) && QueuesOfPhones(w)
    ensures QueuesOfPhones(Apply(w, s))
  {
    if Quiet(s) {
      hide QueuesOfPhones, Apply;
      QuietQueues(w, s);
    } else {
      hide QueuesOfPhones, AddPhone, DropPhone, IncomingCall, MakeCall, CallDisconnected;
      match s {
        case Add(p, cfg, tp) => AddQueuesOfPhones(w, p, cfg, tp);
        case Drop(p) => DropQueuesOfPhones(w, p);
        case Register(p, tp) =>
          if p in w.configs {
            AddQueuesOfPhones(w, p, w.configs[p], tp);
          }
        case Incoming(p, cid) => TrackQueues(w, p, cid);
        case Outgoing(p, cid) => TrackQueues(w, p, cid);
        case Ended(cid) => EndedQueues(w, cid);
        case AutoAnswers => AnsweredQueues(w);
      }
    }
  }

  lemma AnsweredQueues(w: World)
    requires QueuesOfPhones(w)
    ensures QueuesOfPhones(AutoAnswered(w))
  {
  }

  /** In every reachable state exactly the registered phones have queues. */
  lemma {:induction false} EveryRunQueues(steps: seq<Step>)
    requires Run(steps).Some?
    ensures QueuesOfPhones(Run(steps).value)
  {
    hide Enabled, Apply;
    if steps != [] {
      hide QueuesOfPhones;
      EveryRunQueues(steps[..|steps| - 1]);
      StepQueues(Run(steps[..|steps| - 1]).value, steps[|steps| - 1]);
    }
  }

  // --------------------------------------------------------- dropping all

  lemma {:induction false} DropEachKeeps(w: World, ps: seq<string>)
    requires Invariant(w)
    ensures Invariant(DropEach(w, ps))
    ensures forall p :: p in DropEach(w, ps).accounts <==> p in w.accounts && p !in ps
  {
    hide Invariant, DropPhone;
    if ps != [] {
      var last := ps[|ps| - 1];
      DropEachKeeps(w, ps[..|ps| - 1]);
      DropKeeps(DropEach(w, ps[..|ps| - 1]), last);
      assert ps == ps[..|ps| - 1] + [last];
    }
  }

  /** Dropping phones queues a stop for each running capture of theirs. */
  lemma {:induction false} DropEachStops(w: World, ps: seq<string>)
    requires Invariant(w)
    ensures DropEach(w, ps).captures == w.captures
    ensures forall p :: p in w.accounts && p in w.captures && p in ps ==> p in DropEach(w, ps).stops
  {
    hide Invariant, DropPhone;
    if ps != [] {
      var last := ps[|ps| - 1];
      var v := DropEach(w, ps[..|ps| - 1]);
      DropEachStops(w, ps[..|ps| - 1]);
      DropEachKeeps(w, ps[..|ps| - 1]);
      if last in v.accounts {
        DropQueues(v, last);
      } else {
        DropUnknown(v, last);
      }
      assert ps == ps[..|ps| - 1] + [last];
    }
  }

  lemma DropUnknown(w: World, p: string)
    requires p !in w.accounts
    ensures DropPhone(w, p).stops == w.stops && DropPhone(w, p).captures == w.captures
  {
  }

  lemma {:induction false} DropEachQueues(w: World, ps: seq<string>)
    requires QueuesOfPhones(w)
    ensures QueuesOfPhones(DropEach(w, ps))
  {
    hide QueuesOfPhones, DropPhone;
    if ps != [] {
      DropEachQueues(w, ps[..|ps| - 1]);
      DropQueuesOfPhones(DropEach(w, ps[..|ps| - 1]), ps[|ps| - 1]);
    }
  }

  /** Dropping every phone of a reachable state leaves no configuration, no
      transport, no tracked call, no incoming or auto-answer queue and no
      counter, and a stop is queued for each running capture of theirs. */
  lemma DropAllClears(steps: seq<Step>, ps: seq<string>)
    requires Run(steps).Some? && forall p :: p in Run(steps).value.accounts ==> p in ps
    ensures var w, x := Run(steps).value, DropEach(Run(steps).value, ps);
            && x.accounts == {} && x.configs == map[] && x.transports == {}
            && x.calls == map[] && x.owner == map[] && x.order == [] && x.active == map[]
            && x.incoming == map[] && x.autoAnswer == map[]
            && forall p :: p in w.accounts && p in w.captures ==> p in x.stops
  {
    hide Run, DropEach, Invariant, QueuesOfPhones;
    var w := Run(steps).value;
    EveryRun(steps);
    EveryRunQueues(steps);
    DropEachKeeps(w, ps);
    DropEachQueues(w, ps);
    DropEachStops(w, ps);
    NoPhonesNothing(DropEach(w, ps));
    NoPhonesNoQueues(DropEach(w, ps));
  }

  lemma NoPhonesNoQueues(w: World)
    requires QueuesOfPhones(w) && w.accounts == {}
    ensures w.incoming == map[] && w.autoAnswer == map[]
  {
  }

  lemma NoPhonesNothing(w: World)
    requires Invariant(w) && w.accounts == {}
    ensures w.configs == map[] && w.transports == {} && w.calls == map[] && w.owner == map[] && w.order == []
    ensures w.active == map[]
  {
    NoCalls(w);
    hide CallInvariant, NoDup, Counted, FollowsConfig, TablesAgree, QueuesOwned;
  }

  lemma HeadTracked(order: seq<int>, tracked: set<int>)
    requires forall cid :: cid in order ==> cid in tracked
    ensures order == [] || order[0] in tracked
  {
    if order != [] {
      var cid := order[0];
      assert cid in order;
    }
  }

  lemma NoCalls(w: World)
    requires Invariant(w) && w.accounts == {}
    ensures w.calls == map[] && w.owner == map[] && w.order == []
  {
    hide CallInvariant, NoDup, Counted, FollowsConfig, QueuesOwned, CountersBounded, TransportsMatch;
    assert forall cid :: cid in w.calls ==> TrackedCall(w.calls[cid], w.owner[cid], w.accounts);
    assert w.calls.Keys == {} && w.owner.Keys == {};
    HeadTracked(w.order, w.calls.Keys);
  }
}
