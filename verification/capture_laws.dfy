/** When the running captures are the wanted ones. */
module CaptureLaws {
  import opened Text
  import opened CallMedia
  import opened PhoneSystem
  import opened PhoneInvariants

  /** The phone's flag is on and it has an active call. */
  predicate Wanted(w: World, p: string) {
    p in w.configs && w.configs[p].capture && p in w.active
  }

  /** A poll now would leave the phone capturing exactly when that is wanted. */
  predicate AgreesAt(w: World, p: string) {
    ((p in w.captures || p in PhonesOf(w.starts)) && p !in Members(w.stops)) <==> Wanted(w, p)
  }

  /** The running captures are those of the phones that want one. */
  ghost predicate CapturesWanted(w: World) {
    forall p :: p in w.captures <==> Wanted(w, p)
  }

  lemma {:induction false} StartAllKeys(captures: map<string, Option<int>>, q: seq<(string, Option<int>)>)
    ensures StartAll(captures, q).Keys == captures.Keys + PhonesOf(q)
    ensures forall p :: p in captures ==> StartAll(captures, q)[p] == captures[p]
    decreases |q|
  {
    if q != [] {
      var next := if q[0].0 in captures then captures else captures[q[0].0 := q[0].1];
      StartAllKeys(next, q[1..]);
      assert q == [q[0]] + q[1..];
      assert PhonesOf(q) == {q[0].0} + PhonesOf(q[1..]);
    }
  }

  lemma {:induction false} StopAllKeys(captures: map<string, Option<int>>, q: seq<string>)
    ensures StopAll(captures, q).Keys == captures.Keys - Members(q)
    ensures forall p :: p in StopAll(captures, q) ==> StopAll(captures, q)[p] == captures[p]
  {
    if q != [] {
      StopAllKeys(captures - {q[0]}, q[1..]);
      assert q == [q[0]] + q[1..];
      assert Members(q) == {q[0]} + Members(q[1..]);
    }
  }

  /** A poll adds the queued starts to the captures, takes away the queued
      stops, leaves a running capture alone, and empties both queues. */
  lemma DrainTurns(w: World)
    ensures Drain(w).captures.Keys == (w.captures.Keys + PhonesOf(w.starts)) - Members(w.stops)
    ensures forall p :: p in w.captures && p in Drain(w).captures ==> Drain(w).captures[p] == w.captures[p]
    ensures Drain(w).starts == [] && Drain(w).stops == []
  {
    hide StartAll, StopAll;
    StartAllKeys(w.captures, w.starts);
    StopAllKeys(StartAll(w.captures, w.starts), w.stops);
  }

  lemma PollAgrees(w: World)
    ensures CapturesWanted(Drain(w)) <==> forall p :: AgreesAt(w, p)
  {
    hide Drain, PhonesOf, Members, Wanted;
    DrainTurns(w);
    DrainKeepsWanted(w);
    forall p ensures AgreesAt(w, p) <==> (p in Drain(w).captures <==> Wanted(Drain(w), p)) {
      assert p in Drain(w).captures <==> p in Drain(w).captures.Keys;
    }
  }

  lemma DrainKeepsWanted(w: World)
    ensures forall p :: Wanted(Drain(w), p) <==> Wanted(w, p)
  {
    hide StartAll, StopAll;
  }

  // ------------------------------------------------------- queues in order

  /** A queued stop is for a running capture that is not wanted, a queued start
      for a wanted one that does not run, and otherwise the two agree. */
  predicate CalmAt(w: World, p: string) {
    && (p in Members(w.stops) ==> p in w.captures && p !in PhonesOf(w.starts) && !Wanted(w, p))
    && (p in PhonesOf(w.starts) ==> p !in w.captures && Wanted(w, p))
    && (p !in PhonesOf(w.starts) && p !in Members(w.stops) ==> (p in w.captures <==> Wanted(w, p)))
  }

  ghost predicate Calm(w: World) {
    forall p :: CalmAt(w, p)
  }

  /** The step ends the phone's wish for a capture: the flag goes off, the last
      active call ends, or the phone is dropped or replaced. */
  predicate TurnsOff(w: World, s: Step, p: string)
    requires Enabled(w, s)
  {
    Wanted(w, p) &&
    match s
    case Add(q, _, _) => q == p
    case Drop(q) => q == p
    case Register(q, _) => q == p
    case CaptureFlag(q, on) => q == p && !on
    case Ended(cid) => w.calls[cid].phone == p && w.active[p] <= 1
    case _ => false
  }

  /** The step makes the phone want a capture: its first call goes active with
      the flag on, or the flag goes on during an active call. */
  predicate TurnsOn(w: World, s: Step, p: string)
    requires Enabled(w, s)
  {
    !Wanted(w, p) &&
    match s
    case MediaChange(cid, streams) =>
      w.calls[cid].phone == p && !w.calls[cid].counted && MediaState(w.calls[cid], cid, streams).counted
      && p !in w.active && p in w.configs && w.configs[p].capture
    case CaptureFlag(q, on) => q == p && on && p in w.configs && p in w.active
    case _ => false
  }

  /** No wish changes while the opposite request is still queued. */
  ghost predicate Prompt(w: World, s: Step)
    requires Enabled(w, s)
  {
    forall p :: PromptAt(w, s, p)
  }

  predicate PromptAt(w: World, s: Step, p: string)
    requires Enabled(w, s)
  {
    (TurnsOff(w, s, p) ==> p !in PhonesOf(w.starts)) && (TurnsOn(w, s, p) ==> p !in Members(w.stops))
  }

  // ---------------------------------------------------------- step by step

  lemma MembersAppend(q: seq<string>, p: string)
    ensures Members(q + [p]) == Members(q) + {p}
  {
  }

  lemma PhonesAppend(q: seq<(string, Option<int>)>, p: string, cid: Option<int>)
    ensures PhonesOf(q + [(p, cid)]) == PhonesOf(q) + {p}
  {
    assert forall e :: e in q + [(p, cid)] <==> e in q || e == (p, cid);
    assert (p, cid) in q + [(p, cid)];
  }

  /** What a step leaves of the parts the captures depend on. */
  ghost predicate SameCaptures(w: World, x: World) {
    && x.captures == w.captures && x.starts == w.starts && x.stops == w.stops
    && forall p :: Wanted(x, p) <==> Wanted(w, p)
  }

  lemma DropEffect(w: World, q: string)
    requires Invariant(w)
    ensures var x := DropPhone(w, q);
            && x.captures == w.captures && x.starts == w.starts
            && Members(x.stops) == Members(w.stops) + (if q in w.accounts && q in w.captures then {q} else {})
            && (forall p :: Wanted(x, p) <==> Wanted(w, p) && p != q)
            && q !in x.active && q !in x.configs
  {
    hide TablesAgree, TransportsMatch, QueuesOwned, FollowsConfig, Members, PhonesOf, Forget, CallsOf, Counted;
    MembersAppend(w.stops, q);
    assert w.stops + [] == w.stops;
    assert q !in w.accounts ==> q !in w.active;
    ForgetFields(w, CallsOf(w, q));
    ForgetFields(w.(accounts := w.accounts - {q}, configs := w.configs - {q}),
                 CallsOf(w.(accounts := w.accounts - {q}, configs := w.configs - {q}), q));
  }

  lemma DropAt(w: World, q: string, p: string)
    requires Invariant(w) && CalmAt(w, p)
    ensures var x := DropPhone(w, q);
            var prompt := Wanted(w, p) && p == q ==> p !in PhonesOf(w.starts);
            (CalmAt(x, p) <==> prompt) && (AgreesAt(x, p) <==> prompt)
  {
    hide DropPhone, Members, PhonesOf;
    DropEffect(w, q);
    assert p in w.accounts <==> p in w.configs by { Registered(w); }
  }

  lemma Registered(w: World)
    requires Invariant(w)
    ensures w.accounts == w.configs.Keys && forall p :: p in w.active ==> p in w.accounts && w.active[p] > 0
  {
    hide TablesAgree, TransportsMatch, QueuesOwned, FollowsConfig;
  }

  lemma AddAt(w: World, q: string, cfg: Config, tp: nat, p: string)
    requires Invariant(w) && CalmAt(w, p)
    ensures var x := AddPhone(w, q, cfg, tp);
            var prompt := Wanted(w, p) && p == q ==> p !in PhonesOf(w.starts);
            (CalmAt(x, p) <==> prompt) && (AgreesAt(x, p) <==> prompt)
  {
    hide DropPhone, Members, PhonesOf, Invariant;
    Registered(w);
    if q in w.accounts {
      DropAt(w, q, p);
      DropEffect(w, q);
    }
  }

  lemma EndedEffect(w: World, cid: int)
    requires Invariant(w) && cid in w.calls
    ensures var x, q := CallDisconnected(w, cid), w.calls[cid].phone;
            && x.captures == w.captures && x.starts == w.starts
            && Members(x.stops) == Members(w.stops)
               + (if q in w.active && w.active[q] <= 1 && q in w.captures then {q} else {})
            && (forall p :: Wanted(x, p) <==> Wanted(w, p) && !(p == q && w.active[q] <= 1))
  {
    hide Disconnect, Members, PhonesOf, Invariant, Stale, QueuesWithin, Forget;
    var q := w.calls[cid].phone;
    var m := w.(calls := w.calls[cid := Disconnect(w.calls[cid])]);
    ForgetFields(m, Stale(m));
    MembersAppend(w.stops, q);
    assert w.stops + [] == w.stops;
  }

  lemma EndedAt(w: World, cid: int, p: string)
    requires Invariant(w) && cid in w.calls && CalmAt(w, p)
    ensures var x := CallDisconnected(w, cid);
            var prompt := Wanted(w, p) && w.calls[cid].phone == p && w.active[p] <= 1 ==> p !in PhonesOf(w.starts);
            (CalmAt(x, p) <==> prompt) && (AgreesAt(x, p) <==> prompt)
  {
    hide CallDisconnected, Members, PhonesOf, Invariant;
    EndedEffect(w, cid);
  }

  lemma MediaAt(w: World, cid: int, streams: seq<Stream>, p: string)
    requires Invariant(w) && cid in w.calls && CalmAt(w, p)
    ensures var x := CallMediaState(w, cid, streams);
            var prompt := TurnsOn(w, MediaChange(cid, streams), p) ==> p !in Members(w.stops);
            (CalmAt(x, p) <==> prompt) && (AgreesAt(x, p) <==> prompt)
  {
    hide MediaState, Members, PhonesOf, Invariant;
    Registered(w);
    PhonesAppend(w.starts, w.calls[cid].phone, Some(cid));
    assert w.starts + [] == w.starts;
  }

  lemma FlagEffect(w: World, q: string, on: bool)
    requires Invariant(w) && q in w.configs
    ensures var x := SetCapture(w, q, on);
            && x.captures == w.captures
            && PhonesOf(x.starts) == PhonesOf(w.starts) + (if on && q in w.active && q !in w.captures then {q} else {})
            && Members(x.stops) == Members(w.stops) + (if !on && q in w.captures then {q} else {})
            && (forall p :: Wanted(x, p) <==> if p == q then on && q in w.active else Wanted(w, p))
  {
    hide Members, PhonesOf, Invariant, FirstOf;
    Registered(w);
    if on {
      PhonesAppend(w.starts, q, FirstOf(w.order, w.owner, q));
      assert Members(w.stops) + {} == Members(w.stops);
      assert PhonesOf(w.starts) + {} == PhonesOf(w.starts);
    } else {
      MembersAppend(w.stops, q);
      assert PhonesOf(w.starts) + {} == PhonesOf(w.starts);
      assert Members(w.stops) + {} == Members(w.stops);
    }
  }

  lemma FlagAt(w: World, q: string, on: bool, p: string)
    requires Invariant(w) && CalmAt(w, p)
    ensures var x := SetCapture(w, q, on);
            var s := CaptureFlag(q, on);
            (CalmAt(x, p) <==> PromptAt(w, s, p)) && (AgreesAt(x, p) <==> PromptAt(w, s, p))
  {
    hide Members, PhonesOf, Invariant, SetCapture;
    if q in w.configs {
      FlagEffect(w, q, on);
    } else {
      assert SetCapture(w, q, on) == w by { UnknownFlag(w, q, on); }
    }
  }

  lemma UnknownFlag(w: World, q: string, on: bool)
    requires q !in w.configs
    ensures SetCapture(w, q, on) == w
  {
  }

  lemma OtherAt(w: World, x: World, p: string)
    requires SameCaptures(w, x) && CalmAt(w, p)
    ensures CalmAt(x, p) && AgreesAt(x, p)
  {
    hide Members, PhonesOf, Wanted;
  }

  lemma WantedSame(w: World, x: World)
    requires x.captures == w.captures && x.starts == w.starts && x.stops == w.stops && x.active == w.active
    requires x.configs.Keys == w.configs.Keys && forall p :: p in w.configs ==> x.configs[p].capture == w.configs[p].capture
    ensures SameCaptures(w, x)
  {
  }

  predicate IsQuiet(s: Step) {
    s.Incoming? || s.Outgoing? || s.Play? || s.StopPlay? || s.AutoAnswerFlag? || s.CodecList?
    || s.RecordingFlag? || s.TakeIncoming? || s.AutoAnswers?
  }

  lemma ConfigChanged(w: World, x: World, p: string, cfg: Config)
    requires x.captures == w.captures && x.starts == w.starts && x.stops == w.stops && x.active == w.active
    requires p in w.configs && x.configs == w.configs[p := cfg] && cfg.capture == w.configs[p].capture
    ensures SameCaptures(w, x)
  {
  }

  lemma QuietAutoAnswer(w: World, p: string, on: bool)
    ensures SameCaptures(w, SetAutoAnswer(w, p, on))
  {
    hide SameCaptures;
    if p in w.configs {
      ConfigChanged(w, SetAutoAnswer(w, p, on), p, w.configs[p].(autoAnswer := on));
    } else {
      WantedSame(w, w);
    }
  }

  lemma QuietCodecs(w: World, p: string, list: seq<string>)
    ensures SameCaptures(w, SetCodecs(w, p, list))
  {
    hide SameCaptures, Normal;
    if p in w.configs {
      ConfigChanged(w, SetCodecs(w, p, list), p, w.configs[p].(codecs := Some(list)));
    } else {
      WantedSame(w, w);
    }
  }

  lemma QuietRecording(w: World, p: string, on: bool, stamp: int, disks: map<int, Disk>)
    ensures SameCaptures(w, SetRecordingFlag(w, p, on, stamp, disks))
  {
    hide SameCaptures, SetRecording;
    if p in w.configs {
      ConfigChanged(w, SetRecordingFlag(w, p, on, stamp, disks), p, w.configs[p].(recording := on));
    } else {
      WantedSame(w, w);
    }
  }

  lemma QuietCalls(w: World, p: string, cid: int)
    ensures SameCaptures(w, IncomingCall(w, p, cid)) && SameCaptures(w, MakeCall(w, p, cid))
  {
    hide SameCaptures, Wanted, NewCall, Queued;
    WantedSame(w, IncomingCall(w, p, cid));
    WantedSame(w, MakeCall(w, p, cid));
  }

  lemma QuietSteps(w: World, s: Step)
    requires Enabled(w, s) && IsQuiet(s)
    ensures SameCaptures(w, Apply(w, s))
  {
    hide SameCaptures, PlayFile, StopPlayback, SetAutoAnswer, SetCodecs, SetRecordingFlag, IncomingCall, MakeCall, Wanted;
    if s.AutoAnswerFlag? {
      QuietAutoAnswer(w, s.p, s.on);
    } else if s.CodecList? {
      QuietCodecs(w, s.p, s.list);
    } else if s.RecordingFlag? {
      QuietRecording(w, s.p, s.on, s.stamp, s.disks);
    } else if s.Incoming? || s.Outgoing? {
      QuietCalls(w, s.p, s.cid);
    } else {
      WantedSame(w, Apply(w, s));
    }
  }

  lemma StepAt(w: World, s: Step, p: string)
    requires Invariant(w) && CalmAt(w, p) && Enabled(w, s) && !s.Poll?
    ensures CalmAt(Apply(w, s), p) <==> PromptAt(w, s, p)
    ensures AgreesAt(Apply(w, s), p) <==> PromptAt(w, s, p)
  {
    hide Invariant, Members, PhonesOf, Wanted, CalmAt, AgreesAt, AddPhone, DropPhone, CallMediaState, CallDisconnected,
      SetCapture, SameCaptures, MediaState, IncomingCall, MakeCall, SetRecordingFlag, SetCodecs, SetAutoAnswer;
    if s.Add? {
      AddAt(w, s.p, s.cfg, s.tp, p);
    } else if s.Drop? {
      DropAt(w, s.p, p);
    } else if s.Register? {
      if s.p in w.configs {
        AddAt(w, s.p, w.configs[s.p], s.tp, p);
      } else {
        UnknownIsNotWanted(w, s.p);
        SameStaysCalm(w, p);
      }
    } else if s.Ended? {
      EndedAt(w, s.cid, p);
    } else if s.MediaChange? {
      MediaAt(w, s.cid, s.streams, p);
    } else if s.CaptureFlag? {
      FlagAt(w, s.p, s.on, p);
    } else {
      QuietSteps(w, s);
      OtherAt(w, Apply(w, s), p);
    }
  }

  lemma UnknownIsNotWanted(w: World, q: string)
    requires q !in w.configs
    ensures !Wanted(w, q)
  {
  }

  lemma SameStaysCalm(w: World, p: string)
    requires CalmAt(w, p)
    ensures AgreesAt(w, p)
  {
    hide Members, PhonesOf, Wanted;
  }

  /** From a calm state, a poll after the step leaves exactly the wanted
      captures running if and only if the step was prompt; and then the state
      is calm again. */
  lemma CapturesAfterStep(w: World, s: Step)
    requires Invariant(w) && Calm(w) && Enabled(w, s) && !s.Poll?
    ensures CapturesWanted(Drain(Apply(w, s))) <==> Prompt(w, s)
    ensures Calm(Apply(w, s)) <==> Prompt(w, s)
  {
    hide Apply, Enabled, CalmAt, AgreesAt, Drain, Invariant, CapturesWanted, PromptAt;
    PollAgrees(Apply(w, s));
    forall p ensures CalmAt(Apply(w, s), p) <==> PromptAt(w, s, p)
             ensures AgreesAt(Apply(w, s), p) <==> PromptAt(w, s, p) {
      assert CalmAt(w, p);
      StepAt(w, s, p);
    }
  }

  lemma PollIsCalm(w: World)
    requires Calm(w)
    ensures Calm(Drain(w)) && CapturesWanted(Drain(w))
  {
    hide Drain, PhonesOf, Members, CalmAt;
    forall p ensures AgreesAt(w, p) && CalmAt(Drain(w), p) {
      assert CalmAt(w, p);
      SameStaysCalm(w, p);
      DrainedAt(w, p);
    }
    PollAgrees(w);
  }

  lemma DrainedAt(w: World, p: string)
    requires CalmAt(w, p)
    ensures CalmAt(Drain(w), p)
  {
    hide Drain;
    DrainTurns(w);
    DrainKeepsWanted(w);
  }

  // ------------------------------------------------------------ every run

  /** Every step of the run is prompt in the state it meets. */
  ghost predicate PromptRun(steps: seq<Step>) {
    steps == [] || (
      && PromptRun(steps[..|steps| - 1])
      && var w := Run(steps[..|steps| - 1]);
         w.Some? && Enabled(w.value, steps[|steps| - 1])
         && (steps[|steps| - 1].Poll? || Prompt(w.value, steps[|steps| - 1])))
  }

  lemma {:induction false} CalmRun(steps: seq<Step>)
    requires PromptRun(steps)
    ensures Run(steps).Some? && Calm(Run(steps).value)
  {
    hide Enabled, Prompt, Calm;
    if steps == [] {
      EmptyIsCalm();
    } else {
      hide Apply;
      var before, last := steps[..|steps| - 1], steps[|steps| - 1];
      CalmRun(before);
      EveryRun(before);
      var w := Run(before).value;
      if last.Poll? {
        PollIsCalm(w);
        assert Apply(w, last) == Drain(w) by { PollDrains(w); }
      } else {
        CapturesAfterStep(w, last);
      }
    }
  }

  lemma EmptyIsCalm()
    ensures Calm(Empty)
  {
  }

  lemma PollDrains(w: World)
    ensures Enabled(w, Poll) && Apply(w, Poll) == Drain(w)
  {
  }

  /** In every prompt run, whenever the poll loop drains the queues, the phones
      being captured are exactly those with the flag on and an active call. */
  lemma EveryPromptRun(steps: seq<Step>)
    requires PromptRun(steps)
    ensures Run(steps + [Poll]).Some? && CapturesWanted(Run(steps + [Poll]).value)
  {
    hide Run, Drain, Calm, CapturesWanted, Apply, Enabled;
    CalmRun(steps);
    var w := Run(steps).value;
    PollIsCalm(w);
    PollDrains(w);
    assert (steps + [Poll])[..|steps|] == steps;
    RunSnoc(steps, Poll);
  }

  lemma RunSnoc(steps: seq<Step>, s: Step)
    requires Run(steps).Some? && Enabled(Run(steps).value, s)
    ensures Run(steps + [s]) == Some(Apply(Run(steps).value, s))
  {
    hide Apply, Enabled;
    assert (steps + [s])[..|steps|] == steps;
  }

  /** A poll before each other step makes the run prompt. */
  predicate PolledRun(steps: seq<Step>) {
    forall i :: 0 <= i < |steps| && !steps[i].Poll? ==> i == 0 || steps[i - 1].Poll?
  }

  lemma {:induction false} PolledIsPrompt(steps: seq<Step>)
    requires PolledRun(steps) && Run(steps).Some?
    ensures PromptRun(steps)
  {
    hide Enabled, Apply;
    if steps != [] {
      var before, last := steps[..|steps| - 1], steps[|steps| - 1];
      assert PolledRun(before) by {
        assert forall i :: 0 <= i < |before| ==> before[i] == steps[i];
      }
      PolledIsPrompt(before);
      var w := Run(before).value;
      if !last.Poll? {
        assert w.starts == [] && w.stops == [] by {
          if before == [] {
          } else {
            assert before[|before| - 1].Poll?;
            var v := Run(before[..|before| - 1]).value;
            PollDrains(v);
            DrainTurns(v);
          }
        }
        EmptyQueuesArePrompt(w, last);
      }
    }
  }

  lemma EmptyQueuesArePrompt(w: World, s: Step)
    requires Enabled(w, s) && w.starts == [] && w.stops == []
    ensures Prompt(w, s)
  {
    hide TurnsOn, TurnsOff, Enabled;
  }

  // ------------------------------------------------- what a start is for

  lemma {:induction false} FirstOfOwned(order: seq<int>, owner: map<int, string>, p: string)
    ensures match FirstOf(order, owner, p)
            case None => forall cid :: cid in order ==> !(cid in owner && owner[cid] == p)
            case Some(cid) => cid in order && cid in owner && owner[cid] == p
  {
    if order != [] {
      FirstOfOwned(order[1..], owner, p);
      assert order == [order[0]] + order[1..];
    }
  }

  lemma NoCallNoneCounted(w: World, p: string)
    requires Invariant(w) && FirstOf(w.order, w.owner, p).None?
    ensures Counted(w.calls, p) == {}
  {
    hide CallInvariant, NoDup, FirstOf, TransportsMatch, QueuesOwned, FollowsConfig, CountersBounded;
    FirstOfOwned(w.order, w.owner, p);
    forall cid | cid in w.calls ensures w.calls[cid].phone != p {
      CallIsTracked(w, cid);
      assert cid in w.order;
    }
  }

  /** A phone with an active call has a tracked one. */
  lemma ActiveHasCall(w: World, p: string)
    requires Invariant(w) && ActiveCount(w, p) > 0
    ensures FirstOf(w.order, w.owner, p).Some?
  {
    hide TablesAgree, FirstOf, TransportsMatch, QueuesOwned, FollowsConfig, Counted;
    if FirstOf(w.order, w.owner, p).None? {
      NoCallNoneCounted(w, p);
    }
  }

  /** The queue of starts is as before, or one longer by a start for a call of
      its phone. */
  ghost predicate StartsOwn(w: World, x: World) {
    x.starts == w.starts
    || exists p, cid :: x.starts == w.starts + [(p, Some(cid))] && cid in x.owner && x.owner[cid] == p
  }

  lemma MediaStarts(w: World, cid: int, streams: seq<Stream>)
    requires Invariant(w) && cid in w.calls
    ensures StartsOwn(w, CallMediaState(w, cid, streams))
  {
    CallIsTracked(w, cid);
    hide MediaState, Invariant;
    var x := CallMediaState(w, cid, streams);
    assert x.owner == w.owner && (x.starts == w.starts || x.starts == w.starts + [(w.calls[cid].phone, Some(cid))]);
  }

  lemma FlagStarts(w: World, q: string, on: bool)
    requires Invariant(w)
    ensures StartsOwn(w, SetCapture(w, q, on))
  {
    hide Invariant, FirstOf;
    FirstOfOwned(w.order, w.owner, q);
    if ActiveCount(w, q) > 0 {
      ActiveHasCall(w, q);
    }
  }

  /** The step that queues a start names a call that its phone has tracked at
      that time.  The call may end before the poll that starts the capture. */
  lemma StartsNameOwnCalls(w: World, s: Step)
    requires Invariant(w) && Enabled(w, s) && !s.Poll?
    ensures StartsOwn(w, Apply(w, s))
  {
    hide Invariant, Members, PhonesOf, Wanted, AddPhone, DropPhone, CallMediaState, CallDisconnected, SetCapture,
      MediaState, IncomingCall, MakeCall, SetRecordingFlag, SetCodecs, SetAutoAnswer;
    if s.Add? {
      AddStarts(w, s.p, s.cfg, s.tp);
    } else if s.Drop? {
      DropEffect(w, s.p);
    } else if s.Register? {
      if s.p in w.configs {
        AddStarts(w, s.p, w.configs[s.p], s.tp);
      }
    } else if s.Ended? {
      EndedEffect(w, s.cid);
    } else if s.MediaChange? {
      MediaStarts(w, s.cid, s.streams);
    } else if s.CaptureFlag? {
      FlagStarts(w, s.p, s.on);
    } else {
      QuietSteps(w, s);
    }
  }

  lemma AddStarts(w: World, q: string, cfg: Config, tp: nat)
    requires Invariant(w)
    ensures AddPhone(w, q, cfg, tp).starts == w.starts
  {
    hide DropPhone, Invariant, Members, PhonesOf;
    if q in w.accounts {
      DropEffect(w, q);
    }
  }

  // ------------------------------------------- the call a capture is named after

  /** `q[k]` is the first entry for the phone. */
  predicate FirstStart(q: seq<(string, Option<int>)>, p: string, k: int) {
    0 <= k < |q| && q[k].0 == p && forall j :: 0 <= j < k ==> q[j].0 != p
  }

  /** The phone is captured for the call of its first entry, if it has one. */
  ghost predicate StartedFor(captures: map<string, Option<int>>, q: seq<(string, Option<int>)>, p: string) {
    if p in captures then exists k :: FirstStart(q, p, k) && captures[p] == q[k].1 else forall k :: !FirstStart(q, p, k)
  }

  lemma StartedLater(captures: map<string, Option<int>>, q: seq<(string, Option<int>)>, p: string)
    requires q != [] && q[0].0 != p && StartedFor(captures, q[1..], p)
    ensures StartedFor(captures, q, p)
  {
    forall k: int ensures FirstStart(q, p, k) <==> FirstStart(q[1..], p, k - 1) {
      assert forall j :: 0 < j < |q| ==> q[j] == q[1..][j - 1];
    }
    if p in captures {
      var k :| FirstStart(q[1..], p, k) && captures[p] == q[1..][k].1;
      assert FirstStart(q, p, k + 1);
    }
  }

  lemma {:induction false} StartAllKeeps(captures: map<string, Option<int>>, q: seq<(string, Option<int>)>, p: string)
    requires p in captures
    ensures p in StartAll(captures, q) && StartAll(captures, q)[p] == captures[p]
    decreases |q|
  {
    if q != [] {
      StartAllKeeps(if q[0].0 in captures then captures else captures[q[0].0 := q[0].1], q[1..], p);
    }
  }

  lemma {:induction false} StartAllNames(captures: map<string, Option<int>>, q: seq<(string, Option<int>)>, p: string)
    requires p !in captures
    ensures StartedFor(StartAll(captures, q), q, p)
    decreases |q|
  {
    if q != [] {
      var next := if q[0].0 in captures then captures else captures[q[0].0 := q[0].1];
      if q[0].0 == p {
        StartAllKeeps(next, q[1..], p);
        assert FirstStart(q, p, 0);
      } else {
        StartAllNames(next, q[1..], p);
        StartedLater(StartAll(captures, q), q, p);
      }
    }
  }

  lemma {:induction false} StopAllNames(captures: map<string, Option<int>>, q: seq<string>, p: string)
    ensures var x := StopAll(captures, q);
            p in x ==> p in captures && x[p] == captures[p]
    decreases |q|
  {
    if q != [] {
      StopAllNames(captures - {q[0]}, q[1..], p);
    }
  }

  /** After a poll a capture is named after the call it had before, or after
      that of the first start queued for its phone. */
  lemma DrainNames(w: World, p: string)
    ensures p in Drain(w).captures ==>
            if p in w.captures then Drain(w).captures[p] == w.captures[p]
            else exists k :: FirstStart(w.starts, p, k) && Drain(w).captures[p] == w.starts[k].1
  {
    hide FirstStart, StartAll, StopAll;
    if p in w.captures {
      StartAllKeeps(w.captures, w.starts, p);
    } else {
      StartAllNames(w.captures, w.starts, p);
    }
    StopAllNames(StartAll(w.captures, w.starts), w.stops, p);
  }

  /** The start that a media change queues is for the very call that went
      active, when it is its phone's only active one and the flag is on. */
  lemma MediaQueuesStart(w: World, cid: int, streams: seq<Stream>)
    requires Invariant(w) && cid in w.calls
    ensures w.calls[cid].phone in w.configs
    ensures var c := w.calls[cid];
            CallMediaState(w, cid, streams).starts ==
            w.starts + if !c.counted && (exists i :: 0 <= i < |streams| && streams[i].activeAudio)
                          && c.phone !in w.active && w.configs[c.phone].capture
                       then [(c.phone, Some(cid))] else []
  {
    CallIsTracked(w, cid);
    ActiveIsPositive(w, w.calls[cid].phone);
    TrackedIsConfigured(w, cid);
    hide MediaState, Invariant;
    CountedByMedia(w.calls[cid], cid, streams);
  }

  lemma CountedByMedia(c: Call, cid: int, streams: seq<Stream>)
    requires CallInvariant(c) && !c.disconnected
    ensures var d := MediaState(c, cid, streams);
            d.phone == c.phone && (d.counted <==> c.counted || exists i :: 0 <= i < |streams| && streams[i].activeAudio)
  {
    hide MediaState, CallInvariant;
    MediaKeepsInvariant(c, cid, streams);
  }

  lemma ActiveIsPositive(w: World, p: string)
    requires Invariant(w)
    ensures p in w.active ==> w.active[p] > 0
  {
    hide TablesAgree, QueuesOwned, TransportsMatch, FollowsConfig, Counted;
  }

  lemma TrackedIsConfigured(w: World, cid: int)
    requires Invariant(w) && cid in w.calls
    ensures w.calls[cid].phone in w.configs
  {
    CallIsTracked(w, cid);
    hide CallInvariant, TablesAgree, TransportsMatch, QueuesOwned, FollowsConfig, CountersBounded;
  }

  /** The start that the flag queues is for the phone's oldest tracked call. */
  lemma FlagQueuesStart(w: World, p: string, on: bool)
    requires Invariant(w)
    ensures var x := SetCapture(w, p, on);
            if p in w.configs && on && p in w.active && p !in w.captures
            then exists k :: OldestOf(w, p, k) && x.starts == w.starts + [(p, Some(w.order[k]))]
            else x.starts == w.starts
  {
    ActiveIsPositive(w, p);
    hide Invariant, FirstOf, OldestOf;
    if p in w.active {
      ActiveHasCall(w, p);
      var k := FirstOfIs(w, p, 0);
      assert w.order[0..] == w.order;
    }
  }

  /** `order[k]` is the first call of the phone. */
  predicate OldestOf(w: World, p: string, k: int) {
    && 0 <= k < |w.order| && w.order[k] in w.owner && w.owner[w.order[k]] == p
    && forall j :: 0 <= j < k ==> !(w.order[j] in w.owner && w.owner[w.order[j]] == p)
  }

  lemma {:induction false} FirstOfIs(w: World, p: string, i: nat) returns (k: nat)
    requires i <= |w.order| && FirstOf(w.order[i..], w.owner, p).Some?
    requires forall j :: 0 <= j < i ==> !(w.order[j] in w.owner && w.owner[w.order[j]] == p)
    ensures OldestOf(w, p, k) && FirstOf(w.order[i..], w.owner, p) == Some(w.order[k])
    decreases |w.order| - i
  {
    if w.order[i] in w.owner && w.owner[w.order[i]] == p {
      k := i;
    } else {
      assert w.order[i..][1..] == w.order[i + 1..];
      k := FirstOfIs(w, p, i + 1);
    }
  }
}
