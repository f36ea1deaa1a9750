/** Short runs that show why the hypotheses of the laws are needed. */
module PhoneExamples {
  import opened Text
  import opened CallMedia
  import opened PhoneSystem
  import opened PhoneInvariants
  import opened CaptureLaws
  import opened PhoneLaws

  const CAPTURING := Config(true, None, false, true, 0)

  /** An audio stream on port 0 that is active, no hold music. */
  const ACTIVE := Stream(true, 0, 0, Writable, false, {})

  /** One phone with one tracked call that is not audio-active yet. */
  const CALLING: seq<Step> := [Add("a", CAPTURING, 0), Outgoing("a", 1)]

  lemma Calling()
    ensures Run(CALLING).Some?
    ensures var w := Run(CALLING).value;
            && w.configs == map["a" := CAPTURING] && w.accounts == {"a"} && w.transports == {0}
            && w.calls == map[1 := NewCall("a", None, false)] && w.owner == map[1 := "a"]
            && w.active == map[] && w.starts == [] && w.stops == [] && w.captures == map[]
  {
    var first := [Add("a", CAPTURING, 0)];
    assert first[..0] == [] && Run([]) == Some(Empty);
    assert CALLING == first + [Outgoing("a", 1)];
    RunSnoc([], first[0]);
    assert [] + first == first;
    RunSnoc(first, Outgoing("a", 1));
  }

  const TALKING: seq<Step> := CALLING + [MediaChange(1, [ACTIVE])]

  lemma StreamStarts(c: Call, cid: int)
    requires c == NewCall("a", None, false)
    ensures MediaState(c, cid, [ACTIVE]) == c.(audMed := Some(0), counted := true, edges := {(Audio(0), Playback)})
  {
    assert [ACTIVE][..0] == [];
  }

  lemma Talking()
    ensures Run(TALKING).Some?
    ensures var w := Run(TALKING).value;
            && w.accounts == {"a"} && w.configs == map["a" := CAPTURING] && w.owner == map[1 := "a"]
            && w.calls.Keys == {1} && w.calls[1].phone == "a" && w.calls[1].counted && !w.calls[1].disconnected
            && w.active == map["a" := 1] && w.starts == [("a", Some(1))] && w.stops == [] && w.captures == map[]
  {
    hide Run, MediaState, NewCall;
    Calling();
    var c := NewCall("a", None, false);
    StreamStarts(c, 1);
    assert !c.counted && c.phone == "a" && !c.disconnected by { Fresh(); }
    RunSnoc(CALLING, MediaChange(1, [ACTIVE]));
  }

  lemma Fresh()
    ensures var c := NewCall("a", None, false);
            !c.counted && c.phone == "a" && !c.disconnected
  {
  }

  /** A call that never went active ends: the counter misses the active one. */
  lemma CounterDrifts()
    ensures var steps := TALKING + [Outgoing("a", 2)] + [Ended(2)];
            Run(steps).Some? && !CountExactAt(Run(steps).value, "a")
  {
    hide Run, Invariant, CountExactAt, NewCall, CallDisconnected, PhoneInvariants.Counted;
    Talking();
    var w := Run(TALKING).value;
    EveryRun(TALKING);
    OneCounted(w);
    RunSnoc(TALKING, Outgoing("a", 2));
    EveryRun(TALKING + [Outgoing("a", 2)]);
    TrackCounts(w, "a", 2, "a");
    Fresh();
    var v := Run(TALKING + [Outgoing("a", 2)]).value;
    StepCounts(v, Ended(2), "a");
    RunSnoc(TALKING + [Outgoing("a", 2)], Ended(2));
  }

  lemma OneCounted(w: World)
    requires w.calls.Keys == {1} && w.calls[1].phone == "a" && w.calls[1].counted && w.active == map["a" := 1]
    ensures CountExactAt(w, "a")
  {
    assert Counted(w.calls, "a") == {1};
  }

  /** A call goes active and ends before a poll: its capture starts afterwards
      and stays. */
  lemma CaptureOutlivesCall()
    ensures var steps := TALKING + [Ended(1)] + [Poll];
            Run(steps).Some? && !CapturesWanted(Run(steps).value)
  {
    hide Run, Invariant, CallDisconnected, PhonesOf, Members, Drain, Wanted;
    Talking();
    EveryRun(TALKING);
    var w := Run(TALKING).value;
    EndedEffect(w, 1);
    RunSnoc(TALKING, Ended(1));
    var x := Run(TALKING + [Ended(1)]).value;
    StartWaits(w, x);
    PollDrains(x);
    RunSnoc(TALKING + [Ended(1)], Poll);
  }

  lemma StartWaits(w: World, x: World)
    requires w.active == map["a" := 1] && w.starts == [("a", Some(1))] && w.stops == []
    requires x.starts == w.starts && Members(x.stops) == Members(w.stops) && !Wanted(x, "a")
    ensures !CapturesWanted(Drain(x))
  {
    hide Drain, Wanted;
    DrainTurns(x);
    DrainKeepsWanted(x);
    assert x.starts[0].0 in PhonesOf(x.starts);
    assert "a" in Drain(x).captures.Keys;
  }

  const RINGING: seq<Step> := [Add("a", CAPTURING, 0), Incoming("a", 1)]

  lemma Ringing()
    ensures Run(RINGING).Some?
    ensures var w := Run(RINGING).value;
            && w.calls.Keys == {1} && w.accounts == {"a"} && w.transports == {0} && w.autoAnswer == map["a" := [1]]
  {
    hide NewCall;
    var first := [Add("a", CAPTURING, 0)];
    assert RINGING == first + [Incoming("a", 1)] && [] + first == first;
    assert Run([]) == Some(Empty);
    RunSnoc([], first[0]);
    assert Queued(map["a" := []], "a", 1) == map["a" := [1]] by { assert [] + [1] == [1]; }
    RunSnoc(first, Incoming("a", 1));
  }

  /** A call ends before it was auto-answered and its id comes back on another
      phone: the pending answer is for that phone's call. */
  lemma AnswersForeignCall()
    ensures var steps := RINGING + [Ended(1)] + [Add("b", CAPTURING, 1)] + [Outgoing("b", 1)];
            Run(steps).Some? && !PendingOwned(Run(steps).value.autoAnswer, Run(steps).value.owner)
  {
    hide Run, Invariant, CallDisconnected, NewCall, QueuesWithin, PendingOwned;
    Ringing();
    EveryRun(RINGING);
    var w := Run(RINGING).value;
    EndedCalls(w, 1);
    RunSnoc(RINGING, Ended(1));
    var s := RINGING + [Ended(1)];
    RunSnoc(s, Add("b", CAPTURING, 1));
    AddKeepsAnswers(Run(s).value);
    RunSnoc(s + [Add("b", CAPTURING, 1)], Outgoing("b", 1));
    var x := Run(s + [Add("b", CAPTURING, 1)] + [Outgoing("b", 1)]).value;
    NotOwned(x);
  }

  lemma AddKeepsAnswers(w: World)
    requires w.accounts == {"a"} && w.autoAnswer == map["a" := [1]] && w.calls == map[]
    ensures var x := AddPhone(w, "b", CAPTURING, 1);
            x.accounts == {"a", "b"} && x.calls == map[] && "a" in x.autoAnswer && x.autoAnswer["a"] == [1]
  {
  }

  lemma NotOwned(x: World)
    requires "a" in x.autoAnswer && x.autoAnswer["a"] == [1] && 1 in x.owner && x.owner[1] == "b"
    ensures !PendingOwned(x.autoAnswer, x.owner)
  {
    assert 1 in x.autoAnswer["a"];
  }
}
