/** What a run's own hooks see of it. */
module ScenarioLaws {
  import opened Text
  import opened Values
  import opened EventMatching
  import opened EventHub
  import opened HookRuntimes
  import opened HookLaws
  import opened HookWants
  import opened Actions
  import opened ScenarioRuns

  lemma OnlyType(kind: string, other: string)
    requires !EndsWith(kind, ".*") && kind != "*"
    ensures MatchesKind([kind], other) <==> other == kind
  {
    hide EndsWith;
    PlainPattern(kind, other);
    var p := [kind][0];
    assert p in [kind];
  }

  lemma LiteralTypes()
    ensures !EndsWith("reg.success", ".*") && !EndsWith("scenario.started", ".*")
    ensures "reg.success" != "*" && "scenario.started" != "*" && "reg.success" != "scenario.started"
  {
    assert "reg.success"[|"reg.success"| - 2..][1] == 's' && "scenario.started"[|"scenario.started"| - 2..][1] == 'd';
    assert ".*"[1] == '*' && "reg.success"[0] == 'r' && "scenario.started"[0] == 's';
  }

  /** The emits of the replay and the start that a hook on the start wants. */
  lemma {:induction false} NoReplayWanted(host: Host, h: Hook, phones: seq<string>, registered: map<string, Entries>)
    requires h.when == ["scenario.started"]
    ensures WantedEvents(host, h, Replays(phones, registered)) == []
  {
    hide MatchesKind, HookMatches;
    if phones != [] {
      var n := |phones| - 1;
      var before, p := Replays(phones[..n], registered), phones[n];
      NoReplayWanted(host, h, phones[..n], registered);
      if p in registered {
        var e := Event("reg.success", Some(p), None, registered[p]);
        LiteralTypes();
        OnlyType("scenario.started", e.kind);
        assert (before + [EmitStep(e)])[..|before|] == before;
      } else {
        assert before + [] == before;
      }
    }
  }

  /** Of the replay and the start, such a hook wants the start alone. */
  lemma StartWanted(host: Host, h: Hook, s: Scenario, registered: map<string, Entries>)
    requires h.when == ["scenario.started"] && h.onPhone == None && h.preds == []
    ensures WantedEvents(host, h, Replays(s.phones, registered) + [Started(s)]) ==
            [Event("scenario.started", None, None, [("name", Str(s.name))])]
  {
    hide EndsWith, MatchesKind, HookMatches, Replays;
    var replays := Replays(s.phones, registered);
    var steps, e := replays + [Started(s)], Event("scenario.started", None, None, [("name", Str(s.name))]);
    assert steps[..|steps| - 1] == replays && steps[|steps| - 1] == EmitStep(e);
    LiteralTypes();
    OnlyType("scenario.started", "scenario.started");
    PlainHook(host, h, e);
    NoReplayWanted(host, h, s.phones, registered);
  }

  lemma StartIsEmit(s: Scenario, registered: map<string, Entries>)
    ensures forall t :: t in Replays(s.phones, registered) + [Started(s)] ==> t.EmitStep?
  {
    hide Replays;
    ReplaysAreEmits(s.phones, registered);
  }

  /** A hook that waits for the start of the scenario is armed before it, and
      dispatches on exactly that event, with the scenario's name. */
  lemma CoordinatorSeesStart(host: Host, en: Engine, s: Scenario, registered: map<string, Entries>, key: nat)
    requires WellFormed(en) && key in en.hooks && key in en.subIds
    requires en.hooks[key].when == ["scenario.started"] && en.hooks[key].onPhone == None && en.hooks[key].preds == []
    ensures DispatchedTo(After(host, en, Replays(s.phones, registered) + [Started(s)]).log, key) ==
            DispatchedTo(en.log, key) + [Event("scenario.started", None, None, [("name", Str(s.name))])]
  {
    hide WellFormed, AllEnabled, After, Wants, WantedEvents, DispatchedTo, Replays, Started;
    var steps := Replays(s.phones, registered) + [Started(s)];
    var e := Event("scenario.started", None, None, [("name", Str(s.name))]);
    StartWanted(host, en.hooks[key], s, registered);
    StartIsEmit(s, registered);
    EmitsEnabled(host, en, steps);
    FirstOrEvery(host, en, steps, key);
    assert [e][..1] == [e];
  }

  lemma {:induction false} EmitsEnabled(host: Host, en: Engine, steps: seq<Step>)
    requires forall s :: s in steps ==> s.EmitStep?
    ensures AllEnabled(host, en, steps)
  {
    hide After, Apply;
    if steps != [] {
      assert steps[|steps| - 1] in steps;
      EmitsEnabled(host, en, steps[..|steps| - 1]);
    }
  }

  /** The events of the replay that a hook on a phone's registration wants are
      that phone's, if it is one of the scenario's and registered. */
  lemma {:induction false} ReplayWanted(host: Host, h: Hook, p: string, phones: seq<string>, registered: map<string, Entries>)
    requires h.when == ["reg.success"] && h.onPhone == Some(p) && h.preds == []
    ensures var wanted := WantedEvents(host, h, Replays(phones, registered));
            && (wanted != [] <==> p in phones && p in registered)
            && (wanted != [] ==> wanted[0] == Event("reg.success", Some(p), None, registered[p]))
  {
    hide MatchesKind, HookMatches, Wants;
    if phones != [] {
      var n := |phones| - 1;
      var before, q := Replays(phones[..n], registered), phones[n];
      ReplayWanted(host, h, p, phones[..n], registered);
      assert phones == phones[..n] + [q];
      if q in registered {
        var e := Event("reg.success", Some(q), None, registered[q]);
        LiteralTypes();
        OnlyType("reg.success", e.kind);
        PlainHook(host, h, e);
        assert (before + [EmitStep(e)])[..|before|] == before;
      } else {
        assert before + [] == before;
      }
    }
  }

  /** A once-hook on the registration of a phone dispatches on the replay if and
      only if the phone is one of the scenario's and registered already. */
  lemma ReplayIsSeen(host: Host, en: Engine, p: string, phones: seq<string>, registered: map<string, Entries>, key: nat)
    requires WellFormed(en) && key in en.hooks && key in en.subIds && en.hooks[key].once
    requires en.hooks[key].when == ["reg.success"] && en.hooks[key].onPhone == Some(p) && en.hooks[key].preds == []
    ensures DispatchedTo(After(host, en, Replays(phones, registered)).log, key) ==
            DispatchedTo(en.log, key)
            + if p in phones && p in registered then [Event("reg.success", Some(p), None, registered[p])] else []
  {
    var steps := Replays(phones, registered);
    ReplayWanted(host, en.hooks[key], p, phones, registered);
    ReplaysAreEmits(phones, registered);
    EmitsEnabled(host, en, steps);
    hide WellFormed, AllEnabled, After, DispatchedTo, Replays, WantedEvents;
    FirstOrEvery(host, en, steps, key);
  }

  // ------------------------------------------------ what the others see of it

  lemma {:induction false} WantedAppend(host: Host, h: Hook, a: seq<Step>, b: seq<Step>)
    ensures WantedEvents(host, h, a + b) == WantedEvents(host, h, a) + WantedEvents(host, h, b)
  {
    hide Wants;
    if b == [] {
      assert a + b == a;
    } else {
      WantedAppend(host, h, a, b[..|b| - 1]);
      assert (a + b)[..|a + b| - 1] == a + b[..|b| - 1];
    }
  }

  function IfWanted(host: Host, h: Hook, e: Event): seq<Event> {
    if Wants(host, h, e) then [e] else []
  }

  lemma WantedOne(host: Host, h: Hook, e: Event)
    ensures WantedEvents(host, h, [EmitStep(e)]) == IfWanted(host, h, e)
  {
    hide Wants;
    assert [EmitStep(e)][..0] == [];
  }

  /** What a hook that stays live sees of a run: the replay, the start with the
      scenario's name, what happens during it, and at the end how it ended. */
  lemma WantedOfRun(host: Host, h: Hook, s: Scenario, registered: map<string, Entries>, during: seq<Step>,
                    status: string, reason: string)
    ensures WantedEvents(host, h, OnBus(s, registered, during, status, reason)) ==
            WantedEvents(host, h, Replays(s.phones, registered))
            + IfWanted(host, h, Event("scenario.started", None, None, [("name", Str(s.name))]))
            + WantedEvents(host, h, during)
            + IfWanted(host, h, Event("scenario.stopped", None, None, [("status", Str(status)), ("reason", Str(reason))]))
  {
    hide Wants, WantedEvents, Replays, IfWanted;
    var a, b, d := Replays(s.phones, registered), [Started(s)], [Stopped(status, reason)];
    WantedAppend(host, h, a + b + during, d);
    WantedAppend(host, h, a + b, during);
    WantedAppend(host, h, a, b);
    WantedOne(host, h, Event("scenario.started", None, None, [("name", Str(s.name))]));
    WantedOne(host, h, Event("scenario.stopped", None, None, [("status", Str(status)), ("reason", Str(reason))]));
  }

  // ------------------------------------------- what a run subscribes to what

  /** The subscription of the hook that a spec builds, in its place. */
  predicate ListensFor(host: Host, sub: Sub, spec: Entries) {
    && HookOf(host, spec).Some? && sub.handler.ForHook?
    && sub.handler.hook == HookOf(host, spec).value && sub.patterns == sub.handler.hook.when && !sub.once
  }

  /** Each subscription is that of a hook of the list. */
  ghost predicate FromHooks(host: Host, subs: seq<Sub>, hs: seq<Entries>) {
    forall sub :: sub in subs ==> exists spec :: spec in hs && ListensFor(host, sub, spec)
  }

  /** Each hook of the list that builds has a subscription. */
  ghost predicate AllListen(host: Host, subs: seq<Sub>, hs: seq<Entries>) {
    forall spec :: spec in hs && HookOf(host, spec).Some? ==> exists sub :: sub in subs && ListensFor(host, sub, spec)
  }

  /** The `n`th one has the `n`th id and key. */
  predicate NumberedFrom(subs: seq<Sub>, id: nat, key: nat) {
    forall n :: 0 <= n < |subs| ==> subs[n].id == id + n && subs[n].handler.ForHook? && subs[n].handler.key == key + n
  }

  lemma LastHook(host: Host, hs: seq<Entries>, id: nat, key: nat)
    requires hs != []
    ensures var most, last := HookSubs(host, hs[..|hs| - 1], id, key), hs[|hs| - 1];
            var more := if HookOf(host, last).None? then []
                        else [Sub(id + ArmedCount(host, hs[..|hs| - 1]), HookOf(host, last).value.when,
                                  ForHook(key + ArmedCount(host, hs[..|hs| - 1]), HookOf(host, last).value), false)];
            && HookSubs(host, hs, id, key) == most + more
            && ArmedCount(host, hs) == ArmedCount(host, hs[..|hs| - 1]) + |more|
            && (HookOf(host, last).Some? ==> ListensFor(host, more[0], last))
  {
    hide HookOf;
  }

  lemma OneMoreHook(host: Host, most: seq<Sub>, before: seq<Entries>, more: seq<Sub>, spec: Entries)
    requires FromHooks(host, most, before) && AllListen(host, most, before)
    requires if HookOf(host, spec).None? then more == [] else |more| == 1 && ListensFor(host, more[0], spec)
    ensures FromHooks(host, most + more, before + [spec]) && AllListen(host, most + more, before + [spec])
  {
    hide HookOf, ListensFor;
    forall sub | sub in most + more ensures exists h :: h in before + [spec] && ListensFor(host, sub, h) {
      if sub in most {
        var h :| h in before && ListensFor(host, sub, h);
        assert h in before + [spec];
      } else {
        assert spec in before + [spec];
      }
    }
    forall h | h in before + [spec] && HookOf(host, h).Some?
      ensures exists sub :: sub in most + more && ListensFor(host, sub, h)
    {
      if h in before {
        var sub :| sub in most && ListensFor(host, sub, h);
        assert sub in most + more;
      } else {
        assert more[0] in most + more;
      }
    }
  }

  /** One subscription for each hook that builds, in order, under ids and keys
      that go up together. */
  lemma {:induction false} HooksSubscribed(host: Host, hs: seq<Entries>, id: nat, key: nat)
    ensures var subs := HookSubs(host, hs, id, key);
            && |subs| == ArmedCount(host, hs) <= |hs| && NumberedFrom(subs, id, key)
            && FromHooks(host, subs, hs) && AllListen(host, subs, hs)
  {
    hide HookOf, ListensFor, HookSubs, ArmedCount, FromHooks, AllListen;
    if hs == [] {
      NoHooks(host, id, key);
    } else {
      var before, most, spec := hs[..|hs| - 1], HookSubs(host, hs[..|hs| - 1], id, key), hs[|hs| - 1];
      HooksSubscribed(host, before, id, key);
      LastHook(host, hs, id, key);
      var more := HookSubs(host, hs, id, key)[|most|..];
      assert hs == before + [spec] && HookSubs(host, hs, id, key) == most + more;
      OneMoreHook(host, most, before, more, spec);
    }
  }

  lemma NoHooks(host: Host, id: nat, key: nat)
    ensures HookSubs(host, [], id, key) == [] && ArmedCount(host, []) == 0
    ensures FromHooks(host, [], []) && AllListen(host, [], [])
  {
  }

  /** The handler of a stop condition listens to the event it names. */
  predicate WaitsFor(sub: Sub, n: int, spec: Entries) {
    && sub.handler.ForStop? && sub.handler.n == n && !sub.once
    && Get(spec, "event").Str? && Get(spec, "event").s != "" && sub.patterns == [Get(spec, "event").s]
  }

  /** One subscription for each stop condition that names an event, in order,
      to the text of that event. */
  lemma {:induction false} StopsSubscribed(ss: seq<Entries>, id: nat)
    requires forall k :: 0 <= k < |ss| ==> StopNamed(ss[k])
    ensures var subs := StopSubs(ss, id);
            && |subs| == StopCount(ss) <= |ss|
            && (forall n :: 0 <= n < |subs| ==>
                  subs[n].id == id + n && exists k :: 0 <= k < |ss| && WaitsFor(subs[n], k, ss[k]))
            && (forall k :: 0 <= k < |ss| ==>
                  (Get(ss[k], "event").Str? && Get(ss[k], "event").s != "" <==>
                   exists n :: 0 <= n < |subs| && WaitsFor(subs[n], k, ss[k])))
  {
    if ss != [] {
      var before, subs, last := ss[..|ss| - 1], StopSubs(ss, id), |ss| - 1;
      var most := StopSubs(before, id);
      assert forall k :: 0 <= k < |before| ==> before[k] == ss[k];
      StopsSubscribed(before, id);
      assert StopNamed(ss[last]);
      forall n | 0 <= n < |subs| ensures exists k :: 0 <= k < |ss| && WaitsFor(subs[n], k, ss[k]) {
        if n < |most| {
          assert subs[n] == most[n];
          var k :| 0 <= k < |before| && WaitsFor(most[n], k, before[k]);
          assert ss[k] == before[k];
        } else {
          assert WaitsFor(subs[n], last, ss[last]);
        }
      }
      forall k | 0 <= k < |ss| && Get(ss[k], "event").Str? && Get(ss[k], "event").s != ""
        ensures exists n :: 0 <= n < |subs| && WaitsFor(subs[n], k, ss[k])
      {
        if k < last {
          var n :| 0 <= n < |most| && WaitsFor(most[n], k, before[k]);
          assert subs[n] == most[n];
        } else {
          assert WaitsFor(subs[|most|], k, ss[k]);
        }
      }
    }
  }

  lemma EveryKind(kind: string)
    ensures MatchesKind(["*"], kind)
  {
    PlainPattern("*", kind);
    var p := ["*"][0];
    assert p in ["*"];
  }

  /** A run that raises leaves, first, the recorder's subscription to every
      event, then those of its hooks and those of the stop conditions before
      the one that raised. */
  lemma LeftBehindIs(host: Host, s: Scenario, k: nat, id: nat, key: nat, kind: string)
    requires k <= |s.stopOn|
    ensures var left, armed := LeftBehind(host, s, k, id, key), HookSubs(host, s.hooks, id + 1, key);
            && |left| >= 1 && left[0].id == id && left[0].handler == ForRecorder && !left[0].once
            && MatchesKind(left[0].patterns, kind)
            && left[1..] == armed + StopSubs(s.stopOn[..k], id + 1 + |armed|)
  {
    hide HookOf, ListensFor, HookSubs, ArmedCount, StopSubs, MatchesKind;
    HooksSubscribed(host, s.hooks, id + 1, key);
    EveryKind(kind);
  }

  /** A run takes one id for its recorder, one for each hook that builds and
      one for each stop condition that names an event. */
  lemma OwnIds(host: Host, s: Scenario, id: nat, key: nat)
    ensures OwnCount(host, s) == |LeftBehind(host, s, |s.stopOn|, id, key)|
  {
    hide HookOf, ListensFor, HookSubs, StopSubs, ArmedCount, StopCount;
    HooksSubscribed(host, s.hooks, id + 1, key);
    CountOfStops(s.stopOn, id + 1 + ArmedCount(host, s.hooks));
    assert s.stopOn[..|s.stopOn|] == s.stopOn;
  }

  lemma {:induction false} CountOfStops(ss: seq<Entries>, id: nat)
    ensures |StopSubs(ss, id)| == StopCount(ss)
  {
    hide StopPatterns;
    if ss != [] {
      CountOfStops(ss[..|ss| - 1], id);
    }
  }

  /** A stop condition raises if and only if it names an event, and `match` is
      given and is neither a mapping nor makes one. */
  lemma StopRaisesIff(spec: Entries)
    requires StopNamed(spec)
    ensures StopRaises(spec) <==>
            && Get(spec, "event").Str? && Get(spec, "event").s != ""
            && Truthy(Get(spec, "match")) && !Get(spec, "match").Dict? && !MakesMapping(Get(spec, "match"))
  {
  }
}
