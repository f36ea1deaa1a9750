/** One scenario run on a shared bus. */
module ScenarioRuns {
  import opened Text
  import opened Values
  import opened EventMatching
  import opened EventHub
  import opened HookRuntimes
  import opened HookLaws
  import opened Actions

  // ---------------------------------------------- what the others see of it

  /** The bus without a run's own subscriptions, and the next hook id. */
  datatype Bus = Bus(subs: seq<Sub>, next: nat, nextKey: nat)

  /** A step as it changes the subscriptions of the other users of the bus: an
      emit takes the one-shot ones and, of other runs' once-hooks, those that
      the event matches. */
  function OthersStep(host: Host, b: Bus, s: Step): Bus {
    match s
    case EmitStep(e) =>
      var hits := Hits(b.subs, e.kind);
      b.(subs := Without(b.subs, SpentIds(host, hits, e) + OnceIds(hits)))
    case ArmOtherStep(hook) =>
      Bus(b.subs + [Sub(b.next, hook.when, ForHook(b.nextKey, hook), false)], b.next + 1, b.nextKey + 1)
    case SubscribeStep(patterns, n, once) =>
      b.(subs := b.subs + [Sub(b.next, patterns, Foreign(n), once)], next := b.next + 1)
    case UnsubscribeStep(id) => b.(subs := Without(b.subs, {id}))
    case _ => b
  }

  function OthersAfter(host: Host, b: Bus, steps: seq<Step>): Bus {
    if steps == [] then b else OthersStep(host, OthersAfter(host, b, steps[..|steps| - 1]), steps[|steps| - 1])
  }

  /** The ids from `lo` up to `hi`. */
  function Range(lo: nat, hi: nat): (r: set<nat>)
    ensures forall id: nat :: id in r <==> lo <= id < hi
  {
    if hi <= lo then {} else Range(lo, hi - 1) + {hi - 1}
  }

  function Others(en: Engine, own: set<nat>): Bus {
    Bus(Without(en.subs, own), en.next, en.nextKey)
  }

  /** Steps that other users of the bus take during the run: they emit, arm
      hooks of theirs, subscribe, and unsubscribe what is not the run's. */
  predicate FromOutside(s: Step, own: set<nat>) {
    s.EmitStep? || s.ArmOtherStep? || s.SubscribeStep? || (s.UnsubscribeStep? && s.id !in own)
  }

  /** When the others only emit and none of their subscriptions is one-shot or
      a once-hook's, they keep them all. */
  lemma {:induction false} EmitsKeepOthers(host: Host, b: Bus, steps: seq<Step>)
    requires forall s :: s in steps ==> s.EmitStep?
    requires forall t :: t in b.subs ==> !t.once && !(t.handler.ForHook? && t.handler.hook.once)
    ensures OthersAfter(host, b, steps) == b
  {
    hide Hits, Without, MatchesKind, HookMatches;
    if steps != [] {
      var last := steps[|steps| - 1];
      assert last in steps;
      EmitsKeepOthers(host, b, steps[..|steps| - 1]);
      var hits := Hits(b.subs, last.e.kind);
      HitsMembers(b.subs, last.e.kind);
      WithoutNone(b.subs, SpentIds(host, hits, last.e) + OnceIds(hits));
    }
  }

  // ------------------------------------------------------------ accounting

  /** Each of the run's subscriptions is the recorder's, a stop condition's or
      that of a hook the runtime still has. */
  predicate AccountedSub(s: Sub, hooks: map<nat, Hook>, recorder: nat, stops: set<nat>) {
    !s.once && (s.id == recorder || s.id in stops || (s.handler.ForHook? && s.handler.key in hooks))
  }

  ghost predicate Accounted(en: Engine, own: set<nat>, recorder: nat, stops: set<nat>) {
    && (forall s :: s in en.subs && s.id in own ==> AccountedSub(s, en.hooks, recorder, stops))
    && (forall key :: key in en.hooks && key in en.subIds ==> en.subIds[key] in own)
    && (forall s :: s in en.subs && (s.id == recorder || s.id in stops) ==> !s.handler.ForHook?)
    && (forall id :: id in own ==> id < en.next)
    && recorder in own && stops <= own
  }

  /** What an emit does to the others does not depend on the run: of their
      subscriptions go the one-shot ones it reaches and the once-hooks it matches. */
  lemma EmitForOthers(host: Host, en: Engine, e: Event, own: set<nat>)
    requires WellFormed(en)
    ensures Others(Emit(host, en, e), own) == OthersStep(host, Others(en, own), EmitStep(e))
    ensures forall s :: s in Emit(host, en, e).subs ==> s in en.subs
  {
    hide HookMatches, MatchesKind, Hits, Without, IdsDistinct, SpentIds, SpentKeys, OnceIds, Emit, LogDelivered;
    var hits := Hits(en.subs, e.kind);
    var gone := SpentIds(host, hits, e) + OnceIds(hits);
    EmitDelivers(host, en, e);
    WithoutTwice(en.subs, gone, own);
    WithoutMembers(en.subs, gone);
    var rest := Hits(Without(en.subs, own), e.kind);
    var others := SpentIds(host, rest, e) + OnceIds(rest);
    WithoutTwice(en.subs, own, others);
    forall s | s in en.subs ensures s.id in gone + own <==> s.id in own + others {
      if s.id !in own {
        OthersGone(host, en, e, own, s);
      }
    }
    WithoutSame(en.subs, gone + own, own + others);
  }

  lemma OthersGone(host: Host, en: Engine, e: Event, own: set<nat>, s: Sub)
    requires WellFormed(en) && s in en.subs && s.id !in own
    ensures var hits, rest := Hits(en.subs, e.kind), Hits(Without(en.subs, own), e.kind);
            s.id in SpentIds(host, hits, e) + OnceIds(hits) <==> s.id in SpentIds(host, rest, e) + OnceIds(rest)
  {
    hide HookMatches, MatchesKind, Hits, Without, IdsDistinct;
    HitsMembers(en.subs, e.kind);
    HitsMembers(Without(en.subs, own), e.kind);
    WithoutMembers(en.subs, own);
    forall t | t in en.subs && t.id == s.id ensures t == s {
      SameIdSameSub(en.subs, en.next, t, s);
    }
  }

  lemma EmitAccounted(host: Host, en: Engine, e: Event, own: set<nat>, recorder: nat, stops: set<nat>)
    requires WellFormed(en) && Accounted(en, own, recorder, stops)
    ensures Accounted(Emit(host, en, e), own, recorder, stops)
  {
    hide WellFormed, Emit, SpentIds, SpentKeys, OnceIds, Without, LogDelivered;
    EmitDelivers(host, en, e);
    WithoutMembers(en.subs, SpentIds(host, Hits(en.subs, e.kind), e) + OnceIds(Hits(en.subs, e.kind)));
  }

  lemma ArmedElsewhere(host: Host, en: Engine, hook: Hook, own: set<nat>, recorder: nat, stops: set<nat>)
    requires WellFormed(en) && Accounted(en, own, recorder, stops)
    ensures var x := NewHook(en, hook);
            Accounted(x, own, recorder, stops) && Others(x, own) == OthersStep(host, Others(en, own), ArmOtherStep(hook))
  {
    hide IdsDistinct, SubsKnown, NamesOwn, HooksListen, Without, Hits;
    var added := Sub(en.next, hook.when, ForHook(en.nextKey, hook), false);
    WithoutAppend(en.subs, [added], own);
    WithoutNone([added], own);
  }

  lemma SubscribedElsewhere(host: Host, en: Engine, s: Step, own: set<nat>, recorder: nat, stops: set<nat>)
    requires Accounted(en, own, recorder, stops) && s.SubscribeStep?
    ensures var x := Subscribe(en, s.patterns, Foreign(s.n), s.once);
            Accounted(x, own, recorder, stops) && Others(x, own) == OthersStep(host, Others(en, own), s)
  {
    hide Without, Hits;
    var added := Sub(en.next, s.patterns, Foreign(s.n), s.once);
    WithoutAppend(en.subs, [added], own);
    WithoutNone([added], own);
  }

  lemma UnsubscribedElsewhere(host: Host, en: Engine, id: nat, own: set<nat>, recorder: nat, stops: set<nat>)
    requires Accounted(en, own, recorder, stops) && id !in own
    ensures var x := Unsubscribe(en, id);
            Accounted(x, own, recorder, stops) && Others(x, own) == OthersStep(host, Others(en, own), UnsubscribeStep(id))
  {
    hide Without, Hits;
    WithoutMembers(en.subs, {id});
    WithoutTwice(en.subs, {id}, own);
    WithoutTwice(en.subs, own, {id});
    assert {id} + own == own + {id};
  }

  lemma OutsideStep(host: Host, en: Engine, s: Step, own: set<nat>, recorder: nat, stops: set<nat>)
    requires WellFormed(en) && Accounted(en, own, recorder, stops) && FromOutside(s, own)
    ensures var x := Apply(host, en, s);
            && WellFormed(x) && Accounted(x, own, recorder, stops) && x.hooks == en.hooks
            && Others(x, own) == OthersStep(host, Others(en, own), s)
  {
    OutsideEnabled(en, s, own, recorder, stops);
    StepKeeps(host, en, s);
    hide WellFormed, Accounted, Others, OthersStep, EmitEffect, Emit;
    match s {
      case EmitStep(e) =>
        EmitOne(host, en, e);
        EmitAccounted(host, en, e, own, recorder, stops);
        EmitForOthers(host, en, e, own);
      case ArmOtherStep(hook) => ArmedElsewhere(host, en, hook, own, recorder, stops);
      case SubscribeStep(_, _, _) => SubscribedElsewhere(host, en, s, own, recorder, stops);
      case UnsubscribeStep(id) => UnsubscribedElsewhere(host, en, id, own, recorder, stops);
    }
  }

  lemma OutsideEnabled(en: Engine, s: Step, own: set<nat>, recorder: nat, stops: set<nat>)
    requires Accounted(en, own, recorder, stops) && FromOutside(s, own)
    ensures Enabled(en, s)
  {
  }

  /** Whatever others do during a run, the run's subscriptions stay accounted
      for, and theirs change as they would without it. */
  lemma {:induction false} OutsideSteps(host: Host, en: Engine, steps: seq<Step>, own: set<nat>, recorder: nat, stops: set<nat>)
    requires WellFormed(en) && Accounted(en, own, recorder, stops) && forall s :: s in steps ==> FromOutside(s, own)
    ensures var x := After(host, en, steps);
            && WellFormed(x) && Accounted(x, own, recorder, stops) && x.hooks == en.hooks
            && Others(x, own) == OthersAfter(host, Others(en, own), steps)
  {
    hide WellFormed, Accounted, FromOutside, Apply, OthersStep, Others;
    if steps != [] {
      assert steps[|steps| - 1] in steps && forall s :: s in steps[..|steps| - 1] ==> s in steps;
      OutsideSteps(host, en, steps[..|steps| - 1], own, recorder, stops);
      OutsideStep(host, After(host, en, steps[..|steps| - 1]), steps[|steps| - 1], own, recorder, stops);
    }
  }

  // ----------------------------------------------------------------- setup

  /** So far the run took the ids from `lo` on, and the others see no change. */
  ghost predicate Wiring(en: Engine, subs0: seq<Sub>, lo: nat, stops: set<nat>) {
    && lo < en.next && WellFormed(en) && Accounted(en, Range(lo, en.next), lo, stops)
    && Without(en.subs, Range(lo, en.next)) == subs0
  }

  lemma OwnHidden(en: Engine, lo: nat, sub: Sub)
    requires IdsDistinct(en.subs, en.next) && lo <= en.next && sub.id == en.next
    ensures Without(en.subs + [sub], Range(lo, en.next + 1)) == Without(en.subs, Range(lo, en.next))
  {
    hide OneEach;
    WithoutAppend(en.subs, [sub], Range(lo, en.next + 1));
    WithoutSame(en.subs, Range(lo, en.next), Range(lo, en.next + 1));
  }

  lemma RecorderWired(en: Engine)
    requires WellFormed(en) && en.hooks == map[]
    ensures Wiring(Subscribe(en, ["*"], ForRecorder, false), en.subs, en.next, {})
  {
    hide OneEach, Without, SubsKnown, NamesOwn, HooksListen;
    var x := Subscribe(en, ["*"], ForRecorder, false);
    SubscribeKeeps(en, ["*"], ForRecorder, false);
    OwnHidden(en, en.next, Sub(en.next, ["*"], ForRecorder, false));
    WithoutNone(en.subs, Range(en.next, en.next));
  }

  lemma StopWired(en: Engine, subs0: seq<Sub>, lo: nat, stops: set<nat>, patterns: seq<string>, n: nat)
    requires Wiring(en, subs0, lo, stops)
    ensures Wiring(Subscribe(en, patterns, ForStop(n), false), subs0, lo, stops + {en.next})
  {
    hide OneEach, Without, SubsKnown, NamesOwn, HooksListen, KeysBelow;
    SubscribeKeeps(en, patterns, ForStop(n), false);
    OwnHidden(en, lo, Sub(en.next, patterns, ForStop(n), false));
    assert forall s :: s in en.subs ==> s.id < en.next;
  }

  lemma HookWired(en: Engine, subs0: seq<Sub>, lo: nat, stops: set<nat>, hook: Hook)
    requires Wiring(en, subs0, lo, stops)
    ensures Wiring(Arm(en, hook), subs0, lo, stops)
  {
    hide OneEach, Without, SubsKnown, NamesOwn, HooksListen;
    NewHookKeeps(en, hook);
    OwnHidden(en, lo, Sub(en.next, hook.when, ForHook(en.nextKey, hook), false));
    assert forall s :: s in en.subs ==> s.id < en.next;
  }

  // --------------------------------------------------------------- cleanup

  lemma StopUnwired(en: Engine, own: set<nat>, recorder: nat, stops: set<nat>, id: nat)
    requires WellFormed(en) && Accounted(en, own, recorder, stops) && id in stops
    ensures var x := Unsubscribe(en, id);
            && WellFormed(x) && Accounted(x, own, recorder, stops - {id}) && Others(x, own) == Others(en, own)
            && id in own && forall s :: s in x.subs ==> s.id != id
  {
    StopIsNoHook(en, own, recorder, stops, id);
    hide WellFormed, Without;
    UnsubscribeKeeps(en, id);
    OwnGone(en, own, id);
    WithoutMembers(en.subs, {id});
  }

  lemma StopIsNoHook(en: Engine, own: set<nat>, recorder: nat, stops: set<nat>, id: nat)
    requires WellFormed(en) && Accounted(en, own, recorder, stops) && (id == recorder || id in stops)
    ensures Enabled(en, UnsubscribeStep(id))
  {
    forall key | key in en.hooks && key in en.subIds ensures en.subIds[key] != id {
      assert Listens(en.subs, en.subIds, key, en.hooks[key]);
    }
  }

  lemma OwnGone(en: Engine, own: set<nat>, id: nat)
    requires id in own
    ensures Without(Without(en.subs, {id}), own) == Without(en.subs, own)
  {
    WithoutTwice(en.subs, {id}, own);
    assert {id} + own == own;
  }

  lemma HookUnwired(en: Engine, own: set<nat>, recorder: nat, stops: set<nat>, key: nat)
    requires WellFormed(en) && Accounted(en, own, recorder, stops) && key in en.hooks
    ensures var x := Remove(en, key);
            && WellFormed(x) && Accounted(x, own, recorder, stops) && Others(x, own) == Others(en, own)
            && x.hooks == en.hooks - {key}
  {
    RemoveKeeps(en, key);
    hide WellFormed, Without;
    if key in en.subIds {
      OwnGone(en, own, en.subIds[key]);
      WithoutMembers(en.subs, {en.subIds[key]});
    }
    forall s | s in Remove(en, key).subs && s.id in own ensures AccountedSub(s, en.hooks - {key}, recorder, stops) {
      assert s in en.subs && !IsFor(s, key);
      assert AccountedSub(s, en.hooks, recorder, stops);
    }
  }

  lemma RecorderUnwired(en: Engine, own: set<nat>, recorder: nat)
    requires WellFormed(en) && Accounted(en, own, recorder, {}) && en.hooks == map[]
    ensures Unsubscribe(en, recorder).subs == Without(en.subs, own)
    ensures WellFormed(Unsubscribe(en, recorder))
  {
    UnsubscribeKeeps(en, recorder);
    hide WellFormed, Without;
    WithoutSame(en.subs, {recorder}, own);
  }

  // ------------------------------------------------------------ the runner

  /** The patterns of a stop condition, `None` when it is skipped. */
  function StopPatterns(spec: Entries): Option<seq<string>> {
    if Truthy(Get(spec, "event")) then WhenOf(Get(spec, "event")) else None
  }

  /** Making the handler of a stop condition raises: `dict(match or {})`. */
  predicate StopRaises(spec: Entries) {
    Truthy(Get(spec, "event")) && !MakesMapping(Get(spec, "match"))
  }

  /** A stop condition that waits for something waits for a named event. */
  predicate StopNamed(spec: Entries) {
    Truthy(Get(spec, "event")) ==> Get(spec, "event").Str?
  }

  function ArmedCount(host: Host, hs: seq<Entries>): nat {
    if hs == [] then 0
    else ArmedCount(host, hs[..|hs| - 1]) + if HookOf(host, hs[|hs| - 1]).Some? then 1 else 0
  }

  function StopCount(ss: seq<Entries>): nat {
    if ss == [] then 0 else StopCount(ss[..|ss| - 1]) + if StopPatterns(ss[|ss| - 1]).Some? then 1 else 0
  }

  /** How many subscriptions a run makes: recorder, hooks, stop conditions. */
  function OwnCount(host: Host, s: Scenario): nat {
    1 + ArmedCount(host, s.hooks) + StopCount(s.stopOn)
  }

  /** The subscriptions of the hooks that build, from the given ids on. */
  function HookSubs(host: Host, hs: seq<Entries>, id: nat, key: nat): seq<Sub> {
    if hs == [] then []
    else
      var before, n := hs[..|hs| - 1], ArmedCount(host, hs[..|hs| - 1]);
      HookSubs(host, before, id, key)
      + match HookOf(host, hs[|hs| - 1])
        case None => []
        case Some(h) => [Sub(id + n, h.when, ForHook(key + n, h), false)]
  }

  /** The subscriptions of the stop conditions with an event. */
  function StopSubs(ss: seq<Entries>, id: nat): seq<Sub> {
    if ss == [] then []
    else
      var before := ss[..|ss| - 1];
      StopSubs(before, id)
      + match StopPatterns(ss[|ss| - 1])
        case None => []
        case Some(patterns) => [Sub(id + StopCount(before), patterns, ForStop(|before|), false)]
  }

  lemma StopsNone(id: nat)
    ensures StopSubs([], id) == [] && StopCount([]) == 0 && Ids([]) == {}
  {
  }

  lemma StopsGrow(ss: seq<Entries>, i: nat, id: nat)
    requires i < |ss|
    ensures StopCount(ss[..i + 1]) == StopCount(ss[..i]) + if StopPatterns(ss[i]).Some? then 1 else 0
    ensures StopSubs(ss[..i + 1], id) ==
            StopSubs(ss[..i], id)
            + if StopPatterns(ss[i]).Some?
              then [Sub(id + StopCount(ss[..i]), StopPatterns(ss[i]).value, ForStop(i), false)] else []
  {
    hide StopPatterns;
    assert ss[..i + 1][..i] == ss[..i];
  }

  /** What a run that raises at its `k`th stop condition leaves on the bus:
      the recorder, its hooks, the stop conditions before that one. */
  function LeftBehind(host: Host, s: Scenario, k: nat, id: nat, key: nat): seq<Sub>
    requires k <= |s.stopOn|
  {
    [Sub(id, ["*"], ForRecorder, false)]
    + HookSubs(host, s.hooks, id + 1, key)
    + StopSubs(s.stopOn[..k], id + 1 + ArmedCount(host, s.hooks))
  }

  /** The replayed registrations of the scenario's phones. */
  function Replays(phones: seq<string>, registered: map<string, Entries>): seq<Step> {
    if phones == [] then []
    else
      var p := phones[|phones| - 1];
      Replays(phones[..|phones| - 1], registered)
      + if p in registered then [EmitStep(Event("reg.success", Some(p), None, registered[p]))] else []
  }

  function Started(s: Scenario): Step {
    EmitStep(Event("scenario.started", None, None, [("name", Str(s.name))]))
  }

  function Stopped(status: string, reason: string): Step {
    EmitStep(Event("scenario.stopped", None, None, [("status", Str(status)), ("reason", Str(reason))]))
  }

  /** Everything that happens on the bus between wiring and the end of the run. */
  function OnBus(s: Scenario, registered: map<string, Entries>, during: seq<Step>, status: string, reason: string): seq<Step> {
    Replays(s.phones, registered) + [Started(s)] + during + [Stopped(status, reason)]
  }

  lemma {:induction false} AfterAppend(host: Host, en: Engine, a: seq<Step>, b: seq<Step>)
    ensures After(host, en, a + b) == After(host, After(host, en, a), b)
  {
    hide Apply;
    if b == [] {
      assert a + b == a;
    } else {
      AfterAppend(host, en, a, b[..|b| - 1]);
      assert (a + b)[..|a + b| - 1] == a + b[..|b| - 1];
    }
  }

  lemma {:induction false} OthersAppend(host: Host, b: Bus, x: seq<Step>, y: seq<Step>)
    ensures OthersAfter(host, b, x + y) == OthersAfter(host, OthersAfter(host, b, x), y)
  {
    hide OthersStep;
    if y == [] {
      assert x + y == x;
    } else {
      OthersAppend(host, b, x, y[..|y| - 1]);
      assert (x + y)[..|x + y| - 1] == x + y[..|y| - 1];
    }
  }

  lemma {:induction false} ReplaysAreEmits(phones: seq<string>, registered: map<string, Entries>)
    ensures forall s :: s in Replays(phones, registered) ==> s.EmitStep?
  {
    if phones != [] {
      ReplaysAreEmits(phones[..|phones| - 1], registered);
    }
  }

  // ------------------------------------------------- what validation leaves

  lemma {:induction false} NoStopIssues(host: Host, ss: seq<Entries>, k: nat)
    requires StopIssues(host, ss) == [] && k < |ss|
    ensures Get(ss[k], "event") == Null || IsKnownEvent(AsText(host, Get(ss[k], "event")))
  {
    hide IsKnownEvent, AsText;
    if k < |ss| - 1 {
      NoStopIssues(host, ss[..|ss| - 1], k);
    }
  }

  /** In a valid scenario every stop condition with an event names it by a string. */
  lemma ValidStopsAreNamed(host: Host, s: Scenario, k: nat)
    requires Validated(host, s) == Issues([]) && k < |s.stopOn|
    ensures StopNamed(s.stopOn[k])
  {
    hide IsKnownEvent, AsText, AllHookIssues, StopIssues, InitialIssues;
    CleanReport(host, s);
    NoStopIssues(host, s.stopOn, k);
    var ev := Get(s.stopOn[k], "event");
    if ev != Null {
      OnlyStringsAreEvents(host, ev);
    }
  }

  /** A text as the `match` of a stop condition passes validation and makes the
      run raise. */
  lemma ValidationMissesStops(host: Host)
    ensures var st: Entries := [("event", Str("reg.success")), ("match", Str("x"))];
            Validated(host, Scenario("s", [], [], [], [st])) == Issues([]) && StopRaises(st)
  {
    hide IsKnownEvent;
    RegIsKnown();
    var st: Entries := [("event", Str("reg.success")), ("match", Str("x"))];
    assert st[1..] == [("match", Str("x"))] && Lookup(st[1..], "match") == Some(Str("x"));
    assert [st][..0] == [] && StopIssues(host, []) == [];
    assert StopIssues(host, [st]) == [];
  }

  /** The bus and the hook objects are in a state that runs leave. */
  ghost predicate Sound(bus: EventBus, objects: HookObjects)
    reads bus, objects
  {
    WellFormed(Engine(bus.subs, bus.nextId, objects.subIds, objects.nextKey, map[], objects.log))
  }

  class ScenarioRunner {
    const bus: EventBus
    const objects: HookObjects
    const host: Host

    constructor (bus: EventBus, objects: HookObjects, host: Host)
      ensures this.bus == bus && this.objects == objects && this.host == host
    {
      this.bus, this.objects, this.host := bus, objects, host;
    }

    /** `failed` lists the hooks that raise; the others are armed. */
    method ArmHooks(rt: HookRuntime, hs: seq<Entries>, ghost subs0: seq<Sub>, ghost lo: nat) returns (failed: seq<nat>)
      requires rt.bus == bus && rt.objects == objects && rt.host == host && Wiring(rt.View(), subs0, lo, {})
      modifies rt, bus, objects
      ensures Wiring(rt.View(), subs0, lo, {}) && rt.View().next == old(rt.View().next) + ArmedCount(host, hs)
      ensures rt.View().nextKey == old(rt.View().nextKey) + ArmedCount(host, hs)
      ensures rt.View().subs ==
              old(rt.View().subs) + HookSubs(host, hs, old(rt.View().next), old(rt.View().nextKey))
      ensures forall i :: i in failed <==> 0 <= i < |hs| && HookOf(host, hs[i]).None?
    {
      hide HookOf, Wiring, Arm;
      failed := [];
      ghost var was := rt.View();
      for i := 0 to |hs|
        invariant Wiring(rt.View(), subs0, lo, {}) && rt.View().next == was.next + ArmedCount(host, hs[..i])
        invariant rt.View().nextKey == was.nextKey + ArmedCount(host, hs[..i])
        invariant rt.View().subs == was.subs + HookSubs(host, hs[..i], was.next, was.nextKey)
        invariant forall j :: j in failed <==> 0 <= j < i && HookOf(host, hs[j]).None?
      {
        assert hs[..i + 1][..i] == hs[..i];
        ghost var before := rt.View();
        if HookOf(host, hs[i]).Some? {
          HookWired(before, subs0, lo, {}, HookOf(host, hs[i]).value);
          ArmNext(before, HookOf(host, hs[i]).value);
        }
        var ok := rt.ArmSpec(hs[i]);
        if !ok {
          failed := failed + [i];
        }
      }
      assert hs[..|hs|] == hs;
    }

    lemma ArmNext(en: Engine, hook: Hook)
      ensures var x := Arm(en, hook);
              && x.next == en.next + 1 && x.nextKey == en.nextKey + 1
              && x.subs == en.subs + [Sub(en.next, hook.when, ForHook(en.nextKey, hook), false)]
    {
    }

    /** The stop conditions subscribe, up to one that raises. */
    method SubscribeStops(rt: HookRuntime, ss: seq<Entries>, ghost subs0: seq<Sub>, ghost lo: nat)
      returns (ids: seq<nat>, raised: Option<nat>)
      requires rt.bus == bus && rt.objects == objects && Wiring(rt.View(), subs0, lo, {})
      requires forall k :: 0 <= k < |ss| ==> StopNamed(ss[k])
      modifies bus
      ensures raised.None? <==> forall k :: 0 <= k < |ss| ==> !StopRaises(ss[k])
      ensures raised.Some? ==> raised.value < |ss| && StopRaises(ss[raised.value])
                               && forall k :: 0 <= k < raised.value ==> !StopRaises(ss[k])
      ensures var done := if raised.Some? then ss[..raised.value] else ss;
              && Wiring(rt.View(), subs0, lo, Ids(ids)) && rt.View().next == old(rt.View().next) + StopCount(done)
              && rt.View().subs == old(rt.View().subs) + StopSubs(done, old(rt.View().next))
    {
      hide Wiring, MakesMapping, StopSubs, StopCount, Ids, Lookup;
      ids, raised := [], None;
      StopsNone(bus.nextId);
      ghost var was := rt.View();
      for i := 0 to |ss|
        invariant Wiring(rt.View(), subs0, lo, Ids(ids))
        invariant rt.View().next == was.next + StopCount(ss[..i])
        invariant rt.View().subs == was.subs + StopSubs(ss[..i], was.next)
        invariant forall k :: 0 <= k < i ==> !StopRaises(ss[k])
      {
        StopsGrow(ss, i, was.next);
        var ev := Get(ss[i], "event");
        assert StopNamed(ss[i]);
        if !Truthy(ev) {
          continue;
        }
        if !MakesMapping(Get(ss[i], "match")) {
          return ids, Some(i);
        }
        StopWired(rt.View(), subs0, lo, Ids(ids), [ev.s], i);
        IdsAppend(ids, bus.nextId);
        var id := bus.Subscribe([ev.s], ForStop(i), false);
        ids := ids + [id];
      }
      assert ss[..|ss|] == ss;
    }

    /** Each phone that is registered gets its `reg.success` again. */
    method ReplayRegistrations(rt: HookRuntime, phones: seq<string>, registered: map<string, Entries>)
      requires rt.bus == bus && rt.objects == objects && rt.host == host
      modifies bus, objects
      ensures rt.View() == After(host, old(rt.View()), Replays(phones, registered))
    {
      hide Emit;
      for i := 0 to |phones|
        invariant rt.View() == After(host, old(rt.View()), Replays(phones[..i], registered))
      {
        assert phones[..i + 1][..i] == phones[..i];
        var p := phones[i];
        ghost var before := Replays(phones[..i], registered);
        assert before + [] == before;
        if p in registered {
          var e := Event("reg.success", Some(p), None, registered[p]);
          assert (before + [EmitStep(e)])[..|before|] == before;
          rt.EmitEvent(e);
        }
      }
      assert phones[..|phones|] == phones;
    }

    /** What happens on the bus while the run awaits. */
    method Await(rt: HookRuntime, during: seq<Step>, ghost own: set<nat>)
      requires rt.bus == bus && rt.objects == objects && rt.host == host
      requires forall s :: s in during ==> FromOutside(s, own)
      modifies bus, objects
      ensures rt.View() == After(host, old(rt.View()), during)
    {
      hide Emit, Without;
      for i := 0 to |during|
        invariant rt.View() == After(host, old(rt.View()), during[..i])
      {
        assert during[..i + 1][..i] == during[..i] && during[i] in during;
        match during[i] {
          case EmitStep(e) => rt.EmitEvent(e);
          case ArmOtherStep(hook) => var _ := rt.MakeHook(hook);
          case SubscribeStep(patterns, n, once) => var _ := bus.Subscribe(patterns, Foreign(n), once);
          case UnsubscribeStep(id) => bus.Unsubscribe(id);
        }
      }
      assert during[..|during|] == during;
    }

    method UnsubscribeStops(rt: HookRuntime, ids: seq<nat>, ghost own: set<nat>, ghost recorder: nat)
      requires rt.bus == bus && WellFormed(rt.View()) && Accounted(rt.View(), own, recorder, Ids(ids))
      modifies bus`subs
      ensures WellFormed(rt.View()) && Accounted(rt.View(), own, recorder, {})
      ensures Others(rt.View(), own) == Others(old(rt.View()), own)
    {
      hide WellFormed, Accounted, Others, Without;
      for i := 0 to |ids|
        invariant WellFormed(rt.View()) && Accounted(rt.View(), own, recorder, Ids(ids[i..]))
        invariant Others(rt.View(), own) == Others(old(rt.View()), own)
      {
        assert ids[i..] == [ids[i]] + ids[i + 1..];
        StopUnwired(rt.View(), own, recorder, Ids(ids[i..]), ids[i]);
        bus.Unsubscribe(ids[i]);
        FewerStops(rt.View(), own, recorder, Ids(ids[i..]) - {ids[i]}, Ids(ids[i + 1..]), ids[i]);
      }
      assert Ids(ids[|ids|..]) == {};
    }

    lemma FewerStops(en: Engine, own: set<nat>, recorder: nat, stops: set<nat>, others: set<nat>, id: nat)
      requires Accounted(en, own, recorder, stops) && stops <= others && others <= stops + {id} && id in own
      requires forall s :: s in en.subs ==> s.id != id
      ensures Accounted(en, own, recorder, others)
    {
    }

    /** `remove_all` */
    method RemoveHooks(rt: HookRuntime, ghost own: set<nat>, ghost recorder: nat)
      requires rt.bus == bus && WellFormed(rt.View()) && Accounted(rt.View(), own, recorder, {})
      modifies rt`hooks, bus`subs
      ensures WellFormed(rt.View()) && Accounted(rt.View(), own, recorder, {}) && rt.hooks == map[]
      ensures Others(rt.View(), own) == Others(old(rt.View()), own)
    {
      hide WellFormed, Accounted, Others, Remove;
      while rt.hooks.Keys != {}
        invariant WellFormed(rt.View()) && Accounted(rt.View(), own, recorder, {})
        invariant Others(rt.View(), own) == Others(old(rt.View()), own)
        decreases |rt.hooks|
      {
        var key :| key in rt.hooks;
        HookUnwired(rt.View(), own, recorder, {}, key);
        rt.RemoveHook(key);
      }
    }

    /** `run`.  A scenario that does not validate leaves the bus as it was.  A
        valid one reaches its clean-up if and only if each stop condition with
        an event has a `match` that makes a mapping; then, whatever others do on
        the bus meanwhile, it ends with exactly the subscriptions it did not
        create: those that were there, changed as the emits and the others' own
        steps change them.  Else it raises at the first other stop condition,
        and what it subscribed until then stays. */
    method RunScenario(s: Scenario, registered: map<string, Entries>, during: seq<Step>, status: string, reason: string)
      returns (report: Report, raised: Option<nat>, failed: seq<nat>)
      requires Sound(bus, objects)
      requires forall t :: t in during ==> FromOutside(t, Range(bus.nextId, bus.nextId + OwnCount(host, s)))
      modifies bus, objects
      ensures Sound(bus, objects)
      ensures report == Validated(host, s)
      ensures report != Issues([]) ==> bus.subs == old(bus.subs)
      ensures report == Issues([]) ==>
        && (forall i :: i in failed <==> 0 <= i < |s.hooks| && HookOf(host, s.hooks[i]).None?)
        && (raised.None? <==> forall k :: 0 <= k < |s.stopOn| ==> !StopRaises(s.stopOn[k]))
      ensures report == Issues([]) && raised.None? ==>
        var b := Bus(old(bus.subs), old(bus.nextId) + OwnCount(host, s), old(objects.nextKey) + ArmedCount(host, s.hooks));
        Bus(bus.subs, bus.nextId, objects.nextKey) == OthersAfter(host, b, OnBus(s, registered, during, status, reason))
      ensures report == Issues([]) && raised.Some? ==>
        && raised.value < |s.stopOn| && StopRaises(s.stopOn[raised.value])
        && (forall k :: 0 <= k < raised.value ==> !StopRaises(s.stopOn[k]))
        && bus.subs == old(bus.subs) + LeftBehind(host, s, raised.value, old(bus.nextId), old(objects.nextKey))
    {
      hide Validated, OwnCount, OnBus, OthersAfter, HookOf, FromOutside, WellFormed, LeftBehind, StopRaises, StopNamed;
      failed, raised := [], None;
      report := ValidateScenario(host, s);
      if report.Raised? {
        return;
      }
      if report.list != [] {
        FailedRun();
        return;
      }
      forall k | 0 <= k < |s.stopOn| ensures StopNamed(s.stopOn[k]) {
        ValidStopsAreNamed(host, s, k);
      }
      raised, failed := WiredRun(s, registered, during, status, reason);
    }

    /** The recorder of a run that is refused. */
    method FailedRun()
      requires Sound(bus, objects)
      modifies bus
      ensures Sound(bus, objects) && bus.subs == old(bus.subs)
    {
      hide WellFormed, Without, Accounted, Wiring, Others, Subscribe, Range;
      var rt := new HookRuntime(bus, objects, host);
      ghost var subs0, lo := bus.subs, bus.nextId;
      RecorderWired(rt.View());
      RecorderNext(rt.View());
      var recorder := bus.Subscribe(["*"], ForRecorder, false);
      Wired(rt.View(), subs0, lo, {});
      RecorderUnwired(rt.View(), Range(lo, bus.nextId), lo);
      SameBus(rt.View(), Range(lo, bus.nextId));
      bus.Unsubscribe(recorder);
    }

    method WiredRun(s: Scenario, registered: map<string, Entries>, during: seq<Step>, status: string, reason: string)
      returns (raised: Option<nat>, failed: seq<nat>)
      requires Sound(bus, objects) && forall k :: 0 <= k < |s.stopOn| ==> StopNamed(s.stopOn[k])
      requires forall t :: t in during ==> FromOutside(t, Range(bus.nextId, bus.nextId + OwnCount(host, s)))
      modifies bus, objects
      ensures Sound(bus, objects)
      ensures forall i :: i in failed <==> 0 <= i < |s.hooks| && HookOf(host, s.hooks[i]).None?
      ensures raised.None? <==> forall k :: 0 <= k < |s.stopOn| ==> !StopRaises(s.stopOn[k])
      ensures raised.None? ==>
        var b := Bus(old(bus.subs), old(bus.nextId) + OwnCount(host, s), old(objects.nextKey) + ArmedCount(host, s.hooks));
        Bus(bus.subs, bus.nextId, objects.nextKey) == OthersAfter(host, b, OnBus(s, registered, during, status, reason))
      ensures raised.Some? ==>
        && raised.value < |s.stopOn| && StopRaises(s.stopOn[raised.value])
        && (forall k :: 0 <= k < raised.value ==> !StopRaises(s.stopOn[k]))
        && bus.subs == old(bus.subs) + LeftBehind(host, s, raised.value, old(bus.nextId), old(objects.nextKey))
    {
      hide WellFormed, Accounted, Wiring, HookOf, Without, OthersAfter, After, Replays, Others, FromOutside,
        ArmedCount, StopCount, Subscribe, StopRaises, StopNamed, HookSubs, StopSubs, Range;
      var rt := new HookRuntime(bus, objects, host);
      ghost var subs0, lo := bus.subs, bus.nextId;
      RecorderWired(rt.View());
      RecorderNext(rt.View());
      var recorder := bus.Subscribe(["*"], ForRecorder, false);
      failed := ArmHooks(rt, s.hooks, subs0, lo);
      var stopIds;
      stopIds, raised := SubscribeStops(rt, s.stopOn, subs0, lo);
      ghost var wired := rt.View();
      if raised.Some? {
        Abandoned(wired, subs0, lo, Ids(stopIds));
        return;
      }
      CleanRun(rt, s, stopIds, registered, during, status, reason, subs0, recorder);
    }

    /** The run once everything is wired. */
    method CleanRun(rt: HookRuntime, s: Scenario, stopIds: seq<nat>, registered: map<string, Entries>,
                    during: seq<Step>, status: string, reason: string, ghost subs0: seq<Sub>, recorder: nat)
      requires rt.bus == bus && rt.objects == objects && rt.host == host
      requires Wiring(rt.View(), subs0, recorder, Ids(stopIds))
      requires forall t :: t in during ==> FromOutside(t, Range(recorder, bus.nextId))
      modifies rt`hooks, bus, objects
      ensures Sound(bus, objects)
      ensures Bus(bus.subs, bus.nextId, objects.nextKey) ==
              OthersAfter(host, Bus(subs0, old(bus.nextId), old(objects.nextKey)),
                          OnBus(s, registered, during, status, reason))
    {
      hide WellFormed, Accounted, Wiring, Without, OthersAfter, After, Replays, Others, FromOutside, Range;
      ghost var own := Range(recorder, bus.nextId);
      ghost var wired := rt.View();
      Wired(wired, subs0, recorder, Ids(stopIds));
      EmitIsOutside(Started(s), own);
      EmitIsOutside(Stopped(status, reason), own);
      ReplayRegistrations(rt, s.phones, registered);
      Await(rt, [Started(s)], own);
      Await(rt, during, own);
      ghost var early := Replays(s.phones, registered) + [Started(s)] + during;
      EarlySteps(host, wired, s, registered, during, own, recorder, Ids(stopIds));
      UnsubscribeStops(rt, stopIds, own, recorder);
      RemoveHooks(rt, own, recorder);
      ghost var quiet := rt.View();
      Await(rt, [Stopped(status, reason)], own);
      LastStep(host, quiet, Stopped(status, reason), own, recorder);
      RecorderUnwired(rt.View(), own, recorder);
      SameBus(rt.View(), own);
      bus.Unsubscribe(recorder);
      OthersAppend(host, Bus(subs0, wired.next, wired.nextKey), early, [Stopped(status, reason)]);
    }
  }

  lemma RecorderNext(en: Engine)
    ensures Subscribe(en, ["*"], ForRecorder, false) ==
            en.(subs := en.subs + [Sub(en.next, ["*"], ForRecorder, false)], next := en.next + 1)
  {
  }

  lemma Wired(en: Engine, subs0: seq<Sub>, lo: nat, stops: set<nat>)
    requires Wiring(en, subs0, lo, stops)
    ensures WellFormed(en) && Accounted(en, Range(lo, en.next), lo, stops)
    ensures Others(en, Range(lo, en.next)) == Bus(subs0, en.next, en.nextKey)
  {
  }

  /** A run that raises: its hooks stay armed, and no table holds them. */
  lemma Abandoned(en: Engine, subs0: seq<Sub>, lo: nat, stops: set<nat>)
    requires Wiring(en, subs0, lo, stops)
    ensures WellFormed(en.(hooks := map[]))
  {
    hide Without, Accounted, OneEach;
  }

  /** The steps up to the clean-up, as the others see them. */
  lemma EarlySteps(host: Host, en: Engine, s: Scenario, registered: map<string, Entries>, during: seq<Step>,
                   own: set<nat>, recorder: nat, stops: set<nat>)
    requires WellFormed(en) && Accounted(en, own, recorder, stops)
    requires forall t :: t in during ==> FromOutside(t, own)
    ensures var early := Replays(s.phones, registered) + [Started(s)] + during;
            var x := After(host, After(host, After(host, en, Replays(s.phones, registered)), [Started(s)]), during);
            && WellFormed(x) && Accounted(x, own, recorder, stops)
            && Others(x, own) == OthersAfter(host, Others(en, own), early)
  {
    hide WellFormed, Accounted, Others, After, OthersAfter, Replays;
    var replays := Replays(s.phones, registered);
    ReplaysAreEmits(s.phones, registered);
    AfterAppend(host, en, replays, [Started(s)]);
    AfterAppend(host, en, replays + [Started(s)], during);
    OutsideSteps(host, en, replays + [Started(s)] + during, own, recorder, stops);
  }

  lemma LastStep(host: Host, en: Engine, s: Step, own: set<nat>, recorder: nat)
    requires WellFormed(en) && Accounted(en, own, recorder, {}) && FromOutside(s, own) && en.hooks == map[]
    ensures var x := After(host, en, [s]);
            && WellFormed(x) && Accounted(x, own, recorder, {}) && x.hooks == map[]
            && Others(x, own) == OthersAfter(host, Others(en, own), [s])
  {
    hide WellFormed, Accounted, Others, Apply, OthersStep;
    OutsideSteps(host, en, [s], own, recorder, {});
  }

  lemma EmitIsOutside(s: Step, own: set<nat>)
    requires s.EmitStep?
    ensures FromOutside(s, own)
  {
  }

  lemma SameBus(en: Engine, own: set<nat>)
    ensures Others(en, own) == Bus(Without(en.subs, own), en.next, en.nextKey)
  {
  }

  function Ids(xs: seq<nat>): set<nat> {
    set x | x in xs
  }

  lemma IdsAppend(xs: seq<nat>, x: nat)
    ensures Ids(xs + [x]) == Ids(xs) + {x}
  {
  }
}
