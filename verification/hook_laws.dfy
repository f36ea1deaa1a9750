/** When an armed hook dispatches, over any sequence of emits. */
module HookLaws {
  import opened Text
  import opened Values
  import opened EventMatching
  import opened EventHub
  import opened HookRuntimes

  // ------------------------------------------------------------- invariant

  predicate OneEach(subs: seq<Sub>) {
    forall i, j :: 0 <= i < j < |subs| ==> subs[i].id != subs[j].id
  }

  /** Subscription ids are handed out once. */
  ghost predicate IdsDistinct(subs: seq<Sub>, next: nat) {
    OneEach(subs) && forall s :: s in subs ==> s.id < next
  }

  function SubOf(key: nat, hook: Hook, id: nat): Sub {
    Sub(id, hook.when, ForHook(key, hook), false)
  }

  /** A hook's subscription on the bus is the one its `sub_id` names. */
  predicate Known(s: Sub, subIds: map<nat, nat>) {
    s.handler.ForHook? ==> s.handler.key in subIds && s == SubOf(s.handler.key, s.handler.hook, subIds[s.handler.key])
  }

  ghost predicate SubsKnown(subs: seq<Sub>, subIds: map<nat, nat>) {
    forall s :: s in subs ==> Known(s, subIds)
  }

  predicate IsFor(s: Sub, key: nat) {
    s.handler.ForHook? && s.handler.key == key
  }

  /** A `sub_id` names no other code's subscription. */
  ghost predicate NamesOwn(subs: seq<Sub>, subIds: map<nat, nat>) {
    forall key, s :: key in subIds && s in subs && s.id == subIds[key] ==> IsFor(s, key)
  }

  /** A live hook has its subscription on the bus. */
  predicate Listens(subs: seq<Sub>, subIds: map<nat, nat>, key: nat, hook: Hook) {
    key in subIds ==> SubOf(key, hook, subIds[key]) in subs
  }

  ghost predicate HooksListen(subs: seq<Sub>, subIds: map<nat, nat>, hooks: map<nat, Hook>) {
    forall key :: key in hooks ==> Listens(subs, subIds, key, hooks[key])
  }

  /** Hook ids are handed out once. */
  ghost predicate KeysBelow(subIds: map<nat, nat>, hooks: map<nat, Hook>, next: nat, nextKey: nat) {
    && (forall key :: key in subIds ==> key < nextKey && subIds[key] < next)
    && (forall key :: key in hooks ==> key < nextKey)
  }

  ghost predicate WellFormed(en: Engine) {
    && IdsDistinct(en.subs, en.next) && SubsKnown(en.subs, en.subIds) && NamesOwn(en.subs, en.subIds)
    && HooksListen(en.subs, en.subIds, en.hooks) && KeysBelow(en.subIds, en.hooks, en.next, en.nextKey)
  }

  /** No subscription calls the hook back. */
  ghost predicate OffBus(subs: seq<Sub>, key: nat) {
    forall s :: s in subs ==> !IsFor(s, key)
  }

  // ---------------------------------------------------------- observations

  /** The events a hook's action chain was started for, in order. */
  function DispatchedTo(log: seq<(nat, Event)>, key: nat): seq<Event> {
    if log == [] then []
    else
      var last := log[|log| - 1];
      DispatchedTo(log[..|log| - 1], key) + if last.0 == key then [last.1] else []
  }

  /** The event has the hook's type, phone and predicates. */
  predicate Wants(host: Host, h: Hook, e: Event) {
    MatchesKind(h.when, e.kind) && HookMatches(host, h, e)
  }

  /** The subscription calls back a hook that the event matches. */
  predicate Calls(host: Host, s: Sub, e: Event) {
    s.handler.ForHook? && HookMatches(host, s.handler.hook, e)
  }

  predicate Fired(host: Host, hits: seq<Sub>, e: Event, key: nat) {
    exists s :: s in hits && IsFor(s, key) && Calls(host, s, e)
  }

  predicate Spends(host: Host, s: Sub, e: Event) {
    Calls(host, s, e) && s.handler.hook.once
  }

  /** The subscriptions that fired once-hooks give up. */
  function SpentIds(host: Host, hits: seq<Sub>, e: Event): set<nat> {
    set s | s in hits && Spends(host, s, e) :: s.id
  }

  function SpentKeys(host: Host, hits: seq<Sub>, e: Event): set<nat> {
    set s | s in hits && Spends(host, s, e) :: s.handler.key
  }

  // ------------------------------------------------------------- one emit

  /** What calling back a list of subscriptions does. */
  ghost predicate Delivered(host: Host, en: Engine, x: Engine, hits: seq<Sub>, e: Event) {
    && x.next == en.next && x.nextKey == en.nextKey && x.hooks == en.hooks
    && x.subs == Without(en.subs, SpentIds(host, hits, e))
    && x.subIds == en.subIds - SpentKeys(host, hits, e)
    && forall key :: LogDelivered(host, en, x, hits, e, key)
  }

  predicate LogDelivered(host: Host, en: Engine, x: Engine, hits: seq<Sub>, e: Event, key: nat) {
    DispatchedTo(x.log, key) == DispatchedTo(en.log, key) + if Fired(host, hits, e, key) then [e] else []
  }

  lemma DispatchedAppend(log: seq<(nat, Event)>, k: nat, e: Event, key: nat)
    ensures DispatchedTo(log + [(k, e)], key) == DispatchedTo(log, key) + if k == key then [e] else []
  {
    assert (log + [(k, e)])[..|log|] == log;
  }

  lemma FiredAppend(host: Host, hits: seq<Sub>, s: Sub, e: Event, key: nat)
    ensures Fired(host, hits + [s], e, key) <==> Fired(host, hits, e, key) || (IsFor(s, key) && Calls(host, s, e))
  {
    hide Calls, IsFor;
    if Fired(host, hits, e, key) {
      var t :| t in hits && IsFor(t, key) && Calls(host, t, e);
      assert t in hits + [s];
    }
    assert s in hits + [s];
  }

  lemma SpentAppend(host: Host, hits: seq<Sub>, s: Sub, e: Event)
    ensures SpentIds(host, hits + [s], e) == SpentIds(host, hits, e) + if Spends(host, s, e) then {s.id} else {}
    ensures SpentKeys(host, hits + [s], e) == SpentKeys(host, hits, e) + if Spends(host, s, e) then {s.handler.key} else {}
  {
    hide Calls;
  }

  lemma {:induction false} DeliverAllEffect(host: Host, en: Engine, hits: seq<Sub>, e: Event)
    requires SubsKnown(en.subs, en.subIds) && forall s :: s in hits ==> s in en.subs
    requires OneEach(hits)
    ensures Delivered(host, en, DeliverAll(host, en, hits, e), hits, e)
  {
    hide Calls, Without, SubsKnown, Deliver, SpentIds, SpentKeys, Delivered;
    if hits == [] {
      NothingDelivered(host, en, e);
    } else {
      var before, s := hits[..|hits| - 1], hits[|hits| - 1];
      assert hits == before + [s];
      DeliverAllEffect(host, en, before, e);
      assert s in hits;
      NotCalledYet(en, before, s);
      DeliverOne(host, en, DeliverAll(host, en, before, e), before, s, e);
    }
  }

  lemma NothingDelivered(host: Host, en: Engine, e: Event)
    ensures Delivered(host, en, en, [], e)
  {
    hide Calls;
    WithoutNone(en.subs, {});
    assert SpentIds(host, [], e) == {} && SpentKeys(host, [], e) == {};
    assert en.subIds - {} == en.subIds;
  }

  /** The hook of the next subscription was not called back before. */
  lemma NotCalledYet(en: Engine, before: seq<Sub>, s: Sub)
    requires SubsKnown(en.subs, en.subIds) && s in en.subs && forall t :: t in before ==> t in en.subs
    requires forall t :: t in before ==> t.id != s.id
    ensures Known(s, en.subIds)
    ensures s.handler.ForHook? ==> OffBus(before, s.handler.key)
  {
    forall t | t in before && s.handler.ForHook? ensures !IsFor(t, s.handler.key) {
      assert Known(t, en.subIds) && Known(s, en.subIds);
    }
  }

  lemma DeliverOne(host: Host, en: Engine, v: Engine, before: seq<Sub>, s: Sub, e: Event)
    requires Delivered(host, en, v, before, e) && Known(s, en.subIds)
    requires s.handler.ForHook? ==> OffBus(before, s.handler.key)
    ensures Delivered(host, en, Deliver(host, v, s, e), before + [s], e)
  {
    hide HookMatches, Without, SpentIds, SpentKeys, DispatchedTo;
    var x := Deliver(host, v, s, e);
    var spent, keys := SpentIds(host, before, e), SpentKeys(host, before, e);
    SpentAppend(host, before, s, e);
    assert spent + {} == spent && keys + {} == keys;
    if Spends(host, s, e) {
      NotSpentYet(host, before, s.handler.key, e);
      WithoutTwice(en.subs, spent, {s.id});
      assert v.subIds - {s.handler.key} == en.subIds - (keys + {s.handler.key});
    }
    forall key ensures LogDelivered(host, en, x, before + [s], e, key) {
      assert LogDelivered(host, en, v, before, e, key);
      FiredAppend(host, before, s, e, key);
      if Calls(host, s, e) {
        DispatchedAppend(v.log, s.handler.key, e, key);
        assert IsFor(s, key) ==> !Fired(host, before, e, key);
      }
    }
  }

  lemma NotSpentYet(host: Host, before: seq<Sub>, key: nat, e: Event)
    requires OffBus(before, key)
    ensures key !in SpentKeys(host, before, e)
  {
    hide HookMatches;
  }

  // ------------------------------------------------------------ every emit

  lemma {:induction false} HitsDistinct(subs: seq<Sub>, kind: string)
    requires OneEach(subs)
    ensures OneEach(Hits(subs, kind))
  {
    hide MatchesKind;
    if subs != [] {
      var rest := Hits(subs[1..], kind);
      assert OneEach(subs[1..]);
      HitsDistinct(subs[1..], kind);
      HitsMembers(subs[1..], kind);
      forall s | s in rest ensures s.id != subs[0].id {
        var i :| 1 <= i < |subs| && subs[i] == s;
      }
      DistinctCons(subs[0], rest);
    }
  }

  lemma DistinctCons(s: Sub, rest: seq<Sub>)
    requires OneEach(rest) && forall t :: t in rest ==> t.id != s.id
    ensures OneEach([s] + rest)
  {
    var all := [s] + rest;
    forall i, j | 0 <= i < j < |all| ensures all[i].id != all[j].id {
      assert all[j] == rest[j - 1] && all[j] in rest;
    }
  }

  lemma {:induction false} IdsStayDistinct(subs: seq<Sub>, ids: set<nat>, next: nat)
    requires IdsDistinct(subs, next)
    ensures IdsDistinct(Without(subs, ids), next)
  {
    if subs != [] {
      assert forall s :: s in subs[1..] ==> exists i :: 1 <= i < |subs| && subs[i] == s;
      IdsStayDistinct(subs[1..], ids, next);
      WithoutMembers(subs[1..], ids);
      var rest := Without(subs[1..], ids);
      assert forall i :: 0 <= i < |rest| ==> rest[i] in rest;
    }
  }

  lemma SameIdSameSub(subs: seq<Sub>, next: nat, s: Sub, t: Sub)
    requires IdsDistinct(subs, next) && s in subs && t in subs && s.id == t.id
    ensures s == t
  {
    var i :| 0 <= i < |subs| && subs[i] == s;
    var j :| 0 <= j < |subs| && subs[j] == t;
  }

  /** A hook has one subscription at most. */
  lemma SameKeySameSub(en: Engine, s: Sub, t: Sub)
    requires WellFormed(en) && s in en.subs && t in en.subs && s.handler.ForHook? && IsFor(t, s.handler.key)
    ensures s == t
  {
    assert Known(s, en.subIds) && Known(t, en.subIds);
    SameIdSameSub(en.subs, en.next, s, t);
  }

  /** Without a `sub_id` a hook has no subscription. */
  lemma NoIdOffBus(en: Engine, key: nat)
    requires WellFormed(en) && key !in en.subIds
    ensures OffBus(en.subs, key)
  {
    forall s | s in en.subs ensures !IsFor(s, key) {
      assert Known(s, en.subIds);
    }
  }

  /** The table as an emit leaves it. */
  lemma EmitDelivers(host: Host, en: Engine, e: Event)
    requires WellFormed(en)
    ensures var hits, x := Hits(en.subs, e.kind), Emit(host, en, e);
            && x.next == en.next && x.nextKey == en.nextKey && x.hooks == en.hooks
            && x.subs == Without(en.subs, SpentIds(host, hits, e) + OnceIds(hits))
            && x.subIds == en.subIds - SpentKeys(host, hits, e)
            && forall key :: LogDelivered(host, en, x, hits, e, key)
  {
    hide Hits, Without, SpentIds, SpentKeys, OnceIds, OneEach, LogDelivered, SubsKnown, NamesOwn, HooksListen, KeysBelow;
    var hits := Hits(en.subs, e.kind);
    HitsMembers(en.subs, e.kind);
    HitsDistinct(en.subs, e.kind);
    DeliverAllEffect(host, en, hits, e);
    WithoutTwice(en.subs, SpentIds(host, hits, e), OnceIds(hits));
    forall key ensures LogDelivered(host, en, Emit(host, en, e), hits, e, key) {
      assert LogDelivered(host, en, DeliverAll(host, en, hits, e), hits, e, key);
      SameLog(host, en, DeliverAll(host, en, hits, e), Emit(host, en, e), hits, e, key);
    }
  }

  lemma SameLog(host: Host, en: Engine, v: Engine, x: Engine, hits: seq<Sub>, e: Event, key: nat)
    requires LogDelivered(host, en, v, hits, e, key) && x.log == v.log
    ensures LogDelivered(host, en, x, hits, e, key)
  {
  }

  /** What an emit does to a hook that has its subscription on the bus: it
      dispatches if and only if it wants the event, and its subscription goes
      if and only if it dispatched and is a once-hook. */
  ghost predicate SubEffect(host: Host, en: Engine, x: Engine, s: Sub, e: Event)
    requires s.handler.ForHook?
  {
    var fired := Wants(host, s.handler.hook, e);
    && DispatchedTo(x.log, s.handler.key) == DispatchedTo(en.log, s.handler.key) + (if fired then [e] else [])
    && (s in x.subs <==> !(fired && s.handler.hook.once))
    && (s.handler.key in x.subIds <==> !(fired && s.handler.hook.once))
  }

  lemma EmitAtSub(host: Host, en: Engine, e: Event, s: Sub)
    requires WellFormed(en) && s in en.subs && s.handler.ForHook?
    ensures SubEffect(host, en, Emit(host, en, e), s, e)
  {
    hide HookMatches, MatchesKind, Hits, Without, IdsDistinct, DispatchedTo, NamesOwn, HooksListen, KeysBelow;
    var hits, x := Hits(en.subs, e.kind), Emit(host, en, e);
    EmitDelivers(host, en, e);
    HitsMembers(en.subs, e.kind);
    WithoutMembers(en.subs, SpentIds(host, hits, e) + OnceIds(hits));
    assert LogDelivered(host, en, x, hits, e, s.handler.key) && Known(s, en.subIds);
    forall t | t in hits && (IsFor(t, s.handler.key) || t.id == s.id) ensures t == s {
      if IsFor(t, s.handler.key) {
        SameKeySameSub(en, s, t);
      } else {
        SameIdSameSub(en.subs, en.next, s, t);
      }
    }
  }

  /** A hook without a subscription is not called back. */
  lemma EmitOffBus(host: Host, en: Engine, e: Event, key: nat)
    requires WellFormed(en) && OffBus(en.subs, key)
    ensures var x := Emit(host, en, e);
            && DispatchedTo(x.log, key) == DispatchedTo(en.log, key) && OffBus(x.subs, key)
            && (key in x.subIds <==> key in en.subIds)
  {
    hide HookMatches, MatchesKind, Hits, Without, WellFormed, DispatchedTo;
    var hits, x := Hits(en.subs, e.kind), Emit(host, en, e);
    EmitDelivers(host, en, e);
    HitsMembers(en.subs, e.kind);
    WithoutMembers(en.subs, SpentIds(host, hits, e) + OnceIds(hits));
    NotSpentYet(host, hits, key, e);
    assert LogDelivered(host, en, x, hits, e, key) && !Fired(host, hits, e, key);
    assert DispatchedTo(en.log, key) + [] == DispatchedTo(en.log, key);
  }

  lemma EmitKeeps(host: Host, en: Engine, e: Event)
    requires WellFormed(en)
    ensures WellFormed(Emit(host, en, e))
  {
    hide HookMatches, Hits, Without, IdsDistinct, Emit, SpentIds, SpentKeys, OnceIds;
    var hits, x := Hits(en.subs, e.kind), Emit(host, en, e);
    EmitDelivers(host, en, e);
    var gone := SpentIds(host, hits, e) + OnceIds(hits);
    IdsStayDistinct(en.subs, gone, en.next);
    WithoutMembers(en.subs, gone);
    forall s | s in x.subs ensures Known(s, x.subIds) {
      assert Known(s, en.subIds);
      if s.handler.ForHook? {
        StaysNamed(host, en, e, s);
      }
    }
    forall key | key in x.hooks ensures Listens(x.subs, x.subIds, key, x.hooks[key]) {
      assert Listens(en.subs, en.subIds, key, en.hooks[key]);
      if key in x.subIds {
        StaysNamed(host, en, e, SubOf(key, en.hooks[key], en.subIds[key]));
      }
    }
  }

  /** A hook loses its `sub_id` with its subscription. */
  lemma StaysNamed(host: Host, en: Engine, e: Event, s: Sub)
    requires WellFormed(en) && s in en.subs && s.handler.ForHook?
    ensures s in Emit(host, en, e).subs <==> s.handler.key in Emit(host, en, e).subIds
  {
    hide WellFormed, Emit, Wants, DispatchedTo;
    EmitAtSub(host, en, e, s);
  }

  /** One emit, for a hook in the runtime's table. */
  ghost predicate EmitEffect(host: Host, en: Engine, x: Engine, e: Event, key: nat)
    requires key in en.hooks
  {
    var fired := key in en.subIds && Wants(host, en.hooks[key], e);
    && DispatchedTo(x.log, key) == DispatchedTo(en.log, key) + (if fired then [e] else [])
    && (key in x.subIds <==> key in en.subIds && !(fired && en.hooks[key].once))
  }

  /** A live hook dispatches if and only if it wants the event, and only a
      once-hook that did is live no more; one that is not live is silent. */
  lemma EmitOne(host: Host, en: Engine, e: Event)
    requires WellFormed(en)
    ensures WellFormed(Emit(host, en, e)) && Emit(host, en, e).hooks == en.hooks
    ensures forall key :: key in en.hooks ==> EmitEffect(host, en, Emit(host, en, e), e, key)
  {
    hide HookMatches, Wants, Hits, Without, DispatchedTo, Emit, IdsDistinct, SubsKnown, NamesOwn, KeysBelow, SpentIds,
      SpentKeys, OnceIds, LogDelivered;
    EmitKeeps(host, en, e);
    EmitDelivers(host, en, e);
    forall key | key in en.hooks ensures EmitEffect(host, en, Emit(host, en, e), e, key) {
      if key in en.subIds {
        assert Listens(en.subs, en.subIds, key, en.hooks[key]);
        EmitAtSub(host, en, e, SubOf(key, en.hooks[key], en.subIds[key]));
      } else {
        NoIdOffBus(en, key);
        EmitOffBus(host, en, e, key);
        assert DispatchedTo(en.log, key) + [] == DispatchedTo(en.log, key);
      }
    }
  }

  // ------------------------------------------------------------- every run

  /** What happens on the bus: this runtime arms and removes hooks, others arm
      hooks of theirs, anyone emits, subscribes and unsubscribes. */
  datatype Step =
    | EmitStep(e: Event)
    | ArmStep(hook: Hook)
    | RemoveStep(key: nat)
    | ArmOtherStep(hook: Hook)
    | SubscribeStep(patterns: seq<string>, n: nat, once: bool)
    | UnsubscribeStep(id: nat)

  /** Other code does not unsubscribe this runtime's live hooks. */
  ghost predicate Enabled(en: Engine, s: Step) {
    s.UnsubscribeStep? ==> forall key :: key in en.hooks && key in en.subIds ==> en.subIds[key] != s.id
  }

  function Apply(host: Host, en: Engine, s: Step): Engine {
    match s
    case EmitStep(e) => Emit(host, en, e)
    case ArmStep(hook) => Arm(en, hook)
    case RemoveStep(key) => Remove(en, key)
    case ArmOtherStep(hook) => NewHook(en, hook)
    case SubscribeStep(patterns, n, once) => Subscribe(en, patterns, Foreign(n), once)
    case UnsubscribeStep(id) => Unsubscribe(en, id)
  }

  /** The state after the steps. */
  function After(host: Host, en: Engine, steps: seq<Step>): Engine {
    if steps == [] then en else Apply(host, After(host, en, steps[..|steps| - 1]), steps[|steps| - 1])
  }

  /** Every step is enabled in the state it meets. */
  ghost predicate AllEnabled(host: Host, en: Engine, steps: seq<Step>) {
    steps == [] || (AllEnabled(host, en, steps[..|steps| - 1])
                    && Enabled(After(host, en, steps[..|steps| - 1]), steps[|steps| - 1]))
  }

  lemma SubscribeKeeps(en: Engine, patterns: seq<string>, handler: Handler, once: bool)
    requires WellFormed(en) && !handler.ForHook?
    ensures WellFormed(Subscribe(en, patterns, handler, once))
  {
    var x := Subscribe(en, patterns, handler, once);
    forall key | key in en.hooks ensures Listens(x.subs, en.subIds, key, en.hooks[key]) {
      assert Listens(en.subs, en.subIds, key, en.hooks[key]);
    }
    forall s | s in x.subs ensures Known(s, en.subIds) {
      assert s in en.subs ==> Known(s, en.subIds);
    }
  }

  lemma UnsubscribeKeeps(en: Engine, id: nat)
    requires WellFormed(en) && Enabled(en, UnsubscribeStep(id))
    ensures WellFormed(Unsubscribe(en, id))
  {
    hide Without;
    var x := Unsubscribe(en, id);
    IdsStayDistinct(en.subs, {id}, en.next);
    WithoutMembers(en.subs, {id});
    forall key | key in en.hooks ensures Listens(x.subs, en.subIds, key, en.hooks[key]) {
      assert Listens(en.subs, en.subIds, key, en.hooks[key]);
    }
    forall s | s in x.subs ensures Known(s, en.subIds) {
      assert Known(s, en.subIds);
    }
  }

  lemma NewHookKeeps(en: Engine, hook: Hook)
    requires WellFormed(en)
    ensures WellFormed(NewHook(en, hook)) && WellFormed(Arm(en, hook))
  {
    var x := NewHook(en, hook);
    assert x.subs == en.subs + [SubOf(en.nextKey, hook, en.next)];
    forall k | k in en.hooks ensures Listens(x.subs, x.subIds, k, en.hooks[k]) {
      assert Listens(en.subs, en.subIds, k, en.hooks[k]);
    }
    forall s | s in x.subs ensures Known(s, x.subIds) {
      assert s in en.subs ==> Known(s, en.subIds);
    }
    assert forall s :: s in en.subs ==> s.id < en.next;
  }

  /** A live hook's subscription, and the only one with its id. */
  lemma LiveSub(en: Engine, key: nat, t: Sub)
    requires WellFormed(en) && key in en.subIds && t in en.subs
    ensures t.id == en.subIds[key] <==> IsFor(t, key)
  {
    assert Known(t, en.subIds);
  }

  lemma RemoveKeeps(en: Engine, key: nat)
    requires WellFormed(en)
    ensures WellFormed(Remove(en, key))
    ensures key in en.hooks ==> OffBus(Remove(en, key).subs, key)
  {
    hide Without, IdsDistinct;
    if key in en.hooks {
      var v := en.(hooks := en.hooks - {key});
      forall k | k in v.hooks ensures Listens(v.subs, v.subIds, k, v.hooks[k]) {
        assert Listens(en.subs, en.subIds, k, en.hooks[k]);
      }
      if key in en.subIds {
        forall k | k in v.hooks && k in v.subIds ensures v.subIds[k] != en.subIds[key] {
          assert Listens(en.subs, en.subIds, k, en.hooks[k]);
          LiveSub(en, key, SubOf(k, en.hooks[k], en.subIds[k]));
        }
        UnsubscribeKeeps(v, en.subIds[key]);
        WithoutMembers(en.subs, {en.subIds[key]});
        forall t | t in en.subs ensures t.id == en.subIds[key] <==> IsFor(t, key) {
          LiveSub(en, key, t);
        }
      } else {
        NoIdOffBus(en, key);
      }
    }
  }

  lemma StepKeeps(host: Host, en: Engine, s: Step)
    requires WellFormed(en) && Enabled(en, s)
    ensures WellFormed(Apply(host, en, s))
  {
    hide WellFormed, Enabled, Emit, Arm, NewHook, Remove, Subscribe, Unsubscribe;
    match s {
      case EmitStep(e) => EmitKeeps(host, en, e);
      case ArmStep(hook) => NewHookKeeps(en, hook);
      case RemoveStep(key) => RemoveKeeps(en, key);
      case ArmOtherStep(hook) => NewHookKeeps(en, hook);
      case SubscribeStep(patterns, n, once) => SubscribeKeeps(en, patterns, Foreign(n), once);
      case UnsubscribeStep(id) => UnsubscribeKeeps(en, id);
    }
  }

  /** The emitted events that the hook wants, in order. */
  function WantedEvents(host: Host, h: Hook, steps: seq<Step>): seq<Event> {
    if steps == [] then []
    else
      var last := steps[|steps| - 1];
      WantedEvents(host, h, steps[..|steps| - 1]) + if last.EmitStep? && Wants(host, h, last.e) then [last.e] else []
  }

  /** What a hook dispatches for the events it wants: all of them, or the first. */
  function Dispatches(h: Hook, wanted: seq<Event>): seq<Event> {
    if h.once && wanted != [] then wanted[..1] else wanted
  }

  lemma QuietStep(host: Host, en: Engine, s: Step, key: nat)
    requires WellFormed(en) && !s.EmitStep? && s != RemoveStep(key) && key in en.hooks
    ensures var x := Apply(host, en, s);
            && key in x.hooks && x.hooks[key] == en.hooks[key] && x.log == en.log
            && (key in x.subIds <==> key in en.subIds)
  {
    hide Without, IdsDistinct, SubsKnown, NamesOwn, HooksListen;
  }

  /** From the moment a hook is armed until it is removed, whatever else is
      emitted, armed, removed or subscribed: a once-hook dispatches exactly on
      the first event it wants, so that others never use it up, and a repeating
      hook on every such event.  One that is spent stays silent. */
  lemma {:induction false} FirstOrEvery(host: Host, en: Engine, steps: seq<Step>, key: nat)
    requires WellFormed(en) && AllEnabled(host, en, steps)
    requires key in en.hooks && RemoveStep(key) !in steps
    ensures var x, h := After(host, en, steps), en.hooks[key];
            var wanted := WantedEvents(host, h, steps);
            && WellFormed(x) && key in x.hooks && x.hooks[key] == h
            && DispatchedTo(x.log, key) == DispatchedTo(en.log, key) + (if key in en.subIds then Dispatches(h, wanted) else [])
            && (key in x.subIds <==> key in en.subIds && !(h.once && wanted != []))
  {
    hide WellFormed, Enabled, Apply, Wants, DispatchedTo;
    var h := en.hooks[key];
    if steps == [] {
      assert DispatchedTo(en.log, key) + [] == DispatchedTo(en.log, key);
    } else {
      var before, last := steps[..|steps| - 1], steps[|steps| - 1];
      assert last in steps && forall s :: s in before ==> s in steps;
      FirstOrEvery(host, en, before, key);
      var v := After(host, en, before);
      StepKeeps(host, v, last);
      if last.EmitStep? {
        EmitAt(host, v, last, key);
        WantedGrows(h, WantedEvents(host, h, before), last.e, DispatchedTo(en.log, key));
      } else {
        QuietStep(host, v, last, key);
      }
    }
  }

  lemma EmitAt(host: Host, v: Engine, s: Step, key: nat)
    requires WellFormed(v) && s.EmitStep? && key in v.hooks
    ensures EmitEffect(host, v, Apply(host, v, s), s.e, key) && Apply(host, v, s).hooks == v.hooks
  {
    hide WellFormed, EmitEffect, Emit;
    EmitOne(host, v, s.e);
  }

  lemma WantedGrows(h: Hook, wanted: seq<Event>, e: Event, earlier: seq<Event>)
    ensures earlier + Dispatches(h, wanted + [e]) ==
            earlier + Dispatches(h, wanted) + if h.once && wanted != [] then [] else [e]
  {
    if h.once && wanted != [] {
      assert (wanted + [e])[..1] == wanted[..1];
    } else if h.once {
      assert wanted + [e] == [e] && [e][..1] == [e];
    }
  }

  /** A hook that no subscription calls back dispatches nothing, and nothing
      puts it on the bus again. */
  lemma {:induction false} UnarmedIsSilent(host: Host, en: Engine, steps: seq<Step>, key: nat)
    requires WellFormed(en) && AllEnabled(host, en, steps) && key < en.nextKey && OffBus(en.subs, key)
    ensures var x := After(host, en, steps);
            && WellFormed(x) && key < x.nextKey && OffBus(x.subs, key)
            && DispatchedTo(x.log, key) == DispatchedTo(en.log, key)
  {
    hide WellFormed, Enabled, Apply, DispatchedTo, OffBus;
    if steps != [] {
      UnarmedIsSilent(host, en, steps[..|steps| - 1], key);
      var v := After(host, en, steps[..|steps| - 1]);
      StepKeeps(host, v, steps[|steps| - 1]);
      SilentStep(host, v, steps[|steps| - 1], key);
    }
  }

  lemma SilentStep(host: Host, v: Engine, s: Step, key: nat)
    requires WellFormed(v) && key < v.nextKey && OffBus(v.subs, key)
    ensures var x := Apply(host, v, s);
            && key < x.nextKey && OffBus(x.subs, key) && DispatchedTo(x.log, key) == DispatchedTo(v.log, key)
  {
    hide WellFormed, Emit, Without, DispatchedTo;
    match s {
      case EmitStep(e) =>
        EmitOffBus(host, v, e, key);
        EmitDelivers(host, v, e);
      case RemoveStep(k) =>
        if k in v.hooks && k in v.subIds {
          WithoutMembers(v.subs, {v.subIds[k]});
        }
      case UnsubscribeStep(id) => WithoutMembers(v.subs, {id});
      case _ =>
    }
  }

  /** Removing a hook takes its subscription off the bus, so that it dispatches
      nothing from then on, whatever happens. */
  lemma RemovedIsSilent(host: Host, en: Engine, key: nat, steps: seq<Step>)
    requires WellFormed(en) && key in en.hooks && AllEnabled(host, Remove(en, key), steps)
    ensures OffBus(Remove(en, key).subs, key)
    ensures DispatchedTo(After(host, Remove(en, key), steps).log, key) == DispatchedTo(en.log, key)
  {
    hide After, AllEnabled, Without, DispatchedTo, IdsDistinct, SubsKnown, NamesOwn, HooksListen, OffBus;
    RemoveKeeps(en, key);
    UnarmedIsSilent(host, Remove(en, key), steps, key);
  }

  // ------------------------------------------------------ overlapping emits

  /** The call-backs of an emit, when other threads take whole steps in
      between: those of `amid[i]` before the `i`th call-back. */
  function DeliverAmid(host: Host, en: Engine, hits: seq<Sub>, amid: seq<seq<Step>>, e: Event): Engine
    requires |amid| == |hits|
  {
    if hits == [] then en
    else
      var n := |hits| - 1;
      Deliver(host, After(host, DeliverAmid(host, en, hits[..n], amid[..n], e), amid[n]), hits[n], e)
  }

  /** `emit` holds the lock for its snapshot and for the final removal only. */
  function EmitAmid(host: Host, en: Engine, e: Event, amid: seq<seq<Step>>): Engine
    requires |amid| == |Hits(en.subs, e.kind)|
  {
    var hits := Hits(en.subs, e.kind);
    var v := DeliverAmid(host, en, hits, amid, e);
    v.(subs := Without(v.subs, OnceIds(hits)))
  }

  /** The steps in between are enabled, and none removes the hook. */
  ghost predicate AmidEnabled(host: Host, en: Engine, hits: seq<Sub>, amid: seq<seq<Step>>, e: Event, key: nat)
    requires |amid| == |hits|
  {
    hits == [] || (
      var n := |hits| - 1;
      && AmidEnabled(host, en, hits[..n], amid[..n], e, key)
      && AllEnabled(host, DeliverAmid(host, en, hits[..n], amid[..n], e), amid[n])
      && RemoveStep(key) !in amid[n])
  }

  function WantedAmid(host: Host, h: Hook, amid: seq<seq<Step>>): seq<Event> {
    if amid == [] then []
    else WantedAmid(host, h, amid[..|amid| - 1]) + WantedEvents(host, h, amid[|amid| - 1])
  }

  /** What a hook dispatches when it wants the events of `before` and `after`
      its own call-back, which is for the events of `own`. */
  function AmidDispatches(h: Hook, before: seq<Event>, own: seq<Event>, after: seq<Event>): seq<Event> {
    Dispatches(h, before) + own + if h.once && (before != [] || own != []) then [] else Dispatches(h, after)
  }

  /** A call-back keeps the invariant even when its subscription is gone. */
  lemma FireKeeps(host: Host, en: Engine, s: Sub, e: Event)
    requires WellFormed(en)
    ensures WellFormed(Deliver(host, en, s, e))
  {
    hide HookMatches, Without;
    if Spends(host, s, e) && s.handler.key in en.subIds {
      var id, x := en.subIds[s.handler.key], Deliver(host, en, s, e);
      IdsStayDistinct(en.subs, {id}, en.next);
      WithoutMembers(en.subs, {id});
      forall t | t in x.subs ensures Known(t, x.subIds) {
        assert Known(t, en.subIds);
      }
      forall key | key in x.hooks ensures Listens(x.subs, x.subIds, key, x.hooks[key]) {
        assert Listens(en.subs, en.subIds, key, en.hooks[key]);
        if key in x.subIds {
          LiveSub(en, s.handler.key, SubOf(key, en.hooks[key], en.subIds[key]));
        }
      }
    }
  }

  /** One call-back, as the hook `key` sees it. */
  lemma FireAt(host: Host, en: Engine, s: Sub, e: Event, key: nat)
    ensures var x, mine := Deliver(host, en, s, e), IsFor(s, key) && Calls(host, s, e);
            && x.hooks == en.hooks
            && DispatchedTo(x.log, key) == DispatchedTo(en.log, key) + (if mine then [e] else [])
            && (key in x.subIds <==> key in en.subIds && !(mine && s.handler.hook.once))
  {
    hide HookMatches, Without, DispatchedTo;
    if Calls(host, s, e) {
      DispatchedAppend(en.log, s.handler.key, e, key);
    }
    assert DispatchedTo(en.log, key) + [] == DispatchedTo(en.log, key);
  }

  /** What the hook has dispatched after the first `n` call-backs, its own being the `k`th. */
  function AmidLog(host: Host, h: Hook, amid: seq<seq<Step>>, e: Event, k: nat): seq<Event> {
    if |amid| <= k then Dispatches(h, WantedAmid(host, h, amid))
    else AmidDispatches(h, WantedAmid(host, h, amid[..k + 1]), if HookMatches(host, h, e) then [e] else [],
                        WantedAmid(host, h, amid[k + 1..]))
  }

  predicate AmidSpent(host: Host, h: Hook, amid: seq<seq<Step>>, e: Event, k: nat) {
    h.once && AmidLog(host, h, amid, e, k) != []
  }

  lemma WantedAmidSnoc(host: Host, h: Hook, amid: seq<seq<Step>>, steps: seq<Step>)
    ensures WantedAmid(host, h, amid + [steps]) == WantedAmid(host, h, amid) + WantedEvents(host, h, steps)
  {
    assert (amid + [steps])[..|amid|] == amid;
  }

  lemma DispatchesAppend(h: Hook, a: seq<Event>, b: seq<Event>)
    ensures Dispatches(h, a + b) == Dispatches(h, a) + if h.once && a != [] then [] else Dispatches(h, b)
    ensures Dispatches(h, a) == [] <==> a == []
  {
    if h.once && a != [] {
      assert (a + b)[..1] == a[..1];
    } else if h.once {
      assert a + b == b;
    }
  }

  /** More steps, and then one call-back more. */
  lemma AmidLogGrows(host: Host, h: Hook, amid: seq<seq<Step>>, steps: seq<Step>, e: Event, k: nat)
    ensures var log := AmidLog(host, h, amid, e, k);
            AmidLog(host, h, amid + [steps], e, k) ==
            log + (if h.once && log != [] then [] else Dispatches(h, WantedEvents(host, h, steps)))
                + (if |amid| == k && HookMatches(host, h, e) then [e] else [])
  {
    hide HookMatches, Dispatches, WantedAmid, WantedEvents;
    var w, own := WantedEvents(host, h, steps), if HookMatches(host, h, e) then [e] else [];
    WantedAmidSnoc(host, h, amid, steps);
    DispatchesAppend(h, WantedAmid(host, h, amid), w);
    if |amid| < k {
    } else if |amid| == k {
      assert (amid + [steps])[..k + 1] == amid + [steps] && (amid + [steps])[k + 1..] == [];
      WantedNothing(host, h);
    } else {
      var after := amid[k + 1..];
      assert (amid + [steps])[..k + 1] == amid[..k + 1] && (amid + [steps])[k + 1..] == after + [steps];
      WantedAmidSnoc(host, h, after, steps);
      DispatchesAppend(h, WantedAmid(host, h, after), w);
      DispatchesAppend(h, WantedAmid(host, h, amid[..k + 1]), []);
    }
  }

  lemma WantedNothing(host: Host, h: Hook)
    ensures WantedAmid(host, h, []) == [] && Dispatches(h, []) == []
  {
  }

  /** The hook's call-back, and it alone, is the `k`th. */
  predicate CallBackAt(hits: seq<Sub>, hook: Hook, key: nat, k: nat) {
    && (forall i :: 0 <= i < |hits| ==> (IsFor(hits[i], key) <==> i == k))
    && (k < |hits| ==> hits[k].handler == ForHook(key, hook))
  }

  /** What holds between the call-backs. */
  ghost predicate AmidState(host: Host, en: Engine, x: Engine, amid: seq<seq<Step>>, e: Event, key: nat, k: nat)
    requires key in en.hooks
  {
    var h := en.hooks[key];
    && WellFormed(x) && key in x.hooks && x.hooks[key] == h
    && DispatchedTo(x.log, key) == DispatchedTo(en.log, key) + AmidLog(host, h, amid, e, k)
    && (key in x.subIds <==> !AmidSpent(host, h, amid, e, k))
  }

  lemma {:induction false} AmidEffect(host: Host, en: Engine, hits: seq<Sub>, amid: seq<seq<Step>>, e: Event, key: nat, k: nat)
    requires WellFormed(en) && key in en.hooks && key in en.subIds && |amid| == |hits|
    requires AmidEnabled(host, en, hits, amid, e, key) && CallBackAt(hits, en.hooks[key], key, k)
    ensures AmidState(host, en, DeliverAmid(host, en, hits, amid, e), amid, e, key, k)
  {
    hide WellFormed, AllEnabled, After, Deliver, DispatchedTo, AmidLog, AmidState;
    if hits == [] {
      AmidStart(host, en, e, key, k);
      assert amid == [];
    } else {
      var n := |hits| - 1;
      AmidEffect(host, en, hits[..n], amid[..n], e, key, k);
      assert amid == amid[..n] + [amid[n]];
      AmidStep(host, en, DeliverAmid(host, en, hits[..n], amid[..n], e), amid[..n], amid[n], hits[n], e, key, k);
    }
  }

  lemma AmidStart(host: Host, en: Engine, e: Event, key: nat, k: nat)
    requires WellFormed(en) && key in en.hooks && key in en.subIds
    ensures AmidState(host, en, en, [], e, key, k)
  {
    hide WellFormed, DispatchedTo;
    AmidLogEmpty(host, en.hooks[key], e, k);
    assert DispatchedTo(en.log, key) + [] == DispatchedTo(en.log, key);
  }

  lemma AmidStep(host: Host, en: Engine, u: Engine, amid: seq<seq<Step>>, steps: seq<Step>, s: Sub, e: Event,
                 key: nat, k: nat)
    requires key in en.hooks && AmidState(host, en, u, amid, e, key, k)
    requires AllEnabled(host, u, steps) && RemoveStep(key) !in steps
    requires IsFor(s, key) <==> |amid| == k
    requires |amid| == k ==> s.handler == ForHook(key, en.hooks[key])
    ensures AmidState(host, en, Deliver(host, After(host, u, steps), s, e), amid + [steps], e, key, k)
  {
    hide WellFormed, AllEnabled, After, Deliver, DispatchedTo, HookMatches, WantedEvents, Dispatches, AmidLog;
    var h, v := en.hooks[key], After(host, u, steps);
    FirstOrEvery(host, u, steps, key);
    FireKeeps(host, v, s, e);
    FireAt(host, v, s, e, key);
    AmidLogGrows(host, h, amid, steps, e, k);
    EmptyDispatches(h, WantedEvents(host, h, steps));
  }

  lemma AmidLogEmpty(host: Host, h: Hook, e: Event, k: nat)
    ensures AmidLog(host, h, [], e, k) == []
  {
  }

  lemma EmptyDispatches(h: Hook, wanted: seq<Event>)
    ensures Dispatches(h, wanted) == [] <==> wanted == []
  {
  }

  /** An emit that overlaps with whatever other threads do, for a live hook of
      its type: `k` is the place of its call-back.  The hook dispatches the
      events it wants that others emit before its call-back, then this one if
      it matches, then those after; a once-hook skips what follows its first
      dispatch, but not this one. */
  lemma OverlappingEmit(host: Host, en: Engine, e: Event, amid: seq<seq<Step>>, key: nat) returns (k: nat)
    requires WellFormed(en) && key in en.hooks && key in en.subIds && MatchesKind(en.hooks[key].when, e.kind)
    requires |amid| == |Hits(en.subs, e.kind)| && AmidEnabled(host, en, Hits(en.subs, e.kind), amid, e, key)
    ensures k < |amid| && Hits(en.subs, e.kind)[k] == SubOf(key, en.hooks[key], en.subIds[key])
    ensures var h := en.hooks[key];
            DispatchedTo(EmitAmid(host, en, e, amid).log, key) ==
            DispatchedTo(en.log, key)
            + AmidDispatches(h, WantedAmid(host, h, amid[..k + 1]), if HookMatches(host, h, e) then [e] else [],
                             WantedAmid(host, h, amid[k + 1..]))
  {
    hide MatchesKind, HookMatches, DeliverAmid, AmidEnabled, DispatchedTo, Hits, Without, WantedAmid, AmidDispatches, AmidLog, IdsDistinct;
    var hits, s := Hits(en.subs, e.kind), SubOf(key, en.hooks[key], en.subIds[key]);
    HitsMembers(en.subs, e.kind);
    assert Listens(en.subs, en.subIds, key, en.hooks[key]);
    assert s in hits;
    k :| 0 <= k < |hits| && hits[k] == s;
    HitsOneEach(en, e.kind);
    forall i | 0 <= i < |hits| ensures IsFor(hits[i], key) <==> i == k {
      assert hits[i] in hits;
      if IsFor(hits[i], key) {
        SameKeySameSub(en, s, hits[i]);
      }
    }
    AmidEffect(host, en, hits, amid, e, key, k);
    AmidLogAll(host, en.hooks[key], amid, e, k);
  }

  lemma AmidLogAll(host: Host, h: Hook, amid: seq<seq<Step>>, e: Event, k: nat)
    requires k < |amid|
    ensures AmidLog(host, h, amid, e, k) ==
            AmidDispatches(h, WantedAmid(host, h, amid[..k + 1]), if HookMatches(host, h, e) then [e] else [],
                           WantedAmid(host, h, amid[k + 1..]))
  {
  }

  lemma HitsOneEach(en: Engine, kind: string)
    requires WellFormed(en)
    ensures OneEach(Hits(en.subs, kind))
  {
    HitsDistinct(en.subs, kind);
  }

  /** A once-hook dispatches twice in one emit that it wants if and only if
      another thread emits an event it wants after the snapshot and before its
      call-back; otherwise it dispatches once. */
  lemma FiresTwiceIff(host: Host, en: Engine, e: Event, amid: seq<seq<Step>>, key: nat) returns (k: nat)
    requires WellFormed(en) && key in en.hooks && key in en.subIds && en.hooks[key].once && Wants(host, en.hooks[key], e)
    requires |amid| == |Hits(en.subs, e.kind)| && AmidEnabled(host, en, Hits(en.subs, e.kind), amid, e, key)
    ensures k < |amid| && Hits(en.subs, e.kind)[k] == SubOf(key, en.hooks[key], en.subIds[key])
    ensures var early := WantedAmid(host, en.hooks[key], amid[..k + 1]);
            DispatchedTo(EmitAmid(host, en, e, amid).log, key) ==
            DispatchedTo(en.log, key) + if early == [] then [e] else [early[0], e]
  {
    hide MatchesKind, HookMatches, EmitAmid, AmidEnabled, DispatchedTo, Hits, WantedAmid, WellFormed;
    k := OverlappingEmit(host, en, e, amid, key);
    var early := WantedAmid(host, en.hooks[key], amid[..k + 1]);
    assert early != [] ==> early[..1] + [e] == [early[0], e];
  }

  /** Such a run: one armed once-hook, and the same event from another thread
      between snapshot and call-back. */
  lemma FiresTwiceExample(host: Host, e: Event)
    ensures var en := Arm(Engine([], 1, map[], 0, map[], []), Hook([e.kind], None, [], [], true));
            Hits(en.subs, e.kind) == en.subs
            && DispatchedTo(EmitAmid(host, en, e, [[EmitStep(e)]]).log, 0) == [e, e]
  {
    var hook := Hook([e.kind], None, [], [], true);
    var none := Engine([], 1, map[], 0, map[], []);
    var en, amid := Arm(none, hook), [[EmitStep(e)]];
    assert WellFormed(en) by {
      NewHookKeeps(none, hook);
    }
    ExampleWants(host, hook, e);
    ExampleHits(en.subs, e.kind);
    ExampleAmid(host, en, en.subs, e);
    hide EmitAmid, Emit, WellFormed, Wants, AmidEnabled, Hits;
    var k := FiresTwiceIff(host, en, e, amid, 0);
    assert amid[..k + 1] == amid;
  }

  lemma ExampleWants(host: Host, h: Hook, e: Event)
    requires h == Hook([e.kind], None, [], [], true)
    ensures Wants(host, h, e) && WantedAmid(host, h, [[EmitStep(e)]]) == [e]
  {
    var p := h.when[0];
    assert p in h.when && (MatchesOne(p, e.kind) || EndsWith(p, ".*"));
    hide MatchesKind;
    assert WantedEvents(host, h, [EmitStep(e)]) == WantedEvents(host, h, []) + [e];
    WantedAmidSnoc(host, h, [], [EmitStep(e)]);
  }

  lemma ExampleHits(subs: seq<Sub>, kind: string)
    requires |subs| == 1 && MatchesKind(subs[0].patterns, kind)
    ensures Hits(subs, kind) == subs
  {
    hide MatchesKind;
  }

  lemma ExampleAmid(host: Host, en: Engine, hits: seq<Sub>, e: Event)
    requires |hits| == 1
    ensures AmidEnabled(host, en, hits, [[EmitStep(e)]], e, 0)
  {
    hide Deliver, After, Enabled;
    var n := |hits| - 1;
    assert hits[..n] == [] && [[EmitStep(e)]][..n] == [];
    OneEmitEnabled(host, en, e);
  }

  lemma OneEmitEnabled(host: Host, en: Engine, e: Event)
    ensures AllEnabled(host, en, [EmitStep(e)])
  {
    assert AllEnabled(host, en, []);
  }
}
