/** Armed hooks on the bus. */
module HookRuntimes {
  import opened Text
  import opened Values
  import opened EventMatching
  import opened EventHub

  // ------------------------------------------------------------ hook specs

  predicate AllStrings(xs: seq<Value>) {
    forall i :: 0 <= i < |xs| ==> xs[i].Str?
  }

  function Strings(xs: seq<Value>): seq<string>
    requires AllStrings(xs)
  {
    seq(|xs|, i requires 0 <= i < |xs| => xs[i].s)
  }

  /** The patterns of `when`: a string or a list, else `arm` raises. */
  function WhenOf(v: Value): Option<seq<string>> {
    match v
    case Str(s) => Some([s])
    case List(xs) => if AllStrings(xs) then Some(Strings(xs)) else None
    case _ => None
  }

  function Put(es: Entries, key: string, v: Value): Entries {
    if es == [] then [(key, v)]
    else if es[0].0 == key then [(key, v)] + es[1..]
    else [es[0]] + Put(es[1..], key, v)
  }

  /** One element of a list handed to `dict(...)`. */
  function PairOf(v: Value): Option<(string, Value)> {
    match v
    case List(xs) => if |xs| == 2 && xs[0].Str? then Some((xs[0].s, xs[1])) else None
    case Str(s) => if |s| == 2 then Some((s[..1], Str(s[1..]))) else None
    case Dict(es) => if |es| == 2 then Some((es[0].0, Str(es[1].0))) else None
    case _ => None
  }

  function DictOfList(xs: seq<Value>): Option<Entries> {
    if xs == [] then Some([])
    else
      var before, last := DictOfList(xs[..|xs| - 1]), PairOf(xs[|xs| - 1]);
      if before.Some? && last.Some? then Some(Put(before.value, last.value.0, last.value.1)) else None
  }

  /** `dict(v or {})`, `None` when it raises */
  function ToDict(v: Value): Option<Entries> {
    if !Truthy(v) then Some([])
    else
      match v
      case Dict(es) => Some(es)
      case List(xs) => DictOfList(xs)
      case _ => None
  }

  /** An element that `dict(...)` takes as a pair, whatever its key is. */
  predicate IsPair(v: Value) {
    match v
    case List(xs) => |xs| == 2 && !xs[0].List? && !xs[0].Dict?
    case Str(s) => |s| == 2
    case Dict(es) => |es| == 2
    case _ => false
  }

  /** `dict(v or {})` does not raise. */
  predicate MakesMapping(v: Value) {
    !Truthy(v) || v.Dict? || (v.List? && forall i :: 0 <= i < |v.items| ==> IsPair(v.items[i]))
  }

  lemma {:induction false} PairsMakeEntries(xs: seq<Value>)
    ensures DictOfList(xs).Some? <==> forall i :: 0 <= i < |xs| ==> PairOf(xs[i]).Some?
  {
    if xs != [] {
      PairsMakeEntries(xs[..|xs| - 1]);
      assert forall i :: 0 <= i < |xs| - 1 ==> xs[..|xs| - 1][i] == xs[i];
    }
  }

  /** A mapping that `dict` makes has an image here unless a pair's key is no string. */
  lemma MappingsHaveEntries(v: Value)
    ensures ToDict(v).Some? <==>
            MakesMapping(v)
            && (v.List? ==> forall i :: 0 <= i < |v.items| && v.items[i].List? ==> v.items[i].items[0].Str?)
  {
    if v.List? {
      PairsMakeEntries(v.items);
      assert forall x :: PairOf(x).Some? <==> IsPair(x) && (x.List? ==> x.items[0].Str?);
    }
  }

  /** `list(v or [])`, `None` when it raises */
  function ToList(v: Value): Option<seq<Value>> {
    if !Truthy(v) then Some([])
    else
      match v
      case List(xs) => Some(xs)
      case Str(s) => Some(seq(|s|, i requires 0 <= i < |s| => Str([s[i]])))
      case Dict(es) => Some(seq(|es|, i requires 0 <= i < |es| => Str(es[i].0)))
      case _ => None
  }

  function PhoneOf(host: Host, v: Value): Option<string> {
    match v
    case Null => None
    case Str(s) => if s == "" then None else Some(s)
    case _ => Some(AsText(host, v))
  }

  /** The hook that `arm` builds from one entry, `None` when it raises. */
  function HookOf(host: Host, spec: Entries): Option<Hook> {
    var when, preds, actions := WhenOf(Get(spec, "when")), ToDict(Get(spec, "match")), ToList(Get(spec, "then"));
    if when.Some? && preds.Some? && actions.Some? then
      Some(Hook(when.value, PhoneOf(host, Get(spec, "on_phone")), preds.value, actions.value,
                Lookup(spec, "once").None? || Truthy(Get(spec, "once"))))
    else None
  }

  // --------------------------------------------------------- specification

  /** The bus; `subIds`, the `sub_id` of each hook object that has one, of this
      and of other runtimes; `nextKey`, the next hook id; the hooks in this
      runtime's table; the dispatches of action chains. */
  datatype Engine = Engine(subs: seq<Sub>, next: nat, subIds: map<nat, nat>, nextKey: nat,
                           hooks: map<nat, Hook>, log: seq<(nat, Event)>)

  function Subscribe(en: Engine, patterns: seq<string>, handler: Handler, once: bool): Engine {
    en.(subs := en.subs + [Sub(en.next, patterns, handler, once)], next := en.next + 1)
  }

  function Unsubscribe(en: Engine, id: nat): Engine {
    en.(subs := Without(en.subs, {id}))
  }

  /** A hook object with its subscription, in no table yet. */
  function NewHook(en: Engine, hook: Hook): Engine {
    Subscribe(en, hook.when, ForHook(en.nextKey, hook), false).(
      subIds := en.subIds[en.nextKey := en.next], nextKey := en.nextKey + 1)
  }

  function Arm(en: Engine, hook: Hook): Engine {
    NewHook(en, hook).(hooks := en.hooks[en.nextKey := hook])
  }

  /** The object keeps its `sub_id`. */
  function Remove(en: Engine, key: nat): Engine {
    if key !in en.hooks then en
    else
      var v := en.(hooks := en.hooks - {key});
      if key in en.subIds then Unsubscribe(v, en.subIds[key]) else v
  }

  /** The closure of a hook, called back; it does not look at any table. */
  function Fire(host: Host, en: Engine, key: nat, hook: Hook, e: Event): Engine {
    if !HookMatches(host, hook, e) then en
    else
      var v := if hook.once && key in en.subIds
               then Unsubscribe(en, en.subIds[key]).(subIds := en.subIds - {key}) else en;
      v.(log := v.log + [(key, e)])
  }

  /** One call-back of `emit`; what other subscribers do is outside. */
  function Deliver(host: Host, en: Engine, s: Sub, e: Event): Engine {
    if s.handler.ForHook? then Fire(host, en, s.handler.key, s.handler.hook, e) else en
  }

  function DeliverAll(host: Host, en: Engine, hits: seq<Sub>, e: Event): Engine {
    if hits == [] then en
    else Deliver(host, DeliverAll(host, en, hits[..|hits| - 1], e), hits[|hits| - 1], e)
  }

  /** `emit` */
  function Emit(host: Host, en: Engine, e: Event): Engine {
    var hits := Hits(en.subs, e.kind);
    var v := DeliverAll(host, en, hits, e);
    v.(subs := Without(v.subs, OnceIds(hits)))
  }

  // ----------------------------------------------------------- the runtime

  /** The hook objects of all runtimes on one bus, by hook id. */
  class HookObjects {
    var subIds: map<nat, nat>
    var nextKey: nat
    // the action chains handed to the executors, with the event
    var log: seq<(nat, Event)>

    constructor ()
      ensures subIds == map[] && nextKey == 0 && log == []
    {
      subIds, nextKey, log := map[], 0, [];
    }
  }

  class HookRuntime {
    const bus: EventBus
    const objects: HookObjects
    const host: Host
    var hooks: map<nat, Hook>

    function View(): Engine
      reads this, bus, objects
    {
      Engine(bus.subs, bus.nextId, objects.subIds, objects.nextKey, hooks, objects.log)
    }

    constructor (bus: EventBus, objects: HookObjects, host: Host)
      ensures this.bus == bus && this.objects == objects && this.host == host && hooks == map[]
    {
      this.bus, this.objects, this.host := bus, objects, host;
      hooks := map[];
    }

    /** The hook object of `arm`, under a fresh id, and its subscription; the
        arming runtime then enters it in its own table. */
    method MakeHook(hook: Hook) returns (key: nat)
      modifies bus, objects
      ensures key == old(objects.nextKey) && View() == NewHook(old(View()), hook)
    {
      key := objects.nextKey;
      objects.nextKey := key + 1;
      var id := bus.Subscribe(hook.when, ForHook(key, hook), false);
      objects.subIds := objects.subIds[key := id];
    }

    /** `arm`; `ok` is false when it raises. */
    method ArmSpec(spec: Entries) returns (ok: bool)
      modifies this, bus, objects
      ensures ok == HookOf(host, spec).Some?
      ensures View() == if ok then Arm(old(View()), HookOf(host, spec).value) else old(View())
    {
      var hook := HookOf(host, spec);
      if hook.None? {
        return false;
      }
      var key := MakeHook(hook.value);
      hooks := hooks[key := hook.value];
      ok := true;
    }

    /** The closure that `arm` subscribes. */
    method Callback(key: nat, hook: Hook, e: Event)
      modifies objects, bus
      ensures View() == Fire(host, old(View()), key, hook, e)
    {
      hide HookMatches, Without;
      if !HookMatches(host, hook, e) {
        return;
      }
      if hook.once && key in objects.subIds {
        bus.Unsubscribe(objects.subIds[key]);
        objects.subIds := objects.subIds - {key};
      }
      objects.log := objects.log + [(key, e)];
    }

    /** `emit` with the call-backs of all armed hooks. */
    method EmitEvent(e: Event)
      modifies bus, objects
      ensures View() == Emit(host, old(View()), e)
    {
      hide Fire, Hits, OnceIds, Without;
      var hits := bus.Snapshot(e.kind);
      for i := 0 to |hits|
        invariant View() == DeliverAll(host, old(View()), hits[..i], e)
      {
        assert hits[..i + 1][..i] == hits[..i];
        if hits[i].handler.ForHook? {
          Callback(hits[i].handler.key, hits[i].handler.hook, e);
        }
      }
      assert hits[..|hits|] == hits;
      bus.RemoveOnce(hits);
    }

    /** `remove` */
    method RemoveHook(key: nat)
      modifies this`hooks, bus`subs
      ensures View() == Remove(old(View()), key)
    {
      hide Without;
      if key in hooks {
        hooks := hooks - {key};
        if key in objects.subIds {
          bus.Unsubscribe(objects.subIds[key]);
        }
      }
    }
  }
}
