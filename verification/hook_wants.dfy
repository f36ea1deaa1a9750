/** Which events a hook wants, in terms of its spec. */
module HookWants {
  import opened Text
  import opened Values
  import opened EventMatching
  import opened EventHub
  import opened HookRuntimes
  import opened HookLaws

  // --------------------------------------------------------- types of events

  /** A pattern that is no wildcard matches its own text only; `*` matches all. */
  lemma PlainPattern(p: string, kind: string)
    ensures MatchesOne("*", kind)
    ensures !EndsWith(p, ".*") && p != "*" ==> (MatchesOne(p, kind) <==> p == kind)
  {
  }

  // ------------------------------------------------------------------ phones

  /** Without predicates a hook wants exactly the events of its types, from its
      phone if it names one. */
  lemma PlainHook(host: Host, h: Hook, e: Event)
    requires h.preds == []
    ensures Wants(host, h, e) <==> MatchesKind(h.when, e.kind) && (h.onPhone == None || e.phone == h.onPhone)
  {
    hide MatchesKind;
  }

  /** With predicates it wants those of them on which each predicate holds. */
  lemma HookWithPredicates(host: Host, h: Hook, e: Event)
    ensures Wants(host, h, e) <==>
            && Wants(host, h.(preds := []), e)
            && forall i :: 0 <= i < |h.preds| ==> ValueMatches(host, h.preds[i].1, Actual(e, h.preds[i].0))
  {
    hide MatchesKind, ValueMatches, Actual;
  }

  lemma {:induction false} WantedFromPhone(host: Host, h: Hook, steps: seq<Step>, p: string)
    requires h.onPhone == Some(p)
    ensures forall e :: e in WantedEvents(host, h, steps) ==> e.phone == Some(p)
  {
    hide MatchesKind, MatchesAll;
    if steps != [] {
      WantedFromPhone(host, h, steps[..|steps| - 1], p);
    }
  }

  /** From the moment a hook for a phone is armed, whatever happens until it is
      removed, every event its actions are started for is that phone's. */
  lemma DispatchedFromPhone(host: Host, en: Engine, hook: Hook, p: string, steps: seq<Step>)
    requires WellFormed(en) && hook.onPhone == Some(p)
    requires AllEnabled(host, Arm(en, hook), steps) && RemoveStep(en.nextKey) !in steps
    ensures var before := |DispatchedTo(en.log, en.nextKey)|;
            var now := DispatchedTo(After(host, Arm(en, hook), steps).log, en.nextKey);
            before <= |now| && forall i :: before <= i < |now| ==> now[i].phone == Some(p)
  {
    var key := en.nextKey;
    NewHookKeeps(en, hook);
    hide WellFormed, AllEnabled, After, WantedEvents, DispatchedTo;
    FirstOrEvery(host, Arm(en, hook), steps, key);
    WantedFromPhone(host, hook, steps, p);
    var wanted := WantedEvents(host, hook, steps);
    assert Arm(en, hook).log == en.log && Arm(en, hook).hooks[key] == hook;
    forall i | 0 <= i < |Dispatches(hook, wanted)| ensures Dispatches(hook, wanted)[i].phone == Some(p) {
      assert Dispatches(hook, wanted)[i] == wanted[i] && wanted[i] in wanted;
    }
  }

  // -------------------------------------------------------------- predicates

  /** Equality of values: texts by their characters, numbers and truth values
      as numbers, lists element by element. */
  lemma SameIs(a: Value, b: Value)
    ensures a.Null? || a.Str? ==> (Same(a, b) <==> a == b)
    ensures a.Int? ==> (Same(a, b) <==> b == a || (b.Bool? && a.i == if b.b then 1 else 0))
    ensures a.Bool? ==> (Same(a, b) <==> b == a || (b.Int? && b.i == if a.b then 1 else 0))
    ensures a.List? ==>
            (Same(a, b) <==> b.List? && |a.items| == |b.items| && forall i :: 0 <= i < |a.items| ==> Same(a.items[i], b.items[i]))
  {
  }

  /** What each form of a predicate accepts: `None` only an absent value, a list
      its members, `~` a text that the pattern is found in, and every other
      value but the status classes what equals it. */
  lemma PredicateForms(host: Host, expected: Value, actual: Value)
    ensures expected.Null? ==> (ValueMatches(host, expected, actual) <==> actual == Null)
    ensures expected.List? ==>
            (ValueMatches(host, expected, actual) <==> exists i :: 0 <= i < |expected.items| && Same(actual, expected.items[i]))
    ensures expected.Bool? || expected.Int? || expected.Dict? ==>
            (ValueMatches(host, expected, actual) <==> Same(expected, actual))
    ensures expected.Str? && expected.s != "" && expected.s[0] != '~' && !('1' <= expected.s[0] <= '6' && expected.s[1..] == "xx") ==>
            (ValueMatches(host, expected, actual) <==> actual == expected)
    ensures expected.Str? && expected.s != "" && expected.s[0] == '~' ==>
            (ValueMatches(host, expected, actual) <==> actual != Null && host.search(expected.s[1..], actual))
  {
    SameIs(expected, actual);
    hide Same;
    if expected.Str? && expected.s != "" {
      var tail := expected.s[1..];
      assert tail == "xx" <==> |tail| == 2 && tail[0] == 'x' && tail[1] == 'x';
      assert |tail| == 2 ==> tail[0] == expected.s[1] && tail[1] == expected.s[2];
    }
  }

  // ------------------------------------------------------------- the value

  /** The value at a dotted path. */
  function Found(v: Value, path: string): Value {
    DottedGet(v, Split(path, "."))
  }

  lemma NoDotNoSplit(k: string)
    requires '.' !in k
    ensures Split(k, ".") == [k]
  {
    hide Find;
    NoDotNotFound(k);
  }

  lemma {:induction false} NoDotNotFound(k: string)
    requires '.' !in k
    ensures Find(k, ".") == None
  {
    if k != "" {
      assert k[0] in k;
      NoDotNotFound(k[1..]);
    }
  }

  lemma DottedCons(v: Value, k: string, ps: seq<string>)
    ensures DottedGet(v, [k] + ps) ==
            if v.Dict? && Lookup(v.entries, k).Some? then DottedGet(Lookup(v.entries, k).value, ps) else Null
  {
    assert ([k] + ps)[1..] == ps;
  }

  /** A path names a key, and in what is there the rest of the path; an absent
      key, and a key of what is no mapping, have no value. */
  lemma FoundByPath(v: Value, k: string, rest: string)
    requires '.' !in k
    ensures Found(v, k) == if v.Dict? then Get(v.entries, k) else Null
    ensures Found(v, k + "." + rest) == if v.Dict? && Lookup(v.entries, k).Some? then Found(Get(v.entries, k), rest) else Null
  {
    hide Split, Lookup;
    NoDotNoSplit(k);
    SegmentsOfDotted(k, rest);
    DottedCons(v, k, []);
    DottedCons(v, k, Split(rest, "."));
    assert [k] + [] == [k];
  }

  /** A key's value is the one in the event's data, and only when there is none
      the event's own attribute of that name, if it has one. */
  lemma ActualIs(e: Event, key: string)
    ensures var v := Found(Dict(e.data), key);
            Actual(e, key) ==
            if v != Null then v
            else if key == "type" then Str(e.kind)
            else if key == "phone_id" then (if e.phone.Some? then Str(e.phone.value) else Null)
            else if key == "call_id" then (if e.call.Some? then Int(e.call.value) else Null)
            else if key == "data" then Dict(e.data)
            else Null
  {
    hide DottedGet, Split;
  }

  /** A predicate that expects nothing holds where the data has no such key. */
  lemma AbsentKey(host: Host, e: Event, key: string)
    requires '.' !in key && Lookup(e.data, key) == None
    requires key != "type" && key != "phone_id" && key != "call_id" && key != "data"
    ensures ValueMatches(host, Null, Actual(e, key))
  {
    hide DottedGet, Split, ValueMatches;
    FoundByPath(Dict(e.data), key, "");
    ActualIs(e, key);
    PredicateForms(host, Null, Actual(e, key));
  }

  // --------------------------------------------------------------- the spec

  /** The hook that a spec arms: its types are the text or the texts of `when`,
      it is for the phone of `on_phone` unless that is absent or empty, its
      predicates and actions are those given, and it is a once-hook unless
      `once` is given and false. */
  lemma ArmedAsSpecified(host: Host, spec: Entries)
    requires HookOf(host, spec).Some?
    ensures var h, when := HookOf(host, spec).value, Get(spec, "when");
            && (when.Str? ==> h.when == [when.s])
            && (!when.Str? ==> when.List? && |h.when| == |when.items|
                               && forall i :: 0 <= i < |h.when| ==> when.items[i] == Str(h.when[i]))
    ensures var h, phone := HookOf(host, spec).value, Get(spec, "on_phone");
            && (phone == Null || phone == Str("") ==> h.onPhone == None)
            && (phone.Str? && phone.s != "" ==> h.onPhone == Some(phone.s))
    ensures var h, match_ := HookOf(host, spec).value, Get(spec, "match");
            && (!Truthy(match_) ==> h.preds == []) && (match_.Dict? ==> h.preds == match_.entries)
    ensures var h, then_ := HookOf(host, spec).value, Get(spec, "then");
            && (!Truthy(then_) ==> h.actions == []) && (then_.List? ==> h.actions == then_.items)
    ensures HookOf(host, spec).value.once <==> Lookup(spec, "once") == None || Truthy(Get(spec, "once"))
  {
    hide Lookup, DictOfList, AsText;
  }
}
