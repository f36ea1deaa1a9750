/** The forms of an action spec, the arguments its handler gets, and the event
    names the validator knows. */
module ActionForms {
  import opened Text
  import opened Values
  import opened EventMatching
  import opened HookRuntimes
  import opened Actions

  // ------------------------------------------------------------------ specs

  lemma {:induction false} WithoutKeyLookup(es: Entries, key: string, k: string)
    ensures Lookup(WithoutKey(es, key), k) == if k == key then None else Lookup(es, k)
  {
    if es != [] {
      WithoutKeyLookup(es[1..], key, k);
      if es[0].0 != key {
        assert WithoutKey(es, key)[1..] == WithoutKey(es[1..], key);
      } else {
        assert WithoutKey(es, key) == WithoutKey(es[1..], key);
      }
    }
  }

  lemma {:induction false} PutLookup(es: Entries, key: string, v: Value, k: string)
    ensures Lookup(Put(es, key, v), k) == if k == key then Some(v) else Lookup(es, k)
  {
    if es == [] {
      assert [(key, v)][1..] == [];
    } else if es[0].0 == key {
      assert ([(key, v)] + es[1..])[1..] == es[1..];
    } else {
      PutLookup(es[1..], key, v, k);
      assert ([es[0]] + Put(es[1..], key, v))[1..] == Put(es[1..], key, v);
    }
  }

  /** A text names its action.  A mapping with `action` names it there, and all
      its other keys are arguments; one with a single other key names it by the
      key, with no arguments, those of a mapping, or one `value`.  Nothing else
      is an action. */
  lemma NormalForms(host: Host, spec: Value, k: string)
    ensures spec.Str? ==> Normalize(host, spec) == Action(spec.s, [])
    ensures spec.Dict? && Lookup(spec.entries, "action").Some? ==>
            && Normalize(host, spec).Action?
            && Normalize(host, spec).name == AsText(host, Get(spec.entries, "action"))
            && Lookup(Normalize(host, spec).args, k) == if k == "action" then None else Lookup(spec.entries, k)
    ensures forall name, v :: spec == Dict([(name, v)]) && name != "action" ==>
            Normalize(host, spec) == Action(name, if v.Null? then [] else if v.Dict? then v.entries else [("value", v)])
    ensures !spec.Str? && !(spec.Dict? && (Lookup(spec.entries, "action").Some? || |spec.entries| == 1)) ==>
            Normalize(host, spec) == Malformed
  {
    hide AsText;
    if spec.Dict? {
      WithoutKeyLookup(spec.entries, "action", k);
      forall name, v | spec == Dict([(name, v)]) && name != "action" ensures Lookup(spec.entries, "action") == None {
        assert spec.entries[1..] == [];
      }
    }
  }

  /** A handler gets the arguments of its spec; `phone_id`, when it is not among
      them, is the hook's phone, or that of the event if the hook names none,
      and `call_id` the event's call, if it has one. */
  lemma FilledArguments(args: Entries, onPhone: Option<string>, e: Event, k: string)
    ensures Lookup(Filled(args, onPhone, e), k) ==
            if Lookup(args, k).Some? then Lookup(args, k)
            else if k == "phone_id" then
              Some(if onPhone.Some? && onPhone.value != "" then Str(onPhone.value)
                   else if e.phone.Some? then Str(e.phone.value) else Null)
            else if k == "call_id" && e.call.Some? then Some(Int(e.call.value))
            else None
  {
    hide Lookup, Put;
    var phone := Optional(if onPhone.Some? && onPhone.value != "" then onPhone else e.phone);
    PutLookup(args, "phone_id", phone, k);
    PutLookup(args, "phone_id", phone, "call_id");
    if e.call.Some? {
      PutLookup(args, "call_id", Int(e.call.value), k);
      PutLookup(Put(args, "phone_id", phone), "call_id", Int(e.call.value), k);
    }
    assert "phone_id"[0] == 'p' && "call_id"[0] == 'c';
  }

  // ----------------------------------------------------------- event names

  /** The families of events. */
  const FAMILIES: seq<string> := [
    "reg", "call.state", "dtmf", "im", "scenario", "user", "timer", "sip.request", "sip.response", "media"]

  lemma FamiliesArePrefixes(i: nat)
    requires i < 10
    ensures |FAMILIES| == |PREFIXES| == 10 && PREFIXES[i] == FAMILIES[i] + "."
    ensures FAMILIES[i] != "" && FAMILIES[i][|FAMILIES[i]| - 1] != '.'
  {
  }

  lemma StrippedFamily(f: string)
    requires f != "" && f[|f| - 1] != '.'
    ensures RstripDots(f + ".") == f
  {
    assert (f + ".")[..|f|] == f;
  }

  /** The text begins with a family, followed by `tail`. */
  predicate InFamily(s: string, tail: string) {
    exists i :: 0 <= i < |FAMILIES| && FAMILIES[i] + tail <= s
  }

  /** A name is known if it lies in a family; a wildcard, if what it stands on
      begins with the name of one; and so is `*`. */
  lemma KnownIffInFamily(ev: string)
    ensures IsKnownEvent("*")
    ensures ev != "*" && !EndsWith(ev, ".*") ==> (IsKnownEvent(ev) <==> InFamily(ev, "."))
    ensures EndsWith(ev, ".*") ==> (IsKnownEvent(ev) <==> InFamily(ev[..|ev| - 2], ""))
  {
    hide FAMILIES, PREFIXES, RstripDots;
    forall i: nat | i < 10
      ensures |FAMILIES| == |PREFIXES| == 10 && PREFIXES[i] == FAMILIES[i] + "." && RstripDots(PREFIXES[i]) == FAMILIES[i]
    {
      FamiliesArePrefixes(i);
      StrippedFamily(FAMILIES[i]);
    }
    FamiliesArePrefixes(0);
    if EndsWith(ev, ".*") {
      WildcardKnown(ev[..|ev| - 2]);
      assert ev != "*";
    } else if ev != "*" {
      PlainKnown(ev);
    }
  }

  lemma PlainKnown(ev: string)
    requires |FAMILIES| == |PREFIXES| == 10 && forall i :: 0 <= i < 10 ==> PREFIXES[i] == FAMILIES[i] + "."
    ensures (exists p :: p in PREFIXES && p <= ev) <==> InFamily(ev, ".")
  {
    hide FAMILIES, PREFIXES;
    if p :| p in PREFIXES && p <= ev {
      var i :| 0 <= i < |PREFIXES| && PREFIXES[i] == p;
      assert FAMILIES[i] + "." <= ev;
    }
    if i :| 0 <= i < |FAMILIES| && FAMILIES[i] + "." <= ev {
      assert PREFIXES[i] in PREFIXES;
    }
  }

  lemma ScenarioIsFamily()
    ensures |FAMILIES| == 10 && FAMILIES[4] == "scenario"
  {
  }

  lemma WildcardKnown(b: string)
    requires |FAMILIES| == |PREFIXES| == 10
    requires forall i :: 0 <= i < 10 ==> PREFIXES[i] == FAMILIES[i] + "." && RstripDots(PREFIXES[i]) == FAMILIES[i]
    ensures (exists p :: p in PREFIXES && (RstripDots(p) <= b || b + "." == p)) || b == "scenario" <==> InFamily(b, "")
  {
    hide FAMILIES, PREFIXES, RstripDots;
    ScenarioIsFamily();
    assert forall f: string :: f + "" == f;
    if p :| p in PREFIXES && (RstripDots(p) <= b || b + "." == p) {
      var i :| 0 <= i < |PREFIXES| && PREFIXES[i] == p;
      SameBeforeDot(b, FAMILIES[i]);
      assert FAMILIES[i] + "" <= b;
    }
    if b == "scenario" {
      assert FAMILIES[4] + "" <= b;
    }
    if i :| 0 <= i < |FAMILIES| && FAMILIES[i] + "" <= b {
      assert PREFIXES[i] in PREFIXES && RstripDots(PREFIXES[i]) <= b;
    }
  }

  lemma SameBeforeDot(b: string, f: string)
    ensures b + "." == f + "." ==> b == f
  {
    if b + "." == f + "." {
      assert b == (b + ".")[..|b|] && f == (f + ".")[..|f|];
    }
  }

  // ------------------------------------------------------------ the outcome

  /** The first `i` actions run, and their handlers return. */
  ghost predicate PassedBefore(host: Host, specs: seq<Value>, works: nat -> bool, i: nat) {
    i <= |specs| && forall j: nat :: j < i ==> Runnable(host, specs[j]) && works(j)
  }

  /** A chain completes if and only if every action runs and its handler
      returns; else it stops at the first one that does not, for its reason,
      and every handler up to there was called. */
  lemma OutcomeIff(host: Host, specs: seq<Value>, onPhone: Option<string>, e: Event, works: nat -> bool,
                   handled: seq<(string, Entries)>, outcome: Outcome, i: nat)
    requires IsRunOf(host, specs, onPhone, e, works, handled, outcome)
    ensures outcome == Completed <==> PassedBefore(host, specs, works, |specs|)
    ensures outcome == HandlerFailed(i) <==>
            i < |specs| && PassedBefore(host, specs, works, i) && Runnable(host, specs[i]) && !works(i)
    ensures outcome == BadSpec(i) <==>
            i < |specs| && PassedBefore(host, specs, works, i) && Normalize(host, specs[i]) == Malformed
    ensures outcome == UnknownName(i) <==>
            i < |specs| && PassedBefore(host, specs, works, i) && Normalize(host, specs[i]).Action?
            && Normalize(host, specs[i]).name !in DISPATCH
    ensures i < |handled| <==> i < |specs| && PassedBefore(host, specs, works, i) && Runnable(host, specs[i])
    ensures i < |handled| ==> handled[i].0 == Normalize(host, specs[i]).name
                              && handled[i].1 == Filled(Normalize(host, specs[i]).args, onPhone, e)
  {
    hide Normalize, DISPATCH, Filled;
    var last: nat := match outcome
      case Completed => |specs|
      case HandlerFailed(k) => k
      case BadSpec(k) => k
      case UnknownName(k) => k;
    assert PassedBefore(host, specs, works, last);
    if last < |specs| {
      assert !PassedBefore(host, specs, works, last + 1);
    }
    assert i > last ==> !PassedBefore(host, specs, works, i);
  }
}
