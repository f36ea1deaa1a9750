/** Action specs, their execution in chains, and the static validation of a
    scenario. */
module Actions {
  import opened Text
  import opened Values
  import opened EventMatching
  import opened HookRuntimes

  // --------------------------------------------------------- normalisation

  datatype Normalized = Action(name: string, args: Entries) | Malformed

  function WithoutKey(es: Entries, key: string): Entries {
    if es == [] then [] else (if es[0].0 == key then [] else [es[0]]) + WithoutKey(es[1..], key)
  }

  /** `normalize_action` */
  function Normalize(host: Host, spec: Value): Normalized {
    match spec
    case Str(s) => Action(s, [])
    case Dict(es) =>
      if Lookup(es, "action").Some? then Action(AsText(host, Lookup(es, "action").value), WithoutKey(es, "action"))
      else if |es| == 1 then
        match es[0].1
        case Null => Action(es[0].0, [])
        case Dict(args) => Action(es[0].0, args)
        case v => Action(es[0].0, [("value", v)])
      else Malformed
    case _ => Malformed
  }

  // ------------------------------------------------------------- execution

  /** The keys of the executor's dispatch table. */
  const DISPATCH: seq<string> := [
    "answer", "hangup", "hangup_all", "reject", "hold", "unhold", "send_dtmf", "blind_transfer",
    "attended_transfer", "conference", "make_call", "play_audio", "stop_audio", "send_message", "set_codecs",
    "wait", "wait_until", "emit", "checkpoint", "log"]

  /** The validator's list. */
  const KNOWN_ACTIONS: seq<string> := [
    "answer", "hangup", "hangup_all", "reject", "hold", "unhold",
    "send_dtmf", "blind_transfer", "attended_transfer", "conference", "make_call",
    "play_audio", "stop_audio",
    "send_message",
    "set_codecs",
    "wait", "wait_until", "emit", "checkpoint", "log"]

  datatype Outcome = Completed | HandlerFailed(at: nat) | BadSpec(at: nat) | UnknownName(at: nat)

  /** The arguments a handler gets, with the defaults of the hook and the event. */
  function Filled(args: Entries, onPhone: Option<string>, e: Event): Entries {
    var a := if Lookup(args, "phone_id").Some? then args
             else Put(args, "phone_id", Optional(if onPhone.Some? && onPhone.value != "" then onPhone else e.phone));
    if Lookup(a, "call_id").Some? || e.call.None? then a else Put(a, "call_id", Int(e.call.value))
  }

  /** The spec names a handler. */
  predicate Runnable(host: Host, spec: Value) {
    var n := Normalize(host, spec);
    n.Action? && n.name in DISPATCH
  }

  /** What the handler of a spec is called with. */
  function CallOf(host: Host, spec: Value, onPhone: Option<string>, e: Event): (string, Entries)
    requires Runnable(host, spec)
  {
    var n := Normalize(host, spec);
    (n.name, Filled(n.args, onPhone, e))
  }

  /** A run of a chain: the handlers called are those of a prefix, in order,
      and the outcome says where and why it stopped.  `works(i)` says whether
      the handler of step `i` returns. */
  predicate IsRunOf(host: Host, specs: seq<Value>, onPhone: Option<string>, e: Event, works: nat -> bool,
                    handled: seq<(string, Entries)>, outcome: Outcome) {
    && |handled| <= |specs|
    && (forall i :: 0 <= i < |handled| ==>
         && Runnable(host, specs[i]) && handled[i] == CallOf(host, specs[i], onPhone, e)
         && (works(i) || outcome == HandlerFailed(i)))
    && match outcome
       case Completed => |handled| == |specs|
       case HandlerFailed(i) => |handled| == i + 1 && !works(i)
       case BadSpec(i) => |handled| == i < |specs| && Normalize(host, specs[i]) == Malformed
       case UnknownName(i) =>
         |handled| == i < |specs| && Normalize(host, specs[i]).Action? && Normalize(host, specs[i]).name !in DISPATCH
  }

  /** `execute` */
  method Execute(host: Host, specs: seq<Value>, onPhone: Option<string>, e: Event, works: nat -> bool)
    returns (handled: seq<(string, Entries)>, outcome: Outcome)
    ensures IsRunOf(host, specs, onPhone, e, works, handled, outcome)
  {
    hide DISPATCH, Normalize, Filled;
    handled := [];
    for i := 0 to |specs|
      invariant |handled| == i
      invariant forall j :: 0 <= j < i ==>
        Runnable(host, specs[j]) && handled[j] == CallOf(host, specs[j], onPhone, e) && works(j)
    {
      var n := Normalize(host, specs[i]);
      if n == Malformed {
        return handled, BadSpec(i);
      }
      if n.name !in DISPATCH {
        return handled, UnknownName(i);
      }
      handled := handled + [(n.name, Filled(n.args, onPhone, e))];
      if !works(i) {
        return handled, HandlerFailed(i);
      }
    }
    outcome := Completed;
  }

  // ------------------------------------------------------------ validation

  const PREFIXES: seq<string> := [
    "reg.", "call.state.", "dtmf.", "im.", "scenario.", "user.", "timer.", "sip.request.", "sip.response.", "media."]

  /** `p.rstrip(".")` */
  function RstripDots(p: string): string {
    if p != "" && p[|p| - 1] == '.' then RstripDots(p[..|p| - 1]) else p
  }

  /** `_is_known_event` */
  predicate IsKnownEvent(ev: string) {
    if ev == "*" then true
    else if EndsWith(ev, ".*") then
      var b := ev[..|ev| - 2];
      (exists p :: p in PREFIXES && (RstripDots(p) <= b || b + "." == p)) || b == "scenario"
    else exists p :: p in PREFIXES && p <= ev
  }

  datatype Issue =
    | MissingWhen(hook: nat) | UnknownEvent(hook: nat, name: string) | BadAction(hook: nat, step: nat)
    | BadStop(index: nat) | BadInitial(index: nat)

  datatype Scenario = Scenario(name: string, phones: seq<string>, hooks: seq<Entries>, initial: seq<Value>,
                               stopOn: seq<Entries>)

  /** The report of the validator, or that it raises. */
  datatype Report = Raised | Issues(list: seq<Issue>)

  /** `_check_action_spec` finds no fault. */
  predicate IsFine(host: Host, spec: Value) {
    var n := Normalize(host, spec);
    n.Action? && n.name in KNOWN_ACTIONS
  }

  function EventIssues(host: Host, idx: nat, ws: seq<Value>): seq<Issue> {
    if ws == [] then []
    else
      var name := AsText(host, ws[|ws| - 1]);
      EventIssues(host, idx, ws[..|ws| - 1]) + if IsKnownEvent(name) then [] else [UnknownEvent(idx, name)]
  }

  function ActionIssues(host: Host, idx: nat, specs: seq<Value>): seq<Issue> {
    if specs == [] then []
    else
      ActionIssues(host, idx, specs[..|specs| - 1])
      + if IsFine(host, specs[|specs| - 1]) then [] else [BadAction(idx, |specs| - 1)]
  }

  /** `[when] if isinstance(when, str) else list(when)` for a truthy `when` */
  function Whens(when: Value): Option<seq<Value>> {
    if when.Str? then Some([when]) else ToList(when)
  }

  /** `_check_hook`, `None` when it raises */
  function HookIssues(host: Host, h: Entries, idx: nat): Option<seq<Issue>> {
    var when := Get(h, "when");
    if !Truthy(when) then Some([MissingWhen(idx)])
    else
      var ws, specs := Whens(when), ToList(Get(h, "then"));
      if ws.None? || specs.None? then None
      else Some(EventIssues(host, idx, ws.value) + ActionIssues(host, idx, specs.value))
  }

  function AllHookIssues(host: Host, hs: seq<Entries>): Option<seq<Issue>> {
    if hs == [] then Some([])
    else
      var before, last := AllHookIssues(host, hs[..|hs| - 1]), HookIssues(host, hs[|hs| - 1], |hs| - 1);
      if before.None? || last.None? then None else Some(before.value + last.value)
  }

  function StopIssues(host: Host, ss: seq<Entries>): seq<Issue> {
    if ss == [] then []
    else
      var ev := Get(ss[|ss| - 1], "event");
      StopIssues(host, ss[..|ss| - 1])
      + if ev == Null || IsKnownEvent(AsText(host, ev)) then [] else [BadStop(|ss| - 1)]
  }

  function InitialIssues(host: Host, specs: seq<Value>): seq<Issue> {
    if specs == [] then []
    else
      InitialIssues(host, specs[..|specs| - 1])
      + if IsFine(host, specs[|specs| - 1]) then [] else [BadInitial(|specs| - 1)]
  }

  function Validated(host: Host, s: Scenario): Report {
    match AllHookIssues(host, s.hooks)
    case None => Raised
    case Some(list) => Issues(list + StopIssues(host, s.stopOn) + InitialIssues(host, s.initial))
  }

  /** `validate_scenario` */
  method ValidateScenario(host: Host, s: Scenario) returns (r: Report)
    ensures r == Validated(host, s)
  {
    hide IsKnownEvent, IsFine, HookIssues, AsText;
    var issues: seq<Issue> := [];
    for i := 0 to |s.hooks|
      invariant AllHookIssues(host, s.hooks[..i]) == Some(issues)
    {
      assert s.hooks[..i + 1][..i] == s.hooks[..i];
      var found := CheckHook(host, s.hooks[i], i);
      if found.None? {
        RaisedStays(host, s.hooks, i + 1);
        return Raised;
      }
      issues := issues + found.value;
    }
    assert s.hooks[..|s.hooks|] == s.hooks;
    var stops := CheckStops(host, s.stopOn);
    var initial := CheckInitial(host, s.initial);
    r := Issues(issues + stops + initial);
  }

  lemma {:induction false} RaisedStays(host: Host, hs: seq<Entries>, i: nat)
    requires i <= |hs| && AllHookIssues(host, hs[..i]).None?
    ensures AllHookIssues(host, hs).None?
    decreases |hs| - i
  {
    hide HookIssues;
    if i < |hs| {
      assert hs[..i + 1][..i] == hs[..i];
      RaisedStays(host, hs, i + 1);
    } else {
      assert hs[..i] == hs;
    }
  }

  method CheckHook(host: Host, h: Entries, idx: nat) returns (r: Option<seq<Issue>>)
    ensures r == HookIssues(host, h, idx)
  {
    hide IsKnownEvent, IsFine, AsText;
    var when := Get(h, "when");
    if !Truthy(when) {
      return Some([MissingWhen(idx)]);
    }
    var ws, specs := Whens(when), ToList(Get(h, "then"));
    if ws.None? || specs.None? {
      return None;
    }
    var issues: seq<Issue> := [];
    for i := 0 to |ws.value|
      invariant issues == EventIssues(host, idx, ws.value[..i])
    {
      assert ws.value[..i + 1][..i] == ws.value[..i];
      if !IsKnownEvent(AsText(host, ws.value[i])) {
        issues := issues + [UnknownEvent(idx, AsText(host, ws.value[i]))];
      }
    }
    assert ws.value[..|ws.value|] == ws.value;
    var events := issues;
    for j := 0 to |specs.value|
      invariant issues == events + ActionIssues(host, idx, specs.value[..j])
    {
      assert specs.value[..j + 1][..j] == specs.value[..j];
      if !IsFine(host, specs.value[j]) {
        issues := issues + [BadAction(idx, j)];
      }
    }
    assert specs.value[..|specs.value|] == specs.value;
    r := Some(issues);
  }

  method CheckStops(host: Host, ss: seq<Entries>) returns (issues: seq<Issue>)
    ensures issues == StopIssues(host, ss)
  {
    hide IsKnownEvent, AsText;
    issues := [];
    for i := 0 to |ss|
      invariant issues == StopIssues(host, ss[..i])
    {
      assert ss[..i + 1][..i] == ss[..i];
      var ev := Get(ss[i], "event");
      if ev != Null && !IsKnownEvent(AsText(host, ev)) {
        issues := issues + [BadStop(i)];
      }
    }
    assert ss[..|ss|] == ss;
  }

  method CheckInitial(host: Host, specs: seq<Value>) returns (issues: seq<Issue>)
    ensures issues == InitialIssues(host, specs)
  {
    hide IsFine;
    issues := [];
    for i := 0 to |specs|
      invariant issues == InitialIssues(host, specs[..i])
    {
      assert specs[..i + 1][..i] == specs[..i];
      if !IsFine(host, specs[i]) {
        issues := issues + [BadInitial(i)];
      }
    }
    assert specs[..|specs|] == specs;
  }

  // -------------------------------------------------- what validation buys

  /** The validator's list and the dispatch table name the same actions. */
  lemma KnownIsDispatched(name: string)
    ensures name in KNOWN_ACTIONS <==> name in DISPATCH
  {
  }

  lemma {:induction false} NoEventIssues(host: Host, idx: nat, ws: seq<Value>)
    ensures EventIssues(host, idx, ws) == [] <==> forall w :: w in ws ==> IsKnownEvent(AsText(host, w))
  {
    hide IsKnownEvent, AsText;
    if ws != [] {
      NoEventIssues(host, idx, ws[..|ws| - 1]);
      assert ws == ws[..|ws| - 1] + [ws[|ws| - 1]];
    }
  }

  lemma {:induction false} NoActionIssues(host: Host, idx: nat, specs: seq<Value>)
    ensures ActionIssues(host, idx, specs) == [] <==> forall x :: x in specs ==> IsFine(host, x)
  {
    hide IsFine;
    if specs != [] {
      NoActionIssues(host, idx, specs[..|specs| - 1]);
      assert specs == specs[..|specs| - 1] + [specs[|specs| - 1]];
    }
  }

  lemma {:induction false} NoInitialIssues(host: Host, specs: seq<Value>)
    ensures InitialIssues(host, specs) == [] <==> forall x :: x in specs ==> IsFine(host, x)
  {
    hide IsFine;
    if specs != [] {
      NoInitialIssues(host, specs[..|specs| - 1]);
      assert specs == specs[..|specs| - 1] + [specs[|specs| - 1]];
    }
  }

  lemma {:induction false} NoHookIssues(host: Host, hs: seq<Entries>, i: nat)
    requires AllHookIssues(host, hs) == Some([]) && i < |hs|
    ensures HookIssues(host, hs[i], i) == Some([])
  {
    hide HookIssues;
    if i < |hs| - 1 {
      NoHookIssues(host, hs[..|hs| - 1], i);
    }
  }

  lemma PrefixHeads(p: string)
    requires p in PREFIXES
    ensures |p| > 2 && 'a' <= p[0] <= 'z'
  {
  }

  lemma {:induction false} RstripHead(p: string)
    requires p != "" && p[0] != '.'
    ensures RstripDots(p) != "" && RstripDots(p)[0] == p[0]
  {
    if p[|p| - 1] == '.' {
      RstripHead(p[..|p| - 1]);
    }
  }

  /** A known event starts with a small letter or is the wildcard. */
  lemma KnownStart(ev: string)
    requires IsKnownEvent(ev)
    ensures ev != "" && (ev[0] == '*' || 'a' <= ev[0] <= 'z')
  {
    hide PREFIXES, RstripDots;
    if ev == "*" {
    } else if EndsWith(ev, ".*") {
      var b := ev[..|ev| - 2];
      if b != "scenario" {
        var p :| p in PREFIXES && (RstripDots(p) <= b || b + "." == p);
        PrefixHeads(p);
        RstripHead(p);
        assert b + "." == p ==> (b + ".")[0] == b[0];
      }
    } else {
      var p :| p in PREFIXES && p <= ev;
      PrefixHeads(p);
    }
  }

  /** Only the text of a string is a known event. */
  lemma OnlyStringsAreEvents(host: Host, v: Value)
    requires IsKnownEvent(AsText(host, v))
    ensures v.Str?
  {
    hide IsKnownEvent;
    KnownStart(AsText(host, v));
  }

  /** A truthy `when` whose texts are known events is a string, a list of
      strings, or a mapping, which `arm` refuses. */
  lemma KnownWhens(host: Host, when: Value)
    requires Truthy(when) && Whens(when).Some?
    requires forall w :: w in Whens(when).value ==> IsKnownEvent(AsText(host, w))
    ensures when.Str? || when.List? || when.Dict?
    ensures WhenOf(when).Some? <==> when.Str? || when.List?
  {
    hide IsKnownEvent, AsText;
    if when.List? {
      forall i | 0 <= i < |when.items| ensures when.items[i].Str? {
        assert when.items[i] in Whens(when).value;
        OnlyStringsAreEvents(host, when.items[i]);
      }
    }
  }

  /** When validation passes, a hook arms if and only if its `when` is a string
      or a list and its `match` makes a mapping; the validator looks at neither. */
  lemma ValidatedHookArms(host: Host, s: Scenario, i: nat)
    requires Validated(host, s) == Issues([]) && i < |s.hooks|
    ensures var h := s.hooks[i];
            HookOf(host, h).Some? <==>
            (Get(h, "when").Str? || Get(h, "when").List?) && ToDict(Get(h, "match")).Some?
  {
    hide IsKnownEvent, AsText, AllHookIssues, StopIssues, InitialIssues, EventIssues, ActionIssues, ToDict, WhenOf, IsFine;
    CleanReport(host, s);
    NoHookIssues(host, s.hooks, i);
    var h := s.hooks[i];
    var ws, specs := Whens(Get(h, "when")), ToList(Get(h, "then"));
    NoEventIssues(host, i, ws.value);
    KnownWhens(host, Get(h, "when"));
  }

  lemma CleanReport(host: Host, s: Scenario)
    requires Validated(host, s) == Issues([])
    ensures AllHookIssues(host, s.hooks) == Some([]) && StopIssues(host, s.stopOn) == [] && InitialIssues(host, s.initial) == []
  {
    hide AllHookIssues, StopIssues, InitialIssues;
    var list := AllHookIssues(host, s.hooks).value;
    assert |list + StopIssues(host, s.stopOn) + InitialIssues(host, s.initial)| == 0;
  }

  lemma ValidatedAreRunnable(host: Host, s: Scenario, spec: Value)
    requires Validated(host, s) == Issues([])
    requires spec in s.initial || exists h :: h in s.hooks && HookOf(host, h).Some? && spec in HookOf(host, h).value.actions
    ensures Runnable(host, spec)
  {
    hide IsKnownEvent, AsText, AllHookIssues, StopIssues, InitialIssues, EventIssues, ActionIssues, ToDict, WhenOf,
      Normalize, KNOWN_ACTIONS, DISPATCH;
    CleanReport(host, s);
    if spec in s.initial {
      NoInitialIssues(host, s.initial);
    } else {
      var h :| h in s.hooks && HookOf(host, h).Some? && spec in HookOf(host, h).value.actions;
      var i :| 0 <= i < |s.hooks| && s.hooks[i] == h;
      NoHookIssues(host, s.hooks, i);
      NoActionIssues(host, i, ToList(Get(h, "then")).value);
    }
    assert IsFine(host, spec);
    KnownIsDispatched(Normalize(host, spec).name);
  }

  /** When validation passes, no run of an armed hook's chain or of the initial
      actions ends at a malformed spec or an unknown action: it completes, or it
      stops where a handler fails, with exactly the handlers up to it called. */
  lemma ValidatedChainsRun(host: Host, s: Scenario, specs: seq<Value>, onPhone: Option<string>, e: Event,
                           works: nat -> bool, handled: seq<(string, Entries)>, outcome: Outcome)
    requires Validated(host, s) == Issues([])
    requires specs == s.initial || exists h :: h in s.hooks && HookOf(host, h).Some? && specs == HookOf(host, h).value.actions
    requires IsRunOf(host, specs, onPhone, e, works, handled, outcome)
    ensures outcome.Completed? || outcome.HandlerFailed?
    ensures outcome.Completed? <==> forall i: nat :: i < |specs| ==> works(i)
  {
    hide Validated, HookOf, Normalize, DISPATCH, CallOf;
    forall spec | spec in specs ensures Runnable(host, spec) {
      ValidatedAreRunnable(host, s, spec);
    }
    assert forall i :: 0 <= i < |specs| ==> specs[i] in specs;
  }

  /** A mapping as `when`, or a text as `match`, passes validation and does not arm. */
  lemma ValidationMissesShapes(host: Host)
    ensures var h: Entries := [("when", Dict([("reg.success", Null)]))];
            var s := Scenario("s", [], [h], [], []);
            Validated(host, s) == Issues([]) && HookOf(host, h) == None
    ensures var h: Entries := [("when", Str("reg.success")), ("match", Str("x"))];
            var s := Scenario("s", [], [h], [], []);
            Validated(host, s) == Issues([]) && HookOf(host, h) == None
  {
    hide IsKnownEvent;
    RegIsKnown();
    var a: Entries := [("when", Dict([("reg.success", Null)]))];
    var b: Entries := [("when", Str("reg.success")), ("match", Str("x"))];
    assert b[1..] == [("match", Str("x"))] && b[1..][1..] == [] && a[1..] == [];
    assert Lookup(b[1..], "match") == Some(Str("x")) && Lookup(b[1..], "then") == None;
    assert Whens(Get(a, "when")).value == [Str("reg.success")];
    OneHook(host, a, [Str("reg.success")]);
    OneHook(host, b, [Str("reg.success")]);
  }

  lemma RegIsKnown()
    ensures IsKnownEvent("reg.success")
  {
    var p := PREFIXES[0];
    assert p == "reg." && p in PREFIXES && p <= "reg.success";
    assert "reg.success"[10] == 's' && ".*"[1] == '*';
    var tail := "reg.success"[9..];
    assert tail[1] == 's' && tail != ".*";
  }

  /** A scenario of one hook that waits for known events and does nothing. */
  lemma OneHook(host: Host, h: Entries, ws: seq<Value>)
    requires Truthy(Get(h, "when")) && Whens(Get(h, "when")) == Some(ws) && Get(h, "then") == Null
    requires forall w :: w in ws ==> IsKnownEvent(AsText(host, w))
    ensures Validated(host, Scenario("s", [], [h], [], [])) == Issues([])
  {
    hide IsKnownEvent, AsText;
    NoEventIssues(host, 0, ws);
    assert ActionIssues(host, 0, []) == [] && HookIssues(host, h, 0) == Some([]);
    assert [h][..0] == [] && AllHookIssues(host, []) == Some([]);
    assert AllHookIssues(host, [h]) == Some([]);
  }
}
