/** Which events a subscription and a hook's predicates match. */
module EventMatching {
  import opened Text
  import opened Values

  datatype Event = Event(kind: string, phone: Option<string>, call: Option<int>, data: Entries)

  // --------------------------------------------------------- type patterns

  predicate EndsWith(s: string, t: string) {
    |t| <= |s| && s[|s| - |t|..] == t
  }

  predicate MatchesOne(p: string, kind: string) {
    if p == "*" then true
    else if EndsWith(p, ".*") then
      var prefix := p[..|p| - 2];
      kind == prefix || prefix + "." <= kind
    else p == kind
  }

  /** `_matches` */
  predicate MatchesKind(patterns: seq<string>, kind: string) {
    exists p :: p in patterns && MatchesOne(p, kind)
  }

  /** The loop of `_matches` */
  method AnyMatches(patterns: seq<string>, kind: string) returns (r: bool)
    ensures r == MatchesKind(patterns, kind)
  {
    for i := 0 to |patterns|
      invariant forall p :: p in patterns[..i] ==> !MatchesOne(p, kind)
    {
      if MatchesOne(patterns[i], kind) {
        return true;
      }
    }
    assert patterns[..|patterns|] == patterns;
    r := false;
  }

  lemma SplitAtFirst(s: string, i: nat)
    requires Find(s, ".") == Some(i)
    ensures i < |s| && Split(s, ".") == [s[..i]] + Split(s[i + 1..], ".")
  {
    hide Find;
  }

  /** The segments of `prefix + "." + rest` are those of the two parts. */
  lemma {:induction false} SegmentsOfDotted(a: string, b: string)
    ensures Split(a + "." + b, ".") == Split(a, ".") + Split(b, ".")
    decreases |a|
  {
    hide Find;
    var t := a + "." + b;
    FindInDotted(a, b);
    if Find(a, ".").Some? {
      var i := Find(a, ".").value;
      SplitAtFirst(a, i);
      SplitAtFirst(t, i);
      SegmentsOfDotted(a[i + 1..], b);
      assert t[..i] == a[..i] && t[i + 1..] == a[i + 1..] + "." + b;
      assert [a[..i]] + (Split(a[i + 1..], ".") + Split(b, ".")) == [a[..i]] + Split(a[i + 1..], ".") + Split(b, ".");
    } else {
      SplitAtFirst(t, |a|);
      assert t[..|a|] == a && t[|a| + 1..] == b;
    }
  }

  lemma FindDot(s: string)
    requires s != ""
    ensures Find(s, ".") == if s[0] == '.' then Some(0)
                            else if Find(s[1..], ".").Some? then Some(Find(s[1..], ".").value + 1) else None
  {
    assert "." <= s <==> s[0] == '.';
  }

  lemma NoDot()
    ensures Find("", ".") == None
  {
  }

  lemma {:induction false} FindInDotted(a: string, b: string)
    ensures Find(a + "." + b, ".") == if Find(a, ".").Some? then Find(a, ".") else Some(|a|)
  {
    hide Find;
    var t := a + "." + b;
    FindDot(t);
    if a == "" {
      NoDot();
      assert t[0] == '.';
    } else {
      FindDot(a);
      FindInDotted(a[1..], b);
      assert t[1..] == a[1..] + "." + b && t[0] == a[0];
    }
  }

  /** A pattern `p.*` matches exactly the types whose dot-separated segments
      start with those of `p`. */
  lemma PrefixPattern(p: string, kind: string)
    ensures MatchesOne(p + ".*", kind) <==> Split(p, ".") <= Split(kind, ".")
  {
    hide Find, Split, Join;
    assert (p + ".*")[..|p|] == p && (p + ".*")[|p|..] == ".*";
    if kind != p && p + "." <= kind {
      var rest := kind[|p| + 1..];
      assert kind == p + "." + rest;
      SegmentsOfDotted(p, rest);
    }
    if Split(p, ".") <= Split(kind, ".") {
      SegmentsGiveDots(p, kind);
    }
  }

  lemma SegmentsGiveDots(p: string, kind: string)
    requires Split(p, ".") <= Split(kind, ".")
    ensures kind == p || p + "." <= kind
  {
    hide Find, Split, Join;
    var rest := Split(kind, ".")[|Split(p, ".")|..];
    assert Split(kind, ".") == Split(p, ".") + rest;
    JoinOfSplit(kind, ".");
    JoinOfSplit(p, ".");
    if rest != [] {
      JoinAppend(Split(p, "."), rest, ".");
      assert kind == p + "." + Join(rest, ".");
    } else {
      assert Split(p, ".") + rest == Split(p, ".");
    }
  }

  lemma {:induction false} JoinAppend(a: seq<string>, b: seq<string>, sep: string)
    requires a != [] && b != []
    ensures Join(a + b, sep) == Join(a, sep) + sep + Join(b, sep)
  {
    if |a| == 1 {
      assert (a + b)[1..] == b;
    } else {
      JoinAppend(a[1..], b, sep);
      assert (a + b)[1..] == a[1..] + b;
    }
  }

  // ------------------------------------------------------------ predicates

  /** `_dotted_get` over the parts of the path */
  function DottedGet(v: Value, parts: seq<string>): Value
    decreases |parts|
  {
    if parts == [] then v
    else if v.Dict? && Lookup(v.entries, parts[0]).Some?
    then DottedGet(Lookup(v.entries, parts[0]).value, parts[1..])
    else Null
  }

  function Optional(o: Option<string>): Value {
    if o.Some? then Str(o.value) else Null
  }

  /** `getattr(event, key, None)` */
  function Attribute(e: Event, key: string): Value {
    if key == "type" then Str(e.kind)
    else if key == "phone_id" then Optional(e.phone)
    else if key == "call_id" then (if e.call.Some? then Int(e.call.value) else Null)
    else if key == "data" then Dict(e.data)
    else Null
  }

  function Actual(e: Event, key: string): Value {
    var v := DottedGet(Dict(e.data), Split(key, "."));
    if v == Null then Attribute(e, key) else v
  }

  predicate IsClass(s: string) {
    |s| == 3 && '1' <= s[0] <= '6' && s[1] == 'x' && s[2] == 'x'
  }

  /** `int(actual)`, `None` when it raises */
  function CodeOf(v: Value): Option<int> {
    match v
    case Str(s) => PyInt(s)
    case _ => AsInt(v)
  }

  /** `_value_matches` */
  predicate ValueMatches(host: Host, expected: Value, actual: Value) {
    match expected
    case Null => actual == Null
    case List(xs) => exists i :: 0 <= i < |xs| && Same(actual, xs[i])
    case Str(s) =>
      if "~" <= s then actual != Null && host.search(s[1..], actual)
      else if IsClass(s) then
        var low := (s[0] as int - '0' as int) * 100;
        CodeOf(actual).Some? && low <= CodeOf(actual).value < low + 100
      else Same(expected, actual)
    case _ => Same(expected, actual)
  }

  /** What a status class says of a value. */
  lemma ClassRange(host: Host, c: char, actual: Value)
    requires '1' <= c <= '6'
    ensures ValueMatches(host, Str([c, 'x', 'x']), actual) <==>
            CodeOf(actual).Some? && CodeOf(actual).value / 100 == c as int - '0' as int
  {
    hide PyInt, Same;
    var s := [c, 'x', 'x'];
    assert IsClass(s) && s[0] == c && !("~" <= s);
  }

  /** The six classes partition the codes from 100 to 699, given as numbers or
      as texts that read as one: such a value is in exactly one class, and any
      other value is in none. */
  lemma ClassesPartition(host: Host, actual: Value)
    ensures (exists c :: '1' <= c <= '6' && ValueMatches(host, Str([c, 'x', 'x']), actual)) <==>
            CodeOf(actual).Some? && 100 <= CodeOf(actual).value < 700
    ensures forall c, d :: '1' <= c <= '6' && '1' <= d <= '6'
              && ValueMatches(host, Str([c, 'x', 'x']), actual) && ValueMatches(host, Str([d, 'x', 'x']), actual)
              ==> c == d
  {
    hide ValueMatches, CodeOf;
    forall c | '1' <= c <= '6'
      ensures ValueMatches(host, Str([c, 'x', 'x']), actual) <==>
              CodeOf(actual).Some? && CodeOf(actual).value / 100 == c as int - '0' as int
    {
      ClassRange(host, c, actual);
    }
    if CodeOf(actual).Some? && 100 <= CodeOf(actual).value < 700 {
      var c := ('0' as int + CodeOf(actual).value / 100) as char;
      assert '1' <= c <= '6' && ValueMatches(host, Str([c, 'x', 'x']), actual);
    }
  }

  /** `_event_matches_predicates` */
  predicate MatchesAll(host: Host, e: Event, preds: Entries) {
    forall i :: 0 <= i < |preds| ==> ValueMatches(host, preds[i].1, Actual(e, preds[i].0))
  }

  // ----------------------------------------------------------------- hooks

  /** What an armed hook is made of. */
  datatype Hook = Hook(when: seq<string>, onPhone: Option<string>, preds: Entries, actions: seq<Value>, once: bool)

  /** `_hook_matches` */
  predicate HookMatches(host: Host, h: Hook, e: Event) {
    (h.onPhone.None? || h.onPhone == e.phone) && MatchesAll(host, e, h.preds)
  }
}
