/** Truth, equality and text of the values. */
module ValueLaws {
  import opened Text
  import opened Values

  /** The value is that of the first entry with the key. */
  lemma {:induction false} FirstEntry(es: Entries, key: string)
    ensures Lookup(es, key).None? <==> forall i :: 0 <= i < |es| ==> es[i].0 != key
    ensures Lookup(es, key).Some? ==>
            exists i :: 0 <= i < |es| && es[i].0 == key && Lookup(es, key) == Some(es[i].1)
                        && forall j :: 0 <= j < i ==> es[j].0 != key
  {
    if es != [] && es[0].0 != key {
      FirstEntry(es[1..], key);
      assert forall i :: 0 <= i < |es| - 1 ==> es[1..][i] == es[i + 1];
      if Lookup(es, key).Some? {
        var i :| 0 <= i < |es| - 1 && es[1..][i].0 == key && Lookup(es, key) == Some(es[1..][i].1)
                 && forall j :: 0 <= j < i ==> es[1..][j].0 != key;
        assert es[i + 1].0 == key;
        forall j | 0 <= j < i + 1 ensures es[j].0 != key {
          if j > 0 {
            assert es[j] == es[1..][j - 1];
          }
        }
      }
    }
  }

  /** Exactly `None`, `False`, 0 and what is empty count as false. */
  lemma FalsyIff(v: Value)
    ensures !Truthy(v) <==>
            v == Null || v == Bool(false) || v == Int(0) || v == Str("") || v == List([]) || v == Dict([])
  {
  }

  // -------------------------------------------------------------- equality

  ghost predicate DistinctKeys(es: Entries) {
    forall i, j :: 0 <= i < j < |es| ==> es[i].0 != es[j].0
  }

  /** A value as Python has it: no mapping in it has a key twice. */
  ghost predicate WellKeyed(v: Value) {
    match v
    case List(xs) => forall i :: 0 <= i < |xs| ==> WellKeyed(xs[i])
    case Dict(es) => DistinctKeys(es) && forall i :: 0 <= i < |es| ==> WellKeyed(es[i].1)
    case _ => true
  }

  lemma EntryFound(es: Entries, i: nat)
    requires DistinctKeys(es) && i < |es|
    ensures Lookup(es, es[i].0) == Some(es[i].1)
  {
    FirstEntry(es, es[i].0);
  }

  lemma {:induction false} SameAsItself(v: Value)
    requires WellKeyed(v)
    ensures Same(v, v)
  {
    match v
    case List(xs) =>
      forall i | 0 <= i < |xs| ensures Same(xs[i], xs[i]) {
        SameAsItself(xs[i]);
      }
    case Dict(es) =>
      forall i | 0 <= i < |es| ensures Lookup(es, es[i].0).Some? && Same(es[i].1, Lookup(es, es[i].0).value) {
        EntryFound(es, i);
        SameAsItself(es[i].1);
      }
    case _ =>
  }

  function KeysOf(es: Entries): set<string> {
    set e | e in es :: e.0
  }

  lemma {:induction false} KeyCount(es: Entries)
    requires DistinctKeys(es)
    ensures |KeysOf(es)| == |es|
  {
    if es != [] {
      var n := |es| - 1;
      KeyCount(es[..n]);
      assert es == es[..n] + [es[n]];
      assert KeysOf(es) == KeysOf(es[..n]) + {es[n].0};
    }
  }

  lemma SubsetOfEqualSize(a: set<string>, b: set<string>)
    requires a <= b && |a| == |b|
    ensures a == b
  {
    assert b == a + (b - a);
    assert |b| == |a| + |b - a|;
  }

  /** Mappings with as many keys, the one's all in the other, have the same keys. */
  lemma KeysBothWays(es: Entries, fs: Entries)
    requires DistinctKeys(es) && DistinctKeys(fs) && |es| == |fs|
    requires forall i :: 0 <= i < |es| ==> Lookup(fs, es[i].0).Some?
    ensures forall j :: 0 <= j < |fs| ==> Lookup(es, fs[j].0).Some?
  {
    forall k | k in KeysOf(es) ensures k in KeysOf(fs) {
      FirstEntry(fs, k);
    }
    KeyCount(es);
    KeyCount(fs);
    SubsetOfEqualSize(KeysOf(es), KeysOf(fs));
    forall j | 0 <= j < |fs| ensures Lookup(es, fs[j].0).Some? {
      assert fs[j] in fs && fs[j].0 in KeysOf(es);
      FirstEntry(es, fs[j].0);
    }
  }

  /** `a == b` is `b == a`. */
  lemma {:induction false} SameBothWays(a: Value, b: Value)
    requires WellKeyed(a) && WellKeyed(b) && Same(a, b)
    ensures Same(b, a)
    decreases a
  {
    match a
    case List(xs) =>
      forall i | 0 <= i < |xs| ensures Same(b.items[i], xs[i]) {
        SameBothWays(xs[i], b.items[i]);
      }
    case Dict(es) =>
      var fs := b.entries;
      KeysBothWays(es, fs);
      forall j | 0 <= j < |fs| ensures Lookup(es, fs[j].0).Some? && Same(fs[j].1, Lookup(es, fs[j].0).value) {
        EntryBack(es, fs, j);
        var i :| 0 <= i < |es| && es[i].0 == fs[j].0 && Lookup(es, fs[j].0) == Some(es[i].1);
        EntryFound(fs, j);
        SameBothWays(es[i].1, fs[j].1);
      }
    case _ =>
  }

  lemma EntryBack(es: Entries, fs: Entries, j: nat)
    requires j < |fs| && Lookup(es, fs[j].0).Some?
    ensures exists i :: 0 <= i < |es| && es[i].0 == fs[j].0 && Lookup(es, fs[j].0) == Some(es[i].1)
  {
    FirstEntry(es, fs[j].0);
  }

  /** `a == b` and `b == c` give `a == c`. */
  lemma {:induction false} SameOnwards(a: Value, b: Value, c: Value)
    requires Same(a, b) && Same(b, c)
    ensures Same(a, c)
    decreases a
  {
    match a
    case List(xs) =>
      forall i | 0 <= i < |xs| ensures Same(xs[i], c.items[i]) {
        SameOnwards(xs[i], b.items[i], c.items[i]);
      }
    case Dict(es) =>
      forall i | 0 <= i < |es|
        ensures Lookup(c.entries, es[i].0).Some? && Same(es[i].1, Lookup(c.entries, es[i].0).value)
      {
        FirstEntry(b.entries, es[i].0);
        var j :| 0 <= j < |b.entries| && b.entries[j].0 == es[i].0 && Lookup(b.entries, es[i].0) == Some(b.entries[j].1);
        SameOnwards(es[i].1, b.entries[j].1, Lookup(c.entries, es[i].0).value);
      }
    case _ =>
  }

  /** A boolean equals the number it stands for, a text only itself. */
  lemma SameScalars(b: bool, s: string, v: Value)
    ensures Same(Bool(b), v) <==> v == Bool(b) || v == Int(if b then 1 else 0)
    ensures Same(Str(s), v) <==> v == Str(s)
    ensures Same(Null, v) <==> v == Null
  {
  }

  // ------------------------------------------------------------------ text

  /** Only numbers and texts have a text that reads as a number, and a number's
      reads as that number. */
  lemma TextReads(host: Host, v: Value)
    ensures v.Int? ==> PyInt(AsText(host, v)) == Some(v.i)
    ensures !v.Int? && !v.Str? ==> AsText(host, v) != "" && !IsDigit(AsText(host, v)[0])
    ensures AsText(host, Null) == "None" && AsText(host, Bool(true)) == "True" && AsText(host, Bool(false)) == "False"
    ensures v.List? ==> AsText(host, v)[0] == '['
    ensures v.Dict? ==> AsText(host, v)[0] == '{'
  {
    if v.Int? {
      PyIntOfNumeral("", v.i, "");
      assert "" + Numeral(v.i) + "" == Numeral(v.i);
    }
  }
}
