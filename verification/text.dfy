/** Strings as the Python source handles them: character classes, `split`,
    `join`, `strip`, `lower`, and `int(...)`.  Characters are ASCII. */
module Text {

  datatype Option<+T> = None | Some(value: T)

  const LF := "\n"
  const CRLF := "\r\n"

  // ---------------------------------------------------------------- classes

  predicate IsDigit(c: char) {
    '0' <= c <= '9'
  }

  predicate IsWord(c: char) {
    'a' <= c <= 'z' || 'A' <= c <= 'Z' || IsDigit(c) || c == '_'
  }

  /** `str.isspace` and `\s`: tab to carriage return, the four separators, blank. */
  predicate IsSpace(c: char) {
    9 <= c as int <= 13 || 28 <= c as int <= 32
  }

  predicate NotSpace(c: char) {
    !IsSpace(c)
  }

  predicate AllChars(s: string, p: char -> bool) {
    forall i :: 0 <= i < |s| ==> p(s[i])
  }

  /** A run of non-blank characters, as `split()` returns them. */
  predicate IsToken(s: string) {
    s != "" && AllChars(s, NotSpace)
  }

  function LowerChar(c: char): char {
    if 'A' <= c <= 'Z' then (c as int + 32) as char else c
  }

  function Lower(s: string): (r: string)
    ensures |r| == |s|
  {
    seq(|s|, i requires 0 <= i < |s| => LowerChar(s[i]))
  }

  /** Length of the longest prefix of `s` whose characters satisfy `p`. */
  function Span(s: string, p: char -> bool): (n: nat)
    ensures n <= |s|
    ensures forall i :: 0 <= i < n ==> p(s[i])
    ensures n < |s| ==> !p(s[n])
  {
    if s != "" && p(s[0]) then 1 + Span(s[1..], p) else 0
  }

  lemma {:induction false} SpanOfAppend(s: string, t: string, p: char -> bool)
    requires AllChars(s, p)
    requires t == "" || !p(t[0])
    ensures Span(s + t, p) == |s|
  {
    if s == "" {
      assert s + t == t;
    } else {
      assert (s + t)[1..] == s[1..] + t;
      SpanOfAppend(s[1..], t, p);
    }
  }

  // ------------------------------------------------------------ find, split

  /** First position of `sep` in `s`. */
  function Find(s: string, sep: string): (r: Option<nat>)
    requires sep != ""
    ensures r.Some? ==> r.value + |sep| <= |s| && s[r.value..r.value + |sep|] == sep
  {
    if sep <= s then Some(0)
    else if s == "" then None
    else
      match Find(s[1..], sep)
      case None => None
      case Some(i) => Some(i + 1)
  }

  predicate Contains(s: string, sep: string)
    requires sep != ""
  {
    Find(s, sep).Some?
  }

  /** `s.split(sep)`: never empty. */
  function Split(s: string, sep: string): (r: seq<string>)
    requires sep != ""
    ensures r != []
    decreases |s|
  {
    match Find(s, sep)
    case None => [s]
    case Some(i) => [s[..i]] + Split(s[i + |sep|..], sep)
  }

  /** `sep.join(ls)` */
  function Join(ls: seq<string>, sep: string): string {
    if ls == [] then ""
    else if |ls| == 1 then ls[0]
    else ls[0] + sep + Join(ls[1..], sep)
  }

  /** `s.replace(sep, by)` */
  function Replace(s: string, sep: string, other: string): string
    requires sep != ""
  {
    Join(Split(s, sep), other)
  }

  lemma {:induction false} JoinOfSplit(s: string, sep: string)
    requires sep != ""
    ensures Join(Split(s, sep), sep) == s
    decreases |s|
  {
    match Find(s, sep)
    case None =>
    case Some(i) =>
      JoinOfSplit(s[i + |sep|..], sep);
      assert s == s[..i] + sep + s[i + |sep|..];
  }

  predicate Free(ls: seq<string>, sep: string)
    requires sep != ""
  {
    forall l :: l in ls ==> !Contains(l, sep)
  }

  lemma {:induction false} NotFoundBefore(s: string, sep: string, k: nat)
    requires sep != ""
    requires match Find(s, sep) case None => k <= |s| case Some(i) => k <= i
    ensures !Contains(s[..k], sep)
  {
    if k == 0 {
    } else {
      NotFoundBefore(s[1..], sep, k - 1);
      assert s[..k][1..] == s[1..][..k - 1];
      assert sep <= s[..k] ==> sep <= s;
    }
  }

  lemma SplitAt(s: string, sep: string, i: nat)
    requires sep != "" && Find(s, sep) == Some(i)
    ensures Split(s, sep) == [s[..i]] + Split(s[i + |sep|..], sep)
  {
    hide Find;
  }

  lemma FreeCons(l: string, ls: seq<string>, sep: string)
    requires sep != "" && !Contains(l, sep) && Free(ls, sep)
    ensures Free([l] + ls, sep)
  {
    hide Find;
  }

  lemma {:induction false} SplitIsFree(s: string, sep: string)
    requires sep != ""
    ensures Free(Split(s, sep), sep)
    decreases |s|
  {
    if Find(s, sep).Some? {
      hide Find, Free;
      var i := Find(s, sep).value;
      NotFoundBefore(s, sep, i);
      SplitIsFree(s[i + |sep|..], sep);
      SplitAt(s, sep, i);
      FreeCons(s[..i], Split(s[i + |sep|..], sep), sep);
    }
  }

  lemma {:induction false} FindFirstBreak(l: string, sep: string, t: string)
    requires sep == LF || sep == CRLF
    requires !Contains(l, sep)
    ensures Find(l + sep + t, sep) == Some(|l|)
  {
    var s := l + sep + t;
    if l == "" {
      assert s == sep + t;
    } else {
      assert s[1..] == l[1..] + sep + t;
      FindFirstBreak(l[1..], sep, t);
      assert |l| > 1 ==> s[1] == l[1];
      assert |l| == 1 ==> s[1] == sep[0];
      CrlfPrefix(s);
      CrlfPrefix(l);
    }
  }

  lemma SplitOfFree(s: string, sep: string)
    requires sep != "" && !Contains(s, sep)
    ensures Split(s, sep) == [s]
  {
    hide Find;
  }

  /** Splitting a joined list gives the list back: neither line break can
      arise across the seam between a line and the break that follows it. */
  lemma {:induction false} SplitOfJoin(ls: seq<string>, sep: string)
    requires sep == LF || sep == CRLF
    requires ls != [] && Free(ls, sep)
    ensures Split(Join(ls, sep), sep) == ls
  {
    hide Find, Split;
    if |ls| == 1 {
      assert ls[0] in ls && ls == [ls[0]];
      SplitOfFree(ls[0], sep);
    } else {
      var t := Join(ls[1..], sep);
      var s := ls[0] + sep + t;
      assert ls[0] in ls;
      FindFirstBreak(ls[0], sep, t);
      SplitAt(s, sep, |ls[0]|);
      assert s[..|ls[0]|] == ls[0] && s[|ls[0]| + |sep|..] == t;
      FreeTail(ls, sep);
      SplitOfJoin(ls[1..], sep);
      assert ls == [ls[0]] + ls[1..];
    }
  }

  lemma FreeTail(ls: seq<string>, sep: string)
    requires sep != "" && ls != [] && Free(ls, sep)
    ensures Free(ls[1..], sep)
  {
    hide Find;
    assert forall l :: l in ls[1..] ==> l in ls;
  }

  lemma {:induction false} LfFree(s: string)
    ensures !Contains(s, LF) <==> '\n' !in s
  {
    if s != "" {
      LfFree(s[1..]);
      assert s == [s[0]] + s[1..];
      assert LF <= s <==> s[0] == '\n';
    }
  }

  lemma CrlfPrefix(s: string)
    ensures CRLF <= s <==> |s| > 1 && s[0] == '\r' && s[1] == '\n'
  {
    assert CRLF[0] == '\r' && CRLF[1] == '\n';
    if |s| > 1 && s[0] == '\r' && s[1] == '\n' {
      assert s[..2] == CRLF;
    }
  }

  lemma {:induction false} NoLfNoBreak(s: string)
    requires '\n' !in s
    ensures !Contains(s, LF) && !Contains(s, CRLF)
  {
    if s != "" {
      NoLfNoBreak(s[1..]);
      CrlfPrefix(s);
      assert |s| > 1 ==> s[1] in s;
    }
    LfFree(s);
  }

  // ------------------------------------------------------------ whitespace

  /** `s.rstrip()` */
  function Rstrip(s: string): (r: string)
    ensures r <= s
    ensures r == "" || !IsSpace(r[|r| - 1])
    ensures forall i :: |r| <= i < |s| ==> IsSpace(s[i])
  {
    if s != "" && IsSpace(s[|s| - 1]) then Rstrip(s[..|s| - 1]) else s
  }

  /** `s.strip()` */
  function Strip(s: string): string {
    var r := Rstrip(s);
    r[Span(r, IsSpace)..]
  }

  /** `s.split()`: the maximal runs of non-blank characters. */
  function Tokens(s: string): seq<string>
    decreases |s|
  {
    var t := s[Span(s, IsSpace)..];
    if t == "" then []
    else
      var n := Span(t, NotSpace);
      [t[..n]] + Tokens(t[n..])
  }

  lemma {:induction false} TokensAreTokens(s: string)
    ensures forall t :: t in Tokens(s) ==> IsToken(t)
    decreases |s|
  {
    if AllChars(s, IsSpace) {
      TokensOfBlank(s);
    } else {
      var b, t, rest := TokensFirst(s);
      TokensHead(b, t, rest);
      TokensAreTokens(rest);
    }
  }

  lemma {:induction false} TokensOfBlank(s: string)
    requires AllChars(s, IsSpace)
    ensures Tokens(s) == []
  {
    assert s + "" == s;
    SpanOfAppend(s, "", IsSpace);
  }

  lemma {:induction false} SpanSkips(w: string, s: string, p: char -> bool)
    requires AllChars(w, p)
    ensures Span(w + s, p) == |w| + Span(s, p)
  {
    if w == "" {
      assert w + s == s;
    } else {
      SpanSkips(w[1..], s, p);
      assert (w + s)[1..] == w[1..] + s;
    }
  }

  lemma SkipBlanks(w: string, s: string)
    requires AllChars(w, IsSpace)
    ensures (w + s)[Span(w + s, IsSpace)..] == s[Span(s, IsSpace)..]
  {
    hide Span, AllChars, IsSpace;
    SpanSkips(w, s, IsSpace);
    var k := Span(s, IsSpace);
    assert (w + s)[|w| + k..] == s[k..];
  }

  lemma TokensSkip(w: string, s: string)
    requires AllChars(w, IsSpace)
    ensures Tokens(w + s) == Tokens(s)
  {
    hide Span;
    SkipBlanks(w, s);
  }

  lemma TokensCons(t: string, s: string)
    requires IsToken(t)
    requires s == "" || IsSpace(s[0])
    ensures Tokens(t + s) == [t] + Tokens(s)
  {
    assert Span(t + s, IsSpace) == 0;
    SpanOfAppend(t, s, NotSpace);
    assert (t + s)[..|t|] == t && (t + s)[|t|..] == s;
    assert (t + s)[0..] == t + s;
  }

  lemma TokensConsBlank(t: string, s: string)
    requires IsToken(t)
    ensures Tokens(t + " " + s) == [t] + Tokens(s)
  {
    hide Tokens;
    TokensSkip(" ", s);
    TokensCons(t, " " + s);
    assert t + " " + s == t + (" " + s);
  }

  lemma {:induction false} TokensOfJoin(ts: seq<string>)
    requires forall t :: t in ts ==> IsToken(t)
    ensures Tokens(Join(ts, " ")) == ts
  {
    hide Tokens;
    if ts == [] {
      TokensOfBlank("");
    } else if |ts| == 1 {
      TokensOfBlank("");
      TokensCons(ts[0], "");
      assert ts[0] + "" == ts[0];
    } else {
      TokensOfJoin(ts[1..]);
      TokensConsBlank(ts[0], Join(ts[1..], " "));
      assert ts == [ts[0]] + ts[1..];
    }
  }

  lemma TokensHead(b: string, t: string, s: string)
    requires AllChars(b, IsSpace) && IsToken(t)
    requires s == "" || IsSpace(s[0])
    ensures Tokens(b + (t + s)) == [t] + Tokens(s)
  {
    TokensSkip(b, t + s);
    TokensCons(t, s);
  }

  /** The first token of a string that has one. */
  lemma TokensFirst(s: string) returns (b: string, t: string, rest: string)
    requires !AllChars(s, IsSpace)
    ensures AllChars(b, IsSpace) && IsToken(t) && (rest == "" || IsSpace(rest[0]))
    ensures s == b + (t + rest) && |rest| < |s|
  {
    var u := s[Span(s, IsSpace)..];
    var n := Span(u, NotSpace);
    b, t, rest := s[..Span(s, IsSpace)], u[..n], u[n..];
    assert u == t + rest;
  }

  /** Blank characters at the end do not change the tokens. */
  lemma {:induction false} TokensTrailing(s: string, w: string)
    requires AllChars(w, IsSpace)
    ensures Tokens(s + w) == Tokens(s)
    decreases |s|
  {
    hide Tokens;
    if AllChars(s, IsSpace) {
      TokensOfBlank(s);
      TokensOfBlank(s + w);
    } else {
      var b, t, rest := TokensFirst(s);
      TokensTrailing(rest, w);
      TokensTwoTails(b, t, rest, rest + w);
      assert s + w == b + (t + (rest + w));
    }
  }

  lemma TokensTwoTails(b: string, t: string, s: string, s': string)
    requires AllChars(b, IsSpace) && IsToken(t)
    requires s == "" || IsSpace(s[0])
    requires s' == "" || IsSpace(s'[0])
    requires Tokens(s) == Tokens(s')
    ensures Tokens(b + (t + s)) == Tokens(b + (t + s'))
  {
    hide Tokens;
    TokensHead(b, t, s);
    TokensHead(b, t, s');
  }

  // --------------------------------------------------------------- numbers

  /** Value of a string of digits. */
  function Num(s: string): nat
    requires AllChars(s, IsDigit)
  {
    if s == "" then 0 else 10 * Num(s[..|s| - 1]) + (s[|s| - 1] as int - '0' as int)
  }

  /** Digits, with single underscores allowed between them. */
  predicate IsNumeral(s: string) {
    s != "" && IsDigit(s[0]) && IsDigit(s[|s| - 1])
    && (forall i :: 0 <= i < |s| ==> IsDigit(s[i]) || s[i] == '_')
    && (forall i :: 0 <= i < |s| - 1 ==> s[i] == '_' ==> s[i + 1] != '_')
  }

  function Digits(s: string): (r: string)
    ensures AllChars(r, IsDigit)
    ensures AllChars(s, IsDigit) ==> r == s
  {
    if s == "" then ""
    else (if IsDigit(s[0]) then [s[0]] else "") + Digits(s[1..])
  }

  /** `int(s)`, `None` for the `ValueError`. */
  function PyInt(s: string): Option<int> {
    var t := Strip(s);
    if IsNumeral(t) then Some(Num(Digits(t)))
    else if t != "" && (t[0] == '+' || t[0] == '-') && IsNumeral(t[1..]) then
      var n: int := Num(Digits(t[1..]));
      Some(if t[0] == '-' then -n else n)
    else None
  }

  /** `str(n)` */
  function Decimal(n: nat): (r: string)
    ensures r != "" && IsDigit(r[0])
  {
    if n < 10 then [('0' as int + n) as char] else Decimal(n / 10) + [('0' as int + n % 10) as char]
  }

  lemma {:induction false} DecimalDigits(n: nat)
    ensures AllChars(Decimal(n), IsDigit) && Num(Decimal(n)) == n
  {
    if n >= 10 {
      DecimalDigits(n / 10);
      var d := ('0' as int + n % 10) as char;
      assert Decimal(n)[..|Decimal(n)| - 1] == Decimal(n / 10);
    } else {
      assert Decimal(n)[..0] == "";
    }
  }

  lemma {:induction false} RstripOfBlanks(s: string, w: string)
    requires AllChars(w, IsSpace) && (s == "" || !IsSpace(s[|s| - 1]))
    ensures Rstrip(s + w) == s
  {
    if w == "" {
      assert s + w == s;
    } else {
      assert (s + w)[..|s + w| - 1] == s + w[..|w| - 1];
      RstripOfBlanks(s, w[..|w| - 1]);
    }
  }

  /** `strip()` takes the blanks at both ends, and only those. */
  lemma StripOf(v: string, s: string, w: string)
    requires AllChars(v, IsSpace) && AllChars(w, IsSpace)
    requires s != "" && !IsSpace(s[0]) && !IsSpace(s[|s| - 1])
    ensures Strip(v + s + w) == s
  {
    RstripOfBlanks(v + s, w);
    SpanOfAppend(v, s, IsSpace);
  }

  /** `str(i)` */
  function Numeral(i: int): string {
    if i < 0 then "-" + Decimal(-i) else Decimal(i)
  }

  lemma DigitsAreNumeral(d: string)
    requires d != "" && AllChars(d, IsDigit)
    ensures IsNumeral(d) && Digits(d) == d && !IsSpace(d[0]) && !IsSpace(d[|d| - 1]) && d[0] != '-' && d[0] != '+'
  {
  }

  lemma ReadSigned(t: string, d: string)
    requires Strip(t) == "-" + d && IsNumeral(d)
    ensures PyInt(t) == Some(-(Num(Digits(d)) as int))
  {
    hide Num, Digits, Strip;
    assert ("-" + d)[0] == '-' && ("-" + d)[1..] == d;
  }

  /** `int(...)` reads back what `str(...)` writes, with blanks around it. */
  lemma PyIntOfNumeral(v: string, i: int, w: string)
    requires AllChars(v, IsSpace) && AllChars(w, IsSpace)
    ensures PyInt(v + Numeral(i) + w) == Some(i)
  {
    var n: nat := if i < 0 then -i else i;
    var d := Decimal(n);
    DecimalDigits(n);
    DigitsAreNumeral(d);
    hide Num, Digits, Strip, IsNumeral, Decimal, IsSpace;
    if i < 0 {
      assert !IsSpace('-') by { DashIsNoSpace(); }
      StripOf(v, "-" + d, w);
      ReadSigned(v + ("-" + d) + w, d);
    } else {
      StripOf(v, d, w);
    }
  }

  lemma DashIsNoSpace()
    ensures !IsSpace('-')
  {
  }

  lemma DigitsCons(c: char, s: string)
    ensures Digits([c] + s) == (if IsDigit(c) then [c] else "") + Digits(s)
  {
    assert ([c] + s)[1..] == s;
  }

  lemma {:induction false} DigitsOfParts(s: string, t: string)
    ensures Digits(s + t) == Digits(s) + Digits(t)
  {
    hide Digits;
    if s == "" {
      assert "" + t == t && AllChars(s, IsDigit);
    } else {
      DigitsOfParts(s[1..], t);
      DigitsCons(s[0], s[1..]);
      DigitsCons(s[0], s[1..] + t);
      assert s == [s[0]] + s[1..] && s + t == [s[0]] + (s[1..] + t);
    }
  }

  lemma StripsToItself(s: string)
    requires s != "" && !IsSpace(s[0]) && !IsSpace(s[|s| - 1])
    ensures Strip(s) == s
  {
    StripOf("", s, "");
    assert "" + s + "" == s;
  }

  /** `int(...)` takes one underscore between digits, but no two in a row, and
      none at the ends. */
  lemma Underscores(d: string, e: string)
    requires d != "" && AllChars(d, IsDigit) && e != "" && AllChars(e, IsDigit)
    ensures PyInt(d + ("_" + e)) == Some(Num(d + e))
    ensures PyInt(d + ("__" + e)) == None && PyInt("_" + e) == None && PyInt(d + "_") == None
  {
    hide Num, Strip, Digits;
    var one, two := d + ("_" + e), d + ("__" + e);
    StripsToItself(one);
    StripsToItself(two);
    StripsToItself("_" + e);
    StripsToItself(d + "_");
    assert two[|d|] == '_' && two[|d| + 1] == '_';
    assert (d + "_")[|d|] == '_' && ("_" + e)[0] == '_';
    OneUnderscore(d, e);
  }

  lemma OneUnderscore(d: string, e: string)
    requires d != "" && AllChars(d, IsDigit) && e != "" && AllChars(e, IsDigit)
    ensures var s := d + ("_" + e); IsNumeral(s) && Digits(s) == d + e
  {
    hide Digits;
    DigitsOfParts(d, "_" + e);
    DigitsOfParts("_", e);
    UnderscoreIsNoDigit();
    var s := d + ("_" + e);
    assert forall i :: 0 <= i < |d| ==> s[i] == d[i];
    assert forall i :: 0 <= i < |e| ==> s[|d| + 1 + i] == e[i];
  }

  lemma UnderscoreIsNoDigit()
    ensures Digits("_") == ""
  {
  }
}
