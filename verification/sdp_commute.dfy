/** Rewriting and then parsing is parsing and then restricting the audio
    sections to their kept payload types. */
module SdpCommute {
  import opened Text
  import opened SdpLines
  import opened SdpRewriter
  import opened SdpLaws
  import opened SdpComposition
  import opened SdpParser

  // -------------------------------------------------------- restricting

  function Only(xs: seq<int>, ks: set<int>): seq<int> {
    if xs == [] then []
    else (if xs[0] in ks then [xs[0]] else []) + Only(xs[1..], ks)
  }

  function OnlyCodecs(cs: seq<Codec>, ks: set<int>): seq<Codec> {
    if cs == [] then []
    else (if cs[0].pt in ks then [cs[0]] else []) + OnlyCodecs(cs[1..], ks)
  }

  /** A section restricted to payload types; `None` leaves it whole. */
  function RestrictMedia(m: Media, k: Option<set<int>>): Media {
    match k
    case None => m
    case Some(ks) => m.(payloadTypes := Only(m.payloadTypes, ks), codecs := OnlyCodecs(m.codecs, ks))
  }

  function RestrictAll(ms: seq<Media>, ks: seq<Option<set<int>>>): (r: seq<Media>)
    requires |ms| == |ks|
    ensures |r| == |ms|
    ensures forall i :: 0 <= i < |ms| ==> r[i] == RestrictMedia(ms[i], ks[i])
  {
    if ms == [] then [] else [RestrictMedia(ms[0], ks[0])] + RestrictAll(ms[1..], ks[1..])
  }

  function NumOf(s: string): int {
    if AllChars(s, IsDigit) then Num(s) else -1
  }

  /** The numbers of the formats an audio section keeps. */
  function KeptNumbers(ls: seq<string>, allowed: set<string>): set<int>
    requires ls != [] && IsAudio(ls[0])
  {
    set f | f in OrderFormats(MatchMLine(ls[0]).value.fmts, KeepAt(ls, allowed)) :: NumOf(f)
  }

  /** The line opens a media section for the parser. */
  predicate OpensMedia(l: string) {
    Fields(l).Some? && Fields(l).value.0 == "m" && NewMedia(Fields(l).value.1).Some?
  }

  /** For each media section the parser finds, what the rewriter keeps of it. */
  function MediaKeeps(ls: seq<string>, allowed: set<string>): seq<Option<set<int>>> {
    if ls == [] then []
    else (if OpensMedia(ls[0]) then [if IsAudio(ls[0]) then Some(KeptNumbers(ls, allowed)) else None] else [])
         + MediaKeeps(ls[1..], allowed)
  }

  /** The payload type of an rtpmap or fmtp line. */
  function LineType(l: string): Option<string> {
    if MatchRtpmap(l).Some? then Some(MatchRtpmap(l).value.pt) else MatchFmtp(l)
  }

  /** The formats are numbers, and no number is written in two ways. */
  predicate PlainTypes(fmts: seq<string>, body: seq<string>) {
    && (forall f :: f in fmts ==> AllChars(f, IsDigit))
    && (forall f, g :: f in fmts && g in fmts && NumOf(f) == NumOf(g) ==> f == g)
    && (forall l, f :: l in body && f in fmts && LineType(l).Some? && NumOf(LineType(l).value) == NumOf(f)
          ==> LineType(l).value == f)
  }

  /** Both readers see the same sections: what opens a section for the parser
      is an m-line for the rewriter, and payload types are plain numbers. */
  predicate Readable(ls: seq<string>) {
    ls == [] || (
      && (OpensMedia(ls[0]) ==> IsMLine(ls[0]))
      && (IsAudio(ls[0]) ==> PlainTypes(MatchMLine(ls[0]).value.fmts, Body(ls[1..])))
      && Readable(ls[1..]))
  }

  // ------------------------------------------------------------ numbers

  lemma StripToken(s: string)
    requires AllChars(s, NotSpace)
    ensures Strip(s) == s
  {
    assert s == "" || (NotSpace(s[0]) && NotSpace(s[|s| - 1]));
  }

  lemma DigitsAreNotSpace(p: string)
    requires AllChars(p, IsDigit)
    ensures AllChars(p, NotSpace)
  {
    forall i | 0 <= i < |p| ensures NotSpace(p[i]) {
      assert IsDigit(p[i]);
    }
  }

  lemma PyIntOfDigits(p: string)
    requires p != "" && AllChars(p, IsDigit)
    ensures PyInt(p) == Some(Num(p))
  {
    DigitsAreNotSpace(p);
    StripToken(p);
  }

  /** A digit run followed by a non-word character reads as its number or not at all. */
  lemma PyIntTyped(p: string, t: string)
    requires p != "" && AllChars(p, IsDigit)
    requires t == "" || !IsWord(t[0])
    ensures PyInt(p + t) == None || PyInt(p + t) == Some(Num(p))
  {
    var s := p + t;
    var r := Rstrip(s);
    assert s[0] == p[0] && s[|p| - 1] == p[|p| - 1];
    assert |r| >= |p|;
    assert r[0] == p[0] && !IsSpace(r[0]);
    assert r[0..] == r;
    if |r| == |p| {
      assert r == p;
    } else {
      assert r[|p|] == t[0] && !IsNumeral(r);
    }
  }

  function NumsOf(fmts: seq<string>): (r: seq<int>)
    ensures |r| == |fmts|
  {
    if fmts == [] then [] else [NumOf(fmts[0])] + NumsOf(fmts[1..])
  }

  lemma {:induction false} IntsOfDigits(fmts: seq<string>)
    requires forall f :: f in fmts ==> f != "" && AllChars(f, IsDigit)
    ensures Ints(fmts) == Some(NumsOf(fmts))
  {
    hide PyInt, Num;
    if fmts != [] {
      assert fmts[0] in fmts && forall f :: f in fmts[1..] ==> f in fmts;
      PyIntOfDigits(fmts[0]);
      IntsOfDigits(fmts[1..]);
    }
  }

  // ------------------------------------------------------- reading m-lines

  lemma FieldsByLetter(l: string)
    requires |l| >= 2 && l[0] != '=' && l[1] == '='
    ensures |Rstrip(l)| >= 2
    ensures Fields(l) == Some(([l[0]], Rstrip(l)[2..]))
    ensures Tokens(Rstrip(l)[2..]) == Tokens(l[2..])
  {
    hide Tokens, Partition;
    var r := Rstrip(l);
    assert |r| >= 2;
    assert r == [l[0]] + ['='] + r[2..];
    PartitionAfter([l[0]], '=', r[2..]);
    assert l[2..] == r[2..] + l[|r|..];
    TokensTrailing(r[2..], l[|r|..]);
  }

  lemma FieldTokens(s: string, p: char -> bool)
    requires Field(s, p).Some? && forall c :: p(c) ==> NotSpace(c)
    ensures Tokens(s) == [Field(s, p).value.0] + Tokens(Field(s, p).value.1)
  {
    hide Tokens;
    var n := Span(s, p);
    var w := Span(s[n..], IsSpace);
    var rest := s[n + w..];
    assert s == s[..n] + (s[n..n + w] + rest);
    assert s[n..n + w] == s[n..][..w];
    TokensCons(s[..n], s[n..n + w] + rest);
    TokensSkip(s[n..n + w], rest);
  }

  lemma ChompTokens(s: string)
    ensures Tokens(Chomp(s)) == Tokens(s)
  {
    hide Tokens;
    if Chomp(s) != s {
      assert s == Chomp(s) + "\n";
      TokensTrailing(Chomp(s), "\n");
    }
  }

  lemma MatchFormatsTokens(s: string)
    requires MatchFormats(s).Some?
    ensures Tokens(s) == MatchFormats(s).value
  {
    hide Tokens;
    var w := Span(s, IsSpace);
    if w < |s| {
      ChompTokens(s[w..]);
      assert s == s[..w] + s[w..];
      TokensSkip(s[..w], s[w..]);
    } else {
      TokensOfBlank(s);
    }
  }

  /** The parser sees the fields of an m-line where the rewriter does. */
  lemma TokensOfMLine(l: string)
    requires IsMLine(l)
    ensures var m := MatchMLine(l).value;
            Tokens(l[2..]) == [m.media, m.port, m.proto] + m.fmts
  {
    hide Tokens, Field, MatchFormats;
    var (media, s1) := Field(l[2..], IsWord).value;
    var (port, s2) := Field(s1, IsDigit).value;
    FieldTokens(l[2..], IsWord);
    FieldTokens(s1, IsDigit);
    var n := Span(s2, IsProtoChar);
    MatchFormatsTokens(s2[n..]);
    assert s2 == s2[..n] + s2[n..];
    FormatsStartBlank(s2[n..]);
    TokensCons(s2[..n], s2[n..]);
  }

  lemma FormatsStartBlank(s: string)
    requires MatchFormats(s).Some?
    ensures s != "" && IsSpace(s[0])
  {
  }

  lemma MLineFields(l: string)
    requires IsMLine(l)
    ensures Fields(l).Some? && Fields(l).value.0 == "m"
    ensures var m := MatchMLine(l).value;
            Tokens(Fields(l).value.1) == [m.media, m.port, m.proto] + m.fmts
  {
    hide Tokens, Fields, MatchProto, Field;
    TokensOfMLine(l);
    assert l[0] == 'm' && l[1] == '=';
    FieldsByLetter(l);
  }

  /** The media section that an audio m-line opens. */
  function AudioMedia(m: MLine): Media {
    Media(m.media, NumOf(m.port), m.proto, NumsOf(m.fmts), NewCodecs(NumsOf(m.fmts)), "sendrecv", None)
  }

  lemma AudioOpens(l: string)
    requires IsMLine(l) && MatchMLine(l).value.fmts != []
    requires forall f :: f in MatchMLine(l).value.fmts ==> AllChars(f, IsDigit)
    ensures Fields(l).Some? && Fields(l).value.0 == "m"
    ensures NewMedia(Fields(l).value.1) == Some(AudioMedia(MatchMLine(l).value))
  {
    var m := MatchMLine(l).value;
    hide MatchMLine, Tokens, Fields, PyInt, Num, Ints, NumsOf, NewCodecs;
    MLineFields(l);
    var head := [m.media, m.port, m.proto];
    assert Tokens(Fields(l).value.1)[3..] == m.fmts;
    PyIntOfDigits(m.port);
    IntsOfDigits(m.fmts);
  }

  lemma {:induction false} RestrictNums(fmts: seq<string>, keep: set<string>, ks: set<int>)
    requires forall f :: f in fmts ==> (f in keep <==> NumOf(f) in ks)
    ensures Only(NumsOf(fmts), ks) == NumsOf(OrderFormats(fmts, keep))
    ensures OnlyCodecs(NewCodecs(NumsOf(fmts)), ks) == NewCodecs(NumsOf(OrderFormats(fmts, keep)))
  {
    hide NumOf, NewCodec;
    if fmts != [] {
      RestrictNums(fmts[1..], keep, ks);
      var n, nums, rest := NumOf(fmts[0]), NumsOf(fmts[1..]), OrderFormats(fmts[1..], keep);
      assert NumsOf(fmts) == [n] + nums;
      assert fmts[0] in keep ==> OrderFormats(fmts, keep) == [fmts[0]] + rest;
      assert fmts[0] !in keep ==> OrderFormats(fmts, keep) == rest;
      NumsCons(fmts[0], rest);
      CodecsCons(n, nums);
      CodecsCons(n, NumsOf(rest));
      OnlyCons(NewCodec(n), NewCodecs(nums), ks);
      OnlyNumsCons(n, nums, ks);
      assert NewCodec(n).pt == n by { NewCodecType(n); }
      hide OnlyCodecs, Only, NewCodecs, NumsOf, OrderFormats;
      assert [] + NumsOf(rest) == NumsOf(rest);
      assert [] + NewCodecs(NumsOf(rest)) == NewCodecs(NumsOf(rest));
    }
  }

  lemma NewCodecType(n: int)
    ensures NewCodec(n).pt == n
  {
  }

  lemma NumsCons(f: string, fmts: seq<string>)
    ensures NumsOf([f] + fmts) == [NumOf(f)] + NumsOf(fmts)
  {
    assert ([f] + fmts)[1..] == fmts;
  }

  lemma CodecsCons(n: int, ns: seq<int>)
    ensures NewCodecs([n] + ns) == [NewCodec(n)] + NewCodecs(ns)
  {
    assert ([n] + ns)[1..] == ns;
  }

  lemma OnlyNumsCons(n: int, ns: seq<int>, ks: set<int>)
    ensures Only([n] + ns, ks) == (if n in ks then [n] else []) + Only(ns, ks)
  {
    assert ([n] + ns)[1..] == ns;
  }

  /** The rewritten m-line opens the restricted section. */
  lemma RewrittenOpens(ls: seq<string>, allowed: set<string>)
    requires ls != [] && IsAudio(ls[0]) && PlainTypes(MatchMLine(ls[0]).value.fmts, Body(ls[1..]))
    requires LeavesFormats(ls, allowed)
    ensures OpensMedia(ls[0])
    ensures var out := RewriteMLine(ls[0], KeepAt(ls, allowed));
            && Fields(out).Some? && Fields(out).value.0 == "m"
            && NewMedia(Fields(out).value.1) ==
               Some(RestrictMedia(NewMedia(Fields(ls[0]).value.1).value, Some(KeptNumbers(ls, allowed))))
  {
    var m, keep := MatchMLine(ls[0]).value, KeepAt(ls, allowed);
    hide MatchMLine, NewMedia, Fields, KeepAt, RewriteMLine, NumOf, LineType;
    LeavesHead(ls, allowed);
    var fmts := OrderFormats(m.fmts, keep);
    assert m.fmts != [] by { assert fmts[0] in fmts; }
    AudioOpens(ls[0]);
    RewrittenIsAudio(ls[0], keep);
    AudioOpens(RewriteMLine(ls[0], keep));
    RestrictNums(m.fmts, keep, KeptNumbers(ls, allowed));
  }

  // ---------------------------------------------------- reading attributes

  lemma OnlyCons(c: Codec, cs: seq<Codec>, ks: set<int>)
    ensures OnlyCodecs([c] + cs, ks) == (if c.pt in ks then [c] else []) + OnlyCodecs(cs, ks)
  {
    assert ([c] + cs)[1..] == cs;
  }

  lemma SetNameCons(c: Codec, cs: seq<Codec>, pt: int, name: string, rate: int)
    ensures SetName([c] + cs, pt, name, rate) ==
            if c.pt == pt then [c.(name := name, clockRate := rate)] + cs else [c] + SetName(cs, pt, name, rate)
  {
    assert ([c] + cs)[1..] == cs;
  }

  lemma SetFmtpCons(c: Codec, cs: seq<Codec>, pt: int, params: string)
    ensures SetFmtp([c] + cs, pt, params) ==
            if c.pt == pt then [c.(fmtp := Some(params))] + cs else [c] + SetFmtp(cs, pt, params)
  {
    assert ([c] + cs)[1..] == cs;
  }

  /** Renaming a codec and restricting commute. */
  lemma {:induction false} SetNameOnly(cs: seq<Codec>, pt: int, name: string, rate: int, ks: set<int>)
    ensures OnlyCodecs(SetName(cs, pt, name, rate), ks) == SetName(OnlyCodecs(cs, ks), pt, name, rate)
    ensures pt !in ks ==> SetName(OnlyCodecs(cs, ks), pt, name, rate) == OnlyCodecs(cs, ks)
  {
    if cs != [] {
      SetNameOnly(cs[1..], pt, name, rate, ks);
      var c, rest := cs[0], OnlyCodecs(cs[1..], ks);
      assert cs == [c] + cs[1..];
      SetNameCons(c, cs[1..], pt, name, rate);
      SetNameCons(c, rest, pt, name, rate);
      OnlyCons(c, cs[1..], ks);
      OnlyCons(c.(name := name, clockRate := rate), cs[1..], ks);
      OnlyCons(c, SetName(cs[1..], pt, name, rate), ks);
      hide SetName, OnlyCodecs;
      assert [] + rest == rest;
      assert [] + SetName(rest, pt, name, rate) == SetName(rest, pt, name, rate);
    }
  }

  lemma {:induction false} SetFmtpOnly(cs: seq<Codec>, pt: int, params: string, ks: set<int>)
    ensures OnlyCodecs(SetFmtp(cs, pt, params), ks) == SetFmtp(OnlyCodecs(cs, ks), pt, params)
    ensures pt !in ks ==> SetFmtp(OnlyCodecs(cs, ks), pt, params) == OnlyCodecs(cs, ks)
  {
    if cs != [] {
      SetFmtpOnly(cs[1..], pt, params, ks);
      var c, rest := cs[0], OnlyCodecs(cs[1..], ks);
      assert cs == [c] + cs[1..];
      SetFmtpCons(c, cs[1..], pt, params);
      SetFmtpCons(c, rest, pt, params);
      OnlyCons(c, cs[1..], ks);
      OnlyCons(c.(fmtp := Some(params)), cs[1..], ks);
      OnlyCons(c, SetFmtp(cs[1..], pt, params), ks);
      hide SetFmtp, OnlyCodecs;
      assert [] + rest == rest;
      assert [] + SetFmtp(rest, pt, params) == SetFmtp(rest, pt, params);
    }
  }

  /** An attribute line commutes with restricting the section. */
  lemma AttributeRestricts(m: Media, value: string, k: Option<set<int>>)
    ensures RestrictMedia(Attribute(m, value), k) == Attribute(RestrictMedia(m, k), value)
  {
    hide Partition, ReadRtpmap, ReadFmtp, Tokens, PyInt, Lower;
    if k.Some? {
      var val := Partition(value, ':').1;
      if ReadRtpmap(val).Some? {
        var r := ReadRtpmap(val).value;
        SetNameOnly(m.codecs, r.pt, r.name, r.rate, k.value);
      }
      if ReadFmtp(val).Some? {
        SetFmtpOnly(m.codecs, ReadFmtp(val).value.0, ReadFmtp(val).value.1, k.value);
      }
    }
  }

  /** The number that the value of an rtpmap or fmtp line can name. */
  lemma TypedValue(p: string, t: string)
    requires p != "" && AllChars(p, IsDigit) && (t == "" || !IsWord(t[0]))
    ensures ReadRtpmap(p + t).Some? ==> ReadRtpmap(p + t).value.pt == NumOf(p)
    ensures ReadFmtp(p + t).Some? ==> ReadFmtp(p + t).value.0 == NumOf(p)
  {
    hide Partition, PyInt, Num, Split, Strip;
    assert ' ' !in p;
    PartitionPrefix(p, ' ', t);
    var u := Partition(t, ' ').0;
    assert u == "" || !IsWord(u[0]) by { PartitionHead(t, ' '); }
    PyIntTyped(p, u);
  }

  lemma PartitionHead(s: string, c: char)
    ensures Partition(s, c).0 != "" ==> s != "" && Partition(s, c).0[0] == s[0]
  {
  }

  /** What the parser reads from an `a=<name>:<pt><t>` line. */
  lemma TypedAttribute(l: string, name: string, p: string, t: string)
    requires name != "" && ':' !in name && '=' !in name
    requires p != "" && AllChars(p, IsDigit) && (t == "" || !IsWord(t[0]))
    requires l == "a=" + (name + [':'] + (p + t))
    ensures Fields(l).Some? && Fields(l).value.0 == "a"
    ensures Partition(Fields(l).value.1, ':').0 == name
    ensures var val := Partition(Fields(l).value.1, ':').1;
            && (ReadRtpmap(val).Some? ==> ReadRtpmap(val).value.pt == NumOf(p))
            && (ReadFmtp(val).Some? ==> ReadFmtp(val).value.0 == NumOf(p))
  {
    hide Partition, Fields, Num, ReadRtpmap, ReadFmtp, NumOf, Tokens;
    FieldsByLetter(l);
    var k := 2 + |name| + 1 + |p|;
    assert l[k - 1] == p[|p| - 1];
    var t' := RstripAfter(l, k);
    assert l[..k] == "a=" + (name + [':'] + p);
    assert Rstrip(l)[2..] == name + [':'] + (p + t');
    PartitionAfter(name, ':', p + t');
    assert t' == "" || t'[0] == t[0] by { assert t' != "" ==> l[k] == t[0]; }
    TypedValue(p, t');
  }

  /** Stripping keeps a prefix that ends in a non-blank. */
  lemma RstripAfter(l: string, k: nat) returns (t: string)
    requires 0 < k <= |l| && !IsSpace(l[k - 1])
    ensures Rstrip(l) == l[..k] + t
    ensures t <= l[k..]
  {
    var r := Rstrip(l);
    assert |r| >= k;
    t := r[k..];
    assert r[..k] == l[..k];
  }

  lemma FieldText(s: string, p: char -> bool) returns (t: string)
    requires Field(s, p).Some?
    ensures t != "" && IsSpace(t[0]) && s == Field(s, p).value.0 + t
  {
    t := s[Span(s, p)..];
  }

  lemma RtpmapText(l: string) returns (t: string)
    requires MatchRtpmap(l).Some?
    ensures t != "" && IsSpace(t[0])
    ensures l == "a=" + ("rtpmap" + [':'] + (MatchRtpmap(l).value.pt + t))
  {
    hide Field, Span;
    var s := l[9..];
    t := FieldText(s, IsDigit);
    assert l == l[..9] + s && l[..9] == "a=rtpmap:";
  }

  lemma FmtpText(l: string) returns (t: string)
    requires MatchFmtp(l).Some?
    ensures t == "" || !IsWord(t[0])
    ensures l == "a=" + ("fmtp" + [':'] + (MatchFmtp(l).value + t))
  {
    var s := l[7..];
    var n := Span(s, IsDigit);
    hide Span;
    t := s[n..];
    assert s == s[..n] + t;
    assert l == l[..7] + s && l[..7] == "a=fmtp:";
  }

  lemma LowerNames()
    ensures Lower("rtpmap") == "rtpmap" && Lower("fmtp") == "fmtp"
  {
  }

  /** A line for a payload type that is not kept leaves the restricted section alone. */
  lemma DroppedAttribute(l: string, m: Media, ks: set<int>)
    requires LineType(l).Some? && NumOf(LineType(l).value) !in ks
    ensures Fields(l).Some? && Fields(l).value.0 == "a"
    ensures RestrictMedia(Attribute(m, Fields(l).value.1), Some(ks)) == RestrictMedia(m, Some(ks))
  {
    var p := LineType(l).value;
    LowerNames();
    if MatchRtpmap(l).Some? {
      var t := RtpmapText(l);
      hide MatchRtpmap, MatchFmtp, Partition, Fields, NumOf, ReadRtpmap, ReadFmtp, Lower;
      TypedAttribute(l, "rtpmap", p, t);
      var val := Partition(Fields(l).value.1, ':').1;
      if ReadRtpmap(val).Some? {
        var r := ReadRtpmap(val).value;
        SetNameOnly(m.codecs, r.pt, r.name, r.rate, ks);
      }
    } else {
      var t := FmtpText(l);
      hide MatchRtpmap, MatchFmtp, Partition, Fields, NumOf, ReadRtpmap, ReadFmtp, Lower;
      TypedAttribute(l, "fmtp", p, t);
      var val := Partition(Fields(l).value.1, ':').1;
      if ReadFmtp(val).Some? {
        SetFmtpOnly(m.codecs, ReadFmtp(val).value.0, ReadFmtp(val).value.1, ks);
      }
    }
  }

  // ----------------------------------------------------------- simulation

  /** The parser's state after the rewritten lines, seen from its state after
      the original ones: the same, with each section restricted. */
  ghost predicate Restricted(st: State, st': State, ks: seq<Option<set<int>>>) {
    && st'.version == st.version && st'.origin == st.origin
    && (st'.cur.Some? <==> st.cur.Some?)
    && |ks| == |CloseMedia(st)| == |CloseMedia(st')|
    && forall i :: 0 <= i < |ks| ==> CloseMedia(st')[i] == RestrictMedia(CloseMedia(st)[i], ks[i])
  }

  /** The restriction of the open section agrees with the keep set that the
      rewriter applies to the rest of the body. */
  ghost predicate InStep(st: State, ks: seq<Option<set<int>>>, cur: Option<set<string>>, ls: seq<string>) {
    st.cur.Some? && cur.Some? ==>
      && ks != [] && ks[|ks| - 1].Some?
      && forall l :: l in Body(ls) && LineType(l).Some? && LineType(l).value !in cur.value
           ==> NumOf(LineType(l).value) !in ks[|ks| - 1].value
  }

  lemma CopiedStep(st: State, st': State, ks: seq<Option<set<int>>>, l: string)
    requires Restricted(st, st', ks)
    requires !OpensMedia(l)
    ensures Restricted(Step(st, l), Step(st', l), ks)
  {
    hide Fields, Tokens, PyInt, Attribute, NewMedia, RestrictMedia;
    if Fields(l).Some? && Fields(l).value.0 == "a" && st.cur.Some? {
      AttributeRestricts(st.cur.value, Fields(l).value.1, ks[|ks| - 1]);
      assert CloseMedia(st)[|ks| - 1] == st.cur.value && CloseMedia(st')[|ks| - 1] == st'.cur.value;
    }
  }

  lemma OpeningStep(st: State, st': State, ks: seq<Option<set<int>>>, l: string, l': string, k: Option<set<int>>)
    requires Restricted(st, st', ks)
    requires OpensMedia(l) && Fields(l').Some? && Fields(l').value.0 == "m"
    requires NewMedia(Fields(l').value.1) == Some(RestrictMedia(NewMedia(Fields(l).value.1).value, k))
    ensures Restricted(Step(st, l), Step(st', l'), ks + [k])
    ensures Step(st, l).cur.Some?
  {
    hide Fields, NewMedia, RestrictMedia;
  }

  lemma DanglingType(l: string, keep: set<string>)
    requires Dangling(l, keep)
    ensures LineType(l).Some? && LineType(l).value !in keep
  {
    FmtpIsNoRtpmap(l);
    hide MatchRtpmap, MatchFmtp;
  }

  lemma DroppedStep(st: State, st': State, ks: seq<Option<set<int>>>, l: string, keep: set<string>, ls: seq<string>)
    requires Restricted(st, st', ks) && InStep(st, ks, Some(keep), ls)
    requires l in Body(ls) && Dangling(l, keep)
    ensures Restricted(Step(st, l), st', ks)
    ensures Step(st, l).cur.Some? <==> st.cur.Some?
  {
    hide Fields, Attribute, RestrictMedia, LineType, Dangling, Body, MatchRtpmap, MatchFmtp, NumOf;
    DanglingType(l, keep);
    var m := if st.cur.Some? then st.cur.value else AudioMedia(MLine("", "", "", []));
    var k := if st.cur.Some? then ks[|ks| - 1].value else {};
    DroppedAttribute(l, m, k);
    assert st.cur.Some? ==> CloseMedia(st)[|ks| - 1] == st.cur.value && CloseMedia(st')[|ks| - 1] == st'.cur.value;
  }

  /** A section just opened is in step with its keep set. */
  lemma SectionInStep(st: State, ks: seq<Option<set<int>>>, ls: seq<string>, allowed: set<string>)
    requires ls != [] && IsAudio(ls[0]) && PlainTypes(MatchMLine(ls[0]).value.fmts, Body(ls[1..]))
    requires ks != [] && ks[|ks| - 1] == Some(KeptNumbers(ls, allowed))
    ensures InStep(st, ks, Some(KeepAt(ls, allowed)), ls[1..])
  {
    hide MatchMLine, KeepAt, NumOf, LineType, Body;
  }

  lemma {:induction false} Simulation(ls: seq<string>, st: State, st': State, ks: seq<Option<set<int>>>,
                                      cur: Option<set<string>>, allowed: set<string>)
    requires Readable(ls) && LeavesFormats(ls, allowed)
    requires Restricted(st, st', ks) && InStep(st, ks, cur, ls)
    ensures Restricted(Steps(ls, st), Steps(Rewrite(ls, cur, allowed), st'), ks + MediaKeeps(ls, allowed))
  {
    hide MatchMLine, MatchRtpmap, MatchFmtp, KeepAt, RewriteMLine, Step, OpensMedia, PlainTypes, Restricted,
      KeptNumbers, Dangling, InStep;
    if ls == [] {
      assert ks + [] == ks;
    } else {
      var out := Rewrite(ls, cur, allowed);
      var l, rest := ls[0], ls[1..];
      var next := Step(st, l);
      if IsAudio(l) {
        var k := Some(KeptNumbers(ls, allowed));
        RewrittenOpens(ls, allowed);
        OpeningStepAt(ls, st, st', ks, allowed);
        SectionInStep(next, ks + [k], ls, allowed);
        Simulation(rest, next, Step(st', out[0]), ks + [k], Some(KeepAt(ls, allowed)), allowed);
        assert out[1..] == Rewrite(rest, Some(KeepAt(ls, allowed)), allowed);
        KeepsOf(ks, ls, [k], allowed);
      } else if IsMLine(l) {
        assert out[1..] == Rewrite(rest, None, allowed);
        var more := if OpensMedia(l) then [None] else [];
        OtherMLine(st, st', ks, l);
        NotInAudio(next, ks + more, rest);
        Simulation(rest, next, Step(st', l), ks + more, None, allowed);
        KeepsOf(ks, ls, more, allowed);
      } else {
        assert MediaKeeps(ls, allowed) == MediaKeeps(rest, allowed);
        BodyInStep(st, ks, cur, ls);
        if cur.Some? && Dangling(l, cur.value) {
          DroppedStep(st, st', ks, l, cur.value, ls);
          Simulation(rest, next, st', ks, cur, allowed);
        } else {
          CopiedStep(st, st', ks, l);
          Simulation(rest, next, Step(st', l), ks, cur, allowed);
          assert out[1..] == Rewrite(rest, cur, allowed);
        }
      }
    }
  }

  lemma KeepsOf(ks: seq<Option<set<int>>>, ls: seq<string>, head: seq<Option<set<int>>>, allowed: set<string>)
    requires ls != []
    requires head == if OpensMedia(ls[0]) then [if IsAudio(ls[0]) then Some(KeptNumbers(ls, allowed)) else None] else []
    ensures ks + MediaKeeps(ls, allowed) == (ks + head) + MediaKeeps(ls[1..], allowed)
  {
    hide MatchMLine, OpensMedia, KeptNumbers;
  }

  lemma OpeningStepAt(ls: seq<string>, st: State, st': State, ks: seq<Option<set<int>>>, allowed: set<string>)
    requires ls != [] && IsAudio(ls[0]) && PlainTypes(MatchMLine(ls[0]).value.fmts, Body(ls[1..]))
    requires LeavesFormats(ls, allowed) && Restricted(st, st', ks)
    ensures Restricted(Step(st, ls[0]), Step(st', RewriteMLine(ls[0], KeepAt(ls, allowed))),
                       ks + [Some(KeptNumbers(ls, allowed))])
  {
    hide MatchMLine, KeepAt, RewriteMLine, PlainTypes, Restricted, KeptNumbers, Fields, NewMedia, LeavesFormats;
    RewrittenOpens(ls, allowed);
    OpeningStep(st, st', ks, ls[0], RewriteMLine(ls[0], KeepAt(ls, allowed)), Some(KeptNumbers(ls, allowed)));
  }

  lemma OtherMLine(st: State, st': State, ks: seq<Option<set<int>>>, l: string)
    requires Restricted(st, st', ks)
    ensures Restricted(Step(st, l), Step(st', l), ks + if OpensMedia(l) then [None] else [])
  {
    hide Restricted, Step, Fields, NewMedia;
    if OpensMedia(l) {
      OpeningStep(st, st', ks, l, l, None);
    } else {
      CopiedStep(st, st', ks, l);
      assert ks + [] == ks;
    }
  }

  lemma NotInAudio(st: State, ks: seq<Option<set<int>>>, ls: seq<string>)
    ensures InStep(st, ks, None, ls)
  {
  }

  /** Past a body line the section stays in step, open or closed. */
  lemma BodyInStep(st: State, ks: seq<Option<set<int>>>, cur: Option<set<string>>, ls: seq<string>)
    requires ls != [] && !IsMLine(ls[0]) && !OpensMedia(ls[0]) && InStep(st, ks, cur, ls)
    ensures ls[0] in Body(ls)
    ensures InStep(Step(st, ls[0]), ks, cur, ls[1..])
  {
    hide MatchMLine, LineType, NumOf, Fields, NewMedia, Attribute, Tokens, PyInt;
    assert Body(ls) == [ls[0]] + Body(ls[1..]);
    assert Step(st, ls[0]).cur.Some? ==> st.cur.Some?;
  }

  // ---------------------------------------------------------------- texts

  /** No lone line feeds: the text uses one kind of line break. */
  predicate OneBreak(sdp: string) {
    forall l :: l in Lines(sdp) ==> '\n' !in l
  }

  lemma {:induction false} FoundIf(s: string, pat: string, i: nat)
    requires pat != "" && i + |pat| <= |s| && s[i..i + |pat|] == pat
    ensures Contains(s, pat)
  {
    if i > 0 {
      assert s[1..][i - 1..i - 1 + |pat|] == pat;
      FoundIf(s[1..], pat, i - 1);
    } else {
      assert pat <= s;
    }
  }

  lemma {:induction false} JoinContains(ls: seq<string>, sep: string, l: string, pat: string)
    requires pat != "" && l in ls && pat <= l
    ensures Contains(Join(ls, sep), pat)
  {
    hide Find;
    var s := Join(ls, sep);
    if ls[0] == l {
      assert s[..|l|] == l;
      assert s[0..0 + |pat|] == pat;
      FoundIf(s, pat, 0);
    } else {
      JoinContains(ls[1..], sep, l, pat);
      var t := Join(ls[1..], sep);
      var i := Find(t, pat).value;
      var j := |ls[0]| + |sep| + i;
      assert s == ls[0] + sep + t;
      assert s[j..j + |pat|] == t[i..i + |pat|];
      FoundIf(s, pat, j);
    }
  }

  /** The parser splits a text with one kind of line break as the rewriter does. */
  lemma SameLines(sdp: string)
    requires OneBreak(sdp)
    ensures BodyLines(sdp) == Lines(sdp)
  {
    hide Split, Join, Find;
    if Contains(sdp, CRLF) {
      forall l | l in Lines(sdp) ensures !Contains(l, LF) { LfFree(l); }
      SplitOfJoin(Lines(sdp), LF);
    } else {
      SplitHasSeveral(sdp, CRLF);
      JoinOfOne([sdp], LF);
    }
  }

  lemma {:induction false} VersionLinesStay(ls: seq<string>, cur: Option<set<string>>, allowed: set<string>)
    ensures HasVersionLine(Rewrite(ls, cur, allowed)) <==> HasVersionLine(ls)
  {
    hide MatchMLine, MatchRtpmap, MatchFmtp, KeepAt, RewriteMLine, HasVersionLine;
    if ls != [] {
      var out := Rewrite(ls, cur, allowed);
      assert ls == [ls[0]] + ls[1..];
      VersionCons(ls[0], ls[1..]);
      VersionOfLine(ls[0]);
      if IsAudio(ls[0]) {
        VersionLinesStay(ls[1..], Some(KeepAt(ls, allowed)), allowed);
        RewrittenIsNoVersion(ls[0], KeepAt(ls, allowed));
        VersionCons(out[0], Rewrite(ls[1..], Some(KeepAt(ls, allowed)), allowed));
      } else {
        VersionLinesStay(ls[1..], None, allowed);
        VersionLinesStay(ls[1..], cur, allowed);
        VersionCons(ls[0], Rewrite(ls[1..], None, allowed));
        VersionCons(ls[0], Rewrite(ls[1..], cur, allowed));
      }
    }
  }

  lemma VersionCons(l: string, ls: seq<string>)
    ensures HasVersionLine([l] + ls) <==> "v=" <= l || HasVersionLine(ls)
  {
    if "v=" <= l {
      assert l in [l] + ls;
    } else if HasVersionLine(ls) {
      var x :| x in ls && "v=" <= x;
      assert x in [l] + ls;
    }
  }

  lemma VersionOfLine(l: string)
    ensures IsMLine(l) || MatchRtpmap(l).Some? || MatchFmtp(l).Some? ==> !("v=" <= l)
  {
    if IsMLine(l) {
      assert l[0] == 'm';
    } else if MatchRtpmap(l).Some? || MatchFmtp(l).Some? {
      assert l[0] == 'a';
    }
  }

  lemma RewrittenIsNoVersion(l: string, keep: set<string>)
    requires IsMLine(l)
    ensures !("v=" <= RewriteMLine(l, keep))
  {
    hide MatchMLine;
    assert RewriteMLine(l, keep)[0] == 'm';
  }

  lemma ParsedByLines(sdp: string)
    requires OneBreak(sdp)
    ensures Parsed(sdp) == if HasVersionLine(Lines(sdp)) then Finish(Steps(Lines(sdp), Start)) else None
  {
    hide Split, Join, Find, Steps, Finish;
    SameLines(sdp);
    JoinOfSplit(sdp, LineSep(sdp));
    if HasVersionLine(Lines(sdp)) {
      var l :| l in Lines(sdp) && "v=" <= l;
      JoinContains(Lines(sdp), LineSep(sdp), l, "v=");
      assert sdp != "" by { assert Contains(sdp, "v="); EmptyContainsNothing("v="); }
    }
  }

  lemma EmptyContainsNothing(pat: string)
    requires pat != ""
    ensures !Contains("", pat)
  {
  }

  /** Restriction of a whole parse. */
  function RestrictParse(p: Option<Sdp>, ks: seq<Option<set<int>>>): Option<Sdp> {
    match p
    case None => None
    case Some(sdp) => if |ks| == |sdp.media| then Some(sdp.(media := RestrictAll(sdp.media, ks))) else None
  }

  lemma OutputHasOneBreak(sdp: string, allowed: set<string>)
    requires OneBreak(sdp)
    ensures OneBreak(Join(Rewrite(Lines(sdp), None, allowed), LineSep(sdp)))
  {
    hide Rewrite, Split, Join, Find;
    LinesOfOutput(sdp, allowed);
    forall l | l in Lines(sdp) ensures !Contains(l, LF) { LfFree(l); }
    RewriteIsFree(Lines(sdp), None, allowed, LF);
    forall l | l in Rewrite(Lines(sdp), None, allowed) ensures '\n' !in l { LfFree(l); }
  }

  /** Rewriting a text and parsing it gives the parse of the text with each
      audio section restricted to its kept payload types, and all else the
      same; there is one restriction for each section of the parse. */
  lemma FilterThenParse(sdp: string, allowed: set<string>)
    requires allowed != {} && OneBreak(sdp)
    requires Readable(Lines(sdp)) && LeavesFormats(Lines(sdp), allowed)
    ensures Parsed(Filtered(sdp, allowed)) == RestrictParse(Parsed(sdp), MediaKeeps(Lines(sdp), allowed))
    ensures Parsed(sdp).Some? ==> |MediaKeeps(Lines(sdp), allowed)| == |Parsed(sdp).value.media|
  {
    hide Rewrite, Lines, LineSep, Readable, LeavesFormats, MediaKeeps, Steps, BailsOut, HasVersionLine, OneBreak;
    var ls, ks := Lines(sdp), MediaKeeps(Lines(sdp), allowed);
    assert allowed * allowed == allowed;
    LeavesMore(ls, allowed, allowed);
    ParsedByLines(sdp);
    var out := Rewrite(ls, None, allowed);
    assert InStep(Start, [], None, ls);
    Simulation(ls, Start, Start, [], None, allowed);
    assert [] + ks == ks;
    VersionLinesStay(ls, None, allowed);
    var st, st' := Steps(ls, Start), Steps(out, Start);
    assert RestrictAll(CloseMedia(st), ks) == CloseMedia(st');
    if sdp != "" {
      LinesOfOutput(sdp, allowed);
      OutputHasOneBreak(sdp, allowed);
      ParsedByLines(Filtered(sdp, allowed));
    } else {
      EmptyHasNoVersion();
    }
  }

  lemma EmptyHasNoVersion()
    ensures !HasVersionLine(Lines(""))
  {
    assert Lines("") == [""];
  }
}
