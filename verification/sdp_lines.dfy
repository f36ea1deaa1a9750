/** The three line patterns of the SDP rewriter, matched on concrete text. */
module SdpLines {
  import opened Text

  datatype MLine = MLine(media: string, port: string, proto: string, fmts: seq<string>)

  datatype Rtpmap = Rtpmap(pt: string, name: string)

  predicate IsProtoChar(c: char) {
    IsWord(c) || c == '/'
  }

  predicate IsNameChar(c: char) {
    !IsSpace(c) && c != '/'
  }

  /** `$` also matches just before a final line feed. */
  function Chomp(s: string): string {
    if s != "" && s[|s| - 1] == '\n' then s[..|s| - 1] else s
  }

  /** `([p]+)\s+`: the run and what follows the blanks. */
  function Field(s: string, p: char -> bool): (r: Option<(string, string)>)
    ensures r.Some? ==> r.value.0 != "" && AllChars(r.value.0, p) && |r.value.0| + |r.value.1| < |s|
  {
    var n := Span(s, p);
    var w := Span(s[n..], IsSpace);
    if n == 0 || w == 0 then None else Some((s[..n], s[n + w..]))
  }

  /** `\s+(.+)$`, then `split()`.  When only blanks are left, `\s+` gives one
      of them back to `.+`, so two are enough for an empty format list. */
  function MatchFormats(s: string): (r: Option<seq<string>>)
    ensures r.Some? ==> forall f :: f in r.value ==> IsToken(f)
  {
    var w := Span(s, IsSpace);
    if w == 0 then None
    else if w < |s| then
      var body := Chomp(s[w..]);
      TokensAreTokens(body);
      if '\n' in body then None else Some(Tokens(body))
    else
      var body := Chomp(s);
      if |body| >= 2 && body[|body| - 1] != '\n' then Some([]) else None
  }

  function MatchMLine(line: string): (r: Option<MLine>)
    ensures r.Some? ==> WellFormed(r.value)
  {
    if !("m=" <= line) then None else
    match Field(line[2..], IsWord)
    case None => None
    case Some((media, s1)) =>
      match Field(s1, IsDigit)
      case None => None
      case Some((port, s2)) => MatchProto(media, port, s2)
  }

  /** The last two fields of an m-line. */
  function MatchProto(media: string, port: string, s: string): (r: Option<MLine>)
    requires media != "" && AllChars(media, IsWord)
    requires port != "" && AllChars(port, IsDigit)
    ensures r.Some? ==> WellFormed(r.value)
  {
    var n := Span(s, IsProtoChar);
    if n == 0 then None else
    match MatchFormats(s[n..])
    case None => None
    case Some(fmts) => Some(MLine(media, port, s[..n], fmts))
  }

  function MatchRtpmap(line: string): (r: Option<Rtpmap>)
    ensures r.Some? ==> r.value.pt != "" && AllChars(r.value.pt, IsDigit)
  {
    if !("a=rtpmap:" <= line) then None else
    match Field(line[9..], IsDigit)
    case None => None
    case Some((pt, s)) =>
      var n := Span(s, IsNameChar);
      var t := s[n..];
      if n > 0 && (t == "" || t == "\n" || (t[0] == '/' && '\n' !in Chomp(t)))
      then Some(Rtpmap(pt, s[..n]))
      else None
  }

  /** `^a=fmtp:(\d+)\b` */
  function MatchFmtp(line: string): (r: Option<string>)
    ensures r.Some? ==> r.value != "" && AllChars(r.value, IsDigit)
  {
    if !("a=fmtp:" <= line) then None else
    var s := line[7..];
    var n := Span(s, IsDigit);
    if n > 0 && (n == |s| || !IsWord(s[n])) then Some(s[..n]) else None
  }

  /** The line the rewriter writes for an audio section. */
  function Render(m: MLine, fmts: seq<string>): string {
    "m=" + m.media + " " + m.port + " " + m.proto + " " + Join(fmts, " ")
  }

  predicate WellFormed(m: MLine) {
    && m.media != "" && AllChars(m.media, IsWord)
    && m.port != "" && AllChars(m.port, IsDigit)
    && m.proto != "" && AllChars(m.proto, IsProtoChar)
    && forall f :: f in m.fmts ==> IsToken(f)
  }

  // ------------------------------------------------------------- properties

  lemma FieldOfAppend(s: string, p: char -> bool, t: string)
    requires s != "" && AllChars(s, p) && !p(' ')
    requires t == "" || !IsSpace(t[0])
    ensures Field(s + " " + t, p) == Some((s, t))
  {
    assert s + " " + t == s + (" " + t);
    SpanOfAppend(s, " " + t, p);
    assert (s + " " + t)[|s|..] == " " + t;
    SpanOfAppend(" ", t, IsSpace);
    assert (s + " " + t)[|s| + 1..] == t;
  }

  lemma JoinOfTokens(ts: seq<string>)
    requires forall t :: t in ts ==> IsToken(t)
    ensures forall i :: 0 <= i < |Join(ts, " ")| ==> NotSpace(Join(ts, " ")[i]) || Join(ts, " ")[i] == ' '
    ensures ts != [] ==> Join(ts, " ") != "" && !IsSpace(Join(ts, " ")[0])
    ensures ts != [] ==> !IsSpace(Join(ts, " ")[|Join(ts, " ")| - 1])
  {
    if |ts| > 1 {
      assert ts[0] in ts;
      JoinOfTokens(ts[1..]);
    } else if |ts| == 1 {
      assert ts[0] in ts && Join(ts, " ") == ts[0];
    }
  }

  lemma MatchFormatsOfJoin(fmts: seq<string>)
    requires forall f :: f in fmts ==> IsToken(f)
    ensures MatchFormats(" " + Join(fmts, " ")) == if fmts == [] then None else Some(fmts)
  {
    var j := Join(fmts, " ");
    JoinOfTokens(fmts);
    TokensOfJoin(fmts);
    hide Join, Tokens;
    assert Chomp(j) == j && '\n' !in j;
    SpanOfAppend(" ", j, IsSpace);
    assert (" " + j)[1..] == j;
  }

  /** Reading back a rewritten m-line: the same section with the new formats,
      unless no format is left, and then the line is no m-line at all. */
  lemma MatchOfRender(m: MLine, fmts: seq<string>)
    requires WellFormed(m)
    requires forall f :: f in fmts ==> IsToken(f)
    ensures MatchMLine(Render(m, fmts)) == if fmts == [] then None else Some(m.(fmts := fmts))
  {
    var s2 := m.proto + (" " + Join(fmts, " "));
    var s1 := m.port + " " + s2;
    var s0 := m.media + " " + s1;
    assert Render(m, fmts) == "m=" + s0;
    FieldOfAppend(m.port, IsDigit, s2);
    FieldOfAppend(m.media, IsWord, s1);
    MatchOfFields(s0, m.media, m.port, s1, s2);
    MatchProtoOfRender(m, fmts);
  }

  lemma MatchOfFields(s0: string, media: string, port: string, s1: string, s2: string)
    requires Field(s0, IsWord) == Some((media, s1)) && Field(s1, IsDigit) == Some((port, s2))
    ensures MatchMLine("m=" + s0) == MatchProto(media, port, s2)
  {
    assert ("m=" + s0)[2..] == s0;
  }

  lemma MatchProtoOfRender(m: MLine, fmts: seq<string>)
    requires WellFormed(m)
    requires forall f :: f in fmts ==> IsToken(f)
    ensures MatchProto(m.media, m.port, m.proto + (" " + Join(fmts, " "))) ==
            if fmts == [] then None else Some(m.(fmts := fmts))
  {
    var t := " " + Join(fmts, " ");
    SpanOfAppend(m.proto, t, IsProtoChar);
    assert (m.proto + t)[..|m.proto|] == m.proto && (m.proto + t)[|m.proto|..] == t;
    MatchFormatsOfJoin(fmts);
  }

  /** A rewritten m-line contains no white space but single blanks. */
  lemma RenderHasNoBreak(m: MLine, fmts: seq<string>)
    requires WellFormed(m)
    requires forall f :: f in fmts ==> IsToken(f)
    ensures '\n' !in Render(m, fmts) && '\r' !in Render(m, fmts)
  {
    JoinOfTokens(fmts);
  }

  lemma RenderIsNoAttribute(m: MLine, fmts: seq<string>)
    ensures MatchRtpmap(Render(m, fmts)) == None && MatchFmtp(Render(m, fmts)) == None
  {
    assert Render(m, fmts)[0] == 'm';
  }
}
