/** The three line patterns of the rewriter as forms of text, for lines without
    a line feed. */
module SdpPatterns {
  import opened Text
  import opened SdpLines

  predicate Blanks(w: string) {
    w != "" && AllChars(w, IsSpace)
  }

  lemma NoSpaceIn()
    ensures forall c :: IsWord(c) ==> !IsSpace(c)
    ensures forall c :: IsDigit(c) ==> !IsSpace(c)
    ensures forall c :: IsProtoChar(c) ==> !IsSpace(c)
  {
  }

  ghost predicate NotBlank(p: char -> bool) {
    forall c :: p(c) ==> !IsSpace(c)
  }

  /** A field is its run, blanks, and a rest that does not begin with one. */
  predicate FieldForm(s: string, p: char -> bool, f: string, w: string, r: string) {
    s == f + (w + r) && f != "" && AllChars(f, p) && Blanks(w) && (r == "" || !IsSpace(r[0]))
  }

  lemma FieldIs(s: string, p: char -> bool, f: string, w: string, r: string)
    requires FieldForm(s, p, f, w, r) && NotBlank(p)
    ensures Field(s, p) == Some((f, r))
  {
    SpanOfAppend(f, w + r, p);
    SpanOfAppend(w, r, IsSpace);
    assert s[..|f|] == f && s[|f|..] == w + r && s[|f| + |w|..] == r;
  }

  lemma NoFeedInTail(p: string, t: string)
    ensures '\n' !in p + t ==> '\n' !in t
  {
    assert forall x :: x in t ==> x in p + t;
  }

  lemma FieldHas(s: string, p: char -> bool) returns (w: string)
    requires Field(s, p).Some?
    ensures FieldForm(s, p, Field(s, p).value.0, w, Field(s, p).value.1)
    ensures '\n' !in s ==> '\n' !in Field(s, p).value.1
  {
    var n := Span(s, p);
    var k := Span(s[n..], IsSpace);
    w := s[n..n + k];
    assert s[n..] == w + s[n + k..] && s == s[..n] + s[n..];
    assert s[n + k..] != "" ==> s[n + k..][0] == s[n..][k];
    assert forall i :: 0 <= i < k ==> w[i] == s[n..][i];
    NoFeedInTail(s[..n] + w, s[n + k..]);
    assert s == s[..n] + w + s[n + k..];
  }

  /** Blanks and then formats, or two blanks at least and nothing. */
  predicate FormatsForm(c: string, rest: string) {
    Blanks(c) && if rest == "" then |c| >= 2 else !IsSpace(rest[0])
  }

  /** The text is `m=<media> <port> <protocol> <formats>`, with any blanks. */
  predicate MLineForm(line: string, m: MLine, a: string, b: string, c: string, rest: string) {
    && line == "m=" + (m.media + (a + (m.port + (b + (m.proto + (c + rest))))))
    && Blanks(a) && Blanks(b) && FormatsForm(c, rest)
    && m.media != "" && AllChars(m.media, IsWord)
    && m.port != "" && AllChars(m.port, IsDigit)
    && m.proto != "" && AllChars(m.proto, IsProtoChar)
    && m.fmts == Tokens(rest)
  }

  lemma FormatsAre(c: string, rest: string)
    requires FormatsForm(c, rest) && '\n' !in c + rest
    ensures MatchFormats(c + rest) == Some(Tokens(rest))
  {
    SpanOfAppend(c, rest, IsSpace);
    NoFeedInTail(c, rest);
    if rest == "" {
      assert c + rest == c && c[|c| - 1] in c;
    } else {
      hide Tokens;
      assert (c + rest)[|c|..] == rest;
    }
  }

  lemma ProtoIs(m: MLine, c: string, rest: string)
    requires m.media != "" && AllChars(m.media, IsWord) && m.port != "" && AllChars(m.port, IsDigit)
    requires m.proto != "" && AllChars(m.proto, IsProtoChar) && FormatsForm(c, rest)
    requires '\n' !in c + rest && m.fmts == Tokens(rest)
    ensures MatchProto(m.media, m.port, m.proto + (c + rest)) == Some(m)
  {
    hide Tokens, MatchFormats;
    NoSpaceIn();
    var t := c + rest;
    SpanOfAppend(m.proto, t, IsProtoChar);
    assert (m.proto + t)[..|m.proto|] == m.proto && (m.proto + t)[|m.proto|..] == t;
    FormatsAre(c, rest);
  }

  lemma MLineIs(line: string, m: MLine, a: string, b: string, c: string, rest: string)
    requires MLineForm(line, m, a, b, c, rest) && '\n' !in line
    ensures MatchMLine(line) == Some(m)
  {
    hide Tokens, Field, MatchProto;
    NoSpaceIn();
    var s2 := m.proto + (c + rest);
    var s1 := m.port + (b + s2);
    assert forall x :: x in c + rest ==> x in line;
    FieldIs(s1, IsDigit, m.port, b, s2);
    FieldIs(m.media + (a + s1), IsWord, m.media, a, s1);
    MatchOfFields(m.media + (a + s1), m.media, m.port, s1, s2);
    ProtoIs(m, c, rest);
  }

  lemma FormatsHave(s: string) returns (c: string, rest: string)
    requires '\n' !in s && MatchFormats(s).Some?
    ensures s == c + rest && FormatsForm(c, rest) && MatchFormats(s).value == Tokens(rest)
  {
    var w := Span(s, IsSpace);
    c, rest := s[..w], s[w..];
    assert rest == "" ==> c == s;
  }

  lemma ProtoHas(media: string, port: string, s: string) returns (c: string, rest: string)
    requires media != "" && AllChars(media, IsWord) && port != "" && AllChars(port, IsDigit) && '\n' !in s
    requires MatchProto(media, port, s).Some?
    ensures var m := MatchProto(media, port, s).value;
            && s == m.proto + (c + rest) && FormatsForm(c, rest) && m.fmts == Tokens(rest)
            && m.media == media && m.port == port
  {
    hide MatchFormats, Tokens;
    var n := Span(s, IsProtoChar);
    assert s == s[..n] + s[n..];
    c, rest := FormatsHave(s[n..]);
  }

  lemma MLineParts(line: string) returns (s1: string, s2: string)
    requires MatchMLine(line).Some?
    ensures var m := MatchMLine(line).value;
            && "m=" <= line && m.media != "" && AllChars(m.media, IsWord) && m.port != "" && AllChars(m.port, IsDigit)
            && Field(line[2..], IsWord) == Some((m.media, s1)) && Field(s1, IsDigit) == Some((m.port, s2))
            && MatchProto(m.media, m.port, s2) == Some(m)
  {
    hide Field;
    s1 := Field(line[2..], IsWord).value.1;
    s2 := Field(s1, IsDigit).value.1;
    hide MatchFormats, Span;
  }

  lemma MLineHas(line: string) returns (a: string, b: string, c: string, rest: string)
    requires '\n' !in line && MatchMLine(line).Some?
    ensures MLineForm(line, MatchMLine(line).value, a, b, c, rest)
  {
    hide Tokens, Field, MatchProto, MatchMLine, AllChars, IsSpace;
    var m := MatchMLine(line).value;
    var s1, s2 := MLineParts(line);
    assert line == "m=" + line[2..];
    NoFeedInTail("m=", line[2..]);
    a := FieldHas(line[2..], IsWord);
    b := FieldHas(s1, IsDigit);
    c, rest := ProtoHas(m.media, m.port, s2);
    ProtoChars(m, s2);
  }

  lemma ProtoChars(m: MLine, s: string)
    requires m.media != "" && AllChars(m.media, IsWord) && m.port != "" && AllChars(m.port, IsDigit)
    requires MatchProto(m.media, m.port, s) == Some(m)
    ensures m.proto != "" && AllChars(m.proto, IsProtoChar)
  {
  }

  /** The m-line pattern as a form of text. */
  lemma MLineIff(line: string, m: MLine)
    requires '\n' !in line
    ensures MatchMLine(line) == Some(m) <==> exists a, b, c, rest :: MLineForm(line, m, a, b, c, rest)
  {
    hide MLineForm, MatchMLine;
    if MatchMLine(line) == Some(m) {
      var a, b, c, rest := MLineHas(line);
    }
    if a, b, c, rest :| MLineForm(line, m, a, b, c, rest) {
      MLineIs(line, m, a, b, c, rest);
    }
  }

  /** `a=rtpmap:<type> <name>`, and a slash with anything, or nothing. */
  predicate RtpmapForm(line: string, r: Rtpmap, w: string, t: string) {
    && line == "a=rtpmap:" + (r.pt + (w + (r.name + t)))
    && r.pt != "" && AllChars(r.pt, IsDigit) && Blanks(w)
    && r.name != "" && AllChars(r.name, IsNameChar) && (t == "" || t[0] == '/')
  }

  lemma RtpmapIs(line: string, r: Rtpmap, w: string, t: string)
    requires RtpmapForm(line, r, w, t) && '\n' !in line
    ensures MatchRtpmap(line) == Some(r)
  {
    hide Field;
    NoSpaceIn();
    var s := r.pt + (w + (r.name + t));
    assert line[9..] == s;
    assert forall x :: x in t ==> x in line;
    FieldIs(s, IsDigit, r.pt, w, r.name + t);
    SpanOfAppend(r.name, t, IsNameChar);
    assert (r.name + t)[..|r.name|] == r.name && (r.name + t)[|r.name|..] == t;
  }

  lemma RtpmapHas(line: string) returns (w: string, t: string)
    requires '\n' !in line && MatchRtpmap(line).Some?
    ensures RtpmapForm(line, MatchRtpmap(line).value, w, t)
  {
    hide Field;
    assert line == "a=rtpmap:" + line[9..];
    NoFeedInTail("a=rtpmap:", line[9..]);
    w := FieldHas(line[9..], IsDigit);
    var s := Field(line[9..], IsDigit).value.1;
    t := s[Span(s, IsNameChar)..];
    assert s == s[..Span(s, IsNameChar)] + t;
    NoFeedInTail(s[..Span(s, IsNameChar)], t);
  }

  lemma RtpmapIff(line: string, r: Rtpmap)
    requires '\n' !in line
    ensures MatchRtpmap(line) == Some(r) <==> exists w, t :: RtpmapForm(line, r, w, t)
  {
    hide RtpmapForm, MatchRtpmap;
    if MatchRtpmap(line) == Some(r) {
      var w, t := RtpmapHas(line);
    }
    if w, t :| RtpmapForm(line, r, w, t) {
      RtpmapIs(line, r, w, t);
    }
  }

  /** `a=fmtp:<type>`, and the end of the word. */
  lemma FmtpIff(line: string, pt: string)
    ensures MatchFmtp(line) == Some(pt) <==>
            && pt != "" && AllChars(pt, IsDigit) && "a=fmtp:" + pt <= line
            && (|line| == 7 + |pt| || !IsWord(line[7 + |pt|]))
  {
    var s := line[if |line| < 7 then 0 else 7..];
    if "a=fmtp:" <= line {
      assert line == "a=fmtp:" + s;
      if pt != "" && AllChars(pt, IsDigit) && "a=fmtp:" + pt <= line && (|line| == 7 + |pt| || !IsWord(line[7 + |pt|])) {
        assert s == pt + s[|pt|..];
        SpanOfAppend(pt, s[|pt|..], IsDigit);
      }
    } else {
      assert "a=fmtp:" + pt <= line ==> "a=fmtp:" <= line;
    }
  }
}
