/** What the parsed SDP says, field by field, of the lines of the text. */
module SdpFields {
  import opened Text
  import opened SdpParser

  // ----------------------------------------------------------- lines, by kind

  /** The line is `kind=...`, its trailing blanks aside. */
  predicate Is(line: string, kind: string) {
    kind + "=" <= Rstrip(line)
  }

  /** What stands after `kind=`, for a kind of one letter. */
  function Val(line: string): string {
    if |Rstrip(line)| < 2 then "" else Rstrip(line)[2..]
  }

  lemma FieldsIff(line: string, kind: char)
    requires kind != '='
    ensures Is(line, [kind]) <==> Fields(line).Some? && Fields(line).value.0 == [kind]
    ensures Is(line, [kind]) ==> Fields(line) == Some(([kind], Val(line)))
  {
    var r := Rstrip(line);
    hide Rstrip, Partition;
    if Is(line, [kind]) {
      assert r == [kind] + "=" + r[2..] && r[1] == '=';
      PartitionAfter([kind], '=', r[2..]);
    }
    if Fields(line).Some? && Fields(line).value.0 == [kind] {
      assert r == [kind] + ['='] + Fields(line).value.1;
    }
  }

  /** What the last line with an answer says. */
  function LastOf<T>(ls: seq<string>, f: string -> Option<T>): Option<T> {
    if ls == [] then None
    else if LastOf(ls[1..], f).Some? then LastOf(ls[1..], f)
    else f(ls[0])
  }

  /** `LastOf` is an answer with none after it, or there is none at all. */
  lemma {:induction false} LastIsLast<T>(ls: seq<string>, f: string -> Option<T>)
    ensures LastOf(ls, f).None? <==> forall i :: 0 <= i < |ls| ==> f(ls[i]).None?
    ensures LastOf(ls, f).Some? ==>
            exists i :: 0 <= i < |ls| && f(ls[i]) == LastOf(ls, f) && forall j :: i < j < |ls| ==> f(ls[j]).None?
  {
    if ls != [] {
      LastIsLast(ls[1..], f);
      assert forall i :: 0 < i < |ls| ==> ls[i] == ls[1..][i - 1];
      if LastOf(ls[1..], f).Some? {
        var i :| 0 <= i < |ls[1..]| && f(ls[1..][i]) == LastOf(ls[1..], f)
                 && forall j :: i < j < |ls[1..]| ==> f(ls[1..][j]).None?;
        assert ls[i + 1] == ls[1..][i];
        assert forall j :: i + 1 < j < |ls| ==> ls[j] == ls[1..][j - 1];
      }
    }
  }

  function Or<T>(a: Option<T>, b: T): T {
    if a.Some? then a.value else b
  }

  function OrElse<T>(a: Option<T>, b: Option<T>): Option<T> {
    if a.Some? then a else b
  }

  // ------------------------------------------------------- version and origin

  function VersionOf(line: string): Option<int> {
    if Is(line, "v") then PyInt(Val(line)) else None
  }

  /** `o=<username> <id> <version> <net> <type> <ip>` */
  function OriginOf(line: string): Option<Origin> {
    if Is(line, "o") && |Tokens(Val(line))| >= 6
    then Some(Origin(ip := Tokens(Val(line))[5], username := Tokens(Val(line))[0])) else None
  }

  // ------------------------------------------------------------ media sections

  predicate AreNumbers(ps: seq<string>) {
    forall i :: 0 <= i < |ps| ==> PyInt(ps[i]).Some?
  }

  /** `m=<kind> <port> <protocol> <type> ...`, with numbers where numbers go. */
  predicate Opens(line: string) {
    var ps := Tokens(Val(line));
    Is(line, "m") && |ps| >= 4 && PyInt(ps[1]).Some? && AreNumbers(ps[3..])
  }

  /** The lines up to the next `m=` line. */
  function Upto(ls: seq<string>): seq<string> {
    if ls == [] || Is(ls[0], "m") then [] else [ls[0]] + Upto(ls[1..])
  }

  datatype Opening = Opening(line: string, body: seq<string>)

  /** The m-lines that open a section, each with the lines that follow it. */
  function Openings(ls: seq<string>): seq<Opening> {
    if ls == [] then []
    else (if Opens(ls[0]) then [Opening(ls[0], Upto(ls[1..]))] else []) + Openings(ls[1..])
  }

  // --------------------------------------------------------- attribute lines

  /** `a=name` or `a=name:value`, the name in any case. */
  predicate IsAttr(line: string, name: string) {
    Is(line, "a") && Lower(Partition(Val(line), ':').0) == name
  }

  function AttrVal(line: string): string {
    Partition(Val(line), ':').1
  }

  function DirectionOf(line: string): Option<string> {
    if IsAttr(line, "sendrecv") then Some("sendrecv")
    else if IsAttr(line, "sendonly") then Some("sendonly")
    else if IsAttr(line, "recvonly") then Some("recvonly")
    else if IsAttr(line, "inactive") then Some("inactive")
    else None
  }

  /** `a=rtcp:<port> ...` */
  function RtcpOf(line: string): Option<int> {
    if IsAttr(line, "rtcp") && Tokens(AttrVal(line)) != [] then PyInt(Tokens(AttrVal(line))[0]) else None
  }

  /** What an rtpmap line says of the payload type: name and rate. */
  function RtpmapOf(line: string, pt: int): Option<(string, int)> {
    if !IsAttr(line, "rtpmap") then None else
    match ReadRtpmap(AttrVal(line))
    case Some(r) => if r.pt == pt then Some((r.name, r.rate)) else None
    case None => None
  }

  /** What an fmtp line says of the payload type. */
  function FmtpOf(line: string, pt: int): Option<string> {
    if !IsAttr(line, "fmtp") then None else
    match ReadFmtp(AttrVal(line))
    case Some((p, params)) => if p == pt then Some(params) else None
    case None => None
  }

  /** Name and rate of RFC 3551, section 6; nothing and 0 for other types. */
  function StaticOf(pt: int): (string, int) {
    if StaticCodec(pt).Some? then StaticCodec(pt).value else ("", 0)
  }

  /** The type does not stand earlier in the list. */
  predicate FirstAt(pts: seq<int>, n: nat)
    requires n < |pts|
  {
    forall k :: 0 <= k < n ==> pts[k] != pts[n]
  }

  /** One codec: attribute lines speak of the first one with their type. */
  predicate CodecReads(c: Codec, pt: int, first: bool, body: seq<string>) {
    && c.pt == pt
    && (c.name, c.clockRate) == (if first then Or(LastOf(body, l => RtpmapOf(l, pt)), StaticOf(pt)) else StaticOf(pt))
    && c.fmtp == (if first then LastOf(body, l => FmtpOf(l, pt)) else None)
  }

  /** One media section, read off its m-line and its body. */
  predicate SectionReads(m: Media, o: Opening) {
    var ps := Tokens(Val(o.line));
    && |ps| >= 4 && |m.payloadTypes| == |m.codecs| == |ps| - 3
    && m.kind == ps[0] && PyInt(ps[1]) == Some(m.port) && m.protocol == ps[2]
    && (forall n :: 0 <= n < |m.codecs| ==>
          && PyInt(ps[3 + n]) == Some(m.payloadTypes[n])
          && CodecReads(m.codecs[n], m.payloadTypes[n], FirstAt(m.payloadTypes, n), o.body))
    && m.direction == Or(LastOf(o.body, DirectionOf), "sendrecv")
    && m.rtcpPort == LastOf(o.body, RtcpOf)
  }

  // ------------------------------------------------------- the attribute fold

  /** The body lines of a section, one after another. */
  function Attrs(m: Media, ls: seq<string>): Media
    decreases |ls|
  {
    if ls == [] || Is(ls[0], "m") then m else Attrs(AttrLine(m, ls[0]), ls[1..])
  }

  function AttrLine(m: Media, line: string): Media {
    if Is(line, "a") then Attribute(m, Val(line)) else m
  }

  predicate FirstCodec(cs: seq<Codec>, n: nat)
    requires n < |cs|
  {
    forall k :: 0 <= k < n ==> cs[k].pt != cs[n].pt
  }

  lemma {:induction false} SetNameAt(cs: seq<Codec>, pt: int, name: string, rate: int, n: nat)
    requires n < |cs|
    ensures SetName(cs, pt, name, rate)[n] ==
            if cs[n].pt == pt && FirstCodec(cs, n) then cs[n].(name := name, clockRate := rate) else cs[n]
  {
    if n > 0 && cs[0].pt != pt {
      SetNameAt(cs[1..], pt, name, rate, n - 1);
      assert forall k :: 1 <= k < |cs| ==> cs[k] == cs[1..][k - 1];
    }
  }

  lemma {:induction false} SetFmtpAt(cs: seq<Codec>, pt: int, params: string, n: nat)
    requires n < |cs|
    ensures SetFmtp(cs, pt, params)[n] ==
            if cs[n].pt == pt && FirstCodec(cs, n) then cs[n].(fmtp := Some(params)) else cs[n]
  {
    if n > 0 && cs[0].pt != pt {
      SetFmtpAt(cs[1..], pt, params, n - 1);
      assert forall k :: 1 <= k < |cs| ==> cs[k] == cs[1..][k - 1];
    }
  }

  /** A codec after some lines, `name` and so on being what they say of its type. */
  predicate CodecAfter(c: Codec, d: Codec, first: bool, said: Option<(string, int)>, params: Option<string>) {
    && d.pt == c.pt
    && (d.name, d.clockRate) == (if first then Or(said, (c.name, c.clockRate)) else (c.name, c.clockRate))
    && d.fmtp == (if first then OrElse(params, c.fmtp) else c.fmtp)
  }

  lemma AttrLineCodec(m: Media, line: string, n: nat)
    requires n < |m.codecs|
    ensures var d := AttrLine(m, line);
            |d.codecs| == |m.codecs|
            && CodecAfter(m.codecs[n], d.codecs[n], FirstCodec(m.codecs, n),
                          RtpmapOf(line, m.codecs[n].pt), FmtpOf(line, m.codecs[n].pt))
  {
    hide Lower, Partition, ReadRtpmap, ReadFmtp, Val, Is, Tokens, PyInt, SetName, SetFmtp, FirstCodec;
    var v := AttrVal(line);
    if IsAttr(line, "rtpmap") && ReadRtpmap(v).Some? {
      var r := ReadRtpmap(v).value;
      SetNameAt(m.codecs, r.pt, r.name, r.rate, n);
    }
    if IsAttr(line, "fmtp") && ReadFmtp(v).Some? {
      SetFmtpAt(m.codecs, ReadFmtp(v).value.0, ReadFmtp(v).value.1, n);
    }
  }

  lemma AttrLineRest(m: Media, line: string)
    ensures var d := AttrLine(m, line);
            && d.kind == m.kind && d.port == m.port && d.protocol == m.protocol && d.payloadTypes == m.payloadTypes
            && d.direction == Or(DirectionOf(line), m.direction) && d.rtcpPort == OrElse(RtcpOf(line), m.rtcpPort)
  {
    hide Lower, Partition, ReadRtpmap, ReadFmtp, Val, Is, Tokens, PyInt, SetName, SetFmtp;
  }

  lemma {:induction false} AttrsRest(m: Media, ls: seq<string>)
    ensures var d := Attrs(m, ls);
            && d.kind == m.kind && d.port == m.port && d.protocol == m.protocol && d.payloadTypes == m.payloadTypes
            && d.direction == Or(LastOf(Upto(ls), DirectionOf), m.direction)
            && d.rtcpPort == OrElse(LastOf(Upto(ls), RtcpOf), m.rtcpPort)
    decreases |ls|
  {
    hide AttrLine, Is, DirectionOf, RtcpOf;
    if ls != [] && !Is(ls[0], "m") {
      AttrLineRest(m, ls[0]);
      AttrsRest(AttrLine(m, ls[0]), ls[1..]);
      assert Upto(ls)[1..] == Upto(ls[1..]);
    }
  }

  lemma {:induction false} AttrsCodec(m: Media, ls: seq<string>, n: nat)
    requires n < |m.codecs|
    ensures var d, pt := Attrs(m, ls), m.codecs[n].pt;
            |d.codecs| == |m.codecs|
            && CodecAfter(m.codecs[n], d.codecs[n], FirstCodec(m.codecs, n),
                          LastOf(Upto(ls), l => RtpmapOf(l, pt)), LastOf(Upto(ls), l => FmtpOf(l, pt)))
    decreases |ls|
  {
    hide AttrLine, Is, RtpmapOf, FmtpOf, FirstCodec;
    if ls != [] && !Is(ls[0], "m") {
      var d := AttrLine(m, ls[0]);
      AttrLineCodec(m, ls[0], n);
      forall k | 0 <= k < |m.codecs| ensures |d.codecs| == |m.codecs| && d.codecs[k].pt == m.codecs[k].pt {
        AttrLineCodec(m, ls[0], k);
      }
      SameFirst(m.codecs, d.codecs, n);
      AttrsCodec(d, ls[1..], n);
      assert Upto(ls)[1..] == Upto(ls[1..]);
    }
  }

  lemma SameFirst(cs: seq<Codec>, ds: seq<Codec>, n: nat)
    requires n < |cs| == |ds| && forall k :: 0 <= k < |cs| ==> ds[k].pt == cs[k].pt
    ensures FirstCodec(cs, n) == FirstCodec(ds, n)
  {
  }

  // ----------------------------------------------------------- new sections

  lemma {:induction false} IntsRead(ps: seq<string>)
    ensures Ints(ps).Some? <==> AreNumbers(ps)
    ensures Ints(ps).Some? ==>
            |Ints(ps).value| == |ps| && forall n :: 0 <= n < |ps| ==> PyInt(ps[n]) == Some(Ints(ps).value[n])
  {
    hide PyInt;
    if ps != [] {
      IntsRead(ps[1..]);
      assert forall n :: 1 <= n < |ps| ==> ps[n] == ps[1..][n - 1];
    }
  }

  /** A section opens exactly at an m-line with its numbers, and then reads as
      without a body. */
  lemma NewReads(line: string)
    requires Is(line, "m")
    ensures NewMedia(Val(line)).Some? <==> Opens(line)
    ensures Opens(line) ==>
            var m := NewMedia(Val(line)).value;
            SectionReads(m, Opening(line, [])) && forall n :: 0 <= n < |m.codecs| ==> m.codecs[n].pt == m.payloadTypes[n]
  {
    hide PyInt, Tokens, Val, Is, RtpmapOf, FmtpOf, DirectionOf, RtcpOf, StaticCodec;
    var ps := Tokens(Val(line));
    if |ps| >= 4 {
      IntsRead(ps[3..]);
      assert forall n :: 0 <= n < |ps| - 3 ==> ps[3..][n] == ps[3 + n];
    }
  }

  /** A section with its body. */
  lemma SectionIs(line: string, ls: seq<string>)
    requires Is(line, "m") && Opens(line)
    ensures NewMedia(Val(line)).Some? && SectionReads(Attrs(NewMedia(Val(line)).value, ls), Opening(line, Upto(ls)))
  {
    hide PyInt, Tokens, Val, Is, RtpmapOf, FmtpOf, DirectionOf, RtcpOf, StaticCodec, NewMedia, Opens, Attrs;
    NewReads(line);
    var m := NewMedia(Val(line)).value;
    AttrsRest(m, ls);
    var d := Attrs(m, ls);
    forall n | 0 <= n < |m.codecs|
      ensures |d.codecs| == |m.codecs|
      ensures CodecReads(d.codecs[n], m.payloadTypes[n], FirstAt(m.payloadTypes, n), Upto(ls))
    {
      AttrsCodec(m, ls, n);
      assert FirstCodec(m.codecs, n) == FirstAt(m.payloadTypes, n);
    }
    AttrsCodec(m, ls, 0);
  }

  // --------------------------------------------------------------- the text

  function Sections(ls: seq<string>): seq<Media> {
    if ls == [] then []
    else
      (if Is(ls[0], "m") && NewMedia(Val(ls[0])).Some? then [Attrs(NewMedia(Val(ls[0])).value, ls[1..])] else [])
      + Sections(ls[1..])
  }

  function Open(st: State, ls: seq<string>): seq<Media> {
    if st.cur.Some? then [Attrs(st.cur.value, ls)] else []
  }

  /** One line, by its kind. */
  lemma StepIs(st: State, line: string)
    ensures var x := Step(st, line);
            && x.version == OrElse(VersionOf(line), st.version) && x.origin == OrElse(OriginOf(line), st.origin)
            && (if Is(line, "m") then x.media == CloseMedia(st) && x.cur == NewMedia(Val(line))
                else x.media == st.media
                     && x.cur == if st.cur.Some? then Some(AttrLine(st.cur.value, line)) else None)
  {
    FieldsIff(line, 'v');
    FieldsIff(line, 'o');
    FieldsIff(line, 'm');
    FieldsIff(line, 'a');
    OneKind(line);
    hide Fields, Is, Val, Tokens, PyInt, Attribute, NewMedia;
  }

  lemma OneKind(line: string)
    ensures Is(line, "v") ==> !Is(line, "o") && !Is(line, "m") && !Is(line, "a")
    ensures Is(line, "o") ==> !Is(line, "m") && !Is(line, "a")
    ensures Is(line, "m") ==> !Is(line, "a")
  {
    hide Rstrip;
    var r := Rstrip(line);
    forall k | Is(line, k) && |k| == 1 ensures r[0] == k[0] {
      assert (k + "=")[0] == k[0];
    }
    assert "v"[0] == 'v' && "o"[0] == 'o' && "m"[0] == 'm' && "a"[0] == 'a';
  }

  lemma {:induction false} StepsReadHeader(ls: seq<string>, st: State)
    ensures var x := Steps(ls, st);
            && x.version == OrElse(LastOf(ls, VersionOf), st.version)
            && x.origin == OrElse(LastOf(ls, OriginOf), st.origin)
  {
    hide Step, Is, VersionOf, OriginOf, AttrLine, NewMedia, Val, CloseMedia;
    if ls != [] {
      StepIs(st, ls[0]);
      StepsReadHeader(ls[1..], Step(st, ls[0]));
    }
  }

  lemma AttrsCons(m: Media, ls: seq<string>)
    requires ls != []
    ensures Attrs(m, ls) == if Is(ls[0], "m") then m else Attrs(AttrLine(m, ls[0]), ls[1..])
  {
    hide Is, AttrLine;
  }

  lemma SectionsCons(ls: seq<string>)
    requires ls != []
    ensures Sections(ls) ==
            (if Is(ls[0], "m") && NewMedia(Val(ls[0])).Some? then [Attrs(NewMedia(Val(ls[0])).value, ls[1..])] else [])
            + Sections(ls[1..])
  {
    hide Is, Attrs, NewMedia, Val;
  }

  lemma ThreeParts(a: seq<Media>, b: seq<Media>, c: seq<Media>)
    ensures (a + b) + c == a + (b + c) && [] + c == c && a + [] == a
  {
  }

  /** The sections that are closed, open and to come, over one line. */
  lemma MediaStep(st: State, ls: seq<string>)
    requires ls != []
    ensures var y := Step(st, ls[0]);
            y.media + (Open(y, ls[1..]) + Sections(ls[1..])) == st.media + (Open(st, ls) + Sections(ls))
  {
    hide Step, Is, VersionOf, OriginOf, AttrLine, NewMedia, Val, Sections, Attrs;
    var y, rest := Step(st, ls[0]), Sections(ls[1..]);
    StepIs(st, ls[0]);
    SectionsCons(ls);
    ThreeParts(st.media, Open(st, ls), Sections(ls));
    ThreeParts(st.media, [], rest);
    if st.cur.Some? {
      AttrsCons(st.cur.value, ls);
    }
    if Is(ls[0], "m") {
      assert y.media == st.media + Open(st, ls);
      assert Sections(ls) == Open(y, ls[1..]) + rest;
    } else {
      assert Open(y, ls[1..]) == Open(st, ls);
      assert Sections(ls) == rest;
    }
  }

  lemma {:induction false} StepsReadMedia(ls: seq<string>, st: State)
    ensures CloseMedia(Steps(ls, st)) == st.media + (Open(st, ls) + Sections(ls))
  {
    hide Step;
    if ls == [] {
      assert CloseMedia(st) == st.media + (Open(st, ls) + Sections(ls));
    } else {
      hide Sections, Open, CloseMedia;
      MediaStep(st, ls);
      StepsReadMedia(ls[1..], Step(st, ls[0]));
    }
  }

  lemma {:induction false} SectionsRead(ls: seq<string>)
    ensures |Sections(ls)| == |Openings(ls)|
    ensures forall k :: 0 <= k < |Openings(ls)| ==> SectionReads(Sections(ls)[k], Openings(ls)[k])
  {
    hide SectionReads, Attrs, NewMedia, Opens, Is, Val, Upto;
    if ls != [] {
      SectionsRead(ls[1..]);
      if Is(ls[0], "m") {
        NewReads(ls[0]);
        if Opens(ls[0]) {
          SectionIs(ls[0], ls[1..]);
        }
      } else {
        OpensIsMedia(ls[0]);
      }
    }
  }

  lemma OpensIsMedia(line: string)
    ensures Opens(line) ==> Is(line, "m")
  {
  }

  /** The parsed SDP, read off the lines of the text: the version is that of the
      last `v=` line with a number, or 0; the origin has the first and the sixth
      field of the last `o=` line with six; and there is one section for each
      m-line that opens one, in order, reading as its m-line and the lines up to
      the next m-line say.  There is no SDP without a line that starts with
      `v=`, nor when there is neither a version nor a section. */
  lemma ParsedReads(text: string)
    ensures var ls := BodyLines(text);
            Parsed(text).None? <==>
              || text == "" || !Contains(text, "v=") || (forall i :: 0 <= i < |ls| ==> !("v=" <= ls[i]))
              || (LastOf(ls, VersionOf).None? && Openings(ls) == [])
    ensures Parsed(text).Some? ==>
            var sdp, ls := Parsed(text).value, BodyLines(text);
            && sdp.version == Or(LastOf(ls, VersionOf), 0)
            && sdp.origin == LastOf(ls, OriginOf)
            && |sdp.media| == |Openings(ls)|
            && forall k :: 0 <= k < |sdp.media| ==> SectionReads(sdp.media[k], Openings(ls)[k])
  {
    hide Contains, BodyLines, Steps, Openings, SectionReads, VersionOf, OriginOf, Sections;
    var ls := BodyLines(text);
    StepsReadHeader(ls, Start);
    StepsReadMedia(ls, Start);
    SectionsRead(ls);
    assert [] + ([] + Sections(ls)) == Sections(ls);
    VersionLineIff(ls);
  }

  lemma VersionLineIff(ls: seq<string>)
    ensures !HasVersionLine(ls) <==> forall i :: 0 <= i < |ls| ==> !("v=" <= ls[i])
  {
    if i :| 0 <= i < |ls| && "v=" <= ls[i] {
      assert ls[i] in ls;
    }
  }

  // ------------------------------------------------- what the lines look like

  lemma {:induction false} FindSlash(p: string, t: string)
    requires '/' !in p
    ensures t == "" ==> Find(p + t, "/") == None
    ensures t != "" && t[0] == '/' ==> Find(p + t, "/") == Some(|p|)
  {
    var s := p + t;
    if p != "" {
      assert s[0] == p[0] && p[0] in p && s[1..] == p[1..] + t;
      assert !("/" <= s);
      FindSlash(p[1..], t);
    } else if t != "" && t[0] == '/' {
      assert "/" <= s;
    }
  }

  lemma SlashParts(p: string, t: string)
    requires '/' !in p && (t == "" || t[0] == '/')
    ensures Split(p + t, "/") == [p] + if t == "" then [] else Split(t[1..], "/")
  {
    hide Find;
    FindSlash(p, t);
    assert (p + t)[..|p|] == p && (t != "" ==> (p + t)[|p| + 1..] == t[1..]);
    assert t == "" ==> p + t == p;
  }

  lemma NumeralForm(i: int)
    ensures ' ' !in Numeral(i) && '/' !in Numeral(i)
  {
    var n: nat := if i < 0 then -i else i;
    DecimalDigits(n);
    hide Decimal, Num;
  }

  lemma NumeralChars(i: int)
    ensures ' ' !in Numeral(i) && '/' !in Numeral(i) && PyInt(Numeral(i)) == Some(i)
  {
    hide PyInt, Numeral;
    NumeralForm(i);
    PyIntOfNumeral("", i, "");
    assert "" + Numeral(i) + "" == Numeral(i);
  }

  lemma TokenStays(s: string)
    requires IsToken(s)
    ensures Strip(s) == s
  {
    StripOf("", s, "");
    assert "" + s + "" == s;
  }

  /** `<type> <name>/<rate>`, with more parts or without, is read as written;
      without a rate it is 0. */
  lemma RtpmapReads(pt: int, name: string, rate: int, more: string)
    requires IsToken(name) && '/' !in name && (more == "" || more[0] == '/')
    ensures ReadRtpmap(Numeral(pt) + " " + (name + ("/" + (Numeral(rate) + more)))) == Some(Mapping(pt, name, rate))
    ensures ReadRtpmap(Numeral(pt) + " " + name) == Some(Mapping(pt, name, 0))
  {
    hide Partition, PyInt, Numeral, Split, Strip;
    var t := Numeral(rate) + more;
    NumeralChars(pt);
    NumeralChars(rate);
    TokenStays(name);
    PartitionAfter(Numeral(pt), ' ', name + ("/" + t));
    PartitionAfter(Numeral(pt), ' ', name);
    SlashParts(name, "/" + t);
    SlashParts(name, "");
    assert ("/" + t)[1..] == t && name + "" == name;
    SlashParts(Numeral(rate), more);
  }

  /** `<type> <parameters>` is read as written, but for the blanks around. */
  lemma FmtpReads(pt: int, v: string, params: string, w: string)
    requires AllChars(v, IsSpace) && AllChars(w, IsSpace)
    requires params != "" && !IsSpace(params[0]) && !IsSpace(params[|params| - 1])
    ensures ReadFmtp(Numeral(pt) + " " + (v + params + w)) == Some((pt, params))
  {
    hide Partition, PyInt, Numeral, Strip;
    NumeralChars(pt);
    PartitionAfter(Numeral(pt), ' ', v + params + w);
    StripOf(v, params, w);
  }

  // -------------------------------------------------------- the static types

  const STATIC_NAMES := [
    "PCMU", "", "", "GSM", "G723", "DVI4", "DVI4", "LPC", "PCMA", "G722", "L16", "L16", "QCELP", "CN", "MPA", "G728",
    "DVI4", "DVI4", "G729"]

  /** Of the types of the table, all have a rate of 8000 but L16, MPA and three
      of the four DVI4. */
  lemma StaticTypes(pt: int)
    ensures StaticCodec(pt).Some? <==> pt == 0 || 3 <= pt <= 18
    ensures StaticCodec(pt).Some? ==>
            StaticOf(pt) == (STATIC_NAMES[pt],
                             if pt == 10 || pt == 11 then 44100 else if pt == 14 then 90000 else if pt == 6 then 16000
                             else if pt == 16 then 11025 else if pt == 17 then 22050 else 8000)
    ensures StaticCodec(pt).None? ==> StaticOf(pt) == ("", 0)
  {
  }
}
