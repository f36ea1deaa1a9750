/** With one name per payload type, the filter acts on the parse by name: the
    codecs left in an audio section are those whose names are allowed. */
module SdpNames {
  import opened Text
  import opened SdpLines
  import opened SdpRewriter
  import opened SdpLaws
  import opened SdpComposition
  import opened SdpParser
  import opened SdpCommute

  function NamedCodecs(cs: seq<Codec>, allowed: set<string>): seq<Codec> {
    if cs == [] then []
    else (if Lower(cs[0].name) in allowed then [cs[0]] else []) + NamedCodecs(cs[1..], allowed)
  }

  function TypesOf(cs: seq<Codec>): (r: seq<int>)
    ensures |r| == |cs|
    ensures forall i :: 0 <= i < |cs| ==> r[i] == cs[i].pt
  {
    if cs == [] then [] else [cs[0].pt] + TypesOf(cs[1..])
  }

  /** An audio section without the codecs whose names are not allowed. */
  function KeepNamed(m: Media, allowed: set<string>): Media {
    if m.kind == "audio" then
      var cs := NamedCodecs(m.codecs, allowed);
      m.(codecs := cs, payloadTypes := TypesOf(cs))
    else m
  }

  function KeepNamedAll(p: Option<Sdp>, allowed: set<string>): Option<Sdp> {
    match p
    case None => None
    case Some(sdp) => Some(sdp.(media := KeepNamedEach(sdp.media, allowed)))
  }

  function KeepNamedEach(ms: seq<Media>, allowed: set<string>): (r: seq<Media>)
    ensures |r| == |ms|
    ensures forall i :: 0 <= i < |ms| ==> r[i] == KeepNamed(ms[i], allowed)
  {
    if ms == [] then [] else [KeepNamed(ms[0], allowed)] + KeepNamedEach(ms[1..], allowed)
  }

  /** What the parser reads from an rtpmap line. */
  function ParserMapping(l: string): Option<Mapping> {
    match Fields(l)
    case Some((kind, value)) =>
      if kind == "a" && Lower(Partition(value, ':').0) == "rtpmap" then ReadRtpmap(Partition(value, ':').1) else None
    case None => None
  }

  /** Parser and rewriter read the same rtpmap, or both none. */
  predicate SameMapping(l: string) {
    match (ParserMapping(l), MatchRtpmap(l))
    case (None, None) => true
    case (Some(p), Some(r)) => p.pt == NumOf(r.pt) && Lower(p.name) == Lower(r.name)
    case _ => false
  }

  predicate Distinct(fmts: seq<string>) {
    forall i, j :: 0 <= i < j < |fmts| ==> fmts[i] != fmts[j]
  }

  /** The name the parser ends up with for a format: the one the filter knows,
      or what its own table says of a type without any. */
  ghost function ParserName(body: seq<string>, fmts: seq<string>, f: string): string {
    if Names(body, fmts, f) == {} then Lower(NewCodec(NumOf(f)).name)
    else
      var n :| n in Names(body, fmts, f);
      n
  }

  /** The formats of an audio section are distinct and have at most one name each. */
  ghost predicate NamedFormats(fmts: seq<string>, body: seq<string>) {
    Distinct(fmts) && forall f :: f in fmts ==> AtMostOne(Names(body, fmts, f))
  }

  /** No listed type without a name for the filter has an allowed name for the
      parser. */
  predicate NamelessIsRefused(fmts: seq<string>, body: seq<string>, allowed: set<string>) {
    forall f :: f in fmts && Names(body, fmts, f) == {} ==> Lower(NewCodec(NumOf(f)).name) !in allowed
  }

  predicate NamelessAreRefused(ls: seq<string>, allowed: set<string>) {
    ls == [] || (
      && (IsAudio(ls[0]) ==> NamelessIsRefused(MatchMLine(ls[0]).value.fmts, Body(ls[1..]), allowed))
      && NamelessAreRefused(ls[1..], allowed))
  }

  predicate AllTrue(gs: seq<bool>) {
    forall i :: 0 <= i < |gs| ==> gs[i]
  }

  /** For each media section the parser finds, whether its codecs go by name. */
  function ByName(ls: seq<string>, allowed: set<string>): seq<bool> {
    if ls == [] then []
    else (if OpensMedia(ls[0])
          then [IsAudio(ls[0]) ==> NamelessIsRefused(MatchMLine(ls[0]).value.fmts, Body(ls[1..]), allowed)] else [])
         + ByName(ls[1..], allowed)
  }

  /** Both readers agree on m-lines and rtpmap lines, and every format of an
      audio section has at most one name. */
  ghost predicate Consistent(ls: seq<string>) {
    ls == [] || (
      && (Fields(ls[0]).Some? && Fields(ls[0]).value.0 == "m" ==> IsMLine(ls[0]))
      && (!IsMLine(ls[0]) ==> SameMapping(ls[0]))
      && (IsAudio(ls[0]) ==> NamedFormats(MatchMLine(ls[0]).value.fmts, Body(ls[1..])))
      && Consistent(ls[1..]))
  }

  /** The rewriter's static table agrees with the parser's. */
  lemma TablesAgree(pt: string)
    requires StaticName(pt).Some?
    ensures AllChars(pt, IsDigit)
    ensures StaticCodec(NumOf(pt)).Some? && Lower(StaticCodec(NumOf(pt)).value.0) == StaticName(pt).value
  {
    OneDigit(pt);
    if |pt| == 2 {
      assert Num(pt) == 10 * Num(pt[..1]) + (pt[1] as int - '0' as int);
      OneDigit(pt[..1]);
    }
  }

  /** On payload types in plain decimal the parser's table has all that the
      filter's has, and eleven more. */
  lemma TablesDiffer(pt: string)
    requires pt != "" && AllChars(pt, IsDigit) && (|pt| == 1 || pt[0] != '0')
    ensures StaticName(pt).Some? <==> NumOf(pt) in {0, 3, 8, 9, 15, 18}
    ensures StaticCodec(NumOf(pt)).Some? && StaticName(pt).None? <==> NumOf(pt) in {4, 5, 6, 7, 10, 11, 12, 13, 14, 16, 17}
  {
    OneDigit(pt);
    OneDigit(pt[..|pt| - 1]);
    assert Num(pt) == 10 * Num(pt[..|pt| - 1]) + (pt[|pt| - 1] as int - '0' as int);
    if |pt| > 2 {
      LeadingDigit(pt[..|pt| - 1]);
    }
  }

  lemma {:induction false} LeadingDigit(p: string)
    requires |p| > 1 && AllChars(p, IsDigit) && p[0] != '0'
    ensures Num(p) >= 10
  {
    if |p| == 2 {
      OneDigit(p[..1]);
    } else {
      LeadingDigit(p[..|p| - 1]);
    }
  }

  lemma OneDigit(p: string)
    requires AllChars(p, IsDigit)
    ensures |p| == 1 ==> Num(p) == p[0] as int - '0' as int
  {
    if |p| == 1 {
      assert p[..0] == "";
    }
  }

  // ------------------------------------------------------ finished sections

  /** A finished section: what is kept has an allowed name, and `byName` says
      whether all that has one is kept. */
  predicate Settled(m: Media, k: Option<set<int>>, byName: bool, allowed: set<string>) {
    match k
    case None => m.kind != "audio" && byName
    case Some(ks) =>
      && m.kind == "audio" && m.payloadTypes == TypesOf(m.codecs)
      && (forall c :: c in m.codecs && c.pt in ks ==> Lower(c.name) in allowed)
      && (byName <==> forall c :: c in m.codecs && Lower(c.name) in allowed ==> c.pt in ks)
  }

  lemma {:induction false} SettledCodecs(cs: seq<Codec>, ks: set<int>, allowed: set<string>)
    requires forall c :: c in cs ==> (c.pt in ks <==> Lower(c.name) in allowed)
    ensures OnlyCodecs(cs, ks) == NamedCodecs(cs, allowed)
    ensures Only(TypesOf(cs), ks) == TypesOf(NamedCodecs(cs, allowed))
  {
    if cs != [] {
      hide Lower;
      SettledCodecs(cs[1..], ks, allowed);
      assert cs[0] in cs;
      var rest := NamedCodecs(cs[1..], allowed);
      assert ([cs[0]] + rest)[1..] == rest;
      assert TypesOf(cs)[1..] == TypesOf(cs[1..]);
    }
  }

  lemma {:induction false} OnlyCodecsMembers(cs: seq<Codec>, ks: set<int>)
    ensures forall c :: c in OnlyCodecs(cs, ks) <==> c in cs && c.pt in ks
  {
    if cs != [] {
      OnlyCodecsMembers(cs[1..], ks);
      assert cs == [cs[0]] + cs[1..];
    }
  }

  lemma {:induction false} NamedCodecsMembers(cs: seq<Codec>, allowed: set<string>)
    ensures forall c :: c in NamedCodecs(cs, allowed) <==> c in cs && Lower(c.name) in allowed
  {
    hide Lower;
    if cs != [] {
      NamedCodecsMembers(cs[1..], allowed);
      assert cs == [cs[0]] + cs[1..];
    }
  }

  lemma SettledIsNamed(m: Media, k: Option<set<int>>, byName: bool, allowed: set<string>)
    requires Settled(m, k, byName, allowed)
    ensures RestrictMedia(m, k) == KeepNamed(m, allowed) <==> byName
  {
    hide Lower, OnlyCodecs, NamedCodecs, Only, TypesOf;
    if k.Some? {
      OnlyCodecsMembers(m.codecs, k.value);
      NamedCodecsMembers(m.codecs, allowed);
      if byName {
        SettledCodecs(m.codecs, k.value, allowed);
      }
    }
  }

  // --------------------------------------------------------- open sections

  /** The open section: its formats, and the name each of them has. */
  datatype Open = Open(fmts: seq<string>, names: seq<string>)

  /** An rtpmap line with the number of `f` is one for `f`. */
  predicate OwnNumber(l: string, f: string) {
    MatchRtpmap(l).Some? && NumOf(MatchRtpmap(l).value.pt) == NumOf(f) ==> MatchRtpmap(l).value.pt == f
  }

  /** Each codec has its final name already, or an rtpmap line of the rest of
      the body will give it. */
  ghost predicate OnTheWay(m: Media, o: Open, rest: seq<string>) {
    && m.kind == "audio" && |m.codecs| == |o.fmts| == |o.names|
    && m.payloadTypes == NumsOf(o.fmts)
    && (forall i :: 0 <= i < |o.fmts| ==> m.codecs[i].pt == NumOf(o.fmts[i]))
    && (forall i, j :: 0 <= i < j < |o.fmts| ==> NumOf(o.fmts[i]) != NumOf(o.fmts[j]))
    && (forall i :: 0 <= i < |o.fmts| ==> MappedNames(rest, o.fmts[i]) <= {o.names[i]})
    && (forall i :: 0 <= i < |o.fmts| ==> Lower(m.codecs[i].name) == o.names[i] || MappedNames(rest, o.fmts[i]) != {})
    && (forall l, i :: l in rest && 0 <= i < |o.fmts| ==> OwnNumber(l, o.fmts[i]))
  }

  /** What is kept of the open section has an allowed name, and `byName` says
      whether all that has one is kept. */
  predicate KeptByName(o: Open, ks: set<int>, byName: bool, allowed: set<string>) {
    && |o.fmts| == |o.names|
    && (forall i :: 0 <= i < |o.fmts| && NumOf(o.fmts[i]) in ks ==> o.names[i] in allowed)
    && (byName <==> forall i :: 0 <= i < |o.fmts| && o.names[i] in allowed ==> NumOf(o.fmts[i]) in ks)
  }

  lemma {:induction false} SetNameAt(cs: seq<Codec>, pt: int, name: string, rate: int, i: nat)
    requires i < |cs|
    requires forall a, b :: 0 <= a < b < |cs| ==> cs[a].pt != cs[b].pt
    ensures SetName(cs, pt, name, rate)[i] ==
            if cs[i].pt == pt then cs[i].(name := name, clockRate := rate) else cs[i]
  {
    if i > 0 && cs[0].pt != pt {
      SetNameAt(cs[1..], pt, name, rate, i - 1);
    }
  }

  lemma {:induction false} SetFmtpNames(cs: seq<Codec>, pt: int, params: string)
    ensures forall i :: 0 <= i < |cs| ==>
      SetFmtp(cs, pt, params)[i].name == cs[i].name && SetFmtp(cs, pt, params)[i].pt == cs[i].pt
  {
    if cs != [] {
      SetFmtpNames(cs[1..], pt, params);
    }
  }

  /** An attribute line changes the name of the mapped codec only. */
  lemma AttributeNames(m: Media, l: string)
    requires Fields(l).Some? && Fields(l).value.0 == "a"
    requires forall a, b :: 0 <= a < b < |m.codecs| ==> m.codecs[a].pt != m.codecs[b].pt
    ensures var r := Attribute(m, Fields(l).value.1);
            && r.kind == m.kind && r.payloadTypes == m.payloadTypes && |r.codecs| == |m.codecs|
            && forall i :: 0 <= i < |m.codecs| ==>
                 && r.codecs[i].pt == m.codecs[i].pt
                 && r.codecs[i].name ==
                    if ParserMapping(l).Some? && ParserMapping(l).value.pt == m.codecs[i].pt
                    then ParserMapping(l).value.name else m.codecs[i].name
  {
    hide Fields, Partition, ReadRtpmap, ReadFmtp, Lower, Tokens, PyInt;
    var val := Partition(Fields(l).value.1, ':').1;
    if ReadFmtp(val).Some? {
      SetFmtpNames(m.codecs, ReadFmtp(val).value.0, ReadFmtp(val).value.1);
    }
    if ReadRtpmap(val).Some? {
      var p := ReadRtpmap(val).value;
      forall i | 0 <= i < |m.codecs|
        ensures SetName(m.codecs, p.pt, p.name, p.rate)[i] ==
                if m.codecs[i].pt == p.pt then m.codecs[i].(name := p.name, clockRate := p.rate) else m.codecs[i]
      {
        SetNameAt(m.codecs, p.pt, p.name, p.rate, i);
      }
    }
  }

  lemma MappedCons(l: string, rest: seq<string>, pt: string)
    ensures MappedNames([l] + rest, pt) ==
      (if MatchRtpmap(l).Some? && MatchRtpmap(l).value.pt == pt then {Lower(MatchRtpmap(l).value.name)} else {})
      + MappedNames(rest, pt)
  {
    assert ([l] + rest)[1..] == rest;
  }

  /** One body line keeps the section on its way. */
  lemma OnTheWayStep(m: Media, o: Open, l: string, rest: seq<string>)
    requires OnTheWay(m, o, [l] + rest) && SameMapping(l)
    ensures Fields(l).Some? && Fields(l).value.0 == "a" ==> OnTheWay(Attribute(m, Fields(l).value.1), o, rest)
    ensures !(Fields(l).Some? && Fields(l).value.0 == "a") ==> OnTheWay(m, o, rest)
  {
    hide Fields, Attribute, Lower, MatchRtpmap, MappedNames, NumOf, Partition, ReadRtpmap;
    assert l in [l] + rest && forall x :: x in rest ==> x in [l] + rest;
    forall i | 0 <= i < |o.fmts|
      ensures MappedNames([l] + rest, o.fmts[i]) ==
        (if MatchRtpmap(l).Some? && MatchRtpmap(l).value.pt == o.fmts[i]
         then {Lower(MatchRtpmap(l).value.name)} else {}) + MappedNames(rest, o.fmts[i])
    {
      MappedCons(l, rest, o.fmts[i]);
    }
    if Fields(l).Some? && Fields(l).value.0 == "a" {
      AttributeNames(m, l);
    }
  }

  lemma OnTheWayEnds(m: Media, o: Open, ks: set<int>, byName: bool, allowed: set<string>)
    requires OnTheWay(m, o, []) && KeptByName(o, ks, byName, allowed)
    ensures Settled(m, Some(ks), byName, allowed)
  {
    hide Lower, NumOf;
    NumsOfTypes(o.fmts, m.codecs);
    forall i | 0 <= i < |o.fmts| ensures Lower(m.codecs[i].name) == o.names[i] {
      assert MappedNames([], o.fmts[i]) == {};
    }
    forall c | c in m.codecs && c.pt in ks ensures Lower(c.name) in allowed {
      var i :| 0 <= i < |m.codecs| && m.codecs[i] == c;
    }
    if byName {
      forall c | c in m.codecs && Lower(c.name) in allowed ensures c.pt in ks {
        var i :| 0 <= i < |m.codecs| && m.codecs[i] == c;
      }
    } else {
      var i :| 0 <= i < |o.fmts| && o.names[i] in allowed && NumOf(o.fmts[i]) !in ks;
      assert m.codecs[i] in m.codecs;
    }
  }

  lemma {:induction false} NumsOfTypes(fmts: seq<string>, cs: seq<Codec>)
    requires |fmts| == |cs| && forall i :: 0 <= i < |fmts| ==> cs[i].pt == NumOf(fmts[i])
    ensures NumsOf(fmts) == TypesOf(cs)
  {
    hide NumOf;
    if fmts != [] {
      NumsOfTypes(fmts[1..], cs[1..]);
    }
  }

  // -------------------------------------------------------- opening a section

  ghost function NamesFor(fmts: seq<string>, all: seq<string>, body: seq<string>): (r: seq<string>)
    ensures |r| == |fmts|
    ensures forall i :: 0 <= i < |fmts| ==> r[i] == ParserName(body, all, fmts[i])
  {
    if fmts == [] then [] else [ParserName(body, all, fmts[0])] + NamesFor(fmts[1..], all, body)
  }

  lemma {:induction false} NewCodecsAt(fmts: seq<string>, i: nat)
    requires i < |fmts|
    ensures NewCodecs(NumsOf(fmts))[i] == NewCodec(NumOf(fmts[i]))
  {
    hide NumOf, NewCodec;
    if i > 0 {
      NewCodecsAt(fmts[1..], i - 1);
      assert NumsOf(fmts)[1..] == NumsOf(fmts[1..]);
    }
  }

  lemma NameOnMLine(body: seq<string>, fmts: seq<string>, f: string)
    requires f in fmts && AtMostOne(Names(body, fmts, f))
    ensures MappedNames(body, f) <= {ParserName(body, fmts, f)}
    ensures Lower(NewCodec(NumOf(f)).name) == ParserName(body, fmts, f) || MappedNames(body, f) != {}
  {
    hide MappedNames, Lower, NumOf, StaticCodec, StaticName;
    var n := ParserName(body, fmts, f);
    if Names(body, fmts, f) != {} {
      assert n in Names(body, fmts, f);
      if MappedNames(body, f) == {} {
        assert StaticName(f) == Some(n);
        TablesAgree(f);
      }
    }
  }

  /** A new audio section is on its way, and its kept numbers have allowed names. */
  lemma SectionOpens(ls: seq<string>, allowed: set<string>) returns (o: Open)
    requires ls != [] && IsAudio(ls[0]) && MatchMLine(ls[0]).value.fmts != []
    requires PlainTypes(MatchMLine(ls[0]).value.fmts, Body(ls[1..]))
    requires NamedFormats(MatchMLine(ls[0]).value.fmts, Body(ls[1..]))
    ensures OnTheWay(AudioMedia(MatchMLine(ls[0]).value), o, Body(ls[1..]))
    ensures KeptByName(o, KeptNumbers(ls, allowed),
                       NamelessIsRefused(MatchMLine(ls[0]).value.fmts, Body(ls[1..]), allowed), allowed)
  {
    hide MatchMLine, Body, MappedNames, Names, NumOf, NewCodec, Lower, NumsOf, NewCodecs, KeepAt, ParserName, LineType,
      KeptNumbers, OwnNumber, Distinct, PlainTypes, AtMostOne, OnTheWay, AudioMedia, NamesFor, KeptByName,
      NamelessIsRefused;
    var m, body := MatchMLine(ls[0]).value, Body(ls[1..]);
    o := Open(m.fmts, NamesFor(m.fmts, m.fmts, body));
    forall i | 0 <= i < |m.fmts|
      ensures NewCodecs(NumsOf(m.fmts))[i].pt == NumOf(m.fmts[i])
      ensures MappedNames(body, m.fmts[i]) <= {o.names[i]}
      ensures Lower(NewCodecs(NumsOf(m.fmts))[i].name) == o.names[i] || MappedNames(body, m.fmts[i]) != {}
    {
      FormatOpens(ls, i);
    }
    DistinctNumbers(m.fmts, body);
    NewIsOnTheWay(m, o, body);
    OpenIsKeptByName(ls, allowed, o);
  }

  /** The filter keeps the formats with an allowed name; the parser's name of a
      kept one is that name. */
  lemma OpenIsKeptByName(ls: seq<string>, allowed: set<string>, o: Open)
    requires ls != [] && IsAudio(ls[0])
    requires PlainTypes(MatchMLine(ls[0]).value.fmts, Body(ls[1..]))
    requires NamedFormats(MatchMLine(ls[0]).value.fmts, Body(ls[1..]))
    requires var fmts := MatchMLine(ls[0]).value.fmts;
             o == Open(fmts, NamesFor(fmts, fmts, Body(ls[1..])))
    ensures KeptByName(o, KeptNumbers(ls, allowed),
                       NamelessIsRefused(MatchMLine(ls[0]).value.fmts, Body(ls[1..]), allowed), allowed)
  {
    hide MatchMLine, Body, Names, NumOf, NewCodec, Lower, KeepAt, ParserName, KeptNumbers, PlainTypes, AtMostOne, Distinct;
    var fmts, body := MatchMLine(ls[0]).value.fmts, Body(ls[1..]);
    forall i | 0 <= i < |fmts|
      ensures NumOf(fmts[i]) in KeptNumbers(ls, allowed) <==> Names(body, fmts, fmts[i]) != {} && o.names[i] in allowed
      ensures Names(body, fmts, fmts[i]) == {} ==> o.names[i] == Lower(NewCodec(NumOf(fmts[i])).name)
    {
      assert fmts[i] in fmts;
      KeptIsAllowedName(ls, fmts[i], allowed);
      NamelessName(body, fmts, fmts[i]);
    }
    RefusedByIndex(fmts, body, allowed);
  }

  lemma NamelessName(body: seq<string>, fmts: seq<string>, f: string)
    ensures Names(body, fmts, f) == {} ==> ParserName(body, fmts, f) == Lower(NewCodec(NumOf(f)).name)
  {
  }

  lemma RefusedByIndex(fmts: seq<string>, body: seq<string>, allowed: set<string>)
    ensures NamelessIsRefused(fmts, body, allowed) <==>
            forall i :: 0 <= i < |fmts| && Names(body, fmts, fmts[i]) == {} ==>
              Lower(NewCodec(NumOf(fmts[i])).name) !in allowed
  {
    hide Names, NewCodec, NumOf, Lower;
    if NamelessIsRefused(fmts, body, allowed) {
      assert forall i :: 0 <= i < |fmts| ==> fmts[i] in fmts;
    }
  }

  lemma NewIsOnTheWay(m: MLine, o: Open, body: seq<string>)
    requires m.media == "audio" && o.fmts == m.fmts && |o.names| == |m.fmts|
    requires forall i :: 0 <= i < |m.fmts| ==> NewCodecs(NumsOf(m.fmts))[i].pt == NumOf(m.fmts[i])
    requires forall i, j :: 0 <= i < j < |m.fmts| ==> NumOf(m.fmts[i]) != NumOf(m.fmts[j])
    requires forall i :: 0 <= i < |m.fmts| ==> MappedNames(body, m.fmts[i]) <= {o.names[i]}
    requires forall i :: 0 <= i < |m.fmts| ==>
      Lower(NewCodecs(NumsOf(m.fmts))[i].name) == o.names[i] || MappedNames(body, m.fmts[i]) != {}
    requires forall l, f :: l in body && f in m.fmts ==> OwnNumber(l, f)
    ensures OnTheWay(AudioMedia(m), o, body)
  {
    hide NumOf, NewCodecs, NumsOf, MappedNames, Lower, OwnNumber;
    forall l, i | l in body && 0 <= i < |o.fmts| ensures OwnNumber(l, o.fmts[i]) {
      assert o.fmts[i] in m.fmts;
    }
  }

  lemma FormatOpens(ls: seq<string>, i: nat)
    requires ls != [] && IsAudio(ls[0]) && i < |MatchMLine(ls[0]).value.fmts|
    requires NamedFormats(MatchMLine(ls[0]).value.fmts, Body(ls[1..]))
    ensures var fmts, body := MatchMLine(ls[0]).value.fmts, Body(ls[1..]);
            var name := NamesFor(fmts, fmts, body)[i];
            && NewCodecs(NumsOf(fmts))[i].pt == NumOf(fmts[i])
            && MappedNames(body, fmts[i]) <= {name}
            && (Lower(NewCodecs(NumsOf(fmts))[i].name) == name || MappedNames(body, fmts[i]) != {})
  {
    var fmts, body := MatchMLine(ls[0]).value.fmts, Body(ls[1..]);
    hide MatchMLine, Body, MappedNames, Names, NumOf, NewCodec, Lower, NumsOf, NewCodecs, ParserName, Distinct, AtMostOne;
    assert fmts[i] in fmts;
    NewCodecsAt(fmts, i);
    NewCodecType(NumOf(fmts[i]));
    NameOnMLine(body, fmts, fmts[i]);
  }

  lemma DistinctNumbers(fmts: seq<string>, body: seq<string>)
    requires PlainTypes(fmts, body) && Distinct(fmts)
    ensures forall i, j :: 0 <= i < j < |fmts| ==> NumOf(fmts[i]) != NumOf(fmts[j])
    ensures forall l, f :: l in body && f in fmts ==> OwnNumber(l, f)
  {
    hide NumOf, MatchRtpmap;
    forall i, j | 0 <= i < j < |fmts| ensures NumOf(fmts[i]) != NumOf(fmts[j]) {
      assert fmts[i] in fmts && fmts[j] in fmts;
    }
  }

  lemma KeptIsAllowedName(ls: seq<string>, f: string, allowed: set<string>)
    requires ls != [] && IsAudio(ls[0]) && f in MatchMLine(ls[0]).value.fmts
    requires PlainTypes(MatchMLine(ls[0]).value.fmts, Body(ls[1..]))
    requires AtMostOne(Names(Body(ls[1..]), MatchMLine(ls[0]).value.fmts, f))
    ensures var fmts, body := MatchMLine(ls[0]).value.fmts, Body(ls[1..]);
            NumOf(f) in KeptNumbers(ls, allowed) <==> Names(body, fmts, f) != {} && ParserName(body, fmts, f) in allowed
  {
    var fmts, body := MatchMLine(ls[0]).value.fmts, Body(ls[1..]);
    hide MatchMLine, Body, Names, NumOf, Keep, LineType;
    KeepIsNamed(body, fmts, allowed, f);
    OneOfAllowed(body, fmts, f, allowed);
    assert NumOf(f) in KeptNumbers(ls, allowed) <==> f in KeepAt(ls, allowed);
  }

  lemma OneOfAllowed(body: seq<string>, fmts: seq<string>, f: string, allowed: set<string>)
    requires AtMostOne(Names(body, fmts, f))
    ensures Names(body, fmts, f) * allowed != {} <==> Names(body, fmts, f) != {} && ParserName(body, fmts, f) in allowed
  {
    hide Names, NumOf, NewCodec, Lower;
    var names := Names(body, fmts, f);
    if names != {} {
      var n := ParserName(body, fmts, f);
      assert n in names && (n in allowed ==> n in names * allowed);
      assert forall x :: x in names * allowed ==> x == n;
    }
  }

  // ------------------------------------------------------------- the parse

  /** All closed sections are settled, and the open one is on its way. */
  ghost predicate Names'(st: State, ks: seq<Option<set<int>>>, gs: seq<bool>, o: Option<Open>, body: seq<string>,
                         allowed: set<string>) {
    && |ks| == |gs| == |CloseMedia(st)|
    && (forall i :: 0 <= i < |st.media| ==> Settled(st.media[i], ks[i], gs[i], allowed))
    && (st.cur.Some? ==>
          match ks[|ks| - 1]
          case None => st.cur.value.kind != "audio" && gs[|gs| - 1]
          case Some(k) => o.Some? && OnTheWay(st.cur.value, o.value, body) && KeptByName(o.value, k, gs[|gs| - 1], allowed))
  }

  lemma ClosedNames(st: State, ks: seq<Option<set<int>>>, gs: seq<bool>, o: Option<Open>, allowed: set<string>)
    requires Names'(st, ks, gs, o, [], allowed)
    ensures forall i :: 0 <= i < |ks| ==> Settled(CloseMedia(st)[i], ks[i], gs[i], allowed)
  {
    hide Settled, OnTheWay, KeptByName;
    if st.cur.Some? && ks[|ks| - 1].Some? {
      OnTheWayEnds(st.cur.value, o.value, ks[|ks| - 1].value, gs[|gs| - 1], allowed);
    }
    if st.cur.Some? && ks[|ks| - 1].None? {
      NotAudioSettled(st, allowed);
    }
  }

  lemma NotAudioSettled(st: State, allowed: set<string>)
    requires st.cur.Some?
    ensures st.cur.value.kind != "audio" ==> Settled(st.cur.value, None, true, allowed)
  {
  }

  lemma NamesStep(st: State, ks: seq<Option<set<int>>>, gs: seq<bool>, o: Option<Open>, l: string, rest: seq<string>,
                  allowed: set<string>)
    requires Names'(st, ks, gs, o, [l] + rest, allowed) && SameMapping(l)
    requires !(Fields(l).Some? && Fields(l).value.0 == "m")
    ensures Names'(Step(st, l), ks, gs, o, rest, allowed)
  {
    hide Fields, Attribute, Settled, OnTheWay, KeptByName, SameMapping, Tokens, PyInt;
    if st.cur.Some? {
      if ks[|ks| - 1].Some? {
        OnTheWayStep(st.cur.value, o.value, l, rest);
      } else if Fields(l).Some? {
        AttributeKind(st.cur.value, Fields(l).value.1);
      }
    }
  }

  lemma AttributeKind(m: Media, value: string)
    ensures Attribute(m, value).kind == m.kind
  {
    hide Partition, ReadRtpmap, ReadFmtp, Lower, Tokens, PyInt;
  }

  lemma {:induction false} NamesSimulation(ls: seq<string>, st: State, ks: seq<Option<set<int>>>, gs: seq<bool>,
                                           o: Option<Open>, allowed: set<string>)
    requires Readable(ls) && LeavesFormats(ls, allowed) && Consistent(ls)
    requires Names'(st, ks, gs, o, Body(ls), allowed)
    ensures |ks + MediaKeeps(ls, allowed)| == |gs + ByName(ls, allowed)| == |CloseMedia(Steps(ls, st))|
    ensures forall i :: 0 <= i < |CloseMedia(Steps(ls, st))| ==>
      Settled(CloseMedia(Steps(ls, st))[i], (ks + MediaKeeps(ls, allowed))[i], (gs + ByName(ls, allowed))[i], allowed)
  {
    hide MatchMLine, Step, OpensMedia, PlainTypes, NamedFormats, SameMapping, Names', KeptNumbers, Settled, KeepAt, Fields,
      CloseMedia;
    if ls == [] {
      assert ks + [] == ks && gs + [] == gs && Body(ls) == [];
      ClosedNames(st, ks, gs, o, allowed);
      NamesLength(st, ks, gs, o, [], allowed);
    } else {
      var l, rest := ls[0], ls[1..];
      if IsMLine(l) {
        assert Body(ls) == [];
        ClosedNames(st, ks, gs, o, allowed);
        NamesLength(st, ks, gs, o, [], allowed);
        var more, named, o' := NamesAtMLine(ls, st, ks, gs, allowed);
        NamesSimulation(rest, Step(st, l), ks + more, gs + named, o', allowed);
        KeepsOf(ks, ls, more, allowed);
        ByNameOf(gs, ls, named, allowed);
      } else {
        assert Body(ls) == [l] + Body(rest);
        NamesStep(st, ks, gs, o, l, Body(rest), allowed);
        NamesSimulation(rest, Step(st, l), ks, gs, o, allowed);
        NoMediaOpens(l);
        KeepsOf(ks, ls, [], allowed);
        ByNameOf(gs, ls, [], allowed);
        assert ks + [] == ks && gs + [] == gs;
      }
    }
  }

  lemma ByNameOf(gs: seq<bool>, ls: seq<string>, head: seq<bool>, allowed: set<string>)
    requires ls != []
    requires head ==
             if OpensMedia(ls[0])
             then [IsAudio(ls[0]) ==> NamelessIsRefused(MatchMLine(ls[0]).value.fmts, Body(ls[1..]), allowed)] else []
    ensures gs + ByName(ls, allowed) == (gs + head) + ByName(ls[1..], allowed)
  {
    hide MatchMLine, OpensMedia, NamelessIsRefused;
  }

  lemma NamesLength(st: State, ks: seq<Option<set<int>>>, gs: seq<bool>, o: Option<Open>, body: seq<string>, allowed: set<string>)
    requires Names'(st, ks, gs, o, body, allowed)
    ensures |ks| == |gs| == |CloseMedia(st)|
  {
  }

  lemma NoMediaOpens(l: string)
    requires !(Fields(l).Some? && Fields(l).value.0 == "m")
    ensures !OpensMedia(l)
  {
  }

  lemma NamesAtMLine(ls: seq<string>, st: State, ks: seq<Option<set<int>>>, gs: seq<bool>, allowed: set<string>)
    returns (more: seq<Option<set<int>>>, named: seq<bool>, o: Option<Open>)
    requires ls != [] && IsMLine(ls[0])
    requires Readable(ls) && LeavesFormats(ls, allowed) && Consistent(ls)
    requires |ks| == |gs| == |CloseMedia(st)|
    requires forall i :: 0 <= i < |ks| ==> Settled(CloseMedia(st)[i], ks[i], gs[i], allowed)
    ensures more == if OpensMedia(ls[0]) then [if IsAudio(ls[0]) then Some(KeptNumbers(ls, allowed)) else None] else []
    ensures named ==
            if OpensMedia(ls[0])
            then [IsAudio(ls[0]) ==> NamelessIsRefused(MatchMLine(ls[0]).value.fmts, Body(ls[1..]), allowed)] else []
    ensures Names'(Step(st, ls[0]), ks + more, gs + named, o, Body(ls[1..]), allowed)
  {
    var l := ls[0];
    hide MatchMLine, Body, Names', Fields, NewMedia, KeptNumbers, Step, CloseMedia, Settled, NamelessIsRefused;
    if IsAudio(l) {
      var k, open := NamesAtAudio(ls, st, ks, gs, allowed);
      more, o := [k], Some(open);
      named := [NamelessIsRefused(MatchMLine(l).value.fmts, Body(ls[1..]), allowed)];
    } else {
      more, named, o := if OpensMedia(l) then [None] else [], if OpensMedia(l) then [true] else [], None;
      NamesAtOther(l, st, ks, gs, Body(ls[1..]), allowed);
    }
  }

  lemma NamesAtAudio(ls: seq<string>, st: State, ks: seq<Option<set<int>>>, gs: seq<bool>, allowed: set<string>)
    returns (k: Option<set<int>>, open: Open)
    requires ls != [] && IsAudio(ls[0])
    requires Readable(ls) && LeavesFormats(ls, allowed) && Consistent(ls)
    requires |ks| == |gs| == |CloseMedia(st)|
    requires forall i :: 0 <= i < |ks| ==> Settled(CloseMedia(st)[i], ks[i], gs[i], allowed)
    ensures OpensMedia(ls[0]) && k == Some(KeptNumbers(ls, allowed))
    ensures Names'(Step(st, ls[0]), ks + [k],
                   gs + [NamelessIsRefused(MatchMLine(ls[0]).value.fmts, Body(ls[1..]), allowed)], Some(open),
                   Body(ls[1..]), allowed)
  {
    hide MatchMLine, Body, Settled, OnTheWay, KeptByName, Fields, NewMedia, KeptNumbers, PlainTypes, NamedFormats, AudioMedia,
      OrderFormats, KeepAt, NamelessIsRefused;
    LeavesHead(ls, allowed);
    AudioFormats(ls, allowed);
    AudioOpens(ls[0]);
    open := SectionOpens(ls, allowed);
    k := Some(KeptNumbers(ls, allowed));
  }

  lemma NamesAtOther(l: string, st: State, ks: seq<Option<set<int>>>, gs: seq<bool>, body: seq<string>, allowed: set<string>)
    requires IsMLine(l) && !IsAudio(l)
    requires |ks| == |gs| == |CloseMedia(st)|
    requires forall i :: 0 <= i < |ks| ==> Settled(CloseMedia(st)[i], ks[i], gs[i], allowed)
    ensures Names'(Step(st, l), ks + (if OpensMedia(l) then [None] else []),
                   gs + (if OpensMedia(l) then [true] else []), None, body, allowed)
  {
    hide MatchMLine, Settled, OnTheWay, KeptByName, Tokens, Fields, NewMedia;
    MLineFields(l);
    if OpensMedia(l) {
      MediaKind(Fields(l).value.1);
    } else {
      assert ks + [] == ks && gs + [] == gs;
    }
  }

  lemma AudioFormats(ls: seq<string>, allowed: set<string>)
    requires ls != [] && IsAudio(ls[0]) && Readable(ls)
    requires OrderFormats(MatchMLine(ls[0]).value.fmts, KeepAt(ls, allowed)) != []
    ensures MatchMLine(ls[0]).value.fmts != []
    ensures forall f :: f in MatchMLine(ls[0]).value.fmts ==> AllChars(f, IsDigit)
  {
    hide MatchMLine, KeepAt, NumOf, LineType, Body;
  }

  lemma MediaKind(value: string)
    requires NewMedia(value).Some?
    ensures NewMedia(value).value.kind == Tokens(value)[0]
  {
  }

  /** What the simulation says of a whole text. */
  lemma SettledParse(sdp: string, allowed: set<string>)
    requires OneBreak(sdp)
    requires Readable(Lines(sdp)) && LeavesFormats(Lines(sdp), allowed) && Consistent(Lines(sdp))
    ensures Parsed(sdp).Some? ==>
      var ks, gs, media := MediaKeeps(Lines(sdp), allowed), ByName(Lines(sdp), allowed), Parsed(sdp).value.media;
      |ks| == |gs| == |media| && forall i :: 0 <= i < |media| ==> Settled(media[i], ks[i], gs[i], allowed)
  {
    hide Lines, Readable, LeavesFormats, Consistent, MediaKeeps, ByName, Steps, Settled, OneBreak, HasVersionLine,
      CloseMedia, Parsed;
    var ls, ks, gs := Lines(sdp), MediaKeeps(Lines(sdp), allowed), ByName(Lines(sdp), allowed);
    ParsedByLines(sdp);
    assert CloseMedia(Start) == [] by { StartIsEmpty(); }
    assert Names'(Start, [], [], None, Body(ls), allowed);
    NamesSimulation(ls, Start, [], [], None, allowed);
    assert [] + ks == ks && [] + gs == gs;
  }

  lemma StartIsEmpty()
    ensures CloseMedia(Start) == []
  {
  }

  lemma {:induction false} ByNameIff(ls: seq<string>, allowed: set<string>)
    requires Readable(ls) && LeavesFormats(ls, allowed)
    ensures NamelessAreRefused(ls, allowed) <==> AllTrue(ByName(ls, allowed))
  {
    hide MatchMLine, OpensMedia, PlainTypes, NamelessIsRefused, KeepAt, OrderFormats, Body, AllTrue;
    if ls == [] {
      assert AllTrue([]) by { NoneFalse(); }
    } else {
      LeavesTail(ls, allowed);
      ByNameIff(ls[1..], allowed);
      var rest := ByName(ls[1..], allowed);
      if IsAudio(ls[0]) {
        AudioLineOpens(ls, allowed);
      }
      if OpensMedia(ls[0]) {
        var g := IsAudio(ls[0]) ==> NamelessIsRefused(MatchMLine(ls[0]).value.fmts, Body(ls[1..]), allowed);
        assert ByName(ls, allowed) == [g] + rest;
        AllCons(g, rest);
      } else {
        assert ByName(ls, allowed) == rest;
      }
    }
  }

  lemma AllCons(g: bool, rest: seq<bool>)
    ensures AllTrue([g] + rest) <==> g && AllTrue(rest)
  {
    var all := [g] + rest;
    assert all[0] == g && forall i :: 0 <= i < |rest| ==> rest[i] == all[i + 1];
    assert forall i :: 1 <= i < |all| ==> all[i] == rest[i - 1];
  }

  lemma NoneFalse()
    ensures AllTrue([])
  {
  }

  lemma AudioLineOpens(ls: seq<string>, allowed: set<string>)
    requires ls != [] && IsAudio(ls[0]) && Readable(ls) && LeavesFormats(ls, allowed)
    ensures OpensMedia(ls[0])
  {
    hide MatchMLine, KeepAt, OrderFormats, Body, PlainTypes, Fields, NewMedia;
    LeavesHead(ls, allowed);
    AudioFormats(ls, allowed);
    AudioOpens(ls[0]);
  }

  /** Rewriting and parsing is parsing and dropping, from each audio section,
      the codecs whose names are not allowed, if and only if no listed type that
      has no name for the filter has an allowed one for the parser. */
  lemma FilterThenParseByName(sdp: string, allowed: set<string>)
    requires allowed != {} && OneBreak(sdp)
    requires Readable(Lines(sdp)) && LeavesFormats(Lines(sdp), allowed) && Consistent(Lines(sdp))
    ensures Parsed(Filtered(sdp, allowed)) == KeepNamedAll(Parsed(sdp), allowed) <==>
            Parsed(sdp).None? || NamelessAreRefused(Lines(sdp), allowed)
  {
    hide Lines, Readable, LeavesFormats, Consistent, MediaKeeps, ByName, Filtered, Settled, OneBreak, KeepNamedAll,
      RestrictParse, Parsed, NamelessAreRefused;
    FilterThenParse(sdp, allowed);
    SettledParse(sdp, allowed);
    ByNameIff(Lines(sdp), allowed);
    AllNamed(Parsed(sdp), MediaKeeps(Lines(sdp), allowed), ByName(Lines(sdp), allowed), allowed);
  }

  lemma AllNamed(p: Option<Sdp>, ks: seq<Option<set<int>>>, gs: seq<bool>, allowed: set<string>)
    requires p.Some? ==> |ks| == |gs| == |p.value.media|
    requires p.Some? ==> forall i :: 0 <= i < |ks| ==> Settled(p.value.media[i], ks[i], gs[i], allowed)
    ensures RestrictParse(p, ks) == KeepNamedAll(p, allowed) <==> p.None? || AllTrue(gs)
  {
    hide Settled, RestrictMedia, KeepNamed, RestrictAll, KeepNamedEach;
    if p.Some? {
      var media := p.value.media;
      forall i | 0 <= i < |media| ensures RestrictMedia(media[i], ks[i]) == KeepNamed(media[i], allowed) <==> gs[i] {
        SettledIsNamed(media[i], ks[i], gs[i], allowed);
      }
      var a, b := RestrictAll(media, ks), KeepNamedEach(media, allowed);
      if AllTrue(gs) {
        assert a == b;
      } else {
        var i :| 0 <= i < |gs| && !gs[i];
        assert a[i] != b[i];
      }
    }
  }

  /** Every codec name left in an audio section is in the allow-list. */
  lemma NamesLeftAreAllowed(sdp: string, allowed: set<string>, m: Media, c: Codec)
    requires allowed != {} && OneBreak(sdp)
    requires Readable(Lines(sdp)) && LeavesFormats(Lines(sdp), allowed) && Consistent(Lines(sdp))
    requires Parsed(Filtered(sdp, allowed)).Some? && m in Parsed(Filtered(sdp, allowed)).value.media
    requires m.kind == "audio" && c in m.codecs
    ensures Lower(c.name) in allowed
  {
    hide Lines, Readable, LeavesFormats, Consistent, Filtered, OneBreak, Parsed, Lower, MediaKeeps, ByName, Settled,
      RestrictMedia;
    FilterThenParse(sdp, allowed);
    SettledParse(sdp, allowed);
    var ks, gs, before := MediaKeeps(Lines(sdp), allowed), ByName(Lines(sdp), allowed), Parsed(sdp).value.media;
    var i :| 0 <= i < |before| && m == RestrictMedia(before[i], ks[i]);
    RestrictedIsAllowed(before[i], ks[i], gs[i], allowed, c);
  }

  lemma RestrictedIsAllowed(m: Media, k: Option<set<int>>, byName: bool, allowed: set<string>, c: Codec)
    requires Settled(m, k, byName, allowed)
    requires RestrictMedia(m, k).kind == "audio" && c in RestrictMedia(m, k).codecs
    ensures Lower(c.name) in allowed
  {
    hide Lower, OnlyCodecs, TypesOf;
    OnlyCodecsMembers(m.codecs, k.value);
  }

  // --------------------------------------------- a type only the parser names

  const NOISE := MLine("audio", "1", "RTP/AVP", ["0", "13"])

  /** A version line and an audio section with PCMU and comfort noise, which has
      a static type for the parser and not for the filter. */
  function NoisyLines(): seq<string> {
    ["v=0", Render(NOISE, NOISE.fmts)]
  }

  lemma NoiseTypes()
    ensures WellFormed(NOISE) && forall f :: f in NOISE.fmts ==> IsToken(f) && AllChars(f, IsDigit)
    ensures NumOf("0") == 0 && NumOf("13") == 13
  {
    OneDigit("0");
    OneDigit("1");
    assert "13"[..1] == "1";
    assert Num("13") == 10 * Num("13"[..1]) + 3;
  }

  lemma NoisyLine()
    ensures var line := Render(NOISE, NOISE.fmts);
            IsAudio(line) && MatchMLine(line) == Some(NOISE) && '\n' !in line && '\r' !in line
  {
    NoiseTypes();
    hide MatchMLine, Render;
    MatchOfRender(NOISE, NOISE.fmts);
    RenderHasNoBreak(NOISE, NOISE.fmts);
  }

  lemma VersionLine()
    ensures Fields("v=0").Some? && Fields("v=0").value.0 == "v"
    ensures !IsMLine("v=0") && SameMapping("v=0")
  {
    assert "v=0"[2] == '0' && Rstrip("v=0") == "v=0";
    PartitionPrefix("v", '=', "=0");
    assert "v" + "=0" == "v=0" && Partition("=0", '=').0 == "";
    assert Partition("v=0", '=').0 == "v";
  }

  lemma NoisyText()
    ensures var sdp := Join(NoisyLines(), LF);
            Lines(sdp) == NoisyLines() && OneBreak(sdp)
  {
    hide MatchMLine, Render, Find, Split, Join;
    NoisyLine();
    var ls := NoisyLines();
    forall l | l in ls ensures !Contains(l, LF) && !Contains(l, CRLF) {
      NoLfNoBreak(l);
    }
    JoinedWithoutCrlf(ls);
    SplitOfJoin(ls, LF);
  }

  lemma NoisyNames()
    ensures Names([], NOISE.fmts, "0") == {"pcmu"} && Names([], NOISE.fmts, "13") == {}
  {
  }

  lemma LowerCn()
    ensures Lower("CN") == "cn"
  {
  }

  lemma NoisySection(line: string)
    requires MatchMLine(line) == Some(NOISE)
    ensures var ls, allowed := [line], {"pcmu", "cn"};
            Readable(ls) && LeavesFormats(ls, allowed) && Consistent(ls) && !NamelessAreRefused(ls, allowed)
  {
    var allowed := {"pcmu", "cn"};
    hide MatchMLine, Fields, Names, Lower, StaticAllowed;
    NoiseTypes();
    NoisyNames();
    assert [line][1..] == [] && Body([]) == [] && Readable([]) && Consistent([]) && LeavesFormats([], allowed);
    assert NOISE.fmts == ["0", "13"];
    assert OrderFormats(NOISE.fmts, KeepAt([line], allowed)) != [] by {
      KeepIsNamed([], NOISE.fmts, allowed, "0");
      assert "pcmu" in {"pcmu"} * allowed;
      assert "0" in KeepAt([line], allowed);
    }
    LowerCn();
    assert "13" in NOISE.fmts && Lower(NewCodec(NumOf("13")).name) in allowed;
  }

  /** With PCMU and CN allowed the filter drops type 13, which the parser calls
      CN: filtering and parsing is not parsing and dropping by name. */
  lemma ComfortNoise()
    ensures var sdp, allowed := Join(NoisyLines(), LF), {"pcmu", "cn"};
            && OneBreak(sdp) && Readable(Lines(sdp)) && LeavesFormats(Lines(sdp), allowed) && Consistent(Lines(sdp))
            && Parsed(sdp).Some? && Parsed(Filtered(sdp, allowed)) != KeepNamedAll(Parsed(sdp), allowed)
  {
    hide MatchMLine, Render, Find, Split, Join, Fields, Parsed, Filtered, KeepNamedAll, SameMapping, NewMedia;
    var sdp, allowed, ls := Join(NoisyLines(), LF), {"pcmu", "cn"}, NoisyLines();
    NoisyLine();
    NoisyText();
    VersionLine();
    NoisySection(ls[1]);
    assert ls[1..] == [ls[1]];
    AfterVersion(ls[0], ls[1..], allowed);
    NoisyParse(sdp, allowed);
    FilterThenParseByName(sdp, allowed);
  }

  lemma AfterVersion(l: string, ls: seq<string>, allowed: set<string>)
    requires Fields(l).Some? && Fields(l).value.0 == "v" && !IsMLine(l) && SameMapping(l)
    requires Readable(ls) && LeavesFormats(ls, allowed) && Consistent(ls) && !NamelessAreRefused(ls, allowed)
    ensures var all := [l] + ls;
            Readable(all) && LeavesFormats(all, allowed) && Consistent(all) && !NamelessAreRefused(all, allowed)
  {
    hide MatchMLine, Fields, SameMapping, NewMedia;
    assert ([l] + ls)[1..] == ls;
  }

  lemma NoisyParse(sdp: string, allowed: set<string>)
    requires OneBreak(sdp) && Lines(sdp) == NoisyLines()
    requires Readable(Lines(sdp)) && LeavesFormats(Lines(sdp), allowed) && Consistent(Lines(sdp))
    ensures Parsed(sdp).Some?
  {
    hide MatchMLine, Render, Fields, Lines, Steps, Consistent, NewMedia;
    var ls := NoisyLines();
    ParsedByLines(sdp);
    assert ls[0] in ls && HasVersionLine(ls);
    assert CloseMedia(Start) == [] by { StartIsEmpty(); }
    assert Names'(Start, [], [], None, Body(ls), allowed);
    NamesSimulation(ls, Start, [], [], None, allowed);
    NoisyLine();
    assert ls[1..] == [ls[1]];
    LeavesTail(ls, allowed);
    AudioLineOpens(ls[1..], allowed);
    assert MediaKeeps(ls[1..], allowed) != [];
  }
}
