/** What the allow-list, as it is given, makes the filter keep. */
module SdpAllowed {
  import opened Text
  import opened SdpLines
  import opened SdpRewriter
  import opened SdpLaws
  import opened SdpSections

  // ----------------------------------------------------------- letter case

  /** `d` is the small letter of the capital `c`. */
  predicate SmallOf(c: char, d: char) {
    'A' <= c <= 'Z' && 'a' <= d <= 'z' && d as int - 'a' as int == c as int - 'A' as int
  }

  predicate SameLetter(c: char, d: char) {
    c == d || SmallOf(c, d) || SmallOf(d, c)
  }

  /** The texts differ in the case of letters at most. */
  predicate SameButCase(s: string, t: string) {
    |s| == |t| && forall i :: 0 <= i < |s| ==> SameLetter(s[i], t[i])
  }

  /** `lower()` leaves no capital, and identifies exactly the texts that differ
      in the case of letters at most. */
  lemma LowerIff(s: string, t: string)
    ensures forall c :: c in Lower(s) ==> !('A' <= c <= 'Z')
    ensures SameButCase(s, Lower(s))
    ensures Lower(s) == Lower(t) <==> SameButCase(s, t)
  {
    if Lower(s) == Lower(t) {
      forall i | 0 <= i < |s| ensures SameLetter(s[i], t[i]) {
        assert Lower(s)[i] == Lower(t)[i];
      }
    }
    if SameButCase(s, t) {
      assert forall i :: 0 <= i < |s| ==> Lower(s)[i] == Lower(t)[i];
    }
  }

  // ------------------------------------------------------ the list as given

  predicate NamesSomething(list: seq<string>) {
    exists a :: a in list && a != ""
  }

  /** An element of the list is the name, in any case of letters; or DTMF is to
      be kept, the name is that of DTMF events, and the list names something. */
  predicate Allows(list: seq<string>, preserveDtmf: bool, name: string) {
    || (exists a :: a in list && a != "" && SameButCase(a, name))
    || (preserveDtmf && SameButCase("telephone-event", name) && NamesSomething(list))
  }

  lemma AllowedIff(list: seq<string>, preserveDtmf: bool, name: string)
    ensures Lower(name) in AllowedSet(list, preserveDtmf) <==> Allows(list, preserveDtmf, name)
  {
    hide Lower, SameButCase;
    LowerIff("telephone-event", name);
    assert Lower("telephone-event") == "telephone-event" by { LowerDtmf(); }
    forall a ensures Lower(a) == Lower(name) <==> SameButCase(a, name) {
      LowerIff(a, name);
    }
    NamesIff(list);
    if exists a :: a in list && a != "" && SameButCase(a, name) {
      var a :| a in list && a != "" && SameButCase(a, name);
      assert Lower(a) in AllowedSet(list, preserveDtmf);
    }
  }

  lemma LowerDtmf()
    ensures Lower("telephone-event") == "telephone-event"
  {
  }

  lemma NamesIff(list: seq<string>)
    ensures AllowedSet(list, false) != {} <==> NamesSomething(list)
  {
    hide Lower;
    if NamesSomething(list) {
      var a :| a in list && a != "";
      assert Lower(a) in AllowedSet(list, false);
    }
  }

  /** An rtpmap line of the section gives the type a name that is allowed. */
  predicate MappedAs(line: string, pt: string, list: seq<string>, preserveDtmf: bool) {
    match MatchRtpmap(line)
    case Some(r) => r.pt == pt && Allows(list, preserveDtmf, r.name)
    case None => false
  }

  /** Some rtpmap line of the section does. */
  predicate SomeMapped(body: seq<string>, pt: string, list: seq<string>, preserveDtmf: bool) {
    exists l :: l in body && MappedAs(l, pt, list, preserveDtmf)
  }

  lemma NoneMapped(pt: string, list: seq<string>, preserveDtmf: bool)
    ensures !SomeMapped([], pt, list, preserveDtmf)
  {
  }

  lemma SomeMappedCons(body: seq<string>, pt: string, list: seq<string>, preserveDtmf: bool)
    requires body != []
    ensures SomeMapped(body, pt, list, preserveDtmf) <==>
            MappedAs(body[0], pt, list, preserveDtmf) || SomeMapped(body[1..], pt, list, preserveDtmf)
  {
    hide MappedAs;
    assert forall l :: l in body <==> l == body[0] || l in body[1..];
  }

  lemma {:induction false} ListedByList(body: seq<string>, list: seq<string>, preserveDtmf: bool, pt: string)
    ensures pt in Listed(body, AllowedSet(list, preserveDtmf)) <==> SomeMapped(body, pt, list, preserveDtmf)
  {
    hide MatchRtpmap, AllowedSet, Allows, Lower, SomeMapped;
    if body == [] {
      assert !SomeMapped(body, pt, list, preserveDtmf) by { NoneMapped(pt, list, preserveDtmf); }
    } else {
      ListedByList(body[1..], list, preserveDtmf, pt);
      SomeMappedCons(body, pt, list, preserveDtmf);
      match MatchRtpmap(body[0]) {
        case Some(r) => AllowedIff(list, preserveDtmf, r.name);
        case None => assert !MappedAs(body[0], pt, list, preserveDtmf);
      }
    }
  }

  /** A section keeps a payload type if and only if an rtpmap line names it, or
      it stands on the m-line and the static table names it, by a name that the
      list allows. */
  lemma KeepOfList(body: seq<string>, fmts: seq<string>, list: seq<string>, preserveDtmf: bool, pt: string)
    ensures pt in Keep(body, fmts, AllowedSet(list, preserveDtmf)) <==>
            || SomeMapped(body, pt, list, preserveDtmf)
            || (pt in fmts && StaticName(pt).Some? && Allows(list, preserveDtmf, StaticName(pt).value))
  {
    ListedByList(body, list, preserveDtmf, pt);
    if StaticName(pt).Some? {
      AllowedIff(list, preserveDtmf, StaticName(pt).value);
      StaticIsLower(pt);
    }
    hide Listed, AllowedSet, Allows, StaticName, Lower, SomeMapped;
  }

  lemma StaticIsLower(pt: string)
    requires StaticName(pt).Some?
    ensures Lower(StaticName(pt).value) == StaticName(pt).value
  {
  }

  // -------------------------------------------------- what does not matter

  /** Each name of one list is in the other, up to the case of letters. */
  predicate SameNames(xs: seq<string>, ys: seq<string>) {
    && (forall a :: a in xs && a != "" ==> exists b :: b in ys && SameButCase(a, b))
    && (forall b :: b in ys && b != "" ==> exists a :: a in xs && SameButCase(b, a))
  }

  lemma NamesWithin(xs: seq<string>, ys: seq<string>)
    requires forall a :: a in xs && a != "" ==> exists b :: b in ys && SameButCase(a, b)
    ensures AllowedSet(xs, false) <= AllowedSet(ys, false)
  {
    hide Lower;
    forall n | n in AllowedSet(xs, false) ensures n in AllowedSet(ys, false) {
      var a :| a in xs && a != "" && Lower(a) == n;
      var b :| b in ys && SameButCase(a, b);
      LowerIff(a, b);
      assert b != "";
    }
  }

  /** The case of letters, the order, repetitions and empty names do not matter. */
  lemma SameNamesFilterAlike(sdp: string, xs: seq<string>, ys: seq<string>, preserveDtmf: bool)
    requires SameNames(xs, ys)
    ensures Filtered(sdp, AllowedSet(xs, preserveDtmf)) == Filtered(sdp, AllowedSet(ys, preserveDtmf))
  {
    hide Filtered, SameButCase, Lower;
    NamesWithin(xs, ys);
    NamesWithin(ys, xs);
    assert AllowedSet(xs, false) == AllowedSet(ys, false);
    DtmfAdded(xs, preserveDtmf);
    DtmfAdded(ys, preserveDtmf);
  }

  lemma DtmfAdded(list: seq<string>, preserveDtmf: bool)
    ensures AllowedSet(list, preserveDtmf) ==
            AllowedSet(list, false) + if preserveDtmf && AllowedSet(list, false) != {} then {"telephone-event"} else {}
  {
    hide Lower;
  }

  /** A list that names nothing leaves every text alone. */
  lemma NothingNamed(sdp: string, list: seq<string>, preserveDtmf: bool)
    requires !NamesSomething(list)
    ensures Filtered(sdp, AllowedSet(list, preserveDtmf)) == sdp
  {
    NamesIff(list);
    DtmfAdded(list, preserveDtmf);
    hide AllowedSet;
    assert AllowedSet(list, preserveDtmf) == {};
  }

  /** `PCMA` in capitals keeps the type that the table names `pcma`. */
  lemma CapitalsAllow()
    ensures var m := MLine("audio", "1", "RTP/AVP", ["0", "8"]);
            Filtered(Render(m, ["0", "8"]), AllowedSet(["PCMA"], true)) == Render(m, ["8"])
  {
    var m, allowed := MLine("audio", "1", "RTP/AVP", ["0", "8"]), AllowedSet(["PCMA"], true);
    OnlyPcma();
    hide Filtered, Render, AllowedSet, OrderFormats, Statics, Find, MatchMLine;
    AudioTokens(m);
    OneSection(m, ["0", "8"], allowed);
    EightIsLeft();
  }

  lemma AudioTokens(m: MLine)
    requires m == MLine("audio", "1", "RTP/AVP", ["0", "8"])
    ensures WellFormed(m) && forall f :: f in m.fmts ==> IsToken(f)
  {
    assert IsToken("0") && IsToken("8");
  }

  lemma EightIsLeft()
    ensures OrderFormats(["0", "8"], {"8"}) == ["8"]
  {
    var fmts := ["0", "8"];
    assert fmts[1..] == ["8"] && ["8"][1..] == [] && "0"[0] == '0' && "8"[0] == '8';
  }

  lemma PcmaLower()
    ensures AllowedSet(["PCMA"], true) == {"pcma", "telephone-event"}
  {
    var list := ["PCMA"];
    assert Lower("PCMA") == "pcma";
    hide Lower;
    assert list[0] == "PCMA" && "PCMA" in list && forall a :: a in list ==> a == "PCMA";
    assert "pcma" in AllowedSet(list, true);
  }

  lemma OnlyPcma()
    ensures AllowedSet(["PCMA"], true) != {} && Statics(["0", "8"], AllowedSet(["PCMA"], true)) == {"8"}
  {
    PcmaLower();
    hide AllowedSet;
    var fmts := ["0", "8"];
    assert fmts[0] == "0" && fmts[1] == "8" && "8" in fmts && "0"[0] == '0' && "8"[0] == '8' && "3"[0] == '3';
    assert "pcmu"[3] == 'u' && "pcma"[3] == 'a' && "telephone-event"[0] == 't' && "pcmu"[0] == 'p';
    assert StaticName("0") == Some("pcmu") && StaticName("8") == Some("pcma");
  }
}
