/** What the audio sections of the filter's output contain. */
module SdpSections {
  import opened Text
  import opened SdpLines
  import opened SdpRewriter
  import opened SdpLaws
  import opened SdpComposition

  datatype Section = Section(fmts: seq<string>, body: seq<string>)

  function AudioSections(ls: seq<string>): seq<Section> {
    if ls == [] then []
    else (if IsAudio(ls[0]) then [Section(MatchMLine(ls[0]).value.fmts, Body(ls[1..]))] else [])
         + AudioSections(ls[1..])
  }

  /** `out` is what is left of `xs`, in order, when exactly the elements with
      `p` are picked. */
  ghost predicate Picks<T>(out: seq<T>, xs: seq<T>, p: T -> bool) {
    if xs == [] then out == []
    else if p(xs[0]) then out != [] && out[0] == xs[0] && Picks(out[1..], xs[1..], p)
    else Picks(out, xs[1..], p)
  }

  predicate NamesMissing(line: string, fmts: seq<string>) {
    || (MatchRtpmap(line).Some? && MatchRtpmap(line).value.pt !in fmts)
    || (MatchFmtp(line).Some? && MatchFmtp(line).value !in fmts)
  }

  /** The payload types of the rtpmap lines stand on the m-line. */
  predicate TypesListed(s: Section) {
    forall l :: l in s.body && MatchRtpmap(l).Some? ==> MatchRtpmap(l).value.pt in s.fmts
  }

  /** `t` is `s` with the formats that have an allowed name, and without the
      rtpmap and fmtp lines of the other formats. */
  ghost predicate FilteredSection(s: Section, t: Section, allowed: set<string>) {
    && t.fmts != []
    && Picks(t.fmts, s.fmts, f => Names(s.body, s.fmts, f) * allowed != {})
    && Picks(t.body, s.body, l => !NamesMissing(l, t.fmts))
  }

  lemma {:induction false} OrderPicks(fmts: seq<string>, keep: set<string>, p: string -> bool)
    requires forall f :: f in fmts ==> (f in keep <==> p(f))
    ensures Picks(OrderFormats(fmts, keep), fmts, p)
  {
    if fmts != [] {
      OrderPicks(fmts[1..], keep, p);
      assert fmts[0] in keep ==> OrderFormats(fmts, keep)[1..] == OrderFormats(fmts[1..], keep);
      assert fmts[0] !in keep ==> OrderFormats(fmts, keep) == OrderFormats(fmts[1..], keep);
    }
  }

  lemma {:induction false} BodyPicks(ls: seq<string>, keep: set<string>, a: set<string>, p: string -> bool)
    requires LeavesFormats(ls, a)
    requires forall l :: l in Body(ls) ==> (p(l) <==> !Dangling(l, keep))
    ensures Picks(Body(Rewrite(ls, Some(keep), a)), Body(ls), p)
  {
    hide MatchMLine, Dangling, KeepAt, RewriteMLine;
    if ls != [] {
      var out, rest := Rewrite(ls, Some(keep), a), Rewrite(ls[1..], Some(keep), a);
      if IsAudio(ls[0]) {
        RewrittenIsAudio(ls[0], KeepAt(ls, a));
      } else if !IsMLine(ls[0]) {
        assert Body(ls) == [ls[0]] + Body(ls[1..]);
        assert Body(ls)[1..] == Body(ls[1..]);
        BodyPicks(ls[1..], keep, a, p);
        assert ls[0] in Body(ls);
        if p(ls[0]) {
          assert out == [ls[0]] + rest && out[1..] == rest;
          assert Body(out) == [ls[0]] + Body(rest);
          assert Body(out)[1..] == Body(rest);
        }
      }
    }
  }

  lemma {:induction false} ListedOnMLine(body: seq<string>, fmts: seq<string>, allowed: set<string>)
    requires TypesListed(Section(fmts, body))
    ensures forall pt :: pt in Listed(body, allowed) ==> pt in fmts
  {
    hide MatchRtpmap;
    if body != [] {
      assert forall l :: l in body[1..] ==> l in body;
      ListedOnMLine(body[1..], fmts, allowed);
      assert body[0] in body;
    }
  }

  /** With the types on the m-line, a section that keeps anything keeps a format. */
  lemma {:induction false} KeptIsFormat(ls: seq<string>, a: set<string>)
    requires forall s :: s in AudioSections(ls) ==> TypesListed(s)
    requires !BailsOut(ls, a)
    ensures LeavesFormats(ls, a)
  {
    hide MatchMLine, MatchRtpmap, Listed, StaticAllowed, TypesListed;
    if ls != [] {
      var rest := AudioSections(ls[1..]);
      assert forall s :: s in rest ==> s in AudioSections(ls);
      KeptIsFormat(ls[1..], a);
      if IsAudio(ls[0]) {
        var s := Section(MatchMLine(ls[0]).value.fmts, Body(ls[1..]));
        assert s == AudioSections(ls)[0];
        ListedOnMLine(s.body, s.fmts, a);
        var pt :| pt in KeepAt(ls, a);
        assert pt in OrderFormats(s.fmts, KeepAt(ls, a));
      }
    }
  }

  lemma SectionComesOut(ls: seq<string>, a: set<string>)
    requires ls != [] && IsAudio(ls[0]) && LeavesFormats(ls, a)
    requires TypesListed(Section(MatchMLine(ls[0]).value.fmts, Body(ls[1..])))
    ensures var line := RewriteMLine(ls[0], KeepAt(ls, a));
            IsAudio(line)
            && FilteredSection(Section(MatchMLine(ls[0]).value.fmts, Body(ls[1..])),
                               Section(MatchMLine(line).value.fmts, Body(Rewrite(ls[1..], Some(KeepAt(ls, a)), a))), a)
  {
    var m, keep := MatchMLine(ls[0]).value, KeepAt(ls, a);
    hide MatchMLine, Rewrite, RewriteMLine, Body, Listed, Names, LeavesFormats, Picks, KeepAt, OrderFormats;
    LeavesTail(ls, a);
    LeavesHead(ls, a);
    RewrittenIsAudio(ls[0], keep);
    FormatsComeOut(ls, a);
    BodyComesOut(ls, a);
  }

  lemma FormatsComeOut(ls: seq<string>, a: set<string>)
    requires ls != [] && IsAudio(ls[0])
    ensures var fmts, body := MatchMLine(ls[0]).value.fmts, Body(ls[1..]);
            Picks(OrderFormats(fmts, KeepAt(ls, a)), fmts, f => Names(body, fmts, f) * a != {})
  {
    hide MatchMLine, Body, Keep, Names, Picks, OrderFormats;
    var fmts, body := MatchMLine(ls[0]).value.fmts, Body(ls[1..]);
    forall f ensures f in KeepAt(ls, a) <==> Names(body, fmts, f) * a != {} {
      KeepIsNamed(body, fmts, a, f);
    }
    OrderPicks(fmts, KeepAt(ls, a), f => Names(body, fmts, f) * a != {});
  }

  lemma BodyComesOut(ls: seq<string>, a: set<string>)
    requires ls != [] && IsAudio(ls[0]) && LeavesFormats(ls[1..], a)
    requires TypesListed(Section(MatchMLine(ls[0]).value.fmts, Body(ls[1..])))
    ensures var fmts := OrderFormats(MatchMLine(ls[0]).value.fmts, KeepAt(ls, a));
            Picks(Body(Rewrite(ls[1..], Some(KeepAt(ls, a)), a)), Body(ls[1..]), l => !NamesMissing(l, fmts))
  {
    hide MatchMLine, MatchRtpmap, MatchFmtp, Body, Listed, LeavesFormats, Picks, Rewrite, StaticAllowed;
    var keep, all := KeepAt(ls, a), MatchMLine(ls[0]).value.fmts;
    var fmts := OrderFormats(all, keep);
    ListedOnMLine(Body(ls[1..]), all, a);
    assert forall f :: f in fmts <==> f in keep;
    BodyPicks(ls[1..], keep, a, l => !NamesMissing(l, fmts));
  }

  lemma {:induction false} SectionsComeOut(ls: seq<string>, cur: Option<set<string>>, a: set<string>)
    requires LeavesFormats(ls, a)
    requires forall s :: s in AudioSections(ls) ==> TypesListed(s)
    ensures |AudioSections(Rewrite(ls, cur, a))| == |AudioSections(ls)|
    ensures forall k :: 0 <= k < |AudioSections(ls)| ==>
      FilteredSection(AudioSections(ls)[k], AudioSections(Rewrite(ls, cur, a))[k], a)
  {
    hide MatchMLine, MatchRtpmap, MatchFmtp, KeepAt, RewriteMLine, TypesListed, FilteredSection;
    if ls != [] {
      var rest := AudioSections(ls[1..]);
      assert forall s :: s in rest ==> s in AudioSections(ls);
      var out := Rewrite(ls, cur, a);
      if IsAudio(ls[0]) {
        assert AudioSections(ls)[0] in AudioSections(ls);
        SectionComesOut(ls, a);
        SectionsComeOut(ls[1..], Some(KeepAt(ls, a)), a);
        assert out[1..] == Rewrite(ls[1..], Some(KeepAt(ls, a)), a);
      } else {
        var next := if IsMLine(ls[0]) then None else cur;
        SectionsComeOut(ls[1..], next, a);
        assert AudioSections(out) == AudioSections(Rewrite(ls[1..], next, a)) by {
          OtherLine(ls, cur, a);
        }
        assert AudioSections(ls) == rest;
      }
    }
  }

  lemma OtherLine(ls: seq<string>, cur: Option<set<string>>, a: set<string>)
    requires ls != [] && !IsAudio(ls[0])
    ensures AudioSections(Rewrite(ls, cur, a)) ==
            AudioSections(Rewrite(ls[1..], if IsMLine(ls[0]) then None else cur, a))
  {
    hide MatchMLine, MatchRtpmap, MatchFmtp, KeepAt, RewriteMLine;
    var out, rest := Rewrite(ls, cur, a), Rewrite(ls[1..], if IsMLine(ls[0]) then None else cur, a);
    assert out == rest || (out == [ls[0]] + rest && out[1..] == rest);
  }

  /** The text without what the filter may change: lines outside audio sections
      verbatim, and a mark with the other fields of the m-line for each audio
      section. */
  datatype Item = Plain(line: string) | Mark(media: string, port: string, proto: string)

  function Skeleton(ls: seq<string>, inAudio: bool): seq<Item> {
    if ls == [] then []
    else if IsAudio(ls[0]) then
      var m := MatchMLine(ls[0]).value;
      [Mark(m.media, m.port, m.proto)] + Skeleton(ls[1..], true)
    else if IsMLine(ls[0]) then [Plain(ls[0])] + Skeleton(ls[1..], false)
    else if inAudio then Skeleton(ls[1..], true)
    else [Plain(ls[0])] + Skeleton(ls[1..], false)
  }

  lemma SkeletonCons(line: string, ls: seq<string>, inAudio: bool)
    ensures Skeleton([line] + ls, inAudio) ==
            if IsAudio(line) then
              [Mark(MatchMLine(line).value.media, MatchMLine(line).value.port, MatchMLine(line).value.proto)]
              + Skeleton(ls, true)
            else if IsMLine(line) then [Plain(line)] + Skeleton(ls, false)
            else if inAudio then Skeleton(ls, true)
            else [Plain(line)] + Skeleton(ls, false)
  {
    hide MatchMLine;
    assert ([line] + ls)[1..] == ls;
  }

  /** The rewrite keeps the skeleton, line by line and in order. */
  lemma {:induction false} SkeletonStays(ls: seq<string>, cur: Option<set<string>>, a: set<string>)
    requires LeavesFormats(ls, a)
    ensures Skeleton(Rewrite(ls, cur, a), cur.Some?) == Skeleton(ls, cur.Some?)
  {
    hide MatchMLine, Dangling, KeepAt, RewriteMLine, OrderFormats;
    if ls != [] {
      LeavesTail(ls, a);
      if IsAudio(ls[0]) {
        var keep := KeepAt(ls, a);
        LeavesHead(ls, a);
        RewrittenIsAudio(ls[0], keep);
        SkeletonStays(ls[1..], Some(keep), a);
        SkeletonCons(RewriteMLine(ls[0], keep), Rewrite(ls[1..], Some(keep), a), cur.Some?);
      } else {
        var next := if IsMLine(ls[0]) then None else cur;
        SkeletonStays(ls[1..], next, a);
        SkeletonCons(ls[0], Rewrite(ls[1..], next, a), cur.Some?);
      }
    }
  }

  /** On every run that does not bail out, with the rtpmap types listed on
      their m-lines, the audio sections of the output text are those of the
      input in order, each restricted to exactly its allowed formats, and all
      else is the same. */
  lemma OutputSections(sdp: string, allowed: set<string>)
    requires allowed != {} && sdp != ""
    requires forall s :: s in AudioSections(Lines(sdp)) ==> TypesListed(s)
    requires !BailsOut(Lines(sdp), allowed)
    ensures var before, after := AudioSections(Lines(sdp)), AudioSections(Lines(Filtered(sdp, allowed)));
            |after| == |before|
            && forall k :: 0 <= k < |before| ==> FilteredSection(before[k], after[k], allowed)
    ensures Skeleton(Lines(Filtered(sdp, allowed)), false) == Skeleton(Lines(sdp), false)
  {
    hide Rewrite, BailsOut, Lines, LineSep, AudioSections, TypesListed, FilteredSection, Skeleton, LeavesFormats;
    LinesOfOutput(sdp, allowed);
    KeptIsFormat(Lines(sdp), allowed);
    SectionsComeOut(Lines(sdp), None, allowed);
    SkeletonStays(Lines(sdp), None, allowed);
  }

  // -------------------------------------------------- why formats must stay

  /** Without a format left for the common names the law fails: the first of
      the two filters takes effect, the common names bail out. */
  lemma FilterTwiceNeedsFormats()
    ensures var sdp := Render(MLine("audio", "1", "RTP/AVP", ["0", "8"]), ["0", "8"]);
            && !LeavesFormats(Lines(sdp), {"pcmu"} * {"pcma"})
            && OneName(Lines(sdp))
            && Filtered(Filtered(sdp, {"pcmu"}), {"pcma"}) != Filtered(sdp, {"pcmu"} * {"pcma"})
  {
    var m := MLine("audio", "1", "RTP/AVP", ["0", "8"]);
    assert IsToken("0") && IsToken("8");
    hide Filtered, Render, LeavesFormats, OneName, Lines;
    NothingLeft(m);
    PcmuThenPcma(m);
    assert {"pcmu"} * {"pcma"} == {} by { assert "pcmu"[3] == 'u' && "pcma"[3] == 'a'; }
    assert Filtered(Render(m, m.fmts), {}) == Render(m, m.fmts) by { FilteredByNothing(Render(m, m.fmts)); }
  }

  lemma FilteredByNothing(sdp: string)
    ensures Filtered(sdp, {}) == sdp
  {
  }

  lemma PcmuThenPcma(m: MLine)
    requires WellFormed(m) && m.media == "audio" && m.fmts == ["0", "8"]
    ensures Filtered(Filtered(Render(m, m.fmts), {"pcmu"}), {"pcma"}) != Render(m, m.fmts)
  {
    hide Filtered, Render;
    OneSection(m, m.fmts, {"pcmu"});
    OneSection(m, ["0"], {"pcma"});
    assert "pcmu"[3] == 'u' && "pcma"[3] == 'a';
    assert Statics(m.fmts, {"pcmu"}) == {"0"} && Statics(["0"], {"pcma"}) == {};
    assert OrderFormats(m.fmts, {"0"}) == ["0"] by {
      assert m.fmts[1..] == ["8"] && ["8"][1..] == [];
    }
    MatchOfRender(m, m.fmts);
    MatchOfRender(m, ["0"]);
  }

  lemma OneLine(m: MLine, fmts: seq<string>)
    requires WellFormed(m) && fmts != [] && forall f :: f in fmts ==> IsToken(f)
    ensures Lines(Render(m, fmts)) == [Render(m, fmts)]
  {
    hide Render;
    RenderHasNoBreak(m, fmts);
    NoLfNoBreak(Render(m, fmts));
  }

  lemma OneSection(m: MLine, fmts: seq<string>, allowed: set<string>)
    requires WellFormed(m) && m.media == "audio" && fmts != [] && forall f :: f in fmts ==> IsToken(f)
    requires allowed != {}
    ensures Filtered(Render(m, fmts), allowed) ==
            if Statics(fmts, allowed) == {} then Render(m, fmts)
            else Render(m, OrderFormats(fmts, Statics(fmts, allowed)))
  {
    var line := Render(m, fmts);
    hide MatchMLine, Find, StaticAllowed;
    OneLine(m, fmts);
    MatchOfRender(m, fmts);
    assert [line][1..] == [] && Body([]) == [] && Listed([], allowed) == {};
    assert KeepAt([line], allowed) == Statics(fmts, allowed);
    assert !BailsOut([], allowed);
    assert Rewrite([], Some(Statics(fmts, allowed)), allowed) == [];
  }

  lemma NothingLeft(m: MLine)
    requires WellFormed(m) && m.media == "audio" && m.fmts == ["0", "8"]
    ensures !LeavesFormats(Lines(Render(m, m.fmts)), {}) && OneName(Lines(Render(m, m.fmts)))
  {
    var line := Render(m, m.fmts);
    hide MatchMLine, Render, Find;
    OneLine(m, m.fmts);
    MatchOfRender(m, m.fmts);
    KeepsNothing([line]);
    NothingOrdered(m.fmts);
    assert [line][1..] == [] && Body([]) == [] && OneName([]);
    forall pt ensures MappedNames([], pt) == {} {}
  }

  // -------------------------------------------- why the names must agree

  const RENAMED := MLine("audio", "1", "RTP/AVP", ["0", "9"])

  /** An audio section whose type 0 has a second name by an rtpmap line. */
  function RenamedLines(): seq<string> {
    [Render(RENAMED, RENAMED.fmts), "a=rtpmap:0 foo/8000"]
  }

  lemma RenamedLine()
    ensures var line := Render(RENAMED, RENAMED.fmts);
            MatchMLine(line) == Some(RENAMED) && '\n' !in line && '\r' !in line
  {
    assert WellFormed(RENAMED) && forall f :: f in RENAMED.fmts ==> IsToken(f);
    hide MatchMLine, Render;
    MatchOfRender(RENAMED, RENAMED.fmts);
    RenderHasNoBreak(RENAMED, RENAMED.fmts);
  }

  lemma RenamedText()
    ensures Lines(Join(RenamedLines(), LF)) == RenamedLines()
  {
    hide MatchMLine, Render, Find, Split, Join;
    RenamedLine();
    var ls := RenamedLines();
    forall l | l in ls ensures !Contains(l, LF) && !Contains(l, CRLF) {
      NoLfNoBreak(l);
    }
    JoinedWithoutCrlf(ls);
    SplitOfJoin(ls, LF);
  }

  lemma FooName()
    ensures "foo/8000"[..3] == "foo" && "foo/8000"[3..] == "/8000" && Span("foo/8000", IsNameChar) == 3
    ensures Lower("foo") == "foo"
  {
    assert "foo" + "/8000" == "foo/8000";
    SpanOfAppend("foo", "/8000", IsNameChar);
  }

  lemma FooField()
    ensures Field("0 foo/8000", IsDigit) == Some(("0", "foo/8000"))
  {
    hide Field;
    assert "0 foo/8000" == "0" + " " + "foo/8000";
    FieldOfAppend("0", IsDigit, "foo/8000");
  }

  lemma FooLine()
    ensures !IsMLine("a=rtpmap:0 foo/8000") && MatchRtpmap("a=rtpmap:0 foo/8000") == Some(Rtpmap("0", "foo"))
  {
    hide Field, Span, Lower;
    var line := "a=rtpmap:" + "0 foo/8000";
    assert line == "a=rtpmap:0 foo/8000" && line[9..] == "0 foo/8000" && line[0] == 'a';
    FooField();
    FooName();
    assert "/8000"[0] == '/' && Chomp("/8000") == "/8000";
  }

  lemma FooMapped(body: seq<string>)
    requires body == ["a=rtpmap:0 foo/8000"]
    ensures MappedNames(body, "0") == {"foo"} && MappedNames(body, "9") == {}
  {
    FooLine();
    FooName();
    hide MatchRtpmap, Lower;
    assert body[1..] == [] && "0"[0] != "9"[0];
    assert MappedNames([], "0") == {} && MappedNames([], "9") == {};
  }

  lemma RenamedNames(body: seq<string>)
    requires body == ["a=rtpmap:0 foo/8000"]
    ensures Names(body, RENAMED.fmts, "0") == {"foo", "pcmu"}
    ensures Names(body, RENAMED.fmts, "9") == {"g722"}
  {
    hide MappedNames;
    FooMapped(body);
    assert RENAMED.fmts[0] == "0" && RENAMED.fmts[1] == "9";
    assert StaticName("0") == Some("pcmu");
    assert StaticName("9") == Some("g722") by {
      assert "9"[0] == '9' && "0"[0] == '0' && "3"[0] == '3' && "8"[0] == '8';
    }
  }

  /** When a type is allowed by A under one name and by B under another only,
      both filters keep it and the one by the common names drops it. */
  lemma FilterTwiceNeedsAgreement()
    ensures var sdp, a, b := Join(RenamedLines(), LF), {"pcmu", "g722"}, {"foo", "g722"};
            && LeavesFormats(Lines(sdp), a * b) && !Agrees(Lines(sdp), a, b)
            && Filtered(Filtered(sdp, a), b) != Filtered(sdp, a * b)
  {
    hide Filtered, Render, MatchMLine, MatchRtpmap, Join, Lines;
    var sdp, a, b := Join(RenamedLines(), LF), {"pcmu", "g722"}, {"foo", "g722"};
    CommonIsG722();
    RenamedText();
    RenamedSection(RenamedLines());
    FilterTwice(sdp, a, b);
  }

  lemma CommonIsG722()
    ensures {"pcmu", "g722"} * {"foo", "g722"} == {"g722"}
  {
    assert "pcmu"[0] == 'p' && "foo"[0] == 'f';
  }

  lemma BodyOfOne(l: string, names: set<string>)
    requires !IsMLine(l)
    ensures Body([l]) == [l] && LeavesFormats([l], names)
  {
    hide MatchMLine;
    assert [l][1..] == [] && Body([]) == [] && LeavesFormats([], names);
  }

  lemma RenamedKeeps(body: seq<string>)
    requires body == ["a=rtpmap:0 foo/8000"]
    ensures OrderFormats(RENAMED.fmts, Keep(body, RENAMED.fmts, {"g722"})) != []
  {
    hide Names, Keep;
    RenamedNames(body);
    KeepIsNamed(body, RENAMED.fmts, {"g722"}, "9");
    assert "g722" in {"g722"} * {"g722"};
    assert RENAMED.fmts[1] == "9" && "9" in OrderFormats(RENAMED.fmts, Keep(body, RENAMED.fmts, {"g722"}));
  }

  lemma RenamedDisagrees(body: seq<string>)
    requires body == ["a=rtpmap:0 foo/8000"]
    ensures !SectionAgrees(body, RENAMED.fmts, {"pcmu", "g722"}, {"foo", "g722"})
  {
    hide Names;
    RenamedNames(body);
    CommonIsG722();
    assert "pcmu" in {"foo", "pcmu"} * {"pcmu", "g722"} && "foo" in {"foo", "pcmu"} * {"foo", "g722"};
    assert {"foo", "pcmu"} * {"g722"} == {} by {
      assert "g722"[0] == 'g' && "pcmu"[0] == 'p' && "foo"[0] == 'f';
    }
  }

  lemma RenamedSection(ls: seq<string>)
    requires ls == RenamedLines()
    ensures LeavesFormats(ls, {"g722"}) && !Agrees(ls, {"pcmu", "g722"}, {"foo", "g722"})
  {
    var body := ["a=rtpmap:0 foo/8000"];
    RenamedLine();
    FooLine();
    hide MatchMLine, MatchRtpmap, Render, Keep, SectionAgrees, OrderFormats;
    BodyOfOne(body[0], {"g722"});
    RenamedKeeps(body);
    RenamedDisagrees(body);
    assert ls[1..] == body;
  }
}
