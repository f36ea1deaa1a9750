/** Filtering by one set of names and then by another. */
module SdpComposition {
  import opened Text
  import opened SdpLines
  import opened SdpRewriter
  import opened SdpLaws

  /** Every audio section keeps a format. */
  predicate LeavesFormats(ls: seq<string>, allowed: set<string>) {
    ls == [] || (
      && (IsAudio(ls[0]) ==> OrderFormats(MatchMLine(ls[0]).value.fmts, KeepAt(ls, allowed)) != [])
      && LeavesFormats(ls[1..], allowed))
  }

  /** No payload type of the section is allowed by `a` under one name and by
      `b` under another only. */
  ghost predicate SectionAgrees(body: seq<string>, fmts: seq<string>, a: set<string>, b: set<string>) {
    forall pt :: Names(body, fmts, pt) * a != {} && Names(body, fmts, pt) * b != {}
      ==> Names(body, fmts, pt) * (a * b) != {}
  }

  ghost predicate Agrees(ls: seq<string>, a: set<string>, b: set<string>) {
    ls == [] || (
      && (IsAudio(ls[0]) ==> SectionAgrees(Body(ls[1..]), MatchMLine(ls[0]).value.fmts, a, b))
      && Agrees(ls[1..], a, b))
  }

  ghost predicate AtMostOne(names: set<string>) {
    forall m, n :: m in names && n in names ==> m == n
  }

  /** Each payload type of an audio section has at most one name. */
  ghost predicate OneName(ls: seq<string>) {
    ls == [] || (
      && (IsAudio(ls[0]) ==> forall pt :: AtMostOne(Names(Body(ls[1..]), MatchMLine(ls[0]).value.fmts, pt)))
      && OneName(ls[1..]))
  }

  function MeetAt(ls: seq<string>, a: set<string>, b: set<string>): set<string>
    requires ls != [] && IsAudio(ls[0])
  {
    KeepAt(ls, a) * KeepAt(ls, b)
  }

  /** One pass that keeps, in each section, what both name sets keep. */
  function RewriteMeet(ls: seq<string>, cur: Option<set<string>>, a: set<string>, b: set<string>): seq<string> {
    if ls == [] then []
    else if IsAudio(ls[0]) then
      [RewriteMLine(ls[0], MeetAt(ls, a, b))] + RewriteMeet(ls[1..], Some(MeetAt(ls, a, b)), a, b)
    else if IsMLine(ls[0]) then [ls[0]] + RewriteMeet(ls[1..], None, a, b)
    else if cur.Some? && Dangling(ls[0], cur.value) then RewriteMeet(ls[1..], cur, a, b)
    else [ls[0]] + RewriteMeet(ls[1..], cur, a, b)
  }

  // ------------------------------------------------- keep sets and names

  lemma SectionAgreesIffKeep(body: seq<string>, fmts: seq<string>, a: set<string>, b: set<string>)
    ensures Keep(body, fmts, a * b) <= Keep(body, fmts, a) * Keep(body, fmts, b)
    ensures SectionAgrees(body, fmts, a, b) <==> Keep(body, fmts, a * b) == Keep(body, fmts, a) * Keep(body, fmts, b)
  {
    hide Keep, Names;
    forall pt
      ensures pt in Keep(body, fmts, a) <==> Names(body, fmts, pt) * a != {}
      ensures pt in Keep(body, fmts, b) <==> Names(body, fmts, pt) * b != {}
      ensures pt in Keep(body, fmts, a * b) <==> Names(body, fmts, pt) * (a * b) != {}
      ensures Names(body, fmts, pt) * (a * b) != {} ==>
        Names(body, fmts, pt) * a != {} && Names(body, fmts, pt) * b != {}
    {
      KeepIsNamed(body, fmts, a, pt);
      KeepIsNamed(body, fmts, b, pt);
      KeepIsNamed(body, fmts, a * b, pt);
      CommonName(Names(body, fmts, pt), a, b);
    }
  }

  lemma CommonName(n: set<string>, a: set<string>, b: set<string>)
    ensures n * (a * b) != {} ==> n * a != {} && n * b != {}
  {
    if x :| x in n * (a * b) {
      assert x in n * a && x in n * b;
    }
  }

  lemma {:induction false} OneNameAgrees(ls: seq<string>, a: set<string>, b: set<string>)
    requires OneName(ls)
    ensures Agrees(ls, a, b)
  {
    hide Names, MatchMLine, Body;
    if ls != [] {
      OneNameAgrees(ls[1..], a, b);
      if IsAudio(ls[0]) {
        var body, fmts := Body(ls[1..]), MatchMLine(ls[0]).value.fmts;
        forall pt | Names(body, fmts, pt) * a != {} && Names(body, fmts, pt) * b != {}
          ensures Names(body, fmts, pt) * (a * b) != {}
        {
          var m :| m in Names(body, fmts, pt) * a;
          var n :| n in Names(body, fmts, pt) * b;
          assert m == n && m in Names(body, fmts, pt) * (a * b);
        }
      }
    }
  }

  // ------------------------------------------------------ two passes as one

  /** After a pass that leaves every section a format, a section's body is
      what was kept of it, and lists exactly the kept types. */
  lemma {:induction false} ListedAfter(ls: seq<string>, keep: set<string>, a: set<string>, names: set<string>)
    requires LeavesFormats(ls, a)
    ensures Listed(Body(Rewrite(ls, Some(keep), a)), names) == Listed(Body(ls), names) * keep
  {
    hide MatchMLine, MatchRtpmap, MatchFmtp, KeepAt, Lower, RewriteMLine;
    if ls != [] {
      var out, rest := Rewrite(ls, Some(keep), a), Rewrite(ls[1..], Some(keep), a);
      if IsAudio(ls[0]) {
        RewrittenIsAudio(ls[0], KeepAt(ls, a));
      } else if !IsMLine(ls[0]) {
        ListedAfter(ls[1..], keep, a, names);
        ListedCons(ls[0], Body(ls[1..]), names);
        FmtpIsNoRtpmap(ls[0]);
        if !Dangling(ls[0], keep) {
          assert out[1..] == rest;
          ListedCons(ls[0], Body(rest), names);
        }
      }
    }
  }

  lemma RewrittenIsAudio(line: string, keep: set<string>)
    requires IsAudio(line)
    requires OrderFormats(MatchMLine(line).value.fmts, keep) != []
    ensures IsAudio(RewriteMLine(line, keep))
    ensures MatchMLine(RewriteMLine(line, keep)).value ==
            MatchMLine(line).value.(fmts := OrderFormats(MatchMLine(line).value.fmts, keep))
  {
    var m := MatchMLine(line).value;
    hide MatchMLine, Render;
    MatchOfRender(m, OrderFormats(m.fmts, keep));
  }

  lemma {:induction false} LeavesMore(ls: seq<string>, a: set<string>, b: set<string>)
    requires LeavesFormats(ls, a * b)
    ensures LeavesFormats(ls, a) && LeavesFormats(ls, b)
    ensures !BailsOut(ls, a) && !BailsOut(ls, b) && !BailsOut(ls, a * b)
  {
    hide MatchMLine, Keep;
    if ls != [] {
      LeavesMore(ls[1..], a, b);
      if IsAudio(ls[0]) {
        var fmts := MatchMLine(ls[0]).value.fmts;
        SectionAgreesIffKeep(Body(ls[1..]), fmts, a, b);
        var f := OrderFormats(fmts, KeepAt(ls, a * b))[0];
        assert f in OrderFormats(fmts, KeepAt(ls, a * b));
        assert f in OrderFormats(fmts, KeepAt(ls, a)) && f in OrderFormats(fmts, KeepAt(ls, b));
      }
    }
  }

  /** The keep set of a section that was already filtered by `a`. */
  lemma KeepAfter(ls: seq<string>, a: set<string>, b: set<string>)
    requires ls != [] && IsAudio(ls[0]) && LeavesFormats(ls, a)
    ensures var out := [RewriteMLine(ls[0], KeepAt(ls, a))] + Rewrite(ls[1..], Some(KeepAt(ls, a)), a);
            IsAudio(out[0]) && KeepAt(out, b) == MeetAt(ls, a, b)
  {
    var ka, fmts := KeepAt(ls, a), MatchMLine(ls[0]).value.fmts;
    hide MatchMLine, Rewrite, RewriteMLine, Body, Listed, Statics, OrderFormats, LeavesFormats;
    assert LeavesFormats(ls[1..], a) by { LeavesTail(ls, a); }
    assert OrderFormats(fmts, ka) != [] by { LeavesHead(ls, a); }
    var out := [RewriteMLine(ls[0], ka)] + Rewrite(ls[1..], Some(ka), a);
    RewrittenIsAudio(ls[0], ka);
    ListedAfter(ls[1..], ka, a, b);
    assert out[1..] == Rewrite(ls[1..], Some(ka), a);
    StaticsAfter(fmts, ka, b);
  }

  lemma StaticsAfter(fmts: seq<string>, keep: set<string>, names: set<string>)
    ensures Statics(OrderFormats(fmts, keep), names) == Statics(fmts, names) * keep
  {
    hide StaticAllowed;
  }

  lemma LeavesTail(ls: seq<string>, a: set<string>)
    requires ls != [] && LeavesFormats(ls, a)
    ensures LeavesFormats(ls[1..], a)
  {
  }

  lemma LeavesHead(ls: seq<string>, a: set<string>)
    requires ls != [] && LeavesFormats(ls, a) && IsAudio(ls[0])
    ensures OrderFormats(MatchMLine(ls[0]).value.fmts, KeepAt(ls, a)) != []
  {
  }

  lemma RewriteMLineTwice(line: string, k1: set<string>, k2: set<string>)
    requires IsAudio(line) && OrderFormats(MatchMLine(line).value.fmts, k1) != []
    ensures IsMLine(RewriteMLine(line, k1))
    ensures RewriteMLine(RewriteMLine(line, k1), k2) == RewriteMLine(line, k1 * k2)
  {
    hide MatchMLine;
    RewrittenIsAudio(line, k1);
    OrderTwice(MatchMLine(line).value.fmts, k1, k2);
  }

  lemma {:induction false} TwoPasses(ls: seq<string>, ca: Option<set<string>>, cb: Option<set<string>>,
                                     a: set<string>, b: set<string>)
    requires LeavesFormats(ls, a)
    requires ca.Some? <==> cb.Some?
    ensures Rewrite(Rewrite(ls, ca, a), cb, b) ==
            RewriteMeet(ls, if ca.Some? then Some(ca.value * cb.value) else None, a, b)
  {
    hide MatchMLine, MatchRtpmap, MatchFmtp, KeepAt, MeetAt, RewriteMLine;
    if ls != [] {
      var out := Rewrite(ls, ca, a);
      if IsAudio(ls[0]) {
        var ka, meet := KeepAt(ls, a), MeetAt(ls, a, b);
        KeepAfter(ls, a, b);
        assert meet <= ka && ka * meet == meet by { MeetInside(ls, a, b); }
        RewriteMLineTwice(ls[0], ka, meet);
        TwoPasses(ls[1..], Some(ka), Some(meet), a, b);
        assert out[1..] == Rewrite(ls[1..], Some(ka), a);
      } else if IsMLine(ls[0]) {
        TwoPasses(ls[1..], None, None, a, b);
        assert out[1..] == Rewrite(ls[1..], None, a);
      } else {
        TwoPasses(ls[1..], ca, cb, a, b);
        assert !(ca.Some? && Dangling(ls[0], ca.value)) ==> out[1..] == Rewrite(ls[1..], ca, a);
      }
    }
  }

  lemma MeetInside(ls: seq<string>, a: set<string>, b: set<string>)
    requires ls != [] && IsAudio(ls[0])
    ensures MeetAt(ls, a, b) <= KeepAt(ls, a) && KeepAt(ls, a) * MeetAt(ls, a, b) == MeetAt(ls, a, b)
  {
    hide KeepAt;
  }

  lemma {:induction false} SecondDoesNotBail(ls: seq<string>, ca: Option<set<string>>, a: set<string>, b: set<string>)
    requires LeavesFormats(ls, a * b)
    ensures !BailsOut(Rewrite(ls, ca, a), b)
  {
    hide MatchMLine, MatchRtpmap, MatchFmtp, KeepAt, RewriteMLine;
    if ls != [] {
      var out := Rewrite(ls, ca, a);
      if IsAudio(ls[0]) {
        LeavesMore(ls, a, b);
        KeepAfter(ls, a, b);
        SecondDoesNotBail(ls[1..], Some(KeepAt(ls, a)), a, b);
        assert out[1..] == Rewrite(ls[1..], Some(KeepAt(ls, a)), a);
        assert MeetAt(ls, a, b) != {} by { MeetNotEmpty(ls, a, b); }
      } else {
        SecondDoesNotBail(ls[1..], None, a, b);
        SecondDoesNotBail(ls[1..], ca, a, b);
        if out != [] {
          assert out[1..] == Rewrite(ls[1..], None, a) || out[1..] == Rewrite(ls[1..], ca, a)
                 || out == Rewrite(ls[1..], ca, a);
        }
      }
    }
  }

  lemma MeetNotEmpty(ls: seq<string>, a: set<string>, b: set<string>)
    requires ls != [] && IsAudio(ls[0]) && LeavesFormats(ls, a * b)
    ensures MeetAt(ls, a, b) != {}
  {
    hide MatchMLine, Keep;
    SectionAgreesIffKeep(Body(ls[1..]), MatchMLine(ls[0]).value.fmts, a, b);
    var f := OrderFormats(MatchMLine(ls[0]).value.fmts, KeepAt(ls, a * b))[0];
    assert f in OrderFormats(MatchMLine(ls[0]).value.fmts, KeepAt(ls, a * b));
  }

  // ---------------------------------------------- meeting and intersecting

  lemma {:induction false} AgreeingMeet(ls: seq<string>, cur: Option<set<string>>, a: set<string>, b: set<string>)
    requires Agrees(ls, a, b)
    ensures RewriteMeet(ls, cur, a, b) == Rewrite(ls, cur, a * b)
  {
    hide MatchMLine, MatchRtpmap, MatchFmtp, Keep, RewriteMLine;
    if ls != [] {
      if IsAudio(ls[0]) {
        SectionAgreesIffKeep(Body(ls[1..]), MatchMLine(ls[0]).value.fmts, a, b);
        AgreeingMeet(ls[1..], Some(MeetAt(ls, a, b)), a, b);
      } else {
        AgreeingMeet(ls[1..], None, a, b);
        AgreeingMeet(ls[1..], cur, a, b);
      }
    }
  }

  ghost predicate Within(small: Option<set<string>>, large: Option<set<string>>) {
    (small.Some? <==> large.Some?) && (small.Some? ==> small.value <= large.value)
  }

  /** The intersection never keeps more lines. */
  lemma {:induction false} MeetIsLonger(ls: seq<string>, c: Option<set<string>>, d: Option<set<string>>,
                                        a: set<string>, b: set<string>)
    requires Within(c, d)
    ensures |Rewrite(ls, c, a * b)| <= |RewriteMeet(ls, d, a, b)|
  {
    hide MatchMLine, MatchRtpmap, MatchFmtp, Keep, RewriteMLine;
    if ls != [] {
      if IsAudio(ls[0]) {
        SectionAgreesIffKeep(Body(ls[1..]), MatchMLine(ls[0]).value.fmts, a, b);
        MeetIsLonger(ls[1..], Some(KeepAt(ls, a * b)), Some(MeetAt(ls, a, b)), a, b);
      } else {
        MeetIsLonger(ls[1..], None, None, a, b);
        MeetIsLonger(ls[1..], c, d, a, b);
      }
    }
  }

  /** Equal outputs leave no room for a section that disagrees: a type kept
      by the meet only would show on the m-line or as an rtpmap line. */
  lemma {:induction false} EqualMeetAgrees(ls: seq<string>, c: Option<set<string>>, d: Option<set<string>>,
                                           a: set<string>, b: set<string>)
    requires LeavesFormats(ls, a * b)
    requires Within(c, d)
    requires RewriteMeet(ls, d, a, b) == Rewrite(ls, c, a * b)
    ensures Agrees(ls, a, b)
    ensures d.Some? ==> forall names :: Listed(Body(ls), names) * d.value <= c.value
  {
    hide MatchMLine, MatchRtpmap, MatchFmtp, Keep, RewriteMLine, Listed, ListedBy, SectionAgrees;
    if ls != [] {
      var out := Rewrite(ls, c, a * b);
      if IsAudio(ls[0]) {
        var k, m := KeepAt(ls, a * b), MeetAt(ls, a, b);
        var fmts := MatchMLine(ls[0]).value.fmts;
        SectionAgreesIffKeep(Body(ls[1..]), fmts, a, b);
        assert out[1..] == Rewrite(ls[1..], Some(k), a * b);
        assert RewriteMeet(ls, d, a, b)[1..] == RewriteMeet(ls[1..], Some(m), a, b);
        EqualMeetAgrees(ls[1..], Some(k), Some(m), a, b);
        assert RewriteMLine(ls[0], k) == RewriteMLine(ls[0], m);
        EqualHeads(ls[0], k, m);
        EqualKeeps(ls, a, b);
        ListedNothing(ls);
      } else if IsMLine(ls[0]) {
        assert out[1..] == Rewrite(ls[1..], None, a * b);
        assert RewriteMeet(ls, d, a, b)[1..] == RewriteMeet(ls[1..], None, a, b);
        EqualMeetAgrees(ls[1..], None, None, a, b);
        ListedNothing(ls);
      } else {
        var dropped := c.Some? && Dangling(ls[0], c.value);
        var droppedByMeet := d.Some? && Dangling(ls[0], d.value);
        MeetIsLonger(ls[1..], c, d, a, b);
        assert dropped == droppedByMeet;
        assert !dropped ==> out[1..] == Rewrite(ls[1..], c, a * b);
        assert !dropped ==> RewriteMeet(ls, d, a, b)[1..] == RewriteMeet(ls[1..], d, a, b);
        EqualMeetAgrees(ls[1..], c, d, a, b);
        if d.Some? {
          forall names ensures Listed(Body(ls), names) * d.value <= c.value {
            ListedCons(ls[0], Body(ls[1..]), names);
            MappedLineKept(ls[0], names, c.value, d.value);
          }
        }
      }
    } else {
      ListedEmpty();
    }
  }

  lemma ListedEmpty()
    ensures Body([]) == [] && forall names :: Listed([], names) == {}
  {
  }

  lemma ListedNothing(ls: seq<string>)
    requires ls != [] && IsMLine(ls[0])
    ensures forall names :: Listed(Body(ls), names) == {}
  {
    assert Body(ls) == [];
  }

  lemma MappedLineKept(line: string, names: set<string>, c: set<string>, d: set<string>)
    requires Dangling(line, c) == Dangling(line, d)
    ensures ListedBy(line, names) * d <= c
  {
    FmtpIsNoRtpmap(line);
    hide MatchRtpmap, MatchFmtp;
  }

  lemma EqualHeads(line: string, k: set<string>, m: set<string>)
    requires IsAudio(line) && OrderFormats(MatchMLine(line).value.fmts, k) != [] && k <= m
    requires RewriteMLine(line, k) == RewriteMLine(line, m)
    ensures forall f :: f in MatchMLine(line).value.fmts && f in m ==> f in k
  {
    var fmts := MatchMLine(line).value.fmts;
    assert OrderFormats(fmts, m) != [] by {
      var f := OrderFormats(fmts, k)[0];
      assert f in OrderFormats(fmts, k);
      assert f in OrderFormats(fmts, m);
    }
    hide MatchMLine;
    RewrittenIsAudio(line, k);
    RewrittenIsAudio(line, m);
    assert OrderFormats(fmts, k) == OrderFormats(fmts, m);
  }

  lemma EqualKeeps(ls: seq<string>, a: set<string>, b: set<string>)
    requires ls != [] && IsAudio(ls[0])
    requires forall f :: f in MatchMLine(ls[0]).value.fmts && f in MeetAt(ls, a, b) ==> f in KeepAt(ls, a * b)
    requires forall names :: Listed(Body(ls[1..]), names) * MeetAt(ls, a, b) <= KeepAt(ls, a * b)
    ensures MeetAt(ls, a, b) <= KeepAt(ls, a * b)
  {
    hide MatchMLine, Listed, StaticAllowed;
    var body := Body(ls[1..]);
    forall pt | pt in MeetAt(ls, a, b) ensures pt in KeepAt(ls, a * b) {
      if pt in Listed(body, a) {
        assert pt in Listed(body, a) * MeetAt(ls, a, b);
      } else {
        assert pt in Statics(MatchMLine(ls[0]).value.fmts, a);
      }
    }
  }

  // ----------------------------------------------------------- the theorem

  lemma {:induction false} NothingAllowed(ls: seq<string>, allowed: set<string>)
    requires LeavesFormats(ls, {})
    ensures Rewrite(ls, None, allowed) == ls && !BailsOut(ls, allowed) && Agrees(ls, allowed, allowed)
    ensures forall a, b :: Agrees(ls, a, b)
  {
    hide MatchMLine, MatchRtpmap, MatchFmtp, Listed;
    if ls != [] {
      NothingAllowed(ls[1..], allowed);
      NoAudioLeft(ls);
    }
  }

  lemma NoAudioLeft(ls: seq<string>)
    requires ls != [] && LeavesFormats(ls, {})
    ensures !IsAudio(ls[0])
  {
    hide MatchMLine, Listed;
    if IsAudio(ls[0]) {
      KeepsNothing(ls);
      NothingOrdered(MatchMLine(ls[0]).value.fmts);
    }
  }

  lemma {:induction false} NothingOrdered(fmts: seq<string>)
    ensures OrderFormats(fmts, {}) == []
  {
    if fmts != [] {
      NothingOrdered(fmts[1..]);
    }
  }

  lemma KeepsNothing(ls: seq<string>)
    requires ls != [] && IsAudio(ls[0])
    ensures KeepAt(ls, {}) == {}
  {
    hide MatchMLine, Names;
    forall pt ensures pt !in KeepAt(ls, {}) {
      KeepIsNamed(Body(ls[1..]), MatchMLine(ls[0]).value.fmts, {}, pt);
    }
  }

  /** Filtering by `a` and then by `b` is filtering by the common names, if
      and only if no payload type is allowed by both under different names
      only.  Every audio section must keep a format under the common names. */
  lemma FilterTwice(sdp: string, a: set<string>, b: set<string>)
    requires LeavesFormats(Lines(sdp), a * b)
    ensures Filtered(Filtered(sdp, a), b) == Filtered(sdp, a * b) <==> Agrees(Lines(sdp), a, b)
  {
    hide Rewrite, RewriteMeet, BailsOut, Lines, LineSep, LeavesFormats, Agrees;
    var ls := Lines(sdp);
    if a * b == {} {
      FilterTwiceByNothing(sdp, a, b);
    } else if sdp == "" {
      EmptyTextAgrees(a, b);
    } else {
      LeavesMore(ls, a, b);
      LinesOfOutput(sdp, a);
      LinesOfOutput(sdp, a * b);
      var out := Rewrite(ls, None, a);
      var text := Join(out, LineSep(sdp));
      SecondDoesNotBail(ls, None, a, b);
      TwoPasses(ls, None, None, a, b);
      var twice := RewriteMeet(ls, None, a, b);
      var once := Rewrite(ls, None, a * b);
      assert Filtered(sdp, a * b) == Join(once, LineSep(sdp));
      assert Filtered(text, b) == Join(twice, LineSep(sdp)) by {
        assert LineSep(sdp) != "" by { SepNotEmpty(sdp); }
        if text == "" {
          EmptyOutput(out, LineSep(sdp), b, twice);
        } else {
          ShortJoin(out, twice, LineSep(text), LineSep(sdp), b);
        }
      }
      if Agrees(ls, a, b) {
        AgreeingMeet(ls, None, a, b);
      } else {
        if Join(twice, LineSep(sdp)) == Join(once, LineSep(sdp)) {
          TwiceIsSplit(sdp, a, b);
          EqualMeetAgrees(ls, None, None, a, b);
          assert false;
        }
      }
    }
  }

  /** The two-pass lines can be read back from the joined text. */
  lemma TwiceIsSplit(sdp: string, a: set<string>, b: set<string>)
    requires LeavesFormats(Lines(sdp), a * b)
    requires Join(RewriteMeet(Lines(sdp), None, a, b), LineSep(sdp)) == Join(Rewrite(Lines(sdp), None, a * b), LineSep(sdp))
    ensures RewriteMeet(Lines(sdp), None, a, b) == Rewrite(Lines(sdp), None, a * b)
  {
    hide Rewrite, RewriteMeet, Find, Split, LeavesFormats, MatchMLine, Join;
    var ls, sep := Lines(sdp), LineSep(sdp);
    LeavesMore(ls, a, b);
    TwoPasses(ls, None, None, a, b);
    SplitIsFree(sdp, sep);
    var out := Rewrite(ls, None, a);
    RewriteIsFree(ls, None, a, sep);
    RewriteIsFree(out, None, b, sep);
    RewriteIsFree(ls, None, a * b, sep);
    NotEmptied(ls, a);
    NotEmptied(out, b);
    NotEmptied(ls, a * b);
    SplitOfJoin(RewriteMeet(ls, None, a, b), sep);
    SplitOfJoin(Rewrite(ls, None, a * b), sep);
  }

  lemma {:induction false} NotEmptied(ls: seq<string>, a: set<string>)
    requires ls != []
    ensures Rewrite(ls, None, a) != []
  {
    hide MatchMLine, MatchRtpmap, MatchFmtp, KeepAt, RewriteMLine;
  }

  lemma {:induction false} RewriteIsShorter(ls: seq<string>, cur: Option<set<string>>, a: set<string>)
    ensures |Rewrite(ls, cur, a)| <= |ls|
  {
    hide MatchMLine, MatchRtpmap, MatchFmtp, KeepAt, RewriteMLine;
    if ls != [] {
      if IsAudio(ls[0]) {
        RewriteIsShorter(ls[1..], Some(KeepAt(ls, a)), a);
      } else {
        RewriteIsShorter(ls[1..], None, a);
        RewriteIsShorter(ls[1..], cur, a);
      }
    }
  }

  /** The separator does not matter when there is at most one line. */
  lemma ShortJoin(out: seq<string>, twice: seq<string>, s: string, t: string, b: set<string>)
    requires |out| > 1 ==> s == t
    requires twice == Rewrite(out, None, b)
    ensures Join(twice, s) == Join(twice, t)
  {
    hide Rewrite;
    RewriteIsShorter(out, None, b);
  }

  lemma SepNotEmpty(sdp: string)
    ensures LineSep(sdp) != ""
  {
  }

  lemma EmptyOutput(out: seq<string>, sep: string, b: set<string>, twice: seq<string>)
    requires sep != ""
    requires Join(out, sep) == "" && twice == Rewrite(out, None, b)
    ensures Join(twice, sep) == ""
  {
    hide MatchMLine, MatchRtpmap, MatchFmtp;
    if out != [] {
      assert |out| == 1 && out[0] == "";
      EmptyIsNoMLine();
    }
  }

  lemma EmptyIsNoMLine()
    ensures !IsMLine("")
  {
  }

  lemma EmptyTextAgrees(a: set<string>, b: set<string>)
    ensures Agrees(Lines(""), a, b)
  {
    hide MatchMLine;
    EmptyIsNoMLine();
    assert Lines("") == [""];
    assert [""][1..] == [];
    assert Agrees([], a, b);
  }

  lemma FilterTwiceByNothing(sdp: string, a: set<string>, b: set<string>)
    requires LeavesFormats(Lines(sdp), {})
    ensures Filtered(sdp, a) == sdp && Filtered(sdp, b) == sdp && Agrees(Lines(sdp), a, b)
  {
    hide Rewrite, BailsOut, Split, LeavesFormats, Find;
    NothingAllowed(Lines(sdp), a);
    NothingAllowed(Lines(sdp), b);
    JoinOfSplit(sdp, LineSep(sdp));
  }

  /** With one name per payload type, the order of two filters is immaterial
      and both together are the filter by the common names. */
  lemma FilterTwiceOneName(sdp: string, a: set<string>, b: set<string>)
    requires LeavesFormats(Lines(sdp), a * b) && OneName(Lines(sdp))
    ensures Filtered(Filtered(sdp, a), b) == Filtered(sdp, a * b) == Filtered(Filtered(sdp, b), a)
  {
    hide Filtered, LeavesFormats, OneName;
    OneNameAgrees(Lines(sdp), a, b);
    OneNameAgrees(Lines(sdp), b, a);
    assert a * b == b * a;
    FilterTwice(sdp, a, b);
    FilterTwice(sdp, b, a);
  }
}
