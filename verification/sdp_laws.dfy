/** What filtering SDP text means: filtering again changes nothing, filtering
    twice is filtering once by the common names, and the audio sections that
    come out list exactly the allowed formats. */
module SdpLaws {
  import opened Text
  import opened SdpLines
  import opened SdpRewriter

  // ---------------------------------------------------- names of a type

  /** The encoding names the rtpmap lines of a section give a payload type. */
  function MappedNames(body: seq<string>, pt: string): set<string> {
    if body == [] then {}
    else
      (match MatchRtpmap(body[0])
       case Some(r) => if r.pt == pt then {Lower(r.name)} else {}
       case None => {})
      + MappedNames(body[1..], pt)
  }

  /** All names a section gives a payload type: its rtpmap lines, and the
      static table for the types on the m-line. */
  function Names(body: seq<string>, fmts: seq<string>, pt: string): set<string> {
    MappedNames(body, pt)
    + (if pt in fmts && StaticName(pt).Some? then {StaticName(pt).value} else {})
  }

  lemma {:induction false} ListedIsNamed(body: seq<string>, allowed: set<string>, pt: string)
    ensures pt in Listed(body, allowed) <==> MappedNames(body, pt) * allowed != {}
  {
    hide MatchRtpmap, Lower;
    if body != [] {
      ListedIsNamed(body[1..], allowed, pt);
      var rest := MappedNames(body[1..], pt);
      match MatchRtpmap(body[0]) {
        case None => assert MappedNames(body, pt) == rest;
        case Some(r) =>
          if r.pt == pt {
            assert MappedNames(body, pt) == {Lower(r.name)} + rest;
            assert MappedNames(body, pt) * allowed == {Lower(r.name)} * allowed + rest * allowed;
            assert Lower(r.name) in allowed ==> Lower(r.name) in {Lower(r.name)} * allowed;
          } else {
            assert MappedNames(body, pt) == rest;
          }
      }
    }
  }

  /** A section keeps exactly the types that have an allowed name. */
  lemma KeepIsNamed(body: seq<string>, fmts: seq<string>, allowed: set<string>, pt: string)
    ensures pt in Keep(body, fmts, allowed) <==> Names(body, fmts, pt) * allowed != {}
  {
    hide MappedNames, Listed, StaticName;
    ListedIsNamed(body, allowed, pt);
    var s := if pt in fmts && StaticName(pt).Some? then {StaticName(pt).value} else {};
    assert Names(body, fmts, pt) * allowed == MappedNames(body, pt) * allowed + s * allowed;
    assert pt in Statics(fmts, allowed) <==> s * allowed != {} by {
      assert s * allowed != {} ==> StaticName(pt).value in s * allowed;
      assert pt in Statics(fmts, allowed) ==> StaticName(pt).value in s * allowed;
    }
  }

  // --------------------------------------------------- lines out, lines in

  lemma {:induction false} RewriteIsFree(ls: seq<string>, cur: Option<set<string>>, allowed: set<string>, sep: string)
    requires sep == LF || sep == CRLF
    requires Free(ls, sep)
    ensures Free(Rewrite(ls, cur, allowed), sep)
  {
    hide MatchMLine, MatchRtpmap, MatchFmtp, Find, KeepAt, RewriteMLine;
    if ls != [] {
      assert ls[0] in ls && Free(ls[1..], sep);
      if IsAudio(ls[0]) {
        RewriteIsFree(ls[1..], Some(KeepAt(ls, allowed)), allowed, sep);
        RewrittenHasNoBreak(ls[0], KeepAt(ls, allowed));
      } else {
        RewriteIsFree(ls[1..], None, allowed, sep);
        RewriteIsFree(ls[1..], cur, allowed, sep);
      }
    }
  }

  lemma RewrittenHasNoBreak(line: string, keep: set<string>)
    requires IsMLine(line)
    ensures '\n' !in RewriteMLine(line, keep) && '\r' !in RewriteMLine(line, keep)
    ensures !Contains(RewriteMLine(line, keep), LF) && !Contains(RewriteMLine(line, keep), CRLF)
  {
    var m := MatchMLine(line).value;
    hide MatchMLine;
    var r := RewriteMLine(line, keep);
    RenderHasNoBreak(m, OrderFormats(m.fmts, keep));
    NoLfNoBreak(r);
  }

  /** No line but the last ends in a carriage return. */
  predicate NoCrBeforeLf(ls: seq<string>) {
    forall i :: 0 <= i < |ls| - 1 ==> ls[i] == "" || ls[i][|ls[i]| - 1] != '\r'
  }

  lemma {:induction false} CrlfAcross(l: string, t: string)
    requires '\n' !in l
    ensures Contains(l + LF + t, CRLF) <==> (l != "" && l[|l| - 1] == '\r') || Contains(t, CRLF)
  {
    var s := l + LF + t;
    if l == "" {
      assert s == LF + t && s[1..] == t;
      CrlfPrefix(s);
    } else {
      assert s[1..] == l[1..] + LF + t;
      CrlfAcross(l[1..], t);
      assert |l| > 1 ==> s[1] == l[1] != '\n';
      assert |l| == 1 ==> s[1] == '\n';
      CrlfPrefix(s);
      assert Contains(s, CRLF) <==> (|l| == 1 && l[0] == '\r') || Contains(s[1..], CRLF);
    }
  }

  lemma NoCrCons(ls: seq<string>)
    requires |ls| > 1
    ensures NoCrBeforeLf(ls) <==> (ls[0] == "" || ls[0][|ls[0]| - 1] != '\r') && NoCrBeforeLf(ls[1..])
  {
    var rest := ls[1..];
    assert forall i :: 1 <= i < |ls| ==> ls[i] == rest[i - 1];
    assert forall i :: 0 <= i < |rest| ==> rest[i] == ls[i + 1];
  }

  lemma {:induction false} JoinedWithoutCrlf(ls: seq<string>)
    requires ls != [] && Free(ls, LF) && Free(ls, CRLF)
    ensures !Contains(Join(ls, LF), CRLF) <==> NoCrBeforeLf(ls)
  {
    hide Find, NoCrBeforeLf;
    if |ls| == 1 {
      JoinOfOne(ls, LF);
      NoCrOfOne(ls);
    } else {
      assert Free(ls[1..], LF) && Free(ls[1..], CRLF);
      JoinedWithoutCrlf(ls[1..]);
      LfFree(ls[0]);
      NoCrCons(ls);
      CrlfAcross(ls[0], Join(ls[1..], LF));
    }
  }

  lemma NoCrOfOne(ls: seq<string>)
    requires |ls| == 1
    ensures NoCrBeforeLf(ls)
  {
  }

  lemma {:induction false} RewriteKeepsNoCr(ls: seq<string>, cur: Option<set<string>>, allowed: set<string>)
    requires NoCrBeforeLf(ls)
    ensures NoCrBeforeLf(Rewrite(ls, cur, allowed))
    ensures ls != [] && cur == None ==> Rewrite(ls, cur, allowed) != []
  {
    hide MatchMLine, MatchRtpmap, MatchFmtp, KeepAt, RewriteMLine;
    if ls != [] {
      assert forall i :: 1 <= i < |ls| ==> ls[i] == ls[1..][i - 1];
      var out := Rewrite(ls, cur, allowed);
      if IsAudio(ls[0]) {
        RewriteKeepsNoCr(ls[1..], Some(KeepAt(ls, allowed)), allowed);
        RewrittenHasNoBreak(ls[0], KeepAt(ls, allowed));
      } else {
        RewriteKeepsNoCr(ls[1..], None, allowed);
        RewriteKeepsNoCr(ls[1..], cur, allowed);
      }
      assert ls[1..] == [] ==> |out| <= 1;
    }
  }

  lemma LfFreeIsCrlfFree(ls: seq<string>)
    requires Free(ls, LF)
    ensures Free(ls, CRLF)
  {
    forall l | l in ls ensures !Contains(l, CRLF) {
      LfFree(l);
      NoLfNoBreak(l);
    }
  }

  /** Splitting the filter's output again, with the separator chosen afresh,
      gives the lines it was joined from. */
  lemma LinesOfOutput(sdp: string, allowed: set<string>)
    ensures var out := Rewrite(Lines(sdp), None, allowed);
            var text := Join(out, LineSep(sdp));
            Lines(text) == out && (|out| > 1 ==> LineSep(text) == LineSep(sdp))
  {
    hide Rewrite, Find, Split, Join, MatchMLine;
    var sep, ls := LineSep(sdp), Lines(sdp);
    var out := Rewrite(ls, None, allowed);
    var text := Join(out, sep);
    SplitIsFree(sdp, sep);
    JoinOfSplit(sdp, sep);
    RewriteIsFree(ls, None, allowed, sep);
    if sep == LF {
      LfFreeIsCrlfFree(ls);
      LfFreeIsCrlfFree(out);
      JoinedWithoutCrlf(ls);
      RewriteKeepsNoCr(ls, None, allowed);
      JoinedWithoutCrlf(out);
      SplitOfJoin(out, LF);
    } else {
      CrlfOutput(ls, allowed);
      SplitOfJoin(out, CRLF);
      SplitHasSeveral(text, CRLF);
      SplitHasSeveral(text, LF);
      SplitHasSeveral(sdp, CRLF);
      if |out| == 1 {
        JoinOfOne(out, CRLF);
        assert !Contains(text, LF);
        assert out == [text];
      }
    }
  }

  lemma JoinOfOne(ls: seq<string>, sep: string)
    requires |ls| == 1
    ensures Join(ls, sep) == ls[0]
  {
  }

  lemma SplitHasSeveral(s: string, sep: string)
    requires sep != ""
    ensures Contains(s, sep) <==> |Split(s, sep)| > 1
    ensures !Contains(s, sep) ==> Split(s, sep) == [s]
  {
  }

  /** When lines are dropped until one is left, that one is an m-line. */
  lemma CrlfOutput(ls: seq<string>, allowed: set<string>)
    requires ls != []
    ensures var out := Rewrite(ls, None, allowed);
            out != [] && (|out| == 1 && |ls| > 1 ==> !Contains(out[0], LF))
  {
    hide MatchMLine, MatchRtpmap, MatchFmtp, Find, KeepAt, RewriteMLine;
    if IsAudio(ls[0]) {
      RewrittenHasNoBreak(ls[0], KeepAt(ls, allowed));
    } else if |ls| > 1 {
      CrlfOutput(ls[1..], allowed);
    }
  }

  // ------------------------------------------------------------ idempotence

  /** An rtpmap line for a kept type is still in the section afterwards, or in
      a longer one if the m-line that ended the section lost all its formats. */
  lemma {:induction false} ListedSurvives(ls: seq<string>, keep: set<string>, allowed: set<string>, names: set<string>)
    ensures Listed(Body(ls), names) * keep <= Listed(Body(Rewrite(ls, Some(keep), allowed)), names)
  {
    hide MatchMLine, MatchRtpmap, MatchFmtp, KeepAt, RewriteMLine, Lower;
    if ls != [] && !IsMLine(ls[0]) {
      ListedSurvives(ls[1..], keep, allowed, names);
      var out, rest := Rewrite(ls, Some(keep), allowed), Rewrite(ls[1..], Some(keep), allowed);
      assert Body(ls) == [ls[0]] + Body(ls[1..]);
      assert Listed(Body(ls), names) == ListedBy(ls[0], names) + Listed(Body(ls[1..]), names);
      if !Dangling(ls[0], keep) {
        assert out == [ls[0]] + rest && out[1..] == rest;
        assert Body(out) == [ls[0]] + Body(rest);
        assert Listed(Body(out), names) == ListedBy(ls[0], names) + Listed(Body(rest), names);
      } else {
        assert MatchFmtp(ls[0]).Some? ==> MatchRtpmap(ls[0]) == None by { FmtpIsNoRtpmap(ls[0]); }
      }
    }
  }

  lemma FmtpIsNoRtpmap(line: string)
    ensures MatchFmtp(line).Some? ==> MatchRtpmap(line) == None
  {
    if MatchFmtp(line).Some? {
      assert line[2] == 'f';
    }
  }

  lemma {:induction false} OrderTwice(fmts: seq<string>, k1: set<string>, k2: set<string>)
    ensures OrderFormats(OrderFormats(fmts, k1), k2) == OrderFormats(fmts, k1 * k2)
  {
    if fmts != [] {
      OrderTwice(fmts[1..], k1, k2);
      var rest := OrderFormats(fmts[1..], k1);
      assert fmts[0] in k1 ==> ([fmts[0]] + rest)[1..] == rest;
      assert fmts[0] !in k1 ==> OrderFormats(fmts, k1) == rest;
    }
  }

  lemma {:induction false} OrderAll(fmts: seq<string>, keep: set<string>)
    requires forall f :: f in fmts ==> f in keep
    ensures OrderFormats(fmts, keep) == fmts
  {
    if fmts != [] {
      OrderAll(fmts[1..], keep);
    }
  }

  /** A section that keeps a format keeps, when filtered again, at least what
      it kept before. */
  lemma KeepGrows(ls: seq<string>, allowed: set<string>)
    requires ls != [] && IsAudio(ls[0])
    ensures var keep := KeepAt(ls, allowed);
            var fmts := OrderFormats(MatchMLine(ls[0]).value.fmts, keep);
            var body := Body(Rewrite(ls[1..], Some(keep), allowed));
            && keep <= Keep(body, fmts, allowed)
            && (fmts == [] ==> keep <= Listed(body, allowed))
  {
    hide MatchMLine, Rewrite, Body, Listed, StaticName;
    ListedSurvives(ls[1..], KeepAt(ls, allowed), allowed, allowed);
  }

  /** The output is a fixed point: read again, each line is copied.  `again`
      is the keep set the second pass works with; it may be that of an earlier
      section, when the m-line in between lost all its formats. */
  lemma {:induction false} OutputIsSettled(ls: seq<string>, cur: Option<set<string>>, again: Option<set<string>>,
                                           allowed: set<string>)
    requires !BailsOut(ls, allowed)
    requires again.Some? ==> cur.Some? && cur.value <= again.value
    requires again.Some? ==> Listed(Body(Rewrite(ls, cur, allowed)), allowed) <= again.value
    ensures Rewrite(Rewrite(ls, cur, allowed), again, allowed) == Rewrite(ls, cur, allowed)
    ensures !BailsOut(Rewrite(ls, cur, allowed), allowed)
  {
    hide MatchMLine, MatchRtpmap, MatchFmtp, Listed, Keep, RewriteMLine;
    if ls != [] {
      var out := Rewrite(ls, cur, allowed);
      if IsAudio(ls[0]) {
        var keep := KeepAt(ls, allowed);
        SettledSection(ls, keep, again, allowed);
        var rest := Rewrite(ls[1..], Some(keep), allowed);
        assert out[1..] == rest;
        if IsMLine(out[0]) {
          OutputIsSettled(ls[1..], Some(keep), Some(KeepAt(out, allowed)), allowed);
        } else {
          assert Body(out) == [out[0]] + Body(rest);
          assert Listed(Body(out), allowed) == Listed(Body(rest), allowed) by {
            ListedSkips(out[0], Body(rest), allowed);
          }
          OutputIsSettled(ls[1..], Some(keep), again, allowed);
        }
      } else if IsMLine(ls[0]) {
        OutputIsSettled(ls[1..], None, None, allowed);
        assert out[1..] == Rewrite(ls[1..], None, allowed);
      } else if cur.Some? && Dangling(ls[0], cur.value) {
        OutputIsSettled(ls[1..], cur, again, allowed);
      } else {
        var rest := Rewrite(ls[1..], cur, allowed);
        assert out[1..] == rest;
        assert Body(out) == [ls[0]] + Body(rest);
        assert Listed(Body(rest), allowed) <= Listed(Body(out), allowed) by {
          ListedCons(ls[0], Body(rest), allowed);
        }
        OutputIsSettled(ls[1..], cur, again, allowed);
      }
    }
  }

  lemma ListedCons(line: string, body: seq<string>, allowed: set<string>)
    ensures Listed([line] + body, allowed) == ListedBy(line, allowed) + Listed(body, allowed)
  {
    assert ([line] + body)[1..] == body;
  }

  lemma ListedSkips(line: string, body: seq<string>, allowed: set<string>)
    requires MatchRtpmap(line) == None
    ensures Listed([line] + body, allowed) == Listed(body, allowed)
  {
    hide MatchRtpmap;
    ListedCons(line, body, allowed);
  }

  /** The head line of a rewritten audio section, read again. */
  lemma SettledSection(ls: seq<string>, keep: set<string>, again: Option<set<string>>, allowed: set<string>)
    requires ls != [] && IsAudio(ls[0]) && keep == KeepAt(ls, allowed)
    ensures var line := RewriteMLine(ls[0], keep);
            var out := [line] + Rewrite(ls[1..], Some(keep), allowed);
            if IsMLine(line)
            then IsAudio(line) && keep <= KeepAt(out, allowed) && RewriteMLine(line, KeepAt(out, allowed)) == line
                 && Listed(Body(out[1..]), allowed) <= KeepAt(out, allowed)
            else keep <= Listed(Body(out[1..]), allowed)
                 && MatchRtpmap(line) == None && MatchFmtp(line) == None
  {
    var m := MatchMLine(ls[0]).value;
    hide MatchMLine, MatchRtpmap, MatchFmtp, Rewrite, Listed, Body, StaticName, Render;
    var fmts := OrderFormats(m.fmts, keep);
    var line := RewriteMLine(ls[0], keep);
    var out := [line] + Rewrite(ls[1..], Some(keep), allowed);
    assert out[1..] == Rewrite(ls[1..], Some(keep), allowed);
    MatchOfRender(m, fmts);
    RenderIsNoAttribute(m, fmts);
    KeepGrows(ls, allowed);
    if fmts != [] {
      OrderAll(fmts, KeepAt(out, allowed));
      assert RewriteMLine(line, KeepAt(out, allowed)) == Render(m.(fmts := fmts), fmts);
      RenderIgnoresFormats(m, fmts);
    }
  }

  lemma RenderIgnoresFormats(m: MLine, fmts: seq<string>)
    ensures Render(m.(fmts := fmts), fmts) == Render(m, fmts)
  {
  }

  /** Filtering again by the same names changes nothing, for every text and
      every set of names. */
  lemma FilterIsIdempotent(sdp: string, allowed: set<string>)
    ensures Filtered(Filtered(sdp, allowed), allowed) == Filtered(sdp, allowed)
  {
    hide Rewrite, BailsOut, Lines, LineSep;
    var text := Filtered(sdp, allowed);
    if text != sdp {
      LinesOfOutput(sdp, allowed);
      OutputIsSettled(Lines(sdp), None, None, allowed);
      var out := Rewrite(Lines(sdp), None, allowed);
      assert |out| == 1 ==> Join(out, LineSep(text)) == Join(out, LineSep(sdp));
      assert |out| == 0 ==> Join(out, LineSep(text)) == Join(out, LineSep(sdp));
    }
  }
}
