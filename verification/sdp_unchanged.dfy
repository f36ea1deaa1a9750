/** When the filter leaves a text alone, and what filtering twice comes to
    when the common names leave it alone. */
module SdpUnchanged {
  import opened Text
  import opened SdpLines
  import opened SdpRewriter
  import opened SdpLaws
  import opened SdpComposition
  import opened SdpSections

  // ------------------------------------------------------- settled sections

  /** The m-line is written with single blanks and all its formats are kept. */
  predicate HeadStays(line: string, keep: set<string>)
    requires IsMLine(line)
  {
    var m := MatchMLine(line).value;
    line == Render(m, m.fmts) && forall f :: f in m.fmts ==> f in keep
  }

  /** Nothing is dropped from any audio section; `cur` is the keep set of the
      one the first line lies in. */
  predicate Settled(ls: seq<string>, cur: Option<set<string>>, allowed: set<string>) {
    ls == [] || (
      if IsAudio(ls[0]) then
        HeadStays(ls[0], KeepAt(ls, allowed)) && Settled(ls[1..], Some(KeepAt(ls, allowed)), allowed)
      else if IsMLine(ls[0]) then Settled(ls[1..], None, allowed)
      else !(cur.Some? && Dangling(ls[0], cur.value)) && Settled(ls[1..], cur, allowed))
  }

  /** The filter has nothing to do: no names, no text, a section that would
      keep nothing, or only settled sections. */
  predicate Untouched(sdp: string, allowed: set<string>) {
    || allowed == {}
    || sdp == ""
    || BailsOut(Lines(sdp), allowed)
    || Settled(Lines(sdp), None, allowed)
  }

  lemma HeadStaysIff(line: string, keep: set<string>)
    requires IsMLine(line)
    ensures RewriteMLine(line, keep) == line <==> HeadStays(line, keep)
  {
    var m := MatchMLine(line).value;
    hide MatchMLine, Render;
    if RewriteMLine(line, keep) == line {
      MatchOfRender(m, OrderFormats(m.fmts, keep));
      assert OrderFormats(m.fmts, keep) == m.fmts;
    }
    if HeadStays(line, keep) {
      OrderAll(m.fmts, keep);
    }
  }

  lemma {:induction false} SettledIff(ls: seq<string>, cur: Option<set<string>>, a: set<string>)
    ensures Rewrite(ls, cur, a) == ls <==> Settled(ls, cur, a)
  {
    hide MatchMLine, Dangling, KeepAt, RewriteMLine, HeadStays;
    if ls != [] {
      var next := if IsAudio(ls[0]) then Some(KeepAt(ls, a)) else if IsMLine(ls[0]) then None else cur;
      SettledIff(ls[1..], next, a);
      var rest := Rewrite(ls[1..], next, a);
      RewriteIsShorter(ls[1..], next, a);
      assert ls == [ls[0]] + ls[1..];
      var out := Rewrite(ls, cur, a);
      assert |out| == |ls| ==> out[1..] == rest;
      if IsAudio(ls[0]) {
        HeadStaysIff(ls[0], KeepAt(ls, a));
      }
    }
  }

  /** The filter returns its input exactly when it has nothing to do. */
  lemma UntouchedIff(sdp: string, a: set<string>)
    ensures Filtered(sdp, a) == sdp <==> Untouched(sdp, a)
  {
    hide Rewrite, Settled, BailsOut, Lines, LineSep, Join;
    var ls, sep := Lines(sdp), LineSep(sdp);
    SettledIff(ls, None, a);
    LinesOfOutput(sdp, a);
    JoinOfLines(sdp);
  }

  lemma JoinOfLines(sdp: string)
    ensures Join(Lines(sdp), LineSep(sdp)) == sdp
  {
    hide Split, Join, Contains;
    JoinOfSplit(sdp, LineSep(sdp));
  }

  // ----------------------------------------------------- nothing comes back

  /** Once a rewritten m-line was rewritten back, nothing had changed. */
  lemma HeadBack(line: string, keep: set<string>, again: set<string>)
    requires IsMLine(line) && IsMLine(RewriteMLine(line, keep))
    requires RewriteMLine(RewriteMLine(line, keep), again) == line
    ensures RewriteMLine(line, keep) == line
  {
    var m := MatchMLine(line).value;
    hide MatchMLine, Render, OrderFormats;
    var fmts := OrderFormats(m.fmts, keep);
    MatchOfRender(m, fmts);
    var last := OrderFormats(fmts, again);
    MatchOfRender(m, last);
    SameButFormats(m, fmts, last);
    assert last == m.fmts;
    OrderAll(m.fmts, keep);
  }

  lemma SameButFormats(m: MLine, fmts: seq<string>, last: seq<string>)
    ensures Render(m.(fmts := fmts), last) == Render(m, last)
  {
  }

  /** No second pass restores what a first one dropped or rewrote. */
  lemma {:induction false} LinesBack(ls: seq<string>, c: Option<set<string>>, a: set<string>,
                                     d: Option<set<string>>, b: set<string>)
    requires Rewrite(Rewrite(ls, c, a), d, b) == ls
    ensures Rewrite(ls, c, a) == ls
  {
    hide MatchMLine, Dangling, KeepAt, RewriteMLine;
    if ls != [] {
      var next := if IsAudio(ls[0]) then Some(KeepAt(ls, a)) else if IsMLine(ls[0]) then None else c;
      var out, rest := Rewrite(ls, c, a), Rewrite(ls[1..], next, a);
      RewriteIsShorter(ls[1..], next, a);
      RewriteIsShorter(out, d, b);
      RewriteIsShorter(rest, d, b);
      assert |out| == |ls| && out[1..] == rest;
      var after := if IsAudio(out[0]) then Some(KeepAt(out, b)) else if IsMLine(out[0]) then None else d;
      assert Rewrite(out, d, b)[1..] == Rewrite(rest, after, b);
      LinesBack(ls[1..], next, a, after, b);
      if IsAudio(ls[0]) {
        if IsMLine(out[0]) {
          AudioStays(ls[0], KeepAt(ls, a));
          HeadBack(ls[0], KeepAt(ls, a), KeepAt(out, b));
        }
      }
      assert out == [out[0]] + rest && ls == [ls[0]] + ls[1..];
    }
  }

  lemma AudioStays(line: string, keep: set<string>)
    requires IsAudio(line) && IsMLine(RewriteMLine(line, keep))
    ensures IsAudio(RewriteMLine(line, keep))
  {
    var m := MatchMLine(line).value;
    hide MatchMLine, Render;
    MatchOfRender(m, OrderFormats(m.fmts, keep));
  }

  /** Two filters give the text back exactly when each leaves it alone. */
  lemma TextBack(sdp: string, a: set<string>, b: set<string>)
    ensures Filtered(Filtered(sdp, a), b) == sdp <==> Filtered(sdp, a) == sdp && Filtered(sdp, b) == sdp
  {
    hide Rewrite, BailsOut, Lines, LineSep, Join;
    var text := Filtered(sdp, a);
    if Filtered(text, b) == sdp && text != sdp {
      LinesOfOutput(sdp, a);
      LinesOfOutput(text, b);
      LinesBack(Lines(sdp), None, a, None, b);
      JoinOfLines(sdp);
    }
  }

  // ----------------------------------------------------- the law, once more

  /** With the rtpmap types on their m-lines, filtering by `a` and then by `b`
      is filtering by the common names exactly when: where the common names
      take effect, no type is allowed by both under different names only;
      where they do not, neither filter has anything to do. */
  lemma FilterTwiceIff(sdp: string, a: set<string>, b: set<string>)
    requires forall s :: s in AudioSections(Lines(sdp)) ==> TypesListed(s)
    ensures Filtered(Filtered(sdp, a), b) == Filtered(sdp, a * b) <==>
            if a * b != {} && !BailsOut(Lines(sdp), a * b) then Agrees(Lines(sdp), a, b)
            else Untouched(sdp, a) && Untouched(sdp, b)
  {
    if a * b != {} && !BailsOut(Lines(sdp), a * b) {
      hide Filtered, BailsOut, Lines, Agrees, LeavesFormats, TypesListed, AudioSections;
      KeptIsFormat(Lines(sdp), a * b);
      FilterTwice(sdp, a, b);
    } else {
      NamesTakeNoEffect(sdp, a * b);
      hide Filtered, BailsOut, Lines, Agrees, Untouched, TypesListed, AudioSections;
      TextBack(sdp, a, b);
      UntouchedIff(sdp, a);
      UntouchedIff(sdp, b);
    }
  }

  lemma NamesTakeNoEffect(sdp: string, names: set<string>)
    requires names == {} || BailsOut(Lines(sdp), names)
    ensures Filtered(sdp, names) == sdp
  {
  }
}
