/** The audio codec filter: a scan that finds the audio blocks, an emit pass
    that walks the lines with a block cursor, and the section-by-section
    specification that both together meet. */
module SdpRewriter {
  import opened Text
  import opened SdpLines

  const DTMF := "telephone-event"

  /** Static payload types of RFC 3551, section 6. */
  function StaticName(pt: string): Option<string> {
    if pt == "0" then Some("pcmu")
    else if pt == "3" then Some("gsm")
    else if pt == "8" then Some("pcma")
    else if pt == "9" then Some("g722")
    else if pt == "15" then Some("g728")
    else if pt == "18" then Some("g729")
    else None
  }

  predicate StaticAllowed(pt: string, allowed: set<string>) {
    StaticName(pt).Some? && StaticName(pt).value in allowed
  }

  // ---------------------------------------------------------- specification

  predicate IsMLine(line: string) {
    MatchMLine(line).Some?
  }

  predicate IsAudio(line: string) {
    IsMLine(line) && MatchMLine(line).value.media == "audio"
  }

  /** The lines before the next m-line. */
  function Body(ls: seq<string>): (r: seq<string>)
    ensures |r| <= |ls|
  {
    if ls == [] || IsMLine(ls[0]) then [] else [ls[0]] + Body(ls[1..])
  }

  /** The body is the longest prefix without an m-line. */
  lemma {:induction false} BodyIsPrefix(ls: seq<string>)
    ensures Body(ls) <= ls
    ensures forall l :: l in Body(ls) ==> !IsMLine(l)
    ensures |Body(ls)| < |ls| ==> IsMLine(ls[|Body(ls)|])
  {
    hide MatchMLine;
    if ls != [] && !IsMLine(ls[0]) {
      BodyIsPrefix(ls[1..]);
    }
  }

  function ListedBy(line: string, allowed: set<string>): set<string> {
    match MatchRtpmap(line)
    case Some(r) => if Lower(r.name) in allowed then {r.pt} else {}
    case None => {}
  }

  /** Payload types with an rtpmap line whose encoding name is allowed. */
  function Listed(body: seq<string>, allowed: set<string>): set<string> {
    if body == [] then {} else ListedBy(body[0], allowed) + Listed(body[1..], allowed)
  }

  function Statics(fmts: seq<string>, allowed: set<string>): set<string> {
    set f | f in fmts && StaticAllowed(f, allowed)
  }

  /** The payload types an audio section keeps. */
  function Keep(body: seq<string>, fmts: seq<string>, allowed: set<string>): set<string> {
    Listed(body, allowed) + Statics(fmts, allowed)
  }

  /** The keep set of the audio section that `ls[0]` opens. */
  function KeepAt(ls: seq<string>, allowed: set<string>): set<string>
    requires ls != [] && IsAudio(ls[0])
  {
    Keep(Body(ls[1..]), MatchMLine(ls[0]).value.fmts, allowed)
  }

  predicate Dangling(line: string, keep: set<string>) {
    || (MatchRtpmap(line).Some? && MatchRtpmap(line).value.pt !in keep)
    || (MatchFmtp(line).Some? && MatchFmtp(line).value !in keep)
  }

  function OrderFormats(fmts: seq<string>, keep: set<string>): (r: seq<string>)
    ensures forall f :: f in r <==> f in fmts && f in keep
  {
    if fmts == [] then []
    else (if fmts[0] in keep then [fmts[0]] else []) + OrderFormats(fmts[1..], keep)
  }

  function RewriteMLine(line: string, keep: set<string>): string
    requires IsMLine(line)
  {
    var m := MatchMLine(line).value;
    Render(m, OrderFormats(m.fmts, keep))
  }

  /** The output, section by section; `cur` is the keep set of the audio
      section the first line lies in, if it lies in one. */
  function Rewrite(ls: seq<string>, cur: Option<set<string>>, allowed: set<string>): seq<string> {
    if ls == [] then []
    else if IsAudio(ls[0]) then
      var keep := KeepAt(ls, allowed);
      [RewriteMLine(ls[0], keep)] + Rewrite(ls[1..], Some(keep), allowed)
    else if IsMLine(ls[0]) then [ls[0]] + Rewrite(ls[1..], None, allowed)
    else if cur.Some? && Dangling(ls[0], cur.value) then Rewrite(ls[1..], cur, allowed)
    else [ls[0]] + Rewrite(ls[1..], cur, allowed)
  }

  /** Some audio section keeps nothing. */
  predicate BailsOut(ls: seq<string>, allowed: set<string>) {
    ls != [] && ((IsAudio(ls[0]) && KeepAt(ls, allowed) == {}) || BailsOut(ls[1..], allowed))
  }

  function LineSep(sdp: string): string {
    if Contains(sdp, CRLF) then CRLF else LF
  }

  function Lines(sdp: string): seq<string> {
    Split(sdp, LineSep(sdp))
  }

  function Filtered(sdp: string, allowed: set<string>): string {
    if allowed == {} || sdp == "" || BailsOut(Lines(sdp), allowed) then sdp
    else Join(Rewrite(Lines(sdp), None, allowed), LineSep(sdp))
  }

  function AllowedSet(allowed: seq<string>, preserveDtmf: bool): set<string> {
    var names := set a | a in allowed && a != "" :: Lower(a);
    if names != {} && preserveDtmf then names + {DTMF} else names
  }

  // ------------------------------------------------------------- first pass

  datatype Block = Block(start: nat, end: nat, fmts: seq<string>, keep: set<string>)

  /** The block that an audio m-line opens, with the given keep set. */
  function BlockAt(lines: seq<string>, i: nat, keep: set<string>): Block
    requires i < |lines| && IsAudio(lines[i])
  {
    Block(i, i + 1 + |Body(lines[i + 1..])|, MatchMLine(lines[i]).value.fmts, keep)
  }

  /** The audio blocks that start at line `i` or later. */
  function AudioBlocks(lines: seq<string>, i: nat, allowed: set<string>): seq<Block>
    requires i <= |lines|
    decreases |lines| - i
  {
    if i == |lines| then []
    else (if IsAudio(lines[i]) then [BlockAt(lines, i, KeepAt(lines[i..], allowed))] else [])
         + AudioBlocks(lines, i + 1, allowed)
  }

  /** The same blocks before the static types are added. */
  function RawBlocks(lines: seq<string>, i: nat, allowed: set<string>): seq<Block>
    requires i <= |lines|
    decreases |lines| - i
  {
    if i == |lines| then []
    else (if IsAudio(lines[i]) then [BlockAt(lines, i, Listed(Body(lines[i + 1..]), allowed))] else [])
         + RawBlocks(lines, i + 1, allowed)
  }

  function AddStatics(b: Block, allowed: set<string>): Block {
    b.(keep := b.keep + Statics(b.fmts, allowed))
  }

  function AddAllStatics(bs: seq<Block>, allowed: set<string>): (r: seq<Block>)
    ensures |r| == |bs|
    ensures forall k :: 0 <= k < |bs| ==> r[k] == AddStatics(bs[k], allowed)
  {
    if bs == [] then [] else [AddStatics(bs[0], allowed)] + AddAllStatics(bs[1..], allowed)
  }

  lemma {:induction false} RawToFull(lines: seq<string>, i: nat, allowed: set<string>)
    requires i <= |lines|
    ensures AudioBlocks(lines, i, allowed) == AddAllStatics(RawBlocks(lines, i, allowed), allowed)
    decreases |lines| - i
  {
    if i < |lines| {
      RawToFull(lines, i + 1, allowed);
      if IsAudio(lines[i]) {
        var body := Body(lines[i + 1..]);
        assert lines[i..][1..] == lines[i + 1..];
        var b := BlockAt(lines, i, Listed(body, allowed));
        assert AddStatics(b, allowed) == BlockAt(lines, i, KeepAt(lines[i..], allowed));
        assert ([b] + RawBlocks(lines, i + 1, allowed))[1..] == RawBlocks(lines, i + 1, allowed);
      }
    }
  }

  /** What an open block becomes once the scan reaches its end. */
  function Completed(cur: Option<Block>, rest: seq<string>, i: nat, allowed: set<string>): seq<Block> {
    match cur
    case None => []
    case Some(b) => [b.(end := i + |Body(rest)|, keep := b.keep + Listed(Body(rest), allowed))]
  }

  /** One more body line moves from the rest into the open block. */
  lemma CompletedStep(b: Block, rest: seq<string>, i: nat, allowed: set<string>)
    requires rest != [] && !IsMLine(rest[0])
    ensures Completed(Some(b), rest, i, allowed) ==
            Completed(Some(b.(keep := b.keep + ListedBy(rest[0], allowed))), rest[1..], i + 1, allowed)
  {
    hide MatchMLine, MatchRtpmap;
    var l, t := ListedBy(rest[0], allowed), Listed(Body(rest[1..]), allowed);
    assert Body(rest) == [rest[0]] + Body(rest[1..]);
    assert Listed(Body(rest), allowed) == l + t;
    assert b.keep + (l + t) == (b.keep + l) + t;
  }

  lemma CompletedAtEnd(b: Block, rest: seq<string>, i: nat, allowed: set<string>)
    requires rest == [] || IsMLine(rest[0])
    ensures Completed(Some(b), rest, i, allowed) == [b.(end := i)]
  {
    hide MatchMLine, MatchRtpmap;
    assert Body(rest) == [] && Listed([], allowed) == {};
    assert b.keep + {} == b.keep;
  }

  lemma RawOpens(lines: seq<string>, i: nat, allowed: set<string>)
    requires i < |lines| && IsAudio(lines[i])
    ensures RawBlocks(lines, i, allowed) ==
            Completed(Some(Block(i, |lines|, MatchMLine(lines[i]).value.fmts, {})), lines[i + 1..], i + 1, allowed)
            + RawBlocks(lines, i + 1, allowed)
  {
    hide MatchMLine, MatchRtpmap;
    var listed := Listed(Body(lines[i + 1..]), allowed);
    assert {} + listed == listed;
  }

  lemma RawSkips(lines: seq<string>, i: nat, allowed: set<string>)
    requires i < |lines| && !IsAudio(lines[i])
    ensures RawBlocks(lines, i, allowed) == RawBlocks(lines, i + 1, allowed)
  {
  }

  /** First pass of the source: one loop over the lines with an open block
      `cur`, then the static fallback for each block's formats. */
  method ScanAudioBlocks(lines: seq<string>, allowed: set<string>) returns (blocks: seq<Block>)
    ensures blocks == AudioBlocks(lines, 0, allowed)
  {
    hide MatchMLine, MatchRtpmap, MatchFmtp, Completed, Body, AudioBlocks, RawBlocks;
    blocks := [];
    var cur: Option<Block> := None;
    assert lines[0..] == lines;
    assert Completed(cur, lines, 0, allowed) == [] by { CompletedNone(lines, 0, allowed); }
    for i := 0 to |lines|
      invariant cur.Some? ==> cur.value.end == |lines|
      invariant RawBlocks(lines, 0, allowed) ==
        blocks + (Completed(cur, lines[i..], i, allowed) + RawBlocks(lines, i, allowed))
    {
      var line := lines[i];
      if !IsAudio(line) { RawSkips(lines, i, allowed); }
      assert lines[i..][0] == line && lines[i..][1..] == lines[i + 1..];
      CompletedNone(lines[i..], i, allowed);
      CompletedNone(lines[i + 1..], i + 1, allowed);
      assert forall bs: seq<Block> :: [] + bs == bs;
      if IsMLine(line) {
        var m := MatchMLine(line).value;
        if cur.Some? {
          CompletedAtEnd(cur.value, lines[i..], i, allowed);
          blocks := blocks + [cur.value.(end := i)];
          cur := None;
        }
        assert RawBlocks(lines, 0, allowed) == blocks + RawBlocks(lines, i, allowed);
        if m.media == "audio" {
          RawOpens(lines, i, allowed);
          cur := Some(Block(i, |lines|, m.fmts, {}));
        }
      } else if cur.Some? {
        CompletedStep(cur.value, lines[i..], i, allowed);
        assert cur.value.(keep := cur.value.keep + {}) == cur.value;
        var rm := MatchRtpmap(line);
        if rm.Some? && Lower(rm.value.name) in allowed {
          cur := Some(cur.value.(keep := cur.value.keep + {rm.value.pt}));
        }
      }
    }
    assert lines[|lines|..] == [];
    CompletedNone([], |lines|, allowed);
    if cur.Some? {
      CompletedAtEnd(cur.value, [], |lines|, allowed);
      blocks := blocks + [cur.value];
    }
    assert RawBlocks(lines, |lines|, allowed) == [] by { RawEnd(lines, allowed); }
    assert blocks == RawBlocks(lines, 0, allowed);
    RawToFull(lines, 0, allowed);
    blocks := AddStaticPass(blocks, allowed);
  }

  /** The static fallback of the first pass. */
  method AddStaticPass(raw: seq<Block>, allowed: set<string>) returns (blocks: seq<Block>)
    ensures blocks == AddAllStatics(raw, allowed)
  {
    blocks := raw;
    for n := 0 to |blocks|
      invariant |blocks| == |raw|
      invariant forall k :: 0 <= k < n ==> blocks[k] == AddStatics(raw[k], allowed)
      invariant forall k :: n <= k < |raw| ==> blocks[k] == raw[k]
    {
      var blk := AddStaticNames(blocks[n], allowed);
      blocks := blocks[n := blk];
    }
  }

  lemma RawEnd(lines: seq<string>, allowed: set<string>)
    ensures RawBlocks(lines, |lines|, allowed) == []
  {
  }

  lemma CompletedNone(rest: seq<string>, i: nat, allowed: set<string>)
    ensures Completed(None, rest, i, allowed) == []
  {
  }

  /** The inner loop of the static fallback. */
  method AddStaticNames(b: Block, allowed: set<string>) returns (blk: Block)
    ensures blk == AddStatics(b, allowed)
  {
    blk := b;
    for j := 0 to |b.fmts|
      invariant blk == b.(keep := b.keep + Statics(b.fmts[..j], allowed))
    {
      var pt := b.fmts[j];
      assert b.fmts[..j + 1] == b.fmts[..j] + [pt];
      if pt !in blk.keep {
        var name := StaticName(pt);
        if name.Some? && name.value in allowed {
          blk := blk.(keep := blk.keep + {pt});
        }
      }
    }
    assert b.fmts[..|b.fmts|] == b.fmts;
  }

  // ------------------------------------------------------------ second pass

  /** The cursor stands on the block that covers line `i - 1`, or on the next
      one to come. */
  ghost predicate CursorAt(lines: seq<string>, blocks: seq<Block>, allowed: set<string>, i: nat, c: nat) {
    && i <= |lines| && c <= |blocks|
    && if c < |blocks| && blocks[c].start < i
       then blocks[c].end == i + |Body(lines[i..])| && blocks[c + 1..] == AudioBlocks(lines, i, allowed)
       else blocks[c..] == AudioBlocks(lines, i, allowed)
  }

  function Covering(blocks: seq<Block>, i: nat, c: nat): Option<set<string>> {
    if c < |blocks| && blocks[c].start < i then Some(blocks[c].keep) else None
  }

  lemma {:induction false} AudioBlocksStart(lines: seq<string>, i: nat, allowed: set<string>)
    requires i <= |lines|
    ensures forall b :: b in AudioBlocks(lines, i, allowed) ==> i <= b.start < b.end <= |lines|
    decreases |lines| - i
  {
    if i < |lines| {
      AudioBlocksStart(lines, i + 1, allowed);
    }
  }

  /** The block under the cursor ends where the next m-line stands, and the
      blocks ahead have not ended. */
  lemma CursorFacts(lines: seq<string>, blocks: seq<Block>, allowed: set<string>, i: nat, c: nat)
    requires CursorAt(lines, blocks, allowed, i, c) && i < |lines|
    ensures Covering(blocks, i, c).Some? ==>
      (i >= blocks[c].end <==> IsMLine(lines[i]))
      && (IsMLine(lines[i]) ==> CursorAt(lines, blocks, allowed, i, c + 1))
      && (c + 1 < |blocks| ==> i <= blocks[c + 1].start < blocks[c + 1].end)
    ensures c < |blocks| && Covering(blocks, i, c).None? ==> i < blocks[c].end
  {
    hide MatchMLine, AudioBlocks;
    AudioBlocksStart(lines, i, allowed);
    if Covering(blocks, i, c).Some? {
      assert IsMLine(lines[i]) <==> |Body(lines[i..])| == 0;
      assert c + 1 < |blocks| ==> blocks[c + 1] == blocks[c + 1..][0];
    } else if c < |blocks| {
      assert blocks[c] == blocks[c..][0];
    }
  }

  /** The `while` that moves the cursor off the block that ends here. */
  method SkipEnded(ghost lines: seq<string>, blocks: seq<Block>, ghost allowed: set<string>, i: nat, c: nat)
    returns (d: nat)
    requires CursorAt(lines, blocks, allowed, i, c) && i < |lines|
    ensures CursorAt(lines, blocks, allowed, i, d)
    ensures d < |blocks| ==> i < blocks[d].end
    ensures Covering(blocks, i, d) == if IsMLine(lines[i]) then None else Covering(blocks, i, c)
  {
    hide IsMLine, CursorAt;
    d := c;
    CursorFacts(lines, blocks, allowed, i, c);
    while d < |blocks| && i >= blocks[d].end
      invariant d == c || (d == c + 1 && Covering(blocks, i, c).Some? && IsMLine(lines[i]))
    {
      d := d + 1;
    }
  }

  /** Second pass of the source. */
  method Emit(lines: seq<string>, blocks: seq<Block>, ghost allowed: set<string>, lineSep: string)
    returns (text: string)
    requires blocks == AudioBlocks(lines, 0, allowed)
    ensures text == Join(Rewrite(lines, None, allowed), lineSep)
  {
    hide MatchMLine, MatchRtpmap, MatchFmtp, Body, AudioBlocks, KeepAt, CursorAt, Rewrite;
    var out: seq<string> := [];
    var c: nat := 0;
    CursorStart(lines, blocks, allowed);
    for i := 0 to |lines|
      invariant CursorAt(lines, blocks, allowed, i, c)
      invariant out + Rewrite(lines[i..], Covering(blocks, i, c), allowed) == Rewrite(lines, None, allowed)
    {
      var line := lines[i];
      RewriteStep(lines, i, Covering(blocks, i, c), allowed);
      c := SkipEnded(lines, blocks, allowed, i, c);
      if IsMLine(line) && c < |blocks| && i == blocks[c].start {
        var m := MatchMLine(line).value;
        AudioStart(lines, blocks, allowed, i, c);
        out := out + [Render(m, OrderFormats(blocks[c].fmts, blocks[c].keep))];
        continue;
      }
      NoAudioStart(lines, blocks, allowed, i, c);
      if c < |blocks| && blocks[c].start < i < blocks[c].end {
        var rm := MatchRtpmap(line);
        if rm.Some? && rm.value.pt !in blocks[c].keep { continue; }
        var fm := MatchFmtp(line);
        if fm.Some? && fm.value !in blocks[c].keep { continue; }
      }
      out := out + [line];
    }
    RewriteEnd(lines, Covering(blocks, |lines|, c), allowed);
    assert out + [] == out;
    text := Join(out, lineSep);
  }

  lemma CursorStart(lines: seq<string>, blocks: seq<Block>, allowed: set<string>)
    requires blocks == AudioBlocks(lines, 0, allowed)
    ensures CursorAt(lines, blocks, allowed, 0, 0)
    ensures Covering(blocks, 0, 0) == None && lines[0..] == lines
  {
    hide AudioBlocks;
    assert blocks[0..] == blocks;
  }

  /** One line of the rewrite. */
  lemma RewriteStep(lines: seq<string>, i: nat, cur: Option<set<string>>, allowed: set<string>)
    requires i < |lines|
    ensures Rewrite(lines[i..], cur, allowed) ==
            if IsAudio(lines[i]) then
              [RewriteMLine(lines[i], KeepAt(lines[i..], allowed))]
              + Rewrite(lines[i + 1..], Some(KeepAt(lines[i..], allowed)), allowed)
            else if IsMLine(lines[i]) then [lines[i]] + Rewrite(lines[i + 1..], None, allowed)
            else (if cur.Some? && Dangling(lines[i], cur.value) then [] else [lines[i]])
                 + Rewrite(lines[i + 1..], cur, allowed)
  {
    hide MatchMLine, Dangling, KeepAt, RewriteMLine;
    assert lines[i..][0] == lines[i] && lines[i..][1..] == lines[i + 1..];
  }

  lemma RewriteEnd(lines: seq<string>, cur: Option<set<string>>, allowed: set<string>)
    ensures Rewrite(lines[|lines|..], cur, allowed) == []
  {
  }

  lemma AudioStart(lines: seq<string>, blocks: seq<Block>, allowed: set<string>, i: nat, c: nat)
    requires CursorAt(lines, blocks, allowed, i, c)
    requires i < |lines| && c < |blocks| && blocks[c].start == i
    ensures IsAudio(lines[i])
    ensures blocks[c].fmts == MatchMLine(lines[i]).value.fmts && blocks[c].keep == KeepAt(lines[i..], allowed)
    ensures CursorAt(lines, blocks, allowed, i + 1, c)
  {
    AudioBlocksStart(lines, i + 1, allowed);
    var all := AudioBlocks(lines, i, allowed);
    assert blocks[c] == blocks[c..][0] == all[0];
    assert blocks[c] in all;
    assert blocks[c + 1..] == all[1..];
  }

  lemma NoAudioStart(lines: seq<string>, blocks: seq<Block>, allowed: set<string>, i: nat, c: nat)
    requires CursorAt(lines, blocks, allowed, i, c)
    requires i < |lines| && (c < |blocks| ==> i < blocks[c].end)
    requires !(IsMLine(lines[i]) && c < |blocks| && i == blocks[c].start)
    ensures !IsAudio(lines[i])
    ensures CursorAt(lines, blocks, allowed, i + 1, c)
    ensures Covering(blocks, i + 1, c) == Covering(blocks, i, c)
    ensures IsMLine(lines[i]) ==> Covering(blocks, i, c) == None
  {
    AudioBlocksStart(lines, i, allowed);
    AudioBlocksStart(lines, i + 1, allowed);
    var all := AudioBlocks(lines, i, allowed);
    assert lines[i..][1..] == lines[i + 1..];
    if IsMLine(lines[i]) {
      assert Body(lines[i..]) == [];
    } else {
      assert Body(lines[i..]) == [lines[i]] + Body(lines[i + 1..]);
    }
    if Covering(blocks, i, c).None? {
      assert c < |blocks| ==> blocks[c] == blocks[c..][0] == all[0];
      assert all == AudioBlocks(lines, i + 1, allowed);
      assert c < |blocks| ==> all[0] in all;
    }
  }

  // ------------------------------------------------------------- the filter

  lemma {:induction false} BailsOutInBlocks(lines: seq<string>, i: nat, allowed: set<string>)
    requires i <= |lines|
    ensures BailsOut(lines[i..], allowed) <==> exists b :: b in AudioBlocks(lines, i, allowed) && b.keep == {}
    decreases |lines| - i
  {
    if i < |lines| {
      BailsOutInBlocks(lines, i + 1, allowed);
      assert lines[i..][1..] == lines[i + 1..];
      var here := if IsAudio(lines[i]) then [AudioBlocks(lines, i, allowed)[0]] else [];
      assert AudioBlocks(lines, i, allowed) == here + AudioBlocks(lines, i + 1, allowed);
      assert IsAudio(lines[i]) ==> here[0] in AudioBlocks(lines, i, allowed);
    }
  }

  /** `filter_audio_codecs` */
  method FilterAudioCodecs(sdp: string, allowed: seq<string>, preserveDtmf: bool) returns (r: string)
    ensures r == Filtered(sdp, AllowedSet(allowed, preserveDtmf))
  {
    hide MatchMLine, Rewrite, BailsOut, AudioBlocks, Split, Find, Join;
    var names := set a | a in allowed && a != "" :: Lower(a);
    if names == {} {
      return sdp;
    }
    if preserveDtmf {
      names := names + {DTMF};
    }
    if sdp == "" {
      return sdp;
    }
    var lineSep := if Contains(sdp, CRLF) then CRLF else LF;
    var lines := Split(sdp, lineSep);
    var blocks := ScanAudioBlocks(lines, names);
    BailsOutInBlocks(lines, 0, names);
    assert lines[0..] == lines;
    for n := 0 to |blocks|
      invariant forall k :: 0 <= k < n ==> blocks[k].keep != {}
    {
      if blocks[n].keep == {} {
        return sdp;
      }
    }
    r := Emit(lines, blocks, names, lineSep);
  }
}
