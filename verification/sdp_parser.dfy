/** The SDP parser of the SIP log: one loop over the lines of a body with an
    open media section, and the specification as a fold. */
module SdpParser {
  import opened Text

  datatype Codec = Codec(pt: int, name: string, clockRate: int, fmtp: Option<string>)

  datatype Media = Media(kind: string, port: int, protocol: string, payloadTypes: seq<int>,
                         codecs: seq<Codec>, direction: string, rtcpPort: Option<int>)

  datatype Origin = Origin(username: string, ip: string)

  datatype Sdp = Sdp(version: int, origin: Option<Origin>, media: seq<Media>)

  /** The loop's variables. */
  datatype State = State(version: Option<int>, origin: Option<Origin>, media: seq<Media>, cur: Option<Media>)

  /** Static payload types of RFC 3551, section 6, with their clock rates. */
  function StaticCodec(pt: int): Option<(string, int)> {
    match pt
    case 0 => Some(("PCMU", 8000))
    case 3 => Some(("GSM", 8000))
    case 4 => Some(("G723", 8000))
    case 5 => Some(("DVI4", 8000))
    case 6 => Some(("DVI4", 16000))
    case 7 => Some(("LPC", 8000))
    case 8 => Some(("PCMA", 8000))
    case 9 => Some(("G722", 8000))
    case 10 => Some(("L16", 44100))
    case 11 => Some(("L16", 44100))
    case 12 => Some(("QCELP", 8000))
    case 13 => Some(("CN", 8000))
    case 14 => Some(("MPA", 90000))
    case 15 => Some(("G728", 8000))
    case 16 => Some(("DVI4", 11025))
    case 17 => Some(("DVI4", 22050))
    case 18 => Some(("G729", 8000))
    case _ => None
  }

  function NewCodec(pt: int): Codec {
    match StaticCodec(pt)
    case Some((name, rate)) => Codec(pt, name, rate, None)
    case None => Codec(pt, "", 0, None)
  }

  function NewCodecs(pts: seq<int>): (r: seq<Codec>)
    ensures |r| == |pts| && forall i :: 0 <= i < |pts| ==> r[i] == NewCodec(pts[i])
  {
    if pts == [] then [] else [NewCodec(pts[0])] + NewCodecs(pts[1..])
  }

  /** `[int(p) for p in ps]`, `None` when one of them is no number. */
  function Ints(ps: seq<string>): Option<seq<int>> {
    if ps == [] then Some([])
    else
      match (PyInt(ps[0]), Ints(ps[1..]))
      case (Some(n), Some(ns)) => Some([n] + ns)
      case _ => None
  }

  /** Text before and after the first `c`; nothing after when there is none. */
  function Partition(s: string, c: char): (r: (string, string))
    ensures c !in r.0
    ensures c in s ==> s == r.0 + [c] + r.1
    ensures c !in s ==> r == (s, "")
  {
    if s == "" then ("", "")
    else if s[0] == c then ("", s[1..])
    else
      assert s == [s[0]] + s[1..];
      var (a, b) := Partition(s[1..], c);
      ([s[0]] + a, b)
  }

  lemma PartitionCons(x: char, s: string, c: char)
    requires x != c
    ensures Partition([x] + s, c) == ([x] + Partition(s, c).0, Partition(s, c).1)
  {
    assert ([x] + s)[1..] == s;
  }

  /** `Partition` of a text that begins with a prefix without `c`. */
  lemma {:induction false} PartitionPrefix(p: string, c: char, t: string)
    requires c !in p
    ensures Partition(p + t, c) == (p + Partition(t, c).0, Partition(t, c).1)
  {
    hide Partition;
    var a := Partition(t, c).0;
    if p == "" {
      assert p + t == t && p + a == a;
    } else {
      PartitionPrefix(p[1..], c, t);
      PartitionCons(p[0], p[1..] + t, c);
      assert p + t == [p[0]] + (p[1..] + t);
      assert p + a == [p[0]] + (p[1..] + a);
    }
  }

  lemma PartitionAfter(p: string, c: char, t: string)
    requires c !in p
    ensures Partition(p + [c] + t, c) == (p, t)
  {
    hide Partition;
    PartitionPrefix(p, c, [c] + t);
    PartitionAtOnce(c, t);
    assert p + [c] + t == p + ([c] + t) && p + "" == p;
  }

  lemma PartitionAtOnce(c: char, t: string)
    ensures Partition([c] + t, c) == ("", t)
  {
    assert ([c] + t)[1..] == t;
  }

  /** `_new_media` */
  function NewMedia(value: string): Option<Media> {
    var parts := Tokens(value);
    if |parts| < 4 then None
    else
      match (PyInt(parts[1]), Ints(parts[3..]))
      case (Some(port), Some(pts)) =>
        Some(Media(parts[0], port, parts[2], pts, NewCodecs(pts), "sendrecv", None))
      case _ => None
  }

  function SetName(cs: seq<Codec>, pt: int, name: string, rate: int): (r: seq<Codec>)
    ensures |r| == |cs|
  {
    if cs == [] then []
    else if cs[0].pt == pt then [cs[0].(name := name, clockRate := rate)] + cs[1..]
    else [cs[0]] + SetName(cs[1..], pt, name, rate)
  }

  function SetFmtp(cs: seq<Codec>, pt: int, params: string): (r: seq<Codec>)
    ensures |r| == |cs|
  {
    if cs == [] then []
    else if cs[0].pt == pt then [cs[0].(fmtp := Some(params))] + cs[1..]
    else [cs[0]] + SetFmtp(cs[1..], pt, params)
  }

  datatype Mapping = Mapping(pt: int, name: string, rate: int)

  /** `<pt> <name>[/<rate>[/<channels>]]` */
  function ReadRtpmap(value: string): Option<Mapping> {
    if ' ' !in value then None
    else
      var (p, rest) := Partition(value, ' ');
      match PyInt(p)
      case None => None
      case Some(pt) =>
        var parts := Split(rest, "/");
        var rate := if |parts| > 1 && PyInt(parts[1]).Some? then PyInt(parts[1]).value else 0;
        Some(Mapping(pt, Strip(parts[0]), rate))
  }

  /** `<pt> <params>` */
  function ReadFmtp(value: string): Option<(int, string)> {
    if ' ' !in value then None
    else
      var (p, rest) := Partition(value, ' ');
      match PyInt(p)
      case None => None
      case Some(pt) => Some((pt, Strip(rest)))
  }

  predicate IsDirection(name: string) {
    name == "sendrecv" || name == "sendonly" || name == "recvonly" || name == "inactive"
  }

  /** An `a=` line inside a media section. */
  function Attribute(m: Media, value: string): Media {
    var (attr, val) := Partition(value, ':');
    var low := Lower(attr);
    if low == "rtpmap" then
      match ReadRtpmap(val)
      case Some(r) => m.(codecs := SetName(m.codecs, r.pt, r.name, r.rate))
      case None => m
    else if low == "fmtp" then
      match ReadFmtp(val)
      case Some((pt, params)) => m.(codecs := SetFmtp(m.codecs, pt, params))
      case None => m
    else if low == "rtcp" then
      var parts := Tokens(val);
      if parts != [] && PyInt(parts[0]).Some? then m.(rtcpPort := PyInt(parts[0])) else m
    else if IsDirection(low) then m.(direction := low)
    else m
  }

  /** Kind and value of a line, `None` for a line without `=`. */
  function Fields(raw: string): Option<(string, string)> {
    var line := Rstrip(raw);
    if '=' !in line then None else Some(Partition(line, '='))
  }

  function CloseMedia(st: State): seq<Media> {
    st.media + if st.cur.Some? then [st.cur.value] else []
  }

  function Step(st: State, raw: string): State {
    match Fields(raw)
    case None => st
    case Some((kind, value)) =>
      if kind == "v" then
        if PyInt(value).Some? then st.(version := PyInt(value)) else st
      else if kind == "o" then
        var parts := Tokens(value);
        if |parts| >= 6 then st.(origin := Some(Origin(parts[0], parts[5]))) else st
      else if kind == "m" then st.(media := CloseMedia(st), cur := NewMedia(value))
      else if kind == "a" && st.cur.Some? then st.(cur := Some(Attribute(st.cur.value, value)))
      else st
  }

  function Steps(ls: seq<string>, st: State): State {
    if ls == [] then st else Steps(ls[1..], Step(st, ls[0]))
  }

  const Start := State(None, None, [], None)

  function Finish(st: State): Option<Sdp> {
    var media := CloseMedia(st);
    if st.version.None? && media == [] then None
    else Some(Sdp(if st.version.Some? then st.version.value else 0, st.origin, media))
  }

  predicate HasVersionLine(ls: seq<string>) {
    exists l :: l in ls && "v=" <= l
  }

  function BodyLines(text: string): seq<string> {
    Split(Replace(text, CRLF, LF), LF)
  }

  function Parsed(text: string): Option<Sdp> {
    if text == "" || !Contains(text, "v=") || !HasVersionLine(BodyLines(text)) then None
    else Finish(Steps(BodyLines(text), Start))
  }

  // ------------------------------------------------------------- the loops

  /** The codec list of a new section. */
  method BuildCodecs(pts: seq<int>) returns (codecs: seq<Codec>)
    ensures codecs == NewCodecs(pts)
  {
    codecs := [];
    for i := 0 to |pts|
      invariant |codecs| == i
      invariant forall k :: 0 <= k < i ==> codecs[k] == NewCodec(pts[k])
    {
      codecs := codecs + [NewCodec(pts[i])];
    }
  }

  lemma {:induction false} SetNameFrom(cs: seq<Codec>, i: nat, pt: int, name: string, rate: int)
    requires i <= |cs| && forall k :: 0 <= k < i ==> cs[k].pt != pt
    ensures SetName(cs, pt, name, rate) == cs[..i] + SetName(cs[i..], pt, name, rate)
  {
    if i > 0 {
      SetNameFrom(cs[1..], i - 1, pt, name, rate);
      assert cs[1..][i - 1..] == cs[i..] && cs[..i] == [cs[0]] + cs[1..][..i - 1];
    }
  }

  lemma {:induction false} SetFmtpFrom(cs: seq<Codec>, i: nat, pt: int, params: string)
    requires i <= |cs| && forall k :: 0 <= k < i ==> cs[k].pt != pt
    ensures SetFmtp(cs, pt, params) == cs[..i] + SetFmtp(cs[i..], pt, params)
  {
    if i > 0 {
      SetFmtpFrom(cs[1..], i - 1, pt, params);
      assert cs[1..][i - 1..] == cs[i..] && cs[..i] == [cs[0]] + cs[1..][..i - 1];
    }
  }

  /** `_apply_rtpmap`: the first codec with the payload type is renamed. */
  method ApplyRtpmap(codecs: seq<Codec>, r: Mapping) returns (out: seq<Codec>)
    ensures out == SetName(codecs, r.pt, r.name, r.rate)
  {
    out := codecs;
    for i := 0 to |codecs|
      invariant out == codecs
      invariant forall k :: 0 <= k < i ==> codecs[k].pt != r.pt
    {
      if codecs[i].pt == r.pt {
        SetNameFrom(codecs, i, r.pt, r.name, r.rate);
        return codecs[i := codecs[i].(name := r.name, clockRate := r.rate)];
      }
    }
    SetNameFrom(codecs, |codecs|, r.pt, r.name, r.rate);
  }

  /** `_apply_fmtp` */
  method ApplyFmtp(codecs: seq<Codec>, pt: int, params: string) returns (out: seq<Codec>)
    ensures out == SetFmtp(codecs, pt, params)
  {
    out := codecs;
    for i := 0 to |codecs|
      invariant out == codecs
      invariant forall k :: 0 <= k < i ==> codecs[k].pt != pt
    {
      if codecs[i].pt == pt {
        SetFmtpFrom(codecs, i, pt, params);
        return codecs[i := codecs[i].(fmtp := Some(params))];
      }
    }
    SetFmtpFrom(codecs, |codecs|, pt, params);
  }

  /** The `m=` case of the loop. */
  method OpenMedia(value: string) returns (m: Option<Media>)
    ensures m == NewMedia(value)
  {
    var parts := Tokens(value);
    if |parts| < 4 {
      return None;
    }
    var port, pts := PyInt(parts[1]), Ints(parts[3..]);
    if port.None? || pts.None? {
      return None;
    }
    var codecs := BuildCodecs(pts.value);
    m := Some(Media(parts[0], port.value, parts[2], pts.value, codecs, "sendrecv", None));
  }

  /** The `a=` case of the loop. */
  method ApplyAttribute(m: Media, value: string) returns (r: Media)
    ensures r == Attribute(m, value)
  {
    hide Partition, ReadRtpmap, ReadFmtp, Tokens, PyInt, Lower;
    var (attr, val) := Partition(value, ':');
    var low := Lower(attr);
    r := m;
    if low == "rtpmap" {
      var map_ := ReadRtpmap(val);
      if map_.Some? {
        var codecs := ApplyRtpmap(m.codecs, map_.value);
        r := m.(codecs := codecs);
      }
    } else if low == "fmtp" {
      var f := ReadFmtp(val);
      if f.Some? {
        var codecs := ApplyFmtp(m.codecs, f.value.0, f.value.1);
        r := m.(codecs := codecs);
      }
    } else if low == "rtcp" {
      var parts := Tokens(val);
      if parts != [] {
        var port := PyInt(parts[0]);
        if port.Some? {
          r := m.(rtcpPort := port);
        }
      }
    } else if IsDirection(low) {
      r := m.(direction := low);
    }
  }

  lemma {:induction false} StepsAppend(ls: seq<string>, l: string, st: State)
    ensures Steps(ls + [l], st) == Step(Steps(ls, st), l)
  {
    hide Step;
    if ls == [] {
      assert [l][1..] == [];
    } else {
      assert (ls + [l])[1..] == ls[1..] + [l];
      StepsAppend(ls[1..], l, Step(st, ls[0]));
    }
  }

  /** `parse_sdp_body` */
  method ParseSdpBody(text: string) returns (r: Option<Sdp>)
    ensures r == Parsed(text)
  {
    hide Contains, Split, Replace, Tokens, PyInt, Attribute, NewMedia, Fields;
    if text == "" || !Contains(text, "v=") {
      return None;
    }
    var lines := Split(Replace(text, CRLF, LF), LF);
    if !HasVersionLine(lines) {
      return None;
    }
    var version: Option<int> := None;
    var origin: Option<Origin> := None;
    var media: seq<Media> := [];
    var currentMedia: Option<Media> := None;
    for i := 0 to |lines|
      invariant State(version, origin, media, currentMedia) == Steps(lines[..i], Start)
    {
      assert lines[..i + 1] == lines[..i] + [lines[i]];
      StepsAppend(lines[..i], lines[i], Start);
      var fields := Fields(lines[i]);
      if fields.None? {
        continue;
      }
      var (kind, value) := fields.value;
      if kind == "v" {
        var v := PyInt(value);
        if v.Some? {
          version := v;
        }
      } else if kind == "o" {
        var parts := Tokens(value);
        if |parts| >= 6 {
          origin := Some(Origin(parts[0], parts[5]));
        }
      } else if kind == "m" {
        if currentMedia.Some? {
          media := media + [currentMedia.value];
        }
        currentMedia := OpenMedia(value);
      } else if kind == "a" && currentMedia.Some? {
        var m := ApplyAttribute(currentMedia.value, value);
        currentMedia := Some(m);
      }
    }
    assert lines[..|lines|] == lines && media + [] == media;
    if currentMedia.Some? {
      media := media + [currentMedia.value];
    }
    if version.None? && media == [] {
      return None;
    }
    r := Some(Sdp(if version.Some? then version.value else 0, origin, media));
  }
}
