/** Which phone owns a log entry, and the log filtered for a phone. */
module LogOwner {
  import opened Text

  /** What is parsed from a log message. */
  datatype Metadata = Metadata(sipCallId: Option<string>, dumpRemote: Option<string>, viaPorts: seq<int>,
                               verb: Option<string>, fromUri: Option<string>, direction: Option<string>,
                               status: Option<int>, cseq: Option<int>)

  datatype PhoneMeta = PhoneMeta(username: Option<string>, localPort: Option<int>,
                                 sipCallIds: set<string>, remoteUris: set<string>)

  /** The table of phones, in its order. */
  type Phones = seq<(string, PhoneMeta)>

  // --------------------------------------------------------------- tracker

  /** Who a SIP Call-ID belongs to. */
  datatype Track = Track(phone: string, call: int, remote: string)

  /** `_track_sip_call_id` */
  function Tracked(index: map<string, Track>, id: string, t: Track): map<string, Track> {
    if id == "" then index else index[id := t]
  }

  /** The Call-IDs tracked to a phone. */
  function IdsOf(index: map<string, Track>, p: string): set<string> {
    if p == "" then {} else set id | id in index && index[id].phone == p
  }

  function RemotesOf(index: map<string, Track>, p: string): set<string> {
    if p == "" then {} else set id | id in index && index[id].phone == p && index[id].remote != "" :: index[id].remote
  }

  /** What the registry and the engine say of a phone. */
  datatype Identity = Identity(username: Option<string>, localPort: Option<int>)

  function MetaOf(index: map<string, Track>, p: string, who: Identity): PhoneMeta {
    PhoneMeta(who.username, who.localPort, IdsOf(index, p), RemotesOf(index, p))
  }

  function PhonesMeta(index: map<string, Track>, registered: seq<(string, Identity)>): Phones {
    seq(|registered|, i requires 0 <= i < |registered| =>
      (registered[i].0, MetaOf(index, registered[i].0, registered[i].1)))
  }

  /** What the grouping holds for one phone. */
  datatype Slot = Slot(ids: set<string>, remotes: set<string>)

  function SlotOf(slots: map<string, Slot>, p: string): Slot {
    if p in slots then slots[p] else Slot({}, {})
  }

  /** One tracked call enters the grouping; a call without a phone does not. */
  function Grouping(slots: map<string, Slot>, id: string, t: Track): map<string, Slot> {
    if t.phone == "" then slots
    else
      var s := SlotOf(slots, t.phone);
      slots[t.phone := Slot(s.ids + {id}, s.remotes + if t.remote != "" then {t.remote} else {})]
  }

  ghost predicate Grouped(done: map<string, Track>, slots: map<string, Slot>) {
    forall p :: SlotOf(slots, p) == Slot(IdsOf(done, p), RemotesOf(done, p))
  }

  lemma GroupedStep(done: map<string, Track>, slots: map<string, Slot>, id: string, t: Track)
    requires Grouped(done, slots) && id !in done
    ensures Grouped(done[id := t], Grouping(slots, id, t))
  {
    hide IdsOf, RemotesOf;
    forall p ensures SlotOf(Grouping(slots, id, t), p) == Slot(IdsOf(done[id := t], p), RemotesOf(done[id := t], p)) {
      assert SlotOf(slots, p) == Slot(IdsOf(done, p), RemotesOf(done, p));
      GroupedOne(done, id, t, p);
      assert IdsOf(done, p) + {} == IdsOf(done, p) && RemotesOf(done, p) + {} == RemotesOf(done, p);
    }
  }

  /** The first loop of `_build_phones_meta`: the tracker, grouped by phone. */
  method GroupByPhone(index: map<string, Track>) returns (slots: map<string, Slot>)
    ensures Grouped(index, slots)
  {
    hide Grouped, Grouping;
    slots := map[];
    ghost var done: map<string, Track> := map[];
    GroupedNone();
    var todo := index.Keys;
    while todo != {}
      invariant todo <= index.Keys && done == index - todo && Grouped(done, slots)
    {
      var id :| id in todo;
      GroupedStep(done, slots, id, index[id]);
      slots := Grouping(slots, id, index[id]);
      done := done[id := index[id]];
      todo := todo - {id};
    }
    assert index - {} == index;
  }

  lemma GroupedNone()
    ensures Grouped(map[], map[])
  {
  }

  lemma GroupedOne(done: map<string, Track>, id: string, t: Track, p: string)
    requires id !in done
    ensures IdsOf(done[id := t], p) == IdsOf(done, p) + if p != "" && t.phone == p then {id} else {}
    ensures RemotesOf(done[id := t], p) == RemotesOf(done, p) + if p != "" && t.phone == p && t.remote != "" then {t.remote} else {}
  {
    var next := done[id := t];
    assert forall k :: k in done ==> next[k] == done[k];
    forall r | r in RemotesOf(done, p) ensures r in RemotesOf(next, p) {
      var k :| k in done && done[k].phone == p && done[k].remote != "" && done[k].remote == r;
      assert k in next;
    }
    if p != "" && t.phone == p && t.remote != "" {
      assert id in next;
    }
  }

  /** `_build_phones_meta` */
  method BuildPhonesMeta(index: map<string, Track>, registered: seq<(string, Identity)>) returns (metas: Phones)
    ensures metas == PhonesMeta(index, registered)
  {
    hide IdsOf, RemotesOf;
    var slots := GroupByPhone(index);
    metas := [];
    for i := 0 to |registered|
      invariant |metas| == i && forall j :: 0 <= j < i ==>
        metas[j] == (registered[j].0, MetaOf(index, registered[j].0, registered[j].1))
    {
      var (p, who) := registered[i];
      var slot := SlotOf(slots, p);
      metas := metas + [(p, PhoneMeta(who.username, who.localPort, slot.ids, slot.remotes))];
    }
  }

  // ------------------------------------------------------------- ownership

  predicate Given(s: Option<string>) {
    s.Some? && s.value != ""
  }

  /** The signals, strongest first. */
  datatype Signal = ByCallId | ByDump | ByVia | ByRegister

  /** The message shows the signal for the phone; `norm` canonicalises a URI. */
  predicate Shows(signal: Signal, md: Metadata, m: PhoneMeta, norm: string -> string) {
    match signal
    case ByCallId => Given(md.sipCallId) && md.sipCallId.value in m.sipCallIds
    case ByDump => Given(md.dumpRemote) && exists u :: u in m.remoteUris && norm(u) == norm(md.dumpRemote.value)
    case ByVia => m.localPort.Some? && m.localPort.value != 0 && m.localPort.value in md.viaPorts
    case ByRegister =>
      md.verb == Some("REGISTER") && Given(md.fromUri) && Given(m.username)
      && Contains(md.fromUri.value, "sip:" + m.username.value + "@")
  }

  /** The first phone of the table that shows the signal. */
  function FirstPhone(signal: Signal, md: Metadata, phones: Phones, norm: string -> string): Option<string> {
    if phones == [] then None
    else if Shows(signal, md, phones[0].1, norm) then Some(phones[0].0)
    else FirstPhone(signal, md, phones[1..], norm)
  }

  function Else(a: Option<string>, b: Option<string>): Option<string> {
    if a.Some? then a else b
  }

  /** `_resolve_owner` */
  function Owner(md: Metadata, phones: Phones, norm: string -> string): Option<string> {
    Else(FirstPhone(ByCallId, md, phones, norm),
         Else(FirstPhone(ByDump, md, phones, norm),
              Else(FirstPhone(ByVia, md, phones, norm), FirstPhone(ByRegister, md, phones, norm))))
  }

  predicate Distinct(registered: seq<(string, Identity)>) {
    forall i, j :: 0 <= i < j < |registered| ==> registered[i].0 != registered[j].0
  }

  lemma {:induction false} FirstIs(signal: Signal, md: Metadata, phones: Phones, norm: string -> string, k: nat)
    requires k < |phones| && Shows(signal, md, phones[k].1, norm)
    requires forall i :: 0 <= i < |phones| && Shows(signal, md, phones[i].1, norm) ==> phones[i].0 == phones[k].0
    ensures FirstPhone(signal, md, phones, norm) == Some(phones[k].0)
  {
    hide Shows;
    if !Shows(signal, md, phones[0].1, norm) {
      assert forall i :: 0 <= i < |phones[1..]| ==> phones[1..][i] == phones[i + 1];
      FirstIs(signal, md, phones[1..], norm, k - 1);
    }
  }

  /** A tracked Call-ID of a registered phone resolves to that phone, whatever
      the order of the phones, the other signals in the message, and the rest
      of the tracker. */
  lemma TrackedCallResolves(index: map<string, Track>, registered: seq<(string, Identity)>, md: Metadata,
                            norm: string -> string, id: string, k: nat)
    requires Distinct(registered) && k < |registered| && registered[k].0 != ""
    requires id != "" && id in index && index[id].phone == registered[k].0 && md.sipCallId == Some(id)
    ensures Owner(md, PhonesMeta(index, registered), norm) == Some(registered[k].0)
  {
    var phones := PhonesMeta(index, registered);
    assert Shows(ByCallId, md, phones[k].1, norm);
    forall i | 0 <= i < |phones| && Shows(ByCallId, md, phones[i].1, norm) ensures phones[i].0 == phones[k].0 {
      assert id in IdsOf(index, registered[i].0);
    }
    FirstIs(ByCallId, md, phones, norm, k);
  }

  lemma {:induction false} FirstPhoneShows(signal: Signal, md: Metadata, phones: Phones, norm: string -> string)
    ensures FirstPhone(signal, md, phones, norm).None? <==>
            forall k :: 0 <= k < |phones| ==> !Shows(signal, md, phones[k].1, norm)
    ensures FirstPhone(signal, md, phones, norm).Some? ==>
            exists k :: 0 <= k < |phones| && Shows(signal, md, phones[k].1, norm)
                        && FirstPhone(signal, md, phones, norm) == Some(phones[k].0)
  {
    hide Shows;
    if phones != [] {
      FirstPhoneShows(signal, md, phones[1..], norm);
      assert forall k :: 1 <= k < |phones| ==> phones[k] == phones[1..][k - 1];
      if Shows(signal, md, phones[0].1, norm) {
        assert FirstPhone(signal, md, phones, norm) == Some(phones[0].0);
      } else if FirstPhone(signal, md, phones, norm).Some? {
        var k :| 0 <= k < |phones[1..]| && Shows(signal, md, phones[1..][k].1, norm)
                 && FirstPhone(signal, md, phones[1..], norm) == Some(phones[1..][k].0);
        assert phones[k + 1] == phones[1..][k];
      }
    }
  }

  predicate Stronger(a: Signal, b: Signal) {
    match b
    case ByCallId => false
    case ByDump => a.ByCallId?
    case ByVia => a.ByCallId? || a.ByDump?
    case ByRegister => !a.ByRegister?
  }

  /** An entry is without an owner exactly when no phone shows any signal; else
      its owner shows a signal, and no phone shows a stronger one. */
  lemma OwnerShowsStrongest(md: Metadata, phones: Phones, norm: string -> string)
    ensures Owner(md, phones, norm).None? <==>
            forall signal, k :: 0 <= k < |phones| ==> !Shows(signal, md, phones[k].1, norm)
    ensures Owner(md, phones, norm).Some? ==>
            exists signal, k :: 0 <= k < |phones| && Shows(signal, md, phones[k].1, norm)
              && Owner(md, phones, norm) == Some(phones[k].0)
              && forall other, j :: Stronger(other, signal) && 0 <= j < |phones| ==> !Shows(other, md, phones[j].1, norm)
  {
    hide Shows, FirstPhone;
    forall signal
      ensures FirstPhone(signal, md, phones, norm).None? <==>
              forall k :: 0 <= k < |phones| ==> !Shows(signal, md, phones[k].1, norm)
      ensures FirstPhone(signal, md, phones, norm).Some? ==>
              exists k :: 0 <= k < |phones| && Shows(signal, md, phones[k].1, norm)
                          && FirstPhone(signal, md, phones, norm) == Some(phones[k].0)
    {
      FirstPhoneShows(signal, md, phones, norm);
    }
    var strongest := if FirstPhone(ByCallId, md, phones, norm).Some? then ByCallId
                     else if FirstPhone(ByDump, md, phones, norm).Some? then ByDump
                     else if FirstPhone(ByVia, md, phones, norm).Some? then ByVia else ByRegister;
    if Owner(md, phones, norm).Some? {
      var k :| 0 <= k < |phones| && Shows(strongest, md, phones[k].1, norm)
               && FirstPhone(strongest, md, phones, norm) == Some(phones[k].0);
      assert forall other :: Stronger(other, strongest) ==> FirstPhone(other, md, phones, norm).None?;
    } else {
      forall signal, k | 0 <= k < |phones| ensures !Shows(signal, md, phones[k].1, norm) {
        assert signal == ByCallId || signal == ByDump || signal == ByVia || signal == ByRegister;
        FirstPhoneShows(signal, md, phones, norm);
      }
    }
  }

  /** The last call tracked under a Call-ID owns it, whoever had it before. */
  lemma LastTrackedOwns(index: map<string, Track>, registered: seq<(string, Identity)>, md: Metadata,
                        norm: string -> string, id: string, t: Track, k: nat)
    requires Distinct(registered) && k < |registered| && registered[k].0 != "" && id != "" && md.sipCallId == Some(id)
    requires t.phone == registered[k].0
    ensures Owner(md, PhonesMeta(Tracked(index, id, t), registered), norm) == Some(t.phone)
  {
    TrackedCallResolves(Tracked(index, id, t), registered, md, norm, id, k);
  }

  /** Whoever alone shows a signal that is not weaker than any other shown owns
      the entry. */
  lemma SoleOwner(signal: Signal, md: Metadata, phones: Phones, norm: string -> string, k: nat)
    requires k < |phones| && Shows(signal, md, phones[k].1, norm)
    requires forall other, i :: Stronger(other, signal) && 0 <= i < |phones| ==> !Shows(other, md, phones[i].1, norm)
    requires forall i :: 0 <= i < |phones| && Shows(signal, md, phones[i].1, norm) ==> phones[i].0 == phones[k].0
    ensures Owner(md, phones, norm) == Some(phones[k].0)
  {
    hide Shows, FirstPhone;
    FirstIs(signal, md, phones, norm, k);
    forall other | Stronger(other, signal) ensures FirstPhone(other, md, phones, norm) == None {
      FirstPhoneShows(other, md, phones, norm);
    }
    assert signal.ByDump? ==> Stronger(ByCallId, signal);
    assert signal.ByVia? ==> Stronger(ByCallId, signal) && Stronger(ByDump, signal);
    assert signal.ByRegister? ==> Stronger(ByCallId, signal) && Stronger(ByDump, signal) && Stronger(ByVia, signal);
  }

  /** A message with no Call-ID goes to the phone with a tracked call to the
      remote party of the dump, up to the canonical form of the address. */
  lemma DumpResolves(index: map<string, Track>, registered: seq<(string, Identity)>, md: Metadata,
                     norm: string -> string, id: string, k: nat)
    requires Distinct(registered) && k < |registered| && registered[k].0 != ""
    requires md.sipCallId == None && md.dumpRemote.Some? && md.dumpRemote.value != ""
    requires id in index && index[id].phone == registered[k].0 && index[id].remote != ""
    requires norm(index[id].remote) == norm(md.dumpRemote.value)
    requires forall other :: other in index && index[other].phone != registered[k].0 ==>
               norm(index[other].remote) != norm(md.dumpRemote.value)
    ensures Owner(md, PhonesMeta(index, registered), norm) == Some(registered[k].0)
  {
    var phones := PhonesMeta(index, registered);
    assert index[id].remote in RemotesOf(index, registered[k].0);
    assert Shows(ByDump, md, phones[k].1, norm);
    forall i | 0 <= i < |phones| && Shows(ByDump, md, phones[i].1, norm) ensures phones[i].0 == phones[k].0 {
      var u :| u in RemotesOf(index, registered[i].0) && norm(u) == norm(md.dumpRemote.value);
      var other :| other in index && index[other].phone == registered[i].0 && index[other].remote == u;
    }
    hide PhonesMeta, Owner;
    SoleOwner(ByDump, md, phones, norm, k);
  }

  /** A message without those goes to the phone whose local port its `Via` has. */
  lemma ViaPortResolves(index: map<string, Track>, registered: seq<(string, Identity)>, md: Metadata,
                        norm: string -> string, port: int, k: nat)
    requires k < |registered| && md.sipCallId == None && md.dumpRemote == None
    requires registered[k].1.localPort == Some(port) && port != 0 && port in md.viaPorts
    requires forall i :: 0 <= i < |registered| && i != k && registered[i].1.localPort.Some? ==>
               registered[i].1.localPort.value !in md.viaPorts
    ensures Owner(md, PhonesMeta(index, registered), norm) == Some(registered[k].0)
  {
    hide IdsOf, RemotesOf, Owner;
    SoleOwner(ByVia, md, PhonesMeta(index, registered), norm, k);
  }

  /** A REGISTER without those goes to the phone whose user its `From` names. */
  lemma RegisterResolves(index: map<string, Track>, registered: seq<(string, Identity)>, md: Metadata,
                         norm: string -> string, user: string, k: nat)
    requires k < |registered| && md.sipCallId == None && md.dumpRemote == None && md.viaPorts == []
    requires md.verb == Some("REGISTER") && registered[k].1.username == Some(user) && user != ""
    requires md.fromUri.Some? && Contains(md.fromUri.value, "sip:" + user + "@")
    requires forall i :: 0 <= i < |registered| && i != k && registered[i].1.username.Some? ==>
               !Contains(md.fromUri.value, "sip:" + registered[i].1.username.value + "@")
    ensures Owner(md, PhonesMeta(index, registered), norm) == Some(registered[k].0)
  {
    hide IdsOf, RemotesOf, Owner;
    NotEmptyIfContains(md.fromUri.value, "sip:" + user + "@");
    SoleOwner(ByRegister, md, PhonesMeta(index, registered), norm, k);
  }

  lemma NotEmptyIfContains(s: string, sep: string)
    requires sep != "" && Contains(s, sep)
    ensures s != ""
  {
  }

  // ------------------------------------------------------------- filtering

  /** The filters of one query. */
  datatype Query = Query(phone: Option<string>, sipCallId: Option<string>, verb: Option<string>,
                         direction: Option<string>, status: Option<int>, cseq: Option<int>)

  /** How an entry fares: dropped, kept, or kept by the username alone. */
  datatype Verdict = Dropped | Kept | ByUsername

  predicate PassesFields(q: Query, md: Metadata) {
    && (q.verb.Some? ==> md.verb == q.verb) && (q.direction.Some? ==> md.direction == q.direction)
    && (q.status.Some? ==> md.status == q.status) && (q.cseq.Some? ==> md.cseq == q.cseq)
    && (q.sipCallId.Some? ==> md.sipCallId == q.sipCallId)
  }

  function MetaFor(phones: Phones, p: string): Option<PhoneMeta> {
    if phones == [] then None else if phones[0].0 == p then Some(phones[0].1) else MetaFor(phones[1..], p)
  }

  /** The username of the phone asked for occurs in the message. */
  predicate Mentions(q: Query, phones: Phones, msg: string)
    requires q.phone.Some?
  {
    var meta := if q.phone.value != "" then MetaFor(phones, q.phone.value) else None;
    meta.Some? && Given(meta.value.username) && Contains(msg, "sip:" + meta.value.username.value + "@")
  }

  function Judge(q: Query, phones: Phones, norm: string -> string, md: Metadata, msg: string): Verdict {
    if !PassesFields(q, md) then Dropped
    else if q.phone.None? then Kept
    else
      var owner := Owner(md, phones, norm);
      if owner == q.phone then Kept
      else if owner.None? && Mentions(q, phones, msg) then ByUsername
      else Dropped
  }

  function KeptOf(q: Query, phones: Phones, norm: string -> string, parse: string -> Metadata, log: seq<string>): seq<string> {
    if log == [] then []
    else
      var msg := log[|log| - 1];
      KeptOf(q, phones, norm, parse, log[..|log| - 1])
      + if Judge(q, phones, norm, parse(msg), msg).Dropped? then [] else [msg]
  }

  function FallbacksOf(q: Query, phones: Phones, norm: string -> string, parse: string -> Metadata, log: seq<string>): nat {
    if log == [] then 0
    else
      var msg := log[|log| - 1];
      FallbacksOf(q, phones, norm, parse, log[..|log| - 1])
      + if Judge(q, phones, norm, parse(msg), msg).ByUsername? then 1 else 0
  }

  predicate NoFilters(q: Query) {
    q == Query(None, None, None, None, None, None)
  }

  /** `filter_entries_by_owner` */
  method FilterEntries(q: Query, phones: Phones, norm: string -> string, parse: string -> Metadata, log: seq<string>)
    returns (kept: seq<string>, fallbacks: nat)
    ensures kept == KeptOf(q, phones, norm, parse, log)
    ensures fallbacks == FallbacksOf(q, phones, norm, parse, log)
  {
    hide Owner, Mentions;
    if NoFilters(q) {
      AllKept(q, phones, norm, parse, log);
      return log, 0;
    }
    kept, fallbacks := [], 0;
    for i := 0 to |log|
      invariant kept == KeptOf(q, phones, norm, parse, log[..i])
      invariant fallbacks == FallbacksOf(q, phones, norm, parse, log[..i])
    {
      assert log[..i + 1][..i] == log[..i];
      var msg := log[i];
      var md := parse(msg);
      if !PassesFields(q, md) {
        continue;
      }
      if q.phone.None? {
        kept := kept + [msg];
        continue;
      }
      var owner := Owner(md, phones, norm);
      if owner == q.phone {
        kept := kept + [msg];
      } else if owner.None? {
        if Mentions(q, phones, msg) {
          kept := kept + [msg];
          fallbacks := fallbacks + 1;
        }
      }
    }
    assert log[..|log|] == log;
  }

  lemma {:induction false} AllKept(q: Query, phones: Phones, norm: string -> string, parse: string -> Metadata, log: seq<string>)
    requires NoFilters(q)
    ensures KeptOf(q, phones, norm, parse, log) == log && FallbacksOf(q, phones, norm, parse, log) == 0
  {
    if log != [] {
      AllKept(q, phones, norm, parse, log[..|log| - 1]);
      assert log == log[..|log| - 1] + [log[|log| - 1]];
    }
  }

  lemma {:induction false} MetaForIs(phones: Phones, k: nat)
    requires k < |phones| && forall i :: 0 <= i < k ==> phones[i].0 != phones[k].0
    ensures MetaFor(phones, phones[k].0) == Some(phones[k].1)
  {
    if k > 0 {
      assert forall i :: 1 <= i < |phones| ==> phones[i] == phones[1..][i - 1];
      MetaForIs(phones[1..], k - 1);
    }
  }

  /** An entry is kept for a registered phone if and only if each field asked
      for is as asked, and the phone owns the entry, or nobody does and the
      message has `sip:<its user>@`, and then as a fallback. */
  lemma JudgedIff(index: map<string, Track>, registered: seq<(string, Identity)>, norm: string -> string, q: Query,
                  md: Metadata, msg: string, k: nat)
    requires Distinct(registered) && k < |registered| && registered[k].0 != "" && q.phone == Some(registered[k].0)
    ensures var owner, user := Owner(md, PhonesMeta(index, registered), norm), registered[k].1.username;
            Judge(q, PhonesMeta(index, registered), norm, md, msg) ==
            if (q.verb.Some? && q.verb != md.verb) || (q.direction.Some? && q.direction != md.direction)
               || (q.status.Some? && q.status != md.status) || (q.cseq.Some? && q.cseq != md.cseq)
               || (q.sipCallId.Some? && q.sipCallId != md.sipCallId) then Dropped
            else if owner == Some(registered[k].0) then Kept
            else if owner == None && user.Some? && user.value != "" && Contains(msg, "sip:" + user.value + "@")
            then ByUsername else Dropped
  {
    hide Owner, IdsOf, RemotesOf;
    MetaForIs(PhonesMeta(index, registered), k);
  }

  /** The log is filtered entry by entry: two logs in turn as their whole, and
      one entry as it is judged. */
  lemma {:induction false} KeptOfParts(q: Query, phones: Phones, norm: string -> string, parse: string -> Metadata,
                                       a: seq<string>, b: seq<string>, msg: string)
    ensures KeptOf(q, phones, norm, parse, a + b) == KeptOf(q, phones, norm, parse, a) + KeptOf(q, phones, norm, parse, b)
    ensures FallbacksOf(q, phones, norm, parse, a + b) ==
            FallbacksOf(q, phones, norm, parse, a) + FallbacksOf(q, phones, norm, parse, b)
    ensures KeptOf(q, phones, norm, parse, [msg]) == if Judge(q, phones, norm, parse(msg), msg).Dropped? then [] else [msg]
    ensures FallbacksOf(q, phones, norm, parse, [msg]) == if Judge(q, phones, norm, parse(msg), msg).ByUsername? then 1 else 0
  {
    hide Judge;
    assert [msg][..0] == [];
    if b == [] {
      assert a + b == a;
    } else {
      KeptOfParts(q, phones, norm, parse, a, b[..|b| - 1], msg);
      assert (a + b)[..|a + b| - 1] == a + b[..|b| - 1];
    }
  }

  predicate Subsequence(xs: seq<string>, ys: seq<string>) {
    if xs == [] then true
    else if ys == [] then false
    else if xs[|xs| - 1] == ys[|ys| - 1] then Subsequence(xs[..|xs| - 1], ys[..|ys| - 1])
    else Subsequence(xs, ys[..|ys| - 1])
  }

  lemma {:induction false} ShorterSubsequence(xs: seq<string>, ys: seq<string>)
    requires Subsequence(xs, ys)
    ensures xs != [] ==> Subsequence(xs[..|xs| - 1], ys)
    decreases |ys|
  {
    if xs != [] && ys != [] {
      var x, y := xs[..|xs| - 1], ys[..|ys| - 1];
      if xs[|xs| - 1] == ys[|ys| - 1] {
        if x != [] && x[|x| - 1] == ys[|ys| - 1] {
          ShorterSubsequence(x, y);
        }
      } else {
        ShorterSubsequence(xs, y);
        if x != [] && x[|x| - 1] == ys[|ys| - 1] {
          ShorterSubsequence(x, y);
        }
      }
    }
  }

  lemma SubsequenceSnoc(xs: seq<string>, ys: seq<string>, y: string)
    requires Subsequence(xs, ys)
    ensures Subsequence(xs, ys + [y]) && Subsequence(xs + [y], ys + [y])
  {
    assert (ys + [y])[..|ys|] == ys && (xs + [y])[..|xs|] == xs;
    ShorterSubsequence(xs, ys);
  }

  /** A filtered log is a subsequence of the log. */
  lemma {:induction false} KeptIsSubsequence(q: Query, phones: Phones, norm: string -> string, parse: string -> Metadata, log: seq<string>)
    ensures Subsequence(KeptOf(q, phones, norm, parse, log), log)
    ensures FallbacksOf(q, phones, norm, parse, log) <= |KeptOf(q, phones, norm, parse, log)| <= |log|
  {
    hide Judge;
    if log != [] {
      var before, earlier := log[..|log| - 1], KeptOf(q, phones, norm, parse, log[..|log| - 1]);
      KeptIsSubsequence(q, phones, norm, parse, before);
      assert log == before + [log[|log| - 1]] && earlier + [] == earlier;
      SubsequenceSnoc(earlier, before, log[|log| - 1]);
    }
  }

  /** How many entries of the log both queries keep. */
  function SharedOf(q: Query, r: Query, phones: Phones, norm: string -> string, parse: string -> Metadata,
                    log: seq<string>): nat {
    if log == [] then 0
    else
      var msg := log[|log| - 1];
      SharedOf(q, r, phones, norm, parse, log[..|log| - 1])
      + if Judge(q, phones, norm, parse(msg), msg).Dropped? || Judge(r, phones, norm, parse(msg), msg).Dropped?
        then 0 else 1
  }

  /** An entry in the logs of two phones is in both by the username alone: no
      signal says whose it is. */
  lemma SharedHasNoOwner(q: Query, r: Query, phones: Phones, norm: string -> string, md: Metadata, msg: string)
    requires q.phone.Some? && r.phone.Some? && q.phone != r.phone
    requires !Judge(q, phones, norm, md, msg).Dropped? && !Judge(r, phones, norm, md, msg).Dropped?
    ensures Judge(q, phones, norm, md, msg).ByUsername? && Judge(r, phones, norm, md, msg).ByUsername?
    ensures Owner(md, phones, norm).None?
  {
    hide Owner, Mentions, PassesFields;
  }

  /** The logs of two phones overlap in username matches only: the entries in
      both are among the fallbacks that each reports, and the other entries of
      the two logs are different entries of the whole.  Without fallbacks the
      two logs are disjoint. */
  lemma {:induction false} SharedAreFallbacks(q: Query, r: Query, phones: Phones, norm: string -> string,
                                              parse: string -> Metadata, log: seq<string>)
    requires q.phone.Some? && r.phone.Some? && q.phone != r.phone
    ensures var shared := SharedOf(q, r, phones, norm, parse, log);
            && shared <= FallbacksOf(q, phones, norm, parse, log)
            && shared <= FallbacksOf(r, phones, norm, parse, log)
            && |KeptOf(q, phones, norm, parse, log)| + |KeptOf(r, phones, norm, parse, log)| - shared <= |log|
  {
    hide Judge;
    if log != [] {
      var msg := log[|log| - 1];
      SharedAreFallbacks(q, r, phones, norm, parse, log[..|log| - 1]);
      if !Judge(q, phones, norm, parse(msg), msg).Dropped? && !Judge(r, phones, norm, parse(msg), msg).Dropped? {
        SharedHasNoOwner(q, r, phones, norm, parse(msg), msg);
      }
    }
  }

  /** The log of a phone has every entry of its tracked calls, and none of
      another registered phone's. */
  lemma TrackedCallInOwnLog(index: map<string, Track>, registered: seq<(string, Identity)>, md: Metadata,
                            norm: string -> string, id: string, k: nat, q: Query, msg: string)
    requires Distinct(registered) && k < |registered| && registered[k].0 != ""
    requires id != "" && id in index && index[id].phone == registered[k].0 && md.sipCallId == Some(id)
    requires q.phone.Some? && PassesFields(q, md)
    ensures Judge(q, PhonesMeta(index, registered), norm, md, msg) ==
            if q.phone == Some(registered[k].0) then Kept else Dropped
  {
    hide Owner, Mentions, PhonesMeta, PassesFields;
    TrackedCallResolves(index, registered, md, norm, id, k);
  }
}
