/** What holds in every reachable state of the phone system. */
module PhoneInvariants {
  import opened Text
  import opened CallMedia
  import opened PhoneSystem

  // ----------------------------------------------------------- invariants

  /** The two call tables have the same keys; every tracked call is live and
      belongs to a registered phone. */
  ghost predicate TablesAgree(accounts: set<string>, calls: map<int, Call>, owner: map<int, string>, order: seq<int>) {
    && calls.Keys == owner.Keys
    && NoDup(order) && (forall cid :: cid in order <==> cid in calls)
    && (forall cid :: cid in calls ==> TrackedCall(calls[cid], owner[cid], accounts))
  }

  ghost predicate TrackedCall(c: Call, p: string, accounts: set<string>) {
    p in accounts && c.phone == p && !c.disconnected && CallInvariant(c)
  }

  /** The open transports are those of the registered phones, one each. */
  ghost predicate TransportsMatch(configs: map<string, Config>, transports: set<nat>) {
    && (forall p :: p in configs ==> configs[p].transportId in transports)
    && (forall t :: t in transports ==> exists p :: p in configs && configs[p].transportId == t)
    && (forall p, q :: p in configs && q in configs && configs[p].transportId == configs[q].transportId ==> p == q)
  }

  /** Each incoming queue is duplicate-free and holds tracked calls of its phone. */
  ghost predicate QueuesOwned(incoming: map<string, seq<int>>, owner: map<int, string>) {
    forall p :: p in incoming ==> QueueOwned(incoming[p], p, owner)
  }

  ghost predicate QueueOwned(q: seq<int>, p: string, owner: map<int, string>) {
    NoDup(q) && forall cid :: cid in q ==> cid in owner && owner[cid] == p
  }

  /** Each tracked call has its phone's current codec list and recording flag. */
  ghost predicate FollowsConfig(calls: map<int, Call>, configs: map<string, Config>) {
    forall cid :: cid in calls && calls[cid].phone in configs ==> SameSettings(calls[cid], configs[calls[cid].phone])
  }

  ghost predicate SameSettings(c: Call, cfg: Config) {
    c.codecs == Normal(cfg.codecs) && c.recordingEnabled == cfg.recording
  }

  /** The tracked calls of a phone that went audio-active. */
  function Counted(calls: map<int, Call>, p: string): set<int> {
    set cid | cid in calls && calls[cid].phone == p && calls[cid].counted
  }

  /** The counters are positive, belong to registered phones, and never exceed
      the number of tracked calls that went active. */
  ghost predicate CountersBounded(active: map<string, int>, accounts: set<string>, calls: map<int, Call>) {
    forall p :: p in active ==> p in accounts && 0 < active[p] <= |Counted(calls, p)|
  }

  ghost predicate Invariant(w: World) {
    && w.accounts == w.configs.Keys
    && TablesAgree(w.accounts, w.calls, w.owner, w.order)
    && TransportsMatch(w.configs, w.transports)
    && QueuesOwned(w.incoming, w.owner)
    && FollowsConfig(w.calls, w.configs)
    && CountersBounded(w.active, w.accounts, w.calls)
  }

  lemma {:induction false} SubsetSize<T>(a: set<T>, b: set<T>)
    requires a <= b
    ensures |a| <= |b|
  {
    if a != {} {
      var x :| x in a;
      SubsetSize(a - {x}, b - {x});
    }
  }

  // -------------------------------------------------- a call changes itself

  /** What a step on one call must leave alone. */
  ghost predicate SameCall(c: Call, d: Call) {
    d.phone == c.phone && d.codecs == c.codecs && d.recordingEnabled == c.recordingEnabled
    && (c.counted ==> d.counted) && !d.disconnected && CallInvariant(d)
  }

  lemma CallReplaced(w: World, cid: int, d: Call)
    requires Invariant(w) && cid in w.calls && SameCall(w.calls[cid], d)
    ensures Invariant(WithCall(w, cid, d))
  {
    hide CallInvariant, TransportsMatch, QueuesOwned, Counted, NoDup, Normal;
    CountersGrow(w.active, w.accounts, w.calls, cid, d);
  }

  lemma CountersGrow(active: map<string, int>, accounts: set<string>, calls: map<int, Call>, cid: int, d: Call)
    requires CountersBounded(active, accounts, calls)
    requires cid in calls ==> d.phone == calls[cid].phone && (calls[cid].counted ==> d.counted)
    ensures CountersBounded(active, accounts, calls[cid := d])
  {
    forall p | p in active ensures active[p] <= |Counted(calls[cid := d], p)| {
      CountedGrows(calls, cid, d, p);
    }
  }

  lemma CountedGrows(calls: map<int, Call>, cid: int, d: Call, p: string)
    requires cid in calls ==> d.phone == calls[cid].phone && (calls[cid].counted ==> d.counted)
    ensures Counted(calls, p) <= Counted(calls[cid := d], p)
    ensures |Counted(calls, p)| <= |Counted(calls[cid := d], p)|
    ensures cid in calls && !calls[cid].counted && d.counted && p == d.phone ==>
      |Counted(calls[cid := d], p)| == |Counted(calls, p)| + 1
  {
    var a, b := Counted(calls, p), Counted(calls[cid := d], p);
    SubsetSize(a, b);
    if cid in calls && !calls[cid].counted && d.counted && p == d.phone {
      assert b == a + {cid};
    }
  }

  lemma MediaChangeKeeps(w: World, cid: int, streams: seq<Stream>)
    requires Invariant(w) && cid in w.calls
    ensures Invariant(CallMediaState(w, cid, streams))
  {
    hide MediaState, CallInvariant, CountersBounded, TransportsMatch, QueuesOwned, FollowsConfig, NoDup;
    var c, d := w.calls[cid], MediaState(w.calls[cid], cid, streams);
    assert TrackedCall(c, w.owner[cid], w.accounts);
    MediaKeepsInvariant(c, cid, streams);
    CallReplaced(w, cid, d);
    if !c.counted && d.counted {
      CountersRise(w.active, w.accounts, w.calls, cid, d);
    }
  }

  lemma CountersRise(active: map<string, int>, accounts: set<string>, calls: map<int, Call>, cid: int, d: Call)
    requires CountersBounded(active, accounts, calls)
    requires cid in calls && d.phone == calls[cid].phone && !calls[cid].counted && d.counted && d.phone in accounts
    ensures CountersBounded(active[d.phone := (if d.phone in active then active[d.phone] else 0) + 1], accounts,
                            calls[cid := d])
  {
    hide Counted;
    var r := active[d.phone := (if d.phone in active then active[d.phone] else 0) + 1];
    forall p | p in r ensures p in accounts && 0 < r[p] <= |Counted(calls[cid := d], p)| {
      CountedGrows(calls, cid, d, p);
    }
  }

  lemma PlayKeeps(w: World, cid: int, path: string, mohExists: bool)
    requires Invariant(w) && cid in w.calls
    ensures Invariant(WithCall(w, cid, PlayFile(w.calls[cid], path)))
    ensures Invariant(WithCall(w, cid, StopPlayback(w.calls[cid], mohExists)))
  {
    hide Invariant, PlayFile, StopPlayback;
    CallIsTracked(w, cid);
    PlayIsSameCall(w.calls[cid], path, mohExists);
    CallReplaced(w, cid, PlayFile(w.calls[cid], path));
    CallReplaced(w, cid, StopPlayback(w.calls[cid], mohExists));
  }

  lemma CallIsTracked(w: World, cid: int)
    requires Invariant(w) && cid in w.calls
    ensures cid in w.owner && TrackedCall(w.calls[cid], w.owner[cid], w.accounts)
  {
    hide TrackedCall, NoDup;
  }

  lemma PlayIsSameCall(c: Call, path: string, mohExists: bool)
    requires CallInvariant(c) && !c.disconnected
    ensures SameCall(c, PlayFile(c, path)) && SameCall(c, StopPlayback(c, mohExists))
  {
    StepKeepsInvariant(c, 0, PlayAudio(path));
    StepKeepsInvariant(c, 0, StopAudio(mohExists));
  }

  // ------------------------------------------------------ calls come and go

  lemma NewCallIsFine(p: string, cfg: Config, accounts: set<string>)
    requires p in accounts
    ensures var c := NewCall(p, cfg.codecs, cfg.recording);
            TrackedCall(c, p, accounts) && SameSettings(c, cfg) && c.phone == p && !c.counted
  {
  }

  lemma TrackKeeps(w: World, p: string, cid: int)
    requires Invariant(w) && p in w.accounts && cid !in w.calls
    ensures Invariant(Track(w, p, cid))
  {
    hide TrackedCall, SameSettings, TransportsMatch, Counted, NewCall, QueueOwned;
    var c := NewCall(p, w.configs[p].codecs, w.configs[p].recording);
    NewCallIsFine(p, w.configs[p], w.accounts);
    CountersGrow(w.active, w.accounts, w.calls, cid, c);
    forall q | q in w.incoming ensures QueueOwned(w.incoming[q], q, w.owner[cid := p]) {
      QueueOfOthers(w.incoming[q], q, w.owner, cid, p);
    }
    assert cid !in w.order;
  }

  lemma QueueOfOthers(q: seq<int>, p: string, owner: map<int, string>, cid: int, r: string)
    requires QueueOwned(q, p, owner) && cid !in owner
    ensures QueueOwned(q, p, owner[cid := r]) && cid !in q
  {
  }

  lemma IncomingKeeps(w: World, p: string, cid: int)
    requires Invariant(w) && cid !in w.calls
    ensures Invariant(IncomingCall(w, p, cid))
  {
    hide TablesAgree, TransportsMatch, FollowsConfig, CountersBounded, QueueOwned;
    if p in w.accounts {
      TrackKeeps(w, p, cid);
      assert cid !in w.owner by { CallIffOwned(w, cid); }
      assert QueuesOwned(Queued(w.incoming, p, cid), w.owner[cid := p]) by {
        QueueGrows(w.incoming, w.owner, p, cid);
      }
    }
  }

  lemma CallIffOwned(w: World, cid: int)
    requires Invariant(w)
    ensures cid in w.calls <==> cid in w.owner
  {
    hide NoDup, TrackedCall;
  }

  lemma QueueGrows(incoming: map<string, seq<int>>, owner: map<int, string>, p: string, cid: int)
    requires QueuesOwned(incoming, owner) && cid !in owner
    ensures QueuesOwned(Queued(incoming, p, cid), owner[cid := p])
  {
    hide QueueOwned;
    var o := owner[cid := p];
    forall q | q in incoming ensures QueueOwned(incoming[q], q, o) && cid !in incoming[q] {
      QueueOfOthers(incoming[q], q, owner, cid, p);
    }
    var old_ := if p in incoming then incoming[p] else [];
    assert QueueOwned(old_, p, o) && cid !in old_ by { EmptyQueue(p, o); }
    QueueAppend(old_, p, o, cid);
  }

  lemma EmptyQueue(p: string, owner: map<int, string>)
    ensures QueueOwned([], p, owner)
  {
  }

  lemma QueueAppend(q: seq<int>, p: string, owner: map<int, string>, cid: int)
    requires QueueOwned(q, p, owner) && cid !in q && cid in owner && owner[cid] == p
    ensures QueueOwned(q + [cid], p, owner)
  {
  }

  /** Forgetting some calls keeps the tables. */
  lemma ForgetKeeps(accounts: set<string>, w: World, gone: set<int>)
    requires TablesAgree(w.accounts, w.calls, w.owner, w.order) && FollowsConfig(w.calls, w.configs)
    requires accounts <= w.accounts
    requires forall cid :: cid in w.owner && w.owner[cid] !in accounts ==> cid in gone
    ensures var v := Forget(w, gone);
            TablesAgree(accounts, v.calls, v.owner, v.order) && FollowsConfig(v.calls, w.configs)
  {
    hide CallInvariant, SameSettings, NoDup;
    KeepingNoDup(w.order, w.calls.Keys - gone);
    assert forall cid :: cid in w.calls && cid !in gone ==> TrackedCall(w.calls[cid], w.owner[cid], w.accounts);
  }

  lemma QueuesShrink(incoming: map<string, seq<int>>, owner: map<int, string>, gone: set<int>)
    requires QueuesOwned(incoming, owner)
    ensures QueuesOwned(QueuesWithin(incoming, owner.Keys - gone), owner - gone)
  {
    forall q | q in incoming ensures NoDup(Keeping(incoming[q], owner.Keys - gone)) {
      KeepingNoDup(incoming[q], owner.Keys - gone);
    }
  }

  /** What remains after a disconnect: the call is gone, all else is as before. */
  lemma EndedCalls(w: World, cid: int)
    requires Invariant(w) && cid in w.calls
    ensures var x := CallDisconnected(w, cid);
            && x.calls == w.calls - {cid} && x.owner == w.owner - {cid}
            && x.order == Keeping(w.order, w.calls.Keys - {cid})
            && x.incoming == QueuesWithin(w.incoming, w.owner.Keys - {cid})
            && x.accounts == w.accounts && x.configs == w.configs && x.transports == w.transports
            && x.autoAnswer == w.autoAnswer
  {
    hide Disconnect, Keeping, Invariant, QueuesWithin, Stale, CountDown, Forget;
    OnlyEnded(w, cid);
    KeysAgree(w);
    var m := w.(calls := w.calls[cid := Disconnect(w.calls[cid])]);
    ForgetFields(m, {cid});
    WithoutEnded(w.calls, cid, Disconnect(w.calls[cid]));
    CountDownFields(Forget(m, {cid}).(incoming := QueuesWithin(m.incoming, m.calls.Keys - {cid})), w.calls[cid].phone);
  }

  lemma WithoutEnded(calls: map<int, Call>, cid: int, c: Call)
    requires cid in calls
    ensures calls[cid := c] - {cid} == calls - {cid} && calls[cid := c].Keys == calls.Keys
  {
  }

  lemma ForgetFields(w: World, gone: set<int>)
    ensures var x := Forget(w, gone);
            && x.calls == w.calls - gone && x.owner == w.owner - gone
            && x.order == Keeping(w.order, w.calls.Keys - gone)
            && x == w.(calls := x.calls, owner := x.owner, order := x.order)
  {
    hide Keeping;
  }

  /** Counting down touches the counter and the stop queue only. */
  lemma CountDownFields(w: World, p: string)
    ensures var x := CountDown(w, p); x == w.(active := x.active, stops := x.stops)
  {
  }

  /** The disconnected call is the only one that is stale. */
  lemma OnlyEnded(w: World, cid: int)
    requires Invariant(w) && cid in w.calls
    ensures Stale(w.(calls := w.calls[cid := Disconnect(w.calls[cid])])) == {cid}
  {
    hide CallInvariant, Disconnect, NoDup, QueuesOwned, TransportsMatch, FollowsConfig, CountersBounded;
    DisconnectedIs(w.calls[cid]);
    assert forall k :: k in w.calls ==> TrackedCall(w.calls[k], w.owner[k], w.accounts);
  }

  lemma DisconnectedIs(c: Call)
    ensures Disconnect(c).disconnected
  {
  }

  lemma EndedKeeps(w: World, cid: int)
    requires Invariant(w) && cid in w.calls
    ensures Invariant(CallDisconnected(w, cid))
  {
    hide TrackedCall, Keeping, CallDisconnected, TransportsMatch, SameSettings, CountersBounded, NoDup;
    CallIsTracked(w, cid);
    EndedCalls(w, cid);
    QueuesShrink(w.incoming, w.owner, {cid});
    OwnersRegistered(w);
    ForgetKeeps(w.accounts, w, {cid});
    CountersAfterEnd(w, cid);
  }

  lemma CountersAfterEnd(w: World, cid: int)
    requires Invariant(w) && cid in w.calls
    ensures var x := CallDisconnected(w, cid);
            && x.active == (var p := w.calls[cid].phone;
                            if p !in w.active then w.active
                            else if w.active[p] - 1 > 0 then w.active[p := w.active[p] - 1]
                            else w.active - {p})
            && CountersBounded(x.active, x.accounts, x.calls)
  {
    hide TablesAgree, QueuesOwned, TransportsMatch, FollowsConfig, Disconnect, Keeping, Counted;
    EndedCalls(w, cid);
    forall q ensures |Counted(w.calls - {cid}, q)| >= |Counted(w.calls, q)| - (if q == w.calls[cid].phone then 1 else 0) {
      CountedFalls(w.calls, cid, q);
    }
  }

  lemma CountedFalls(calls: map<int, Call>, cid: int, q: string)
    requires cid in calls
    ensures |Counted(calls - {cid}, q)| ==
            |Counted(calls, q)| - (if q == calls[cid].phone && calls[cid].counted then 1 else 0)
  {
    var a, b := Counted(calls, q), Counted(calls - {cid}, q);
    if q == calls[cid].phone && calls[cid].counted {
      assert b == a - {cid};
    } else {
      assert b == a;
    }
  }

  // --------------------------------------------------------- phones, flags

  lemma DropKeeps(w: World, p: string)
    requires Invariant(w)
    ensures Invariant(DropPhone(w, p))
    ensures DropPhone(w, p).accounts == w.accounts - {p}
    ensures DropPhone(w, p).transports <= w.transports
  {
    hide CallInvariant, TrackedCall, Keeping, NoDup, SameSettings, CountersBounded, Counted, TransportsMatch, QueueOwned;
    if p in w.accounts {
      var gone := CallsOf(w, p);
      assert forall cid :: cid in w.owner && w.owner[cid] !in w.accounts - {p} ==> cid in gone by {
        OwnersRegistered(w);
      }
      ForgetKeeps(w.accounts - {p}, w, gone);
      DropTransports(w.configs, w.transports, p);
      DropCounters(w, p);
      DropQueues(w.incoming, w.owner, p, gone);
    } else {
      assert w.configs - {p} == w.configs;
    }
  }

  lemma OwnersRegistered(w: World)
    requires Invariant(w)
    ensures forall cid :: cid in w.owner ==> w.owner[cid] in w.accounts
  {
    hide NoDup, CallInvariant;
    forall cid | cid in w.owner ensures w.owner[cid] in w.accounts {
      assert TrackedCall(w.calls[cid], w.owner[cid], w.accounts);
    }
  }

  lemma DropTransports(configs: map<string, Config>, transports: set<nat>, p: string)
    requires TransportsMatch(configs, transports) && p in configs
    ensures TransportsMatch(configs - {p}, transports - {configs[p].transportId})
  {
    var cs, ts := configs - {p}, transports - {configs[p].transportId};
    forall t | t in ts ensures exists q :: q in cs && cs[q].transportId == t {
      var q :| q in configs && configs[q].transportId == t;
      assert q in cs;
    }
  }

  lemma DropCounters(w: World, p: string)
    requires Invariant(w)
    ensures CountersBounded(w.active - {p}, w.accounts - {p}, w.calls - CallsOf(w, p))
  {
    hide CallInvariant, NoDup, QueuesOwned, TransportsMatch, FollowsConfig;
    forall q | q in w.active - {p}
      ensures Counted(w.calls - CallsOf(w, p), q) == Counted(w.calls, q)
    {
      assert forall cid :: cid in w.calls ==> TrackedCall(w.calls[cid], w.owner[cid], w.accounts);
    }
  }

  lemma DropQueues(incoming: map<string, seq<int>>, owner: map<int, string>, p: string, gone: set<int>)
    requires QueuesOwned(incoming, owner)
    requires forall cid :: cid in gone ==> cid in owner && owner[cid] == p
    ensures QueuesOwned(incoming - {p}, owner - gone)
  {
    hide NoDup;
  }

  lemma AddKeeps(w: World, p: string, cfg: Config, tp: nat)
    requires Invariant(w) && tp !in w.transports
    ensures Invariant(AddPhone(w, p, cfg, tp))
  {
    hide DropPhone, TablesAgree, FollowsConfig, TransportsMatch, QueueOwned, CountersBounded;
    if p in w.accounts {
      DropKeeps(w, p);
    }
    var v := if p in w.accounts then DropPhone(w, p) else w;
    AddTransport(v.configs, v.transports, p, cfg, tp);
    AddTables(v, p, cfg.(transportId := tp));
    EmptyQueue(p, v.owner);
  }

  lemma AddTables(v: World, p: string, cfg: Config)
    requires Invariant(v) && p !in v.accounts
    ensures TablesAgree(v.accounts + {p}, v.calls, v.owner, v.order)
    ensures FollowsConfig(v.calls, v.configs[p := cfg])
    ensures CountersBounded(v.active, v.accounts + {p}, v.calls)
  {
    hide CallInvariant, SameSettings, NoDup, Counted;
    assert forall cid :: cid in v.calls ==> TrackedCall(v.calls[cid], v.owner[cid], v.accounts);
  }

  lemma AddTransport(configs: map<string, Config>, transports: set<nat>, p: string, cfg: Config, tp: nat)
    requires TransportsMatch(configs, transports) && p !in configs && tp !in transports
    ensures TransportsMatch(configs[p := cfg.(transportId := tp)], transports + {tp})
  {
    var cs := configs[p := cfg.(transportId := tp)];
    forall t | t in transports + {tp} ensures exists q :: q in cs && cs[q].transportId == t {
      if t != tp {
        var q :| q in configs && configs[q].transportId == t;
        assert q in cs && cs[q].transportId == t;
      } else {
        assert cs[p].transportId == t;
      }
    }
  }

  lemma SameTransports(configs: map<string, Config>, other: map<string, Config>, transports: set<nat>)
    requires TransportsMatch(configs, transports) && other.Keys == configs.Keys
    requires forall p :: p in configs ==> other[p].transportId == configs[p].transportId
    ensures TransportsMatch(other, transports)
  {
    forall t | t in transports ensures exists q :: q in other && other[q].transportId == t {
      var q :| q in configs && configs[q].transportId == t;
      assert q in other;
    }
  }

  /** All calls of a phone changed in place, and its configuration with them. */
  lemma PhoneChanged(w: World, p: string, cfg: Config, calls: map<int, Call>)
    requires Invariant(w) && p in w.configs && cfg.transportId == w.configs[p].transportId
    requires calls.Keys == w.calls.Keys == w.owner.Keys
    requires forall cid :: cid in calls && w.owner[cid] != p ==> calls[cid] == w.calls[cid]
    requires forall cid :: cid in calls && w.owner[cid] == p ==>
      TrackedCall(calls[cid], p, w.accounts) && SameSettings(calls[cid], cfg) && calls[cid].counted == w.calls[cid].counted
    ensures Invariant(w.(configs := w.configs[p := cfg], calls := calls))
  {
    hide TablesAgree, FollowsConfig, CountersBounded, QueuesOwned, TransportsMatch, TrackedCall, SameSettings;
    SameTransports(w.configs, w.configs[p := cfg], w.transports);
    assert forall cid :: cid in w.calls ==> cid in w.owner && TrackedCall(w.calls[cid], w.owner[cid], w.accounts) by {
      forall cid | cid in w.calls ensures cid in w.owner && TrackedCall(w.calls[cid], w.owner[cid], w.accounts) {
        CallIsTracked(w, cid);
      }
    }
    assert forall cid :: cid in calls ==> TrackedCall(calls[cid], w.owner[cid], w.accounts);
    ChangedTables(w, calls);
    ChangedFollows(w, p, cfg, calls);
    ChangedCounters(w, calls);
  }

  lemma ChangedTables(w: World, calls: map<int, Call>)
    requires TablesAgree(w.accounts, w.calls, w.owner, w.order) && calls.Keys == w.calls.Keys
    requires forall cid :: cid in calls ==> TrackedCall(calls[cid], w.owner[cid], w.accounts)
    ensures TablesAgree(w.accounts, calls, w.owner, w.order)
  {
    hide TrackedCall, NoDup;
  }

  lemma ChangedFollows(w: World, p: string, cfg: Config, calls: map<int, Call>)
    requires FollowsConfig(w.calls, w.configs) && calls.Keys == w.calls.Keys == w.owner.Keys
    requires forall cid :: cid in calls ==>
      TrackedCall(w.calls[cid], w.owner[cid], w.accounts) && TrackedCall(calls[cid], w.owner[cid], w.accounts)
    requires forall cid :: cid in calls && w.owner[cid] != p ==> calls[cid] == w.calls[cid]
    requires forall cid :: cid in calls && w.owner[cid] == p ==> SameSettings(calls[cid], cfg)
    ensures FollowsConfig(calls, w.configs[p := cfg])
  {
    hide SameSettings, CallInvariant;
  }

  lemma ChangedCounters(w: World, calls: map<int, Call>)
    requires CountersBounded(w.active, w.accounts, w.calls) && calls.Keys == w.calls.Keys == w.owner.Keys
    requires forall cid :: cid in calls ==>
      TrackedCall(w.calls[cid], w.owner[cid], w.accounts) && TrackedCall(calls[cid], w.owner[cid], w.accounts)
      && calls[cid].counted == w.calls[cid].counted
    ensures CountersBounded(w.active, w.accounts, calls)
  {
    hide CallInvariant, Counted;
    forall q | q in w.active ensures Counted(calls, q) == Counted(w.calls, q) {
      CountedSame(w.calls, calls, q);
    }
  }

  lemma CountedSame(calls: map<int, Call>, other: map<int, Call>, q: string)
    requires other.Keys == calls.Keys
    requires forall cid :: cid in calls ==> other[cid].phone == calls[cid].phone && other[cid].counted == calls[cid].counted
    ensures Counted(other, q) == Counted(calls, q)
  {
    assert forall cid :: cid in Counted(other, q) <==> cid in Counted(calls, q);
  }

  lemma CodecsKeep(w: World, p: string, list: seq<string>)
    requires Invariant(w)
    ensures Invariant(SetCodecs(w, p, list))
  {
    hide Invariant, Normal, CallInvariant;
    if p in w.configs {
      forall cid | cid in w.calls ensures cid in w.owner && TrackedCall(w.calls[cid], w.owner[cid], w.accounts)
                                          && SameRecording(w, cid) {
        CallIsTracked(w, cid);
        CallFollows(w, cid);
      }
      KeysAgree(w);
      var x := SetCodecs(w, p, list);
      forall cid | cid in w.calls && w.owner[cid] == p ensures TrackedCall(x.calls[cid], p, w.accounts) {
        CodecsAreNotMedia(w.calls[cid], Normal(Some(list)));
      }
      PhoneChanged(w, p, x.configs[p], x.calls);
    }
  }

  ghost predicate SameRecording(w: World, cid: int) {
    cid in w.calls && (w.calls[cid].phone in w.configs ==>
      SameSettings(w.calls[cid], w.configs[w.calls[cid].phone]))
  }

  lemma CallFollows(w: World, cid: int)
    requires Invariant(w) && cid in w.calls
    ensures SameRecording(w, cid)
  {
    hide SameSettings;
  }

  lemma CodecsAreNotMedia(c: Call, list: Option<seq<string>>)
    requires CallInvariant(c)
    ensures CallInvariant(c.(codecs := list))
  {
  }

  lemma ToggleIsSameCall(c: Call, on: bool, cid: int, stamp: int, disk: Disk)
    requires CallInvariant(c) && !c.disconnected
    ensures var d := SetRecording(c, on, cid, stamp, disk);
            CallInvariant(d) && !d.disconnected && d.phone == c.phone && d.codecs == c.codecs
            && d.recordingEnabled == on && d.counted == c.counted
  {
    StepKeepsInvariant(c, cid, ToggleRecording(on, stamp, disk));
  }

  lemma RecordingKeeps(w: World, p: string, on: bool, stamp: int, disks: map<int, Disk>)
    requires Invariant(w)
    ensures Invariant(SetRecordingFlag(w, p, on, stamp, disks))
  {
    hide Invariant, SetRecording, CallInvariant, Normal;
    if p in w.configs {
      forall cid | cid in w.calls ensures cid in w.owner && TrackedCall(w.calls[cid], w.owner[cid], w.accounts)
                                          && SameRecording(w, cid) {
        CallIsTracked(w, cid);
        CallFollows(w, cid);
      }
      KeysAgree(w);
      var x := SetRecordingFlag(w, p, on, stamp, disks);
      forall cid | cid in w.calls && w.owner[cid] == p
        ensures TrackedCall(x.calls[cid], p, w.accounts) && SameSettings(x.calls[cid], x.configs[p])
                && x.calls[cid].counted == w.calls[cid].counted
      {
        ToggleIsSameCall(w.calls[cid], on, cid, stamp, DiskFor(disks, cid));
      }
      PhoneChanged(w, p, x.configs[p], x.calls);
    }
  }

  lemma FlagsKeep(w: World, p: string, on: bool)
    requires Invariant(w)
    ensures Invariant(SetAutoAnswer(w, p, on)) && Invariant(SetCapture(w, p, on))
  {
    hide Invariant, CallInvariant, FirstOf;
    if p in w.configs {
      forall cid | cid in w.calls ensures cid in w.owner && TrackedCall(w.calls[cid], w.owner[cid], w.accounts)
                                          && SameRecording(w, cid) {
        CallIsTracked(w, cid);
        CallFollows(w, cid);
      }
      assert w.calls.Keys == w.owner.Keys by { KeysAgree(w); }
      PhoneChanged(w, p, w.configs[p].(autoAnswer := on), w.calls);
      PhoneChanged(w, p, w.configs[p].(capture := on), w.calls);
      CaptureQueues(w.(configs := w.configs[p := w.configs[p].(capture := on)]), SetCapture(w, p, on));
    }
  }

  lemma KeysAgree(w: World)
    requires Invariant(w)
    ensures w.calls.Keys == w.owner.Keys
  {
    hide NoDup, TrackedCall;
  }

  /** The capture queues, the captures and the auto-answers are free. */
  lemma CaptureQueues(w: World, x: World)
    requires Invariant(w)
    requires x == w.(starts := x.starts, stops := x.stops, captures := x.captures, autoAnswer := x.autoAnswer)
    ensures Invariant(x)
  {
    hide TablesAgree, TransportsMatch, QueuesOwned, FollowsConfig, CountersBounded;
  }

  lemma TakingKeeps(w: World, p: string, n: nat)
    requires Invariant(w) && p in w.incoming && n <= |w.incoming[p]|
    ensures Invariant(w.(incoming := w.incoming[p := w.incoming[p][n..]]))
  {
    hide TablesAgree, TransportsMatch, FollowsConfig, CountersBounded, QueueOwned;
    QueueSuffix(w.incoming[p], p, w.owner, n);
  }

  lemma QueueSuffix(q: seq<int>, p: string, owner: map<int, string>, n: nat)
    requires QueueOwned(q, p, owner) && n <= |q|
    ensures QueueOwned(q[n..], p, owner)
  {
  }

  // ------------------------------------------------------------ every run

  lemma StepKeepsAll(w: World, s: Step)
    requires Invariant(w) && Enabled(w, s)
    ensures Invariant(Apply(w, s))
  {
    hide Invariant, AddPhone, DropPhone, IncomingCall, CallMediaState, CallDisconnected, PlayFile, StopPlayback,
      SetAutoAnswer, SetCodecs, SetRecordingFlag, SetCapture, StartAll, StopAll, Track;
    match s {
      case Add(p, cfg, tp) => AddKeeps(w, p, cfg, tp);
      case Drop(p) => DropKeeps(w, p);
      case Register(p, tp) =>
        if p in w.configs {
          AddKeeps(w, p, w.configs[p], tp);
        }
      case Incoming(p, cid) => IncomingKeeps(w, p, cid);
      case Outgoing(p, cid) =>
        if p in w.accounts {
          TrackKeeps(w, p, cid);
        }
      case MediaChange(cid, streams) => MediaChangeKeeps(w, cid, streams);
      case Ended(cid) => EndedKeeps(w, cid);
      case Play(cid, path) => PlayKeeps(w, cid, path, false);
      case StopPlay(cid, mohExists) => PlayKeeps(w, cid, "", mohExists);
      case AutoAnswerFlag(p, on) => FlagsKeep(w, p, on);
      case CodecList(p, list) => CodecsKeep(w, p, list);
      case RecordingFlag(p, on, stamp, disks) => RecordingKeeps(w, p, on, stamp, disks);
      case CaptureFlag(p, on) => FlagsKeep(w, p, on);
      case TakeIncoming(p, n) => TakingKeeps(w, p, n);
      case AutoAnswers => CaptureQueues(w, AutoAnswered(w));
      case Poll => CaptureQueues(w, Drain(w));
    }
  }

  /** In every reachable state the tables agree, transports and phones match
      one to one, queues hold the phone's own calls, calls follow their phone's
      configuration, and the counters are bounded. */
  lemma {:induction false} EveryRun(steps: seq<Step>)
    requires Run(steps).Some?
    ensures Invariant(Run(steps).value)
  {
    hide Apply, Enabled;
    if steps == [] {
      EmptyIsFine();
    } else {
      hide Invariant;
      EveryRun(steps[..|steps| - 1]);
      StepKeepsAll(Run(steps[..|steps| - 1]).value, steps[|steps| - 1]);
    }
  }

  lemma EmptyIsFine()
    ensures Invariant(Empty)
  {
  }
}
