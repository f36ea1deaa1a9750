/** The registry and the call manager, updated in place, against `PhoneSystem`. */
module PhoneManager {
  import opened Text
  import opened CallMedia
  import opened PhoneSystem
  import opened PcapCaptures
  import opened CallRequests

  // ------------------------------------------------------------ call table

  function Views(calls: map<int, SipCall>): map<int, Call>
    reads calls.Values
  {
    map cid | cid in calls :: calls[cid].View()
  }

  /** No two ids share a call object. */
  predicate Distinct(calls: map<int, SipCall>) {
    forall a, b :: a in calls && b in calls && calls[a] == calls[b] ==> a == b
  }

  lemma {:induction false} KeepingCons(x: int, xs: seq<int>, ks: set<int>)
    ensures Keeping([x] + xs, ks) == (if x in ks then [x] else []) + Keeping(xs, ks)
  {
    assert ([x] + xs)[1..] == xs;
  }

  lemma {:induction false} KeepingAll(xs: seq<int>, ks: set<int>)
    requires forall x :: x in xs ==> x in ks
    ensures Keeping(xs, ks) == xs
  {
    if xs != [] {
      KeepingAll(xs[1..], ks);
      KeepingCons(xs[0], xs[1..], ks);
      assert xs == [xs[0]] + xs[1..];
    }
  }

  lemma {:induction false} KeepingTwice(xs: seq<int>, ks: set<int>, ls: set<int>)
    ensures Keeping(Keeping(xs, ks), ls) == Keeping(xs, ks * ls)
  {
    if xs != [] {
      KeepingTwice(xs[1..], ks, ls);
      var rest := Keeping(xs[1..], ks);
      KeepingCons(xs[0], rest, ls);
      assert Keeping(xs, ks) == if xs[0] in ks then [xs[0]] + rest else rest;
    }
  }

  lemma KeepingNone(ks: set<int>)
    ensures Keeping([], ks) == []
  {
  }

  lemma {:induction false} KeepingAppend(xs: seq<int>, x: int, ks: set<int>)
    ensures Keeping(xs + [x], ks) == Keeping(xs, ks) + if x in ks then [x] else []
  {
    hide Keeping;
    KeepingNone(ks);
    if xs == [] {
      KeepingCons(x, [], ks);
      assert [] + [x] == [x] + [];
    } else {
      KeepingAppend(xs[1..], x, ks);
      KeepingCons(xs[0], xs[1..], ks);
      KeepingCons(xs[0], xs[1..] + [x], ks);
      assert xs == [xs[0]] + xs[1..] && xs + [x] == [xs[0]] + (xs[1..] + [x]);
    }
  }

  /** A prefix is filtered one element further. */
  lemma KeepingStep(xs: seq<int>, ks: set<int>, i: nat)
    requires i < |xs|
    ensures Keeping(xs[..i + 1], ks) == Keeping(xs[..i], ks) + if xs[i] in ks then [xs[i]] else []
  {
    hide Keeping;
    assert xs[..i + 1] == xs[..i] + [xs[i]];
    KeepingAppend(xs[..i], xs[i], ks);
  }

  /** `queues.setdefault(p, []).append(cid)` */
  method Appended(queues: map<string, seq<int>>, p: string, cid: int) returns (r: map<string, seq<int>>)
    ensures r == Queued(queues, p, cid)
  {
    r := if p in queues then queues else queues[p := []];
    r := r[p := r[p] + [cid]];
  }

  lemma TrackFields(w: World, p: string, cid: int)
    ensures var x := Track(w, p, cid);
            x == w.(calls := x.calls, owner := x.owner, order := x.order)
  {
  }

  // -------------------------------------------------------------- registry

  class PhoneRegistry {
    var accounts: set<string>
    var configs: map<string, Config>
    // the transports open in the engine
    var transports: set<nat>

    constructor ()
      ensures accounts == {} && configs == map[] && transports == {}
    {
      accounts, configs, transports := {}, map[], {};
    }

    /** `drop_phone`; `hook` is the manager behind `on_phone_dropped`. */
    method DropPhone(p: string, hook: CallManager) returns (present: bool)
      requires hook.registry == this && hook.Valid()
      modifies this, hook
      ensures hook.Valid() && present == (p in old(accounts))
      ensures hook.View() == PhoneSystem.DropPhone(old(hook.View()), p)
    {
      hide Views, Keeping;
      var account := p in accounts;
      var cfg := if p in configs then Some(configs[p]) else None;
      accounts := accounts - {p};
      configs := configs - {p};
      if !account {
        return false;
      }
      hook.OnPhoneDropped(p);
      if cfg.Some? {
        transports := transports - {cfg.value.transportId};
      }
      present := true;
    }

    /** `drop_all`; returns the phones it dropped, in order. */
    method DropAll(hook: CallManager) returns (dropped: seq<string>)
      requires hook.registry == this && hook.Valid()
      modifies this, hook
      ensures hook.Valid() && hook.View() == DropEach(old(hook.View()), dropped)
      ensures accounts == {} && forall p :: p in dropped <==> p in old(accounts)
    {
      hide Views, PhoneSystem.DropPhone;
      dropped := [];
      var todo := accounts;
      while todo != {}
        invariant hook.Valid() && hook.View() == DropEach(old(hook.View()), dropped)
        invariant todo == accounts <= old(accounts)
        invariant forall p :: p in dropped <==> p in old(accounts) && p !in todo
      {
        var p :| p in todo;
        ghost var before := hook.View();
        var _ := DropPhone(p, hook);
        DropAccounts(before, p);
        assert (dropped + [p])[..|dropped|] == dropped;
        dropped := dropped + [p];
        todo := todo - {p};
      }
    }

    /** `add_phone` over the transport `tp` the engine creates for it. */
    method AddPhone(p: string, cfg: Config, tp: nat, hook: CallManager)
      requires hook.registry == this && hook.Valid()
      modifies this, hook
      ensures hook.Valid() && p in accounts
      ensures hook.View() == PhoneSystem.AddPhone(old(hook.View()), p, cfg, tp)
    {
      hide Views, PhoneSystem.DropPhone, PhoneAdded;
      if p in accounts {
        var _ := DropPhone(p, hook);
      }
      transports := transports + {tp};
      accounts := accounts + {p};
      configs := configs[p := cfg.(transportId := tp)];
      hook.OnPhoneAdded(p);
    }

    /** `reregister_phone`; `ok` is false when it raises. */
    method ReregisterPhone(p: string, tp: nat, hook: CallManager) returns (ok: bool)
      requires hook.registry == this && hook.Valid()
      modifies this, hook
      ensures hook.Valid() && ok == (p in old(configs))
      ensures hook.View() == Reregister(old(hook.View()), p, tp)
    {
      hide Views, PhoneSystem.AddPhone;
      ok := p in configs;
      if ok {
        AddPhone(p, configs[p], tp, hook);
      }
    }
  }

  // --------------------------------------------------------------- manager

  class CallManager {
    const registry: PhoneRegistry
    const pcap: PcapManager
    var calls: map<int, SipCall>
    var callPhone: map<int, string>
    // the insertion order of the two tables
    var order: seq<int>
    var incoming: map<string, seq<int>>
    var autoAnswer: map<string, seq<int>>
    var active: map<string, int>
    var starts: seq<(string, Option<int>)>
    var stops: seq<string>

    function View(): World
      reads this, registry, pcap, calls.Values
    {
      World(registry.accounts, registry.configs, registry.transports, Views(calls), callPhone, order,
            incoming, autoAnswer, active, starts, stops, pcap.captures)
    }

    ghost predicate Valid()
      reads this
    {
      && Distinct(calls) && calls.Keys == callPhone.Keys
      && NoDup(order) && forall cid :: cid in order <==> cid in calls
    }

    constructor (registry: PhoneRegistry, pcap: PcapManager)
      requires registry.accounts == {} && registry.configs == map[] && registry.transports == {}
      requires pcap.captures == map[]
      ensures Valid() && View() == Empty
      ensures this.registry == registry && this.pcap == pcap
    {
      this.registry, this.pcap := registry, pcap;
      calls, callPhone, order := map[], map[], [];
      incoming, autoAnswer, active := map[], map[], map[];
      starts, stops := [], [];
    }

    // ------------------------------------------------------ registry hooks

    /** `_on_phone_added` */
    method OnPhoneAdded(p: string)
      requires Valid()
      modifies this
      ensures Valid()
      ensures View() == if p in registry.accounts then PhoneAdded(old(View()), p) else old(View())
    {
      hide Views, NoDup, Distinct;
      if p !in registry.accounts {
        return;
      }
      if p !in incoming {
        incoming := incoming[p := []];
      }
      if p !in autoAnswer {
        autoAnswer := autoAnswer[p := []];
      }
    }

    /** A call leaves both tables. */
    method Untrack(cid: int)
      requires Valid()
      modifies this`calls, this`callPhone, this`order
      ensures Valid()
      ensures calls == old(calls) - {cid} && callPhone == old(callPhone) - {cid}
      ensures order == Keeping(old(order), old(calls).Keys - {cid})
    {
      KeepingNoDup(order, calls.Keys - {cid});
      order := Keeping(order, calls.Keys - {cid});
      calls := calls - {cid};
      callPhone := callPhone - {cid};
    }

    /** Every call of the list leaves both tables. */
    method UntrackAll(gone: seq<int>)
      requires Valid()
      modifies this`calls, this`callPhone, this`order
      ensures Valid()
      ensures calls == old(calls) - Ids(gone) && callPhone == old(callPhone) - Ids(gone)
      ensures order == Keeping(old(order), old(calls).Keys - Ids(gone))
    {
      hide NoDup, Distinct, Keeping;
      KeepingAll(order, calls.Keys);
      for i := 0 to |gone|
        invariant Valid()
        invariant calls == old(calls) - Ids(gone[..i]) && callPhone == old(callPhone) - Ids(gone[..i])
        invariant order == Keeping(old(order), old(calls).Keys - Ids(gone[..i]))
      {
        IdsStep(gone, i);
        KeepingTwice(old(order), old(calls).Keys - Ids(gone[..i]), calls.Keys - {gone[i]});
        assert (old(calls).Keys - Ids(gone[..i])) * (calls.Keys - {gone[i]}) == old(calls).Keys - Ids(gone[..i + 1]);
        Untrack(gone[i]);
      }
      assert gone[..|gone|] == gone;
    }

    /** The tracked calls of a phone, in table order. */
    method CallsOfPhone(p: string) returns (mine: seq<int>)
      requires Valid()
      ensures mine == Keeping(order, CallsOf(View(), p)) && NoDup(mine) && Ids(mine) == CallsOf(View(), p)
      ensures forall cid :: cid in mine ==> cid in calls
    {
      hide Views, Distinct, NoDup;
      mine := [];
      for i := 0 to |order|
        invariant mine == Keeping(order[..i], CallsOf(View(), p))
      {
        KeepingStep(order, CallsOf(View(), p), i);
        var cid := order[i];
        assert cid in order && cid in calls;
        if callPhone[cid] == p {
          mine := mine + [cid];
        }
      }
      assert order[..|order|] == order;
      KeepingNoDup(order, CallsOf(View(), p));
      assert forall cid :: cid in callPhone <==> cid in order;
    }

    /** The phone's calls leave both tables. */
    method ForgetPhone(p: string)
      requires Valid()
      modifies this`calls, this`callPhone, this`order
      ensures Valid() && View() == Forget(old(View()), CallsOf(old(View()), p))
    {
      hide NoDup, Distinct, Keeping, CallsOf, SipCall.View;
      var stale := CallsOfPhone(p);
      assert View().calls.Keys == calls.Keys;
      UntrackAll(stale);
      assert Views(calls) == old(Views(calls)) - Ids(stale);
    }

    /** `_on_phone_dropped` */
    method OnPhoneDropped(p: string)
      requires Valid()
      modifies this
      ensures Valid() && View() == PhoneDropped(old(View()), p)
    {
      hide NoDup, Distinct, Keeping, CallsOf, Views;
      incoming := incoming - {p};
      autoAnswer := autoAnswer - {p};
      active := active - {p};
      label popped:
      ForgetPhone(p);
      SameOwner(old@popped(View()), old(View()), p);
      if pcap.IsPhoneCapturing(p) {
        stops := stops + [p];
      }
    }

    // ------------------------------------------------------- calls, counter

    /** A call object with its phone's current settings. */
    method CreateCall(p: string) returns (c: SipCall)
      ensures fresh(c)
      ensures c.View() == if p in registry.configs
                          then NewCall(p, registry.configs[p].codecs, registry.configs[p].recording)
                          else NewCall(p, None, true)
    {
      if p in registry.configs {
        c := new SipCall(p, registry.configs[p].codecs, registry.configs[p].recording);
      } else {
        c := new SipCall(p, None, true);
      }
    }

    /** The call enters both tables under an id that is not in use. */
    method Enter(p: string, cid: int)
      requires Valid() && cid !in calls
      modifies this`calls, this`callPhone, this`order
      ensures Valid() && View() == Track(old(View()), p, cid)
    {
      hide NoDup, NewCall, SipCall.View;
      var c := CreateCall(p);
      NoDupAppend(order, cid);
      calls := calls[cid := c];
      callPhone := callPhone[cid := p];
      order := order + [cid];
      assert Views(calls) == old(Views(calls))[cid := c.View()];
    }

    /** `_on_incoming_call` */
    method OnIncomingCall(p: string, cid: int)
      requires Valid() && cid !in calls
      modifies this
      ensures Valid() && View() == IncomingCall(old(View()), p, cid)
    {
      hide Track, Views, Queued, NoDup, Distinct, NewCall;
      if p !in registry.accounts {
        return;
      }
      Enter(p, cid);
      TrackFields(old(View()), p, cid);
      Enqueue(p, cid);
    }

    /** The queues that an incoming call joins. */
    method Enqueue(p: string, cid: int)
      modifies this`incoming, this`autoAnswer
      ensures incoming == Queued(old(incoming), p, cid)
      ensures autoAnswer ==
        if p in registry.configs && registry.configs[p].autoAnswer then Queued(old(autoAnswer), p, cid) else old(autoAnswer)
    {
      incoming := Appended(incoming, p, cid);
      if p in registry.configs && registry.configs[p].autoAnswer {
        autoAnswer := Appended(autoAnswer, p, cid);
      }
    }

    /** `make_call` under the id the stack gave the call; `ok` is false when it raises. */
    method MakeCall(p: string, cid: int) returns (ok: bool)
      requires Valid() && cid !in calls
      modifies this
      ensures Valid() && ok == (p in registry.accounts)
      ensures View() == PhoneSystem.MakeCall(old(View()), p, cid)
    {
      hide Track, Views;
      ok := p in registry.accounts;
      if ok {
        Enter(p, cid);
      }
    }

    /** `_register_call_active` */
    method RegisterCallActive(p: string, cid: int)
      requires Valid()
      modifies this
      ensures Valid() && View() == RegisterActive(old(View()), p, cid)
      ensures calls == old(calls)
    {
      hide NoDup, Distinct, Views;
      var newCount := (if p in active then active[p] else 0) + 1;
      active := active[p := newCount];
      if newCount == 1 && p in registry.configs && registry.configs[p].capture {
        starts := starts + [(p, Some(cid))];
      }
    }

    /** A call object changed; the others did not. */
    twostate lemma OneCallChanged(cid: int)
      requires old(Valid()) && cid in old(calls) && calls == old(calls)
      requires forall k :: k in calls && k != cid ==> calls[k].View() == old(calls[k].View())
      ensures Views(calls) == old(Views(calls))[cid := calls[cid].View()]
    {
    }

    /** `onCallMediaState` of a tracked call, with its first-active callback. */
    method OnCallMediaState(cid: int, streams: seq<Stream>)
      requires Valid() && cid in calls
      modifies this, calls[cid]
      ensures Valid() && View() == CallMediaState(old(View()), cid, streams)
    {
      hide NoDup, MediaState;
      var c := calls[cid];
      var first := c.OnCallMediaState(cid, streams);
      OneCallChanged(cid);
      if first {
        RegisterCallActive(c.phoneId, cid);
      }
    }

    // ------------------------------------------------------------ play, stop

    /** `play_audio` on a tracked call */
    method PlayAudio(cid: int, path: string) returns (ok: bool)
      requires Valid() && cid in calls
      modifies calls[cid]
      ensures Valid() && View() == WithCall(old(View()), cid, PlayFile(old(View()).calls[cid], path))
    {
      hide NoDup, PlayFile;
      ok := calls[cid].Play(path);
      OneCallChanged(cid);
    }

    /** `stop_audio` on a tracked call */
    method StopAudio(cid: int, mohExists: bool)
      requires Valid() && cid in calls
      modifies calls[cid]
      ensures Valid() && View() == WithCall(old(View()), cid, StopPlayback(old(View()).calls[cid], mohExists))
    {
      hide NoDup, StopPlayback;
      calls[cid].StopAudio(mohExists);
      OneCallChanged(cid);
    }

    // ------------------------------------------------------------ disconnect

    /** The calls whose cached state is DISCONNECTED. */
    method StaleCalls() returns (stale: seq<int>)
      requires Valid()
      ensures Ids(stale) == Stale(View())
    {
      hide NoDup, Distinct;
      stale := [];
      for i := 0 to |order|
        invariant forall cid :: cid in stale <==> cid in order[..i] && cid in calls && calls[cid].disconnected
      {
        var cid := order[i];
        assert cid in order && cid in calls;
        assert order[..i + 1] == order[..i] + [cid];
        if calls[cid].disconnected {
          stale := stale + [cid];
        }
      }
      assert order[..|order|] == order;
      forall cid ensures cid in Ids(stale) <==> cid in Stale(View()) {
        assert cid in order <==> cid in calls;
        if cid in calls {
          ViewAt(cid);
        }
      }
    }

    /** Every incoming queue keeps its tracked calls. */
    method TrimQueues()
      modifies this`incoming
      ensures incoming == QueuesWithin(old(incoming), calls.Keys)
    {
      hide Keeping;
      var todo := incoming.Keys;
      while todo != {}
        invariant todo <= incoming.Keys == old(incoming).Keys
        invariant forall q :: q in incoming ==>
          incoming[q] == if q in todo then old(incoming)[q] else Keeping(old(incoming)[q], calls.Keys)
      {
        var q :| q in todo;
        incoming := incoming[q := Keeping(incoming[q], calls.Keys)];
        todo := todo - {q};
      }
    }

    /** The counter of a phone goes down; `last` says that it reached zero. */
    method DecrementActive(p: string) returns (last: bool)
      modifies this`active
      ensures last == (p in old(active) && old(active)[p] - 1 <= 0)
      ensures active == if p !in old(active) then old(active)
                        else if last then old(active) - {p} else old(active)[p := old(active)[p] - 1]
    {
      last := false;
      if p in active {
        var count := active[p] - 1;
        if count <= 0 {
          active := active - {p};
          last := true;
        } else {
          active := active[p := count];
        }
      }
    }

    /** The stale calls leave the tables and the queues. */
    method DropStale()
      requires Valid()
      modifies this`calls, this`callPhone, this`order, this`incoming
      ensures Valid()
      ensures View() == Forget(old(View()), Stale(old(View()))).(
        incoming := QueuesWithin(old(incoming), old(View()).calls.Keys - Stale(old(View()))))
    {
      hide NoDup, Distinct, Keeping, Stale, QueuesWithin, SipCall.View, NewCall, Queued, CallInvariant;
      var stale := StaleCalls();
      assert View().calls.Keys == calls.Keys;
      UntrackAll(stale);
      TrimQueues();
      assert Views(calls) == old(Views(calls)) - Ids(stale);
    }

    /** `_on_call_disconnected` for a call of phone `p` */
    method OnCallDisconnected(p: string)
      requires Valid()
      modifies this
      ensures Valid() && View() == CallEnded(old(View()), p)
    {
      hide NoDup, Distinct, Stale, QueuesWithin, Views, Forget;
      DropStale();
      label dropped:
      var last := DecrementActive(p);
      if last && pcap.IsPhoneCapturing(p) {
        stops := stops + [p];
      }
      assert View() == CountDown(old@dropped(View()), p);
    }

    /** `onCallState` of a tracked call that got disconnected */
    method OnDisconnected(cid: int)
      requires Valid() && cid in calls
      modifies this, calls[cid]
      ensures Valid() && View() == CallDisconnected(old(View()), cid)
    {
      hide NoDup, Disconnect, CallEnded;
      var c := calls[cid];
      c.OnDisconnected();
      OneCallChanged(cid);
      OnCallDisconnected(c.phoneId);
    }

    // --------------------------------------------------------------- toggles

    /** `set_codecs_for_phone` */
    method SetCodecsForPhone(p: string, list: Option<seq<string>>)
      requires Valid()
      modifies calls.Values
      ensures Valid() && View() == WithCodecs(old(View()), p, list)
    {
      hide NoDup, Keeping, Normal, Views, SipCall.View, CallsOf, CodecsOn;
      var mine := CallsOfPhone(p);
      CodecsOnNone(Views(calls), list);
      for i := 0 to |mine|
        invariant Valid() && Views(calls) == CodecsOn(old(Views(calls)), Ids(mine[..i]), list)
      {
        label step:
        var cid := mine[i];
        assert cid in mine;
        ViewAt(cid);
        calls[cid].SetCodecs(list);
        OneCallChanged@step(cid);
        CodecsOnStep(old(Views(calls)), mine, i, list);
      }
      assert mine[..|mine|] == mine;
    }

    /** `set_recording_enabled`; returns the calls it touched. */
    method SetRecordingEnabled(p: string, on: bool, stamp: int, disks: map<int, Disk>) returns (affected: seq<int>)
      requires Valid()
      modifies calls.Values
      ensures Valid() && View() == WithRecording(old(View()), p, on, stamp, disks)
      ensures affected == Keeping(order, CallsOf(old(View()), p))
    {
      hide NoDup, Keeping, SetRecording, DiskFor, Views, SipCall.View, CallsOf, RecordingOn;
      var mine := CallsOfPhone(p);
      RecordingOnNone(Views(calls), on, stamp, disks);
      for i := 0 to |mine|
        invariant Valid() && Views(calls) == RecordingOn(old(Views(calls)), Ids(mine[..i]), on, stamp, disks)
      {
        label step:
        var cid := mine[i];
        assert cid in mine;
        ViewAt(cid);
        calls[cid].Toggle(on, cid, stamp, DiskFor(disks, cid));
        OneCallChanged@step(cid);
        RecordingOnStep(old(Views(calls)), mine, i, on, stamp, disks);
      }
      assert mine[..|mine|] == mine;
      affected := mine;
    }

    lemma ViewAt(cid: int)
      requires cid in calls
      ensures cid in Views(calls) && Views(calls)[cid] == calls[cid].View()
    {
    }

    lemma ViewKeys()
      ensures View().calls.Keys == calls.Keys
    {
    }

    /** `set_capture_enabled`; `ok` is false when it raises. */
    method SetCaptureEnabled(p: string, on: bool) returns (ok: bool)
      requires Valid()
      modifies this`starts, this`stops, registry
      ensures Valid() && ok == (p in registry.configs)
      ensures View() == SetCapture(old(View()), p, on)
    {
      hide NoDup, Distinct, Views, FirstOf;
      ok := p in registry.configs;
      if !ok {
        return;
      }
      registry.configs := registry.configs[p := registry.configs[p].(capture := on)];
      if on {
        var cid := FirstCall(p);
        if p in active && active[p] > 0 && !pcap.IsPhoneCapturing(p) {
          starts := starts + [(p, cid)];
        }
      } else if pcap.IsPhoneCapturing(p) {
        stops := stops + [p];
      }
    }

    /** The first call of the phone in the table. */
    method FirstCall(p: string) returns (cid: Option<int>)
      ensures cid == FirstOf(order, callPhone, p)
    {
      for i := 0 to |order|
        invariant FirstOf(order, callPhone, p) == FirstOf(order[i..], callPhone, p)
      {
        if order[i] in callPhone && callPhone[order[i]] == p {
          return Some(order[i]);
        }
        assert order[i..][1..] == order[i + 1..];
      }
      cid := None;
    }

    // ------------------------------------------------------------- poll loop

    /** `process_auto_captures` */
    method ProcessAutoCaptures()
      requires Valid()
      modifies this`starts, this`stops, pcap
      ensures Valid() && View() == Drain(old(View()))
    {
      hide NoDup, Distinct, Views, StartAll, StopAll;
      StartQueued();
      StopQueued();
    }

    method StartQueued()
      modifies this`starts, pcap
      ensures starts == [] && pcap.captures == StartAll(old(pcap.captures), old(starts))
    {
      while starts != []
        invariant StartAll(pcap.captures, starts) == StartAll(old(pcap.captures), old(starts))
        decreases |starts|
      {
        var (p, cid) := starts[0];
        starts := starts[1..];
        if pcap.IsPhoneCapturing(p) {
          continue;
        }
        var _ := pcap.StartForPhone(p, cid);
      }
    }

    method StopQueued()
      modifies this`stops, pcap
      ensures stops == [] && pcap.captures == StopAll(old(pcap.captures), old(stops))
    {
      while stops != []
        invariant StopAll(pcap.captures, stops) == StopAll(old(pcap.captures), old(stops))
        decreases |stops|
      {
        var p := stops[0];
        stops := stops[1..];
        if !pcap.IsPhoneCapturing(p) {
          assert pcap.captures - {p} == pcap.captures;
          continue;
        }
        var _ := pcap.StopForPhone(p);
      }
    }

    /** `process_auto_answers`; returns what it answered. */
    method ProcessAutoAnswers() returns (answered: seq<(string, int)>)
      requires Valid()
      modifies this`autoAnswer
      ensures Valid() && View() == AutoAnswered(old(View()))
      ensures forall p, cid :: (p, cid) in answered <==> Answers(old(View()), p, cid)
    {
      hide NoDup, Distinct, Views;
      ViewKeys();
      ghost var was := View();
      var pending := DrainAnswers();
      answered := [];
      for i := 0 to |pending|
        invariant forall p, cid :: (p, cid) in answered <==> (p, cid) in pending[..i] && cid in calls
      {
        if pending[i].1 in calls {
          answered := answered + [pending[i]];
        }
      }
      assert pending[..|pending|] == pending;
    }

    /** Empties every queue of pending auto-answers. */
    method DrainAnswers() returns (pending: seq<(string, int)>)
      modifies this`autoAnswer
      ensures autoAnswer.Keys == old(autoAnswer).Keys && forall p :: p in autoAnswer ==> autoAnswer[p] == []
      ensures forall p, cid :: (p, cid) in pending <==> Waiting(old(autoAnswer), p, cid)
    {
      pending := [];
      var todo := autoAnswer.Keys;
      while todo != {}
        invariant todo <= autoAnswer.Keys == old(autoAnswer).Keys
        invariant forall p :: p in autoAnswer ==> autoAnswer[p] == if p in todo then old(autoAnswer)[p] else []
        invariant forall p, cid :: (p, cid) in pending <==> p !in todo && Waiting(old(autoAnswer), p, cid)
      {
        var p :| p in todo;
        var taken := DrainQueue(p);
        pending := pending + taken;
        todo := todo - {p};
      }
    }

    /** Empties the pending auto-answers of one phone. */
    method DrainQueue(p: string) returns (taken: seq<(string, int)>)
      requires p in autoAnswer
      modifies this`autoAnswer
      ensures autoAnswer == old(autoAnswer)[p := []]
      ensures forall q, cid :: (q, cid) in taken <==> q == p && cid in old(autoAnswer)[p]
    {
      taken := [];
      while autoAnswer[p] != []
        invariant p in autoAnswer && autoAnswer == old(autoAnswer)[p := autoAnswer[p]]
        invariant forall q, cid :: (q, cid) in taken ==> q == p && cid in old(autoAnswer)[p]
        invariant forall cid :: cid in old(autoAnswer)[p] <==> (p, cid) in taken || cid in autoAnswer[p]
        decreases |autoAnswer[p]|
      {
        var queue := autoAnswer[p];
        assert queue == [queue[0]] + queue[1..];
        taken := taken + [(p, queue[0])];
        autoAnswer := autoAnswer[p := queue[1..]];
      }
    }

    // -------------------------------------------------------------- requests

    /** `_get_call`; takes calls off the incoming queue while it looks. */
    method GetCall(p: string, id: Option<int>, fromIncoming: bool, live: set<int>) returns (r: Option<int>)
      requires Valid()
      modifies this`incoming
      ensures Valid() && r == CallRequests.GetCall(old(View()), p, id, fromIncoming, live)
      ensures incoming == IncomingAfter(old(View()), p, id, fromIncoming)
    {
      hide NoDup, Distinct, FirstLive;
      assert View().calls.Keys == calls.Keys;
      if id.Some? {
        return if id.value in callPhone && callPhone[id.value] == p then id else None;
      }
      if fromIncoming && p in incoming {
        r := TakeFirstTracked(p);
        if r.Some? {
          return;
        }
      }
      r := FirstLiveCall(p, live);
    }

    /** Pops the queue of `p` up to its first tracked call. */
    method TakeFirstTracked(p: string) returns (r: Option<int>)
      requires p in incoming
      modifies this`incoming
      ensures r == FirstTracked(old(incoming)[p], calls.Keys)
      ensures incoming == old(incoming)[p := AfterFirstTracked(old(incoming)[p], calls.Keys)]
    {
      while incoming[p] != []
        invariant p in incoming && incoming == old(incoming)[p := incoming[p]]
        invariant FirstTracked(incoming[p], calls.Keys) == FirstTracked(old(incoming)[p], calls.Keys)
        invariant AfterFirstTracked(incoming[p], calls.Keys) == AfterFirstTracked(old(incoming)[p], calls.Keys)
        decreases |incoming[p]|
      {
        var cid := incoming[p][0];
        incoming := incoming[p := incoming[p][1..]];
        if cid in calls {
          return Some(cid);
        }
      }
      r := None;
    }

    /** The first live call of the phone. */
    method FirstLiveCall(p: string, live: set<int>) returns (r: Option<int>)
      ensures r == FirstLive(order, callPhone, p, live)
    {
      for i := 0 to |order|
        invariant FirstLive(order, callPhone, p, live) == FirstLive(order[i..], callPhone, p, live)
      {
        var cid := order[i];
        if cid in callPhone && callPhone[cid] == p && cid in live {
          return Some(cid);
        }
        assert order[i..][1..] == order[i + 1..];
      }
      r := None;
    }

    /** The live calls of the phone, in table order: those `hangup_all` ends. */
    method LiveCallsOf(p: string, live: set<int>) returns (ls: seq<int>)
      ensures ls == LiveCalls(order, callPhone, p, live)
    {
      hide LiveCalls;
      ls := [];
      for i := 0 to |order|
        invariant LiveCalls(order, callPhone, p, live) == ls + LiveCalls(order[i..], callPhone, p, live)
      {
        var cid := order[i];
        LiveCallsStep(order, callPhone, p, live, i);
        if cid in callPhone && callPhone[cid] == p && cid in live {
          ls := ls + [cid];
        }
      }
      NoLiveCalls(order, callPhone, p, live);
    }

    /** `attended_transfer`; `None` when it raises. */
    method TransferBetween(p: string, id: Option<int>, dest: Option<int>, live: set<int>) returns (r: Option<seq<int>>)
      requires Valid()
      ensures r == Touches(View(), p, AttendedTransfer(id, dest), live)
    {
      hide LiveCalls, NoDup, Distinct;
      assert View().calls.Keys == calls.Keys;
      var ls := LiveCallsOf(p, live);
      if |ls| < 2 {
        return None;
      }
      if id.None? || dest.None? {
        return Some(ls[..2]);
      }
      PairBelongs(View(), p, id.value, dest.value);
      if id.value !in callPhone || callPhone[id.value] != p {
        return None;
      }
      if dest.value !in callPhone || callPhone[dest.value] != p {
        return None;
      }
      r := Some([id.value, dest.value]);
    }

    /** `conference`; `None` when it raises, else the calls it bridges.  `made`
        are the connections: the port of each place in the list to the port of
        each other place, and none when it raises. */
    method Bridge(p: string, ids: seq<int>, live: set<int>) returns (r: Option<seq<int>>, made: set<(Port, Port)>)
      requires Valid()
      ensures r == Touches(View(), p, Conference(ids), live)
      ensures if r.Some? then IsMesh(made, PortsOf(r.value, View().calls)) else made == {}
    {
      hide NoDup, Distinct, WithAudio, IsMesh, PortsOf;
      assert View().calls.Keys == calls.Keys;
      for i := 0 to |ids|
        invariant AllBelong(View(), p, ids[..i])
      {
        if ids[i] !in callPhone || callPhone[ids[i]] != p {
          assert ids[i] in ids && !BelongsTo(View(), p, ids[i]);
          return None, {};
        }
        assert ids[..i + 1] == ids[..i] + [ids[i]];
      }
      assert ids[..|ids|] == ids;
      var audio := AudioCalls(ids);
      if |audio| < 2 {
        return None, {};
      }
      var ports := PortsOf(audio, View().calls);
      made := ConnectAll(ports);
      r := Some(audio);
    }

    /** The calls of the list whose audio port is known. */
    method AudioCalls(ids: seq<int>) returns (ports: seq<int>)
      requires forall cid :: cid in ids ==> cid in calls
      ensures ports == WithAudio(ids, Views(calls))
    {
      hide WithAudio, Views;
      ports := [];
      for i := 0 to |ids|
        invariant WithAudio(ids, Views(calls)) == ports + WithAudio(ids[i..], Views(calls))
      {
        var cid := ids[i];
        assert cid in ids;
        ViewAt(cid);
        WithAudioStep(ids, Views(calls), i);
        if calls[cid].audMed.Some? {
          ports := ports + [cid];
        }
      }
      NoAudio(ids, Views(calls));
    }
  }

  lemma PairBelongs(w: World, p: string, a: int, b: int)
    requires w.calls.Keys == w.owner.Keys
    ensures AllBelong(w, p, [a, b]) <==> BelongsTo(w, p, a) && BelongsTo(w, p, b)
  {
    if AllBelong(w, p, [a, b]) {
      assert a in [a, b] && b in [a, b];
    }
  }

  lemma LiveCallsStep(order: seq<int>, owner: map<int, string>, p: string, live: set<int>, i: nat)
    requires i < |order|
    ensures LiveCalls(order[i..], owner, p, live) ==
            (if order[i] in owner && owner[order[i]] == p && order[i] in live then [order[i]] else [])
            + LiveCalls(order[i + 1..], owner, p, live)
  {
    assert order[i..][1..] == order[i + 1..];
  }

  lemma NoLiveCalls(order: seq<int>, owner: map<int, string>, p: string, live: set<int>)
    ensures LiveCalls(order[|order|..], owner, p, live) == [] && order[0..] == order
  {
  }

  lemma WithAudioStep(ids: seq<int>, calls: map<int, Call>, i: nat)
    requires i < |ids|
    ensures WithAudio(ids[i..], calls) ==
            (if ids[i] in calls && calls[ids[i]].audMed.Some? then [ids[i]] else []) + WithAudio(ids[i + 1..], calls)
  {
    assert ids[i..][1..] == ids[i + 1..];
  }

  /** The audio ports of the calls, in their order. */
  function PortsOf(ids: seq<int>, calls: map<int, Call>): seq<nat> {
    if ids == [] then []
    else (if ids[0] in calls && calls[ids[0]].audMed.Some? then [calls[ids[0]].audMed.value] else [])
         + PortsOf(ids[1..], calls)
  }

  /** `e` connects the `i`th port to the `j`th, another place in the list. */
  predicate Connects(ports: seq<nat>, i: int, j: int, e: (Port, Port)) {
    0 <= i < |ports| && 0 <= j < |ports| && i != j && e == (Audio(ports[i]), Audio(ports[j]))
  }

  /** The connections are those of each port to every other place. */
  ghost predicate IsMesh(made: set<(Port, Port)>, ports: seq<nat>) {
    forall e :: e in made <==> exists i, j :: Connects(ports, i, j, e)
  }

  /** Of different ports, each is connected to each other one, and none to itself. */
  lemma MeshOfDistinct(made: set<(Port, Port)>, ports: seq<nat>)
    requires forall i, j :: 0 <= i < j < |ports| ==> ports[i] != ports[j]
    ensures IsMesh(made, ports) <==>
            made == set x, y | x in ports && y in ports && x != y :: (Audio(x), Audio(y))
  {
    var all := set x, y | x in ports && y in ports && x != y :: (Audio(x), Audio(y));
    forall e ensures e in all <==> exists i, j :: Connects(ports, i, j, e) {
      if e in all {
        var x, y :| x in ports && y in ports && x != y && e == (Audio(x), Audio(y));
        var i :| 0 <= i < |ports| && ports[i] == x;
        var j :| 0 <= j < |ports| && ports[j] == y;
        assert Connects(ports, i, j, e);
      }
      if i, j :| Connects(ports, i, j, e) {
        assert ports[i] in ports && ports[j] in ports && ports[i] != ports[j];
      }
    }
  }

  /** The two nested loops of `conference`. */
  method ConnectAll(ports: seq<nat>) returns (made: set<(Port, Port)>)
    ensures IsMesh(made, ports)
  {
    made := {};
    for a := 0 to |ports|
      invariant forall e :: e in made <==> exists i, j :: i < a && Connects(ports, i, j, e)
    {
      ghost var before := made;
      for b := 0 to |ports|
        invariant forall e :: e in made <==> e in before || exists j :: j < b && Connects(ports, a, j, e)
      {
        if a != b {
          var e := (Audio(ports[a]), Audio(ports[b]));
          assert Connects(ports, a, b, e);
          made := made + {e};
        }
      }
    }
  }

  lemma NoAudio(ids: seq<int>, calls: map<int, Call>)
    ensures WithAudio(ids[|ids|..], calls) == [] && ids[0..] == ids
  {
  }

  function Ids(xs: seq<int>): set<int> {
    set x | x in xs
  }

  lemma IdsStep(xs: seq<int>, i: nat)
    requires i < |xs|
    ensures Ids(xs[..i + 1]) == Ids(xs[..i]) + {xs[i]}
  {
    assert xs[..i + 1] == xs[..i] + [xs[i]];
  }

  lemma NoDupAppend(xs: seq<int>, x: int)
    requires NoDup(xs) && x !in xs
    ensures NoDup(xs + [x])
  {
  }

  // ------------------------------------------------- the calls of a phone

  /** The calls of the set get the codec list. */
  function CodecsOn(views: map<int, Call>, ids: set<int>, list: Option<seq<string>>): map<int, Call> {
    map k | k in views :: if k in ids then views[k].(codecs := Normal(list)) else views[k]
  }

  /** The calls of the set get the recording flag and act on it. */
  function RecordingOn(views: map<int, Call>, ids: set<int>, on: bool, stamp: int, disks: map<int, Disk>): map<int, Call> {
    map k | k in views :: if k in ids then SetRecording(views[k], on, k, stamp, DiskFor(disks, k)) else views[k]
  }

  function WithCodecs(w: World, p: string, list: Option<seq<string>>): World {
    w.(calls := CodecsOn(w.calls, CallsOf(w, p), list))
  }

  function WithRecording(w: World, p: string, on: bool, stamp: int, disks: map<int, Disk>): World {
    w.(calls := RecordingOn(w.calls, CallsOf(w, p), on, stamp, disks))
  }

  lemma CodecsOnNone(views: map<int, Call>, list: Option<seq<string>>)
    ensures CodecsOn(views, Ids([]), list) == views
  {
  }

  lemma CodecsOnStep(views: map<int, Call>, xs: seq<int>, i: nat, list: Option<seq<string>>)
    requires i < |xs| && xs[i] in CodecsOn(views, Ids(xs[..i]), list)
    ensures var done := CodecsOn(views, Ids(xs[..i]), list);
            CodecsOn(views, Ids(xs[..i + 1]), list) == done[xs[i] := done[xs[i]].(codecs := Normal(list))]
  {
    hide Ids, Normal;
    IdsStep(xs, i);
  }

  lemma RecordingOnNone(views: map<int, Call>, on: bool, stamp: int, disks: map<int, Disk>)
    ensures RecordingOn(views, Ids([]), on, stamp, disks) == views
  {
    hide SetRecording, DiskFor;
  }

  lemma RecordingOnStep(views: map<int, Call>, xs: seq<int>, i: nat, on: bool, stamp: int, disks: map<int, Disk>)
    requires NoDup(xs) && i < |xs| && xs[i] in RecordingOn(views, Ids(xs[..i]), on, stamp, disks)
    ensures var done := RecordingOn(views, Ids(xs[..i]), on, stamp, disks);
            RecordingOn(views, Ids(xs[..i + 1]), on, stamp, disks) ==
            done[xs[i] := SetRecording(done[xs[i]], on, xs[i], stamp, DiskFor(disks, xs[i]))]
  {
    hide Ids, SetRecording, DiskFor;
    IdsStep(xs, i);
    NotYetSeen(xs, i);
  }

  lemma NotYetSeen(xs: seq<int>, i: nat)
    requires NoDup(xs) && i < |xs|
    ensures xs[i] !in Ids(xs[..i])
  {
  }
}
