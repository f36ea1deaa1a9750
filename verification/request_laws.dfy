/** Which calls a request means, in every reachable state. */
module RequestLaws {
  import opened Text
  import opened CallMedia
  import opened PhoneSystem
  import opened PhoneInvariants
  import opened CallRequests
  import opened PhoneLaws

  predicate LiveOwn(w: World, p: string, live: set<int>, cid: int) {
    BelongsTo(w, p, cid) && cid in live
  }

  /** The first of the phone's live calls, in the order of the tables. */
  ghost predicate OldestLive(w: World, p: string, live: set<int>, cid: int) {
    exists k :: 0 <= k < |w.order| && w.order[k] == cid && LiveOwn(w, p, live, cid)
                && forall j :: 0 <= j < k ==> !LiveOwn(w, p, live, w.order[j])
  }

  lemma {:induction false} FirstLiveFrom(w: World, p: string, live: set<int>, i: nat) returns (k: nat)
    requires i <= |w.order|
    ensures i <= k <= |w.order| && forall j :: i <= j < k ==> !LiveOwn(w, p, live, w.order[j])
    ensures if k == |w.order| then FirstLive(w.order[i..], w.owner, p, live) == None
            else LiveOwn(w, p, live, w.order[k]) && FirstLive(w.order[i..], w.owner, p, live) == Some(w.order[k])
    decreases |w.order| - i
  {
    if i == |w.order| {
      k := i;
    } else if LiveOwn(w, p, live, w.order[i]) {
      k := i;
    } else {
      k := FirstLiveFrom(w, p, live, i + 1);
      assert w.order[i..][1..] == w.order[i + 1..];
    }
  }

  /** Without an id a request means the phone's oldest live call. */
  lemma OldestIsMeant(w: World, p: string, live: set<int>)
    requires Invariant(w)
    ensures match GetCall(w, p, None, false, live)
            case Some(cid) => OldestLive(w, p, live, cid)
            case None => forall cid :: !LiveOwn(w, p, live, cid)
  {
    hide LiveOwn, FirstLive;
    var k := FirstLiveFrom(w, p, live, 0);
    assert w.order[0..] == w.order;
    if k == |w.order| {
      forall cid ensures !LiveOwn(w, p, live, cid) {
        OwnIsOrdered(w, p, live, cid);
        if cid in w.order {
          var j :| 0 <= j < |w.order| && w.order[j] == cid;
        }
      }
    }
  }

  lemma OwnIsOrdered(w: World, p: string, live: set<int>, cid: int)
    requires Invariant(w)
    ensures LiveOwn(w, p, live, cid) ==> cid in w.order
  {
    KeysAgree(w);
    hide NoDup, TrackedCall, TransportsMatch, QueuesOwned, FollowsConfig, CountersBounded;
  }

  /** A request with an id means that call, if the phone owns it. */
  lemma NamedIsMeant(w: World, p: string, cid: int, fromIncoming: bool, live: set<int>)
    requires Invariant(w)
    ensures GetCall(w, p, Some(cid), fromIncoming, live) == if BelongsTo(w, p, cid) then Some(cid) else None
  {
    KeysAgree(w);
    hide Invariant;
  }

  lemma QueueHeadTracked(w: World, p: string)
    requires Invariant(w) && p in w.incoming && w.incoming[p] != []
    ensures w.incoming[p][0] in w.calls
  {
    KeysAgree(w);
    hide TablesAgree, TransportsMatch, FollowsConfig, CountersBounded;
    assert QueueOwned(w.incoming[p], p, w.owner);
    QueueHead(w.incoming[p], p, w.owner);
  }

  lemma QueueHead(q: seq<int>, p: string, owner: map<int, string>)
    requires QueueOwned(q, p, owner) && q != []
    ensures q[0] in owner
  {
    hide NoDup;
    var cid := q[0];
    assert cid in q;
  }

  /** Answering or rejecting without an id takes the call that has waited
      longest, and no other, from the phone's queue; with nothing waiting it
      means the oldest live call. */
  lemma LongestWaitIsMeant(w: World, p: string, live: set<int>)
    requires Invariant(w)
    ensures if p in w.incoming && w.incoming[p] != [] then
              && GetCall(w, p, None, true, live) == Some(w.incoming[p][0])
              && IncomingAfter(w, p, None, true) == w.incoming[p := w.incoming[p][1..]]
            else
              && GetCall(w, p, None, true, live) == GetCall(w, p, None, false, live)
              && IncomingAfter(w, p, None, true) == w.incoming
  {
    if p in w.incoming && w.incoming[p] != [] {
      QueueHeadTracked(w, p);
    } else if p in w.incoming {
      assert w.incoming[p := []] == w.incoming;
    }
    hide Invariant, FirstLive;
  }

  /** What the requests without an id act on, in every reachable state. */
  lemma RequestsWithoutId(steps: seq<Step>, p: string, live: set<int>)
    requires Run(steps).Some?
    ensures var w := Run(steps).value;
            && (forall op :: op in {Operation.Answer(None), Operation.Reject(None)} ==>
                  if p in w.incoming && w.incoming[p] != [] then Touches(w, p, op, live) == Some([w.incoming[p][0]])
                  else MeansOldest(w, p, op, live))
            && (forall op ::
                  op in {Operation.Hangup(None), Operation.Transfer(None), Operation.Info(None),
                         Operation.PlayAudio(None), Operation.StopAudio(None)}
                  ==> MeansOldest(w, p, op, live))
  {
    hide Run, Invariant, GetCall, OldestLive, LiveOwn;
    EveryRun(steps);
    var w := Run(steps).value;
    OldestIsMeant(w, p, live);
    LongestWaitIsMeant(w, p, live);
  }

  ghost predicate MeansOldest(w: World, p: string, op: Operation, live: set<int>) {
    match Touches(w, p, op, live)
    case Some(ids) => |ids| == 1 && OldestLive(w, p, live, ids[0])
    case None => forall cid :: !LiveOwn(w, p, live, cid)
  }

  // ------------------------------------------------------ all the live calls

  /** `a` stands before `b`. */
  ghost predicate Precedes(order: seq<int>, a: int, b: int) {
    exists i, j :: 0 <= i < j < |order| && order[i] == a && order[j] == b
  }

  /** The calls stand in the order in which the list has them. */
  ghost predicate InOrder(cs: seq<int>, order: seq<int>) {
    forall i, j :: 0 <= i < j < |cs| ==> Precedes(order, cs[i], cs[j])
  }

  lemma PrecedesLater(x: int, order: seq<int>, a: int, b: int)
    ensures Precedes(order, a, b) ==> Precedes([x] + order, a, b)
    ensures b in order ==> Precedes([x] + order, x, b)
  {
    var all := [x] + order;
    if i, j :| 0 <= i < j < |order| && order[i] == a && order[j] == b {
      assert all[i + 1] == a && all[j + 1] == b;
    }
    if j :| 0 <= j < |order| && order[j] == b {
      assert all[0] == x && all[j + 1] == b;
    }
  }

  lemma InOrderCons(x: int, cs: seq<int>, order: seq<int>)
    requires InOrder(cs, order) && forall i :: 0 <= i < |cs| ==> cs[i] in order
    ensures InOrder(cs, [x] + order) && InOrder([x] + cs, [x] + order)
  {
    hide Precedes;
    forall i, j | 0 <= i < j < |cs| ensures Precedes([x] + order, cs[i], cs[j]) {
      PrecedesLater(x, order, cs[i], cs[j]);
    }
    forall i, j | 0 <= i < j < |[x] + cs| ensures Precedes([x] + order, ([x] + cs)[i], ([x] + cs)[j]) {
      PrecedesLater(x, order, ([x] + cs)[i], cs[j - 1]);
      assert i > 0 ==> ([x] + cs)[i] == cs[i - 1];
    }
  }

  /** The phone's live calls, each once, in the order of the tables. */
  lemma {:induction false} LiveCallsInOrder(order: seq<int>, w: World, p: string, live: set<int>)
    ensures var cs := LiveCalls(order, w.owner, p, live);
            && (forall cid :: cid in cs <==> cid in order && LiveOwn(w, p, live, cid)) && InOrder(cs, order)
  {
    hide InOrder;
    if order == [] {
      assert InOrder([], []) by { NothingInOrder(); }
    } else {
      var x, rest := order[0], LiveCalls(order[1..], w.owner, p, live);
      LiveCallsInOrder(order[1..], w, p, live);
      assert order == [x] + order[1..];
      forall i | 0 <= i < |rest| ensures rest[i] in order[1..] {
        var c := rest[i];
        assert c in rest;
      }
      InOrderCons(x, rest, order[1..]);
      assert [] + rest == rest;
    }
  }

  lemma NothingInOrder()
    ensures InOrder([], [])
  {
  }

  /** Hanging up everything means exactly the phone's live calls. */
  lemma HangsUpLive(steps: seq<Step>, p: string, live: set<int>)
    requires Run(steps).Some?
    ensures var w := Run(steps).value;
            var ids := Touches(w, p, HangupAll, live);
            && ids.Some? && (forall cid :: cid in ids.value <==> LiveOwn(w, p, live, cid))
            && InOrder(ids.value, w.order)
  {
    hide Run, LiveCalls, LiveOwn, Invariant, InOrder;
    EveryRun(steps);
    var w := Run(steps).value;
    LiveCallsInOrder(w.order, w, p, live);
    forall cid ensures LiveOwn(w, p, live, cid) ==> cid in w.order {
      OwnIsOrdered(w, p, live, cid);
    }
    assert Touches(w, p, HangupAll, live) == Some(LiveCalls(w.order, w.owner, p, live));
  }

  lemma OrderOnce(w: World)
    requires Invariant(w)
    ensures NoDup(w.order)
  {
    hide TrackedCall, TransportsMatch, QueuesOwned, FollowsConfig, CountersBounded;
  }

  /** An attended transfer needs two live calls.  With two ids the first call
      is transferred to the second, if the phone owns both; else the oldest
      live call is, to the next. */
  lemma TransferLegs(steps: seq<Step>, p: string, id: Option<int>, dest: Option<int>, live: set<int>)
    requires Run(steps).Some?
    ensures var w := Run(steps).value;
            var legs, all := Touches(w, p, AttendedTransfer(id, dest), live), Touches(w, p, HangupAll, live).value;
            if |all| < 2 then legs == None
            else if id.Some? && dest.Some? then
              legs == if BelongsTo(w, p, id.value) && BelongsTo(w, p, dest.value) then Some([id.value, dest.value]) else None
            else
              && legs == Some([all[0], all[1]]) && OldestLive(w, p, live, all[0])
              && OldestLive(w, p, live - {all[0]}, all[1])
  {
    hide Run, LiveCalls, LiveOwn, Invariant, OldestLive, BelongsTo;
    EveryRun(steps);
    var w := Run(steps).value;
    KeysOfOwn(w, p);
    var all := LiveCalls(w.order, w.owner, p, live);
    if |all| >= 2 {
      OrderOnce(w);
      FirstTwo(w, p, live);
      assert all[..2] == [all[0], all[1]];
    }
    if id.Some? && dest.Some? {
      TwoBelong(w, p, id.value, dest.value);
    }
  }

  lemma KeysOfOwn(w: World, p: string)
    requires Invariant(w)
    ensures forall cid :: BelongsTo(w, p, cid) ==> cid in w.calls
  {
    KeysAgree(w);
    hide Invariant;
  }

  lemma TwoBelong(w: World, p: string, a: int, b: int)
    requires forall cid :: BelongsTo(w, p, cid) ==> cid in w.calls
    ensures AllBelong(w, p, [a, b]) <==> BelongsTo(w, p, a) && BelongsTo(w, p, b)
  {
    hide BelongsTo;
    assert a in [a, b] && b in [a, b];
  }

  lemma {:induction false} LiveFirst(order: seq<int>, owner: map<int, string>, p: string, live: set<int>)
    ensures var cs := LiveCalls(order, owner, p, live);
            FirstLive(order, owner, p, live) == if cs == [] then None else Some(cs[0])
  {
    if order != [] {
      LiveFirst(order[1..], owner, p, live);
    }
  }

  lemma {:induction false} LiveSecond(order: seq<int>, owner: map<int, string>, p: string, live: set<int>)
    requires NoDup(order) && LiveCalls(order, owner, p, live) != []
    ensures var cs := LiveCalls(order, owner, p, live);
            LiveCalls(order, owner, p, live - {cs[0]}) == cs[1..]
  {
    var x := order[0];
    if x in owner && owner[x] == p && x in live {
      LiveWithout(order[1..], owner, p, live, x);
    } else {
      LiveSecond(order[1..], owner, p, live);
    }
  }

  lemma {:induction false} LiveWithout(order: seq<int>, owner: map<int, string>, p: string, live: set<int>, x: int)
    requires forall i :: 0 <= i < |order| ==> order[i] != x
    ensures LiveCalls(order, owner, p, live - {x}) == LiveCalls(order, owner, p, live)
  {
    if order != [] {
      LiveWithout(order[1..], owner, p, live, x);
    }
  }

  lemma FirstTwo(w: World, p: string, live: set<int>)
    requires Invariant(w) && NoDup(w.order) && |LiveCalls(w.order, w.owner, p, live)| >= 2
    ensures var all := LiveCalls(w.order, w.owner, p, live);
            OldestLive(w, p, live, all[0]) && OldestLive(w, p, live - {all[0]}, all[1])
  {
    var all := LiveCalls(w.order, w.owner, p, live);
    hide LiveCalls, FirstLive, OldestLive, LiveOwn, Invariant;
    LiveFirst(w.order, w.owner, p, live);
    OldestIsMeant(w, p, live);
    LiveSecond(w.order, w.owner, p, live);
    LiveFirst(w.order, w.owner, p, live - {all[0]});
    OldestIsMeant(w, p, live - {all[0]});
  }

  /** A conference bridges the calls of the list that have audio, in the order
      given, if the phone owns them all and two have audio. */
  lemma {:induction false} BridgedAre(ids: seq<int>, calls: map<int, Call>)
    ensures WithAudio(ids, calls) == Keeping(ids, set cid | cid in calls && calls[cid].audMed.Some?)
  {
    if ids != [] {
      BridgedAre(ids[1..], calls);
    }
  }

  predicate TwoOf(ids: seq<int>, ks: set<int>) {
    exists i, j :: 0 <= i < j < |ids| && ids[i] in ks && ids[j] in ks
  }

  lemma {:induction false} KeepingSome(ids: seq<int>, ks: set<int>)
    ensures Keeping(ids, ks) != [] <==> exists i :: 0 <= i < |ids| && ids[i] in ks
  {
    if ids != [] {
      KeepingSome(ids[1..], ks);
      assert forall i :: 0 <= i < |ids| - 1 ==> ids[1..][i] == ids[i + 1];
      if i :| 0 <= i < |ids| - 1 && ids[1..][i] in ks {
        assert ids[i + 1] in ks;
      }
      if i :| 0 < i < |ids| && ids[i] in ks {
        assert ids[1..][i - 1] in ks;
      }
    }
  }

  lemma {:induction false} KeepingTwo(ids: seq<int>, ks: set<int>)
    ensures |Keeping(ids, ks)| >= 2 <==> TwoOf(ids, ks)
  {
    if ids != [] {
      KeepingTwo(ids[1..], ks);
      KeepingSome(ids[1..], ks);
      hide TwoOf;
      TwoOfCons(ids, ks);
    }
  }

  lemma TwoOfCons(ids: seq<int>, ks: set<int>)
    requires ids != []
    ensures TwoOf(ids, ks) <==>
            TwoOf(ids[1..], ks) || (ids[0] in ks && exists i :: 0 <= i < |ids| - 1 && ids[1..][i] in ks)
  {
    assert forall i :: 0 <= i < |ids| - 1 ==> ids[1..][i] == ids[i + 1];
    if i, j :| 0 <= i < j < |ids| && ids[i] in ks && ids[j] in ks {
      assert ids[1..][j - 1] in ks;
      if i > 0 {
        assert ids[1..][i - 1] in ks;
      }
    }
    if i, j :| 0 <= i < j < |ids| - 1 && ids[1..][i] in ks && ids[1..][j] in ks {
      assert ids[i + 1] in ks && ids[j + 1] in ks;
    }
    if i :| 0 <= i < |ids| - 1 && ids[1..][i] in ks && ids[0] in ks {
      assert ids[0] in ks && ids[i + 1] in ks;
    }
  }

  /** A conference takes place if and only if the phone owns every call of the
      list and two of them have audio. */
  lemma ConferenceIff(w: World, p: string, ids: seq<int>, live: set<int>)
    ensures Touches(w, p, Conference(ids), live).Some? <==>
            && (forall cid :: cid in ids ==> BelongsTo(w, p, cid) && cid in w.calls)
            && TwoOf(ids, set cid | cid in w.calls && w.calls[cid].audMed.Some?)
  {
    hide TwoOf, Keeping, WithAudio, BelongsTo;
    BridgedAre(ids, w.calls);
    KeepingTwo(ids, set cid | cid in w.calls && w.calls[cid].audMed.Some?);
  }
}
