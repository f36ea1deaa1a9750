/** Which calls a phone's requests act on. */
module CallRequests {
  import opened Text
  import opened CallMedia
  import opened PhoneSystem

  /** The requests a phone's tools make on calls. */
  datatype Operation =
    | Answer(id: Option<int>) | Reject(id: Option<int>)
    | Hangup(id: Option<int>) | Transfer(id: Option<int>) | Info(id: Option<int>)
    | PlayAudio(id: Option<int>) | StopAudio(id: Option<int>)
    | AttendedTransfer(id: Option<int>, dest: Option<int>)
    | Conference(ids: seq<int>)
    | Hold(cid: int) | Unhold(cid: int) | Dtmf(cid: int)
    | HangupAll

  predicate BelongsTo(w: World, p: string, cid: int) {
    cid in w.owner && w.owner[cid] == p
  }

  /** The first tracked call of an incoming queue. */
  function FirstTracked(q: seq<int>, tracked: set<int>): Option<int> {
    if q == [] then None else if q[0] in tracked then Some(q[0]) else FirstTracked(q[1..], tracked)
  }

  /** What is left of the queue once that call was taken. */
  function AfterFirstTracked(q: seq<int>, tracked: set<int>): seq<int> {
    if q == [] then [] else if q[0] in tracked then q[1..] else AfterFirstTracked(q[1..], tracked)
  }

  /** The first call of the phone, in the order of the table, that is live. */
  function FirstLive(order: seq<int>, owner: map<int, string>, p: string, live: set<int>): Option<int> {
    if order == [] then None
    else if order[0] in owner && owner[order[0]] == p && order[0] in live then Some(order[0])
    else FirstLive(order[1..], owner, p, live)
  }

  /** `_get_call`; `live` are the calls the foreign stack reports active. */
  function GetCall(w: World, p: string, id: Option<int>, fromIncoming: bool, live: set<int>): Option<int> {
    match id
    case Some(cid) => if BelongsTo(w, p, cid) && cid in w.calls then Some(cid) else None
    case None =>
      var queued := if fromIncoming && p in w.incoming then FirstTracked(w.incoming[p], w.calls.Keys) else None;
      if queued.Some? then queued else FirstLive(w.order, w.owner, p, live)
  }

  /** What `_get_call` leaves in the incoming queues. */
  function IncomingAfter(w: World, p: string, id: Option<int>, fromIncoming: bool): map<string, seq<int>> {
    if id.None? && fromIncoming && p in w.incoming
    then w.incoming[p := AfterFirstTracked(w.incoming[p], w.calls.Keys)] else w.incoming
  }

  function LiveCalls(order: seq<int>, owner: map<int, string>, p: string, live: set<int>): seq<int> {
    if order == [] then []
    else (if order[0] in owner && owner[order[0]] == p && order[0] in live then [order[0]] else [])
         + LiveCalls(order[1..], owner, p, live)
  }

  /** The calls of the list that have audio. */
  function WithAudio(ids: seq<int>, calls: map<int, Call>): seq<int> {
    if ids == [] then []
    else (if ids[0] in calls && calls[ids[0]].audMed.Some? then [ids[0]] else []) + WithAudio(ids[1..], calls)
  }

  predicate AllBelong(w: World, p: string, ids: seq<int>) {
    forall cid :: cid in ids ==> BelongsTo(w, p, cid) && cid in w.calls
  }

  /** The calls an operation of phone `p` acts on, `None` when it fails. */
  function Touches(w: World, p: string, op: Operation, live: set<int>): Option<seq<int>> {
    match op
    case Answer(id) => One(GetCall(w, p, id, true, live))
    case Reject(id) => One(GetCall(w, p, id, true, live))
    case Hangup(id) => One(GetCall(w, p, id, false, live))
    case Transfer(id) => One(GetCall(w, p, id, false, live))
    case Info(id) => One(GetCall(w, p, id, false, live))
    case PlayAudio(id) => One(GetCall(w, p, id, false, live))
    case StopAudio(id) => One(GetCall(w, p, id, false, live))
    case AttendedTransfer(id, dest) =>
      var ls := LiveCalls(w.order, w.owner, p, live);
      if |ls| < 2 then None
      else if id.Some? && dest.Some? then
        if AllBelong(w, p, [id.value, dest.value]) then Some([id.value, dest.value]) else None
      else Some(ls[..2])
    case Conference(ids) =>
      if AllBelong(w, p, ids) && |WithAudio(ids, w.calls)| >= 2 then Some(WithAudio(ids, w.calls)) else None
    case Hold(cid) => One(GetCall(w, p, Some(cid), false, live))
    case Unhold(cid) => One(GetCall(w, p, Some(cid), false, live))
    case Dtmf(cid) => One(GetCall(w, p, Some(cid), false, live))
    case HangupAll => Some(LiveCalls(w.order, w.owner, p, live))
  }

  function One(id: Option<int>): Option<seq<int>> {
    if id.Some? then Some([id.value]) else None
  }
}
