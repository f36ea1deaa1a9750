/** The phones, their calls and their captures as one state, and what each
    callback, user request and poll does to it. */
module PhoneSystem {
  import opened Text
  import opened CallMedia

  /** The fields of a phone's configuration that the other parts read. */
  datatype Config = Config(autoAnswer: bool, codecs: Option<seq<string>>, recording: bool, capture: bool,
                           transportId: nat)

  /** Registry: accounts, configs, open transports.  Manager: the two call
      tables with their insertion order, the incoming and auto-answer queues,
      the active-call counter, the capture queues.  Captures: the running
      tcpdump of each phone, with the call it was started for. */
  datatype World = World(
    accounts: set<string>, configs: map<string, Config>, transports: set<nat>,
    calls: map<int, Call>, owner: map<int, string>, order: seq<int>,
    incoming: map<string, seq<int>>, autoAnswer: map<string, seq<int>>,
    active: map<string, int>, starts: seq<(string, Option<int>)>, stops: seq<string>,
    captures: map<string, Option<int>>)

  const Empty := World({}, map[], {}, map[], map[], [], map[], map[], map[], [], [], map[])

  // ------------------------------------------------------------- sequences

  function Keeping(xs: seq<int>, ks: set<int>): (r: seq<int>)
    ensures forall x :: x in r <==> x in xs && x in ks
  {
    if xs == [] then [] else (if xs[0] in ks then [xs[0]] else []) + Keeping(xs[1..], ks)
  }

  predicate NoDup(xs: seq<int>) {
    forall i, j :: 0 <= i < j < |xs| ==> xs[i] != xs[j]
  }

  lemma {:induction false} KeepingNoDup(xs: seq<int>, ks: set<int>)
    requires NoDup(xs)
    ensures NoDup(Keeping(xs, ks))
  {
    if xs != [] {
      KeepingNoDup(xs[1..], ks);
      var rest := Keeping(xs[1..], ks);
      assert forall i :: 0 <= i < |rest| ==> rest[i] in rest;
      assert forall x :: x in xs[1..] ==> exists i :: 1 <= i < |xs| && xs[i] == x;
    }
  }

  function PhonesOf(q: seq<(string, Option<int>)>): set<string> {
    set e | e in q :: e.0
  }

  function Members(q: seq<string>): set<string> {
    set p | p in q
  }

  // ------------------------------------------------------- registry, hooks

  function CallsOf(w: World, p: string): set<int> {
    set cid | cid in w.owner && w.owner[cid] == p
  }

  lemma SameOwner(v: World, w: World, p: string)
    requires v.owner == w.owner
    ensures CallsOf(v, p) == CallsOf(w, p)
  {
  }

  /** The calls of the set leave both tables. */
  function Forget(w: World, gone: set<int>): World {
    w.(calls := w.calls - gone, owner := w.owner - gone, order := Keeping(w.order, w.calls.Keys - gone))
  }

  /** `_on_phone_dropped` */
  function PhoneDropped(w: World, p: string): World {
    Forget(w, CallsOf(w, p)).(
      incoming := w.incoming - {p}, autoAnswer := w.autoAnswer - {p}, active := w.active - {p},
      stops := w.stops + (if p in w.captures then [p] else []))
  }

  /** `_on_phone_added` */
  function PhoneAdded(w: World, p: string): World {
    w.(incoming := if p in w.incoming then w.incoming else w.incoming[p := []],
       autoAnswer := if p in w.autoAnswer then w.autoAnswer else w.autoAnswer[p := []])
  }

  /** `drop_phone`: the tables, the manager's hook, the transport. */
  function DropPhone(w: World, p: string): World {
    if p !in w.accounts then w.(configs := w.configs - {p})
    else
      var v := PhoneDropped(w.(accounts := w.accounts - {p}, configs := w.configs - {p}), p);
      if p in w.configs then v.(transports := v.transports - {w.configs[p].transportId}) else v
  }

  /** `add_phone` over the transport `tp` that the engine created. */
  function AddPhone(w: World, p: string, cfg: Config, tp: nat): World {
    var v := if p in w.accounts then DropPhone(w, p) else w;
    PhoneAdded(v.(transports := v.transports + {tp}, accounts := v.accounts + {p},
                  configs := v.configs[p := cfg.(transportId := tp)]), p)
  }

  lemma DropAccounts(w: World, p: string)
    ensures DropPhone(w, p).accounts == w.accounts - {p}
    ensures DropPhone(w, p).configs == w.configs - {p}
  {
    hide PhoneDropped;
    DroppedAccounts(w.(accounts := w.accounts - {p}, configs := w.configs - {p}), p);
  }

  lemma DroppedAccounts(w: World, p: string)
    ensures PhoneDropped(w, p).accounts == w.accounts && PhoneDropped(w, p).configs == w.configs
  {
    hide Keeping, CallsOf;
  }

  lemma AddAccounts(w: World, p: string, cfg: Config, tp: nat)
    ensures AddPhone(w, p, cfg, tp).accounts == w.accounts + {p}
    ensures AddPhone(w, p, cfg, tp).configs == w.configs[p := cfg.(transportId := tp)]
  {
    hide DropPhone;
    DropAccounts(w, p);
  }

  /** One phone after another is dropped. */
  function DropEach(w: World, ps: seq<string>): World {
    if ps == [] then w else DropPhone(DropEach(w, ps[..|ps| - 1]), ps[|ps| - 1])
  }

  /** `reregister_phone`; an unknown phone is an error. */
  function Reregister(w: World, p: string, tp: nat): World {
    if p in w.configs then AddPhone(w, p, w.configs[p], tp) else w
  }

  // ----------------------------------------------------------------- calls

  function Track(w: World, p: string, cid: int): World {
    var c := if p in w.configs then NewCall(p, w.configs[p].codecs, w.configs[p].recording)
             else NewCall(p, None, true);
    w.(calls := w.calls[cid := c], owner := w.owner[cid := p],
       order := if cid in w.owner then w.order else w.order + [cid])
  }

  function Queued(m: map<string, seq<int>>, p: string, cid: int): map<string, seq<int>> {
    m[p := (if p in m then m[p] else []) + [cid]]
  }

  /** `_on_incoming_call` */
  function IncomingCall(w: World, p: string, cid: int): World {
    if p !in w.accounts then w
    else
      Track(w, p, cid).(
        incoming := Queued(w.incoming, p, cid),
        autoAnswer := if p in w.configs && w.configs[p].autoAnswer then Queued(w.autoAnswer, p, cid) else w.autoAnswer)
  }

  /** `make_call`, once the foreign stack gave the call its id. */
  function MakeCall(w: World, p: string, cid: int): World {
    if p !in w.accounts then w else Track(w, p, cid)
  }

  function ActiveCount(w: World, p: string): int {
    if p in w.active then w.active[p] else 0
  }

  /** `_register_call_active` */
  function RegisterActive(w: World, p: string, cid: int): World {
    var n := ActiveCount(w, p) + 1;
    w.(active := w.active[p := n],
       starts := if n == 1 && p in w.configs && w.configs[p].capture then w.starts + [(p, Some(cid))] else w.starts)
  }

  /** `onCallMediaState` of a call, with the callback it may fire. */
  function CallMediaState(w: World, cid: int, streams: seq<Stream>): World
    requires cid in w.calls
  {
    var c := w.calls[cid];
    var d := MediaState(c, cid, streams);
    var v := w.(calls := w.calls[cid := d]);
    if !c.counted && d.counted then RegisterActive(v, c.phone, cid) else v
  }

  function QueuesWithin(incoming: map<string, seq<int>>, ks: set<int>): map<string, seq<int>> {
    map q | q in incoming :: Keeping(incoming[q], ks)
  }

  function Stale(w: World): set<int> {
    set cid | cid in w.calls && w.calls[cid].disconnected
  }

  /** The counter of a phone goes down; the last call may stop the capture. */
  function CountDown(w: World, p: string): World {
    if p !in w.active then w
    else if w.active[p] - 1 > 0 then w.(active := w.active[p := w.active[p] - 1])
    else w.(active := w.active - {p}, stops := w.stops + (if p in w.captures then [p] else []))
  }

  /** `_on_call_disconnected` for a call of phone `p`. */
  function CallEnded(w: World, p: string): World {
    CountDown(Forget(w, Stale(w)).(incoming := QueuesWithin(w.incoming, w.calls.Keys - Stale(w))), p)
  }

  /** `onCallState` for a call that got disconnected. */
  function CallDisconnected(w: World, cid: int): World
    requires cid in w.calls
  {
    CallEnded(w.(calls := w.calls[cid := Disconnect(w.calls[cid])]), w.calls[cid].phone)
  }

  function WithCall(w: World, cid: int, c: Call): World {
    w.(calls := w.calls[cid := c])
  }

  // --------------------------------------------------------------- toggles

  /** `auto_answer` of `update_phone` */
  function SetAutoAnswer(w: World, p: string, on: bool): World {
    if p in w.configs then w.(configs := w.configs[p := w.configs[p].(autoAnswer := on)]) else w
  }

  /** `codecs` of `update_phone` and `set_codecs_for_phone` */
  function SetCodecs(w: World, p: string, list: seq<string>): World {
    if p !in w.configs then w
    else
      w.(configs := w.configs[p := w.configs[p].(codecs := Some(list))],
         calls := map cid | cid in w.calls ::
           if cid in w.owner && w.owner[cid] == p then w.calls[cid].(codecs := Normal(Some(list))) else w.calls[cid])
  }

  function DiskFor(disks: map<int, Disk>, cid: int): Disk {
    if cid in disks then disks[cid] else Writable
  }

  /** `recording_enabled` of `update_phone` and `set_recording_enabled` */
  function SetRecordingFlag(w: World, p: string, on: bool, stamp: int, disks: map<int, Disk>): World {
    if p !in w.configs then w
    else
      w.(configs := w.configs[p := w.configs[p].(recording := on)],
         calls := map cid | cid in w.calls ::
           if cid in w.owner && w.owner[cid] == p
           then SetRecording(w.calls[cid], on, cid, stamp, DiskFor(disks, cid)) else w.calls[cid])
  }

  function FirstOf(order: seq<int>, owner: map<int, string>, p: string): Option<int> {
    if order == [] then None
    else if order[0] in owner && owner[order[0]] == p then Some(order[0])
    else FirstOf(order[1..], owner, p)
  }

  /** `set_capture_enabled` */
  function SetCapture(w: World, p: string, on: bool): World {
    if p !in w.configs then w
    else
      var v := w.(configs := w.configs[p := w.configs[p].(capture := on)]);
      if on then
        if ActiveCount(v, p) > 0 && p !in v.captures
        then v.(starts := v.starts + [(p, FirstOf(v.order, v.owner, p))]) else v
      else if p in v.captures then v.(stops := v.stops + [p])
      else v
  }

  // ------------------------------------------------------------ poll loop

  function StartAll(captures: map<string, Option<int>>, q: seq<(string, Option<int>)>): map<string, Option<int>>
    decreases |q|
  {
    if q == [] then captures
    else StartAll(if q[0].0 in captures then captures else captures[q[0].0 := q[0].1], q[1..])
  }

  function StopAll(captures: map<string, Option<int>>, q: seq<string>): map<string, Option<int>>
    decreases |q|
  {
    if q == [] then captures else StopAll(captures - {q[0]}, q[1..])
  }

  /** `process_auto_captures`: all starts, then all stops. */
  function Drain(w: World): World {
    w.(captures := StopAll(StartAll(w.captures, w.starts), w.stops), starts := [], stops := [])
  }

  /** `process_auto_answers` empties every queue. */
  function AutoAnswered(w: World): World {
    w.(autoAnswer := map p | p in w.autoAnswer :: [])
  }

  /** A call waits to be answered on a phone. */
  predicate Waiting(queues: map<string, seq<int>>, p: string, cid: int) {
    p in queues && cid in queues[p]
  }

  /** `process_auto_answers` answers the call for the phone. */
  predicate Answers(w: World, p: string, cid: int) {
    Waiting(w.autoAnswer, p, cid) && cid in w.calls
  }

  // ----------------------------------------------------------------- steps

  datatype Step =
    | Add(p: string, cfg: Config, tp: nat)
    | Drop(p: string)
    | Register(p: string, tp: nat)
    | Incoming(p: string, cid: int)
    | Outgoing(p: string, cid: int)
    | MediaChange(cid: int, streams: seq<Stream>)
    | Ended(cid: int)
    | Play(cid: int, path: string)
    | StopPlay(cid: int, mohExists: bool)
    | AutoAnswerFlag(p: string, on: bool)
    | CodecList(p: string, list: seq<string>)
    | RecordingFlag(p: string, on: bool, stamp: int, disks: map<int, Disk>)
    | CaptureFlag(p: string, on: bool)
    | TakeIncoming(p: string, n: nat)
    | AutoAnswers
    | Poll

  /** What the foreign stack guarantees: a call id is not in use when it is
      handed out, a new transport is not open yet, and only tracked calls
      raise callbacks or are played to. */
  predicate Enabled(w: World, s: Step) {
    match s
    case Add(_, _, tp) => tp !in w.transports
    case Register(_, tp) => tp !in w.transports
    case Incoming(_, cid) => cid !in w.calls
    case Outgoing(_, cid) => cid !in w.calls
    case MediaChange(cid, _) => cid in w.calls
    case Ended(cid) => cid in w.calls
    case Play(cid, _) => cid in w.calls
    case StopPlay(cid, _) => cid in w.calls
    case TakeIncoming(p, n) => p in w.incoming && n <= |w.incoming[p]|
    case _ => true
  }

  function Apply(w: World, s: Step): World
    requires Enabled(w, s)
  {
    match s
    case Add(p, cfg, tp) => AddPhone(w, p, cfg, tp)
    case Drop(p) => DropPhone(w, p)
    case Register(p, tp) => Reregister(w, p, tp)
    case Incoming(p, cid) => IncomingCall(w, p, cid)
    case Outgoing(p, cid) => MakeCall(w, p, cid)
    case MediaChange(cid, streams) => CallMediaState(w, cid, streams)
    case Ended(cid) => CallDisconnected(w, cid)
    case Play(cid, path) => WithCall(w, cid, PlayFile(w.calls[cid], path))
    case StopPlay(cid, mohExists) => WithCall(w, cid, StopPlayback(w.calls[cid], mohExists))
    case AutoAnswerFlag(p, on) => SetAutoAnswer(w, p, on)
    case CodecList(p, list) => SetCodecs(w, p, list)
    case RecordingFlag(p, on, stamp, disks) => SetRecordingFlag(w, p, on, stamp, disks)
    case CaptureFlag(p, on) => SetCapture(w, p, on)
    case TakeIncoming(p, n) => w.(incoming := w.incoming[p := w.incoming[p][n..]])
    case AutoAnswers => AutoAnswered(w)
    case Poll => Drain(w)
  }

  /** The state after the steps, `None` when one of them was not enabled. */
  function Run(steps: seq<Step>): Option<World> {
    if steps == [] then Some(Empty)
    else
      var last := steps[|steps| - 1];
      match Run(steps[..|steps| - 1])
      case None => None
      case Some(w) => if Enabled(w, last) then Some(Apply(w, last)) else None
  }
}
