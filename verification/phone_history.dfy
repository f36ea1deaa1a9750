/** What the configurations, the queues and the order of the calls say of the
    steps that led to them. */
module PhoneHistory {
  import opened Text
  import opened CallMedia
  import opened PhoneSystem
  import opened PhoneInvariants
  import opened PhoneLaws

  // --------------------------------------------------------- configurations

  function At<T>(m: map<string, T>, p: string): Option<T> {
    if p in m then Some(m[p]) else None
  }

  /** A phone's configuration after a step: that of the last `add`, over the
      transport of the last registration, with the settings given since. */
  function Configured(before: Option<Config>, p: string, s: Step): Option<Config> {
    match s
    case Add(q, cfg, tp) => if q == p then Some(cfg.(transportId := tp)) else before
    case Drop(q) => if q == p then None else before
    case Register(q, tp) => if q == p && before.Some? then Some(before.value.(transportId := tp)) else before
    case AutoAnswerFlag(q, on) => if q == p && before.Some? then Some(before.value.(autoAnswer := on)) else before
    case CodecList(q, list) => if q == p && before.Some? then Some(before.value.(codecs := Some(list))) else before
    case RecordingFlag(q, on, _, _) => if q == p && before.Some? then Some(before.value.(recording := on)) else before
    case CaptureFlag(q, on) => if q == p && before.Some? then Some(before.value.(capture := on)) else before
    case _ => before
  }

  function ConfigOf(steps: seq<Step>, p: string): Option<Config> {
    if steps == [] then None else Configured(ConfigOf(steps[..|steps| - 1], p), p, steps[|steps| - 1])
  }

  lemma CallStepConfigs(w: World, s: Step)
    requires Enabled(w, s) && (s.Incoming? || s.Outgoing? || s.MediaChange? || s.Ended? || s.Play? || s.StopPlay?)
    ensures Apply(w, s).configs == w.configs
  {
    hide MediaState, Disconnect, PlayFile, StopPlayback, NewCall, Keeping, Queued, ActiveCount;
    if s.Ended? {
      EndedConfigs(w, s.cid);
    } else if s.MediaChange? {
      MediaConfigs(w, s.cid, s.streams);
    }
  }

  lemma EndedConfigs(w: World, cid: int)
    requires cid in w.calls
    ensures CallDisconnected(w, cid).configs == w.configs
  {
    hide Disconnect, Keeping, Stale;
    var v := w.(calls := w.calls[cid := Disconnect(w.calls[cid])]);
    var u := Forget(v, Stale(v)).(incoming := QueuesWithin(v.incoming, v.calls.Keys - Stale(v)));
    var p := w.calls[cid].phone;
    if p in u.active && u.active[p] - 1 > 0 {
      assert CountDown(u, p).configs == u.configs;
    } else {
      assert CountDown(u, p).configs == u.configs;
    }
  }

  lemma MediaConfigs(w: World, cid: int, streams: seq<Stream>)
    requires cid in w.calls
    ensures CallMediaState(w, cid, streams).configs == w.configs
  {
    hide MediaState, ActiveCount;
  }

  lemma SettingConfigs(w: World, p: string, on: bool, list: seq<string>, stamp: int, disks: map<int, Disk>)
    ensures SetAutoAnswer(w, p, on).configs ==
            if p in w.configs then w.configs[p := w.configs[p].(autoAnswer := on)] else w.configs
    ensures SetCodecs(w, p, list).configs ==
            if p in w.configs then w.configs[p := w.configs[p].(codecs := Some(list))] else w.configs
    ensures SetCapture(w, p, on).configs ==
            if p in w.configs then w.configs[p := w.configs[p].(capture := on)] else w.configs
  {
    hide Normal, FirstOf, ActiveCount;
  }

  lemma RecordingConfigs(w: World, p: string, on: bool, stamp: int, disks: map<int, Disk>)
    ensures SetRecordingFlag(w, p, on, stamp, disks).configs ==
            if p in w.configs then w.configs[p := w.configs[p].(recording := on)] else w.configs
  {
    hide SetRecording, DiskFor;
  }

  lemma StepConfigs(w: World, s: Step, p: string)
    requires Enabled(w, s)
    ensures At(Apply(w, s).configs, p) == Configured(At(w.configs, p), p, s)
  {
    hide AddPhone, DropPhone, IncomingCall, MakeCall, CallMediaState, CallDisconnected, PlayFile, StopPlayback,
      SetAutoAnswer, SetCodecs, SetRecordingFlag, SetCapture, StartAll, StopAll;
    match s {
      case Add(q, cfg, tp) => AddAccounts(w, q, cfg, tp);
      case Drop(q) => DropAccounts(w, q);
      case Register(q, tp) =>
        if q in w.configs {
          AddAccounts(w, q, w.configs[q], tp);
        }
      case AutoAnswerFlag(q, on) => SettingConfigs(w, q, on, [], 0, map[]);
      case CodecList(q, list) => SettingConfigs(w, q, true, list, 0, map[]);
      case RecordingFlag(q, on, stamp, disks) => RecordingConfigs(w, q, on, stamp, disks);
      case CaptureFlag(q, on) => SettingConfigs(w, q, on, [], 0, map[]);
      case TakeIncoming(_, _) =>
      case AutoAnswers =>
      case Poll =>
      case _ => CallStepConfigs(w, s);
    }
  }

  /** In every reachable state a phone's configuration is what its history says. */
  lemma {:induction false} EveryConfigRun(steps: seq<Step>, p: string)
    requires Run(steps).Some?
    ensures At(Run(steps).value.configs, p) == ConfigOf(steps, p)
    ensures p in Run(steps).value.accounts <==> ConfigOf(steps, p).Some?
  {
    hide Apply, Enabled, Configured, Invariant;
    EveryRun(steps);
    AccountsAreConfigs(Run(steps).value);
    if steps != [] {
      EveryConfigRun(steps[..|steps| - 1], p);
      StepConfigs(Run(steps[..|steps| - 1]).value, steps[|steps| - 1], p);
    }
  }

  // ----------------------------------------------------------------- queues

  /** An incoming call waits for the user of its phone, behind those that came
      before, and to be answered if and only if its phone's flag is on. */
  lemma IncomingWaits(w: World, p: string, cid: int)
    requires Invariant(w) && QueuesOfPhones(w) && p in w.accounts
    ensures p in w.configs && p in w.incoming
    ensures var x := IncomingCall(w, p, cid);
            && x.incoming == w.incoming[p := w.incoming[p] + [cid]]
            && forall q, id :: Waiting(x.autoAnswer, q, id) <==>
                 Waiting(w.autoAnswer, q, id) || (q == p && id == cid && w.configs[p].autoAnswer)
  {
    AccountsAreConfigs(w);
    hide Invariant, NewCall;
  }

  function Minus(q: seq<int>, cid: int): seq<int> {
    if q == [] then [] else (if q[0] == cid then [] else [q[0]]) + Minus(q[1..], cid)
  }

  /** A phone's auto-answer queue after a step; `cfg` is its configuration. */
  function AnswersAfter(before: Option<seq<int>>, cfg: Option<Config>, p: string, s: Step): Option<seq<int>> {
    match s
    case Add(q, _, _) => if q == p then Some([]) else before
    case Drop(q) => if q == p then None else before
    case Register(q, _) => if q == p && before.Some? then Some([]) else before
    case Incoming(q, cid) =>
      if q == p && before.Some? && cfg.Some? && cfg.value.autoAnswer then Some(before.value + [cid]) else before
    case AutoAnswers => if before.Some? then Some([]) else before
    case _ => before
  }

  /** A phone's incoming queue after a step. */
  function WaitsAfter(before: Option<seq<int>>, p: string, s: Step): Option<seq<int>> {
    match s
    case Add(q, _, _) => if q == p then Some([]) else before
    case Drop(q) => if q == p then None else before
    case Register(q, _) => if q == p && before.Some? then Some([]) else before
    case Incoming(q, cid) => if q == p && before.Some? then Some(before.value + [cid]) else before
    case TakeIncoming(q, n) =>
      if q == p && before.Some? && n <= |before.value| then Some(before.value[n..]) else before
    case Ended(cid) => if before.Some? then Some(Minus(before.value, cid)) else before
    case _ => before
  }

  function AnswerQueue(steps: seq<Step>, p: string): Option<seq<int>> {
    if steps == [] then None
    else
      var before := steps[..|steps| - 1];
      AnswersAfter(AnswerQueue(before, p), ConfigOf(before, p), p, steps[|steps| - 1])
  }

  function WaitingQueue(steps: seq<Step>, p: string): Option<seq<int>> {
    if steps == [] then None else WaitsAfter(WaitingQueue(steps[..|steps| - 1], p), p, steps[|steps| - 1])
  }

  ghost predicate QueuesStep(w: World, x: World, s: Step, p: string) {
    && At(x.autoAnswer, p) == AnswersAfter(At(w.autoAnswer, p), At(w.configs, p), p, s)
    && At(x.incoming, p) == WaitsAfter(At(w.incoming, p), p, s)
  }

  lemma AddedQueues(w: World, q: string, cfg: Config, tp: nat)
    requires QueuesOfPhones(w)
    ensures var x := AddPhone(w, q, cfg, tp);
            x.incoming == w.incoming[q := []] && x.autoAnswer == w.autoAnswer[q := []]
  {
    hide DropPhone;
    if q in w.accounts {
      PhoneLaws.DropQueues(w, q);
    }
  }

  lemma AddQueuesStep(w: World, q: string, cfg: Config, tp: nat, p: string)
    requires QueuesOfPhones(w)
    ensures QueuesStep(w, AddPhone(w, q, cfg, tp), Add(q, cfg, tp), p)
    ensures q in w.accounts ==> QueuesStep(w, AddPhone(w, q, cfg, tp), Step.Register(q, tp), p)
  {
    hide AddPhone;
    AddedQueues(w, q, cfg, tp);
  }

  lemma DropQueuesStep(w: World, q: string, p: string)
    requires QueuesOfPhones(w)
    ensures QueuesStep(w, DropPhone(w, q), Drop(q), p)
  {
    hide DropPhone;
    if q in w.accounts {
      PhoneLaws.DropQueues(w, q);
    } else {
      DropUnknownQueues(w, q);
    }
  }

  lemma UnknownQueuesStep(w: World, q: string, tp: nat, p: string)
    requires QueuesOfPhones(w) && q !in w.accounts
    ensures QueuesStep(w, w, Step.Register(q, tp), p)
  {
  }

  lemma PhoneQueues(w: World, s: Step, p: string)
    requires Invariant(w) && QueuesOfPhones(w) && Enabled(w, s) && (s.Add? || s.Drop? || s.Register?)
    ensures QueuesStep(w, Apply(w, s), s, p)
  {
    AccountsAreConfigs(w);
    hide AddPhone, DropPhone, Invariant, QueuesStep, QueuesOfPhones;
    match s {
      case Add(q, cfg, tp) => AddQueuesStep(w, q, cfg, tp, p);
      case Drop(q) => DropQueuesStep(w, q, p);
      case Register(q, tp) =>
        if q in w.configs {
          AddQueuesStep(w, q, w.configs[q], tp, p);
        } else {
          UnknownQueuesStep(w, q, tp, p);
        }
    }
  }

  lemma DropUnknownQueues(w: World, p: string)
    requires p !in w.accounts
    ensures DropPhone(w, p).incoming == w.incoming && DropPhone(w, p).autoAnswer == w.autoAnswer
  {
  }

  lemma {:induction false} KeepingIsMinus(q: seq<int>, ks: set<int>, cid: int)
    requires forall x :: x in q ==> x in ks
    ensures Keeping(q, ks - {cid}) == Minus(q, cid)
  {
    if q != [] {
      assert q[0] in q;
      KeepingIsMinus(q[1..], ks, cid);
    }
  }

  lemma EndedQueuesStep(w: World, cid: int, p: string)
    requires Invariant(w) && cid in w.calls
    ensures QueuesStep(w, CallDisconnected(w, cid), Ended(cid), p)
  {
    hide CallDisconnected, TablesAgree, TransportsMatch, FollowsConfig, CountersBounded, Keeping, Minus;
    EndedCalls(w, cid);
    if p in w.incoming {
      assert QueueOwned(w.incoming[p], p, w.owner);
      KeepingIsMinus(w.incoming[p], w.owner.Keys, cid);
    }
  }

  lemma IncomingQueuesStep(w: World, q: string, cid: int, p: string)
    requires Invariant(w) && QueuesOfPhones(w)
    ensures QueuesStep(w, IncomingCall(w, q, cid), Incoming(q, cid), p)
    ensures QueuesStep(w, MakeCall(w, q, cid), Outgoing(q, cid), p)
  {
    AccountsAreConfigs(w);
    hide Invariant, NewCall;
  }

  lemma QuietQueuesStep(w: World, s: Step, p: string)
    requires Enabled(w, s) && Quiet(s)
    ensures QueuesStep(w, Apply(w, s), s, p)
  {
    hide CallMediaState, PlayFile, StopPlayback, SetAutoAnswer, SetCodecs, SetRecordingFlag, SetCapture, StartAll, StopAll;
    match s {
      case MediaChange(cid, streams) => MediaQueues(w, cid, streams);
      case AutoAnswerFlag(q, on) => SettingQueues(w, q, on, []);
      case CodecList(q, list) => SettingQueues(w, q, true, list);
      case CaptureFlag(q, on) => SettingQueues(w, q, on, []);
      case RecordingFlag(q, on, stamp, disks) => RecordingQueues(w, q, on, stamp, disks);
      case _ =>
    }
  }

  lemma StepQueuesAre(w: World, s: Step, p: string)
    requires Invariant(w) && QueuesOfPhones(w) && Enabled(w, s)
    ensures QueuesStep(w, Apply(w, s), s, p)
  {
    if Quiet(s) {
      QuietQueuesStep(w, s, p);
    } else if s.Add? || s.Drop? || s.Register? {
      PhoneQueues(w, s, p);
    } else {
      hide Invariant, QueuesOfPhones, QueuesStep, IncomingCall, MakeCall, CallDisconnected;
      match s {
        case Incoming(q, cid) => IncomingQueuesStep(w, q, cid, p);
        case Outgoing(q, cid) => IncomingQueuesStep(w, q, cid, p);
        case Ended(cid) => EndedQueuesStep(w, cid, p);
        case AutoAnswers => AnsweredQueuesStep(w, p);
      }
    }
  }

  lemma AnsweredQueuesStep(w: World, p: string)
    ensures QueuesStep(w, AutoAnswered(w), AutoAnswers, p)
  {
  }

  /** In every reachable state the calls that wait on a phone, and those that
      wait to be answered, are in order what its history says. */
  lemma {:induction false} EveryQueueRun(steps: seq<Step>, p: string)
    requires Run(steps).Some?
    ensures var w := Run(steps).value;
            At(w.autoAnswer, p) == AnswerQueue(steps, p) && At(w.incoming, p) == WaitingQueue(steps, p)
  {
    hide Apply, Enabled, AnswersAfter, WaitsAfter, Invariant, QueuesOfPhones, ConfigOf;
    if steps != [] {
      var before := steps[..|steps| - 1];
      EveryQueueRun(before, p);
      EveryRun(before);
      EveryRunQueues(before);
      EveryConfigRun(before, p);
      StepQueuesAre(Run(before).value, steps[|steps| - 1], p);
    }
  }

  /** No step switches a phone's auto-answer on. */
  predicate NeverOn(steps: seq<Step>, p: string) {
    forall i :: 0 <= i < |steps| ==> !SwitchesOn(steps[i], p)
  }

  predicate SwitchesOn(s: Step, p: string) {
    (s.Add? && s.p == p && s.cfg.autoAnswer) || (s.AutoAnswerFlag? && s.p == p && s.on)
  }

  lemma {:induction false} NothingToAnswer(steps: seq<Step>, p: string)
    requires NeverOn(steps, p)
    ensures ConfigOf(steps, p).Some? ==> !ConfigOf(steps, p).value.autoAnswer
    ensures AnswerQueue(steps, p).Some? ==> AnswerQueue(steps, p).value == []
  {
    if steps != [] {
      var before := steps[..|steps| - 1];
      assert forall i :: 0 <= i < |before| ==> before[i] == steps[i];
      NothingToAnswer(before, p);
      assert !SwitchesOn(steps[|steps| - 1], p);
    }
  }

  /** A phone whose flag was never on has no call answered for it. */
  lemma NeverAnswered(steps: seq<Step>, p: string, cid: int)
    requires Run(steps).Some? && NeverOn(steps, p)
    ensures !Answers(Run(steps).value, p, cid)
  {
    hide Run, AnswerQueue, NeverOn;
    EveryQueueRun(steps, p);
    NothingToAnswer(steps, p);
  }

  // --------------------------------------------------------- order of arrival

  lemma {:induction false} KeepingAll(q: seq<int>, ks: set<int>)
    requires forall x :: x in q ==> x in ks
    ensures Keeping(q, ks) == q
  {
    if q != [] {
      var x := q[0];
      assert x in q && q == [x] + q[1..];
      KeepingAll(q[1..], ks);
    }
  }

  /** The step tracks a call. */
  predicate Tracks(w: World, s: Step) {
    (s.Incoming? || s.Outgoing?) && s.p in w.accounts
  }

  lemma SameTables(w: World, s: Step)
    requires Enabled(w, s) && (Quiet(s) || s.AutoAnswers?)
    ensures Apply(w, s).order == w.order && Apply(w, s).calls.Keys == w.calls.Keys
  {
    hide MediaState, PlayFile, StopPlayback, SetAutoAnswer, SetCodecs, SetRecordingFlag, SetCapture, StartAll, StopAll;
    match s {
      case MediaChange(cid, streams) => MediaTables(w, cid, streams);
      case AutoAnswerFlag(q, on) => FlagTables(w, q, on);
      case CodecList(q, list) => CodecTables(w, q, list);
      case CaptureFlag(q, on) => FlagTables(w, q, on);
      case RecordingFlag(q, on, stamp, disks) => RecordingTables(w, q, on, stamp, disks);
      case _ =>
    }
  }

  lemma MediaTables(w: World, cid: int, streams: seq<Stream>)
    requires cid in w.calls
    ensures var x := CallMediaState(w, cid, streams);
            x.order == w.order && x.calls == w.calls[cid := MediaState(w.calls[cid], cid, streams)]
  {
    hide MediaState, ActiveCount;
  }

  lemma FlagTables(w: World, p: string, on: bool)
    ensures var x := SetAutoAnswer(w, p, on);
            x.order == w.order && x.calls == w.calls && x.owner == w.owner
    ensures var x := SetCapture(w, p, on);
            x.order == w.order && x.calls == w.calls && x.owner == w.owner
  {
    hide FirstOf, ActiveCount;
  }

  lemma CodecTables(w: World, p: string, list: seq<string>)
    ensures var x := SetCodecs(w, p, list);
            x.order == w.order && x.calls.Keys == w.calls.Keys
  {
    hide Normal;
  }

  lemma RecordingTables(w: World, p: string, on: bool, stamp: int, disks: map<int, Disk>)
    ensures var x := SetRecordingFlag(w, p, on, stamp, disks);
            x.order == w.order && x.calls.Keys == w.calls.Keys
  {
    hide SetRecording, DiskFor;
  }

  lemma DropTables(w: World, p: string)
    ensures var x, gone := DropPhone(w, p), if p in w.accounts then CallsOf(w, p) else {};
            x.calls == w.calls - gone && (p in w.accounts ==> x.order == Keeping(w.order, w.calls.Keys - gone))
            && (p !in w.accounts ==> x.order == w.order)
  {
    hide PhoneDropped, CallsOf, Keeping;
    if p in w.accounts {
      DroppedTables(w.(accounts := w.accounts - {p}, configs := w.configs - {p}), w, p);
    } else {
      assert w.calls - {} == w.calls;
    }
  }

  lemma DroppedTables(v: World, w: World, p: string)
    requires v == w.(accounts := v.accounts, configs := v.configs)
    ensures var x := PhoneDropped(v, p);
            x.calls == w.calls - CallsOf(w, p) && x.order == Keeping(w.order, w.calls.Keys - CallsOf(w, p))
  {
    hide Keeping, CallsOf;
    SameOwner(v, w, p);
  }

  lemma AddTablesAre(w: World, p: string, cfg: Config, tp: nat)
    ensures var x, gone := AddPhone(w, p, cfg, tp), if p in w.accounts then CallsOf(w, p) else {};
            x.calls == w.calls - gone && (p in w.accounts ==> x.order == Keeping(w.order, w.calls.Keys - gone))
            && (p !in w.accounts ==> x.order == w.order)
  {
    hide DropPhone, CallsOf, Keeping;
    DropTables(w, p);
  }

  lemma OrderIsTracked(w: World)
    requires Invariant(w)
    ensures forall cid :: cid in w.order <==> cid in w.calls
  {
    hide NoDup, TrackedCall, TransportsMatch, QueuesOwned, FollowsConfig, CountersBounded;
  }

  /** The call tables keep the order of arrival: a tracked call comes last, and
      the others stay in order as long as they are tracked. */
  lemma OrderAfterStep(w: World, s: Step)
    requires Invariant(w) && Enabled(w, s)
    ensures var x := Apply(w, s);
            x.order == if Tracks(w, s) then w.order + [s.cid] else Keeping(w.order, x.calls.Keys)
  {
    OrderIsTracked(w);
    KeepingAll(w.order, w.calls.Keys);
    AccountsAreConfigs(w);
    KeysAgree(w);
    hide Invariant, Keeping, AddPhone, DropPhone, CallDisconnected, CallsOf, NewCall, Queued;
    if Quiet(s) || s.AutoAnswers? {
      hide Apply;
      SameTables(w, s);
    } else {
      match s {
        case Add(q, cfg, tp) => AddTablesAre(w, q, cfg, tp);
        case Drop(q) => DropTables(w, q);
        case Register(q, tp) =>
          if q in w.configs {
            AddTablesAre(w, q, w.configs[q], tp);
          }
        case Ended(cid) => EndedCalls(w, cid);
        case Incoming(_, _) =>
        case Outgoing(_, _) =>
      }
    }
  }
}
