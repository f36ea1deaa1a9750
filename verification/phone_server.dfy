/** The server's operations on phones: manager, registry and tools together. */
module PhoneServer {
  import opened Text
  import opened CallMedia
  import opened PhoneSystem
  import opened PhoneManager
  import opened ToolRoster
  import opened PhoneInvariants
  import PhoneLaws
  import SdpRewriter

  /** What `update_phone` is asked to change; `credentials` says that a field
      is given that needs a fresh registration. */
  datatype Update = Update(autoAnswer: Option<bool>, codecs: Option<seq<string>>, recording: Option<bool>,
                           capture: Option<bool>, credentials: bool)

  /** The environment of an update: time stamp, disk, and the next transport. */
  datatype Context = Context(stamp: int, disks: map<int, Disk>, tp: nat)

  function OrElse<T>(o: Option<T>, otherwise: T): T {
    if o.Some? then o.value else otherwise
  }

  // each setting of `update_phone`, if it is given
  function GiveAutoAnswer(w: World, p: string, o: Option<bool>): World {
    if o.Some? then SetAutoAnswer(w, p, o.value) else w
  }

  function GiveCodecs(w: World, p: string, o: Option<seq<string>>): World {
    if o.Some? then SetCodecs(w, p, o.value) else w
  }

  function GiveRecording(w: World, p: string, o: Option<bool>, c: Context): World {
    if o.Some? then SetRecordingFlag(w, p, o.value, c.stamp, c.disks) else w
  }

  function GiveCapture(w: World, p: string, o: Option<bool>): World {
    if o.Some? then SetCapture(w, p, o.value) else w
  }

  /** The settings of `update_phone`, field by field. */
  function Settings(w: World, p: string, u: Update, c: Context): World {
    GiveCapture(
      GiveRecording(GiveCodecs(GiveAutoAnswer(w, p, u.autoAnswer), p, u.codecs), p, u.recording, c), p, u.capture)
  }

  /** `update_phone` */
  function Updated(w: World, p: string, u: Update, c: Context): World {
    if u.credentials then Reregister(Settings(w, p, u, c), p, c.tp) else Settings(w, p, u, c)
  }

  /** One entry of a profile, with the transport the engine creates for it. */
  datatype Entry = Entry(p: string, cfg: Config, tp: nat)

  function AddEach(w: World, es: seq<Entry>): World {
    if es == [] then w
    else
      var v, e := AddEach(w, es[..|es| - 1]), es[|es| - 1];
      if ValidId(e.p) then PhoneSystem.AddPhone(v, e.p, e.cfg, e.tp) else v
  }

  function ValidIds(es: seq<Entry>): set<string> {
    set e | e in es && ValidId(e.p) :: e.p
  }

  lemma ToolsMatch(roster: ToolServer)
    requires roster.Matches()
    ensures roster.tools == Roster(roster.phoneTools.Keys)
  {
  }

  class Server {
    const registry: PhoneRegistry
    const manager: CallManager
    const roster: ToolServer

    function View(): World
      reads manager, manager.registry, manager.pcap, manager.calls.Values
    {
      manager.View()
    }

    /** The tools registered are those of the registered phones. */
    ghost predicate Valid()
      reads manager, registry, roster
    {
      && manager.registry == registry && manager.Valid()
      && roster.Matches() && roster.phoneTools.Keys == registry.accounts == registry.configs.Keys
    }

    constructor (registry: PhoneRegistry, manager: CallManager, roster: ToolServer)
      requires manager.registry == registry && manager.Valid() && registry.accounts == {} == registry.configs.Keys
      requires roster.Matches() && roster.phoneTools == map[]
      ensures Valid() && this.manager == manager && this.registry == registry && this.roster == roster
    {
      this.registry, this.manager, this.roster := registry, manager, roster;
    }

    /** `_add_phone_impl`; `ok` is false when it raises. */
    method AddPhone(p: string, cfg: Config, tp: nat) returns (ok: bool)
      requires Valid()
      modifies manager, registry, roster
      ensures Valid() && ok == ValidId(p)
      ensures View() == if ok then PhoneSystem.AddPhone(old(View()), p, cfg, tp) else old(View())
      ensures roster.tools == Roster(registry.accounts)
    {
      hide PhoneSystem.AddPhone, Views, Roster, NamesOf, ValidId, CallManager.Valid, Names, ToolServer.Matches, Keeping, Queued;
      ToolsMatch(roster);
      ok := roster.ValidatePhoneId(p);
      if !ok {
        return;
      }
      UnloadTools(p);
      registry.AddPhone(p, cfg, tp, manager);
      AddAccounts(old(View()), p, cfg, tp);
      LoadTools(p);
    }

    /** The phone's tools, if any, are removed. */
    method UnloadTools(p: string)
      requires roster.Matches()
      modifies roster
      ensures roster.Matches() && roster.phoneTools == old(roster.phoneTools) - {p}
    {
      hide Roster, NamesOf;
      if p in roster.phoneTools {
        var _ := roster.UnregisterPhoneTools(roster.phoneTools[p]);
        RosterWithout(roster.phoneTools.Keys, p);
        assert (roster.phoneTools - {p}).Keys == roster.phoneTools.Keys - {p};
        roster.phoneTools := roster.phoneTools - {p};
      } else {
        assert roster.phoneTools - {p} == roster.phoneTools;
      }
    }

    method LoadTools(p: string)
      requires roster.Matches()
      modifies roster
      ensures roster.Matches() && roster.phoneTools.Keys == old(roster.phoneTools).Keys + {p}
      ensures roster.tools == Roster(roster.phoneTools.Keys)
    {
      hide Roster, NamesOf;
      var names := roster.RegisterPhoneTools(p);
      RosterWith(roster.phoneTools.Keys, p);
      assert roster.phoneTools[p := names].Keys == roster.phoneTools.Keys + {p};
      roster.phoneTools := roster.phoneTools[p := names];
    }

    /** `_drop_phone_impl`; `ok` is false for a phone that is not registered. */
    method DropPhone(p: string) returns (ok: bool)
      requires Valid()
      modifies manager, registry, roster
      ensures Valid() && ok == (p in old(registry.accounts))
      ensures View() == if ok then PhoneSystem.DropPhone(old(View()), p) else old(View())
      ensures roster.tools == Roster(registry.accounts)
    {
      hide PhoneSystem.DropPhone, Views, Roster, NamesOf, CallManager.Valid;
      ok := p in registry.accounts;
      if !ok {
        return;
      }
      UnloadTools(p);
      var _ := registry.DropPhone(p, manager);
      DropAccounts(old(View()), p);
    }

    /** `load_phones` over a profile that parsed. */
    method LoadPhones(es: seq<Entry>, merge: bool) returns (dropped: seq<string>)
      requires Valid()
      modifies manager, registry, roster
      ensures Valid() && View() == AddEach(DropEach(old(View()), dropped), es)
      ensures forall p :: p in dropped <==> !merge && p in old(registry.accounts)
      ensures registry.accounts == (if merge then old(registry.accounts) else {}) + ValidIds(es)
      ensures roster.tools == Roster(registry.accounts)
    {
      hide AddEach, DropEach, Views, Roster, Server.Valid, ValidIds;
      dropped := [];
      NothingDropped(View());
      if !merge {
        dropped := DropExisting();
      }
      AddEntries(es);
    }

    method AddEntries(es: seq<Entry>)
      requires Valid()
      modifies manager, registry, roster
      ensures Valid() && View() == AddEach(old(View()), es)
      ensures registry.accounts == old(registry.accounts) + ValidIds(es)
      ensures roster.tools == Roster(registry.accounts)
    {
      hide PhoneSystem.AddPhone, Views, Roster, CallManager.Valid, ValidId;
      for i := 0 to |es|
        invariant Valid() && View() == AddEach(old(View()), es[..i])
        invariant registry.accounts == old(registry.accounts) + ValidIds(es[..i])
      {
        ghost var before := View();
        assert es[..i + 1] == es[..i] + [es[i]] && es[..i + 1][..i] == es[..i];
        var _ := AddPhone(es[i].p, es[i].cfg, es[i].tp);
        AddAccounts(before, es[i].p, es[i].cfg, es[i].tp);
      }
      assert es[..|es|] == es;
    }

    /** Every registered phone is dropped with its tools. */
    method DropExisting() returns (dropped: seq<string>)
      requires Valid()
      modifies manager, registry, roster
      ensures Valid() && View() == DropEach(old(View()), dropped)
      ensures registry.accounts == {} && forall p :: p in dropped <==> p in old(registry.accounts)
    {
      hide PhoneSystem.DropPhone, Views, Roster, CallManager.Valid;
      dropped := [];
      var existing := registry.accounts;
      while existing != {}
        invariant Valid() && View() == DropEach(old(View()), dropped)
        invariant existing == registry.accounts <= old(registry.accounts)
        invariant forall p :: p in dropped <==> p in old(registry.accounts) && p !in existing
      {
        var p :| p in existing;
        ghost var before := View();
        var _ := DropPhone(p);
        DropAccounts(before, p);
        assert (dropped + [p])[..|dropped|] == dropped;
        dropped := dropped + [p];
        existing := existing - {p};
      }
    }

    // -------------------------------------------------------------- updates

    /** `update_phone`; `ok` is false for a phone that is not registered. */
    method UpdatePhone(p: string, u: Update, c: Context) returns (ok: bool)
      requires Valid()
      modifies manager, registry, manager.calls.Values
      ensures Valid() && ok == (p in old(registry.configs))
      ensures View() == Updated(old(View()), p, u, c)
    {
      hide Settings, Reregister, Server.Valid, CallManager.View;
      UnknownUnchanged(View(), p, u, c);
      ok := IsConfigured(p);
      if !ok {
        return;
      }
      UpdateSettings(p, u, c);
      if u.credentials {
        Register(p, c.tp);
      }
    }

    method IsConfigured(p: string) returns (ok: bool)
      requires Valid()
      ensures ok == (p in registry.configs) && ok == (p in View().configs)
    {
      ok := p in registry.configs;
    }

    method UpdateSettings(p: string, u: Update, c: Context)
      requires Valid() && p in registry.configs
      modifies manager`starts, manager`stops, registry, manager.calls.Values
      ensures Valid() && p in registry.configs
      ensures View() == Settings(old(View()), p, u, c)
    {
      hide SetAutoAnswer, SetCodecs, SetRecordingFlag, SetCapture, Server.Valid, CallManager.View;
      if u.autoAnswer.Some? {
        UpdateAutoAnswer(p, u.autoAnswer.value);
      }
      if u.codecs.Some? {
        UpdateCodecs(p, u.codecs.value);
      }
      if u.recording.Some? {
        UpdateRecording(p, u.recording.value, c);
      }
      if u.capture.Some? {
        UpdateCapture(p, u.capture.value);
      }
    }

    method UpdateAutoAnswer(p: string, on: bool)
      requires Valid() && p in registry.configs
      modifies registry
      ensures Valid() && registry.configs.Keys == old(registry.configs.Keys)
      ensures View() == SetAutoAnswer(old(View()), p, on)
    {
      hide Views, ToolServer.Matches, CallManager.Valid;
      registry.configs := registry.configs[p := registry.configs[p].(autoAnswer := on)];
    }

    method UpdateCodecs(p: string, list: seq<string>)
      requires Valid() && p in registry.configs
      modifies registry, manager.calls.Values
      ensures Valid() && registry.configs.Keys == old(registry.configs.Keys)
      ensures View() == SetCodecs(old(View()), p, list)
    {
      hide Views, ToolServer.Matches, WithCodecs, SetCodecs;
      registry.configs := registry.configs[p := registry.configs[p].(codecs := Some(list))];
      CodecsAgree(old(View()), View(), p, list);
      manager.SetCodecsForPhone(p, Some(list));
    }

    method UpdateRecording(p: string, on: bool, c: Context)
      requires Valid() && p in registry.configs
      modifies registry, manager.calls.Values
      ensures Valid() && registry.configs.Keys == old(registry.configs.Keys)
      ensures View() == SetRecordingFlag(old(View()), p, on, c.stamp, c.disks)
    {
      hide Views, ToolServer.Matches, WithRecording, SetRecordingFlag;
      registry.configs := registry.configs[p := registry.configs[p].(recording := on)];
      RecordingAgrees(old(View()), View(), p, on, c);
      var _ := manager.SetRecordingEnabled(p, on, c.stamp, c.disks);
    }

    method UpdateCapture(p: string, on: bool)
      requires Valid() && p in registry.configs
      modifies registry, manager`starts, manager`stops
      ensures Valid() && registry.configs.Keys == old(registry.configs.Keys)
      ensures View() == SetCapture(old(View()), p, on)
    {
      hide Views, ToolServer.Matches, CallManager.Valid, SetCapture;
      CaptureKeys(View(), p, on);
      var _ := manager.SetCaptureEnabled(p, on);
    }

    method Register(p: string, tp: nat)
      requires Valid() && p in registry.configs
      modifies registry, manager
      ensures Valid()
      ensures View() == Reregister(old(View()), p, tp)
    {
      hide Views, ToolServer.Matches, CallManager.Valid, PhoneSystem.AddPhone;
      var _ := registry.ReregisterPhone(p, tp, manager);
      AddAccounts(old(View()), p, old(registry.configs)[p], tp);
    }
  }

  lemma CaptureKeys(w: World, p: string, on: bool)
    ensures SetCapture(w, p, on).configs.Keys == w.configs.Keys
    ensures SetCapture(w, p, on).accounts == w.accounts && SetCapture(w, p, on).calls == w.calls
  {
    hide FirstOf;
  }

  /** The manager's part of an update completes the server's. */
  lemma CodecsAgree(w: World, v: World, p: string, list: seq<string>)
    requires p in w.configs && v == w.(configs := w.configs[p := w.configs[p].(codecs := Some(list))])
    ensures WithCodecs(v, p, Some(list)) == SetCodecs(w, p, list)
  {
    hide Normal;
  }

  lemma RecordingAgrees(w: World, v: World, p: string, on: bool, c: Context)
    requires p in w.configs && v == w.(configs := w.configs[p := w.configs[p].(recording := on)])
    ensures WithRecording(v, p, on, c.stamp, c.disks) == SetRecordingFlag(w, p, on, c.stamp, c.disks)
  {
    hide SetRecording, DiskFor;
  }

  lemma NothingDropped(w: World)
    ensures DropEach(w, []) == w
  {
  }

  lemma UnknownUnchanged(w: World, p: string, u: Update, c: Context)
    ensures p !in w.configs ==> Updated(w, p, u, c) == w
  {
  }

  // ------------------------------------------------ what an update reaches

  /** What the phone's configuration is after the settings. */
  function NewConfig(cfg: Config, u: Update): Config {
    cfg.(autoAnswer := OrElse(u.autoAnswer, cfg.autoAnswer), codecs := Given(u.codecs, cfg.codecs),
         recording := OrElse(u.recording, cfg.recording), capture := OrElse(u.capture, cfg.capture))
  }

  function Given<T>(o: Option<T>, otherwise: Option<T>): Option<T> {
    if o.Some? then o else otherwise
  }

  /** A change of settings of phone `p` that takes its configuration to `cfg`. */
  ghost predicate Reconfigures(w: World, x: World, p: string, cfg: Config) {
    && Invariant(x) && x.transports == w.transports && x.calls.Keys == w.calls.Keys
    && p in x.configs && x.configs[p] == cfg
  }

  lemma AutoAnswerReconfigures(w: World, p: string, o: Option<bool>)
    requires Invariant(w) && p in w.configs
    ensures Reconfigures(w, GiveAutoAnswer(w, p, o), p,
                         w.configs[p].(autoAnswer := OrElse(o, w.configs[p].autoAnswer)))
  {
    hide Invariant;
    if o.Some? {
      FlagsKeep(w, p, o.value);
    }
  }

  lemma CodecsReconfigure(w: World, p: string, o: Option<seq<string>>)
    requires Invariant(w) && p in w.configs
    ensures Reconfigures(w, GiveCodecs(w, p, o), p, w.configs[p].(codecs := Given(o, w.configs[p].codecs)))
  {
    hide Invariant, Normal;
    if o.Some? {
      CodecsKeep(w, p, o.value);
    }
  }

  lemma RecordingReconfigures(w: World, p: string, o: Option<bool>, c: Context)
    requires Invariant(w) && p in w.configs
    ensures Reconfigures(w, GiveRecording(w, p, o, c), p,
                         w.configs[p].(recording := OrElse(o, w.configs[p].recording)))
  {
    hide Invariant, SetRecording, DiskFor;
    if o.Some? {
      RecordingKeeps(w, p, o.value, c.stamp, c.disks);
    }
  }

  lemma CaptureReconfigures(w: World, p: string, o: Option<bool>)
    requires Invariant(w) && p in w.configs
    ensures Reconfigures(w, GiveCapture(w, p, o), p, w.configs[p].(capture := OrElse(o, w.configs[p].capture)))
  {
    hide Invariant, FirstOf, ActiveCount;
    if o.Some? {
      FlagsKeep(w, p, o.value);
    }
  }

  lemma SettingsReconfigure(w: World, p: string, u: Update, c: Context)
    requires Invariant(w) && p in w.configs
    ensures Reconfigures(w, Settings(w, p, u, c), p, NewConfig(w.configs[p], u))
  {
    hide Invariant, GiveAutoAnswer, GiveCodecs, GiveRecording, GiveCapture, OrElse, Given;
    AutoAnswerReconfigures(w, p, u.autoAnswer);
    var a := GiveAutoAnswer(w, p, u.autoAnswer);
    CodecsReconfigure(a, p, u.codecs);
    var b := GiveCodecs(a, p, u.codecs);
    RecordingReconfigures(b, p, u.recording, c);
    CaptureReconfigures(GiveRecording(b, p, u.recording, c), p, u.capture);
  }

  /** An update keeps the invariant of the phone system.  Without fresh
      credentials it keeps every tracked call, and each of the phone's calls
      takes the new list and flag; with them the phone keeps its new settings
      but loses its calls. */
  lemma UpdateReachesCalls(w: World, p: string, u: Update, c: Context, cid: int)
    requires Invariant(w) && p in w.configs && c.tp !in w.transports
    ensures var x := Updated(w, p, u, c);
            && Invariant(x) && p in x.configs
            && x.configs[p] == NewConfig(w.configs[p], u).(transportId := x.configs[p].transportId)
            && (u.credentials ==> CallsOf(x, p) == {} && x.configs[p].transportId == c.tp)
            && (!u.credentials ==> x.calls.Keys == w.calls.Keys)
            && (cid in x.calls && x.calls[cid].phone == p ==> SameSettings(x.calls[cid], x.configs[p]))
  {
    hide Settings, Invariant, NewConfig, SameSettings, CallsOf, PhoneSystem.AddPhone;
    SettingsReconfigure(w, p, u, c);
    var e := Settings(w, p, u, c);
    if u.credentials {
      AddKeeps(e, p, e.configs[p], c.tp);
      AddAccounts(e, p, e.configs[p], c.tp);
      FreshPhoneHasNoCalls(e, p, e.configs[p], c.tp);
    }
    var x := Updated(w, p, u, c);
    if cid in x.calls {
      CallFollows(x, cid);
    }
  }

  lemma FreshPhoneHasNoCalls(w: World, p: string, cfg: Config, tp: nat)
    requires Invariant(w)
    ensures CallsOf(PhoneSystem.AddPhone(w, p, cfg, tp), p) == {}
  {
    hide PhoneDropped, Invariant;
    var x := PhoneSystem.AddPhone(w, p, cfg, tp);
    if p in w.accounts {
      PhoneLaws.DropFields(w, p);
      assert x.owner == w.owner - CallsOf(w, p);
    } else {
      OwnersRegistered(w);
      assert x.owner == w.owner;
    }
    assert forall cid :: cid !in CallsOf(x, p);
  }

  // ------------------------------------------------- what a profile configures

  /** The last valid entry of the profile for the phone. */
  ghost predicate LastEntry(es: seq<Entry>, p: string, k: int) {
    && 0 <= k < |es| && es[k].p == p && ValidId(p)
    && forall j :: k < j < |es| ==> es[j].p != p
  }

  /** The phone has the configuration of its last valid entry, over the
      transport made for it, or that from before when it has none. */
  lemma {:induction false} EntriesConfigure(w: World, es: seq<Entry>, p: string)
    ensures var x := AddEach(w, es);
            && (forall k :: LastEntry(es, p, k) ==>
                  p in x.configs && x.configs[p] == es[k].cfg.(transportId := es[k].tp))
            && ((forall k :: !LastEntry(es, p, k)) ==>
                  (p in x.configs <==> p in w.configs) && (p in w.configs ==> x.configs[p] == w.configs[p]))
  {
    hide PhoneSystem.AddPhone, ValidId;
    if es != [] {
      var n := |es| - 1;
      var v, e := AddEach(w, es[..n]), es[n];
      EntriesConfigure(w, es[..n], p);
      AddAccounts(v, e.p, e.cfg, e.tp);
      if e.p == p && ValidId(p) {
        assert LastEntry(es, p, n);
        assert forall k :: LastEntry(es, p, k) ==> k == n;
      } else {
        forall k ensures LastEntry(es, p, k) <==> LastEntry(es[..n], p, k) {
          if e.p == p {
            assert !ValidId(p);
          }
        }
      }
    }
  }

  lemma {:induction false} DroppedConfigs(w: World, ps: seq<string>)
    ensures DropEach(w, ps).configs == w.configs - Members(ps)
  {
    hide PhoneSystem.DropPhone;
    if ps == [] {
      assert w.configs - {} == w.configs;
    } else {
      var n := |ps| - 1;
      DroppedConfigs(w, ps[..n]);
      DropAccounts(DropEach(w, ps[..n]), ps[n]);
      assert ps == ps[..n] + [ps[n]];
      assert Members(ps) == Members(ps[..n]) + {ps[n]};
    }
  }

  /** After a profile was loaded each phone has the configuration of its last
      valid entry, and a phone without one has what it had, unless dropped. */
  lemma LoadedConfigs(w: World, dropped: seq<string>, es: seq<Entry>, p: string)
    ensures var x := AddEach(DropEach(w, dropped), es);
            && (forall k :: LastEntry(es, p, k) ==>
                  p in x.configs && x.configs[p] == es[k].cfg.(transportId := es[k].tp))
            && ((forall k :: !LastEntry(es, p, k)) ==>
                  (p in x.configs <==> p in w.configs && p !in dropped)
                  && (p in x.configs ==> x.configs[p] == w.configs[p]))
  {
    hide AddEach, DropEach, LastEntry;
    EntriesConfigure(DropEach(w, dropped), es, p);
    DroppedConfigs(w, dropped);
  }
}
