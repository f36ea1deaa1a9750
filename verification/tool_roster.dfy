/** The names of the per-phone tools. */
module ToolRoster {

  const ACTIONS: seq<string> := [
    "make_call", "answer_call", "reject_call", "hangup", "get_call_info", "list_calls", "get_active_calls",
    "get_call_history", "hold", "unhold", "send_dtmf", "blind_transfer", "attended_transfer", "conference",
    "play_audio", "stop_audio", "get_recording", "send_message", "get_messages", "get_registration_status",
    "unregister", "register"]

  const STATIC: seq<string> := [
    "list_phones", "add_phone", "drop_phone", "get_phone", "update_phone", "load_phones", "get_sip_log",
    "get_call_messages", "list_recordings", "analyze_capture", "validate_scenario", "run_scenario"]

  /** The names that the phone id check guards against. */
  const GUARDED: seq<string> := [
    "add_phone", "drop_phone", "list_phones", "get_phone", "update_phone", "load_phones", "get_sip_log",
    "list_recordings"]

  function ToolName(p: string, action: string): string {
    p + "_" + action
  }

  // ---------------------------------------------------- names are distinct

  /** Length and first letter of an action. */
  predicate IsHead(n: nat, c: char) {
    if n < 10 then
      (n == 4 && c == 'h') || (n == 6 && (c == 'h' || c == 'u')) || (n == 8 && c == 'r') || (n == 9 && (c == 'm' || c == 's'))
    else if n < 13 then
      (n == 10 && (c == 'l' || c == 'c' || c == 'p' || c == 's' || c == 'u')) || (n == 11 && (c == 'a' || c == 'r'))
      || (n == 12 && (c == 's' || c == 'g'))
    else
      (n == 13 && c == 'g') || (n == 14 && c == 'b') || (n == 16 && c == 'g') || (n == 17 && c == 'a') || (n == 23 && c == 'g')
  }

  lemma ActionHeads(a: string)
    requires a in ACTIONS
    ensures |a| > 0 && IsHead(|a|, a[0])
  {
  }

  /** No part of the name after an underscore looks like an action. */
  predicate TailsFree(t: string) {
    forall k :: 0 <= k < |t| - 1 && t[k] == '_' ==> !IsHead(|t| - k - 1, t[k + 1])
  }

  lemma CallNames()
    ensures TailsFree("make_call") && TailsFree("answer_call") && TailsFree("reject_call") && TailsFree("hangup")
  {
  }

  lemma InfoNames()
    ensures TailsFree("get_call_info") && TailsFree("list_calls")
  {
  }

  lemma ActiveCallNames()
    ensures TailsFree("get_active_calls")
  {
  }

  lemma CallHistoryNames()
    ensures TailsFree("get_call_history")
  {
  }

  lemma HoldNames()
    ensures TailsFree("hold") && TailsFree("unhold") && TailsFree("send_dtmf")
  {
  }

  lemma TransferNames()
    ensures TailsFree("blind_transfer") && TailsFree("attended_transfer")
  {
  }

  lemma AudioNames()
    ensures TailsFree("conference") && TailsFree("play_audio") && TailsFree("stop_audio")
  {
  }

  lemma MessageNames()
    ensures TailsFree("get_recording") && TailsFree("send_message") && TailsFree("get_messages")
  {
  }

  lemma RegisterNames()
    ensures TailsFree("get_registration_status") && TailsFree("unregister") && TailsFree("register")
  {
  }

  lemma ActionTails(t: string)
    requires t in ACTIONS
    ensures TailsFree(t)
  {
    hide TailsFree;
    CallNames();
    InfoNames();
    ActiveCallNames();
    CallHistoryNames();
    HoldNames();
    TransferNames();
    AudioNames();
    MessageNames();
    RegisterNames();
  }

  lemma PhoneNames()
    ensures TailsFree("list_phones") && TailsFree("add_phone") && TailsFree("drop_phone") && TailsFree("get_phone")
  {
  }

  lemma ProfileNames()
    ensures TailsFree("update_phone") && TailsFree("load_phones")
  {
  }

  lemma SipLogNames()
    ensures TailsFree("get_sip_log")
  {
  }

  lemma CallMessageNames()
    ensures TailsFree("get_call_messages")
  {
  }

  lemma RecordingListNames()
    ensures TailsFree("list_recordings")
  {
  }

  lemma CaptureNames()
    ensures TailsFree("analyze_capture")
  {
  }

  lemma ScenarioNames()
    ensures TailsFree("validate_scenario") && TailsFree("run_scenario")
  {
  }

  lemma StaticTails(t: string)
    requires t in STATIC
    ensures TailsFree(t)
  {
    hide TailsFree;
    PhoneNames();
    ProfileNames();
    SipLogNames();
    CallMessageNames();
    RecordingListNames();
    CaptureNames();
    ScenarioNames();
  }

  lemma EndsDiffer(t: string, action: string)
    requires action in ACTIONS && TailsFree(t) && |action| < |t|
    ensures t[|t| - |action| - 1..] != "_" + action
  {
    hide IsHead, ACTIONS;
    ActionHeads(action);
    var k := |t| - |action| - 1;
    assert t[k..][0] == t[k] && t[k..][1] == t[k + 1];
    assert ("_" + action)[0] == '_' && ("_" + action)[1] == action[0];
  }

  /** No two phones or actions share a tool name, whatever the phone ids. */
  lemma NamesInjective(p: string, a: string, q: string, b: string)
    requires a in ACTIONS && b in ACTIONS && ToolName(p, a) == ToolName(q, b)
    ensures p == q && a == b
  {
    hide TailsFree, ACTIONS;
    if |a| < |b| {
      LongerEnds(p, a, q, b);
      ActionTails(b);
      EndsDiffer(b, a);
    } else if |b| < |a| {
      LongerEnds(q, b, p, a);
      ActionTails(a);
      EndsDiffer(a, b);
    } else {
      var t := ToolName(p, a);
      assert t[..|p|] == p && ToolName(q, b)[..|p|] == q;
      assert t[|p| + 1..] == a && ToolName(q, b)[|p| + 1..] == b;
    }
  }

  lemma LongerEnds(p: string, a: string, q: string, b: string)
    requires ToolName(p, a) == ToolName(q, b) && |a| < |b|
    ensures b[|b| - |a| - 1..] == "_" + a
  {
    var t, n := ToolName(p, a), |q| + |b| - |a|;
    assert t[n..] == "_" + a;
    assert ToolName(q, b)[n..] == b[|b| - |a| - 1..];
  }

  /** No phone's tool has the name of a static tool, whatever the phone id. */
  lemma NeverStatic(p: string, a: string)
    requires a in ACTIONS
    ensures ToolName(p, a) !in STATIC
  {
    hide TailsFree, ACTIONS, STATIC;
    assert ToolName(p, a)[|p|..] == "_" + a;
    if ToolName(p, a) in STATIC {
      StaticTails(ToolName(p, a));
      EndsDiffer(ToolName(p, a), a);
    }
  }

  // ------------------------------------------------------------ the roster

  predicate IdChar(c: char) {
    'a' <= c <= 'z' || '0' <= c <= '9' || c == '_'
  }

  /** The pattern of a phone id. */
  predicate ValidId(p: string) {
    1 <= |p| <= 32 && forall c :: c in p ==> IdChar(c)
  }

  predicate SmallDigitOrUnderscore(c: char) {
    c in "abcdefghijklmnopqrstuvwxyz" || c in "0123456789" || c == '_'
  }

  lemma IdCharIff(c: char)
    ensures IdChar(c) <==> SmallDigitOrUnderscore(c)
  {
    assert "abcdefghijklmnopqrstuvwxyz"[if 'a' <= c <= 'z' then c as int - 'a' as int else 0] == if 'a' <= c <= 'z' then c else 'a';
    assert "0123456789"[if '0' <= c <= '9' then c as int - '0' as int else 0] == if '0' <= c <= '9' then c else '0';
  }

  /** A phone id is valid if and only if the name of its shortest tool has at
      most 37 characters, all of them small letters, digits and underscores. */
  lemma ValidIffLegal(p: string)
    ensures ValidId(p) <==>
            && |"_hold"| < |ToolName(p, "hold")| <= 37
            && forall c :: c in ToolName(p, "hold") ==> SmallDigitOrUnderscore(c)
  {
    hide IdChar, SmallDigitOrUnderscore;
    var t := ToolName(p, "hold");
    assert t == p + "_hold" && |t| == |p| + 5;
    forall c ensures IdChar(c) <==> SmallDigitOrUnderscore(c) {
      IdCharIff(c);
    }
    HoldIsLegal();
    assert forall c :: c in t <==> c in p || c in "_hold";
  }

  lemma HoldIsLegal()
    ensures forall c :: c in "_hold" ==> IdChar(c)
  {
  }

  function NamesOf(p: string): set<string> {
    set a | a in ACTIONS :: ToolName(p, a)
  }

  /** The tools that a set of phones has. */
  function NamesOfAll(ps: set<string>): set<string> {
    set p, a | p in ps && a in ACTIONS :: ToolName(p, a)
  }

  function StaticTools(): set<string> {
    set t | t in STATIC
  }

  /** The tools of the server: the static ones and the 22 of each phone. */
  function Roster(ps: set<string>): set<string> {
    StaticTools() + NamesOfAll(ps)
  }

  /** Taking a phone's tools away leaves the roster of the other phones. */
  lemma RosterWithout(ps: set<string>, p: string)
    ensures Roster(ps) - NamesOf(p) == Roster(ps - {p})
  {
    hide ACTIONS, STATIC, ToolName;
    forall t | t in NamesOf(p) ensures t !in Roster(ps - {p}) {
      var a :| a in ACTIONS && t == ToolName(p, a);
      NeverStatic(p, a);
      forall q, b | q in ps && b in ACTIONS && ToolName(q, b) == t ensures q == p {
        NamesInjective(q, b, p, a);
      }
    }
    forall t | t in Roster(ps) && t !in NamesOf(p) ensures t in Roster(ps - {p}) {
      if t !in StaticTools() {
        var q, b :| q in ps && b in ACTIONS && t == ToolName(q, b);
        assert q != p;
      }
    }
  }

  lemma RosterWith(ps: set<string>, p: string)
    ensures Roster(ps) + NamesOf(p) == Roster(ps + {p})
  {
    hide ACTIONS, STATIC, ToolName;
  }

  // ------------------------------------------------------------ the server

  class ToolServer {
    var tools: set<string>
    var phoneTools: map<string, seq<string>>

    /** What is registered is the roster of the phones that have tools. */
    ghost predicate Matches()
      reads this
    {
      && tools == Roster(phoneTools.Keys)
      && forall p :: p in phoneTools ==> Names(phoneTools[p]) == NamesOf(p)
    }

    constructor ()
      ensures Matches() && phoneTools == map[]
    {
      hide STATIC, ACTIONS;
      tools, phoneTools := StaticTools(), map[];
    }

    /** `_validate_phone_id`; `ok` is false when it raises.  The guard against
        static names never fires. */
    method ValidatePhoneId(p: string) returns (ok: bool)
      ensures ok == ValidId(p)
    {
      hide ACTIONS, GUARDED, STATIC, ToolName;
      if !ValidId(p) {
        return false;
      }
      for i := 0 to |ACTIONS| {
        if ToolName(p, ACTIONS[i]) in GUARDED {
          NeverStatic(p, ACTIONS[i]);
          GuardedAreStatic();
          assert false;
          return false;
        }
      }
      ok := true;
    }

    /** `register_phone_tools` */
    method RegisterPhoneTools(p: string) returns (names: seq<string>)
      modifies this`tools
      ensures tools == old(tools) + NamesOf(p) && Names(names) == NamesOf(p) && |names| == |ACTIONS|
    {
      hide ACTIONS;
      names := [];
      for i := 0 to |ACTIONS|
        invariant |names| == i && forall k :: 0 <= k < i ==> names[k] == ToolName(p, ACTIONS[k])
        invariant tools == old(tools) + Names(names)
      {
        tools := tools + {ToolName(p, ACTIONS[i])};
        names := names + [ToolName(p, ACTIONS[i])];
      }
      assert Names(names) == NamesOf(p);
    }

    /** `unregister_phone_tools`; returns how many it removed. */
    method UnregisterPhoneTools(names: seq<string>) returns (removed: nat)
      modifies this`tools
      ensures tools == old(tools) - Names(names) && removed == |old(tools) * Names(names)|
    {
      removed := 0;
      for i := 0 to |names|
        invariant tools == old(tools) - Names(names[..i])
        invariant removed == |old(tools) * Names(names[..i])|
      {
        NamesStep(names, i);
        if names[i] in tools {
          assert old(tools) * Names(names[..i + 1]) == old(tools) * Names(names[..i]) + {names[i]};
          tools := tools - {names[i]};
          removed := removed + 1;
        } else {
          assert old(tools) * Names(names[..i + 1]) == old(tools) * Names(names[..i]);
        }
      }
      assert names[..|names|] == names;
    }
  }

  function Names(xs: seq<string>): set<string> {
    set x | x in xs
  }

  lemma NamesStep(xs: seq<string>, i: nat)
    requires i < |xs|
    ensures Names(xs[..i + 1]) == Names(xs[..i]) + {xs[i]}
  {
    assert xs[..i + 1] == xs[..i] + [xs[i]];
  }

  lemma GuardedAreStatic()
    ensures forall t :: t in GUARDED ==> t in STATIC
  {
  }
}
