# Proofs about the pjsua MCP server

A model, in Dafny 4.11, of three parts of a server that drives SIP phones over
PJSUA2, and proofs about them.

1. **SDP.** The filter that restricts the audio codecs of an SDP text
   (`src/sdp_rewriter.py`) and the parser that reads SDP back
   (`parse_sdp_body` in `src/sip_logger.py`), on real text: splitting, the line
   patterns, both passes of the filter. The relevant standards are sections 5.14
   and 6 of RFC 4566 and section 6 of RFC 3551.
2. **Phones.** The registry, the call manager, the captures, one call's
   recording and playback, the server's operations on phones, the roster of
   per-phone tools, and the ownership filter of the SIP log
   (`src/account_manager.py`, `src/call_manager.py`, `src/pcap_manager.py`,
   `src/server.py`, `src/phone_tool_factory.py`, `src/sip_logger.py`).
3. **Scenarios.** The event bus, armed hooks, the action executor, the static
   validator and the runner (`src/scenario_engine/`).

## How it is built

Code that changes state is a class or a method with loops, in the form of the
source; each such method is proved equal to a function of the old state. The
laws are then lemmas about those functions, over every text, every step or every
run.

| files | content |
|---|---|
| `text.dfy`, `sdp_lines.dfy`, `sdp_patterns.dfy` | Python string operations; the line patterns, and as forms of text |
| `sdp_rewriter.dfy` | scan and emit, against a section-by-section function |
| `sdp_laws.dfy`, `sdp_composition.dfy`, `sdp_sections.dfy`, `sdp_unchanged.dfy` | filtering again, filtering twice, what the output sections are, when the filter has nothing to do |
| `sdp_allowed.dfy` | what the allow-list as given makes the filter keep |
| `sdp_parser.dfy`, `sdp_fields.dfy` | the parser; what each field of its result is, read off the lines |
| `sdp_commute.dfy`, `sdp_names.dfy` | filtering and then parsing |
| `call_media.dfy`, `call_player.dfy`, `call_recorder.dfy` | class `SipCall`: recorder, player, media callbacks; what a call plays, the names of its files, and when a recording is deferred |
| `phone_system.dfy`, `phone_invariants.dfy` | the phones as one state with steps; what every run keeps |
| `phone_history.dfy`, `phone_stories.dfy` | configurations, queues and calls as what the history of a run says |
| `capture_laws.dfy`, `call_requests.dfy`, `request_laws.dfy`, `phone_laws.dfy`, `phone_examples.dfy` | captures, which call a request means, ownership, counters, auto-answers; runs that show which hypotheses are needed |
| `pcap_manager.dfy`, `phone_manager.dfy`, `tool_roster.dfy`, `phone_server.dfy` | classes `PcapManager`, `PhoneRegistry`, `CallManager`, `ToolServer`, `Server` |
| `log_owner.dfy` | call tracker, owner of a log entry, filtered logs |
| `values.dfy`, `value_laws.dfy`, `event_matching.dfy`, `event_bus.dfy` | values, their equality and text, type patterns, class `EventBus` |
| `hook_runtime.dfy`, `hook_laws.dfy`, `hook_wants.dfy` | classes `HookObjects`, `HookRuntime`; when a hook dispatches, also in overlapping emits; which events it wants |
| `actions.dfy`, `action_forms.dfy` | executor and validator; the forms of an action, its arguments, the known event types |
| `scenario.dfy`, `scenario_laws.dfy` | class `ScenarioRunner`; what the hooks of a run see of its start |

## What is claimed, and under which hypotheses

Some statements one would expect of this code are false. For each the condition
under which it holds is proved in both directions, with an input that fails it.

- Filtering by A and then by B is filtering by their common names only under a
  condition (`FilterTwiceIff`, for texts whose rtpmap types stand on their
  m-lines). Where the common names take effect: if and only if no payload type is
  allowed by A and by B under different names only (`FilterTwice`, which asks of
  the text only that every audio section keeps a format under the common names;
  `FilterTwiceNeedsAgreement` is an input).
  Where they take none, because there are none or because of the bail-out: if and
  only if neither filter has anything to do (`UntouchedIff` spells this out,
  `FilterTwiceNeedsFormats` is an input). The latter rests on a law for every
  text: two filters give a text back only if each leaves it alone (`TextBack`).
  Filtering again by the *same* names needs no hypothesis at all
  (`FilterIsIdempotent`).
- Filtering and then parsing is parsing and then dropping the codecs whose names
  are not allowed, if and only if no listed payload type without a name for the
  filter has an allowed name for the parser: the parser's static table has eleven
  types more (`FilterThenParseByName`, `TablesDiffer`, `ComfortNoise`). The names
  that are left are allowed in any case (`NamesLeftAreAllowed`). Both are about
  texts with one kind of line break that the two readers read alike (`Readable`,
  `Consistent`), in which every audio section keeps a format.
- The active-call counter is exact after a step if and only if the step is not
  the end of a never-active call on a phone that has an active one
  (`CountsAfterStep`, `CounterDrifts`).
- After a step and a poll the running captures are the wanted ones if and only
  if the step changes no wish while the opposite request is queued
  (`CapturesAfterStep`, `CaptureOutlivesCall`); a poll before each step is enough
  (`PolledIsPrompt`).
- Pending auto-answers stay with their phone if and only if no phone gets a call
  id that is pending on another (`PendingAfterStep`, `AnswersForeignCall`).
- A hook of a scenario that validates arms if and only if its `when` is a string
  or a list and its `match` makes a mapping; the validator checks neither
  (`ValidatedHookArms`, `ValidationMissesShapes`).
- A once-hook dispatches once in an emit that it wants, if and only if no other
  thread emits an event it wants between the snapshot of that emit and the hook's
  call-back; else it dispatches twice (`FiresTwiceIff`, `FiresTwiceExample`). Over
  emits that do not overlap it is single-shot (`FirstOrEvery`).
- A scenario that validates reaches its clean-up if and only if each stop
  condition with an event has a `match` that makes a mapping. Then the bus ends
  with exactly the subscriptions the run did not create; else the run raises and
  leaves what it subscribed (`RunScenario`, `ValidationMissesStops`).

What is read, kept, queued or dispatched is also stated without the functions
that compute it.

- The parsed SDP is the lines of the text, field by field (`ParsedReads`), and
  the patterns are forms of text (`MLineIff`, `RtpmapIff`, `FmtpIff`). What the
  filter keeps is said of the allow-list as it is given (`KeepOfList`).
- In every reachable state the configurations, the queues and the tracked calls
  are what the history of the run says (`EveryConfigRun`, `EveryQueueRun`,
  `EveryStory`): in particular which calls wait to be answered (`IncomingWaits`,
  `NeverAnswered`) and what a call plays (`AlwaysPlays`, `TrackedCallPlays`).
- The call that a request, a capture or a transfer means is the oldest live, the
  longest waiting, or the first to go active (`OldestIsMeant`,
  `LongestWaitIsMeant`, `TransferLegs`, `MediaQueuesStart`, `FlagQueuesStart`).
- A hook wants an event by its type, its phone and its predicates (`PlainHook`,
  `HookWithPredicates`, `PredicateForms`, `ActualIs`), as its spec says
  (`ArmedAsSpecified`); one for a phone never acts on another's events
  (`DispatchedFromPhone`).

Hypotheses of the phone runs: a call id is not in use when the stack hands it
out, a new transport is not open yet, only tracked calls raise call-backs, and
transports, recorders for a writable disk, players and captures are created
successfully. Each method is one atomic step, but for the emits of
`OverlappingEmit`.

One place where the code and its comment disagree: the comment above the static
table in `src/sdp_rewriter.py:30-31` speaks of payload types without an explicit
rtpmap, but the code applies the table to every listed type that is not kept yet,
also to one whose rtpmap names another codec (lines 119-126). The model does what
the code does.

## Model

| member | source | states |
|---|---|---|
| Text.JoinOfSplit | src/sdp_rewriter.py:72-73 | joining the lines of a text with the separator they were split by gives the text back |
| Text.SplitOfJoin | src/sdp_rewriter.py:160 | splitting joined lines gives the lines back when no line contains or completes a separator |
| Text.TokensOfJoin | src/sdp_rewriter.py:144-146 | format lists written with single blanks read back as the same tokens |
| Text.PyIntOfNumeral | src/sip_logger.py:359-364 | `int()` reads a decimal numeral with white space around it as its number |
| Text.Underscores | src/sip_logger.py:359-364 | `int()` reads digits with one underscore between as the digits, and refuses two in a row or one at an end |
| SdpLines.MatchOfRender | src/sdp_rewriter.py:26-28 | a rewritten m-line reads back as the same section with the new formats, and as no m-line at all when none is left |
| SdpPatterns.MLineIff | src/sdp_rewriter.py:26-28 | a line is the m-line of a kind, a port, a protocol and formats if and only if it is written as these with white space between; without formats, with two blanks at least behind the protocol |
| SdpPatterns.RtpmapIff | src/sdp_rewriter.py:24 | a line maps a type to a name if and only if it has the form `a=rtpmap:<digits> <name>`, with more after a slash or nothing |
| SdpPatterns.FmtpIff | src/sdp_rewriter.py:25 | a line has parameters of a type if and only if it begins `a=fmtp:<digits>` and no word character follows |
| SdpRewriter.BodyIsPrefix | src/sdp_rewriter.py:96-110 | a section's body is the longest run of lines up to the next m-line |
| SdpRewriter.ScanAudioBlocks | src/sdp_rewriter.py:92-128 | the one-loop scan with an open block finds exactly the audio sections, in order and disjoint, with their kept types |
| SdpRewriter.AddStaticNames | src/sdp_rewriter.py:120-126 | the static table adds the listed types it names with an allowed name |
| SdpRewriter.SkipEnded | src/sdp_rewriter.py:136-139 | the cursor leaves a block exactly at the m-line that ends it |
| SdpRewriter.Emit | src/sdp_rewriter.py:131-160 | the cursor walk over the lines writes the section-by-section rewrite |
| SdpRewriter.FilterAudioCodecs | src/sdp_rewriter.py:42-89 | the filter is the text function `Filtered`, with its no-op cases and its bail-out |
| SdpAllowed.LowerIff | src/sdp_rewriter.py:64 | `lower()` leaves no capital and makes two texts equal exactly when they differ at most in the case of letters |
| SdpAllowed.KeepOfList | src/sdp_rewriter.py:64-128 | a section keeps a payload type if and only if an rtpmap line, or for a listed type the static table, gives it a name that is an element of the list as given up to the case of letters, or `telephone-event` with DTMF preserved and a list that is not empty |
| SdpAllowed.SameNamesFilterAlike | src/sdp_rewriter.py:64 | lists with the same names up to the case of letters, order, repetitions and empty elements filter every text alike |
| SdpAllowed.NothingNamed | src/sdp_rewriter.py:60-66 | a list without a non-empty name leaves every text alone, also with DTMF preserved |
| SdpAllowed.CapitalsAllow | src/sdp_rewriter.py:64 | a text of which `PCMA` in capitals keeps exactly type 8 |
| SdpLaws.KeepIsNamed | src/sdp_rewriter.py:110-126 | a section keeps exactly the payload types that have an allowed name, by an rtpmap line or by the static table |
| SdpLaws.LinesOfOutput | src/sdp_rewriter.py:72-73 | the output, split again with a separator chosen afresh, gives the lines it was joined from |
| SdpLaws.OutputIsSettled | src/sdp_rewriter.py:131-160 | the rewritten lines are a fixed point of the rewrite and do not bail out |
| SdpLaws.FilterIsIdempotent | src/sdp_rewriter.py:42-89 | filtering again by the same names changes nothing, for every text and every set of names |
| SdpComposition.KeepAfter | src/sdp_rewriter.py:110-128 | in a section filtered by A, B keeps what both keep of the original section |
| SdpComposition.EqualMeetAgrees | src/sdp_rewriter.py:131-160 | if filtering twice gives the filter by the common names, no payload type is allowed by both under different names only |
| SdpComposition.FilterTwice | src/sdp_rewriter.py:42-89 | A then B equals the common names, if and only if no type is allowed by both under different names only |
| SdpComposition.FilterTwiceOneName | src/sdp_rewriter.py:42-89 | with one name per payload type the order of two filters is immaterial and both are the filter by the common names |
| SdpSections.OutputSections | src/sdp_rewriter.py:131-168 | each audio section of the output has exactly the allowed formats, in order and not empty, and all its lines but the rtpmap and fmtp lines of other types; the other m-line fields and every line outside audio sections are as before, in order |
| SdpSections.KeptIsFormat | src/sdp_rewriter.py:77-87 | with the rtpmap types on the m-line, a filter that does not bail out leaves every audio section a format |
| SdpSections.FilterTwiceNeedsFormats | src/sdp_rewriter.py:77-87 | a text where A then B is not the filter by the common names, because these leave no format |
| SdpSections.FilterTwiceNeedsAgreement | src/sdp_rewriter.py:110-126 | a text where A then B keeps a type that the common names drop, since each allows another of its two names |
| SdpUnchanged.UntouchedIff | src/sdp_rewriter.py:42-89 | the filter returns its input if and only if there are no names or no text, a section would keep nothing, or each audio section is written with single blanks, keeps all its formats and has no line of another type |
| SdpUnchanged.LinesBack | src/sdp_rewriter.py:131-160 | no second pass restores a line that a first one dropped or rewrote |
| SdpUnchanged.TextBack | src/sdp_rewriter.py:42-89 | two filters give a text back if and only if each of them leaves it alone, for every text and all names |
| SdpUnchanged.FilterTwiceIff | src/sdp_rewriter.py:42-89 | with the rtpmap types on their m-lines: A then B equals the common names, if and only if these take effect and no type is allowed by both under different names only, or they take none and neither filter has anything to do |
| SdpParser.BuildCodecs | src/sip_logger.py:366-374 | one codec per payload type, static types with their name and rate |
| SdpParser.ApplyRtpmap | src/sip_logger.py:385-406 | the first codec with the payload type is renamed, the others stay |
| SdpParser.ApplyFmtp | src/sip_logger.py:408-417 | the first codec with the payload type gets the parameters |
| SdpParser.OpenMedia | src/sip_logger.py:356-383 | an m-line opens a section, or none when a field is missing or no number |
| SdpParser.ApplyAttribute | src/sip_logger.py:439-455 | what an attribute line does to the open section |
| SdpParser.ParseSdpBody | src/sip_logger.py:326-467 | the loop with the open section is the line-by-line state machine `Parsed` |
| SdpFields.ParsedReads | src/sip_logger.py:326-467 | the result read off the lines: the version of the last readable `v=` line or 0, the first and sixth field of the last `o=` line with six, and in order one section for each m-line with numbers, with that line's kind, port, protocol and types, the last direction and readable `rtcp` port of its body, and per type the name, rate and parameters of the last line for it, else the static ones; and exactly when there is no result |
| SdpFields.LastIsLast | src/sip_logger.py:419-458 | what the last line says is an answer of a line with no answer after it, or no line has one |
| SdpFields.RtpmapReads | src/sip_logger.py:385-406 | an rtpmap value is read as the type, name and rate it is written from, and with rate 0 without one |
| SdpFields.FmtpReads | src/sip_logger.py:408-417 | an fmtp value is read as the type and the parameters it is written from |
| SdpFields.StaticTypes | src/sip_logger.py:224-245 | exactly the types 0 and 3 to 18 are static, with the rates of RFC 3551 |
| SdpCommute.TokensOfMLine | src/sip_logger.py:356-365 | the parser sees the fields of an m-line where the filter's pattern sees them |
| SdpCommute.DroppedAttribute | src/sip_logger.py:385-417 | a dropped rtpmap or fmtp line would not have changed the restricted section |
| SdpCommute.FilterThenParse | src/sip_logger.py:326-467 | parsing the filtered text gives the parse of the text with each audio section restricted to its kept types and all else the same |
| SdpNames.TablesAgree | src/sdp_rewriter.py:32-39 | a type that the filter's static table names has the same name in the parser's |
| SdpNames.TablesDiffer | src/sip_logger.py:227-245 | the filter's table names exactly 0, 3, 8, 9, 15 and 18, and the parser's exactly eleven types more |
| SdpNames.FilterThenParseByName | src/sip_logger.py:326-467 | with at most one name per type for the filter, filtering and parsing is parsing and dropping the codecs whose names are not allowed, if and only if no listed type without a name for the filter has an allowed one for the parser |
| SdpNames.ComfortNoise | src/sip_logger.py:227-245 | a text with type 13, which the filter drops although the parser's name for it is allowed |
| SdpNames.NamesLeftAreAllowed | src/sdp_rewriter.py:42-89 | every codec name the parser finds in an audio section of the output is in the allow-list |
| CallMedia.SipCall.Start | src/call_manager.py:260-309 | starts a recorder, or waits for media, or leaves the call as it is |
| CallMedia.SipCall.Reconnect | src/call_manager.py:311-333 | starts a deferred recorder or feeds the running one from the new port and the player |
| CallMedia.SipCall.Stop | src/call_manager.py:335-352 | closes the recorder with its sidecar and goes idle |
| CallMedia.SipCall.StopCurrentPlayer | src/call_manager.py:450-461 | the player is cut from the audio port and forgotten |
| CallMedia.SipCall.Play | src/call_manager.py:415-442 | the new player replaces the old one and feeds the port and the recorder; without audio it raises and changes nothing |
| CallMedia.SipCall.StopAudio | src/call_manager.py:444-448 | the player stops and the hold music resumes |
| CallMedia.SipCall.OnCallMediaState | src/call_manager.py:171-222 | every active audio stream in turn, with the first-active call-back at most once in the life of the call |
| CallMedia.SipCall.Toggle | src/call_manager.py:1118-1126 | one call's part of switching recording on or off |
| CallMedia.SipCall.OnDisconnected | src/call_manager.py:84-99 | recording and playback end with the call |
| CallMedia.SipCall.OnCallSdpCreated | src/call_manager.py:133-169 | the outgoing SDP is filtered by the call's list, with DTMF kept |
| CallMedia.EveryCallRun | src/call_manager.py:247-258 | in every run of a call: recorder, file and start time come together, pending excludes active, disabled is idle, the files opened are the sidecars written plus the open one, and playback, port, player and recorder are connected, whatever the bridge loses at a media change; after the hang-up every file has its sidecar |
| CallPlayers.EveryPlayerRun | src/call_manager.py:171-222 | in every run a call has the last active port, a player exactly when its history leaves something to play, and plays exactly that |
| CallPlayers.AlwaysPlays | src/call_manager.py:197-203 | as long as the hold music is there and the call is not disconnected, a call with audio has a player, which plays the last file asked for since the last stop, else `/app/audio/moh.wav` |
| CallPlayers.MediaPlays | src/call_manager.py:197-203 | a media change keeps an existing player and its file, and else starts the hold music if there is an active stream and the file exists |
| CallPlayers.StoppedIsCut | src/call_manager.py:450-461 | a stopped or replaced player no longer feeds the port, and no other connection goes |
| CallPlayers.EveryFileRun | src/call_manager.py:283-290 | the files of a call carry its phone, its id and the stamps of its steps, in their order |
| CallPlayers.FilesDistinct | src/call_manager.py:255-258 | with increasing stamps no two recordings of a call share a file |
| CallMedia.RecordingFollowsTheFlag | src/call_manager.py:260-352 | with a writable disk a call records exactly while recording is on and it has audio, in every run |
| CallRecorders.EveryDeferredRun | src/call_manager.py:260-352 | in every run a start of the recording is pending if and only if it was asked for without audio, and since then no stream came with a writable disk and it was not called off |
| CallRecorders.EveryNumberedRun | src/call_manager.py:287-289 | in every run each player and recorder is a new one, of which no earlier connection is |
| PcapCaptures.PcapManager.StartForPhone | src/pcap_manager.py:46-95 | one capture per phone; a second start raises |
| PcapCaptures.PcapManager.StopForPhone | src/pcap_manager.py:97-120 | the phone's capture ends; idempotent |
| PhoneManager.PhoneRegistry.DropPhone | src/account_manager.py:243-278 | tables, the manager's hook and the transport; whether the phone was there |
| PhoneManager.PhoneRegistry.AddPhone | src/account_manager.py:152-241 | replaces a phone, opens its transport, enters both tables and calls the hook |
| PhoneManager.PhoneRegistry.ReregisterPhone | src/account_manager.py:333-353 | replaces the phone by itself over a new transport |
| PhoneManager.PhoneRegistry.DropAll | src/account_manager.py:395-398 | drops every phone, one after another |
| PhoneManager.CallManager.OnPhoneAdded | src/call_manager.py:571-580 | the phone's queues come into being, kept when they exist |
| PhoneManager.CallManager.OnPhoneDropped | src/call_manager.py:582-595 | queues, counter and calls of the phone go, and a running capture is told to stop |
| PhoneManager.CallManager.OnIncomingCall | src/call_manager.py:605-624 | the call enters both tables and the queues of its phone with the phone's current settings |
| PhoneManager.CallManager.MakeCall | src/call_manager.py:779-819 | the call enters both tables with the phone's current settings |
| PhoneManager.CallManager.RegisterCallActive | src/call_manager.py:673-686 | the counter goes up, and the first active call of a capturing phone queues a start |
| PhoneManager.CallManager.OnCallMediaState | src/call_manager.py:171-186 | a media call-back changes its call only, and counts it once |
| PhoneManager.CallManager.OnCallDisconnected | src/call_manager.py:1129-1171 | stale calls leave tables and queues, the counter goes down, and the last call queues a stop |
| PhoneManager.CallManager.OnDisconnected | src/call_manager.py:84-99 | the call ends and the manager is told |
| PhoneManager.CallManager.SetCodecsForPhone | src/call_manager.py:1055-1097 | every call of the phone, and no other, takes the list |
| PhoneManager.CallManager.SetRecordingEnabled | src/call_manager.py:1099-1127 | every call of the phone, once each, takes the flag and acts on it; returns them in table order |
| PhoneManager.CallManager.SetCaptureEnabled | src/call_manager.py:721-751 | the flag, and a start or a stop when it makes a difference now |
| PhoneManager.CallManager.ProcessAutoCaptures | src/call_manager.py:688-719 | the two deques are drained, all starts before all stops |
| PhoneManager.CallManager.ProcessAutoAnswers | src/call_manager.py:645-668 | every queue is emptied and exactly the tracked calls among them are answered |
| PhoneManager.CallManager.GetCall | src/call_manager.py:1241-1290 | the call a request means, and what is left of the incoming queue |
| PhoneManager.CallManager.TransferBetween | src/call_manager.py:872-899 | the two legs of an attended transfer, or an error |
| PhoneManager.CallManager.Bridge | src/call_manager.py:1003-1026 | the calls a conference bridges, with a connection from the port of each to the port of each other, or an error and no connection |
| PhoneManager.MeshOfDistinct | src/call_manager.py:1018-1024 | of different ports each is connected to each other one, and none to itself |
| PhoneManager.CallManager.LiveCallsOf | src/call_manager.py:915-929 | the phone's live calls in table order |
| PhoneInvariants.EveryRun | src/call_manager.py:485-520 | in every reachable state: the two call tables have the same keys, transports and phones match one to one, incoming queues are duplicate-free and hold own tracked calls, calls follow their phone's codec list and recording flag, counters are positive and bounded |
| PhoneInvariants.EndedCalls | src/call_manager.py:1148-1155 | a disconnect removes exactly its call from the tables and the incoming queues |
| PhoneInvariants.DropKeeps | src/account_manager.py:243-278 | dropping a phone keeps the invariant and no other phone is touched |
| PhoneInvariants.AddKeeps | src/account_manager.py:177-229 | adding or replacing a phone keeps the invariant |
| PhoneHistory.EveryConfigRun | src/server.py:411-444 | in every reachable state a phone's configuration is what it was added with and the last setting of each kind since |
| PhoneHistory.IncomingWaits | src/call_manager.py:605-643 | an incoming call of a registered phone goes to the end of that phone's queue, and waits to be answered if and only if the phone's flag is on; no other queue changes |
| PhoneHistory.EveryQueueRun | src/call_manager.py:605-671 | in every reachable state the calls waiting on a phone, and those waiting to be answered, are in order what its history says |
| PhoneHistory.NeverAnswered | src/call_manager.py:626-627 | over every run a phone whose flag was never on has no call answered for it |
| PhoneHistory.OrderAfterStep | src/call_manager.py:621-625 | the call table keeps the order of arrival over every step |
| PhoneStories.EveryStory | src/call_manager.py:605-643 | in every reachable state the tracked calls are those with a history, each in the state where its own media changes, toggles, requests and codec lists lead |
| PhoneStories.TrackedCallPlays | src/call_manager.py:171-222 | a tracked call plays what its own history says, through its last active port |
| CaptureLaws.DrainTurns | src/call_manager.py:688-719 | a poll turns the captures C into (C and the queued starts) without the queued stops, keeps running ones and empties both queues |
| CaptureLaws.CapturesAfterStep | src/call_manager.py:673-751 | after a step and a poll the captures are the wanted ones, if and only if the step was prompt |
| CaptureLaws.EveryPromptRun | src/call_manager.py:688-719 | in every prompt run, after each poll the phones captured are those with the flag on and a positive counter |
| CaptureLaws.PolledIsPrompt | src/server.py:61-74 | a poll before each other step makes a run prompt |
| CaptureLaws.StartsNameOwnCalls | src/call_manager.py:673-751 | a step that queues a start names a call that its phone has tracked at that time |
| CaptureLaws.DrainNames | src/call_manager.py:688-719 | after a poll a capture has the call it had, or that of the first start queued for its phone |
| CaptureLaws.MediaQueuesStart | src/call_manager.py:673-686 | a media change queues a start exactly when it makes its call the phone's only active one and the flag is on, and the start names that call |
| CaptureLaws.FlagQueuesStart | src/call_manager.py:721-751 | the flag queues a start exactly when it is switched on for a phone with an active call and no capture, and the start names the phone's oldest tracked call |
| PhoneLaws.CountsAfterStep | src/call_manager.py:1157-1164 | the counters stay exact over a step, if and only if it is not the end of a never-active call on a phone with an active one |
| PhoneLaws.EveryCountedRun | src/call_manager.py:673-686 | in every run without such an end the counters are the numbers of tracked calls that went active |
| PhoneLaws.OnlyOwnCalls | src/call_manager.py:1241-1290 | in every reachable state the requests of a phone act on tracked calls of that phone only |
| PhoneLaws.ExplicitIdAccepted | src/call_manager.py:1281-1290 | an explicit call id is accepted exactly when the phone owns the call |
| PhoneLaws.GetCallTakesPrefix | src/call_manager.py:1256-1261 | looking up a call takes a prefix of the phone's own incoming queue |
| RequestLaws.OldestIsMeant | src/call_manager.py:1263-1272 | without an id a request means the phone's oldest live call, or none if it has no live one |
| RequestLaws.NamedIsMeant | src/call_manager.py:1248-1251 | with an id it means that call if the phone owns it, and else none |
| RequestLaws.LongestWaitIsMeant | src/call_manager.py:1255-1261 | answering and rejecting without an id take exactly the head of the phone's queue, or mean the oldest live call when nothing waits |
| RequestLaws.RequestsWithoutId | src/call_manager.py:831-870 | in every reachable state, which call each request without an id acts on |
| RequestLaws.HangsUpLive | src/call_manager.py:915-929 | hanging up everything acts on exactly the phone's live calls, in the order of arrival |
| RequestLaws.TransferLegs | src/call_manager.py:872-913 | an attended transfer moves the first of two named calls to the second, or the oldest live call to the next |
| RequestLaws.BridgedAre | src/call_manager.py:1012-1013 | a conference takes the listed calls with audio, in the order given |
| RequestLaws.ConferenceIff | src/call_manager.py:1003-1016 | a conference takes place if and only if the phone owns every listed call and two places of the list have audio |
| PhoneLaws.OutgoingSdpIsCurrent | src/call_manager.py:133-161 | in every reachable state a tracked call sends its SDP filtered by its phone's current list |
| PhoneLaws.PendingAfterStep | src/call_manager.py:615-624 | pending auto-answers stay with their phone over a step, if and only if it gives no phone an id pending on another |
| PhoneLaws.EveryFreshRun | src/call_manager.py:645-668 | in every run with such ids a pending answer that is tracked belongs to the phone it waits on |
| PhoneLaws.AutoAnswersOwnCalls | src/call_manager.py:645-668 | in every such run what the poll answers for a phone are its own tracked calls |
| PhoneLaws.EveryRunQueues | src/call_manager.py:571-595 | in every reachable state exactly the registered phones have an incoming and an auto-answer queue |
| PhoneLaws.DropAllClears | src/account_manager.py:395-398 | dropping all phones of a reachable state leaves no configuration, transport, call, incoming or auto-answer queue or counter, and queues a stop for each running capture of theirs |
| PhoneExamples.CounterDrifts | src/call_manager.py:1157-1164 | a run in which the end of a never-active call makes the counter miss an active one |
| PhoneExamples.CaptureOutlivesCall | src/call_manager.py:1165-1171 | a run in which a call ends before the poll and its capture stays |
| PhoneExamples.AnswersForeignCall | src/call_manager.py:1148-1155 | a run in which a pending answer is for another phone's call |
| ToolRoster.NamesInjective | src/phone_tool_factory.py:64-67 | no two phones or actions share a tool name, for all phone ids |
| ToolRoster.NeverStatic | src/server.py:138-161 | no per-phone tool has the name of a static tool, for all phone ids |
| ToolRoster.ValidIffLegal | src/server.py:135-150 | a phone id is valid if and only if its `hold` tool has a name of at most 37 small letters, digits and underscores |
| ToolRoster.RosterWithout | src/phone_tool_factory.py:367-380 | removing a phone's names leaves the roster of the other phones |
| ToolRoster.ToolServer.ValidatePhoneId | src/server.py:138-161 | accepts exactly the ids of the pattern: the guard against static names never fires |
| ToolRoster.ToolServer.RegisterPhoneTools | src/phone_tool_factory.py:45-364 | the phone's 22 names are registered and returned |
| ToolRoster.ToolServer.UnregisterPhoneTools | src/phone_tool_factory.py:367-380 | the names go, and the number of those that were there is returned |
| PhoneServer.Server.AddPhone | src/server.py:164-226 | an id of the pattern is added or replaced, and the tools are the static ones and the 22 of each registered phone |
| PhoneServer.Server.DropPhone | src/server.py:229-242 | a registered phone goes with its tools |
| PhoneServer.Server.LoadPhones | src/server.py:595-627 | replace or merge: the registered phones are the kept ones and the profile's, and the tools are theirs |
| PhoneServer.LoadedConfigs | src/server.py:595-627 | after a load each phone has the configuration of its last valid entry with that entry's transport, and the others have what they had unless dropped |
| PhoneServer.Server.UpdatePhone | src/server.py:411-444 | the given settings in turn, then the fresh registration |
| PhoneServer.UpdateReachesCalls | src/server.py:411-444 | an update keeps the invariant, the phone's calls take the new list and flag, and fresh credentials keep the settings but not the calls |
| LogOwner.BuildPhonesMeta | src/server.py:650-685 | each registered phone with the Call-IDs and remote URIs the tracker has for it |
| LogOwner.TrackedCallResolves | src/sip_logger.py:175-196 | a tracked Call-ID of a registered phone resolves to it, in any phone order and whatever else the message shows |
| LogOwner.OwnerShowsStrongest | src/sip_logger.py:175-221 | an entry has no owner exactly when no phone shows any signal; else its owner shows one, and no phone shows a stronger one |
| LogOwner.DumpResolves | src/sip_logger.py:195-204 | without a Call-ID an entry goes to the one phone with a tracked call to the dump's remote party, up to the canonical form |
| LogOwner.ViaPortResolves | src/sip_logger.py:206-212 | without those it goes to the one phone whose local port is in its `Via` |
| LogOwner.RegisterResolves | src/sip_logger.py:214-219 | without those a REGISTER goes to the one phone whose user its `From` names |
| LogOwner.LastTrackedOwns | src/call_manager.py:524-539 | the last call tracked under a Call-ID owns it |
| LogOwner.FilterEntries | src/sip_logger.py:538-631 | the loop keeps exactly the entries that pass and are owned, or are unowned and mention the username, and counts the latter |
| LogOwner.JudgedIff | src/sip_logger.py:584-629 | an entry is kept if and only if each field asked for is as asked, and the phone owns it, or nobody does and it has `sip:<user>@`, then as a fallback |
| LogOwner.KeptOfParts | src/sip_logger.py:584-631 | the log is filtered entry by entry |
| LogOwner.KeptIsSubsequence | src/sip_logger.py:584-631 | a filtered log is a subsequence of the log, and the fallbacks are among the kept |
| LogOwner.SharedAreFallbacks | src/sip_logger.py:584-631 | the entries in the logs of two phones are among the fallbacks that each reports, and the two logs hold no more different entries than the whole |
| LogOwner.TrackedCallInOwnLog | src/sip_logger.py:617-629 | an entry of a tracked call is kept in its phone's log and in no other phone's |
| EventMatching.AnyMatches | src/scenario_engine/event_bus.py:57-67 | the loop over the patterns finds whether one matches |
| ValueLaws.FirstEntry | src/scenario_engine/hook_runtime.py:34-44 | the value of a key is that of the first entry with it |
| ValueLaws.SameBothWays | src/scenario_engine/hook_runtime.py:74 | equality of values is symmetric, also of mappings in another order |
| ValueLaws.SameOnwards | src/scenario_engine/hook_runtime.py:74 | it is transitive |
| ValueLaws.SameAsItself | src/scenario_engine/hook_runtime.py:74 | it is reflexive on values whose mappings have no key twice |
| ValueLaws.TextReads | src/scenario_engine/hook_runtime.py:66-73 | the text of a number reads as that number, that of no other value but a text begins with a digit, and the texts of `None` and of booleans |
| EventMatching.PrefixPattern | src/scenario_engine/event_bus.py:61-64 | `p.*` matches exactly the types whose dot-separated segments start with those of `p` |
| HookWants.PlainPattern | src/scenario_engine/event_bus.py:57-67 | a pattern that is no wildcard matches its own text only, and `*` everything |
| EventMatching.ClassesPartition | src/scenario_engine/hook_runtime.py:65-73 | a value is in exactly one of the classes `1xx` to `6xx` if it is, or reads as, a code from 100 to 699, and in none else |
| EventHub.EventBus.Subscribe | src/scenario_engine/event_bus.py:82-97 | a new id, at the end of the table |
| EventHub.EventBus.Unsubscribe | src/scenario_engine/event_bus.py:99-103 | exactly that subscription goes |
| EventHub.EventBus.Snapshot | src/scenario_engine/event_bus.py:105-107 | the subscriptions an event calls back, in order |
| EventHub.EventBus.RemoveOnce | src/scenario_engine/event_bus.py:115-120 | the one-shot subscriptions that were called back go |
| HookRuntimes.MappingsHaveEntries | src/scenario_engine/hook_runtime.py:142 | what `dict(match or {})` accepts is a mapping of the model unless a pair's key is no string |
| HookRuntimes.HookRuntime.MakeHook | src/scenario_engine/hook_runtime.py:138-164 | a hook object under a fresh id, with its subscription |
| HookRuntimes.HookRuntime.ArmSpec | src/scenario_engine/hook_runtime.py:121-166 | a hook with its subscription in the table, or an error and no change |
| HookRuntimes.HookRuntime.Callback | src/scenario_engine/hook_runtime.py:148-158 | a mismatch changes nothing; a match detaches a once-hook and dispatches, whether or not a table still has the hook |
| HookRuntimes.HookRuntime.EmitEvent | src/scenario_engine/event_bus.py:105-120 | the call-backs of the snapshot, of all runtimes, then the removal of one-shot subscriptions |
| HookRuntimes.HookRuntime.RemoveHook | src/scenario_engine/hook_runtime.py:168-173 | the hook leaves the table, and its subscription the bus if it has one |
| HookLaws.EmitOne | src/scenario_engine/hook_runtime.py:148-166 | one emit dispatches a live hook if and only if it wants the event, and only a once-hook that did goes off the bus; a hook that is not live is silent |
| HookLaws.EmitAtSub | src/scenario_engine/hook_runtime.py:148-166 | the same for the hooks of any runtime on the bus |
| HookLaws.FirstOrEvery | src/scenario_engine/hook_runtime.py:148-166 | over any steps a once-hook dispatches exactly on the first event of its types, phone and predicates, a repeating one on every such event |
| HookWants.PlainHook | src/scenario_engine/hook_runtime.py:92-100 | a hook without predicates wants exactly the events of its types, from its phone if it names one |
| HookWants.HookWithPredicates | src/scenario_engine/hook_runtime.py:77-89 | with predicates it wants those of these on which every predicate holds |
| HookWants.DispatchedFromPhone | src/scenario_engine/hook_runtime.py:95-99 | over any steps every event dispatched to a hook for a phone is that phone's |
| HookWants.PredicateForms | src/scenario_engine/hook_runtime.py:47-74 | what each form of a predicate accepts: `None` an absent value, a list its members, `~` what the pattern is found in, any other value but a status class what equals it |
| HookWants.FoundByPath | src/scenario_engine/hook_runtime.py:34-44 | a dotted path names a key and then the rest in what is there; an absent key has no value |
| HookWants.ActualIs | src/scenario_engine/hook_runtime.py:81-86 | a predicate looks at the event's data first, and only then at the attribute of that name |
| HookWants.AbsentKey | src/scenario_engine/hook_runtime.py:57-58 | a predicate that expects nothing holds where the data has no such key |
| HookWants.ArmedAsSpecified | src/scenario_engine/hook_runtime.py:127-146 | the hook that a spec arms has the types, phone, predicates and actions given, and is a once-hook unless `once` is given and false |
| HookLaws.UnarmedIsSilent | src/scenario_engine/event_bus.py:105-120 | a hook that no subscription calls back dispatches nothing over any steps, and none of them subscribes it |
| HookLaws.RemovedIsSilent | src/scenario_engine/hook_runtime.py:168-173 | removing a hook takes its subscription off the bus, so that it is silent from then on |
| HookLaws.OverlappingEmit | src/scenario_engine/event_bus.py:105-120 | what a live hook dispatches in an emit between whose call-backs other threads take any steps |
| HookLaws.FiresTwiceIff | src/scenario_engine/hook_runtime.py:148-158 | a once-hook dispatches twice in such an emit if and only if an event it wants is emitted between snapshot and its call-back |
| HookLaws.FiresTwiceExample | src/scenario_engine/hook_runtime.py:148-158 | such an emit |
| Actions.Execute | src/scenario_engine/action_executor.py:131-159 | the handlers called are a prefix of the chain, with the inherited arguments, and the outcome says where and why it stopped |
| ActionForms.OutcomeIff | src/scenario_engine/action_executor.py:131-159 | a chain completes if and only if every action runs and its handler returns; else it stops at the first that does not, for that one's reason, and the handlers up to there were called with their arguments |
| ActionForms.NormalForms | src/scenario_engine/action_executor.py:57-74 | the name and the arguments of each form of an action, and that there are no other forms |
| ActionForms.FilledArguments | src/scenario_engine/action_executor.py:143-147 | the arguments a handler gets: those given, else the hook's phone or the event's, and the event's call if it has one |
| Actions.KnownIsDispatched | src/scenario_engine/validator.py:21-32 | the validator's actions are those of the dispatch table |
| Actions.ValidateScenario | src/scenario_engine/validator.py:55-112 | the issues in the order of hooks, stop conditions and initial actions, or that it raises |
| Actions.OnlyStringsAreEvents | src/scenario_engine/validator.py:35-41 | the text of no other value is a known event |
| ActionForms.KnownIffInFamily | src/scenario_engine/validator.py:35-41 | a type is known if and only if it lies in a known family, a wildcard if and only if its base begins with the name of one |
| Actions.ValidatedHookArms | src/scenario_engine/validator.py:78-92 | a hook of a valid scenario arms if and only if `when` is a string or a list and `match` makes a mapping |
| Actions.ValidationMissesShapes | src/scenario_engine/validator.py:78-92 | two valid scenarios whose hook does not arm |
| Actions.ValidatedChainsRun | src/scenario_engine/action_executor.py:131-159 | in a valid scenario no chain stops at a malformed spec or an unknown action, and it completes if and only if every handler returns |
| ScenarioRuns.EmitForOthers | src/scenario_engine/event_bus.py:105-120 | an emit takes from the others exactly the one-shot subscriptions it calls back and the once-hooks it matches, as if the run were not there |
| ScenarioRuns.OutsideSteps | src/scenario_engine/orchestrator.py:164-268 | whatever others do during a run, its subscriptions stay accounted for and theirs change as without it |
| ScenarioRuns.EmitsKeepOthers | src/scenario_engine/event_bus.py:105-120 | emits alone keep the others' repeating subscriptions and hooks |
| ScenarioRuns.ValidStopsAreNamed | src/scenario_engine/validator.py:97-101 | in a valid scenario every stop condition with an event names it by a string |
| ScenarioRuns.ValidationMissesStops | src/scenario_engine/orchestrator.py:171-194 | a valid scenario whose stop condition makes the run raise |
| ScenarioRuns.ScenarioRunner.ArmHooks | src/scenario_engine/orchestrator.py:156-165 | the hooks that build are armed, with the subscriptions spelled out, the others are reported |
| ScenarioRuns.ScenarioRunner.SubscribeStops | src/scenario_engine/orchestrator.py:171-194 | each stop condition with an event has its handler on the bus, up to the first whose `match` makes no mapping, which raises |
| ScenarioRuns.ScenarioRunner.ReplayRegistrations | src/scenario_engine/orchestrator.py:204-224 | each registered phone of the scenario gets its event again |
| ScenarioRuns.ScenarioRunner.UnsubscribeStops | src/scenario_engine/orchestrator.py:270-272 | the stop handlers go, the others see no change |
| ScenarioRuns.ScenarioRunner.RemoveHooks | src/scenario_engine/hook_runtime.py:175-177 | the hooks go, fired or not, the others see no change |
| ScenarioRuns.ScenarioRunner.RunScenario | src/scenario_engine/orchestrator.py:101-276 | a valid scenario reaches its clean-up if and only if each stop condition with an event has a `match` that makes a mapping, and then ends with exactly the subscriptions it did not create, as emits and others changed them; else its recorder, its hooks and the earlier stop handlers stay; a scenario that does not validate leaves the bus as it was |
| ScenarioLaws.CoordinatorSeesStart | src/scenario_engine/orchestrator.py:226-230 | a hook on the start dispatches over replay and start on exactly the start event, with the scenario's name |
| ScenarioLaws.ReplayIsSeen | src/scenario_engine/orchestrator.py:204-224 | a once-hook on a phone's registration dispatches on the replay if and only if the phone is the scenario's and registered |
| ScenarioLaws.WantedOfRun | src/scenario_engine/orchestrator.py:204-274 | what a hook that stays live sees of a run: the replay, the start with the scenario's name, what happens during it, and how it ended |
| ScenarioLaws.HooksSubscribed | src/scenario_engine/orchestrator.py:156-165 | one subscription for each hook that builds, with its types and the hook itself, under ids and keys that go up together |
| ScenarioLaws.StopsSubscribed | src/scenario_engine/orchestrator.py:189-194 | one subscription for each stop condition that names an event, to the text of that event |
| ScenarioLaws.LeftBehindIs | src/scenario_engine/orchestrator.py:171-194 | a run that raises leaves its recorder on every event, its hooks and the stop conditions before the one that raised |

## Left out

- Characters beyond ASCII: digits, word characters, white space and `lower()` are those of ASCII.
- `None` among the names of an allow-list, which the filter ignores.
- PJSUA2, SIP signalling, RTP and the audio bridge: their call-backs are steps, and a connection is an edge; which edges the bridge loses at a media change is a parameter (`Stream.lost`), and it loses none at other times.
- Failing `startTransmit`, player and transport creation, a failing tcpdump and a failing sidecar write; a recorder may fail to be created (`Disk`).
- The hang-ups that the server asks for before it drops a phone: the disconnects come as steps of their own.
- Adding a phone whose transport or account cannot be created, and profiles that do not parse.
- Which of the calls that are told new codecs get a re-INVITE: it depends on the state PJSUA2 reports.
- Call history, RTP ports, message inboxes, call info and listings; credentials and host names of a phone's configuration.
- Threads: each method is one atomic step, also where the source awaits; only `OverlappingEmit` and `FiresTwiceIff` let other threads step in between the call-backs of an emit. Call-backs of calls that are no longer tracked do not occur.
- Phone configurations are values in the registry's table, not shared objects: the aliasing of one `PhoneConfig` between callers is not captured. Of a hook object only `sub_id` changes; it is a cell of `HookObjects` under the hook's id, and the other fields are values.
- The order in which dictionaries of phones are walked (dropping all, draining the auto-answers); the order of the call tables is modelled.
- `phone_id` resolution when it is not given, `CallManager.cleanup`, the legacy single-account interface.
- Reading profiles from YAML: a profile is a list of entries that were parsed.
- Parsing a log message into its metadata and `normalize_sip_uri`: both are parameters of the log filter, as is the upper-casing of its method and direction.
- Floating point values; `re.search`, and the text of a list or a mapping after its bracket, are parameters (`Values.Host`).
- `Scenario.from_dict`, and `Subscription.active`, which is false only for entries that left the table.
- `getattr` on events knows `type`, `phone_id`, `call_id` and `data`.
- HookRuntimes.HookRuntime.ArmSpec: a list `when` with a member that is no string is refused, where the source arms it and then fails in `emit`; no such scenario validates. `match` given as a list of pairs takes string keys only.
- What other subscribers do when they are called back, synchronously: in the repository only hooks change subscriptions then.
- ScenarioRuns.ScenarioRunner.RunScenario: validation is never skipped, the run is not cancelled while it awaits, when it ends is a parameter, and so is the status, which in the source says whether a stop condition was met or the time ran out. Others act on the bus while the run awaits (`during`), not between its own synchronous steps.
- What an action handler does, its arguments beyond the defaults, and durations; the timeline and the artifacts of a run.
- Whether an event type that the validator knows is ever emitted.
