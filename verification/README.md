# Verified models of Ethos

Dafny models of the parts of the Ethos agent runtime in which steps interact:
live configuration reload, the ACP prompt protocol, the webhook rate limiter, the
approval coordinator, the error log, and the self-contained algorithms of the
command line and its scripts. One module per component:

| module | what it models |
|---|---|
| `UnifiedDiff` | the line diff of personality sheets and texts: table, walk back, reversal |
| `CanonicalJson` | the fingerprint configuration entries are compared by |
| `ConfigUnits` | enumerating a configuration's bots and webhook routes, and one-unit slices |
| `ReloadLedger` | the record of what is running, the plan of what is owed, a reconcile pass |
| `BotHosting` | hot-add, swap with rebuild, and retirement of one bot, under every fault pattern |
| `BotWiring` | the teardown registry under interleaved replacements and retirements |
| `ReloadRunner` | one reconcile at a time, none after a stop |
| `AcpPrompts` | two transports contending for sessions; the result sent before the turn ends |
| `WebhookLimiter` | the per-hook and the per-source token bucket |
| `LineWrap` | greedy wrapping of card text |
| `ErrorLog` | numbered backups shifted in place, then an append |
| `StringLiteral` | the printer of single-quoted literals, against a reader of section 12.9.4 of ECMA-262 |
| `Approvals` | pending approvals, timers, cancellation, shutdown, re-entrant listeners |
| `WorkerPool` | the two bounded concurrent maps |
| `WavFrames` | PCM16 bytes and the WAV chunk walk |
| `JsText` | UTF-16 text and hexadecimal digits, shared by the others |

How the models are built. A component whose methods update fields is a class with
those fields; its methods are proved equal to a step function on the abstract state,
and the theorems are proved about every run of those steps. Loops are loops, with the
table, array or sequence the source fills. In the asynchronous components one event is
the stretch of code between two awaits, so an arbitrary sequence of events is an
arbitrary interleaving; every injected effect is a success or failure parameter.

## Results worth knowing

These follow the code where a comment or a plausible expectation says otherwise.

- `CanonicalJson`: the fingerprint is injective up to key order and absent properties
  except that an undefined array element prints as `null`; equal fingerprints are
  characterised exactly (`FingerprintCanonical`, `UndefinedElementCollides`).
- `ConfigUnits`, `ReloadLedger`: with duplicate derived keys enumeration records the last
  entry and a slice takes the first (`DuplicateKeysDisagree`). A unit's record is truthful
  exactly when the version it was last set from has one fingerprint for the two
  (`UnitTruthfulIff`); a reload after which it is not: `DuplicateKeysMislead`. That the next
  plan is exactly the failed units holds for every file.
- `BotHosting`: the comment at `apps/ethos/src/config-reload.ts:795` describes commit as
  the hot-add alone; `apps/ethos/src/commands/boot.ts:2142-2147` also runs the outgoing
  teardown inside it. So the swap returns normally exactly when the replacement is live
  and that teardown did not throw (`SwapOutcome`, `LiveYetThrew`). Four guards on a state
  and a fault pattern say exactly when a poll breaks something: two transports up at once
  (`OverlapIff`, witness `Overlap`), something serving that is not on record (`HonestIff`,
  witness `LiveYetThrew`), something on record that is not served (`FulfilledIff`,
  witnesses `RefusedThenReverted`, `StaleAfterRevert`, `RemovedYetRecorded`), and a runtime
  neither hosted nor let go of (`TidyIff`). A bot whose retirement is refused stays marked
  as retiring and drops what it is sent: putting the old file back then owes no retry,
  and while the file stays so nothing takes the mark off (`RefusedThenReverted`). A
  half-started addition whose retirement is refused keeps the key for good
  (`StrandedAddition`). Two transports at once take a `stop()` that threw
  (`CleanStopsNeverOverlap`).
- `AcpPrompts`: a cancellation takes effect on an unfinished streamed prompt exactly when
  it is running under its own controller (`CancelTakesEffectIff`). One that waits for a
  tail cannot be cancelled, and its cancellation is lost (`WaitingPromptLosesCancellation`).
- `WebhookLimiter`: a bucket regains one token per full minute
  (`apps/ethos/src/webhook-server.ts:249-254`), not the number of requests per minute
  that the field comment at line 75 suggests. A refill drops what is left of a started
  minute (`RefillStartsAnew`). Past 10,000 entries pruning forgets a source
  that is not locked, which then has all its guesses again: the bound on guesses grows by
  the maximum for each such time (`GuessesBounded`), and a flood that exceeds the plain
  bound is given (`FloodWinsAGuess`).
- `Approvals`: unless a listener throws, a cancelled session ends with nothing pending,
  even what listeners request meanwhile, because the live map is iterated; a shutdown
  iterates a snapshot, so what listeners request during it can remain
  (`ShutdownCanLeaveNewRequests`). A listener that throws ends either loop early
  (`ThrowingListenerStopsCancellation`).
- `WorkerPool`: the report is the same under every schedule of two or more workers exactly
  when no two different reports share an id's rank (`ScheduleIrrelevantIff`, over the schedules of `ScheduledIff`).
- `WavFrames`: Node's `ascii` decoder clears the top bit of each byte, so a chunk whose
  name is not `data` can be read as the samples (`OtherNameIsRead`); which chunk is read
  is stated for every file (`ReadSelects`).

## Model

| member | source | states |
|---|---|---|
| UnifiedDiff.FillTable | apps/ethos/src/index.ts:1534-1543 | every cell holds the longest-common-subsequence value of the two prefixes it stands for |
| UnifiedDiff.LcsMonotone | apps/ethos/src/index.ts:1538-1540 | table rows and columns are monotone and grow by at most one |
| UnifiedDiff.LcsBounds | apps/ethos/src/index.ts:1531-1543 | the table value bounds the length of every common subsequence |
| UnifiedDiff.KeptIsCommon | apps/ethos/src/index.ts:1546-1561 | the unchanged lines of any edit script are a common subsequence of both sides, and fix its length |
| UnifiedDiff.Diff | apps/ethos/src/index.ts:1546-1562 | the backwards walk followed by the reversal produces the script in printed order |
| UnifiedDiff.ScriptIsValid | apps/ethos/src/index.ts:1549-1562 | dropping '+' gives the old lines, dropping '-' the new ones, and exactly the optimal number of lines is kept |
| UnifiedDiff.ScriptIsShortest | apps/ethos/src/index.ts:1531-1562 | no edit script between the two files is shorter; the kept lines are a longest common subsequence |
| UnifiedDiff.ScriptDeletesFirst | apps/ethos/src/index.ts:1549-1562 | no '+' line is directly followed by a '-' line |
| UnifiedDiff.CommonEndingKept | apps/ethos/src/index.ts:1549-1562 | lines both texts end in are kept, and the rest of the script is that of the texts without them; so a text is kept whole against itself |
| UnifiedDiff.JoinSplit | apps/ethos/src/index.ts:1528-1529 | joining the split lines with newlines gives the text back |
| UnifiedDiff.DiffTexts | apps/ethos/src/index.ts:1527-1562 | both texts are recovered from the script, nothing shorter would do, deletions come first in every hunk |
| CanonicalJson.FingerprintCanonical | apps/ethos/src/config-reload.ts:187-202 | two values have one fingerprint if and only if they are equal up to key order, absent properties and undefined elements |
| CanonicalJson.FingerprintIgnoresKeyOrder | apps/ethos/src/config-reload.ts:187-202 | listing the properties of objects, at any depth, in another order changes nothing |
| CanonicalJson.UndefinedElementCollides | apps/ethos/src/config-reload.ts:192-202 | the one kind of difference the fingerprint does not see |
| CanonicalJson.SortKeysKeepsMeaning | apps/ethos/src/config-reload.ts:194-199 | the replacer sorts every object at every depth and changes no value |
| CanonicalJson.ValueDecodes | apps/ethos/src/config-reload.ts:192-202 | a printed value is delimited by itself: whatever follows, its text determines its meaning and where it ends |
| CanonicalJson.SameMeaningSameText | apps/ethos/src/config-reload.ts:192-202 | key-sorted values of one meaning print identically |
| CanonicalJson.StringRoundTrip | apps/ethos/src/config-reload.ts:194-200 | reading a printed string body by section 7 of RFC 8259 consumes it exactly and yields the string |
| ConfigUnits.EnumerateBots | apps/ethos/src/config-reload.ts:205-239 | the loops over the five platforms build the map the lookups below are about |
| ConfigUnits.SplitsBack | apps/ethos/src/config-reload.ts:421-424 | an identity splits back into its platform and key |
| ConfigUnits.BotLookup | apps/ethos/src/config-reload.ts:205-239 | an identity is present if and only if its own platform lists it, with that platform's fingerprint |
| ConfigUnits.ListedBot | apps/ethos/src/config-reload.ts:207-215 | a list platform's identity is enumerated if and only if some entry derives its key; the last such entry's fingerprint is recorded |
| ConfigUnits.DiscordListed | apps/ethos/src/config-reload.ts:219-221 | a Discord bot is listed if and only if its token is not empty, under that token's key, and a changed token is seen |
| ConfigUnits.EmailListed | apps/ethos/src/config-reload.ts:222-224 | the email bot is listed if and only if both hosts, user and password are not empty |
| ConfigUnits.EmailFingerprintIff | apps/ethos/src/config-reload.ts:222-237 | two files that list one email bot fingerprint it alike if and only if all seven settings mean the same: a new password or port is seen |
| ConfigUnits.WebhookListed | apps/ethos/src/config-reload.ts:241-246 | every route is listed and no other, and an edit to one is seen exactly when its meaning changed |
| ConfigUnits.ScalarSlice | apps/ethos/src/config-reload.ts:438-448 | Discord and email slices exist if and only if enumerated and enumerate to that one unit unchanged; other platforms have none |
| ConfigUnits.SliceKeepsRest | apps/ethos/src/config-reload.ts:403-449 | a slice keeps what names no unit, the other settings of its own block and all email settings, and drops every other block |
| ConfigUnits.SliceIsOneBot | apps/ethos/src/config-reload.ts:403-449 | for every configuration and identity a slice exists if and only if the identity is enumerated, and it enumerates to that bot alone and to no webhook |
| ConfigUnits.SliceAgrees | apps/ethos/src/config-reload.ts:420-449 | the slice carries the enumerated fingerprint exactly when the first and last entry of the key agree, always when keys are distinct |
| ConfigUnits.DuplicateKeysDisagree | apps/ethos/src/config-reload.ts:427-428 | a file with two bots of one explicit id and different tokens: the slice is the first, the enumeration the second |
| ConfigUnits.WebhookSliceAgrees | apps/ethos/src/config-reload.ts:1032-1039 | a webhook slice exists if and only if the hook does, and describes exactly it |
| ReloadLedger.DiffKeyed | apps/ethos/src/config-reload.ts:248-259 | the two loops, in any order of the keys, compute the plan that the next row describes key by key |
| ReloadLedger.PlanSaysWhich | apps/ethos/src/config-reload.ts:252-257 | a unit is in the added list if and only if only the file has it, in the removed one if only the ledger does, in the changed one if both do in different versions |
| ReloadLedger.EmptyPlanMeansEqual | apps/ethos/src/config-reload.ts:248-263 | nothing is owed if and only if the two maps are equal |
| ReloadLedger.PendingIffBehind | apps/ethos/src/config-reload.ts:610-613 | a retry is owed if and only if the ledger differs from the file's units |
| ReloadLedger.BootOwesNothing | apps/ethos/src/config-reload.ts:531-540 | right after a boot no retry is owed |
| ReloadLedger.MarksOneUnit | apps/ethos/src/config-reload.ts:585-607 | a mark records its unit and slice as the file has them, or neither, and no other unit |
| ReloadLedger.BootTruthfulIff | apps/ethos/src/config-reload.ts:531-551 | after a cold boot a unit has a slice if and only if it is in the ledger, and the slice is exactly that unit at the recorded version if and only if first and last entry of its key agree |
| ReloadLedger.AppliedTruthfulIff | apps/ethos/src/config-reload.ts:585-597 | recording a unit as live makes its record truthful exactly then, and decides about no other unit |
| ReloadLedger.RetiredTruthfulIff | apps/ethos/src/config-reload.ts:600-607 | recording a unit as gone leaves every other record as truthful as it was |
| ReloadLedger.UnitTruthfulIff | apps/ethos/src/config-reload.ts:511-607 | after any marks from any versions of the file a unit can be rebuilt at exactly its recorded version if and only if the version it was last set from enters it unambiguously |
| ReloadLedger.LedgerAlwaysTruthful | apps/ethos/src/config-reload.ts:511-607 | so every unit can, always, when no file has two bots of one platform and key |
| ReloadLedger.DuplicateKeysMislead | apps/ethos/src/config-reload.ts:585-597 | after any boot with distinct keys, reloading such a file leaves a record of one entry from which another would be rebuilt |
| ReloadLedger.NextPlanIsTheFailures | apps/ethos/src/config-reload.ts:248-259 | if the ledger followed the file on all planned units but the failed ones, the next plan is exactly the failed units, in the same three lists |
| ReloadLedger.AppliedState.constructor | apps/ethos/src/config-reload.ts:531-540 | the booted ledger and its slices |
| ReloadLedger.AppliedState.RecordSlice | apps/ethos/src/config-reload.ts:542-551 | one slice recorded or deleted, all others untouched |
| ReloadLedger.AppliedState.MarkApplied | apps/ethos/src/config-reload.ts:585-597 | fingerprint and slice of one unit, updated together |
| ReloadLedger.AppliedState.MarkRetired | apps/ethos/src/config-reload.ts:600-607 | both forgotten together |
| ReloadLedger.AppliedState.ApplyList | apps/ethos/src/commands/boot.ts:2328-2354 | one list in any order: each of its units is tried once, by the operation of that list, and exactly the units that did not fail now follow the file |
| ReloadLedger.AppliedState.TryUnit | apps/ethos/src/commands/boot.ts:2329-2353 | one attempt: its unit follows the file exactly when the operation returned, and it is logged |
| ReloadLedger.AppliedState.ApplyPlan | apps/ethos/src/commands/boot.ts:2327-2355 | the three loops one after another: what was tried, in which order and by which operation, and which units follow the file |
| ReloadLedger.AppliedState.Reconcile | apps/ethos/src/commands/boot.ts:2327-2355 | every unit that differs is tried once, removals first, then changes, then additions; only recorded units are removed or changed and only unrecorded ones added; whatever subset fails, the next plan is that subset |
| ReloadLedger.AppliedState.ReconcileAll | apps/ethos/src/commands/boot.ts:2474-2476 | after a pass over bots and webhooks, for any file, the next plans are exactly the failed units and a retry is owed if and only if there are any |
| BotHosting.HotAddOutcome | apps/ethos/src/config-reload.ts:693-735 | all of it in place, or the key's holder untouched, or exactly what a failing undo could not take back; the runtime is released exactly when the hot-add fails |
| BotHosting.RollBackOutcome | apps/ethos/src/config-reload.ts:713-732 | each undo takes effect whatever the others did, and the runtime is released once |
| BotHosting.TakeOverOutcome | apps/ethos/src/commands/boot.ts:2142-2147 | a swap's commit succeeds if and only if the key was vacant, every step worked and the outgoing teardown did not throw; who holds key, slot and transport in every case |
| BotHosting.TakeOverTearsDown | apps/ethos/src/config-reload.ts:859-867 | a commit runs the displaced handle exactly when its hot-add worked, whose registrations go just when it returns; failed it runs none and leaves its own only when their undo fails |
| BotHosting.SwapOutcome | apps/ethos/src/config-reload.ts:780-832 | returns normally if and only if the replacement is live and the outgoing wiring came down; the replacement is live if and only if the key was vacated and its commit worked, and released exactly if it is not |
| BotHosting.Vacated | apps/ethos/src/config-reload.ts:809-824 | with the retirement done a swap is the exchange on a vacant key, wiring handle and record as they were |
| BotHosting.SwapRebuilds | apps/ethos/src/config-reload.ts:822-828 | the rebuild of the recorded version is live if and only if the replacement was taken back and the second commit worked, and is released exactly if it is not |
| BotHosting.RefusedSwapKeepsOld | apps/ethos/src/config-reload.ts:809-819 | a failed prepare changes nothing; a refused retirement keeps the old bot's routing entry, transport, wiring and handle but admits nothing new |
| BotHosting.AddServes | apps/ethos/src/commands/boot.ts:2056-2059 | an addition returns normally if and only if it prepared, the key was vacant and every step worked, and then the bot is live |
| BotHosting.RetireOutcome | apps/ethos/src/config-reload.ts:891-900 | a removal returns normally if and only if the transport went and its teardown, if any, returned; once it went the handle is taken and run once, the registrations go just when it returns, and nothing is released; refused it only marks the bot as retiring, and after a `stop()` that threw wiring and handle remain |
| BotHosting.PollSafe | apps/ethos/src/commands/boot.ts:2327-2355 | every poll keeps: each prepared runtime has exactly one fate, what holds the key unreleased is wired and its handle held, and what has not come up yet is on record and alone |
| BotHosting.OneFate | apps/ethos/src/config-reload.ts:693-900 | each prepared runtime is hosted, or held by the handle of a bot that is gone, or released once, or torn down once, throwing or not: exactly one of these |
| BotHosting.OldOnesAreTornDown | apps/ethos/src/config-reload.ts:780-900 | a poll never releases what was there before it: a handle held is held on or run, once |
| BotHosting.StrayIff | apps/ethos/src/config-reload.ts:713-732 | what is wired is the bot whose handle is held, and nothing else, after a poll exactly when it was before and no reached undo or teardown fails |
| BotHosting.NothingStaysWired | apps/ethos/src/config-reload.ts:780-900 | so throughout any run, from any cold boot, in which undos and teardowns work |
| BotHosting.TidyIff | apps/ethos/src/commands/boot.ts:1200-1221 | after a poll every runtime is hosted or let go of exactly when a guard on the state and the faults holds |
| BotHosting.HonestIff | apps/ethos/src/commands/boot.ts:2327-2355 | what answers traffic was built from the recorded version after a poll exactly when a guard on the state and the faults holds |
| BotHosting.HonestThroughout | apps/ethos/src/commands/boot.ts:2327-2355 | it does throughout any run, from any cold boot, in which no teardown fails |
| BotHosting.FulfilledIff | apps/ethos/src/commands/boot.ts:2327-2355 | the recorded version answers traffic after a poll exactly when a guard on the state and the faults holds |
| BotHosting.OverlapIff | apps/ethos/src/config-reload.ts:767-774 | a poll brings two transports up at once, at any of its steps, exactly when it starts one while another was left behind |
| BotHosting.RunSoloIff | apps/ethos/src/config-reload.ts:767-774 | over any run from any cold boot, late starts included, never two transports are up exactly when no poll of it does so |
| BotHosting.BootSafe | apps/ethos/src/commands/boot.ts:1391-1399 | a cold boot, its transport started or not, is where runs begin; the record is served exactly if it started |
| BotHosting.RecoverOutcome | apps/ethos/src/commands/gateway.ts:5345-5377 | a late start of a cold-booted transport keeps the record honest and completes it unless the bot is being retired, and never makes two |
| BotHosting.LeakIff | extensions/gateway/src/index.ts:2733-2738 | a transport nothing refers to is up after a poll exactly when one was before or a reached `stop()` threw and left it up |
| BotHosting.CleanStopsNeverOverlap | apps/ethos/src/config-reload.ts:780-832 | so in a run without such a `stop()` two transports are never up |
| BotHosting.Overlap | apps/ethos/src/config-reload.ts:780-832 | a run with two transports up |
| BotHosting.RefusedThenReverted | extensions/gateway/src/index.ts:2675-2703 | a refused retirement and the old file put back: registered, running and on record, no retry owed, and every new message dropped |
| BotHosting.StaleAfterRevert | apps/ethos/src/config-reload.ts:776-832 | both commits fail: nothing runs, the ledger names the old version, its handle is held, and the old file owes no retry |
| BotHosting.LiveYetThrew | apps/ethos/src/commands/boot.ts:2142-2147 | a swap that threw although its replacement is live, leaving the outgoing runtime behind |
| BotHosting.RemovedYetRecorded | apps/ethos/src/config-reload.ts:896-899 | a removal whose teardown threw: nothing runs and the ledger still names it |
| BotHosting.StrandedAddition | apps/ethos/src/config-reload.ts:726-732 | a key held through anything that happens later by an unrecorded instance that answers nothing |
| BotHosting.BotHost.RemoveAdapter | extensions/gateway/src/index.ts:2667-2739 | new inbound is refused from the start; a busy bot is left like that, an idle one is deregistered, the mark taken off, and then stopped |
| BotHosting.BotHost.Undo | apps/ethos/src/config-reload.ts:713-732 | the undos in order, then the release |
| BotHosting.BotHost.HotAdd | apps/ethos/src/config-reload.ts:693-735 | the transaction step by step |
| BotHosting.BotHost.TakeSlot | apps/ethos/src/config-reload.ts:859-867 | the new handle takes the slot before the displaced one runs |
| BotHosting.BotHost.Swap | apps/ethos/src/config-reload.ts:780-832 | the swap step by step |
| BotHosting.BotHost.Add | apps/ethos/src/commands/boot.ts:2056-2059 | the addition step by step |
| BotHosting.BotHost.Retire | apps/ethos/src/config-reload.ts:891-900 | transport first, wiring only once it went |
| BotHosting.BotHost.PollOnce | apps/ethos/src/commands/boot.ts:2327-2355 | the recorded version changes only when the unit's reconcile returned |
| BotHosting.BotHost.RetryStart | apps/ethos/src/commands/gateway.ts:5345-5377 | the background retry of a cold-booted transport, unless its bot was retired |
| BotHosting.BotHost.HappenAll | apps/ethos/src/commands/boot.ts:2327-2355 | a whole run in place is the run the theorems are about |
| BotWiring.StepExactlyOnce | apps/ethos/src/config-reload.ts:838-900 | each event keeps: a handle in the registry has not run, a displaced one ran exactly once |
| BotWiring.TeardownsRunOnce | apps/ethos/src/config-reload.ts:838-900 | so it does in every interleaving, with overlapping and rejected retirements |
| BotWiring.RefusalKeepsWiring | apps/ethos/src/config-reload.ts:883-900 | a rejected transport retirement leaves the registry untouched and runs nothing |
| BotWiring.ReplacementTakesSlot | apps/ethos/src/config-reload.ts:859-867 | a replacement puts the new handle in its slot, starts exactly the displaced one and touches no other bot |
| BotWiring.RetirementRunsHandle | apps/ethos/src/config-reload.ts:891-900 | a retirement under way whose transport went empties its slot and starts exactly that handle |
| BotWiring.WiringRegistry.ReplaceBotWiring | apps/ethos/src/config-reload.ts:859-867 | one replacement, up to its await |
| BotWiring.WiringRegistry.BeginRetireBot | apps/ethos/src/config-reload.ts:896 | a retirement begins by waiting for its transport, the registry untouched |
| BotWiring.WiringRegistry.FinishRetireBot | apps/ethos/src/config-reload.ts:896-899 | the lookup, delete and run as one stretch once the transport has answered |
| ReloadRunner.RunSound | apps/ethos/src/config-reload.ts:1172-1193 | at most one reconcile in flight; a resolved stop means none is running or will start; every stop is accounted for |
| ReloadRunner.StopLatches | apps/ethos/src/config-reload.ts:1188-1191 | wherever a stop falls in a run nothing starts after it, and every stop resolves once the reconcile in flight ends |
| ReloadRunner.StepEffects | apps/ethos/src/config-reload.ts:1179-1191 | what a trigger, an end and a stop do to the flags, the counts and the waiting stops |
| ReloadRunner.TriggersStart | apps/ethos/src/config-reload.ts:1179-1187 | until a stop each trigger that finds the runner idle starts one reconcile, any number of times |
| ReloadRunner.Runner.TriggerReload | apps/ethos/src/config-reload.ts:1179-1187 | starts a reconcile only when idle and not stopped |
| ReloadRunner.Runner.Settle | apps/ethos/src/config-reload.ts:1181-1185 | ending, normally or not, frees the runner and wakes its stops |
| ReloadRunner.Runner.StopReloads | apps/ethos/src/config-reload.ts:1188-1191 | latches, and waits only for a reconcile already active |
| AcpPrompts.StepSafe | apps/acp-server/src/index.ts:722-812 | each stretch between awaits keeps: one run per session, busy exactly while it runs, a tail only for an answered streamed run, the replies exactly those owed |
| AcpPrompts.AlwaysSafe | apps/acp-server/src/index.ts:496-812 | so it holds in every interleaving of both transports |
| AcpPrompts.EverythingEndsAnswered | apps/acp-server/src/index.ts:496-805 | when nothing is left to run every request has had exactly one reply, the right one, and every lock, tail and controller is back |
| AcpPrompts.TailsAreReleased | apps/acp-server/src/index.ts:726-727 | a waiter can go on, or the run it waits for is in its tail and its end, normal or thrown, lets it |
| AcpPrompts.RepliesStand | apps/acp-server/src/index.ts:790-803 | replies are never taken back; a refusal happens only while another run holds the session |
| AcpPrompts.ArrivalRecorded | apps/acp-server/src/index.ts:722-734 | an arriving prompt is recorded with its session, call id and transport; it waits, is refused or runs as the session stands, and just a streamed one that runs is registered for cancellation |
| AcpPrompts.WokenRecorded | apps/acp-server/src/index.ts:726-734 | a woken prompt is refused if and only if its session is busy again, and otherwise runs |
| AcpPrompts.HistoryStep | apps/acp-server/src/index.ts:496-812 | a step adds to the history of a request its own event, end, refusal or cancellation and nothing else |
| AcpPrompts.RequestsAreThePrompts | apps/acp-server/src/index.ts:496-734 | over any run the requests are the prompts that arrived, in order, each under its own session, call id and transport |
| AcpPrompts.HistoryIsTheTurn | apps/acp-server/src/index.ts:496-805 | over any run the history of a request is what its turn yielded and how it ended |
| AcpPrompts.BlockingOutcome | apps/acp-server/src/index.ts:1062-1102 | over any run a blocking prompt is answered when its turn is over, with a failure if and only if it yielded an error or threw |
| AcpPrompts.StreamedOutcome | apps/acp-server/src/index.ts:744-803 | over any run a streamed prompt is answered with the result once its turn comes to an end event, and otherwise when it is over, with a failure if and only if it threw |
| AcpPrompts.BlockingLeavesNoTrace | apps/acp-server/src/index.ts:496-523 | over any run no blocking prompt has a tail or a controller |
| AcpPrompts.ArrivalRefusedOnlyBeforeTheResult | apps/acp-server/src/index.ts:724-731 | an arriving prompt is refused if and only if the session's run has not answered; otherwise it waits for the tail |
| AcpPrompts.CancelAbortsOne | apps/acp-server/src/index.ts:807-811 | a cancellation aborts the streamed run its id is registered for and changes nothing else |
| AcpPrompts.CancelTakesEffectIff | apps/acp-server/src/index.ts:722-811 | a cancellation aborts an unfinished streamed prompt if and only if it is running and its controller is its own |
| AcpPrompts.AlwaysReachedIff | apps/acp-server/src/index.ts:722-811 | throughout a run every unfinished streamed prompt can be cancelled exactly if none ever waits for a tail and no two ever run with one call id |
| AcpPrompts.CancellableIffDistinct | apps/acp-server/src/index.ts:732-811 | those that run can be throughout exactly if no two ever run with one call id |
| AcpPrompts.WaitingPromptLosesCancellation | apps/acp-server/src/index.ts:726-733 | a prompt whose cancellation is accepted and lost while it waits, and which then runs |
| AcpPrompts.ReusedIdLosesCancellation | apps/acp-server/src/index.ts:733-799 | a run that a reused id puts out of reach |
| AcpPrompts.AcpServer.ReceivePrompt | apps/acp-server/src/index.ts:722-734 | from arrival to the first await |
| AcpPrompts.AcpServer.Wake | apps/acp-server/src/index.ts:726-734 | a waiter goes on once the tail it waits for is released |
| AcpPrompts.AcpServer.Begin | apps/acp-server/src/index.ts:728-734 | the busy check and the admission it guards |
| AcpPrompts.AcpServer.HandleEvent | apps/acp-server/src/index.ts:750-781 | one event of a turn: the terminal one answers and opens the tail, later ones change nothing |
| AcpPrompts.AcpServer.FinishRun | apps/acp-server/src/index.ts:782-803 | the end of a turn, exhausted or thrown, on either transport |
| AcpPrompts.AcpServer.HandleCancel | apps/acp-server/src/index.ts:807-811 | the cancel request, always answered `ok` |
| WebhookLimiter.CeilSecondsIsLeast | apps/ethos/src/webhook-server.ts:248-257 | the rounded seconds are the least that cover the wait |
| WebhookLimiter.ConsumeSpendsCredit | apps/ethos/src/webhook-server.ts:249-260 | an admission costs one of the tokens held plus one per full minute to come, whenever that is counted |
| WebhookLimiter.RefusalIsExact | apps/ethos/src/webhook-server.ts:246-258 | Retry-After is the least whole number of seconds reaching the unlock time, and until then the bucket does not change |
| WebhookLimiter.RecoversIff | apps/ethos/src/webhook-server.ts:248-260 | after a lockout a request goes through exactly when a full minute has passed since the last refill |
| WebhookLimiter.TokensAreHonoured | apps/ethos/src/webhook-server.ts:248-260 | as many requests as there are tokens go through however close together, and no more before a refill |
| WebhookLimiter.BurstIsExact | apps/ethos/src/webhook-server.ts:248-260 | at one instant an unlocked bucket admits exactly the tokens it holds and one more per full minute, up to its maximum after a refill |
| WebhookLimiter.FreshAdmitsMaximum | apps/ethos/src/webhook-server.ts:241-260 | a new bucket admits exactly its maximum at once |
| WebhookLimiter.LockoutAsConfigured | apps/ethos/src/webhook-server.ts:255-258 | a bucket that has run out is locked for exactly the configured time, an admission locks nothing |
| WebhookLimiter.RefillStartsAnew | apps/ethos/src/webhook-server.ts:249-254 | a refill drops what is left of a started minute: emptied after it, a bucket admits nobody for a whole minute |
| WebhookLimiter.AdmissionsBounded | apps/ethos/src/webhook-server.ts:549-561 | in any trace a hook admits at most its maximum plus one per full minute |
| WebhookLimiter.HandleDecides | apps/ethos/src/webhook-server.ts:528-561 | on every hook only a right bearer is admitted and only a wrong one is unauthorised; a hook without limits decides by the bearer alone and keeps no state |
| WebhookLimiter.AdmittedIff | apps/ethos/src/webhook-server.ts:518-561 | an authenticated request on a limited hook is admitted if and only if its source is not locked and the hook's bucket is new, or unlocked with a token or a full minute behind it |
| WebhookLimiter.HandleKeeps | apps/ethos/src/webhook-server.ts:518-561 | a request changes no bucket but its own hook's or its own source's; others can only be forgotten, past the size limit and unlocked |
| WebhookLimiter.SpentByItsLimits | apps/ethos/src/webhook-server.ts:528-561 | what is spent is spent from that bucket, by the limits of that hook |
| WebhookLimiter.GuessEvaluatedIff | apps/ethos/src/webhook-server.ts:518-546 | a wrong bearer is evaluated if and only if its source is not locked and holds a token or is unknown or just forgotten |
| WebhookLimiter.GuessStep | apps/ethos/src/webhook-server.ts:528-543 | one request costs a source's evaluated guess out of its credit, and at most refunds the maximum by forgetting it |
| WebhookLimiter.GuessesBounded | apps/ethos/src/webhook-server.ts:528-543 | in any trace a source's evaluated guesses are at most its bucket's credit and the maximum for each time it is forgotten |
| WebhookLimiter.FloodWinsAGuess | apps/ethos/src/webhook-server.ts:263-274 | a trace from an empty table in which pruning gives a source one guess more than its credit |
| WebhookLimiter.GuessingIsInvisible | apps/ethos/src/webhook-server.ts:497-561 | erasing all failing requests changes no decision on authenticated ones from other addresses |
| WebhookLimiter.LockedStaysRefused | apps/ethos/src/webhook-server.ts:518-543 | a locked source is refused until its unlock time whatever else happens, pruning included |
| WebhookLimiter.BucketTable.ConsumeRateLimitToken | apps/ethos/src/webhook-server.ts:234-261 | one bucket's new state and the answer, all other buckets untouched |
| WebhookLimiter.WebhookServer.PrunePreAuthBuckets | apps/ethos/src/webhook-server.ts:269-274 | deleting during the loop, in any order, drops exactly the entries that are not locked |
| WebhookLimiter.WebhookServer.Admission | apps/ethos/src/webhook-server.ts:511-561 | the decision on one request and the state of both tables after it |
| LineWrap.WordsProper | docs/scripts/generate-cards.ts:143 | a text that is not blank is cut into non-empty words without white space |
| LineWrap.WordsKeepLetters | docs/scripts/generate-cards.ts:143 | nothing but white space is lost, and order is kept |
| LineWrap.JoinedSplitsBack | docs/scripts/generate-cards.ts:143-147 | cutting a printed line gives its words back |
| LineWrap.GreedyValid | docs/scripts/generate-cards.ts:146-154 | every word once and in order, every line within the limit or a single word |
| LineWrap.GreedyStaysAhead | docs/scripts/generate-cards.ts:146-154 | the exchange argument: no other layout is ahead after any line |
| LineWrap.LayoutValid | docs/scripts/generate-cards.ts:142-157 | the layout of a whole text is valid |
| LineWrap.LayoutOptimal | docs/scripts/generate-cards.ts:142-157 | no layout obeying the rule uses fewer lines |
| LineWrap.WrapWords | docs/scripts/generate-cards.ts:144-156 | the loop prints that layout, lines joined by single spaces |
| LineWrap.WrapText | docs/scripts/generate-cards.ts:142-157 | the printed lines are the words in order, within the limit or single words, and as few as possible |
| ErrorLog.MergedRotates | apps/ethos/src/error-log.ts:69-76 | settings that went through the setter rotate if and only if enabled |
| ErrorLog.MergedKeeps | apps/ethos/src/error-log.ts:69-76 | a meaningful setting is kept, a missing or meaningless one is 10 MiB and five files |
| ErrorLog.RotationKeeps | apps/ethos/src/error-log.ts:115-146 | a rotation keeps the newest files in order and drops at most the oldest |
| ErrorLog.RotationPlaces | apps/ethos/src/error-log.ts:115-146 | on any directory a rotation happens if and only if the live file reached the limit; then each backup below the number of files moves up one place, the live file becomes the first, and those beyond stay |
| ErrorLog.SizesAdd | apps/ethos/src/error-log.ts:117-123 | the size that is compared with the limit is that of all lines together |
| ErrorLog.HistoryKept | apps/ethos/src/error-log.ts:115-170 | backups are numbered without gaps, each at least the limit, and together with the live file are the end of the history |
| ErrorLog.HistorySized | apps/ethos/src/error-log.ts:119-123 | every file is below the limit but for its last line |
| ErrorLog.RetentionTheorem | apps/ethos/src/error-log.ts:115-170 | after any appends: a suffix of the history in order, at most `maxFiles` backups, and once anything is dropped at least `maxFiles * maxBytes` bytes remain |
| ErrorLog.LogDirectory.RotateIfNeeded | apps/ethos/src/error-log.ts:115-146 | for any directory, gaps included, the descending renames move every backup up one place and never overwrite a file |
| ErrorLog.LogDirectory.Append | apps/ethos/src/error-log.ts:158-170 | rotate, then append one line |
| ErrorLog.LogDirectory.AppendAll | apps/ethos/src/error-log.ts:158-170 | a whole history of appends, still without an overwriting rename |
| StringLiteral.EscapeAll | scripts/catalog-import-hermes.ts:585-594 | the loop builds the escaped body |
| StringLiteral.Quote | scripts/catalog-import-hermes.ts:584-596 | the printed literal reads back as exactly the string and contains no control character or line separator |
| StringLiteral.BodyRoundTrip | scripts/catalog-import-hermes.ts:586-594 | reading an escaped body before any text yields the string and then reads that text |
| StringLiteral.LiteralRoundTrip | scripts/catalog-import-hermes.ts:584-596 | whatever follows, the reader takes exactly the literal and yields exactly the string |
| StringLiteral.LiteralSound | scripts/catalog-import-hermes.ts:579-596 | both of these for every code-point sequence |
| StringLiteral.PlainStays | scripts/catalog-import-hermes.ts:588-594 | characters that need no escape are copied as they are |
| StringLiteral.EscapeLengths | scripts/catalog-import-hermes.ts:588-594 | quote, backslash, line feed and carriage return take two characters, other control characters and line separators six, all else one |
| Approvals.ExecSafe | apps/ethos/src/approval-coordinator.ts:144-246 | every operation, with whatever its listeners call back, keeps: pending or resolved never both, timers only for pending entries with a deadline, resolved once, by the bound requester or the system, in time |
| Approvals.RunsAreSafe | apps/ethos/src/approval-coordinator.ts:144-246 | so it holds over any run, throwing listeners included, and issued = pending + resolved |
| Approvals.DecisionsStand | apps/ethos/src/approval-coordinator.ts:222-246 | what is decided stays decided |
| Approvals.ClickDecidesIff | apps/ethos/src/approval-coordinator.ts:184-246 | a click decides if and only if the approval is pending and the clicker entitled; otherwise nothing changes |
| Approvals.RequestRecords | apps/ethos/src/approval-coordinator.ts:144-181 | a request is recorded with its session, its requester and a deadline of exactly the delay asked for, clamped, or none |
| Approvals.RequestWaits | apps/ethos/src/approval-coordinator.ts:144-181 | with silent listeners it is then pending, timed if and only if it asked to be, and nothing else changed |
| Approvals.StrangerNeverDecides | apps/ethos/src/approval-coordinator.ts:234-240 | whatever happens after a request bound to a user, no click by anyone else ever has an effect, and only that user or the system decides it |
| Approvals.TimePasses | apps/ethos/src/approval-coordinator.ts:166-175 | time passes as asked unless a timer comes due first, and then stops for it |
| Approvals.VerdictsOnly | apps/ethos/src/approval-coordinator.ts:156-246 | an operation and its listeners decide nothing but by the clicks made, or as the system by denials for exactly the reasons given |
| Approvals.ListenersRun | apps/ethos/src/approval-coordinator.ts:144-246 | what listeners do is what the same calls do one after another, up to the first exception |
| Approvals.ListenersAreHeard | apps/ethos/src/approval-coordinator.ts:144-246 | listeners run after the request, the accepted click or the due timer took effect, and what they throw is not the caller's |
| Approvals.QuietCancellation | apps/ethos/src/approval-coordinator.ts:201-206 | with listeners that do not call back, exactly the session's approvals are denied, in order, by the system |
| Approvals.CancellationUnfolds | apps/ethos/src/approval-coordinator.ts:201-206 | a cancellation is the system's denial of the oldest pending approval, its listeners, and, unless they threw, the cancellation of what is left |
| Approvals.CancellationClearsSession | apps/ethos/src/approval-coordinator.ts:201-206 | unless a listener's exception ends it nothing of the session remains pending, whatever listeners do; calm listeners never end it |
| Approvals.ThrowingListenerStopsCancellation | apps/ethos/src/approval-coordinator.ts:201-206 | an exception leaves an approval of the session pending |
| Approvals.ShutdownClearsSnapshot | apps/ethos/src/approval-coordinator.ts:215-220 | unless a listener's exception ends it none of the approvals pending at the call remain; only newer ones can |
| Approvals.ShutdownCanLeaveNewRequests | apps/ethos/src/approval-coordinator.ts:215-220 | a run in which a newer one does remain |
| Approvals.DeadlineEnforced | apps/ethos/src/approval-coordinator.ts:156-175 | a timed approval is never pending past its clamped deadline, and then its timer denies it |
| Approvals.ApprovalCoordinator.RequestApproval | apps/ethos/src/approval-coordinator.ts:144-182 | a new pending entry with its clamped timer, announced last |
| Approvals.ApprovalCoordinator.Settle | apps/ethos/src/approval-coordinator.ts:234-246 | the single resolution path, its listeners last |
| Approvals.ApprovalCoordinator.Timeout | apps/ethos/src/approval-coordinator.ts:166-175 | a due timer denies as the system |
| Approvals.ApprovalCoordinator.CancelForSession | apps/ethos/src/approval-coordinator.ts:201-206 | iteration over the live map |
| Approvals.ApprovalCoordinator.ForceSettleAll | apps/ethos/src/approval-coordinator.ts:215-220 | iteration over a snapshot |
| WorkerPool.ReturnedWorks | scripts/catalog-import-hermes.ts:158-163 | whichever call returns next, the pool keeps its workers full, its slots right and its limit |
| WorkerPool.PoolEnds | scripts/catalog-import-hermes.ts:164-165 | at the end it has failed if and only if some call rejects, and otherwise holds every result in order |
| WorkerPool.Pool | scripts/catalog-import-hermes.ts:151-166 | in every schedule: each index called once and in order, exactly as many in flight as the limit and the items allow at the peak, the map in input order if and only if nothing rejects |
| WorkerPool.CollectReports | scripts/check-catalog.ts:718-726 | rejects if and only if some check does; otherwise the reports are those of the entries in an order the workers can produce; four in flight at the peak |
| WorkerPool.RunChecks | scripts/check-catalog.ts:712-728 | unless a check rejects, every report once, sorted, and the one sorted list of all when equal ranks mean equal reports |
| WorkerPool.SortStable | scripts/check-catalog.ts:727 | reports of one rank keep the order they came in |
| WorkerPool.SortedUnique | scripts/check-catalog.ts:727 | when equal ranks mean equal reports there is only one sorted arrangement |
| WorkerPool.OrderIrrelevant | scripts/check-catalog.ts:716-727 | then every order of arrival sorts to the same list |
| WorkerPool.TieShows | scripts/check-catalog.ts:727 | otherwise delaying one of two tied reports changes the result |
| WorkerPool.ScheduledIff | scripts/check-catalog.ts:720-726 | the full orders of return that some sequence of returns of in-flight checks produces are exactly those in which each check had begun |
| WorkerPool.ScheduleIrrelevantIff | scripts/check-catalog.ts:712-728 | the result is the same under every such schedule exactly when no two different reports share a rank |
| WavFrames.Pcm16Bytes | scripts/voice-latency-bench.ts:302-310 | the byte array decodes, sample by sample, to the input |
| WavFrames.Pcm16At | scripts/voice-latency-bench.ts:302-310 | little-endian two's complement at each sample's place |
| WavFrames.FramesCover | scripts/voice-latency-bench.ts:633-637 | frames concatenate to the samples, all of full length but a non-empty last |
| WavFrames.CutFrames | scripts/voice-latency-bench.ts:634-638 | the loop cuts those frames |
| WavFrames.TwentyMilliseconds | scripts/voice-latency-bench.ts:633 | a frame is twenty milliseconds of samples, rounded to the nearest, half up, and never empty |
| WavFrames.StopsThereIff | scripts/voice-latency-bench.ts:627-641 | the walk stops at a chunk if and only if its name decodes to `data`, whatever it contains |
| WavFrames.WalkSelects | scripts/voice-latency-bench.ts:625-641 | of a list of chunks, odd sizes padded, the first such one is read |
| WavFrames.HighBitsAreIgnored | scripts/voice-latency-bench.ts:618-628 | other bytes that decode to `data` and to `RIFF` |
| WavFrames.OtherNameIsRead | scripts/voice-latency-bench.ts:628-639 | a chunk under such a name is read in the place of the samples |
| WavFrames.ReadSelects | scripts/voice-latency-bench.ts:616-643 | reading any well-formed file gives the first chunk whose name decodes to `data`, or else the samples |
| WavFrames.RefusedIff | scripts/voice-latency-bench.ts:616-643 | which file is refused, and with which error: too short or not RIFF, not sixteen bits, no data chunk, or samples past the end |
| WavFrames.ReadWavFrames | scripts/voice-latency-bench.ts:616-643 | the header checks, the walk and every error, on any bytes |
| WavFrames.WavRoundTrip | scripts/voice-latency-bench.ts:616-643 | a well-formed file, with any chunks before the data whose names do not decode to `data`, reads back as its samples in frames of the rounded length |

## Left out

Not modelled, by component:

- Diff: ANSI colours and file labels.
- Fingerprint: a finite number is identified with its shortest decimal text; NaN, infinities, -0, `toJSON` and prototype-named keys are excluded.
- Configuration: the bot-key derivations are arbitrary functions; only bots and webhook routes are covered, not the channel filter, the web bind, unsupported keys or the modification-time gate. A slice's `kind:id` name is a pair. Plans are sets: the order of units within one list is arbitrary.
- Hosting: mounting native webhook routes, the sweep after a swap, a registration or wiring that fails half-way, one bot key being shared by two identities, the drain itself (busy or idle is a parameter), and a background retry whose start is in flight while its bot is being retired.
- ACP: the text of answers, credential refusals, `notify`, `spawn`, mesh and MCP views, a connection that closes, and a send that throws. An aborted turn is a turn with any further events.
- Limiter: HTTP, headers, the bearer comparison (a flag), fractional or changing limits, audit records. The clock does not go back.
- Error log: file operations that fail other than on a missing file, the mirror to observability, and changing the settings between appends.
- Approvals: random identities are consecutive numbers; timers fire promptly, so time does not run past one that is due; audit records and the promise side of a decision; an exception out of a timer's listener ends nothing but that timer.
- Pools: a call is a function of its item, `None` standing for a rejected promise; an id is the integer rank its collation gives it, so ids that collate alike have one rank.
- WAV: as in the code, sample rate and bit depth are read at fixed offsets, so a well-formed file has its format chunk first; reading the file itself.
- The gateway, the agent loop, command dispatch, storage, voice, and the rest of the repository.
