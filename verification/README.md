# Verified models of a desktop shell's helpers

The shell's native helpers keep small pieces of state that several parties change at once:
notifications and their history, settings files that a crash must not lose, requests that
an asynchronous service confirms later, and bounded scans and streams. These modules model
that state and prove what holds of it for every input, every run and every interleaving.

Each part has a specification, functions on plain values that follow the program branch by
branch; lemmas about the specification, over single steps and whole runs; and, where the
program changes fields in place, a class or a loop proved to compute exactly what the
specification says. What each operation makes of its input is also said a second time, in
plain terms and without the functions of the specification: `notification_ranking.dfy`,
`notification_telling.dfy`, `notification_exact.dfy`, `settings_flushes.dfy`,
`audio_reports.dfy`, `brightness_exact.dfy`, `bluetooth_exact.dfy`,
`bluetooth_refreshed.dfy`, `scan_limits.dfy` and `snapshot_entries.dfy`.

| part | files | program |
|---|---|---|
| Notifications | `notification_*.dfy` | live notifications, history, capacity, replacement, expiry and reload; text cleaning |
| Settings | `settings_*.dfy` | staged writes, backups and bundles in a directory whose every system call may fail or be the last |
| Audio | `audio_*.dfy`, `volume.dfy` | volume and mute requests against a sound server; channel scaling |
| Brightness | `brightness_*.dfy` | display brightness requests confirmed by signals and snapshots |
| Bluetooth | `bluetooth_*.dfy` | the operation, discovery and pairing machine; the bounded device list |
| Wallpapers | `scan_*.dfy` | the sliced directory scan |
| Workspaces | `framing.dfy`, `snapshot*.dfy` | command framing; canonical desktop snapshots |

What the environment does is a parameter everywhere: clock readings, whether a foreign
object closes itself when told to expire, the result of each system call, the answers of
services, the file tree. Runs are sequences of events with arbitrary such parameters; where
a theorem needs something of them, predicates such as `Permitted` and `Right` say what.

Some properties one might expect are false of the code. Each has a lemma with a concrete case
and one that says exactly when it holds:

- a replacement posted before a reload that runs during it can leave an orphaned record
  (`QueuedDuringReconciliationLeavesOrphan`, `ReconcileExactly`);
- a failed settings bundle can leave other files than it found: a file it could not read is
  lost, and a settings write that fails after taking effect is not rolled back
  (`RollbackLosesOversized`, `FailedFlushLeavesSettings`, `FailedUnlinkLeavesSettings`,
  `FailedBundleExactly`);
- a refusal of the sound server can strand a queued write, which a newer one then overtakes
  (`StrandedRequest`, `OlderSentLast`, `StepLatest`);
- Bluetooth tokens can repeat once their counter wraps (`WrappedRepeats`, `DistinctExactly`);
- cleaning a plain line twice can change it again (`PlainTwiceDiffers`,
  `PlainIdempotentExactlyOn`).

Check everything with `dafny verify dfyconfig.toml`.

## Model

| member | source | states |
|---|---|---|
| NotificationSafety.StepKeeps | src/notifications/runtime.cpp:175-350 | every entry point keeps the two-way links between live notifications and history, the key order and both bounds, whatever a foreign object does when told to expire or dismiss |
| NotificationSafety.RunKeeps | src/notifications/runtime.cpp:175-350 | the same over every sequence of calls in which no queued replacement records anything while a generation is reconciled |
| NotificationSafety.QueuedSettlesExactly | src/notifications/runtime.cpp:957-978 | a queued replacement run while a generation is reconciled leaves nothing recorded or linked exactly when it does not turn a transient notification into a lasting one while keys last |
| NotificationOrphans.StepRight | src/notifications/runtime.cpp:175-350 | every call keeps the correspondence, also while queued replacements record things in the middle of a reload, as long as a reload that ends leaves no old record still marked live |
| NotificationRuns.StepSound | src/notifications/runtime.cpp:175-350 | every step of every run, without any condition, keeps both bounds, distinct sequences and record keys, ordered history, and while a generation is reconciled the whole correspondence |
| NotificationRuns.EveryRunIsBounded | src/notifications/runtime.cpp:608-693 | in every state of every run at most 50 notifications are live, at most 50 are recorded, and no two hold one record |
| NotificationRuns.EveryReconciliationIsOneToOne | src/notifications/runtime.cpp:175-195 | while a generation is reconciled live history entries and linked associations correspond one to one, however earlier reloads ended |
| NotificationOrphans.ReachableIsOneToOne | src/notifications/runtime.cpp:562-741 | in every state of a run whose last reload to end, unless another has begun since, left no old record still marked live, live history entries and linked associations correspond one to one, transient associations hold no link, keys strictly decrease from the front, and neither collection exceeds 50 |
| NotificationOrphans.PermittedIsRight | src/notifications/runtime.cpp:957-978 | that is so in every run in which no queued replacement records anything while a generation is reconciled |
| NotificationSafety.InvIsOneToOne | src/notifications/runtime.cpp:562-741 | the inductive invariant implies that correspondence and both bounds |
| NotificationSafety.CloseKeeps | src/notifications/runtime.cpp:225-250 | closing, also when re-entered from expire or dismiss, releases the record of exactly that notification |
| NotificationSafety.AdmitFreshKeeps | src/notifications/runtime.cpp:608-693 | admission keeps the correspondence although the newcomer has a record before it has an association |
| NotificationSafety.ReplaceKeeps | src/notifications/runtime.cpp:695-741 | replacing in place keeps it in all four changes between transient and lasting |
| NotificationSafety.FinishGenerationKeeps | src/notifications/runtime.cpp:252-309 | finishing a generation keeps it |
| NotificationSafety.DismissKeeps | src/notifications/runtime.cpp:311-343 | dismissal keeps it whether or not the object closes itself meanwhile |
| NotificationSafety.ProcessDueKeeps | src/notifications/runtime.cpp:980-1017 | expiring everything due keeps it |
| NotificationModel.VictimUnique | src/notifications/runtime.cpp:645-662 | two least contenders are the same: the choice does not depend on hash order |
| NotificationModel.VictimExists | src/notifications/runtime.cpp:645-662 | there always is a least contender |
| NotificationCapacity.EvictsTheWeakest | src/notifications/runtime.cpp:608-693 | at capacity what is expired ranks below all other live ones and the newcomer, in the order NotificationRanking.WeakerIs says in plain terms, and the map never exceeds 50 even when expire is refused; the links may be wrong |
| NotificationCapacity.EveryRunEvictsTheWeakest | src/notifications/runtime.cpp:608-693 | the same in every state of every run |
| NotificationCapacity.NewcomerLosesOnlyToAll | src/notifications/runtime.cpp:608-693 | the newcomer itself is turned away exactly when its class is below every other |
| NotificationCapacity.DisplacedRecordLosesRank | src/notifications/runtime.cpp:911-924 | recording the newcomer can only drop a contender to the class of those without a record |
| NotificationCapacity.TurnedAwayIsRemembered | src/notifications/runtime.cpp:664-684 | a newcomer turned away stays in history, no longer live |
| NotificationCapacity.OthersSurvive | src/notifications/runtime.cpp:225-250 | closing a provisional newcomer touches no record but its own |
| NotificationPresentation.RunCarries | src/notifications/runtime.cpp:743-778 | over any run an association that survives keeps its payload or moves to a later revision |
| NotificationPresentation.SourceTokenInjective | src/notifications/runtime.cpp:743-746 | different admission sequences give different source tokens |
| NotificationPresentation.ResolvesToOne | src/notifications/runtime.cpp:406-428 | a token, generation and revision resolve to at most one notification |
| NotificationPresentation.PayloadNeverChanges | src/notifications/runtime.cpp:406-428 | whenever the same triple resolves again it is the same notification with the same payload |
| NotificationPresentation.NeverResolvesAgain | src/notifications/runtime.cpp:743-778 | once a triple no longer resolves it never does again, also when revisions or sequences are exhausted |
| NotificationPresentation.ResolvesThroughout | src/notifications/runtime.cpp:748-778 | a triple that resolves before and after a run resolved all the time, to the same payload |
| NotificationSchedule.RunExact | src/notifications/runtime.cpp:882-909 | after every public operation the timer is the one the live deadlines and history cutoffs call for |
| NotificationSchedule.TimerCoversEverything | src/notifications/runtime.cpp:882-909 | the timer runs exactly when something can fall due, and fires no later than the earliest of it, or now |
| NotificationSchedule.ReachableTimerCovers | src/notifications/runtime.cpp:882-909 | in every state reached by any run at all the timer runs exactly when something can fall due, never later than that |
| NotificationSchedule.DueAreEnded | src/notifications/runtime.cpp:980-1017 | after processing nothing due remains exactly when every due notification ends when told to expire |
| NotificationSchedule.TimerAdvances | src/notifications/runtime.cpp:882-909 | the next timer then lies in the future exactly under the same condition |
| NotificationSchedule.PruneLeavesNothingStale | src/notifications/runtime.cpp:788-802 | pruning leaves no record whose time is up |
| NotificationAgeing.ReachableAgesFromTheBack | src/notifications/runtime.cpp:788-802 | with a monotone clock the records pruned by age are a tail of history |
| NotificationAgeing.AgeRemovesATail | src/notifications/runtime.cpp:788-802 | with cutoffs in order, pruning by age keeps a prefix |
| NotificationReload.ReloadKeepsSurvivors | src/notifications/runtime.cpp:252-309 | a reload keeps exactly the associations whose own object was the first carried one buffered for its id, each with its sequence, deadline, token, revision and payload, whatever was recorded or linked meanwhile |
| NotificationReload.EveryReloadKeepsSurvivors | src/notifications/runtime.cpp:252-309 | so does every reload of every run whatsoever |
| NotificationRecognition.ReloadAccount | src/notifications/runtime.cpp:577-606 | its history is exactly one new record for each of the lasting survivors with the smallest ids, as many as there are keys left, the highest id first, in front of the old records it does not prune; each link is the new record, or what is left of the old one for transient survivors |
| NotificationRecognition.ReloadKeepsExactlySurvivors | src/notifications/runtime.cpp:252-309 | with nothing recorded beforehand history is those new records only, one to one with the associations |
| NotificationOrphans.ReconcileExactly | src/notifications/runtime.cpp:252-309 | whatever was recorded and linked while the generation was reconciled, with any number of stale or surplus records: when reconciling ends, before newcomers are admitted, live records and links are one to one exactly when no record still marked live is among the old ones it does not prune |
| NotificationOrphans.EveryReloadExactly | src/notifications/runtime.cpp:252-309 | that holds of every reload of every run |
| NotificationOrphans.EveryReloadAccount | src/notifications/runtime.cpp:577-606 | and so does the account of history and links |
| NotificationOrphans.QueuedDuringReconciliationLeavesOrphan | src/notifications/runtime.cpp:957-978 | a concrete run of callbacks the event loop really delivers: a transient notification is updated, a reload begins, the replacement posted before runs, the reload ends, and a live record is left that nobody holds |
| NotificationCallbacks.StepBacked | src/notifications/runtime.cpp:957-978 | every call marks an association only together with posting its replacement, and a replacement that runs clears the mark it belongs to |
| NotificationCallbacks.ReachableBacked | src/notifications/runtime.cpp:211-223 | in every run in which only posted replacements run, each once, a marked association has its replacement on the way: an accepted update is never forgotten |
| NotificationRuntimes.NotificationRuntime.constructor | src/notifications/runtime.cpp:102-131 | nothing live, nothing recorded, no timer |
| NotificationRuntimes.NotificationRuntime.SnapshotIndex | src/notifications/runtime.cpp:534-542 | the position of a record key, or that it is absent |
| NotificationRuntimes.NotificationRuntime.RemoveSnapshot | src/notifications/runtime.cpp:804-812 | drops exactly the record with that key |
| NotificationRuntimes.NotificationRuntime.MarkSnapshotExpired | src/notifications/runtime.cpp:814-820 | only that record stops being live |
| NotificationRuntimes.NotificationRuntime.ClearRecordLink | src/notifications/runtime.cpp:822-830 | unlinks exactly the holders of that key |
| NotificationRuntimes.NotificationRuntime.PruneHistory | src/notifications/runtime.cpp:788-802 | drops stale records, then the oldest beyond 50, and their links |
| NotificationRuntimes.NotificationRuntime.AllocateHistorySequence | src/notifications/runtime.cpp:488-504 | hands out keys in order, the last one once, and never wraps |
| NotificationRuntimes.NotificationRuntime.AllocateLiveSequence | src/notifications/runtime.cpp:506-522 | the same for admission sequences |
| NotificationRuntimes.NotificationRuntime.AdmitHistoryRecord | src/notifications/runtime.cpp:562-575 | a record at the front with a new key, or none when keys are exhausted |
| NotificationRuntimes.NotificationRuntime.ArmScheduler | src/notifications/runtime.cpp:882-909 | one timer for the earliest of all deadlines and cutoffs |
| NotificationRuntimes.NotificationRuntime.EraseAssociation | src/notifications/runtime.cpp:947-955 | forgets exactly that association |
| NotificationRuntimes.NotificationRuntime.CloseNotification | src/notifications/runtime.cpp:225-250 | the association of the object ends and its record is removed or marked by reason |
| NotificationRuntimes.NotificationRuntime.ExpireNotification | src/notifications/runtime.cpp:941-945 | an object that is there is told, and refuses, stays, or closes itself first |
| NotificationRuntimes.NotificationRuntime.CapacityClassOf | src/notifications/runtime.cpp:911-939 | 0 for a contender that is transient or has no record in history, and 1, 2 or 3 for a low, normal or critical one |
| NotificationRuntimes.NotificationRuntime.ChooseVictim | src/notifications/runtime.cpp:645-662 | the least contender by class and sequence |
| NotificationRuntimes.NotificationRuntime.TurnNewcomerAway | src/notifications/runtime.cpp:664-684 | the newcomer is told to expire and its record no longer live |
| NotificationRuntimes.NotificationRuntime.DispatchPresentation | src/notifications/runtime.cpp:748-766 | a new token or revision with this payload, or none when revisions are exhausted |
| NotificationRuntimes.NotificationRuntime.InstallNewcomer | src/notifications/runtime.cpp:687-692 | the newcomer is tracked under its id with its sequence and deadline |
| NotificationRuntimes.NotificationRuntime.ContendForPlace | src/notifications/runtime.cpp:645-693 | the weakest of all is told to expire before the newcomer is installed, or told so itself |
| NotificationRuntimes.NotificationRuntime.AdmitFreshNotification | src/notifications/runtime.cpp:608-693 | a new notification is recorded, contends for a place when full and is scheduled |
| NotificationRuntimes.NotificationRuntime.QueueReplacement | src/notifications/runtime.cpp:957-978 | the association is marked and its replacement posted, unless it is marked already |
| NotificationRuntimes.NotificationRuntime.ProcessReplacement | src/notifications/runtime.cpp:695-741 | the association takes the new content, its record is created, rewritten or removed to match |
| NotificationRuntimes.NotificationRuntime.RunQueuedReplacement | src/notifications/runtime.cpp:957-978 | a queued replacement runs only for the same tracked object |
| NotificationRuntimes.NotificationRuntime.UpdateNotification | src/notifications/runtime.cpp:211-223 | outside reconciliation an update of a tracked object posts one replacement |
| NotificationRuntimes.NotificationRuntime.BeginReconciliation | src/notifications/runtime.cpp:175-195 | history is cleared, associations are unlinked and unseen, the generation grows |
| NotificationRuntimes.NotificationRuntime.AttachNotification | src/notifications/runtime.cpp:197-209 | an object is buffered while its generation is reconciled, admitted otherwise, ignored when stale |
| NotificationRuntimes.NotificationRuntime.AdmitCarried | src/notifications/runtime.cpp:577-606 | carried objects are recognised in descending id |
| NotificationRuntimes.NotificationRuntime.FinishReconciliation | src/notifications/runtime.cpp:252-309 | carried survivors first, then the unseen go, then newcomers in order of arrival |
| NotificationRuntimes.NotificationRuntime.DismissRecord | src/notifications/runtime.cpp:311-343 | the notification of a record is dismissed, or refused, and a closed record is dropped only once |
| NotificationRuntimes.NotificationRuntime.ClearAllHistory | src/notifications/runtime.cpp:344-358 | history is emptied and every link cut |
| NotificationRuntimes.NotificationRuntime.ClearLiveState | src/notifications/runtime.cpp:832-853 | losing the server forgets every association and its records |
| NotificationRuntimes.NotificationRuntime.ResolveTransient | src/notifications/runtime.cpp:406-428 | the payload of the one association the triple names, or nothing |
| NotificationRuntimes.NotificationRuntime.ProcessDueDeadlines | src/notifications/runtime.cpp:980-1017 | everything due is ended as its object answers, then history is pruned and the timer armed |
| NotificationText.BoundedNormalized | src/notifications/notification_text.cpp:40-77 | the loop returns the encoding of the longest prefix of cleaned code points that fits |
| NotificationText.CleanAt | src/notifications/notification_text.cpp:46-64 | reads one code point, pairing surrogates, folding CR and CRLF, replacing what is malformed or a control |
| NotificationText.StripTagSpans | src/notifications/notification_text.cpp:79-100 | the loop drops every span from an opening to a closing bracket within the bound on markup |
| NotificationText.FitIsLongest | src/notifications/notification_text.cpp:66-73 | no longer prefix of the cleaned code points fits the bound in UTF-8 (section 3 of RFC 3629) |
| NotificationText.SmallerBoundIsPrefix | src/notifications/notification_text.cpp:40-77 | a smaller bound gives a prefix of the result of a larger one |
| NotificationText.NormalizedIsClean | src/notifications/notification_text.cpp:40-77 | the result decodes as well-formed UTF-16 (section 2 of RFC 2781) within the bound, without controls but LF, and TAB in a body |
| NotificationText.DecodeEncode | src/notifications/notification_text.cpp:15-24 | decoding what was encoded gives the same code points |
| NotificationText.BodyIdempotent | src/notifications/notification_text.cpp:153-156 | cleaning a body twice is cleaning it once |
| NotificationText.PlainIdempotentExactly | src/notifications/notification_text.cpp:148-151 | cleaning a plain line twice is cleaning it once exactly when the first result has no line feed |
| NotificationText.PlainIdempotentExactlyOn | src/notifications/notification_text.cpp:57-64 | equivalently, when there is no carriage return in the part of the input that is read |
| NotificationText.PlainTwiceDiffers | src/notifications/notification_text.cpp:57-64 | concretely, a lone carriage return is changed again the second time |
| NotificationText.PlainIdempotentOnInput | src/notifications/notification_text.cpp:57-64 | which holds for all input without carriage returns |
| NotificationText.StrippedHasNoOpening | src/notifications/notification_text.cpp:79-100 | no opening bracket is left |
| NotificationText.StrippedSpan | src/notifications/notification_text.cpp:79-100 | a whole span disappears and what surrounds it stays |
| SettingsSteps.ReadFileExact | src/settings/main.cpp:108-133 | a read changes nothing and returns the whole file within its bound or nothing, under any short reads |
| SettingsSteps.WriteAtomicExact | src/settings/main.cpp:148-193 | at every system call of a write the named files are as before, or the target alone has become the complete content; success means it has; without replacement an existing target never changes |
| SettingsSafety.WriteBundleExact | src/settings/main.cpp:204-217 | every state of a bundle, rolled back or cut short, has the old entry, the complete new content, or nothing where the old could not be read |
| SettingsSafety.BackupExactly | src/settings/main.cpp:219-231 | a backup only ever becomes the exact source, and a one-shot backup that exists never changes |
| SettingsOperations.EveryCrashState | src/settings/main.cpp:264-294 | every state of every operation under every fault: what each named file may have become, and that a source is not given up before its backup is complete |
| SettingsOperations.SuccessMeans | src/settings/main.cpp:264-294 | success means settings, last-good and the content are equal, and the backup equals its source |
| SettingsFaults.SucceedsExactly | src/settings/main.cpp:83-294 | without faults an operation succeeds exactly on the directories it is meant for in which no leftover has one of the stage names it takes |
| SettingsFaults.TakesEffectExactly | src/settings/main.cpp:166-193 | a write changes its target to the whole content exactly when its path was acceptable and its stage file was completed and placed, whatever fails afterwards |
| SettingsFaults.FailedBundleExactly | src/settings/main.cpp:204-217 | over every failed bundle whose restores neither fault nor find their stage names taken: if the settings write failed, both files are as they were unless it took effect all the same; if it succeeded, exactly when what was read before suffices to put both back |
| SettingsFaults.RollbackExactly | src/settings/main.cpp:204-217 | without read faults the latter holds exactly when each file was missing or readable, or last-good was a directory, also when the last-good write took effect before it failed |
| SettingsProcesses.FailedFlushLeavesSettings | src/settings/main.cpp:187-192 | a concrete fault, the flush of the directory after the rename, leaves the new settings although the bundle failed |
| SettingsProcesses.FailedUnlinkLeavesSettings | src/settings/main.cpp:148-164 | so does a stage name that cannot be removed after its link |
| SettingsProcesses.RollbackLosesOversized | src/settings/main.cpp:206-215 | concretely, settings one byte too large to read are lost by a rollback |
| SettingsProcesses.BackupsAreForever | src/settings/main.cpp:219-231 | over any processes, each killed anywhere, an existing migration or version 2 backup never changes |
| SettingsProcesses.LegacyNeverLost | src/settings/main.cpp:275-284 | over any processes the legacy bytes are in the legacy file or in its backup |
| SettingsProcesses.UpgradeKeepsSettings | src/settings/main.cpp:285-292 | an upgrade or recovery stopped anywhere leaves the old settings in place or in the backup |
| SettingsProcesses.NeverReplaced | src/settings/main.cpp:269-284 | creation and migration never replace existing settings |
| SettingsProcesses.NeverAMixture | src/settings/main.cpp:148-193 | every named file always holds the whole of something that was there or was given, never a part or a mix |
| SettingsProcesses.SettingsNeverMissing | src/settings/main.cpp:204-217 | settings that could be read are never missing while a bundle is written |
| SettingsWriters.SettingsWriter.PathKind | src/settings/main.cpp:83-92 | missing, regular or unsafe, a failing call counting as unsafe |
| SettingsWriters.SettingsWriter.ReadFile | src/settings/main.cpp:108-133 | the read loop returns what the specification reads |
| SettingsWriters.SettingsWriter.WriteAll | src/settings/main.cpp:135-146 | the write loop appends exactly the content, or stops at the first failed write |
| SettingsWriters.SettingsWriter.InstallNoReplace | src/settings/main.cpp:148-164 | rename without replacement, or link and unlink where that is not supported |
| SettingsWriters.SettingsWriter.WriteAtomic | src/settings/main.cpp:166-193 | stage, fill, secure, flush, install and flush again, each only after the last |
| SettingsWriters.SettingsWriter.RestoreFile | src/settings/main.cpp:195-202 | the old content written back, or the name removed |
| SettingsWriters.SettingsWriter.WriteBundle | src/settings/main.cpp:204-217 | both files, or both restored |
| SettingsWriters.SettingsWriter.BackupExact | src/settings/main.cpp:219-231 | a copy of the source, or the check that it is there already |
| SettingsWriters.SettingsWriter.PerformOperation | src/settings/main.cpp:264-294 | each operation in the order of its steps, every state on the way being one a crash may leave |
| Volume.ProportionalCubicVolumes | src/pipewire-audio/volume.cpp:9-40 | the loops reject what is unacceptable and return the cubes of the scaled channels |
| Volume.AverageIsTarget | src/pipewire-audio/volume.cpp:23-33 | scaled channels average exactly to the target |
| Volume.RatiosKept | src/pipewire-audio/volume.cpp:30-32 | audible channels keep their ratios, silent ones get equal shares |
| Volume.ChannelBound | src/pipewire-audio/volume.cpp:30-37 | every channel is at most 64 times the target |
| Volume.OverflowUnreachable | src/pipewire-audio/volume.cpp:34-36 | acceptable input is always scaled: the overflow rejection cannot happen |
| Volume.CubeInjective | src/pipewire-audio/main.cpp:429-436 | the volume read back through the cube root is the one whose cube was written |
| Volume.TwoWrites | src/pipewire-audio/main.cpp:643-644 | writing a second target after reading the first back equals writing it at once, exactly when the first was audible or ratios do not matter |
| AudioInvariant.StepKeeps | src/pipewire-audio/main.cpp:284-768 | every command, answer, appearance and removal keeps the request invariant |
| AudioInvariant.ReachableFlights | src/pipewire-audio/main.cpp:607-765 | a role never has volume and mute in flight together, and has one exactly when exactly one outstanding request is about what it tracks |
| AudioRequests.StepGives | src/pipewire-audio/main.cpp:545-765 | each step gives up without an answer exactly: a queued request a newer one replaces, what was queued for a role tracked anew or untracked, what goes with a binding, and a reply that comes too late |
| AudioRequests.AnsweredExactlyOnce | src/pipewire-audio/main.cpp:607-765 | over any run each request received is confirmed, refused, still held or given up by such a step, once for each time it was asked; and each write sent is confirmed, reported lost, outstanding or given up |
| AudioCurrency.ConfirmsExactly | src/pipewire-audio/main.cpp:725-735 | in every state a step confirms at most one request, exactly the one whose readback is answered by the node its role has bound, if that is what the role tracks now, with the state just told |
| AudioCurrency.RunConfirms | src/pipewire-audio/main.cpp:374-414 | over every run from any state each new confirmation was for a request outstanding at that step and about what its role tracked then: never for a superseded node or generation |
| AudioOrder.StepLatest | src/pipewire-audio/main.cpp:701-765 | while nothing is stranded each step keeps the order of the writes of each kind, and strands a queued request exactly when the server refuses a readback or the mute write taken next |
| AudioOrder.LastAskedIsLastSent | src/pipewire-audio/main.cpp:607-626 | until then what waits has something in flight before it, and otherwise the last write of each kind sent is the last asked for |
| AudioOrder.NeverInvalidState | src/pipewire-audio/main.cpp:643-648 | a volume between none and full is never rejected as an invalid state |
| AudioStranded.OlderSentLast | src/pipewire-audio/main.cpp:607-626 | a whole permitted run from start-up that goes on from there: a newer write is sent first and the older queued one last, although the newer was asked last |
| AudioStranded.StrandedRequest | src/pipewire-audio/main.cpp:711-722 | a whole permitted run from start-up after which a queued write is left with nothing in flight |
| AudioBridges.AudioBridge.PostExternal | src/pipewire-audio/main.cpp:253-282 | a state message only for a bound node whose state is complete |
| AudioBridges.AudioBridge.EnsureBinding | src/pipewire-audio/main.cpp:484-518 | the existing binding, a new one, or none |
| AudioBridges.AudioBridge.EnsureTrackedBindings | src/pipewire-audio/main.cpp:466-482 | both roles get their binding once the registry is ready |
| AudioBridges.AudioBridge.EraseRequestsForNode | src/pipewire-audio/main.cpp:545-551 | exactly the requests of that node go |
| AudioBridges.AudioBridge.RemoveBinding | src/pipewire-audio/main.cpp:520-543 | every role bound to the node forgets what it was doing |
| AudioBridges.AudioBridge.ReleaseBindingIfUnused | src/pipewire-audio/main.cpp:560-565 | a node no role tracks is released |
| AudioBridges.AudioBridge.Track | src/pipewire-audio/main.cpp:567-580 | the role starts afresh on the node |
| AudioBridges.AudioBridge.Untrack | src/pipewire-audio/main.cpp:582-591 | only under its own generation |
| AudioBridges.AudioBridge.Ask | src/pipewire-audio/main.cpp:607-626 | refused when stale, queued while busy, sent otherwise |
| AudioBridges.AudioBridge.Dispatch | src/pipewire-audio/main.cpp:628-699 | refused, or sent and outstanding under its synchronisation |
| AudioBridges.AudioBridge.BeginReadback | src/pipewire-audio/main.cpp:701-723 | the acknowledged request is read back under a new sequence |
| AudioBridges.AudioBridge.CompleteRequest | src/pipewire-audio/main.cpp:725-735 | confirmed only for what is tracked now, then the next one goes |
| AudioBridges.AudioBridge.ClearInFlight | src/pipewire-audio/main.cpp:737-748 | only the flag of the request, only while it is current |
| AudioBridges.AudioBridge.DispatchQueued | src/pipewire-audio/main.cpp:750-765 | a queued mute write before a queued volume write |
| AudioBridges.AudioBridge.OnCoreDone | src/pipewire-audio/main.cpp:284-304 | readiness once, then acknowledgements |
| AudioBridges.AudioBridge.FindReadback | src/pipewire-audio/main.cpp:392-405 | the only readback of a node, if there is exactly one |
| AudioBridges.AudioBridge.OnNodeParam | src/pipewire-audio/main.cpp:374-414 | the answer completes its readback, the only one of its node, or is reported as an outside change to each idle role bound to the node, output first, with its average and mute; nothing else is said |
| AudioBridges.AudioBridge.OnRegistryGlobal | src/pipewire-audio/main.cpp:327-351 | a node becomes known and may be bound |
| AudioBridges.AudioBridge.OnRegistryGlobalRemove | src/pipewire-audio/main.cpp:353-360 | a node is forgotten and released |
| AudioBridges.EraseNode | src/pipewire-audio/main.cpp:545-551 | the erasing loop removes exactly the requests of the node |
| BrightnessSafety.StepGood | src/brightness/main.cpp:120-178 | every event keeps the invariant and accounts for every request |
| BrightnessSafety.ReachableIsConsistent | src/brightness/main.cpp:327-490 | every pending request names a display shown now, with its maximum, under the current owner, ids differ, no failure is shown beside it, and the timer is the one its deadlines call for |
| BrightnessSafety.ReceivedExactlyOnce | src/brightness/main.cpp:369-490 | every request received is answered exactly once, abandoned to a change of owner, or pending |
| BrightnessRequests.NoopExactly | src/brightness/main.cpp:442-463 | a free request is answered as pointless exactly when the ratio is within half a step of the level shown; otherwise the nearest level becomes pending under the generation, key and maximum of the display shown, for 2500 ms at most |
| BrightnessRequests.PublishedIsNoop | src/brightness/main.cpp:652-653 | asking for the ratio just published is always pointless |
| BrightnessRequests.RoundedExactly | src/brightness/main.cpp:442-444 | exactly the level within half a step of the ratio, a tie going up, is what rounding gives; NoopExactly says that this is what becomes pending |
| BrightnessRequests.KeysDieWithTheirOwner | src/brightness/main.cpp:207-261 | after a change of owner a key published before it is only ever stale |
| BrightnessRequests.ExpireExactly | src/brightness/main.cpp:611-628 | exactly the requests whose time has come are answered and shown as failed |
| BrightnessRequests.TimerExactly | src/brightness/main.cpp:630-643 | the timer is set exactly while something is pending, no later than the nearest deadline or its least delay, and firing on time ends that request |
| BrightnessRequests.ConfirmedExactly | src/brightness/main.cpp:382-418 | a snapshot confirms a request exactly when a change with its own context was signalled and the snapshot repeats the level |
| BrightnessBridges.BrightnessBridge.ArmRequestTimer | src/brightness/main.cpp:630-643 | stopped, or set for the nearest deadline |
| BrightnessBridges.BrightnessBridge.ClearAllPending | src/brightness/main.cpp:605-609 | nothing pending, no timer |
| BrightnessBridges.BrightnessBridge.DetachOwner | src/brightness/main.cpp:240-261 | nothing of the owner is left |
| BrightnessBridges.BrightnessBridge.AttachOwner | src/brightness/main.cpp:207-238 | a new generation, unless they are exhausted |
| BrightnessBridges.BrightnessBridge.OnServiceOwnerChanged | src/brightness/main.cpp:167-178 | the old owner goes before the new one comes |
| BrightnessBridges.BrightnessBridge.RefreshSnapshot | src/brightness/main.cpp:327-419 | outdated requests go, displays are replaced, observed changes are confirmed |
| BrightnessBridges.BrightnessBridge.RequestBrightness | src/brightness/main.cpp:421-463 | stale, busy, pointless, or pending at the level nearest to the ratio for the display as shown |
| BrightnessBridges.BrightnessBridge.OnCallFinished | src/brightness/main.cpp:473-489 | only an error about the request still pending counts |
| BrightnessBridges.BrightnessBridge.ExpireRequests | src/brightness/main.cpp:611-628 | everything due is ended and the timer set again |
| BrightnessBridges.BrightnessBridge.QueueObservedChange | src/brightness/main.cpp:579-591 | one change for each display, the oldest display giving way |
| BrightnessBridges.BrightnessBridge.OnBrightnessChanged | src/brightness/main.cpp:120-153 | a change is the request's own only with its context |
| BrightnessBridges.BrightnessBridge.ClearPending | src/brightness/main.cpp:593-603 | the request of that display is answered |
| BrightnessBridges.BrightnessBridge.OnRangeChanged | src/brightness/main.cpp:156-165 | a range change makes a request stale |
| BrightnessBridges.WithoutOutdated | src/brightness/main.cpp:369-378 | the erase-while-iterating loop removes exactly the outdated requests, one answer each |
| BrightnessBridges.WithoutDue | src/brightness/main.cpp:613-623 | the erase-while-iterating loop removes exactly the due requests, one answer and failure each |
| BluetoothSafety.StepKeeps | src/connectivity/main.cpp:1703-2170 | every command, reply, agent callback, timer, refresh and owner change keeps the machine's invariant |
| BluetoothSafety.ReachableIsSafe | src/connectivity/main.cpp:1703-2170 | over every interleaving a held prompt implies pairing, prompt and display are clear outside it, discovery is active only while idle or discovering, exactly while its timer runs |
| BluetoothPrompts.StepSane | src/connectivity/main.cpp:1703-2170 | what is said about prompts, displays and discovery is kept whatever generations and replies come |
| BluetoothPrompts.PromptsAnsweredAtMostOnce | src/connectivity/main.cpp:1703-1829 | over every run, also with reused generations, every agent prompt is answered once, dropped with its pairing call, or still held while the pairing goes on |
| BluetoothSafety.SupersededReply | src/connectivity/main.cpp:2077-2096 | a reply to a call of another operation or owner changes nothing |
| BluetoothSafety.PairingEnds | src/connectivity/main.cpp:1997-2098 | a pairing always has a call that can end it, and two replies at most do |
| BluetoothSafety.ResponseExactly | src/connectivity/main.cpp:1789-1829 | a held prompt is answered exactly by a rejection or a valid acceptance while it is still the prompt shown |
| BluetoothList.BeforeTotal | src/connectivity/main.cpp:1393-1410 | the comparison orders any two records with different tokens, one way only |
| BluetoothList.BeforeChain | src/connectivity/main.cpp:1393-1410 | and is transitive |
| BluetoothList.SortedUnique | src/connectivity/main.cpp:1471-1477 | there is one sorted arrangement, whatever the algorithm |
| BluetoothList.AppendStands | src/connectivity/main.cpp:1448-1459 | appending keeps the kept records standing for all |
| BluetoothList.CutStands | src/connectivity/main.cpp:1460-1462 | so does sorting and cutting |
| BluetoothTokens.RefreshedIsTop | src/connectivity/main.cpp:1448-1483 | whenever no two devices met in a refresh got one token, the streamed list is the first 32 of a full sort of all appended records |
| BluetoothTokens.MapIsTheLists | src/connectivity/main.cpp:1460-1483 | the token map names exactly the devices of the list, each with its token, also when tokens repeat |
| BluetoothHandout.RefreshHandsOut | src/connectivity/main.cpp:1338-1351 | the devices met get, in this order, the token known for them if they are among the first 33, and otherwise the next of the counter, which goes on at 1 after the largest integer |
| BluetoothHandout.DistinctExactly | src/connectivity/main.cpp:1338-1469 | whatever the token map, the tokens of a refresh are distinct exactly when no two of the known ones it reuses are equal, not more are fresh than there are integers, and none of the reused lies in the cyclic range it hands out |
| BluetoothTokens.UnwrappedIsSeparate | src/connectivity/main.cpp:1338-1351 | tokens are handed out once as long as the counter does not wrap during the refresh, and stay below it |
| BluetoothTokens.WrappedRepeats | src/connectivity/main.cpp:1344-1350 | at the wrap a token still in use is handed out again and two devices of the list share it |
| BluetoothBridges.BluetoothBridge.ClearPairingReply | src/connectivity/main.cpp:1703-1716 | the held prompt is rejected or dropped, and the display cleared |
| BluetoothBridges.BluetoothBridge.FinishOperation | src/connectivity/main.cpp:1718-1728 | idle with this failure and result |
| BluetoothBridges.BluetoothBridge.BeginOperation | src/connectivity/main.cpp:1730-1745 | only when idle |
| BluetoothBridges.BluetoothBridge.ClearManagerState | src/connectivity/main.cpp:1853-1867 | nothing of the manager is left |
| BluetoothBridges.BluetoothBridge.StopBluetoothDiscovery | src/connectivity/main.cpp:1930-1959 | discovery ends, the operation is idle |
| BluetoothBridges.BluetoothBridge.StartAdapters | src/connectivity/main.cpp:1875-1910 | adapters are started in order until one fails |
| BluetoothBridges.BluetoothBridge.StartBluetoothDiscovery | src/connectivity/main.cpp:1869-1928 | all powered adapters, or discovery is stopped again |
| BluetoothBridges.BluetoothBridge.SetBluetoothInterest | src/connectivity/main.cpp:1961-1976 | losing interest ends pairing and discovery |
| BluetoothBridges.BluetoothBridge.CancelBluetoothPairing | src/connectivity/main.cpp:1978-1995 | only a pairing is cancelled |
| BluetoothBridges.BluetoothBridge.RequestPair | src/connectivity/main.cpp:2053-2098 | discovery is replaced by the pairing of an unpaired known device |
| BluetoothBridges.BluetoothBridge.RequestAction | src/connectivity/main.cpp:2100-2170 | the action a device allows begins |
| BluetoothBridges.BluetoothBridge.OnCallFinished | src/connectivity/main.cpp:2077-2168 | a reply acts on its own operation only |
| BluetoothBridges.BluetoothBridge.OnConnected | src/connectivity/main.cpp:2039-2049 | the connection after a pairing ends it |
| BluetoothBridges.BluetoothBridge.HandleAgentPrompt | src/connectivity/main.cpp:1747-1769 | a prompt is held for the target only, and one at a time |
| BluetoothBridges.BluetoothBridge.HandleAgentDisplay | src/connectivity/main.cpp:1771-1787 | a display is shown for the target only |
| BluetoothBridges.BluetoothBridge.RespondToPrompt | src/connectivity/main.cpp:1789-1829 | a valid response to the prompt shown |
| BluetoothBridges.BluetoothBridge.OnAgentReleased | src/connectivity/main.cpp:397-401 | the agent and the operation end |
| BluetoothBridges.BluetoothBridge.DetachBluezOwner | src/connectivity/main.cpp:638-682 | the owner, its agent and its prompt go |
| BluetoothBridges.BluetoothBridge.AttachBluezOwner | src/connectivity/main.cpp:589-636 | the new owner and whether it took the agent |
| BluetoothBridges.BluetoothBridge.OnBluezOwnerChanged | src/connectivity/main.cpp:495-506 | everything of the old owner goes first |
| BluetoothBridges.BluetoothBridge.SettleOperation | src/connectivity/main.cpp:1513-1529 | an operation ends exactly when the devices show its result, with that result: connected, not connected or absent, or absent |
| BluetoothBridges.BluetoothBridge.RefreshBluez | src/connectivity/main.cpp:1362-1530 | the streamed device list of at most 32 replaces the old one and settles the operation; while tokens are distinct it is the specified list |
| BluetoothBridges.BluetoothBridge.ExpireDevices | src/connectivity/main.cpp:1831-1851 | unpaired devices not seen lately go, with their tokens |
| BluetoothBridges.CollectOne | src/connectivity/main.cpp:1432-1469 | one device is appended with its token, and the list and tokens cut when it overflows; which of two records with one token stays is left to the sort |
| BluetoothBridges.SortDevices | src/connectivity/main.cpp:1471-1477 | a permutation in which nothing stands before what it should follow |
| BluetoothBridges.CollectDevices | src/connectivity/main.cpp:1411-1483 | the loop over all objects, the last sort and the token map rebuilt, also when tokens repeat |
| ScanComplete.ScanExact | src/wallpaper/library.cpp:124-307 | a whole scan ends; it lists only what the accepted roots reach, each once, parents first, within every limit of depth, directories, images and entries; and all of it unless it says truncated |
| ScanComplete.IterateKeeps | src/wallpaper/library.cpp:268-287 | every pass of the loop keeps what makes that true |
| ScanComplete.SlicesDrain | src/wallpaper/library.cpp:262-296 | slices of any sizes give the same result as the whole |
| ScanComplete.SliceKeeps | src/wallpaper/library.cpp:268-273 | a slice cut by the clock still lists only what is there, within the limits |
| ScanModel.IterateShrinks | src/wallpaper/library.cpp:279-282 | leaving an exhausted directory consumes no budget but leaves less work |
| ScanLibrary.LibraryScanner.StartScan | src/wallpaper/library.cpp:124-158 | up to eight distinct accepted roots, under a new generation |
| ScanLibrary.LibraryScanner.Cancel | src/wallpaper/library.cpp:160-172 | what was scheduled before is stale |
| ScanLibrary.LibraryScanner.FinishScan | src/wallpaper/library.cpp:298-307 | stopped, and truncated if it ever was |
| ScanLibrary.LibraryScanner.BeginNextDirectory | src/wallpaper/library.cpp:184-199 | the next directory not too deep |
| ScanLibrary.LibraryScanner.TakeFolder | src/wallpaper/library.cpp:210-232 | a folder is refused, and the scan called truncated, exactly at 512 directories or 8 levels down; otherwise it is listed |
| ScanLibrary.LibraryScanner.AcceptEntry | src/wallpaper/library.cpp:201-260 | each kind of entry |
| ScanLibrary.LibraryScanner.OneIteration | src/wallpaper/library.cpp:268-286 | one pass of the loop |
| ScanLibrary.LibraryScanner.ProcessSlice | src/wallpaper/library.cpp:262-296 | a slice of bounded work |
| ScanLibrary.LibraryScanner.OnTimer | src/wallpaper/library.cpp:147-157 | a stale callback does nothing |
| Framing.ChunksDoNotMatter | src/kwin-virtual-desktops/main.cpp:405-464 | however the stream is cut, exactly its lines of 1 to 4096 bytes are handled, in order, up to a shutdown, and at most 4096 bytes are left over |
| Framing.ConsumeKeeps | src/kwin-virtual-desktops/main.cpp:432-464 | consuming the buffer never changes which commands are still to come |
| Framing.CommandReader.ConsumeCommands | src/kwin-virtual-desktops/main.cpp:432-464 | the loop with its discard mode |
| Framing.CommandReader.ReadChunk | src/kwin-virtual-desktops/main.cpp:405-430 | a chunk is appended and consumed unless shutting down |
| Snapshots.DesktopsExactly | src/kwin-virtual-desktops/desktop_snapshot.cpp:52-128 | desktops are accepted exactly when well formed, few enough and with distinct ids and positions; entry i then has position i |
| Snapshots.Pigeonhole | src/kwin-virtual-desktops/desktop_snapshot.cpp:100-113 | as many distinct positions in range as there are places fill every place |
| Snapshots.OrderDoesNotMatter | src/kwin-virtual-desktops/desktop_snapshot.cpp:52-128 | any order of the same desktops gives the identical snapshot, or none |
| Snapshots.OutputsExactly | src/kwin-virtual-desktops/desktop_snapshot.cpp:130-193 | outputs are accepted exactly when names differ, desktops resolve and at most one asks for feedback; they keep their order |
| Snapshots.OutputsResolve | src/kwin-virtual-desktops/desktop_snapshot.cpp:248-315 | every output of a snapshot shows exactly one of its desktops |
| Snapshots.CanonicalIsFixed | src/kwin-virtual-desktops/desktop_snapshot.cpp:248-315 | a canonical snapshot is its own canonical form |
| SnapshotReader.ReadDesktops | src/kwin-virtual-desktops/desktop_snapshot.cpp:52-128 | the loop with its sets of ids and positions, and the sort |
| SnapshotReader.ReadOutputs | src/kwin-virtual-desktops/desktop_snapshot.cpp:130-193 | the loop with its names and feedback flag |
| SnapshotReader.ReadSnapshot | src/kwin-virtual-desktops/desktop_snapshot.cpp:248-315 | the checks in order |
| SnapshotReader.PublishedChanges | src/kwin-virtual-desktops/desktop_snapshot.cpp:322-329 | what is published never repeats at once and ends with the last snapshot offered |
| SnapshotReader.SnapshotDeduplicator.ShouldPublish | src/kwin-virtual-desktops/desktop_snapshot.cpp:322-329 | a snapshot is published unless it is the last one |
| NotificationRanking.WeakerIs | src/notifications/runtime.cpp:911-939 | one contender ranks below another exactly when it has no record to leave and the other does, or both do and it is less urgent, or they are alike in this and it was admitted earlier |
| NotificationRanking.FirstToGoYields | src/notifications/runtime.cpp:645-693 | at a full table, in any state: exactly the contender that ranks below all others, newcomer included, loses its place, and only if it closes when told to expire; exactly then the newcomer gets one, and nobody else changes |
| NotificationRanking.LosersAreRankedLowest | src/notifications/runtime.cpp:645-662 | a recorded critical notification goes only when every other contender is recorded and critical, a recorded normal one only when none is unrecorded or low, a recorded low one only when none is unrecorded; within a rank the oldest |
| NotificationRanking.EveryRunFirstToGoYields | src/notifications/runtime.cpp:645-693 | the same in every state of every run |
| NotificationTelling.TurnedAwayAreTold | src/notifications/runtime.cpp:608-693 | a new object is told to expire exactly when it gets no place; besides it only the one is told that ranks below all others at a full table |
| NotificationTelling.EveryRunTellsTurnedAway | src/notifications/runtime.cpp:608-693 | in every run whoever gets no place is told to expire and whoever gets one is not |
| NotificationTelling.StrangersAreTold | src/notifications/runtime.cpp:577-606 | of the objects that came back with a reload exactly those still there and not tracked are told to expire, once each |
| NotificationExact.AdmittedExactly | src/notifications/runtime.cpp:608-693 | whoever is admitted, to a free place or a cleared one, shows its own application name, summary, body and icon under revision 1, goes when it asks to or after 5 or 10 seconds unless critical, and is linked to its new record |
| NotificationExact.FreePlaceIsTaken | src/notifications/runtime.cpp:687-692 | with a place free the newcomer gets it and nobody loses one |
| NotificationExact.OthersLeaveNoTrace | src/notifications/runtime.cpp:608-626 | objects without an id, or when sequences have run out, leave everything as it was; a tracked object is marked, another under its id ignored |
| NotificationExact.RecordedExactly | src/notifications/runtime.cpp:544-575 | one new record in front, with the next key, stamped now and a day later, live, with the content; behind it the newest of what is not too old, 50 in all; nothing for a transient one or without keys |
| NotificationExact.PrunedLinks | src/notifications/runtime.cpp:788-802 | pruning cuts exactly the links to records it removed |
| NotificationExact.ReplacedExactly | src/notifications/runtime.cpp:695-741 | a replacement shows the new content under the next revision, goes as newly asked, and creates, rewrites in place, removes or leaves its record as old and new transience say |
| NotificationExact.RunQueuedExactly | src/notifications/runtime.cpp:957-978 | a queued replacement of an object that is gone or not tracked only clears the mark |
| NotificationExact.ClosedExactly | src/notifications/runtime.cpp:225-250 | only the closed notification goes; its record stays, no longer live, exactly when the reason is expiry, and is removed otherwise |
| NotificationExact.DismissedExactly | src/notifications/runtime.cpp:311-343 | an entry held by a living object is dismissed through it, by removal only when the object refuses; one without is removed; anything else is refused |
| NotificationExact.DueExactly | src/notifications/runtime.cpp:980-1017 | what is due ends unless its object leaves it open; its record stays, no longer live, exactly when it closed as expired; nothing else goes but what is too old |
| NotificationExact.OwnershipLostExactly | src/notifications/runtime.cpp:832-853 | every notification goes, and of history exactly what was no longer live remains |
| NotificationExact.FirstPerIdExactly | src/notifications/runtime.cpp:252-309 | a reload goes through the first living object buffered under each id, in the order they were buffered |
| NotificationExact.BeginsExactly | src/notifications/runtime.cpp:175-195 | a new generation begins with nothing recorded, linked, marked, recognised or buffered, and everyone still tracked |
| NotificationExact.OtherGenerationsAreIgnored | src/notifications/runtime.cpp:197-223 | what belongs to another generation is ignored; while one is reconciled objects are kept for its end and changes are not taken up |
| NotificationText.PointsExactly | src/notifications/notification_text.cpp:46-64 | which code point each unit or pair becomes: a line feed for a carriage return with or without one behind it, the replacement character for half a pair or a forbidden control, itself otherwise |
| NotificationText.StrippedRest | src/notifications/notification_text.cpp:79-100 | text without an opening bracket is kept whole, and nothing behind one that is never closed |
| SettingsFlushes.NeverExposed | src/settings/main.cpp:166-294 | whatever fails, no operation ever gives a name that is read to a file whose content is not flushed since its last byte or whose mode is not set; one that reports success has flushed the names |
| SettingsFlushes.PrepareReady | src/settings/main.cpp:172-183 | a prepared stage file is flushed after its last byte and has its mode |
| SettingsFaults.StageIsRemoved | src/settings/main.cpp:172-192 | however a write ends, its stage file is gone afterwards unless the last call failed too |
| AudioReports.SaysExactly | src/pipewire-audio/main.cpp:284-765 | in every state, each step adds exactly these messages: of changes made elsewhere, to each idle role bound to the node, output first, with its average and mute, unless the answer is a readback, and to a role bound anew to a node that has told its state; the one write that goes out; why a request fails; and what is unavailable |
| AudioReports.WrittenIsAsked | src/pipewire-audio/main.cpp:640-668 | what goes out for a volume are the cubes of levels, one for each channel, that average to the volume asked for, in the proportions there were |
| AudioReports.TrackedExactly | src/pipewire-audio/main.cpp:567-605 | tracking leaves the role with nothing in flight or waiting, bound to its node if it is known and can be bound, and the other role as it was or bound too |
| AudioReports.ToldExactly | src/pipewire-audio/main.cpp:416-453 | volumes and mute are kept each until told again |
| BrightnessExact.RequestExactly | src/brightness/main.cpp:421-463 | every request: stale when its key is not shown, busy when its id or display is taken, pointless within half a step of the level shown, and otherwise pending at the nearest level, a tie going up, for the display as shown |
| BrightnessExact.RefreshExactly | src/brightness/main.cpp:327-418 | a snapshot shows what it found; requests whose display is gone or changed range are stale, those whose own change it repeats confirmed, the others stay; failures go where a repeated change was confirmed or came from elsewhere |
| BrightnessExact.NoSnapshotExactly | src/brightness/main.cpp:327-366 | a failed snapshot, or one of another owner, changes nothing |
| BrightnessExact.ChangedExactly | src/brightness/main.cpp:128-152 | a signalled change is the request's own exactly when the service made it in the context of the request pending for that display; it replaces an older one of its display, or the oldest of 32 gives way |
| BrightnessExact.FinishedExactly | src/brightness/main.cpp:474-489 | the reply to a call ends its request only when it is an error about the request still pending under the same owner |
| BrightnessExact.RangedExactly | src/brightness/main.cpp:154-164 | a change of range makes the pending request stale and asks for a snapshot |
| BrightnessExact.ExpiredExactly | src/brightness/main.cpp:611-628 | exactly the due requests are answered, one answer each, and their failures shown |
| BrightnessExact.OwnerChangedExactly | src/brightness/main.cpp:167-261 | a change of owner abandons every request and leaves nothing of the old one; a new one begins the next generation while there is one |
| BluetoothExact.RefreshSettles | src/connectivity/main.cpp:1485-1529 | a refresh ends the operation exactly when the devices found show its result: connecting when the first of its token is connected, disconnecting when it is absent or not connected, unpairing when it is absent; unless a radio request waits with no adapter left |
| BluetoothExact.FailedRefreshExactly | src/connectivity/main.cpp:1376-1382 | a failed refresh leaves nothing of the manager |
| BluetoothExact.PairExactly | src/connectivity/main.cpp:2053-2098 | pairing begins with the first device of that token if it is not paired, by a call to its path; a discovery gives way, any other operation does not |
| BluetoothExact.ActExactly | src/connectivity/main.cpp:2100-2170 | so do connecting a paired, disconnecting a connected, and removing a paired device through its known adapter |
| BluetoothExact.StartExactly | src/connectivity/main.cpp:1869-1928 | discovery begins on every powered adapter, or stops again when one fails or there is none |
| BluetoothExact.PoweredExactly | src/connectivity/main.cpp:1869-1900 | which are exactly the powered ones in order |
| BluetoothExact.StopExactly | src/connectivity/main.cpp:1930-1959 | stopping ends an active discovery with this result and nothing else |
| BluetoothExact.CancelExactly | src/connectivity/main.cpp:1978-1995 | cancelling ends a pairing under the generation of the command, and nothing else |
| BluetoothExact.InterestExactly | src/connectivity/main.cpp:1961-1976 | losing interest ends a pairing and a discovery |
| BluetoothExact.ActionReplyExactly | src/connectivity/main.cpp:2137-2170 | a refused call ends its operation with the service's failure; an answered one waits for a refresh |
| BluetoothExact.PairReplyExactly | src/connectivity/main.cpp:2074-2098 | an answered pairing goes on to connect the device if it is trusted, and otherwise ends, paired only when it was answered |
| BluetoothExact.ConnectReplyExactly | src/connectivity/main.cpp:2025-2050 | the reply to that connection ends the pairing, as paired or as connected too |
| BluetoothExact.OtherReplyExactly | src/connectivity/main.cpp:2077-2096 | any other reply changes nothing |
| BluetoothExact.PromptHeld | src/connectivity/main.cpp:1747-1769 | a prompt about the device being paired is held and shown, its value cut at 16 characters |
| BluetoothExact.PromptRejected | src/connectivity/main.cpp:1747-1763 | any other prompt is answered with a rejection at once |
| BluetoothExact.RespondExactly | src/connectivity/main.cpp:1789-1829 | a held prompt is answered by a rejection, a PIN of 1 to 16 characters, a number of at most six digits, or a plain yes, as the prompt shown asks for |
| BluetoothExact.ExpiredExactly | src/connectivity/main.cpp:1831-1851 | a device is forgotten exactly when it is neither paired nor connected and was not seen for a minute |
| BluetoothExact.OwnerChangedExactly | src/connectivity/main.cpp:488-510 | a change of owner leaves nothing of the old one, rejects its held prompt, and asks a new one for its state |
| BluetoothRefreshed.RefreshListsExactly | src/connectivity/main.cpp:1388-1483 | with distinct tokens: of all devices paired, connected, being discovered or seen within a minute, each as it was found, the first 32: the target, then connected, then paired, then by name, then by token |
| ScanLimits.TruncatedOnlyAtLimit | src/wallpaper/library.cpp:124-307 | a scan is cut short only when 4096 entries were visited, 512 directories or images are listed, or a listed directory eight levels below its root contains a folder; nearer directories come first, each below its parent or a root |
| ScanLimits.WithinLimitsIsComplete | src/wallpaper/library.cpp:124-307 | a tree within all these limits is always listed completely |
| Framing.LinesExactly | src/kwin-virtual-desktops/main.cpp:405-464 | however lines arrive, those of 1 to 4096 bytes are handled up to the first that shuts down, and nothing else |
| SnapshotEntries.CanonicalExactly | src/kwin-virtual-desktops/desktop_snapshot.cpp:248-315 | a snapshot becomes exactly the one whose desktop at each position, and whose output at each place, has the id, name and fields of its entry; exactly when the epoch is 32 hexadecimal digits and all entries are good, or there are none |
| SnapshotEntries.DesktopsFromEntries | src/kwin-virtual-desktops/desktop_snapshot.cpp:52-128 | desktops are accepted exactly when every entry is one and no two share an id or a position, each at its position with the id and name of its entry |
| SnapshotEntries.OutputsFromEntries | src/kwin-virtual-desktops/desktop_snapshot.cpp:130-193 | outputs are accepted exactly when every entry is one, of a listed desktop, with a name of its own, and one at most asks for feedback |
| SnapshotEntries.DesktopsFault | src/kwin-virtual-desktops/desktop_snapshot.cpp:52-105 | otherwise the error is that of the number or of the first entry at fault |
| SnapshotEntries.OutputsFault | src/kwin-virtual-desktops/desktop_snapshot.cpp:130-185 | and so for outputs |
| BluetoothExact.RadioOffExactly | src/connectivity/main.cpp:1619-1625 | turning the radio off ends a pairing and a discovery |
| BluetoothExact.DisplayExactly | src/connectivity/main.cpp:1771-1787 | what the agent displays about the device being paired is shown, and nothing else |
| BluetoothExact.AgentEndExactly | src/connectivity/main.cpp:392-403 | the agent's cancellation and its release end the operation, with a rejected prompt |
| BluetoothExact.LateRefreshExactly | src/connectivity/main.cpp:1368-1386 | a refresh without an owner, or of another one, changes nothing |
| BrightnessExact.HotpluggedExactly | src/brightness/main.cpp:155-164 | a display that comes or goes asks for a snapshot |
| NotificationExact.ClearsExactly | src/notifications/runtime.cpp:344-358 | clearing the history cuts every link and ends nobody |
| SnapshotEntries.DesktopFault | src/kwin-virtual-desktops/desktop_snapshot.cpp:62-97 | of several faults of an entry the first is named: its schema, id, name or position |
| SnapshotEntries.CanonicalFault | src/kwin-virtual-desktops/desktop_snapshot.cpp:248-315 | what a snapshot is refused for first: its epoch, having only one of desktops and outputs, its desktops, its outputs, or its length |

## Left out

- D-Bus, PipeWire, sockets, the Qt event loop, JSON and XML text, image decoding and hashing: their outcomes are parameters, parsed values or injective ids.
- Models for the user interface, signals, logging, message de-duplication on standard output and diagnostics counters.
- Notifications: the clock is read once per public call, objects do not die during a call, expire and dismiss re-enter close for their own object only, and timestamps do not overflow.
- Notifications: reading and normalising an object's properties is one parameter; the markup reader of normalizeBody is too, only its fallback (`StripTagSpans`) is modelled.
- NotificationSafety.RunKeeps: excludes a queued replacement that records something while a generation is reconciled; NotificationOrphans.ReachableIsOneToOne does not, but needs the exact condition of ReconcileExactly where the last reload ended, because the property is false without it. The methods of the class are specified for the states of RunKeeps.
- NotificationOrphans.ReachableIsOneToOne: the condition is exact when reconciling ends and only sufficient after the newcomers of the same call, whose records can push an orphaned one out of history.
- Notifications: within one public call each object answers expire the same way every time it is told to, and likewise dismiss.
- NotificationAgeing.ReachableAgesFromTheBack: needs a clock that never goes back.
- Settings: the mode bits themselves, the process-wide umask, a disk that loses what it reported flushed, and other programs changing the directory meanwhile.
- Settings: the stage counter does not wrap within one process; `Inspect` and argument parsing only report.
- SettingsFaults.StageIsRemoved: takes the stage name as not a directory's, which cannot be removed.
- SettingsFaults.FailedBundleExactly: says nothing when a restore itself faults or finds its stage name taken by a leftover of an earlier process with the same id, beyond what EveryCrashState says of every state; RollbackExactly neither.
- Audio: floating point is modelled by reals, and the cube root by the volume whose cube was written; registry versions and parameter subscription.
- AudioInvariant.StepKeeps: takes track generations and synchronisation sequences as new, and an answer that carries a readback's sequence as coming from the node read.
- AudioReports.SaysExactly: for tracking and untracking takes each role as bound to nothing but the node it tracks, as AudioInvariant.StepKeeps proves of every reachable state.
- Brightness: sorting, validating and cutting the list of display names; labels; command parsing and its framing.
- BrightnessRequests.PublishedIsNoop: ratios are reals; rounding to the nearest level absorbs the error of a floating point quotient.
- Bluetooth: the radio request itself, Wi-Fi, adapter selection, names and icons; blocking calls to stop discovery and cancel a pairing have no result the machine reads.
- BluetoothSafety.StepKeeps: takes the generation of a new operation to be none of an outstanding call's, as request ids are.
- BluetoothTokens.RefreshedIsTop: when two devices met in one refresh share a token the order of their records is left to the sort; nothing is said about a device keeping its token when more than 32 are met.
- Wallpapers: labels, breadcrumbs, image details, thumbnails and the caches; the tree does not change during a scan; the clock may stop a scan at any pass.
- Workspaces: attaching to the window manager, loading its script and retiring it; the framing of other helpers, which do not resynchronise after an overlong command.
- Workspaces: the bound on the length of a snapshot's text is a parameter, and so are the payload's length and JSON checks.
- The session, power, shortcut, platform, application and effects helpers, which are mostly wiring.
