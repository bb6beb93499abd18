# Background-service lifecycle: a verified model

The plugin runs one background service at a time for a Tauri application. A single actor owns the
service's state and serves commands (start, stop, native events, status, recovery intent); every
accepted start spawns a task that runs the service and cleans up after it. Tasks run beside the actor
and beside older tasks that have not finished, and they share the token, the generation counter, the
running flag, the lifecycle, the last error, the terminal-reason slot and the persisted record.

## How the model is built

`Lifecycle` is a transition system with one actor, an unbounded map of tasks keyed by generation, and
a process restart. One step is one section of the code that no other thread can see half done: a
section under the token lock, one write to an unlocked cell, or one native call. In particular the
promotion is two steps, a generation check and a write, and reconciliation releases the token in one
step and records the reason in a later one, as in the code. A step that does not fit where the actor
or the task stands changes nothing, so `Run` over an arbitrary sequence of steps is every interleaving,
and a statement about `Run` of every sequence is a statement about every reachable state. The answers
of the environment (native calls, service results, file errors, clocks) are arguments of the steps.
`History` is what an observer sees: events, stops, firings, calls to the bridge, intent.

`Manager` has the actor's state as a class whose methods update it field by field like the handlers,
each proved to reach the state that its steps reach when nothing interferes (`Handlers`). The other
modules hold one family of results each:

- `Promises`: what each command and each stretch of a task does, field by field.
- `TokenSafety`, `TerminalReasons`, `Refinement`, `Draining`, `Events`, `Callbacks`, `ServiceTypes`:
  invariants over every interleaving.
- `Intent`, `IntentHistory`: what a history of commands means and when the persisted record says so.
- `Json`, `DesiredStateRecord`, `DesiredStateFile`: the record, its encoding, and the file protocol
  under failing steps and crashes.
- `ConcurrentSaves`: saves of several writers that overlap.
- `NativeStatus`, `Interleaving`, `Convergence`: the merge with the native authority, with tasks running
  between the steps of a call.
- `BgTaskDelivery`: the iOS cold and warm deliveries as clients of the actor.
- `NotificationId`: the FNV-1a hash behind notification ids.
- `Races`, `DeliveryRaces`: witness runs for what is not true.

## What does not hold

These follow the code where its comments promise more.

- The promotion checks the generation and then writes without the token lock
  (manager.rs:1190-1196). A stale task can promote the next generation, and if that one's init then
  fails, its cleanup leaves the lifecycle at Running with no service: `Races.StalePromotionStrands`.
  `Refinement.CellsAgree` says that, without an Android authority, this is the only way the cells ever
  disagree between commands, and `Refinement.RunningIsExact` that nothing of the kind happens if no step
  separates check and write.
- The terminal-reason slot is not cleared by a start, although its field comment says so
  (manager.rs:649), and a later stop overwrites an unread one: `Races.OverwrittenReasonIsMissed`. The
  exact condition is `TerminalReasons.ExplicitReasonExact`. Reconciliation cancels before it writes the
  slot: `Races.CancelledBeforeReasonIsMissed`.
- A natural completion clears the persisted intent without a generation check (manager.rs:1261-1269):
  `Races.StaleCompletionErasesIntent`. And a start's save can come after its own task's completion
  (manager.rs:1306-1307), which leaves the record wanting a finished service:
  `Races.LateSaveOutlivesService`. `IntentHistory.RecordIsIntentIff` and
  `IntentHistory.RecordFollowsAcceptedIff` say for every run, failing saves included, exactly when the
  record is right.
- After `IsRunning` or a poll the flag is native's unless the current generation's cleanup comes
  between the call's decision and its answer: an adoption is then undone although the call reports it
  (manager.rs:1829-1839): `Races.AdoptionIsUndone`, with the exact condition in
  `Convergence.NativeRunConvergesIff`. A native stop always converges (`Convergence.NativeStopConverges`).
- A status poll that finds native stopped clears the flag but leaves the token, and while the task lives
  no later `IsRunning` releases it (manager.rs:1919-1936, 1833-1855): `Convergence.PollMasksTheToken`,
  with the exact condition in `Convergence.IsRunningUnblocks`.
- The actor and a spawned task save through one temp path with nothing to keep them apart. A rename can
  publish a half-written file (desired_state.rs:142-160): `ConcurrentSaves.OverlappingRenameIsTorn`; a
  shorter record can be written over a longer one that is already published; and a load that finds no
  canonical file can remove the temp file of a save in progress (desired_state.rs:117-121):
  `ConcurrentSaves.LoadLosesSave`. `ConcurrentSaves.MalformedIff` says for every history exactly when the
  canonical file is malformed, and `ConcurrentSaves.RenamePublishesOwnIff` exactly when a save is lost.
- A clear that succeeds can leave a stale temp file, exactly when removing it failed
  (desired_state.rs:100-102, 171): `DesiredStateFile.TempAfterCompletion`.
- A delivery's callback can stay armed for the next start, or fire for another client's start, although
  the warm path asks first to avoid just that (lib.rs:600-604): `DeliveryRaces.OvertakenDeliveryStaysArmed`
  and `DeliveryRaces.DeliveryToldOfAnother`, with the exact condition in `BgTaskDelivery.OwnCallbackIff`
  and `BgTaskDelivery.FiresForOwnStartIff`. Being accepted is not enough: between arming and starting,
  another start can take the callback or another callback replace it. Nor is it needed: the task runs
  beside the save that precedes the reply, and its callback can fire before the start is answered
  (`DeliveryRaces.DeliveryToldBeforeReply`).
- The reason "out of budget" can never be shown for a snapshot that the iOS bridge assembled, since
  such a snapshot always carries the error that takes precedence (mobile.rs:405-419):
  `NativeStatus.OutOfBudgetHasError`.
- The allowlist check's comment lists an empty type among the accepted ones (models.rs:55); the code
  refuses it, and so does the model.

## Model

| member | source | states |
|---|---|---|
| `TokenSafety.TokenInvHolds` | tauri-plugin-background-service/src/manager.rs:1007-1060 | in every reachable state an installed token belongs to the current generation and is not cancelled; between commands its holder is a live task that has not passed cleanup; installs equal releases plus one if a token is present |
| `TokenSafety.OnlyOwnTokenReleased` | tauri-plugin-background-service/src/manager.rs:1279-1303 | whatever a task is doing, its step can only remove its own generation's token, only in its cleanup, and only while that generation is current |
| `TokenSafety.EffectFrame` | tauri-plugin-background-service/src/manager.rs:1155-1303 | which cells no task ever writes, and which only the guarded cleanup writes |
| `TerminalReasons.StopsInvHolds` | tauri-plugin-background-service/src/manager.rs:1361-1374 | over every interleaving: stopped generations increase, the slot is the latest stop, and what each task read is a function of the stops before its read |
| `TerminalReasons.SlotHoldsGreatestStop` | tauri-plugin-background-service/src/manager.rs:1361-1374 | each generation is explicitly stopped at most once and the slot holds the stop of the greatest stopped generation |
| `TerminalReasons.ExplicitReasonExact` | tauri-plugin-background-service/src/manager.rs:1204-1219 | a task that has read the slot has explicit reason r if and only if its own stop with r preceded the read and no later generation was stopped before it; a reason never leaks |
| `TerminalReasons.CancelledExactly` | tauri-plugin-background-service/src/manager.rs:1374 | in every reachable state a service has been told to stop exactly if its generation was explicitly stopped, by a command or by native, or is just being |
| `Refinement.CellsInvHolds` | tauri-plugin-background-service/src/manager.rs:1112-1118 | without an Android authority, at every step: token and flag agree, the lifecycle agrees with the flag, and Running means that a promotion was written |
| `Refinement.CellsAgree` | tauri-plugin-background-service/src/manager.rs:1168-1196 | between commands: token present iff running flag; lifecycle Initializing or Running iff the flag is set or the state is stranded, never both |
| `Refinement.RunningIsExact` | tauri-plugin-background-service/src/manager.rs:1190-1196 | if no step separates a generation check from its promotion: token iff flag iff active lifecycle, and Running iff the current generation's task has promoted |
| `Refinement.StepsRefine` | tauri-plugin-background-service/src/manager.rs:1000-1310 | every step of every interleaving of the actor and any number of tasks is a step of one abstract service with guarded events |
| `Refinement.AcceptedIffInactive` | tauri-plugin-background-service/src/manager.rs:1014-1040 | between commands a start is accepted iff the abstract service is inactive and its type passes |
| `Draining.DrainStep` | tauri-plugin-background-service/src/manager.rs:1155-1304 | every step of a live task strictly decreases the remaining work and leaves the actor alone |
| `Draining.DrainIsBounded` | tauri-plugin-background-service/src/manager.rs:1155-1304 | under any schedule the tasks take no more steps than the work that remained |
| `Draining.DrainProgressesOrIsFree` | tauri-plugin-background-service/src/manager.rs:1155-1304 | between commands, while work remains some task can step, and when none remains nobody holds the token |
| `Draining.AlreadyRunningIsTemporary` | tauri-plugin-background-service/src/manager.rs:1014-1016 | from any state between commands a drain exists that frees the token, after which every start whose type passes is accepted |
| `Events.EventsInvHolds` | tauri-plugin-background-service/src/manager.rs:1155-1253 | each generation's events are exactly those its task has emitted by its phase, under any interleaving |
| `Events.EventGrammar` | tauri-plugin-background-service/src/manager.rs:1082-1120 | each generation's events are a prefix of Error, or of Started then one of Stopped or Error; a rejected or rolled-back start contributes none |
| `Events.EndIsClassified` | tauri-plugin-background-service/src/manager.rs:1221-1253 | the terminal event is the explicit reason if one was read, otherwise the run's error, and TaskCompleted otherwise only if run returned Ok |
| `Events.ErrorOwnership` | tauri-plugin-background-service/src/manager.rs:1284-1302 | in every reachable state the last error is the current generation's own failure, recorded iff its task failed and cleaned up |
| `Callbacks.CallbackInvHolds` | tauri-plugin-background-service/src/manager.rs:1062-1064 | over every interleaving each callback occupies one place and the slot is empty while a start holds one |
| `Callbacks.CallbackConservation` | tauri-plugin-background-service/src/manager.rs:924-926 | every callback ever set is in exactly one place (slot, a start in progress, one task, one firing, or replaced), and a firing carries the result of its own generation |
| `Callbacks.FiresBeforeRelease` | tauri-plugin-background-service/src/manager.rs:1272-1288 | after a successful init a task has fired its callback before it can release the token |
| `Callbacks.NoCallbackLost` | tauri-plugin-background-service/src/manager.rs:1184-1186 | once all tasks have exited, every callback is in the slot, fired or replaced |
| `Callbacks.CaptureInvHolds` | tauri-plugin-background-service/src/manager.rs:1062-1064 | over every interleaving the captures on record are those of the callbacks that tasks have or have fired |
| `Callbacks.CapturedOnce` | tauri-plugin-background-service/src/manager.rs:1184-1186 | no callback is captured by two generations, and a firing is that of the generation that captured it |
| `Callbacks.FatalKeepaliveRollsBack` | tauri-plugin-background-service/src/manager.rs:1111-1119 | a fatal keepalive failure, whatever older tasks do between its steps, puts the callback back, spawns and captures nothing and leaves an idle service; only the generation, the app handle and the cleared markers differ |
| `Callbacks.RollbackAlone` | tauri-plugin-background-service/src/manager.rs:1111-1119 | if no task runs meanwhile, tasks, events, record and reason slot are untouched |
| `ServiceTypes.RefusalIsExact` | tauri-plugin-background-service/src/models.rs:40-83 | a type passes iff it is one of the 14 where the bridge enforces types and, with validation on, is non-empty and in the allowlist up to case |
| `ServiceTypes.LowerIsUpToCase` | tauri-plugin-background-service/src/models.rs:74-75 | plain strings have equal lower case exactly if they differ at most in the case of letters |
| `ServiceTypes.AllowedExactly` | tauri-plugin-background-service/src/models.rs:61-83 | with validation on, a plain type passes exactly if it is not empty and some allowlist entry is the same up to the case of letters |
| `ServiceTypes.EnforcedExactly` | tauri-plugin-background-service/src/models.rs:19-49 | a bridge that enforces types lets exactly the 14 through, each by name |
| `ServiceTypes.OnlyPermittedTypes` | tauri-plugin-background-service/src/manager.rs:1023-1039 | over every run every type handed to the bridge was permitted for that bridge, though the bridge can be replaced between commands |
| `ServiceTypes.UpdateOnlySwapsType` | tauri-plugin-background-service/src/manager.rs:1433-1463 | a type update changes nothing but the call log, and calls the bridge iff a service is active, the bridge enforces types and the type is permitted |
| `Intent.IntentIsLastDecisive` | tauri-plugin-background-service/src/manager.rs:1580-1588 | a history's intent is what its last decisive event set: a start, a declaration, an intentional stop, or the completion of its own process's latest start |
| `Intent.NoDecisiveNoIntent` | tauri-plugin-background-service/src/manager.rs:1580-1588 | a history without decisive events wants nothing |
| `Intent.WrittenIsIntentOrStale` | tauri-plugin-background-service/src/manager.rs:1255-1269 | a history's saves leave its intent in the record, unless a stale task's completion was saved since the last decisive event: then they leave nothing wanted |
| `Intent.ReplayFollowsWish` | tauri-plugin-background-service/src/manager.rs:792-839 | on a record that expresses a wish, boot replays exactly the wish's config, and only on desktop, with a boot app, consent and a wanted service |
| `IntentHistory.RecordsAreNormalised` | tauri-plugin-background-service/src/manager.rs:1635-1664 | under any interleaving of saves with failing loads and saves, a record that does not want the service has no config, start time, recovery or restart attempts |
| `ConcurrentSaves.OverlappingSavesAreNormalised` | tauri-plugin-background-service/src/manager.rs:1644-1661 | with loads and saves of any number of writers interleaved, every persisted record is normalised and its flag and config are those of the last save |
| `ConcurrentSaves.LoadThenSave` | tauri-plugin-background-service/src/manager.rs:1679-1696 | a load and its save without overlap are the one save step of the transition system |
| `IntentHistory.RecordExpressesLastSave` | tauri-plugin-background-service/src/manager.rs:1635-1699 | with no hypothesis: over every interleaving and any number of process deaths, flag and config are those of the last save that reached the backend |
| `IntentHistory.RecordIsIntentIff` | tauri-plugin-background-service/src/manager.rs:1255-1269 | for every run: the record expresses the intent of the saved history if and only if no stale completion was saved since the last decisive event, or nothing is wanted |
| `IntentHistory.SettlesExactly` | tauri-plugin-background-service/src/manager.rs:1255-1269 | a task about to settle the intent attempts a save exactly if its run returned Ok and it read no stop of its own, and changes the record in no other case |
| `IntentHistory.OnlyUnstoppedCompletionsSettle` | tauri-plugin-background-service/src/manager.rs:1255-1269 | in every reachable state a generation has tried to clear the intent exactly if its task is past that point, returned Ok and read no stop of its own |
| `Intent.ReachedIsIntentUnlessLost` | tauri-plugin-background-service/src/manager.rs:1661-1663 | unless a decisive save was lost, what the saves that reached the backend leave is the intent of all that were tried, or nothing wanted after a stale completion |
| `IntentHistory.RecordFollowsAcceptedIff` | tauri-plugin-background-service/src/manager.rs:1306-1307 | for every run, with saves failing at will: between commands the record expresses the fold over what was decided, in the order decided, if and only if: where a decisive save was lost since the last that reached the backend, that one asked for the same; else where a stale completion was saved since, nothing is wanted; else the last decisive save is not that of a start whose own task had already completed |
| `IntentHistory.DisciplinedIsInOrder` | tauri-plugin-background-service/src/manager.rs:1306-1307 | neither exception occurs if starts wait for earlier tasks to exit and a start's save precedes its own task's |
| `IntentHistory.RecordFollowsAcceptedCommands` | tauri-plugin-background-service/src/manager.rs:1389-1410 | for such callers, unless a decisive save is lost, the record between commands equals the fold over accepted starts, stops by reason, declarations and completions in the order they were decided |
| `IntentHistory.NothingLost` | tauri-plugin-background-service/src/manager.rs:1661-1663 | if every save reaches the backend, none is lost |
| `IntentHistory.BootReplaysIntent` | tauri-plugin-background-service/src/manager.rs:792-839 | after every history and a death, boot installs a start iff desktop, boot app, consent, the history wants the service with that config, no stale completion was saved since, and the type passes |
| `Json.DecodePrint` | tauri-plugin-background-service/src/desired_state.rs:106-137 | decoding an encoded JSON value returns it |
| `Json.NoStrictPrefixDecodes` | tauri-plugin-background-service/src/desired_state.rs:106-116 | no strict prefix of an encoding decodes |
| `DesiredStateRecord.RecordRoundTrip` | tauri-plugin-background-service/src/desired_state.rs:16-46 | decoding an encoded record returns it up to a null start config, with absent fields omitted and missing ones defaulted |
| `DesiredStateRecord.RoundTripExactIff` | tauri-plugin-background-service/src/desired_state.rs:16-46 | the round trip is exact iff the start config is not JSON null |
| `DesiredStateRecord.ConfigRoundTrip` | tauri-plugin-background-service/src/models.rs:109-127 | a start config survives conversion to a JSON value and back, and is never null |
| `DesiredStateRecord.MissingFieldsDefault` | tauri-plugin-background-service/src/desired_state.rs:16-46 | a record that holds only the flag gets the defaults, and one without the flag is malformed |
| `DesiredStateRecord.MalformedRecords` | tauri-plugin-background-service/src/desired_state.rs:16-46 | what is not an object, a flag that is not a boolean, a number beyond its width, or a key given twice is malformed |
| `DesiredStateRecord.ConfigDefaults` | tauri-plugin-background-service/src/models.rs:109-127 | missing fields of a start config get their defaults, the alias of the label counts, and both spellings at once are an error |
| `DesiredStateFile.FileDesiredStateBackend.Load` | tauri-plugin-background-service/src/desired_state.rs:106-125 | default for an absent file (cleaning a stale temp), malformed for an undecodable one, the record otherwise |
| `DesiredStateFile.FileDesiredStateBackend.Save` | tauri-plugin-background-service/src/desired_state.rs:127-161 | the state of both files after every failing step or crash of the temp-then-rename protocol |
| `DesiredStateFile.FileDesiredStateBackend.Clear` | tauri-plugin-background-service/src/desired_state.rs:163-173 | the same for the removal of both files |
| `DesiredStateFile.CanonicalIsCommitted` | tauri-plugin-background-service/src/desired_state.rs:127-173 | after any sequence of operations with failures and crashes at any step, the canonical file is absent or the full encoding of the last record renamed and not removed since |
| `DesiredStateFile.LoadAfterHistory` | tauri-plugin-background-service/src/desired_state.rs:106-125 | a load in any history returns the default or that record, never malformed |
| `DesiredStateFile.SaveIsAtomic` | tauri-plugin-background-service/src/desired_state.rs:127-161 | later readers see the old or the new record, the new one iff the rename was reached; success means reached and failure means not |
| `DesiredStateFile.TornCanonicalIsMalformed` | tauri-plugin-background-service/src/desired_state.rs:128-132 | a canonical file torn anywhere would read as malformed, which is what the temp file prevents |
| `DesiredStateFile.TempAfterCompletion` | tauri-plugin-background-service/src/desired_state.rs:154-172 | a successful save leaves no temp; a failed rename and a successful clear leave one iff its removal failed |
| `DesiredStateFile.LoadTidiesUp` | tauri-plugin-background-service/src/desired_state.rs:106-125 | a load without a canonical file gives the default and removes a stale temp as far as it can; any other touches nothing |
| `DesiredStateFile.FailedSaveLeaves` | tauri-plugin-background-service/src/desired_state.rs:127-161 | what each failure or crash of a save leaves in the two files, and which of them the caller hears of |
| `ConcurrentSaves.InodesAreOverlaid` | tauri-plugin-background-service/src/desired_state.rs:142-147 | for every history of any number of writers, each file holds the overlay of what was written to it since its last truncation |
| `ConcurrentSaves.CanonicalReads` | tauri-plugin-background-service/src/desired_state.rs:106-160 | for every such history, with removals and abandoned saves anywhere: an absent canonical file reads as the default; otherwise it reads as the record last written to it if that write covers the others since the truncation, and is malformed if not |
| `ConcurrentSaves.MalformedIff` | tauri-plugin-background-service/src/desired_state.rs:108-116 | for every such history: a load reports malformed if and only if a canonical file is there whose last write does not cover the others since its truncation |
| `ConcurrentSaves.RenamePublishesOwnIff` | tauri-plugin-background-service/src/desired_state.rs:117-121 | for every such history: a rename publishes its own writer's file if and only if no rename and no removal has taken the temp name away since the writer opened it; otherwise that save is lost, and the rename fails or publishes another's file |
| `ConcurrentSaves.AloneIsCommitted` | tauri-plugin-background-service/src/desired_state.rs:142-160 | with writers that open the temp path, and removals that clear it, only while no other has it open, the canonical file is absent or the full encoding of the last record renamed and not removed since, and never malformed |
| `ConcurrentSaves.OverlappingRenameIsTorn` | tauri-plugin-background-service/src/desired_state.rs:142-160 | two writers: the second truncates what the first has written, the first renames it, and the canonical file is malformed |
| `ConcurrentSaves.LoadLosesSave` | tauri-plugin-background-service/src/desired_state.rs:117-121 | on a fresh install one writer's load removes the temp file that another has written, and that save is lost |
| `Handlers.AfterStartIsRun` | tauri-plugin-background-service/src/manager.rs:1000-1310 | the seven steps of a start run without interference end in the closed form: refused without effect, rolled back, or accepted |
| `Handlers.AfterStopIsRun` | tauri-plugin-background-service/src/manager.rs:1357-1410 | the same for a stop |
| `Handlers.AfterReconcileIsRun` | tauri-plugin-background-service/src/manager.rs:1798-1857 | the same for reconciliation |
| `Handlers.AfterPollIsRun` | tauri-plugin-background-service/src/manager.rs:1912-1936 | the same for the merge of a status poll |
| `Handlers.AfterFailedInitIsRun` | tauri-plugin-background-service/src/manager.rs:1156-1188 | the same for a task whose init fails: report, clean up, fire |
| `Handlers.AfterInitIsRun` | tauri-plugin-background-service/src/manager.rs:1190-1199 | the same for a task up to its run |
| `Handlers.AfterRunIsRun` | tauri-plugin-background-service/src/manager.rs:1201-1304 | the same for a task from the return of its run: classify, emit, settle, fire, clean up |
| `Promises.SavePromises` | tauri-plugin-background-service/src/manager.rs:1635-1664 | a save that reaches a backend builds on what it loaded, or on the default: which fields it sets, clears and keeps; any other changes nothing |
| `Promises.StopPromises` | tauri-plugin-background-service/src/manager.rs:1361-1381 | a stop takes and cancels the token, records the reason and clears flag, error and marker; without a token it changes nothing |
| `Promises.StopOnRecord` | tauri-plugin-background-service/src/manager.rs:1389-1392 | only a user, app, notification or completion stop touches the record, and leaves nothing wanted in it |
| `Promises.RefusalPromises` | tauri-plugin-background-service/src/manager.rs:1014-1040 | the first failing check decides the refusal, and a refused start changes nothing |
| `Promises.StartPromises` | tauri-plugin-background-service/src/manager.rs:1042-1100 | the cells of an accepted start, with an advisory failure noted |
| `Promises.StartOnRecord` | tauri-plugin-background-service/src/manager.rs:1306-1307 | an accepted start leaves a record that wants it, with its config and time |
| `Promises.FatalStartPromises` | tauri-plugin-background-service/src/manager.rs:1111-1119 | the cells and the reply of a start whose keepalive fails for good |
| `Promises.BootPromises` | tauri-plugin-background-service/src/manager.rs:792-839 | a replayed start is installed for the boot app; without a readable record, an app or consent nothing happens |
| `Promises.InitPromises` | tauri-plugin-background-service/src/manager.rs:1190-1199 | an initialised task promotes its own start only, and reports it |
| `Promises.FailedInitPromises` | tauri-plugin-background-service/src/manager.rs:1156-1188 | a failed init reports its error, takes its own start down and fires its callback as failed |
| `Promises.FinishReports` | tauri-plugin-background-service/src/manager.rs:1210-1253 | a run that returned reports the stop recorded for its generation, else its error, else completion |
| `Promises.FinishFires` | tauri-plugin-background-service/src/manager.rs:1272-1277 | it fires its callback with its own result |
| `Promises.FinishTakesDown` | tauri-plugin-background-service/src/manager.rs:1284-1303 | it takes its own start's cells down, with its error if it has one, and leaves a later start's alone |
| `Promises.FinishOnRecord` | tauri-plugin-background-service/src/manager.rs:1255-1269 | it clears the record only if it returned Ok and no stop is recorded for its generation |
| `Promises.NativePromises` | tauri-plugin-background-service/src/manager.rs:1823-1857 | reconciliation and a poll follow native in flag and lifecycle, and only reconciliation of a native stop takes, cancels and records |
| `Manager.ServiceManager.HandleStart` | tauri-plugin-background-service/src/manager.rs:1000-1310 | the handler's whole new state and reply for every outcome of checks and keepalive |
| `Manager.ServiceManager.CheckStart` | tauri-plugin-background-service/src/manager.rs:1014-1040 | the guards of a start, in order, with no effect |
| `Manager.ServiceManager.TakeToken` | tauri-plugin-background-service/src/manager.rs:1361-1381 | the locked section of a stop records the reason and cancels |
| `Manager.ServiceManager.HandleStopWithReason` | tauri-plugin-background-service/src/manager.rs:1357-1410 | new state and reply of a stop, with the intent cleared or kept by its reason |
| `Manager.ServiceManager.HandleNativeLifecycleEvent` | tauri-plugin-background-service/src/manager.rs:1544-1562 | by event: a timeout or expiration stops with its reason and leaves the record, a notification stop also leaves nothing wanted, and an acceptance changes nothing |
| `Manager.ServiceManager.HandleUpdateForegroundServiceType` | tauri-plugin-background-service/src/manager.rs:1433-1463 | reply for every case, and no change but the call to the bridge |
| `Manager.ServiceManager.HandleSetOnComplete` | tauri-plugin-background-service/src/manager.rs:924-926 | the slot takes the new callback and the old one is replaced |
| `Manager.ServiceManager.HandleSetDesiredRunning` | tauri-plugin-background-service/src/manager.rs:1739-1772 | an intent-only command rewrites the record and touches no run state |
| `Manager.ServiceManager.SaveDesiredRunning` | tauri-plugin-background-service/src/manager.rs:1635-1664 | load, rewrite and save under failing loads and saves |
| `Manager.ServiceManager.ReconcileRunningWithNative` | tauri-plugin-background-service/src/manager.rs:1798-1857 | the reply is native's bit whenever an Android authority answers; a native stop takes, cancels and records |
| `Manager.ServiceManager.MergeAndroid` | tauri-plugin-background-service/src/manager.rs:1909-1968 | rules 1 to 5: adopt, heal or agree, then a native timeout, with the reason of highest precedence |
| `Manager.ServiceManager.ReportIos` | tauri-plugin-background-service/src/manager.rs:1981-2017 | the iOS phase, each of the four exactly characterised, and the verdict |
| `Manager.ServiceManager.MergeAuthority` | tauri-plugin-background-service/src/manager.rs:1909-2017 | the merge for whichever authority answers |
| `Manager.ServiceManager.AssembleStatus` | tauri-plugin-background-service/src/manager.rs:1869-2132 | every modelled status field, from record, authority and verdict |
| `Manager.ServiceManager.BuildLifecycleStatus` | tauri-plugin-background-service/src/manager.rs:1865-2132 | for every state, record and authority: degraded iff a reason is present iff, given an app, the event is emitted; the reason is the one the precedence demands, with its error; the other fields show record and native |
| `Manager.ServiceManager.PollIosBridge` | tauri-plugin-background-service/src/mobile.rs:383-431 | from the three bridge queries to the status: a task shows as running exactly if its kind is known, it has started and not completed since; an exhausted budget always surfaces as degraded with a concrete scheduling error |
| `Manager.ServiceManager.CleanUpTask` | tauri-plugin-background-service/src/manager.rs:1284-1303 | the guarded cleanup on either path |
| `Manager.ServiceManager.TaskInit` | tauri-plugin-background-service/src/manager.rs:1156-1199 | the task up to its run, for either result of init |
| `Manager.ServiceManager.ReportEnd` | tauri-plugin-background-service/src/manager.rs:1221-1269 | the terminal event, and the intent cleared only on natural completion |
| `Manager.ServiceManager.TaskFinish` | tauri-plugin-background-service/src/manager.rs:1201-1304 | the task from the return of its run |
| `NativeStatus.OutOfBudgetHasError` | tauri-plugin-background-service/src/mobile.rs:383-431 | an assembled snapshot is out of budget iff an attempt scheduled nothing and left an error, which is then the reason shown |
| `NativeStatus.ReasonsAreExact` | tauri-plugin-background-service/src/manager.rs:1952-2029 | each degraded reason is shown in exactly the cases listed |
| `NativeStatus.ShownStatesAreExact` | tauri-plugin-background-service/src/manager.rs:2054-2076 | each state is shown in exactly the cases listed: durable setup and lock states first, an idle iOS service as stopped, and the lifecycle otherwise |
| `NativeStatus.ShownErrorsAreExact` | tauri-plugin-background-service/src/manager.rs:1991-2029 | the error shown is the one noted at start with its own reason, else the refresh task's, else the processing task's, else the record's |
| `NativeStatus.ShownRunningIsExact` | tauri-plugin-background-service/src/manager.rs:1896-1987 | the running bit shown is native's on Android and tells of an executing background task on iOS |
| `NativeStatus.SnapshotIsExact` | tauri-plugin-background-service/src/mobile.rs:383-431 | an assembled snapshot carries over what the queries said, and its task is active exactly if its kind is known, it has started, and it has not completed since |
| `Interleaving.TasksBetween` | tauri-plugin-background-service/src/manager.rs:1168-1303 | whatever tasks run between two steps of the actor, token, flag and error are as before, or token and flag are gone because the current generation cleaned up |
| `Convergence.CallIsRun` | tauri-plugin-background-service/src/manager.rs:1798-1857 | the calls with tasks between their steps are runs of the transition system |
| `Convergence.NativeStopConverges` | tauri-plugin-background-service/src/manager.rs:1835-1857 | native stopped: whatever tasks do inside IsRunning or a poll, the flag is clear when it is answered, and a repeat on the same snapshot changes nothing |
| `Convergence.NativeRunConvergesIff` | tauri-plugin-background-service/src/manager.rs:1823-1839 | native running: the flag is set when the call is answered if and only if the current generation does not clean up after the call has decided; then a repeat changes nothing |
| `Convergence.IsRunningUnblocks` | tauri-plugin-background-service/src/manager.rs:1840-1856 | native stopped: whatever tasks do inside IsRunning, the next start is refused as running if and only if the flag was already clear, a token was present and the task did not clean up; otherwise the token is gone, cancelled with the reason recorded |
| `Convergence.MismatchReportedOnce` | tauri-plugin-background-service/src/manager.rs:1912-1950 | a later poll on the same snapshot does not report the mismatch again, whatever tasks do in between |
| `Convergence.PollLeavesToken` | tauri-plugin-background-service/src/manager.rs:1919-1936 | a poll leaves the token in place; only the task's own cleanup removes it |
| `Convergence.PollMasksTheToken` | tauri-plugin-background-service/src/manager.rs:1919-1936 | once a poll has healed the flag, no number of IsRunning calls, with tasks running inside, releases the token while the task lives |
| `NotificationId.StableNotificationId` | tauri-plugin-background-service/src/notifier.rs:60-73 | the loop equals the mathematical fold of section 2 of draft-eastlake-fnv, and the id lies in 1..2^31-1 |
| `NotificationId.KnownHash` | tauri-plugin-background-service/src/notifier.rs:60-65 | the hash of "a" is the published one, which fixes basis, prime and order |
| `NotificationId.XorUndoes` | tauri-plugin-background-service/src/notifier.rs:63 | exclusive or with the same word twice is the identity |
| `NotificationId.MultiplyInverts` | tauri-plugin-background-service/src/notifier.rs:64 | wrapping multiplication by the prime is a bijection, with its inverse given |
| `NotificationId.AbsorbIsBijection` | tauri-plugin-background-service/src/notifier.rs:62-65 | for every byte one round of the loop is a bijection on 32-bit words |
| `NotificationId.OneByteChangesHash` | tauri-plugin-background-service/src/notifier.rs:60-65 | equal-length strings that differ in one byte have different hashes |
| `NotificationId.IdsCollideIff` | tauri-plugin-background-service/src/notifier.rs:66-72 | two ids are equal iff the hashes agree on bits 1 to 30 |
| `BgTaskDelivery.Hooks.RunAutoStart` | tauri-plugin-background-service/src/lib.rs:522-565 | exactly one hook runs, the success hook iff the start was accepted |
| `BgTaskDelivery.Hooks.RunWarmStart` | tauri-plugin-background-service/src/lib.rs:592-678 | which hook runs and whether the callback is armed, for every combination of sends and replies; none runs if the service runs or the race is lost |
| `BgTaskDelivery.Hooks.SendStart` | tauri-plugin-background-service/src/lib.rs:529-564 | the tail that sends the start and picks the hook |
| `BgTaskDelivery.CallsAreClients` | tauri-plugin-background-service/src/lib.rs:522-678 | the calls of the transition system are the two client procedures: on the same answers they end having run the same hooks |
| `BgTaskDelivery.DeliveryInvHolds` | tauri-plugin-background-service/src/lib.rs:522-678 | the invariant over every interleaving of deliveries, other clients, tasks and a shutdown of the actor |
| `BgTaskDelivery.HooksAreExclusive` | tauri-plugin-background-service/src/lib.rs:503-565 | no call runs both hooks or one twice; the record is consumed only if that call's start was accepted and spawned; a call that found the service running does neither |
| `BgTaskDelivery.ConsumptionsAreDistinct` | tauri-plugin-background-service/src/lib.rs:592-678 | consumptions map injectively to distinct generations and distinct calls |
| `BgTaskDelivery.OwnCallbackIff` | tauri-plugin-background-service/src/lib.rs:342-372 | at every moment of every run, before and after the reply: the generation that a delivery's own start created has captured the delivery's callback if and only if that start has spawned and the slot still held the callback when it was taken up; once no longer awaited, the start has spawned if and only if it was accepted |
| `BgTaskDelivery.FiresForOwnStartIff` | tauri-plugin-background-service/src/lib.rs:600-604 | for every run: a delivery's callback that fires, be it before the reply, reports the result of the start the delivery made under exactly that condition, and another's otherwise |
| `BgTaskDelivery.RefusedStartLeavesCallback` | tauri-plugin-background-service/src/lib.rs:552-664 | for every run: a start refused or rolled back leaves its callback in the slot if and only if the slot held it at the outset; a warm delivery leaves quietly if and only if a token was in place |
| `Races.StalePromotionStrands` | tauri-plugin-background-service/src/manager.rs:1168-1196 | a run that ends with lifecycle Running and no service, token or live task of that generation |
| `Races.OverwrittenReasonIsMissed` | tauri-plugin-background-service/src/manager.rs:1210-1219 | a run in which a task stopped by a timeout reports a natural completion |
| `Races.CancelledBeforeReasonIsMissed` | tauri-plugin-background-service/src/manager.rs:1845-1855 | the same after a native stop found by reconciliation |
| `Races.StaleCompletionErasesIntent` | tauri-plugin-background-service/src/manager.rs:1255-1269 | a run in which the service runs as wanted and the record says it is not wanted |
| `Races.LateSaveOutlivesService` | tauri-plugin-background-service/src/manager.rs:1306-1307 | a run in which a start is saved after its own task completed, so that the record wants a finished service |
| `Races.AdoptionIsUndone` | tauri-plugin-background-service/src/manager.rs:1829-1839 | a run in which IsRunning answers that the service runs, the lifecycle says so, and the flag is clear |
| `DeliveryRaces.OvertakenDeliveryStaysArmed` | tauri-plugin-background-service/src/lib.rs:600-664 | a run in which a warm delivery, told that nothing runs, is overtaken, leaves quietly, and leaves its callback armed |
| `DeliveryRaces.DeliveryToldOfAnother` | tauri-plugin-background-service/src/lib.rs:342-372 | a run in which another client's start takes a delivery's callback and fires it with its own failure, while the delivery's start is accepted |
| `DeliveryRaces.DeliveryToldBeforeReply` | tauri-plugin-background-service/src/manager.rs:1306-1307 | a run in which a delivery's own task fails and reports before its start is answered |

## Left out

- Wrap-around of the 64-bit generation counter; generations are unbounded.
- The table of lower-case forms beyond ASCII, which is a parameter of the configuration, and the texts of
  error messages.
- JSON at the level of characters: files hold tokens, and numbers are integers. A torn write inside
  a token is taken as a prefix of whole tokens.
- Records and start configurations given as a JSON array of their fields in order, which the deserialiser
  also accepts; the plugin only ever writes objects.
- Power loss that undoes writes: a crash kills the process at a step, and a rename is atomic. A failed
  fsync changes nothing that survives such a crash.
- DesiredStateFile.CanonicalIsCommitted: is about one writer at a time; what several do to the files is in
  `ConcurrentSaves`, where a write is one step that starts at the beginning of the file.
- Overlapping load-modify-save inside the transition system, where each is one step; `ConcurrentSaves`
  has them apart.
- Keepalive stops, the mirroring of intent into native storage and the resubmission after a platform
  timeout: native calls whose results the actor only logs.
- Notifications and `NotifierPolicy::derive`, the degraded event of an advisory start failure, the call,
  message, audio-route and app-settings commands: pass-through.
- `GetState` and `GetDesiredState`, which only read; `capabilities`, validation issues, `platform` and
  `data_dir` of the status.
- `shutdown_gracefully`, the OS-service and IPC modes, `run_cancel_listener`, `PluginConfig::validate`.
- Services that panic: init and run return.
- The order of the command channel: the actor may take waiting clients' commands in any order, which
  only adds runs. The delivery model has no Android authority and no process restart.
