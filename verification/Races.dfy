/** Runs in which a naive reading of the code's promises fails, each from a fresh process.

    Every run is built from whole handlers and task bodies where they are not interrupted, and from
    single steps where they are. */
module Races {
  import opened Wrappers
  import opened Models
  import opened DesiredStateRecord
  import opened Intent
  import opened Lifecycle
  import opened TerminalReasons
  import opened Refinement
  import opened IntentHistory
  import opened Handlers
  import opened Interleaving
  import opened Convergence

  const PHONE := Config(AndroidForegroundService, [], false, map[])
  const BRIDGE := Bridge(true, false)
  const START := StartConfig("Service running", "remoteMessaging")
  const SAVED := Saving(0, true, true)

  /** A fresh process between commands. */
  function Fresh(): State {
    Boot(PHONE, Some(DEFAULT_STATE)).(actor := Ready)
  }

  lemma FreshIsReached()
    ensures Run(Boot(PHONE, Some(DEFAULT_STATE)), [Actor(BootReplay(None, false, true))]) == Fresh()
  {
    RunOne(Boot(PHONE, Some(DEFAULT_STATE)), Actor(BootReplay(None, false, true)));
  }

  /** Prefixes a run from the fresh state by the boot step. */
  lemma FromBoot(steps: seq<Step>)
    ensures Run(Boot(PHONE, Some(DEFAULT_STATE)), [Actor(BootReplay(None, false, true))] + steps) == Run(Fresh(), steps)
  {
    FreshIsReached();
    RunConcat(Boot(PHONE, Some(DEFAULT_STATE)), [Actor(BootReplay(None, false, true))], steps);
  }

  /** A start, a stop and a second start, with the first task stopped somewhere in between. */
  lemma StartAgain(s: State, reason: StopReason) returns (steps: seq<Step>)
    requires s.actor.Ready? && s.token == Some(s.generation) && s.bridge.None? && !s.config.validateTypes
    ensures Run(s, steps) == AfterStart(AfterStop(s, reason, SAVED), 0, START, None, SAVED)
    ensures forall step | step in steps :: WithoutAndroid(step)
  {
    steps := StopSteps(reason, SAVED) + StartSteps(0, START, None, SAVED);
    AfterStopIsRun(s, reason, SAVED);
    AfterStartIsRun(AfterStop(s, reason, SAVED), 0, START, None, SAVED);
    RunConcat(s, StopSteps(reason, SAVED), StartSteps(0, START, None, SAVED));
  }

  lemma FirstStart() returns (steps: seq<Step>, s: State)
    ensures Run(Fresh(), steps) == s == AfterStart(Fresh(), 0, START, None, SAVED)
    ensures forall step | step in steps :: WithoutAndroid(step)
    ensures s.actor.Ready? && s.token == Some(1) && s.generation == 1 && s.bridge.None? && !s.config.validateTypes
    ensures s.tasks == map[1 := Task(Initialising, None, None, None, None)] && s.lifecycle.Initializing? && s.isRunning
    ensures s.seen.stops == [] && s.seen.attempts == [Attempt(Launched(1, START), true)]
  {
    steps := StartSteps(0, START, None, SAVED);
    AfterStartIsRun(Fresh(), 0, START, None, SAVED);
    s := AfterStart(Fresh(), 0, START, None, SAVED);
  }

  /** The first task is in its run. */
  lemma FirstRun() returns (steps: seq<Step>, s: State)
    ensures Run(Fresh(), steps) == s
    ensures forall step | step in steps :: WithoutAndroid(step)
    ensures s.actor.Ready? && s.token == Some(1) && s.generation == 1 && s.bridge.None? && !s.config.validateTypes
    ensures s.tasks == map[1 := Task(InRun, None, None, None, None)] && s.lifecycle.Running? && s.isRunning
    ensures s.seen.stops == [] && s.terminalReason.None? && s.cancelled == {} && s.seen.accepted == [Launched(1, START)]
    ensures s.record.Some?
  {
    var first, s1 := FirstStart();
    AfterInitIsRun(s1, 1);
    RunConcat(Fresh(), first, InitSteps(1));
    steps, s := first + InitSteps(1), AfterInit(s1, 1);
  }

  /** Puts the pieces of a run together behind the boot step. */
  lemma Assembled(first: seq<Step>, a: seq<Step>, b: seq<Step>, c: seq<Step>, d: seq<Step>) returns (steps: seq<Step>)
    ensures steps == [Actor(BootReplay(None, false, true))] + (first + (a + b + c + d))
    ensures Run(Boot(PHONE, Some(DEFAULT_STATE)), steps) == Run(Run(Run(Run(Run(Fresh(), first), a), b), c), d)
  {
    steps := [Actor(BootReplay(None, false, true))] + (first + (a + b + c + d));
    FromBoot(first + (a + b + c + d));
    RunConcat(Fresh(), first, a + b + c + d);
    var s := Run(Fresh(), first);
    RunConcat(s, a, b);
    RunConcat(s, a + b, c);
    RunConcat(s, a + b + c, d);
  }

  // ----- a promotion that arrives late -----

  /** The first task takes its promotion step. */
  function Promoted(s: State): State {
    Apply(s, Work(1, Promote))
  }

  /** A stale task past its generation check promotes the generation started after it, whose own
      init then fails. */
  lemma LatePromotion(s: State) returns (s': State)
    requires s.actor.Ready? && s.token.None? && s.tasks.Keys == {1} && s.tasks[1].phase == Checked(true)
    requires s.generation == 1 && s.bridge.None? && !s.config.validateTypes && s.seen.stops == [Stop(1, UserStop)]
    ensures s' == Run(Run(AfterStart(s, 0, START, None, SAVED), [Work(1, Promote)]), FailedInitSteps(2, "init failed"))
    ensures s'.actor.Ready? && s'.token.None? && !s'.isRunning && s'.lifecycle.Running? && Stranded(s')
    ensures s'.tasks.Keys == {1, 2} && s'.tasks[2].phase.Exited? && s'.lastError.Some?
  {
    var s1 := AfterStart(s, 0, START, None, SAVED);
    assert s1.tasks == s.tasks[2 := Task(Initialising, None, None, None, s.onComplete)];
    var s2 := PromotedByOther(s1);
    s' := FailsStranded(s2);
  }

  lemma PromotedByOther(s: State) returns (s': State)
    requires s.generation == 2 && s.token == Some(2) && s.lifecycle.Initializing? && s.tasks.Keys == {1, 2}
    requires s.tasks[1].phase == Checked(true) && s.tasks[2].phase.Initialising? && s.tasks[2].seen.None?
    ensures s' == Run(s, [Work(1, Promote)])
    ensures s'.lifecycle.Running? && s'.seen.stalePromotion && s'.generation == 2 && s'.token == Some(2)
    ensures s'.tasks.Keys == {1, 2} && s'.tasks[2] == s.tasks[2] && s'.actor == s.actor && s'.seen.stops == s.seen.stops
  {
    RunOne(s, Work(1, Promote));
    s' := Promoted(s);
  }

  lemma FailsStranded(s: State) returns (s': State)
    requires s.lifecycle.Running? && s.seen.stalePromotion && s.generation == 2 && s.token == Some(2) && s.actor.Ready?
    requires s.tasks.Keys == {1, 2} && s.tasks[2].phase.Initialising? && s.tasks[2].seen.None? && s.seen.stops == [Stop(1, UserStop)]
    ensures s' == Run(s, FailedInitSteps(2, "init failed"))
    ensures s'.actor.Ready? && s'.token.None? && !s'.isRunning && s'.lifecycle.Running? && Stranded(s')
    ensures s'.tasks.Keys == {1, 2} && s'.tasks[2].phase.Exited? && s'.lastError.Some?
  {
    AfterFailedInitIsRun(s, 2, "init failed");
    s' := AfterFailedInit(s, 2, "init failed");
  }

  /** The first task passes its generation check and goes no further. */
  lemma FirstCheck() returns (steps: seq<Step>, s: State)
    ensures Run(Fresh(), steps) == s
    ensures forall step | step in steps :: WithoutAndroid(step)
    ensures s.actor.Ready? && s.token == Some(1) && s.generation == 1 && s.bridge.None? && !s.config.validateTypes
    ensures s.tasks == map[1 := Task(Checked(true), None, None, None, None)] && s.seen.stops == []
  {
    var first, s1 := FirstStart();
    var check := [Work(1, InitReturns(None)), Work(1, Check)];
    RunTwo(s1, check[0], check[1]);
    RunConcat(Fresh(), first, check);
    steps, s := first + check, Run(s1, check);
  }

  /** From a task past its check: a stop, a second start, the promotion, and the second init's failure. */
  lemma PromotesNext(s: State) returns (steps: seq<Step>, s': State)
    requires s.actor.Ready? && s.token == Some(1) && s.generation == 1 && s.bridge.None? && !s.config.validateTypes
    requires s.tasks == map[1 := Task(Checked(true), None, None, None, None)] && s.seen.stops == []
    ensures Run(s, steps) == s' && forall step | step in steps :: WithoutAndroid(step)
    ensures s'.actor.Ready? && s'.token.None? && !s'.isRunning && s'.lifecycle.Running? && Stranded(s')
    ensures s'.tasks.Keys == {1, 2} && s'.tasks[2].phase.Exited? && s'.lastError.Some?
  {
    var again := StartAgain(s, UserStop);
    s' := LatePromotion(AfterStop(s, UserStop, SAVED));
    RunConcat(s, again, [Work(1, Promote)]);
    RunConcat(s, again + [Work(1, Promote)], FailedInitSteps(2, "init failed"));
    steps := again + [Work(1, Promote)] + FailedInitSteps(2, "init failed");
  }

  /** The check and the promotion are two steps.  A stale task that checked before it was stopped
      promotes the next generation; when that one's init then fails, its cleanup leaves the lifecycle
      at Running with no service, no token and no task left to run. */
  lemma StalePromotionStrands() returns (steps: seq<Step>)
    ensures forall step | step in steps :: WithoutAndroid(step)
    ensures var s := Run(Boot(PHONE, Some(DEFAULT_STATE)), steps);
            && s.actor.Ready? && s.token.None? && !s.isRunning && s.lifecycle.Running? && Stranded(s)
            && s.tasks.Keys == {1, 2} && s.tasks[2].phase.Exited? && s.lastError.Some?
  {
    var first, s1 := FirstCheck();
    var late, s2 := PromotesNext(s1);
    steps := Assembled(first, late, [], [], []);
  }

  // ----- a reason that is overwritten -----

  /** A task whose run returns normally while the slot holds no stop of its own generation. */
  lemma ReturnsUnaware(s: State, g: nat) returns (s': State)
    requires g in s.tasks && s.tasks[g].phase.InRun? && OwnReason(s, g).None?
    ensures s' == Run(s, [Work(g, RunReturns(Finished)), Work(g, ReadReason)])
    ensures s' == s.(tasks := s'.tasks) && s'.tasks.Keys == s.tasks.Keys
    ensures s'.tasks[g].phase.Classified? && s'.tasks[g].explicit.None? && TerminalEvent(s'.tasks[g]) == Ended(TaskCompleted)
  {
    RunTwo(s, Work(g, RunReturns(Finished)), Work(g, ReadReason));
    s' := Run(s, [Work(g, RunReturns(Finished)), Work(g, ReadReason)]);
  }

  lemma StoppedTwice(s: State) returns (steps: seq<Step>, s': State)
    requires s.actor.Ready? && s.token == Some(1) && s.generation == 1 && s.bridge.None? && !s.config.validateTypes
    requires s.seen.stops == [] && s.tasks == map[1 := Task(InRun, None, None, None, None)]
    ensures Run(s, steps) == s' && forall step | step in steps :: WithoutAndroid(step)
    ensures s'.seen.stops == [Stop(1, PlatformTimeout), Stop(2, UserStop)] && s'.terminalReason == Some(Stop(2, UserStop))
    ensures 1 in s'.tasks && s'.tasks[1].phase.InRun?
  {
    var again := StartAgain(s, PlatformTimeout);
    var stopped := AfterStop(s, PlatformTimeout, SAVED);
    assert stopped.seen.stops == [Stop(1, PlatformTimeout)] && stopped.generation == 1;
    var s2 := AfterStart(stopped, 0, START, None, SAVED);
    assert s2.seen.stops == [Stop(1, PlatformTimeout)] && s2.token == Some(2) && s2.generation == 2 && s2.actor.Ready?;
    AfterStopIsRun(s2, UserStop, SAVED);
    RunConcat(s, again, StopSteps(UserStop, SAVED));
    steps, s' := again + StopSteps(UserStop, SAVED), AfterStop(s2, UserStop, SAVED);
  }

  /** One slot for all generations.  A task is stopped by a platform timeout, which keeps the intent
      to recover; a second generation is started and stopped by the user before the first task reads
      the slot.  The first task then reports a natural completion, not its timeout. */
  lemma OverwrittenReasonIsMissed() returns (steps: seq<Step>)
    ensures forall step | step in steps :: WithoutAndroid(step)
    ensures var s := Run(Boot(PHONE, Some(DEFAULT_STATE)), steps);
            && s.seen.stops == [Stop(1, PlatformTimeout), Stop(2, UserStop)]
            && 1 in s.tasks && s.tasks[1].phase.Classified? && s.tasks[1].explicit.None?
            && TerminalEvent(s.tasks[1]) == Ended(TaskCompleted)
  {
    var first, s1 := FirstRun();
    var stops, s2 := StoppedTwice(s1);
    var s3 := ReturnsUnaware(s2, 1);
    var read := [Work(1, RunReturns(Finished)), Work(1, ReadReason)];
    steps := Assembled(first, stops, read, [], []);
  }

  /** The native bridge is attached. */
  lemma Attached(s: State)
    requires s.actor.Ready?
    ensures Run(s, [Actor(SetMobile(BRIDGE))]) == s.(bridge := Some(BRIDGE))
  {
    RunOne(s, Actor(SetMobile(BRIDGE)));
  }

  /** Reconciliation up to the cancellation: the token is gone, the slot not yet written. */
  lemma ReconciledToCancellation(s: State) returns (steps: seq<Step>, s': State)
    requires s.actor.Ready? && s.isRunning && s.token == Some(1) && s.generation == 1 && s.cancelled == {}
    ensures Run(s, steps) == s' && s'.actor.Recording? && s'.cancelled == {1} && s'.generation == 1
    ensures s'.terminalReason == s.terminalReason && s'.seen.stops == s.seen.stops && s'.tasks == s.tasks
  {
    steps := [Actor(ReconcileRead), Actor(ReconcileCompare(Some(false))), Actor(ReconcileLifecycle), Actor(ReconcileTake)];
    RunFour(s, steps[0], steps[1], steps[2], steps[3]);
    s' := Run(s, steps);
  }

  /** Reconciliation cancels the token before it writes the slot.  A task that returns in between
      reports a natural completion although native stopped it. */
  lemma CancelledBeforeReasonIsMissed() returns (steps: seq<Step>)
    ensures var s := Run(Boot(PHONE, Some(DEFAULT_STATE)), steps);
            && s.actor.Ready? && s.cancelled == {1}
            && s.seen.stops == [Stop(1, NativeNotificationStop)] && s.terminalReason == Some(Stop(1, NativeNotificationStop))
            && 1 in s.tasks && s.tasks[1].phase.Classified? && s.tasks[1].explicit.None?
            && TerminalEvent(s.tasks[1]) == Ended(TaskCompleted)
  {
    var first, s1 := FirstRun();
    Attached(s1);
    var cancel, s2 := ReconciledToCancellation(s1.(bridge := Some(BRIDGE)));
    var s3 := ReturnsUnaware(s2, 1);
    RunOne(s3, Actor(ReconcileRecord));
    var read := [Work(1, RunReturns(Finished)), Work(1, ReadReason)];
    steps := Assembled(first, [Actor(SetMobile(BRIDGE))], cancel, read, [Actor(ReconcileRecord)]);
  }

  // ----- an adoption that is undone -----

  /** A stopped task up to its cleanup. */
  lemma StoppedTaskFinishes(s: State) returns (steps: seq<Step>, s': State)
    requires s.tasks == map[1 := Task(InRun, None, None, None, None)] && OwnReason(s, 1) == Some(UserStop)
    ensures Run(s, steps) == s' && s'.tasks.Keys == {1} && s'.tasks[1].phase.Notified?
    ensures s'.actor == s.actor && s'.generation == s.generation && s'.isRunning == s.isRunning
  {
    var s3, t3 := RunIsClassified(s, 1, Finished);
    var m := s.tasks;
    RunTwo(On(s3, m[1 := t3]), Work(1, SettleIntent(SAVED)), Work(1, Fire));
    StepOn(s3, m, 1, t3, SettleIntent(SAVED));
    StepOn(s3, m, 1, t3.(phase := Settled), Fire);
    var classify := [Work(1, RunReturns(Finished)), Work(1, ReadReason), Work(1, EmitTerminal)];
    var settle := [Work(1, SettleIntent(SAVED)), Work(1, Fire)];
    RunConcat(s, classify, settle);
    steps, s' := classify + settle, Run(s, classify + settle);
  }

  /** Reconciliation is told that native runs and adopts it; between its two writes, the cleanup of
      the task that was stopped before clears the flag again, for its generation is still the
      current one.  The call answers that the service runs, and the lifecycle says so too. */
  lemma AdoptionIsUndone() returns (steps: seq<Step>, before: State)
    ensures before == Run(Boot(PHONE, Some(DEFAULT_STATE)), steps)
    ensures var w := Gaps([], [Work(1, Cleanup)], [], []);
            var s := Run(before, ToShown(IsRunning, true, w));
            && before.actor.Ready? && !before.isRunning && GapsOfTasks(w) && s == Answered(before, IsRunning, true, w)
            && s.actor.Ready? && !s.isRunning && s.lifecycle.Running?
  {
    steps, before := StoppedButNotCleaned();
    AdoptionFails(before, Gaps([], [Work(1, Cleanup)], [], []));
  }

  lemma AdoptionFails(s: State, w: Gaps)
    requires s.actor.Ready? && s.generation == 1 && 1 in s.tasks && s.tasks[1].phase.Notified? && !s.isRunning
    requires w == Gaps([], [Work(1, Cleanup)], [], [])
    ensures var e := Run(s, ToShown(IsRunning, true, w));
            e == Answered(s, IsRunning, true, w) && e.actor.Ready? && !e.isRunning && e.lifecycle.Running?
  {
    CleanupCleans(s, w);
    AdoptionAnswered(s, w);
  }

  lemma AdoptionAnswered(s: State, w: Gaps)
    requires s.actor.Ready? && !s.isRunning && GapsOfTasks(w)
    requires CleanedDuring(Compared(s, IsRunning, true, w), w.second)
    ensures var e := Run(s, ToShown(IsRunning, true, w));
            e == Answered(s, IsRunning, true, w) && e.actor.Ready? && !e.isRunning && e.lifecycle.Running?
  {
    CallIsRun(s, IsRunning, true, w);
    NativeRunConvergesIff(s, IsRunning, w);
  }

  /** The first task was stopped and has only its cleanup left. */
  lemma StoppedButNotCleaned() returns (steps: seq<Step>, s: State)
    ensures s == Run(Boot(PHONE, Some(DEFAULT_STATE)), steps)
    ensures s.actor.Ready? && s.generation == 1 && !s.isRunning && 1 in s.tasks && s.tasks[1].phase.Notified?
  {
    var first, s1 := FirstRun();
    AfterStopIsRun(s1, UserStop, SAVED);
    var s2 := AfterStop(s1, UserStop, SAVED);
    var finish, s3 := StoppedTaskFinishes(s2);
    Attached(s3);
    s := s3.(bridge := Some(BRIDGE));
    steps := Assembled(first, StopSteps(UserStop, SAVED), finish, [Actor(SetMobile(BRIDGE))], []);
  }

  lemma CleanupCleans(s: State, w: Gaps)
    requires s.actor.Ready? && s.generation == 1 && 1 in s.tasks && s.tasks[1].phase.Notified? && !s.isRunning
    requires w == Gaps([], [Work(1, Cleanup)], [], [])
    ensures CleanedDuring(Compared(s, IsRunning, true, w), w.second) && Compared(s, IsRunning, true, w).actor.Converging?
  {
    var c := Compared(s, IsRunning, true, w);
    assert c.tasks == s.tasks && c.generation == 1;
    assert w.second[..0] == [];
    assert CleansUp(Run(c, []), w.second[0]);
  }

  // ----- a start that is saved too late -----

  /** A start up to the spawn of its task. */
  lemma SpawnedFirst() returns (steps: seq<Step>, s: State)
    ensures Run(Fresh(), steps) == s && forall step | step in steps :: WithoutAndroid(step)
    ensures s.actor == Spawned(START) && s.token == Some(1) && s.generation == 1 && s.terminalReason.None?
    ensures s.tasks == map[1 := Task(Initialising, None, None, None, None)] && s.isRunning
    ensures s.seen.accepted == [Launched(1, START)] && s.seen.attempts == [] && s.record == Some(DEFAULT_STATE)
  {
    steps := [Actor(StartInstall(0, START)), Actor(StartCapture), Actor(StartKeepalive(None)), Actor(StartSpawn)];
    RunFour(Fresh(), steps[0], steps[1], steps[2], steps[3]);
    s := Run(Fresh(), steps);
  }

  /** The task runs to its end, natural completion and all. */
  lemma RunsThrough(s: State) returns (steps: seq<Step>, s': State)
    requires s.generation == 1 && s.tasks == map[1 := Task(Initialising, None, None, None, None)] && s.terminalReason.None?
    ensures Run(s, steps) == s' && forall step | step in steps :: WithoutAndroid(step)
    ensures s'.token.None? && !s'.isRunning && s'.tasks.Keys == {1} && s'.tasks[1].phase.Exited?
    ensures s'.actor == s.actor && s'.generation == s.generation
    ensures s'.seen.accepted == s.seen.accepted + [Completed(1)]
    ensures s.record.Some? ==> s'.record.Some? && s'.seen.attempts == s.seen.attempts + [Attempt(Completed(1), true)]
  {
    AfterInitIsRun(s, 1);
    var s1 := AfterInit(s, 1);
    AfterRunIsRun(s1, 1, Finished, SAVED);
    RunConcat(s, InitSteps(1), FinishSteps(1, Finished, SAVED));
    steps, s' := InitSteps(1) + FinishSteps(1, Finished, SAVED), AfterRun(s1, 1, Finished, SAVED);
  }

  /** The save of a start comes after the spawn.  A task that is done before it leaves the record
      wanting a service that has completed. */
  lemma LateSaveOutlivesService() returns (steps: seq<Step>)
    ensures forall step | step in steps :: WithoutAndroid(step)
    ensures var s := Run(Boot(PHONE, Some(DEFAULT_STATE)), steps);
            && s.actor.Ready? && s.token.None? && !s.isRunning && s.tasks.Keys == {1} && s.tasks[1].phase.Exited?
            && IntentAfter(s.seen.accepted) == NO_WISH && !Lost(s.seen.attempts) && !StaleSaved(s.seen.attempts)
            && Late(Tried(s.seen.attempts))
            && s.record.Some? && s.record.value.desiredRunning && s.record.value.lastStartConfig == ConfigJson(Some(START))
  {
    var first, s1 := SpawnedFirst();
    var through, s2 := RunsThrough(s1);
    RunOne(s2, Actor(StartPersist(SAVED)));
    SavesLate(s2);
    LateLogs();
    steps := Assembled(first, through, [Actor(StartPersist(SAVED))], [], []);
  }

  lemma SavesLate(s: State)
    requires s.actor == Spawned(START) && s.generation == 1 && s.record.Some?
    requires s.seen.accepted == [Launched(1, START)] + [Completed(1)] && s.seen.attempts == [] + [Attempt(Completed(1), true)]
    ensures var s' := Apply(s, Actor(StartPersist(SAVED)));
            && s'.actor.Ready? && s'.token == s.token && s'.isRunning == s.isRunning && s'.tasks == s.tasks
            && s'.seen.accepted == [Launched(1, START), Completed(1)]
            && s'.seen.attempts == [Attempt(Completed(1), true)] + [Attempt(Launched(1, START), true)]
            && s'.record.Some? && s'.record.value.desiredRunning && s'.record.value.lastStartConfig == ConfigJson(Some(START))
  {
  }

  lemma LateLogs()
    ensures IntentAfter([Launched(1, START), Completed(1)]) == NO_WISH
    ensures var log := [Attempt(Completed(1), true)] + [Attempt(Launched(1, START), true)];
            !Lost(log) && !StaleSaved(log) && Late(Tried(log))
  {
    var first, second := Attempt(Completed(1), true), Attempt(Launched(1, START), true);
    Appended([], Launched(1, START));
    Appended([Launched(1, START)], Completed(1));
    assert [] + [Launched(1, START)] == [Launched(1, START)];
    assert [Launched(1, START)] + [Completed(1)] == [Launched(1, START), Completed(1)];
    Attempted([], first);
    Attempted([first], second);
    assert [] + [first] == [first] && ([first] + [second])[..1] == [first];
    AppendedSaves([], Completed(1));
    AppendedSaves(Tried([first]), Launched(1, START));
  }

  // ----- a completion that comes too late -----

  /** The settling of a stale natural completion, after a stop that keeps the intent and a restart. */
  lemma LateCompletion(s: State)
    requires s.actor.Ready? && s.token == Some(1) && s.generation == 1 && s.bridge.None? && !s.config.validateTypes
    requires s.tasks.Keys == {1} && s.tasks[1].phase.Reported? && CompletedNaturally(s.tasks[1])
    requires s.record.Some? && s.seen.accepted == [Launched(1, START)]
    ensures var s' := Apply(AfterStart(AfterStop(s, PlatformTimeout, SAVED), 0, START, None, SAVED), Work(1, SettleIntent(SAVED)));
            && s'.actor.Ready? && s'.token == Some(2) && s'.isRunning
            && IntentAfter(s'.seen.accepted) == Wish(true, Some(START))
            && s'.record.Some? && !s'.record.value.desiredRunning && s'.record.value.lastStartConfig.None?
  {
    var s1 := StoppedAndStarted(s);
    var before := [Launched(1, START), Halted(PlatformTimeout)];
    Appended(before, Launched(2, START));
    Appended(before + [Launched(2, START)], Completed(1));
    SettlesLate(s1);
  }

  lemma StoppedAndStarted(s: State) returns (s': State)
    requires s.actor.Ready? && s.token == Some(1) && s.generation == 1 && s.bridge.None? && !s.config.validateTypes
    requires s.tasks.Keys == {1} && s.record.Some? && s.seen.accepted == [Launched(1, START)]
    ensures s' == AfterStart(AfterStop(s, PlatformTimeout, SAVED), 0, START, None, SAVED)
    ensures s'.actor.Ready? && s'.token == Some(2) && s'.isRunning && s'.record.Some?
    ensures s'.tasks.Keys == {1, 2} && s'.tasks[1] == s.tasks[1]
    ensures s'.seen.accepted == [Launched(1, START), Halted(PlatformTimeout)] + [Launched(2, START)]
  {
    var stopped := AfterStop(s, PlatformTimeout, SAVED);
    assert stopped.seen.accepted == [Launched(1, START), Halted(PlatformTimeout)];
    s' := AfterStart(stopped, 0, START, None, SAVED);
    assert s'.tasks == s.tasks[2 := Task(Initialising, None, None, None, s.onComplete)];
  }

  lemma SettlesLate(s: State)
    requires 1 in s.tasks && s.tasks[1].phase.Reported? && CompletedNaturally(s.tasks[1]) && s.record.Some?
    ensures var s' := Apply(s, Work(1, SettleIntent(SAVED)));
            && s'.actor == s.actor && s'.token == s.token && s'.isRunning == s.isRunning
            && s'.seen.accepted == s.seen.accepted + [Completed(1)]
            && s'.record.Some? && !s'.record.value.desiredRunning && s'.record.value.lastStartConfig.None?
  {
  }

  lemma CompletesLate(s: State) returns (steps: seq<Step>, s': State)
    requires s.actor.Ready? && s.token == Some(1) && s.generation == 1 && s.bridge.None? && !s.config.validateTypes
    requires s.tasks.Keys == {1} && s.tasks[1].phase.Reported? && CompletedNaturally(s.tasks[1])
    requires s.record.Some? && s.seen.accepted == [Launched(1, START)]
    ensures Run(s, steps) == s' && forall step | step in steps :: WithoutAndroid(step)
    ensures s'.actor.Ready? && s'.token == Some(2) && s'.isRunning
    ensures IntentAfter(s'.seen.accepted) == Wish(true, Some(START))
    ensures s'.record.Some? && !s'.record.value.desiredRunning && s'.record.value.lastStartConfig.None?
  {
    var again := StartAgain(s, PlatformTimeout);
    LateCompletion(s);
    s' := Apply(Run(s, again), Work(1, SettleIntent(SAVED)));
    RunAppend(s, again, Work(1, SettleIntent(SAVED)));
    steps := again + [Work(1, SettleIntent(SAVED))];
  }

  /** A natural completion clears the persisted intent without looking at the generation.  The first
      task returns normally and reads the slot; before it settles the intent, the service is stopped
      and started again; then the record stops wanting the service that runs. */
  lemma StaleCompletionErasesIntent() returns (steps: seq<Step>)
    ensures forall step | step in steps :: WithoutAndroid(step)
    ensures var s := Run(Boot(PHONE, Some(DEFAULT_STATE)), steps);
            && s.actor.Ready? && s.token == Some(2) && s.isRunning
            && IntentAfter(s.seen.accepted) == Wish(true, Some(START))
            && s.record.Some? && !s.record.value.desiredRunning && s.record.value.lastStartConfig.None?
  {
    var first, s1 := FirstRun();
    var finish := [Work(1, RunReturns(Finished)), Work(1, ReadReason), Work(1, EmitTerminal)];
    var s2, t2 := RunIsClassified(s1, 1, Finished);
    var late, s3 := CompletesLate(On(s2, s1.tasks[1 := t2]));
    steps := Assembled(first, finish, late, [], []);
  }
}
