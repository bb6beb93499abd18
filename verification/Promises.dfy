/** What each command and each stretch of a task promises, field by field, from the state before it
    and the answers it gets, when nothing interferes. */
module Promises {
  import opened Wrappers
  import opened Models
  import opened DesiredStateRecord
  import opened Intent
  import opened Lifecycle
  import opened Handlers

  // ----- the record -----

  /** Some of the record's fields are the business of nobody here, and every save keeps them. */
  predicate SameReports(ds: DesiredState, base: DesiredState) {
    && ds.lastHeartbeatEpochMs == base.lastHeartbeatEpochMs && ds.lastNativeState == base.lastNativeState
    && ds.lastPlatformError == base.lastPlatformError
  }

  predicate WantsStart(ds: DesiredState, base: DesiredState, start: Option<StartConfig>, now: U64) {
    && SameReports(ds, base) && ds.desiredRunning && ds.lastStartEpochMs == Some(now)
    && (start.None? ==> ds.lastStartConfig.None?)
    && (start.Some? ==> ds.lastStartConfig.Some? && ConfigFromJson(ds.lastStartConfig.value) == start)
    && ds.recoveryPending == base.recoveryPending && ds.recoveryReason == base.recoveryReason
    && ds.restartAttempt == base.restartAttempt
  }

  predicate WantsNothing(ds: DesiredState, base: DesiredState) {
    && SameReports(ds, base) && !ds.desiredRunning && ds.lastStartConfig.None? && ds.lastStartEpochMs.None?
    && !ds.recoveryPending && ds.recoveryReason.None? && ds.restartAttempt == 0
  }

  /** A save that reaches a backend builds on what it loaded, or on the default if it could not load;
      any other changes nothing. */
  lemma SavePromises(record: Option<DesiredState>, desired: bool, start: Option<StartConfig>, saving: Saving)
    ensures var saved := SaveDesiredRunning(record, desired, start, saving);
            if record.Some? && saving.saves then
              && saved.Some?
              && var base := if saving.loads then record.value else DesiredState(false, None, None, None, None, None, 0, false, None);
                 if desired then WantsStart(saved.value, base, start, saving.now) else WantsNothing(saved.value, base)
            else saved == record
  {
    if start.Some? {
      ConfigRoundTrip(start.value);
    }
  }

  // ----- stop -----

  /** The reasons after which nobody is to restart the service. */
  predicate Intentional(reason: StopReason) {
    reason == UserStop || reason == AppStop || reason == NativeNotificationStop || reason == TaskCompleted
  }

  /** A stop that finds a token takes it, cancels it, records the reason and clears the markers. */
  lemma StopPromises(s: State, reason: StopReason, saving: Saving)
    ensures var s' := AfterStop(s, reason, saving);
            if s.token.None? then s' == s
            else
              && s'.token.None? && s'.cancelled == s.cancelled + {s.token.value}
              && !s'.isRunning && s'.lifecycle == ServiceLifecycle.Stopped
              && s'.lastError.None? && s'.schedulingDegraded.None?
              && s'.terminalReason == Some(Stop(s.generation, reason)) && s'.generation == s.generation
              && s'.onComplete == s.onComplete && s'.app == s.app && s'.bridge == s.bridge && s'.tasks == s.tasks
              && s'.actor == s.actor
  {
  }

  /** Only an intentional stop touches the record: it leaves nothing wanted. */
  lemma StopOnRecord(s: State, reason: StopReason, saving: Saving)
    ensures var s' := AfterStop(s, reason, saving);
            if s.token.Some? && Intentional(reason) && s.record.Some? && saving.saves then
              s'.record.Some? && WantsNothing(s'.record.value, if saving.loads then s.record.value else DEFAULT_STATE)
            else s'.record == s.record
  {
    SavePromises(s.record, false, None, saving);
  }

  // ----- start -----

  /** The first of the failing checks decides the refusal, and a refused start changes nothing. */
  lemma RefusalPromises(s: State, app: nat, start: StartConfig, keepalive: Option<string>, saving: Saving)
    ensures var reply, s' := StartReply(s, start, keepalive), AfterStart(s, app, start, keepalive, saving);
            var enforced := s.bridge.Some? && s.bridge.value.enforcesTypes;
            && (s.token.Some? ==> reply == Err(AlreadyRunning) && s' == s)
            && (s.token.None? && enforced && start.foregroundServiceType !in VALID_FOREGROUND_SERVICE_TYPES ==>
                  reply == Err(Platform("invalid foreground_service_type")) && s' == s)
            && (s.token.None? && !enforced && s.config.validateTypes && start.foregroundServiceType == "" ==>
                  reply == Err(Platform("foreground_service_type must not be empty")) && s' == s)
            && (reply.Err? && s.bridge.None? ==> s' == s)
            && (reply.Err? && keepalive.None? ==> s' == s)
  {
  }

  /** An accepted start. */
  lemma StartPromises(s: State, app: nat, start: StartConfig, keepalive: Option<string>, saving: Saving)
    requires StartRefusal(s, start).None? && !(s.bridge.Some? && keepalive.Some? && !s.bridge.value.advisory)
    ensures StartReply(s, start, keepalive) == Ok(())
    ensures var s' := AfterStart(s, app, start, keepalive, saving);
            && s'.generation == s.generation + 1 && s'.token == Some(s.generation + 1)
            && s'.isRunning && s'.lifecycle == Initializing && s'.lastError.None?
            && s'.schedulingDegraded == (if s.bridge.Some? then keepalive else None)
            && s'.app == Some(app) && s'.onComplete.None?
            && s'.cancelled == s.cancelled && s'.terminalReason == s.terminalReason && s'.bridge == s.bridge
            && s'.tasks == s.tasks[s.generation + 1 := Task(Initialising, None, None, None, s.onComplete)]
            && s'.actor == s.actor
  {
  }

  lemma StartOnRecord(s: State, app: nat, start: StartConfig, keepalive: Option<string>, saving: Saving)
    requires StartRefusal(s, start).None? && !(s.bridge.Some? && keepalive.Some? && !s.bridge.value.advisory)
    ensures var s' := AfterStart(s, app, start, keepalive, saving);
            if s.record.Some? && saving.saves then
              s'.record.Some? && WantsStart(s'.record.value, if saving.loads then s.record.value else DEFAULT_STATE, Some(start), saving.now)
            else s'.record == s.record
  {
    SavePromises(s.record, true, Some(start), saving);
  }

  /** A start whose keepalive fails for good. */
  lemma FatalStartPromises(s: State, app: nat, start: StartConfig, error: string, saving: Saving)
    requires StartRefusal(s, start).None? && s.bridge.Some? && !s.bridge.value.advisory
    ensures StartReply(s, start, Some(error)) == Err(Platform(error))
    ensures var s' := AfterStart(s, app, start, Some(error), saving);
            && s'.generation == s.generation + 1 && s'.token.None? && !s'.isRunning && s'.lifecycle == Idle
            && s'.lastError.None? && s'.schedulingDegraded.None? && s'.app == Some(app)
            && s'.onComplete == s.onComplete && s'.tasks == s.tasks && s'.record == s.record
            && s'.cancelled == s.cancelled && s'.terminalReason == s.terminalReason && s'.actor == s.actor
  {
  }

  // ----- the boot block -----

  /** A start replayed at boot is installed for the boot app; without a readable record, an app or
      consent, nothing happens. */
  lemma BootPromises(s: State, bootApp: Option<nat>, consent: bool, loads: bool)
    requires s.actor.Booting?
    ensures var s' := ApplyActor(s, BootReplay(bootApp, consent, loads));
            && (s'.actor.Installed? ==> bootApp.Some? && s'.app == bootApp && s'.token == Some(s.generation + 1))
            && (!s'.actor.Installed? ==> s' == s.(actor := Ready))
            && (bootApp.None? || !consent || !loads || s.record.None? ==> !s'.actor.Installed?)
  {
  }

  // ----- the task -----

  /** The initialised task promotes its own start and reports it. */
  lemma InitPromises(s: State, g: nat)
    requires g in s.tasks
    ensures var s' := AfterInit(s, g);
            && s'.lifecycle == (if s.generation == g && s.lifecycle == Initializing then Running else s.lifecycle)
            && s'.seen.events == s.seen.events + [Emission(g, PluginEvent.Started)]
            && s'.tasks == s.tasks[g := s.tasks[g].(phase := InRun)]
            && s'.token == s.token && s'.isRunning == s.isRunning && s'.lastError == s.lastError && s'.record == s.record
            && s'.seen.fired == s.seen.fired && s'.onComplete == s.onComplete
  {
  }

  /** The cells after a task's cleanup: its own start's are taken down, a later one's are left. */
  predicate TakenDown(s: State, s': State, g: nat, error: Option<string>) {
    if s.generation == g then
      s'.token.None? && !s'.isRunning && s'.lastError == (if error.Some? then error else s.lastError)
    else
      s'.token == s.token && s'.isRunning == s.isRunning && s'.lastError == s.lastError && s'.lifecycle == s.lifecycle
  }

  predicate FiredWith(s: State, s': State, g: nat, callback: Option<nat>, success: bool) {
    s'.seen.fired == if callback.None? then s.seen.fired else s.seen.fired + [Firing(callback.value, g, success)]
  }

  /** A failed init reports its error, takes its start down and fires its callback as failed. */
  lemma FailedInitPromises(s: State, g: nat, error: string)
    requires g in s.tasks && s.tasks[g].explicit.None?
    ensures var s' := AfterFailedInit(s, g, error);
            && s'.seen.events == s.seen.events + [Emission(g, Failure(error))]
            && TakenDown(s, s', g, Some(error))
            && (s.generation == g ==> s'.lifecycle == if s.lifecycle == Initializing then ServiceLifecycle.Stopped else s.lifecycle)
            && FiredWith(s, s', g, s.tasks[g].callback, false)
            && s'.record == s.record && s'.seen.attempts == s.seen.attempts
            && g in s'.tasks && s'.tasks[g].phase == Exited && s'.tasks == s.tasks[g := s'.tasks[g]]
  {
  }

  /** The event with which a run ends: the stop recorded for its generation, its error, or completion. */
  function EndOf(s: State, g: nat, outcome: Outcome): PluginEvent {
    match s.terminalReason
    case Some(Stop(h, reason)) => if h == g then Ended(reason) else Unstopped(outcome)
    case None => Unstopped(outcome)
  }

  function Unstopped(outcome: Outcome): PluginEvent {
    match outcome
    case Finished => Ended(TaskCompleted)
    case Failed(message) => Failure(message)
  }

  /** A run that has returned reports its end. */
  lemma FinishReports(s: State, g: nat, outcome: Outcome, saving: Saving)
    requires g in s.tasks
    ensures AfterRun(s, g, outcome, saving).seen.events == s.seen.events + [Emission(g, EndOf(s, g, outcome))]
  {
  }

  /** It fires its callback with its own result. */
  lemma FinishFires(s: State, g: nat, outcome: Outcome, saving: Saving)
    requires g in s.tasks
    ensures FiredWith(s, AfterRun(s, g, outcome, saving), g, s.tasks[g].callback, outcome == Finished)
  {
  }

  /** It takes its own start down and nothing else. */
  lemma FinishTakesDown(s: State, g: nat, outcome: Outcome, saving: Saving)
    requires g in s.tasks
    ensures var s' := AfterRun(s, g, outcome, saving);
            && TakenDown(s, s', g, if outcome.Failed? then Some(outcome.message) else None)
            && (s.generation == g ==>
                  s'.lifecycle == if s.lifecycle == Initializing || s.lifecycle == Running then ServiceLifecycle.Stopped else s.lifecycle)
            && g in s'.tasks && s'.tasks[g].phase == Exited && s'.tasks == s.tasks[g := s'.tasks[g]]
  {
  }

  /** It clears the intent only if it returned normally and no stop is recorded for its generation. */
  lemma FinishOnRecord(s: State, g: nat, outcome: Outcome, saving: Saving)
    requires g in s.tasks
    ensures var s' := AfterRun(s, g, outcome, saving);
            var stopped := s.terminalReason.Some? && s.terminalReason.value.generation == g;
            if outcome == Finished && !stopped && s.record.Some? && saving.saves then
              s'.record.Some? && WantsNothing(s'.record.value, if saving.loads then s.record.value else DEFAULT_STATE)
            else s'.record == s.record
  {
    SavePromises(s.record, false, None, saving);
  }

  // ----- native authority -----

  /** Reconciliation and a poll follow native; only reconciliation of a native stop takes the token. */
  lemma NativePromises(s: State, native: bool)
    ensures var r, p := AfterReconcile(s, Some(native)), AfterPoll(s, Some(native));
            && r.isRunning == p.isRunning == native
            && r.lifecycle == p.lifecycle
               == (if native == s.isRunning then s.lifecycle else if native then Running else ServiceLifecycle.Stopped)
            && p.token == s.token && p.cancelled == s.cancelled && p.terminalReason == s.terminalReason
            && r.lastError == p.lastError == s.lastError && r.record == p.record == s.record
            && (if s.isRunning && !native && s.token.Some? then
                  && r.token.None? && r.cancelled == s.cancelled + {s.token.value}
                  && r.terminalReason == Some(Stop(s.generation, NativeNotificationStop))
                else r.token == s.token && r.cancelled == s.cancelled && r.terminalReason == s.terminalReason)
    ensures AfterReconcile(s, None) == s && AfterPoll(s, None) == s
  {
  }
}
