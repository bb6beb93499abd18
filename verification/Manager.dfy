/** The actor's own state and its command handlers, as the code updates it field by field.

    Each handler is proved against the step functions of `Lifecycle`: run without interference it
    takes the state where the composition of its steps takes it. */
module Manager {
  import opened Wrappers
  import opened Models
  import opened DesiredStateRecord
  import opened Intent
  import opened Lifecycle
  import opened Handlers
  import opened NativeStatus

  class ServiceManager {
    const config: Config
    var token: Option<nat>
    var cancelled: set<nat>
    var generation: nat
    var isRunning: bool
    var lifecycleState: ServiceLifecycle
    var lastError: Option<string>
    var schedulingDegraded: Option<string>
    var terminalReason: Option<Stop>
    var onComplete: Option<nat>
    var app: Option<nat>
    var mobile: Option<Bridge>
    var desiredState: Option<DesiredState>
    ghost var tasks: map<nat, Task>
    ghost var actor: ActorPc
    ghost var seen: History

    ghost function Snapshot(): State
      reads this
    {
      State(config, token, cancelled, generation, isRunning, lifecycleState, lastError, schedulingDegraded,
            terminalReason, onComplete, app, mobile, desiredState, actor, tasks, seen)
    }

    constructor (config: Config, record: Option<DesiredState>)
      ensures Snapshot() == Boot(config, record)
    {
      this.config := config;
      token, cancelled, generation, isRunning := None, {}, 0, false;
      lifecycleState, lastError, schedulingDegraded, terminalReason := Idle, None, None, None;
      onComplete, app, mobile, desiredState, tasks := None, None, None, record, map[];
      actor, seen := Booting, NO_HISTORY;
    }

    // ----- desired state -----

    /** Load, rewrite, save; failures are only logged. */
    method SaveDesiredRunning(desired: bool, start: Option<StartConfig>, saving: Saving, ghost e: IntentEvent)
      modifies this`desiredState, this`seen
      ensures Snapshot() == Persist(old(Snapshot()), desired, start, saving, e)
    {
      seen := seen.(attempts := seen.attempts + [Attempt(e, desiredState.Some? && saving.saves)]);
      if desiredState.None? {
        return;
      }
      var ds := if saving.loads then desiredState.value else DEFAULT_STATE;
      ds := ds.(desiredRunning := desired);
      if desired {
        ds := ds.(lastStartConfig := ConfigJson(start), lastStartEpochMs := Some(saving.now));
      } else {
        ds := ds.(lastStartConfig := None, lastStartEpochMs := None);
        ds := ds.(recoveryPending := false, recoveryReason := None, restartAttempt := 0);
      }
      if saving.saves {
        desiredState := Some(ds);
      }
    }

    method HandleSetDesiredRunning(desired: bool, start: Option<StartConfig>, saving: Saving)
      requires actor.Ready?
      modifies this`desiredState, this`seen
      ensures Snapshot() == ApplyActor(old(Snapshot()), Declare(desired, start, saving))
    {
      seen := seen.(accepted := seen.accepted + [Declared(desired, start)]);
      SaveDesiredRunning(desired, if desired then start else None, saving, Declared(desired, start));
      seen := seen.(acknowledged := seen.accepted);
    }

    // ----- start and stop -----

    /** The checks of a start, before it has any effect. */
    method CheckStart(start: StartConfig) returns (refusal: Option<ServiceError>)
      ensures refusal == StartRefusal(Snapshot(), start)
    {
      if token.Some? {
        return Some(AlreadyRunning);
      }
      if mobile.Some? && mobile.value.enforcesTypes {
        var valid := ValidateForegroundServiceType(start.foregroundServiceType);
        if valid.Err? {
          return Some(valid.error);
        }
      }
      var allowed := ValidateAgainstAllowlist(start.foregroundServiceType, config.allowlist, config.validateTypes, config.casing);
      if allowed.Err? {
        return Some(allowed.error);
      }
      return None;
    }

    method ShowAs(running: bool, lifecycle: ServiceLifecycle)
      modifies this`isRunning, this`lifecycleState
      ensures Snapshot() == old(Snapshot()).(isRunning := running, lifecycle := lifecycle)
    {
      isRunning := running;
      lifecycleState := lifecycle;
    }

    method ClearMarkers()
      modifies this`lastError, this`schedulingDegraded
      ensures Snapshot() == old(Snapshot()).(lastError := None, schedulingDegraded := None)
    {
      lastError := None;
      schedulingDegraded := None;
    }

    /** The locked section of an accepted start. */
    method InstallToken(newApp: nat, start: StartConfig)
      requires StartRefusal(Snapshot(), start).None?
      modifies this
      ensures Snapshot() == Install(old(Snapshot()), newApp, start).(actor := old(actor))
    {
      app := Some(newApp);
      generation := generation + 1;
      token := Some(generation);
      ShowAs(true, Initializing);
      ClearMarkers();
      seen := seen.(installs := seen.installs + 1, errorWriter := None, stalePromotion := false);
    }

    /** The keepalive call, if there is a bridge; a failure is fatal unless the bridge is advisory. */
    method StartKeepalive(start: StartConfig, error: Option<string>) returns (fatal: bool)
      modifies this`schedulingDegraded, this`seen
      ensures Snapshot() == Keepalive(old(Snapshot()), start, None, error).(actor := old(actor))
      ensures fatal == FatalFailure(old(Snapshot()), error)
    {
      if mobile.None? {
        return false;
      }
      seen := seen.(typeCalls := seen.typeCalls + [TypeCall(start.foregroundServiceType, mobile.value.enforcesTypes)]);
      if error.Some? && mobile.value.advisory {
        schedulingDegraded := error;
      }
      return error.Some? && !mobile.value.advisory;
    }

    method RollBack(captured: Option<nat>)
      requires token.Some?
      modifies this
      ensures Snapshot() == ReleaseToken(old(Snapshot())).(isRunning := false, lifecycle := Idle, onComplete := captured)
    {
      token := None;
      ShowAs(false, Idle);
      onComplete := captured;
      seen := seen.(releases := seen.releases + 1);
    }

    /** Spawns the task with its callback, and saves the intent. */
    method SpawnTask(start: StartConfig, captured: Option<nat>, saving: Saving)
      modifies this`tasks, this`desiredState, this`seen
      ensures Snapshot() == SpawnedAndSaved(old(Snapshot()), start, captured, saving)
    {
      tasks := tasks[generation := Task(Initialising, None, None, None, captured)];
      seen := Taken(Snapshot(), captured).seen;
      seen := seen.(accepted := seen.accepted + [Launched(generation, start)]);
      SaveDesiredRunning(true, Some(start), saving, Launched(generation, start));
      seen := seen.(acknowledged := seen.accepted);
    }

    method HandleStart(newApp: nat, start: StartConfig, keepalive: Option<string>, saving: Saving)
      returns (r: Result<(), ServiceError>)
      requires actor.Ready?
      modifies this
      ensures Snapshot() == AfterStart(old(Snapshot()), newApp, start, keepalive, saving)
      ensures r == StartReply(old(Snapshot()), start, keepalive)
    {
      var refusal := CheckStart(start);
      if refusal.Some? {
        return Err(refusal.value);
      }
      StartInStages(Snapshot(), newApp, start, keepalive, saving);
      InstallToken(newApp, start);
      var captured := onComplete;
      onComplete := None;
      var fatal := StartKeepalive(start, keepalive);
      if fatal {
        RollBack(captured);
        return Err(Platform(keepalive.value));
      }
      SpawnTask(start, captured, saving);
      return Ok(());
    }

    /** The locked section of a stop that finds a token. */
    method TakeToken(reason: StopReason)
      requires token.Some?
      modifies this
      ensures Snapshot() == TakeForStop(old(Snapshot()), reason).(actor := old(actor))
    {
      terminalReason := Some(Stop(generation, reason));
      cancelled := cancelled + {token.value};
      token := None;
      ShowAs(false, Stopped);
      ClearMarkers();
      seen := seen.(releases := seen.releases + 1, stops := seen.stops + [Stop(generation, reason)], errorWriter := None,
                    accepted := seen.accepted + [Halted(reason)]);
    }

    method HandleStopWithReason(reason: StopReason, saving: Saving) returns (r: Result<(), ServiceError>)
      requires actor.Ready?
      modifies this
      ensures Snapshot() == AfterStop(old(Snapshot()), reason, saving)
      ensures r == if old(token).Some? then Ok(()) else Err(NotRunning)
    {
      if token.None? {
        return Err(NotRunning);
      }
      TakeToken(reason);
      if ShouldClearDesiredState(reason) {
        SaveDesiredRunning(false, None, saving, Halted(reason));
      } else {
        seen := seen.(attempts := seen.attempts + [Attempt(Halted(reason), true)]);
      }
      seen := seen.(acknowledged := seen.accepted);
      return Ok(());
    }

    /** An acceptance event is not a stop and leaves the run state alone. */
    method HandleNativeLifecycleEvent(event: NativeLifecycleEvent, saving: Saving) returns (r: Result<(), ServiceError>)
      requires actor.Ready?
      modifies this
      ensures Snapshot() == if IsRecoveryAcceptance(event) then old(Snapshot())
                            else AfterStop(old(Snapshot()), ToStopReason(event), saving)
      ensures event.AndroidOsRestartAccepted? || event.AndroidBootRecoveryAccepted? ==>
                r == Ok(()) && Snapshot() == old(Snapshot())
      ensures event.AndroidTimeout? && old(token).Some? ==>
                terminalReason == Some(Stop(generation, PlatformTimeout)) && desiredState == old(desiredState)
      ensures event.IosBgTaskExpired? && old(token).Some? ==>
                terminalReason == Some(Stop(generation, PlatformExpiration)) && desiredState == old(desiredState)
      ensures event.AndroidNotificationStop? && old(token).Some? ==>
                && terminalReason == Some(Stop(generation, NativeNotificationStop))
                && (saving.saves && old(desiredState).Some? ==>
                      desiredState.Some? && !desiredState.value.desiredRunning && desiredState.value.lastStartConfig.None?)
                && (!saving.saves ==> desiredState == old(desiredState))
      ensures event.AndroidTimeout? || event.IosBgTaskExpired? || event.AndroidNotificationStop? ==>
                && r == (if old(token).Some? then Ok(()) else Err(NotRunning))
                && (old(token).None? ==> Snapshot() == old(Snapshot()))
                && token.None? && generation == old(generation)
                && (old(token).Some? ==> old(token).value in cancelled)
    {
      if IsRecoveryAcceptance(event) {
        return Ok(());
      }
      r := HandleStopWithReason(ToStopReason(event), saving);
    }

    method HandleUpdateForegroundServiceType(fgType: string, swap: Option<string>) returns (r: Result<(), ServiceError>)
      requires actor.Ready?
      modifies this`seen
      ensures Snapshot() == ApplyActor(old(Snapshot()), UpdateType(fgType))
      ensures r == if token.None? then Err(NotRunning)
                   else if TypeRefusal(old(Snapshot()), fgType).Err? then TypeRefusal(old(Snapshot()), fgType)
                   else if mobile.Some? && mobile.value.enforcesTypes && swap.Some? then Err(Platform(swap.value))
                   else Ok(())
    {
      if token.None? {
        return Err(NotRunning);
      }
      var enforces := mobile.Some? && mobile.value.enforcesTypes;
      if enforces {
        var valid := ValidateForegroundServiceType(fgType);
        if valid.Err? {
          return valid;
        }
      }
      var allowed := ValidateAgainstAllowlist(fgType, config.allowlist, config.validateTypes, config.casing);
      if allowed.Err? {
        return allowed;
      }
      if enforces {
        seen := seen.(typeCalls := seen.typeCalls + [TypeCall(fgType, true)]);
        if swap.Some? {
          return Err(Platform(swap.value));
        }
      }
      return Ok(());
    }

    /** Callbacks are named in the order in which they are set. */
    method HandleSetOnComplete(callback: nat)
      requires actor.Ready? && callback == seen.callbacksSet
      modifies this`onComplete, this`seen
      ensures Snapshot() == ApplyActor(old(Snapshot()), SetOnComplete)
    {
      seen := seen.(callbacksSet := seen.callbacksSet + 1,
                    replaced := if onComplete.Some? then seen.replaced + [onComplete.value] else seen.replaced);
      onComplete := Some(callback);
    }

    // ----- native authority -----

    method ReconcileRunningWithNative(authority: Option<NativeAuthority>) returns (running: bool)
      requires actor.Ready?
      modifies this
      ensures Snapshot() == AfterReconcile(old(Snapshot()), AndroidRunning(authority))
      ensures running == isRunning
      ensures AndroidRunning(authority).Some? ==> running == AndroidRunning(authority).value
    {
      var rustRunning := isRunning;
      if authority.None? || authority.value.Ios? {
        return rustRunning;
      }
      var native := authority.value.android;
      if native.nativeRunning == rustRunning {
        return rustRunning;
      }
      isRunning := native.nativeRunning;
      lifecycleState := if native.nativeRunning then Running else Stopped;
      if !native.nativeRunning && token.Some? {
        cancelled := cancelled + {token.value};
        token := None;
        terminalReason := Some(Stop(generation, NativeNotificationStop));
        seen := seen.(releases := seen.releases + 1, stops := seen.stops + [Stop(generation, NativeNotificationStop)]);
      }
      return native.nativeRunning;
    }

    /** Rules 1 to 5 of the merge: adopt, heal or agree, then look for a native timeout. */
    method MergeAndroid(ns: AndroidServiceState)
      returns (adopted: Option<bool>, degraded: Option<bool>, reason: Option<DegradedReason>, mismatch: bool)
      requires actor.Ready?
      modifies this`isRunning, this`lifecycleState
      ensures Snapshot() == AfterPoll(old(Snapshot()), Some(ns.nativeRunning))
      ensures degraded == Some(reason.Some?)
      ensures reason == DegradedBecause(Some(Android(ns)), old(isRunning), None)
      ensures mismatch <==> reason == Some(NativeStoppedRustRunning)
      ensures adopted == Some(true) <==> ns.nativeRunning && !old(isRunning)
      ensures adopted.None? <==> !ns.nativeRunning && old(isRunning)
    {
      var rustRunning := isRunning;
      adopted, degraded, reason, mismatch := Some(false), Some(false), None, false;
      if ns.nativeRunning && !rustRunning {
        isRunning := true;
        lifecycleState := Running;
        adopted := Some(true);
      } else if !ns.nativeRunning && rustRunning {
        isRunning := false;
        lifecycleState := Stopped;
        adopted, degraded, reason, mismatch := None, Some(true), Some(NativeStoppedRustRunning), true;
      }
      if degraded != Some(true) && ns.durableState == "timeout" {
        degraded, reason := Some(true), Some(if rustRunning then NativeTimeout else StaleTimeout);
      }
    }

    /** The iOS branch: a scheduling error before an exhausted budget. */
    method ReportIos(ios: IosNativeState) returns (phase: string, degraded: bool, reason: Option<DegradedReason>)
      ensures PhaseFits(phase, ios)
      ensures reason == DegradedBecause(Some(Ios(ios)), isRunning, None)
      ensures degraded == reason.Some?
    {
      phase :=
        if ios.activeTaskKind.Some? then "running"
        else if ios.pendingTask.Some? then "pendingBgTask"
        else if ios.desiredRunning then "waitingForBgTask"
        else "stopped";
      if ios.lastRefreshError.Some? || ios.lastProcessingError.Some? {
        return phase, true, Some(IosSchedulingError);
      } else if ios.desiredRunning && !ios.inBudget {
        return phase, true, Some(IosOutOfBudget);
      } else {
        return phase, false, None;
      }
    }

    /** What native says about the service's health, merged into the actor's cells. */
    method MergeAuthority(authority: Option<NativeAuthority>)
      returns (adopted: Option<bool>, degraded: Option<bool>, reason: Option<DegradedReason>, mismatch: bool, phase: Option<string>)
      requires actor.Ready?
      modifies this`isRunning, this`lifecycleState
      ensures Snapshot() == AfterPoll(old(Snapshot()), AndroidRunning(authority))
      ensures degraded == if authority.None? then None else Some(reason.Some?)
      ensures reason == DegradedBecause(authority, old(isRunning), None)
      ensures mismatch <==> reason == Some(NativeStoppedRustRunning)
      ensures adopted == Some(true) <==> AndroidRunning(authority) == Some(true) && !old(isRunning)
      ensures adopted.None? <==> AndroidRunning(authority).None? || (AndroidRunning(authority) == Some(false) && old(isRunning))
      ensures authority.Some? && authority.value.Ios? ==>
                phase.Some? && PhaseFits(phase.value, authority.value.ios)
    {
      adopted, degraded, reason, mismatch, phase := None, None, None, false, None;
      match authority {
        case None =>
        case Some(Android(ns)) =>
          adopted, degraded, reason, mismatch := MergeAndroid(ns);
        case Some(Ios(ios)) =>
          var reported, unhealthy, because := ReportIos(ios);
          degraded, reason, phase := Some(unhealthy), because, Some(reported);
      }
    }

    method ShowState(authority: Option<NativeAuthority>) returns (shown: LifecycleState)
      ensures shown == ShownState(authority, lifecycleState)
    {
      shown := ToLifecycleState(lifecycleState);
      match authority {
        case None =>
        case Some(Android(ns)) =>
          if ns.durableState == "setup_idle" {
            shown := SetupIdle;
          } else if ns.durableState == "locked_idle" {
            shown := LockedIdle;
          }
        case Some(Ios(ios)) =>
          if ios.activeTaskKind.None? && !ios.desiredRunning {
            shown := StateStopped;
          }
      }
    }

    /** The error to show, and the verdict: a native problem before the one noted at start. */
    method ExplainVerdict(ios: Option<IosNativeState>, stored: Option<string>, healthy: Option<bool>, found: Option<DegradedReason>)
      returns (error: Option<string>, degraded: Option<bool>, reason: Option<DegradedReason>)
      requires healthy == Some(true) <==> found.Some?
      ensures reason == if found.Some? then found else if schedulingDegraded.Some? then Some(ForegroundOnly) else None
      ensures degraded == if reason.Some? then Some(true) else healthy
      ensures error == if reason == Some(ForegroundOnly) && found.None? then schedulingDegraded
                       else if ios.Some? && ScheduleError(ios.value).Some? then ScheduleError(ios.value)
                       else stored
    {
      error, degraded, reason := stored, healthy, found;
      if ios.Some? && ScheduleError(ios.value).Some? {
        error := ScheduleError(ios.value);
      }
      if degraded != Some(true) && schedulingDegraded.Some? {
        error, degraded, reason := schedulingDegraded, Some(true), Some(ForegroundOnly);
      }
    }

    /** The rest of the status, from what the merge found. */
    method AssembleStatus(authority: Option<NativeAuthority>, loads: bool, adopted: Option<bool>, healthy: Option<bool>,
                          found: Option<DegradedReason>, phase: Option<string>)
      returns (status: LifecycleStatus)
      requires healthy == if authority.None? then None else Some(found.Some?)
      requires (authority.None? ==> found.None?) && found != Some(ForegroundOnly)
      requires found == Some(IosSchedulingError) <==>
                 authority.Some? && authority.value.Ios? && ScheduleError(authority.value.ios).Some?
      requires authority.Some? && authority.value.Ios? ==> phase.Some? && PhaseFits(phase.value, authority.value.ios)
      ensures status.adopted == adopted && status.lastError == lastError
      ensures ShowsRecord(status, if loads then desiredState else None)
      ensures ShowsNative(status, authority, lifecycleState, if loads then desiredState else None)
      ensures status.lastPlatformError == ShownError(authority, status.degradedReason, schedulingDegraded, if loads then desiredState else None)
      ensures status.degradedReason == if found.Some? then found else if schedulingDegraded.Some? then Some(ForegroundOnly) else None
      ensures status.degraded == Some(true) <==> status.degradedReason.Some?
      ensures status.degraded.None? <==> authority.None? && schedulingDegraded.None?
    {
      var desired := if loads then desiredState else None;
      var desiredRunning := desired.Some? && desired.value.desiredRunning;
      var lastStartConfig := if desired.Some? && desired.value.lastStartConfig.Some?
                             then ConfigFromJson(desired.value.lastStartConfig.value) else None;
      var lastPlatformState := if desired.Some? then desired.value.lastNativeState else None;
      var lastPlatformError := if desired.Some? then desired.value.lastPlatformError else None;
      var recoveryPending := desired.Some? && desired.value.recoveryPending;
      var nativeRunning, nativeForeground: Option<bool> := None, None;
      var snapshot: Option<IosNativeState> := None;
      match authority {
        case None =>
        case Some(Android(ns)) =>
          nativeRunning, nativeForeground := Some(ns.nativeRunning), Some(ns.nativeForeground);
          recoveryPending := recoveryPending || ns.recoveryPending;
        case Some(Ios(ios)) =>
          nativeRunning, nativeForeground, lastPlatformState := Some(ios.activeTaskKind.Some?), Some(false), phase;
          snapshot := Some(ios);
      }
      var error, degraded, reason := ExplainVerdict(snapshot, lastPlatformError, healthy, found);
      var shown := ShowState(authority);
      status := LifecycleStatus(
        shown, desiredRunning, desiredRunning, recoveryPending,
        if desired.Some? then desired.value.recoveryReason else None,
        lastStartConfig, lastPlatformState, error, lastError,
        nativeRunning, nativeForeground, adopted, degraded, reason);
    }

    /** The merged status.  `loads` tells whether the record can be read; `emitted` whether the
        degraded event was sent: on a mismatch, or for any of the other degraded reasons. */
    method BuildLifecycleStatus(authority: Option<NativeAuthority>, loads: bool)
      returns (status: LifecycleStatus, emitted: bool)
      requires actor.Ready?
      modifies this`isRunning, this`lifecycleState
      ensures Snapshot() == AfterPoll(old(Snapshot()), AndroidRunning(authority))
      ensures ShowsRecord(status, if loads then desiredState else None)
      ensures ShowsNative(status, authority, lifecycleState, if loads then desiredState else None)
      ensures status.lastPlatformError == ShownError(authority, status.degradedReason, schedulingDegraded, if loads then desiredState else None)
      ensures status.degradedReason == DegradedBecause(authority, old(isRunning), schedulingDegraded)
      ensures status.degraded == Some(true) <==> status.degradedReason.Some?
      ensures status.degraded.None? <==> authority.None? && schedulingDegraded.None?
      ensures emitted <==> app.Some? && status.degraded == Some(true)
      ensures status.adopted == Some(true) <==> AndroidRunning(authority) == Some(true) && !old(isRunning)
      ensures status.adopted.None? <==> AndroidRunning(authority).None? || (AndroidRunning(authority) == Some(false) && old(isRunning))
      ensures status.degradedReason == Some(IosSchedulingError) ==>
                status.lastPlatformError == ScheduleError(authority.value.ios) && status.lastPlatformError.Some?
      ensures status.degradedReason == Some(ForegroundOnly) ==> status.lastPlatformError == schedulingDegraded
      ensures status.lastError == lastError
    {
      var adopted, healthy, found, mismatch, phase := MergeAuthority(authority);
      status := AssembleStatus(authority, loads, adopted, healthy, found, phase);
      emitted := app.Some? && (mismatch || (status.degraded == Some(true) && !status.degradedReason.value.NativeStoppedRustRunning?));
    }

    /** The status command on iOS, from the bridge's three queries to the reply.  An exhausted budget
        always surfaces with a concrete scheduling error, and as an event if there is an app. */
    method PollIosBridge(desired: Option<DesiredStatus>, sched: Option<SchedulingStatus>, pending: Option<string>, loads: bool)
      returns (status: LifecycleStatus, emitted: bool)
      requires actor.Ready?
      modifies this`isRunning, this`lifecycleState
      ensures Snapshot() == old(Snapshot())
      ensures var ios := AssembleIosState(desired, sched, pending);
              ios.Some? && !ios.value.inBudget ==>
                && status.lastPlatformError.Some? && status.lastPlatformError == ScheduleError(ios.value)
                && status.degraded == Some(true) && status.degradedReason == Some(IosSchedulingError)
                && (app.Some? ==> emitted)
      ensures status.degradedReason != Some(IosOutOfBudget)
      ensures desired.Some? ==>
                && (status.nativeRunning == Some(true) <==>
                      && desired.value.lastTaskKind.Some? && desired.value.lastTaskStartedAt.Some?
                      && (desired.value.lastTaskCompletedAt.Some? ==>
                            desired.value.lastTaskCompletedAt.value < desired.value.lastTaskStartedAt.value))
                && (status.lastPlatformState == Some("running") <==> status.nativeRunning == Some(true))
                && (status.lastPlatformState == Some("pendingBgTask") <==> status.nativeRunning != Some(true) && pending.Some?)
                && (status.lastPlatformState == Some("waitingForBgTask") <==>
                      status.nativeRunning != Some(true) && pending.None? && desired.value.desiredRunning)
      ensures desired.None? ==> status.nativeRunning.None?
    {
      var ios := AssembleIosState(desired, sched, pending);
      OutOfBudgetHasError(desired, sched, pending, isRunning, schedulingDegraded);
      status, emitted := BuildLifecycleStatus(if ios.None? then None else Some(Ios(ios.value)), loads);
    }

    // ----- the spawned task -----

    // The locals of the task's body are parameters here; `task` is its entry in the task table at
    // that point.

    /** The guarded cleanup, under the token lock: `ran` tells which of the two paths it ends. */
    method CleanUpTask(g: nat, failure: Option<string>, ran: bool, ghost task: Task)
      requires ran == task.phase.Notified?
      requires task.outcome == Some(match failure case Some(m) => Failed(m) case None => Finished)
      modifies this
      ensures Snapshot() == CleanUp(old(Snapshot()), g, task)
    {
      if generation != g {
        return;
      }
      seen := if token.Some? then seen.(releases := seen.releases + 1) else seen;
      token := None;
      var ended := lifecycleState.Initializing? || (ran && lifecycleState.Running?);
      ShowAs(false, if ended then Stopped else lifecycleState);
      if failure.Some? {
        lastError := failure;
        seen := seen.(errorWriter := Some(g));
      }
    }

    /** The task up to its run: a failed init reports, cleans up and fires; a successful one
        promotes the lifecycle and emits Started. */
    method TaskInit(g: nat, error: Option<string>)
      requires g in tasks && tasks[g].phase.Initialising?
      modifies this
      ensures Snapshot() == match error case None => AfterInit(old(Snapshot()), g)
                                        case Some(e) => AfterFailedInit(old(Snapshot()), g, e)
    {
      ghost var table := tasks;
      if error.Some? {
        ghost var task := table[g].(phase := InitReported, outcome := Some(Failed(error.value)));
        seen := seen.(events := seen.events + [Emission(g, TerminalEvent(task))]);
        CleanUpTask(g, error, false, task);
        seen := Lifecycle.FireCallback(Snapshot(), g, task).seen;
        tasks := table[g := task.(phase := Exited, callback := None)];
        return;
      }
      if generation == g && lifecycleState.Initializing? {
        lifecycleState := Running;
      }
      seen := seen.(events := seen.events + [Emission(g, Started)]);
      tasks := table[g := table[g].(phase := InRun)];
    }

    /** Emits the terminal event; a natural completion clears the intent. */
    method ReportEnd(g: nat, explicit: Option<StopReason>, failure: Option<string>, saving: Saving, ghost task: Task)
      requires task.explicit == explicit
      requires task.outcome == Some(match failure case Some(m) => Failed(m) case None => Finished)
      modifies this`desiredState, this`seen
      ensures Snapshot() == var emitted := Emit(old(Snapshot()), g, TerminalEvent(task));
                            if CompletedNaturally(task) then Settle(emitted, g, saving) else emitted
    {
      seen := seen.(events := seen.events + [Emission(g, TerminalEvent(task))]);
      if explicit.None? && failure.None? {
        seen := seen.(accepted := seen.accepted + [Completed(g)], acknowledged := seen.acknowledged + [Completed(g)]);
        SaveDesiredRunning(false, None, saving, Completed(g));
      }
    }

    /** The task from the return of its run: classify, emit, settle the intent, fire, clean up. */
    method TaskFinish(g: nat, failure: Option<string>, saving: Saving)
      requires g in tasks && tasks[g].phase.InRun?
      modifies this
      ensures var outcome := match failure case Some(m) => Failed(m) case None => Finished;
              Snapshot() == AfterRun(old(Snapshot()), g, outcome, saving)
    {
      ghost var table := tasks;
      var explicit := if terminalReason.Some? && terminalReason.value.generation == g
                      then Some(terminalReason.value.reason) else None;
      ghost var outcome := match failure case Some(m) => Failed(m) case None => Finished;
      ghost var task := table[g].(phase := Reported, outcome := Some(outcome), explicit := explicit, seen := Some(|seen.stops|));
      ReportEnd(g, explicit, failure, saving, task);
      seen := Lifecycle.FireCallback(Snapshot(), g, task).seen;
      CleanUpTask(g, failure, true, task.(phase := Notified));
      tasks := table[g := task.(phase := Exited, callback := None)];
    }
  }
}
