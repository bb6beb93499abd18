/** The native authority, and what a status snapshot must say about it. */
module NativeStatus {
  import opened Wrappers
  import opened Models
  import opened DesiredStateRecord

  /** The unified state shown to clients; the actor itself only ever reports these six. */
  datatype LifecycleState = StateIdle | StateStarting | StateRunning | StateStopped | SetupIdle | LockedIdle

  datatype AndroidServiceState = AndroidServiceState(
    nativeRunning: bool,
    nativeForeground: bool,
    durableState: string,
    recoveryPending: bool)

  datatype IosNativeState = IosNativeState(
    desiredRunning: bool,
    refreshScheduled: bool,
    processingScheduled: bool,
    activeTaskKind: Option<string>,
    pendingTask: Option<string>,
    lastRefreshError: Option<string>,
    lastProcessingError: Option<string>,
    inBudget: bool)

  datatype NativeAuthority = Android(android: AndroidServiceState) | Ios(ios: IosNativeState)

  datatype DegradedReason =
    | NativeStoppedRustRunning
    | NativeTimeout
    | StaleTimeout
    | IosSchedulingError
    | IosOutOfBudget
    | ForegroundOnly

  datatype LifecycleStatus = LifecycleStatus(
    state: LifecycleState,
    desiredRunning: bool,
    recoveryEnabled: bool,
    recoveryPending: bool,
    recoveryReason: Option<string>,
    lastStartConfig: Option<StartConfig>,
    lastPlatformState: Option<string>,
    lastPlatformError: Option<string>,
    lastError: Option<string>,
    nativeRunning: Option<bool>,
    nativeForeground: Option<bool>,
    adopted: Option<bool>,
    degraded: Option<bool>,
    degradedReason: Option<DegradedReason>)

  function ToLifecycleState(l: ServiceLifecycle): LifecycleState {
    match l
    case Idle => StateIdle
    case Initializing => StateStarting
    case Running => StateRunning
    case Stopped => StateStopped
  }

  /** The running bit of an Android authority; iOS and desktop have none. */
  function AndroidRunning(authority: Option<NativeAuthority>): Option<bool> {
    if authority.Some? && authority.value.Android? then Some(authority.value.android.nativeRunning) else None
  }

  /** The scheduling error an iOS snapshot carries, refresh first. */
  function ScheduleError(ios: IosNativeState): Option<string> {
    if ios.lastRefreshError.Some? then ios.lastRefreshError else ios.lastProcessingError
  }

  /** Why the status is degraded, in order of precedence: a divergence from native before a native
      timeout, a native scheduling problem before an exhausted budget, and the failure noted at
      start only when native reports nothing. */
  function DegradedBecause(authority: Option<NativeAuthority>, rustRunning: bool, schedulingDegraded: Option<string>)
    : Option<DegradedReason>
  {
    var noted := if schedulingDegraded.Some? then Some(ForegroundOnly) else None;
    match authority
    case None => noted
    case Some(Android(ns)) =>
      if rustRunning && !ns.nativeRunning then Some(NativeStoppedRustRunning)
      else if ns.durableState == "timeout" then Some(if rustRunning then NativeTimeout else StaleTimeout)
      else noted
    case Some(Ios(ios)) =>
      if ScheduleError(ios).Some? then Some(IosSchedulingError)
      else if ios.desiredRunning && !ios.inBudget then Some(IosOutOfBudget)
      else noted
  }

  /** The state a client sees: durable setup and lock states override the lifecycle on Android; on
      iOS a service that neither runs nor is wanted shows as stopped. */
  function ShownState(authority: Option<NativeAuthority>, lifecycle: ServiceLifecycle): LifecycleState {
    match authority
    case None => ToLifecycleState(lifecycle)
    case Some(Android(ns)) =>
      if ns.durableState == "setup_idle" then SetupIdle
      else if ns.durableState == "locked_idle" then LockedIdle
      else ToLifecycleState(lifecycle)
    case Some(Ios(ios)) =>
      if ios.activeTaskKind.None? && !ios.desiredRunning then StateStopped else ToLifecycleState(lifecycle)
  }

  /** The running bit as shown to clients: on iOS it tells whether a background task executes. */
  function ShownNativeRunning(authority: Option<NativeAuthority>): Option<bool> {
    if authority.Some? && authority.value.Ios? then Some(authority.value.ios.activeTaskKind.Some?)
    else AndroidRunning(authority)
  }

  /** Each reason is shown in exactly these cases. */
  lemma ReasonsAreExact(authority: Option<NativeAuthority>, rustRunning: bool, noted: Option<string>)
    ensures var reason := DegradedBecause(authority, rustRunning, noted);
            && (authority.Some? && authority.value.Android? ==>
                  var ns := authority.value.android;
                  && (reason == Some(NativeStoppedRustRunning) <==> rustRunning && !ns.nativeRunning)
                  && (reason == Some(NativeTimeout) <==> rustRunning && ns.nativeRunning && ns.durableState == "timeout")
                  && (reason == Some(StaleTimeout) <==> !rustRunning && ns.durableState == "timeout")
                  && (reason == Some(ForegroundOnly) <==>
                        noted.Some? && ns.durableState != "timeout" && (rustRunning ==> ns.nativeRunning)))
            && (authority.Some? && authority.value.Ios? ==>
                  var ios := authority.value.ios;
                  && (reason == Some(IosSchedulingError) <==> ios.lastRefreshError.Some? || ios.lastProcessingError.Some?)
                  && (reason == Some(IosOutOfBudget) <==>
                        ios.lastRefreshError.None? && ios.lastProcessingError.None? && ios.desiredRunning && !ios.inBudget)
                  && (reason == Some(ForegroundOnly) <==>
                        noted.Some? && ios.lastRefreshError.None? && ios.lastProcessingError.None? && (ios.desiredRunning ==> ios.inBudget)))
            && (authority.None? ==> (reason == Some(ForegroundOnly) <==> noted.Some?))
            && (reason.Some? && authority.None? ==> reason == Some(ForegroundOnly))
  {
  }

  /** Each state is shown in exactly these cases. */
  lemma ShownStatesAreExact(authority: Option<NativeAuthority>, lifecycle: ServiceLifecycle)
    ensures var shown := ShownState(authority, lifecycle);
            var durable := if authority.Some? && authority.value.Android? then authority.value.android.durableState else "";
            var idleIos := authority.Some? && authority.value.Ios? && authority.value.ios.activeTaskKind.None? && !authority.value.ios.desiredRunning;
            var plain := durable != "setup_idle" && durable != "locked_idle" && !idleIos;
            && (shown == SetupIdle <==> durable == "setup_idle")
            && (shown == LockedIdle <==> durable == "locked_idle")
            && (shown == StateIdle <==> plain && lifecycle.Idle?)
            && (shown == StateStarting <==> plain && lifecycle.Initializing?)
            && (shown == StateRunning <==> plain && lifecycle.Running?)
            && (shown == StateStopped <==> idleIos || (plain && lifecycle.Stopped?))
  {
  }

  /** The error shown is the one noted at start with its own reason, else a scheduling error of iOS, the
      refresh task's before the processing one's, and else the record's. */
  lemma ShownErrorsAreExact(authority: Option<NativeAuthority>, reason: Option<DegradedReason>, noted: Option<string>, loaded: Option<DesiredState>)
    ensures var error := ShownError(authority, reason, noted, loaded);
            var refresh := if authority.Some? && authority.value.Ios? then authority.value.ios.lastRefreshError else None;
            var processing := if authority.Some? && authority.value.Ios? then authority.value.ios.lastProcessingError else None;
            && (reason == Some(ForegroundOnly) ==> error == noted)
            && (reason != Some(ForegroundOnly) && refresh.Some? ==> error == refresh)
            && (reason != Some(ForegroundOnly) && refresh.None? && processing.Some? ==> error == processing)
            && (reason != Some(ForegroundOnly) && refresh.None? && processing.None? && loaded.Some? ==>
                  error == loaded.value.lastPlatformError)
            && (reason != Some(ForegroundOnly) && refresh.None? && processing.None? && loaded.None? ==> error.None?)
  {
  }

  /** The running bit is native's own on Android, and tells of an active background task on iOS. */
  lemma ShownRunningIsExact(authority: Option<NativeAuthority>)
    ensures var shown := ShownNativeRunning(authority);
            && (authority.None? ==> shown.None?)
            && (authority.Some? && authority.value.Android? ==> shown == Some(authority.value.android.nativeRunning))
            && (authority.Some? && authority.value.Ios? ==> (shown == Some(true) <==> authority.value.ios.activeTaskKind.Some?) && shown.Some?)
  {
  }

  /** The four phases of an iOS service, by what runs, what waits and what is wanted. */
  predicate PhaseFits(phase: string, ios: IosNativeState) {
    && (phase == "running" <==> ios.activeTaskKind.Some?)
    && (phase == "pendingBgTask" <==> ios.activeTaskKind.None? && ios.pendingTask.Some?)
    && (phase == "waitingForBgTask" <==> ios.activeTaskKind.None? && ios.pendingTask.None? && ios.desiredRunning)
    && (phase == "stopped" <==> ios.activeTaskKind.None? && ios.pendingTask.None? && !ios.desiredRunning)
  }

  /** What a status shows of the loaded record. */
  predicate ShowsRecord(status: LifecycleStatus, loaded: Option<DesiredState>) {
    && status.desiredRunning == status.recoveryEnabled == (loaded.Some? && loaded.value.desiredRunning)
    && status.recoveryReason == (if loaded.Some? then loaded.value.recoveryReason else None)
    && status.lastStartConfig == (if loaded.Some? && loaded.value.lastStartConfig.Some?
                                  then ConfigFromJson(loaded.value.lastStartConfig.value) else None)
    && (loaded.Some? && loaded.value.recoveryPending ==> status.recoveryPending)
  }

  /** What it shows of native, and of the record in native's absence. */
  predicate ShowsNative(status: LifecycleStatus, authority: Option<NativeAuthority>, lifecycle: ServiceLifecycle, loaded: Option<DesiredState>) {
    && status.state == ShownState(authority, lifecycle)
    && status.nativeRunning == ShownNativeRunning(authority)
    && match authority
       case None =>
         && status.nativeForeground.None? && status.recoveryPending == (loaded.Some? && loaded.value.recoveryPending)
         && status.lastPlatformState == if loaded.Some? then loaded.value.lastNativeState else None
       case Some(Android(ns)) =>
         && status.nativeForeground == Some(ns.nativeForeground)
         && (status.recoveryPending <==> (loaded.Some? && loaded.value.recoveryPending) || ns.recoveryPending)
         && status.lastPlatformState == if loaded.Some? then loaded.value.lastNativeState else None
       case Some(Ios(ios)) =>
         && status.nativeForeground == Some(false) && status.recoveryPending == (loaded.Some? && loaded.value.recoveryPending)
         && status.lastPlatformState.Some? && PhaseFits(status.lastPlatformState.value, ios)
  }

  /** The error that goes with the verdict: the one noted at start, native's, or the record's. */
  function ShownError(authority: Option<NativeAuthority>, reason: Option<DegradedReason>, noted: Option<string>, loaded: Option<DesiredState>)
    : Option<string>
  {
    if reason == Some(ForegroundOnly) then noted
    else if authority.Some? && authority.value.Ios? && ScheduleError(authority.value.ios).Some? then ScheduleError(authority.value.ios)
    else if loaded.Some? then loaded.value.lastPlatformError
    else None
  }

  // ----- the iOS bridge -----

  datatype DesiredStatus = DesiredStatus(
    desiredRunning: bool,
    lastTaskKind: Option<string>,
    lastTaskStartedAt: Option<real>,
    lastTaskCompletedAt: Option<real>)

  datatype SchedulingStatus = SchedulingStatus(
    refreshScheduled: bool,
    processingScheduled: bool,
    refreshError: Option<string>,
    processingError: Option<string>)

  /** Assembles the snapshot from the three queries; no desired status, no snapshot. */
  function AssembleIosState(desired: Option<DesiredStatus>, sched: Option<SchedulingStatus>, pending: Option<string>)
    : Option<IosNativeState>
  {
    match desired
    case None => None
    case Some(d) =>
      var active :=
        if d.lastTaskStartedAt.None? then None
        else if d.lastTaskCompletedAt.None? || d.lastTaskStartedAt.value > d.lastTaskCompletedAt.value then d.lastTaskKind
        else None;
      var inBudget :=
        sched.None? || sched.value.refreshScheduled || sched.value.processingScheduled
        || (sched.value.refreshError.None? && sched.value.processingError.None?);
      Some(IosNativeState(
             d.desiredRunning,
             sched.Some? && sched.value.refreshScheduled,
             sched.Some? && sched.value.processingScheduled,
             active,
             pending,
             if sched.Some? then sched.value.refreshError else None,
             if sched.Some? then sched.value.processingError else None,
             inBudget))
  }

  /** A background task counts as active exactly if its kind is known, it has started, and it has not
      completed since. */
  predicate TaskIsActive(d: DesiredStatus) {
    && d.lastTaskKind.Some? && d.lastTaskStartedAt.Some?
    && (d.lastTaskCompletedAt.Some? ==> d.lastTaskCompletedAt.value < d.lastTaskStartedAt.value)
  }

  /** An assembled snapshot carries over what the queries said. */
  lemma SnapshotIsExact(d: DesiredStatus, sched: Option<SchedulingStatus>, pending: Option<string>)
    ensures var ios := AssembleIosState(Some(d), sched, pending);
            && ios.Some? && ios.value.desiredRunning == d.desiredRunning && ios.value.pendingTask == pending
            && ios.value.activeTaskKind == (if TaskIsActive(d) then d.lastTaskKind else None)
            && (sched.Some? ==>
                  && ios.value.refreshScheduled == sched.value.refreshScheduled
                  && ios.value.processingScheduled == sched.value.processingScheduled
                  && ios.value.lastRefreshError == sched.value.refreshError
                  && ios.value.lastProcessingError == sched.value.processingError)
            && (sched.None? ==> ios.value.inBudget && !ios.value.refreshScheduled && !ios.value.processingScheduled
                                && ScheduleError(ios.value).None?)
  {
  }

  /** An assembled snapshot is out of budget exactly when an attempt was made, scheduled nothing and
      left an error; so it always carries a concrete error, and the reason shown is that error:
      "out of budget" alone never is. */
  lemma OutOfBudgetHasError(desired: Option<DesiredStatus>, sched: Option<SchedulingStatus>, pending: Option<string>,
                            rustRunning: bool, noted: Option<string>)
    ensures var ios := AssembleIosState(desired, sched, pending);
            ios.Some? ==>
              && (!ios.value.inBudget <==>
                    sched.Some? && !ios.value.refreshScheduled && !ios.value.processingScheduled
                    && ScheduleError(ios.value).Some?)
              && (!ios.value.inBudget ==> DegradedBecause(Some(Ios(ios.value)), rustRunning, noted) == Some(IosSchedulingError))
              && DegradedBecause(Some(Ios(ios.value)), rustRunning, noted) != Some(IosOutOfBudget)
  {
  }
}
