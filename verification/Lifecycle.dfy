/** The service-lifecycle actor and its spawned tasks as a transition system.

    One step is one section of the code that no other thread can observe half done: a section under
    the token lock, one write to an unlocked cell, or one native call.  The actor runs one command
    at a time; each accepted start spawns a task, and any number of tasks, including those of
    stopped generations, interleave with the actor and with each other. */
module Lifecycle {
  import opened Wrappers
  import opened Models
  import opened DesiredStateRecord
  import opened Intent

  // ----- state -----

  /** The actor's program counter inside a command. */
  datatype ActorPc =
    | Booting
    | Ready
    | Installed(config: StartConfig)
    | Captured(config: StartConfig, callback: Option<nat>)
    | Kept(config: StartConfig, callback: Option<nat>)
    | RollingBack(callback: Option<nat>)
    | TokenReturned(callback: Option<nat>)
    | Spawned(config: StartConfig)
    | Stopping(reason: StopReason)
    | Comparing(seen: bool)
    | Converging(native: bool)
    | Releasing
    | Recording
    | Polling(seen: bool)
    | Merging(lifecycle: ServiceLifecycle)

  /** A task's program counter: what it is about to do.  The first line is the prefix that every
      task starts on, the second the path of a failed init, the rest that of a successful one. */
  datatype Phase =
    | Initialising
    | InitFailed | InitReported | InitCleaned
    | InitDone | Checked(current: bool) | Promoted
    | InRun | Returned | Classified | Reported | Settled | Notified
    | Exited

  datatype Outcome = Finished | Failed(message: string)

  /** `seen` is the number of explicit stops recorded when the task read the reason slot; only a
      task whose init succeeded gets there. */
  datatype Task = Task(
    phase: Phase,
    outcome: Option<Outcome>,
    explicit: Option<StopReason>,
    seen: Option<nat>,
    callback: Option<nat>)

  datatype Bridge = Bridge(enforcesTypes: bool, advisory: bool)

  /** `casing` is the platform's lower case of the strings beyond ASCII that a run compares. */
  datatype Config = Config(mode: LifecycleMode, allowlist: seq<string>, validateTypes: bool, casing: map<string, string>)

  datatype Emission = Emission(generation: nat, event: PluginEvent)

  datatype Stop = Stop(generation: nat, reason: StopReason)

  /** A spawned task took this callback with it. */
  datatype Capture = Capture(callback: nat, generation: nat)

  datatype Firing = Firing(callback: nat, generation: nat, success: bool)

  /** A foreground service type handed to the bridge, and whether that bridge enforces types. */
  datatype TypeCall = TypeCall(fgType: string, enforced: bool)

  /** What an observer has seen; no step reads it, and only the last three outlive the process.
      `accepted` lists the events that bear on the intent when they are decided, `acknowledged` when
      their command is answered, and `attempts` when their save is attempted.  A command in
      flight when the process dies is never answered: the next process starts from what was. */
  datatype History = History(
    events: seq<Emission>,
    stops: seq<Stop>,
    captures: seq<Capture>,
    fired: seq<Firing>,
    replaced: seq<nat>,
    callbacksSet: nat,
    installs: nat,
    releases: nat,
    errorWriter: Option<nat>,
    stalePromotion: bool,
    typeCalls: seq<TypeCall>,
    accepted: seq<IntentEvent>,
    acknowledged: seq<IntentEvent>,
    attempts: seq<Attempt>)

  /** A token is named by the generation it was created for. */
  datatype State = State(
    config: Config,
    token: Option<nat>,
    cancelled: set<nat>,
    generation: nat,
    isRunning: bool,
    lifecycle: ServiceLifecycle,
    lastError: Option<string>,
    schedulingDegraded: Option<string>,
    terminalReason: Option<Stop>,
    onComplete: Option<nat>,
    app: Option<nat>,
    bridge: Option<Bridge>,
    record: Option<DesiredState>,
    actor: ActorPc,
    tasks: map<nat, Task>,
    seen: History)

  const NO_HISTORY := History([], [], [], [], [], 0, 0, 0, None, false, [], [], [], [])

  /** A fresh process. */
  function Boot(config: Config, record: Option<DesiredState>): State {
    State(config, None, {}, 0, false, Idle, None, None, None, None, None, None, record, Booting, map[],
          NO_HISTORY)
  }

  /** The process that follows a death: only the record is left. */
  function Reborn(s: State): State {
    Boot(s.config, s.record).(seen := NO_HISTORY.(
      accepted := s.seen.acknowledged + [Died],
      acknowledged := s.seen.acknowledged + [Died],
      attempts := s.seen.attempts + [Attempt(Died, true)]))
  }

  // ----- steps -----

  datatype ActorStep =
    | BootReplay(bootApp: Option<nat>, consent: bool, loads: bool)
    | StartInstall(app: nat, config: StartConfig)
    | StartCapture
    | StartKeepalive(error: Option<string>)
    | StartReturnToken
    | StartRestore
    | StartSpawn
    | StartPersist(saving: Saving)
    | StopTake(reason: StopReason)
    | StopPersist(saving: Saving)
    | SetOnComplete
    | SetMobile(bridge: Bridge)
    | Declare(desired: bool, wanted: Option<StartConfig>, saving: Saving)
    | UpdateType(fgType: string)
    | ReconcileRead
    | ReconcileCompare(native: Option<bool>)
    | ReconcileLifecycle
    | ReconcileTake
    | ReconcileRecord
    | PollRead
    | PollMerge(native: Option<bool>)
    | PollLifecycle

  datatype TaskStep =
    | InitReturns(error: Option<string>)
    | Report
    | Cleanup
    | Fire
    | Check
    | Promote
    | EmitStarted
    | RunReturns(outcome: Outcome)
    | ReadReason
    | EmitTerminal
    | SettleIntent(saving: Saving)

  /** `Restart` kills the process, whatever it is doing, and starts a new one. */
  datatype Step = Actor(a: ActorStep) | Work(g: nat, t: TaskStep) | Restart

  /** Why a start would be refused before it has any effect. */
  function StartRefusal(s: State, config: StartConfig): Option<ServiceError> {
    if s.token.Some? then Some(AlreadyRunning)
    else
      match TypeRefusal(s, config.foregroundServiceType)
      case Ok(_) => None
      case Err(e) => Some(e)
  }

  function TypeRefusal(s: State, fgType: string): Result<(), ServiceError> {
    var valid := if s.bridge.Some? && s.bridge.value.enforcesTypes then ValidateForegroundServiceType(fgType) else Ok(());
    if valid.Err? then valid else ValidateAgainstAllowlist(fgType, s.config.allowlist, s.config.validateTypes, s.config.casing)
  }

  /** The locked section of `handle_start`. */
  function Install(s: State, app: nat, config: StartConfig): State {
    if StartRefusal(s, config).Some? then s.(actor := Ready)
    else
      s.(token := Some(s.generation + 1),
      generation := s.generation + 1,
      isRunning := true,
      lifecycle := Initializing,
      lastError := None,
      schedulingDegraded := None,
      app := Some(app),
      actor := Installed(config),
      seen := s.seen.(installs := s.seen.installs + 1, errorWriter := None, stalePromotion := false))
  }

  function Keepalive(s: State, config: StartConfig, callback: Option<nat>, error: Option<string>): State {
    if s.bridge.None? then s.(actor := Kept(config, callback))
    else
      var s' := s.(seen := s.seen.(typeCalls := s.seen.typeCalls
      + [TypeCall(config.foregroundServiceType, s.bridge.value.enforcesTypes)]));
      if error.None? then s'.(actor := Kept(config, callback))
      else if s.bridge.value.advisory then s'.(schedulingDegraded := error, actor := Kept(config, callback))
      else s'.(actor := RollingBack(callback))
  }

  /** The spawned task takes the callback that the start holds. */
  function Taken(s: State, callback: Option<nat>): State {
    if callback.None? then s
    else s.(seen := s.seen.(captures := s.seen.captures + [Capture(callback.value, s.generation)]))
  }

  function ReleaseToken(s: State): State {
    if s.token.None? then s
    else s.(token := None, seen := s.seen.(releases := s.seen.releases + 1))
  }

  /** The locked section of `handle_stop_with_reason`. */
  function TakeForStop(s: State, reason: StopReason): State {
    if s.token.None? then s
    else
      var stop := Stop(s.generation, reason);
      s.(token := None,
      terminalReason := Some(stop),
      cancelled := s.cancelled + {s.token.value},
      isRunning := false,
      lifecycle := Stopped,
      lastError := None,
      schedulingDegraded := None,
      actor := Stopping(reason),
      seen := s.seen.(releases := s.seen.releases + 1, stops := s.seen.stops + [stop], errorWriter := None,
      accepted := s.seen.accepted + [Halted(reason)]))
  }

  function Accept(s: State, e: IntentEvent): State {
    s.(seen := s.seen.(accepted := s.seen.accepted + [e]))
  }

  /** The command is answered. */
  function Acknowledge(s: State): State {
    s.(seen := s.seen.(acknowledged := s.seen.accepted))
  }

  /** Saves the intent and notes the attempt. */
  function Persist(s: State, desired: bool, config: Option<StartConfig>, saving: Saving, e: IntentEvent): State {
    s.(record := SaveDesiredRunning(s.record, desired, config, saving),
    seen := s.seen.(attempts := s.seen.attempts + [Attempt(e, s.record.Some? && saving.saves)]))
  }

  function PersistStop(s: State, reason: StopReason, saving: Saving): State {
    if ShouldClearDesiredState(reason) then Persist(s, false, None, saving, Halted(reason))
    else s.(seen := s.seen.(attempts := s.seen.attempts + [Attempt(Halted(reason), true)]))
  }

  /** An intent-only command: decided, saved and answered in one go. */
  function DeclareIntent(s: State, desired: bool, wanted: Option<StartConfig>, saving: Saving): State {
    Acknowledge(Persist(Accept(s, Declared(desired, wanted)), desired, if desired then wanted else None, saving, Declared(desired, wanted)))
  }

  /** A natural completion clears the intent, beside whatever command is in flight. */
  function Settle(s: State, g: nat, saving: Saving): State {
    var s' := s.(seen := s.seen.(accepted := s.seen.accepted + [Completed(g)], acknowledged := s.seen.acknowledged + [Completed(g)]));
    Persist(s', false, None, saving, Completed(g))
  }

  function Compare(s: State, seen: bool, native: Option<bool>): State {
    if native.None? || native.value == seen then s.(actor := Ready)
    else s.(isRunning := native.value, actor := Converging(native.value))
  }

  function ReconcileCancel(s: State): State {
    if s.token.None? then s.(actor := Ready)
    else ReleaseToken(s).(cancelled := s.cancelled + {s.token.value}, actor := Recording)
  }

  function RecordNativeStop(s: State): State {
    var stop := Stop(s.generation, NativeNotificationStop);
    s.(terminalReason := Some(stop), actor := Ready, seen := s.seen.(stops := s.seen.stops + [stop]))
  }

  /** The boot block of `manager_loop`. */
  function Replay(s: State, bootApp: Option<nat>, consent: bool, loads: bool): State {
    if bootApp.None? then s.(actor := Ready)
    else
      match ReplayConfig(s.config.mode, true, consent, if loads then s.record else None)
      case None => s.(actor := Ready)
      case Some(config) => Install(s, bootApp.value, config)
  }

  function Merge(s: State, seen: bool, native: Option<bool>): State {
    if native.None? || native.value == seen then s.(actor := Ready)
    else s.(isRunning := native.value, actor := Merging(if native.value then Running else Stopped))
  }

  /** The first step of a command, taken by an actor that is ready for one. */
  function Command(s: State, a: ActorStep): State
    requires s.actor.Ready?
  {
    match a
    case StartInstall(app, config) => Install(s, app, config)
    case StopTake(reason) => TakeForStop(s, reason)
    case SetOnComplete =>
      s.(onComplete := Some(s.seen.callbacksSet),
      seen := s.seen.(callbacksSet := s.seen.callbacksSet + 1,
      replaced := if s.onComplete.Some? then s.seen.replaced + [s.onComplete.value] else s.seen.replaced))
    case SetMobile(bridge) => s.(bridge := Some(bridge))
    case Declare(desired, wanted, saving) =>
      DeclareIntent(s, desired, wanted, saving)
    case UpdateType(fgType) =>
      if s.token.None? || TypeRefusal(s, fgType).Err? || s.bridge.None? || !s.bridge.value.enforcesTypes then s
      else s.(seen := s.seen.(typeCalls := s.seen.typeCalls + [TypeCall(fgType, true)]))
    case ReconcileRead => s.(actor := Comparing(s.isRunning))
    case PollRead => s.(actor := Polling(s.isRunning))
    case _ => s
  }

  /** The steps that move a start forward once its token is installed. */
  predicate ContinuesStart(a: ActorStep) {
    a.StartCapture? || a.StartKeepalive? || a.StartReturnToken? || a.StartRestore? || a.StartSpawn? || a.StartPersist?
  }

  function Spawn(s: State): State
    requires s.actor.Kept?
  {
    Accept(Taken(s, s.actor.callback), Launched(s.generation, s.actor.config)).(
    tasks := s.tasks[s.generation := Task(Initialising, None, None, None, s.actor.callback)],
    actor := Spawned(s.actor.config))
  }

  function ContinueStart(s: State, a: ActorStep): State
    requires ContinuesStart(a)
  {
    match a
    case StartCapture =>
      if !s.actor.Installed? then s
      else s.(actor := Captured(s.actor.config, s.onComplete), onComplete := None)
    case StartKeepalive(error) =>
      if s.actor.Captured? then Keepalive(s, s.actor.config, s.actor.callback, error) else s
    case StartReturnToken =>
      if s.actor.RollingBack? then ReleaseToken(s).(actor := TokenReturned(s.actor.callback)) else s
    case StartRestore =>
      if !s.actor.TokenReturned? then s
      else s.(isRunning := false, lifecycle := Idle, onComplete := s.actor.callback, actor := Ready)
    case StartSpawn => if s.actor.Kept? then Spawn(s) else s
    case StartPersist(saving) =>
      if !s.actor.Spawned? then s
      else Acknowledge(Persist(s, true, Some(s.actor.config), saving, Launched(s.generation, s.actor.config))).(actor := Ready)
  }

  function Reconcile(s: State, a: ActorStep): State {
    match a
    case ReconcileCompare(native) => if s.actor.Comparing? then Compare(s, s.actor.seen, native) else s
    case ReconcileLifecycle =>
      if !s.actor.Converging? then s
      else
        s.(lifecycle := if s.actor.native then Running else Stopped,
        actor := if s.actor.native then Ready else Releasing)
    case ReconcileTake => if s.actor.Releasing? then ReconcileCancel(s) else s
    case ReconcileRecord => if s.actor.Recording? then RecordNativeStop(s) else s
    case _ => s
  }

  /** The actor's steps; a step that does not fit the program counter does nothing. */
  function ApplyActor(s: State, a: ActorStep): State {
    if s.actor.Ready? then Command(s, a)
    else if ContinuesStart(a) then ContinueStart(s, a)
    else
      match a
      case BootReplay(bootApp, consent, loads) => if s.actor.Booting? then Replay(s, bootApp, consent, loads) else s
      case StopPersist(saving) =>
        if s.actor.Stopping? then Acknowledge(PersistStop(s, s.actor.reason, saving)).(actor := Ready) else s
      case PollMerge(native) => if s.actor.Polling? then Merge(s, s.actor.seen, native) else s
      case PollLifecycle => if s.actor.Merging? then s.(lifecycle := s.actor.lifecycle, actor := Ready) else s
      case _ => Reconcile(s, a)
  }

  // ----- task steps -----

  function Emit(s: State, g: nat, event: PluginEvent): State {
    s.(seen := s.seen.(events := s.seen.events + [Emission(g, event)]))
  }

  function FireCallback(s: State, g: nat, task: Task): State {
    if task.callback.None? then s
    else s.(seen := s.seen.(fired := s.seen.fired + [Firing(task.callback.value, g, task.outcome == Some(Finished))]))
  }

  /** The guarded cleanup: under the token lock, and only if the generation has not advanced. */
  function CleanUp(s: State, g: nat, task: Task): State {
    if s.generation != g then s
    else
      var s' := ReleaseToken(s);
      var failed := task.outcome.Some? && task.outcome.value.Failed?;
      s'.(isRunning := false,
      lifecycle := if s.lifecycle.Initializing? || (s.lifecycle.Running? && task.phase.Notified?) then Stopped else s.lifecycle,
      lastError := if failed then Some(task.outcome.value.message) else s.lastError,
      seen := if failed then s'.seen.(errorWriter := Some(g)) else s'.seen)
  }

  /** The second half of the promotion: the generation was checked earlier, not here. */
  function PromoteLifecycle(s: State, g: nat, current: bool): State {
    if !current || !s.lifecycle.Initializing? then s
    else s.(lifecycle := Running, seen := if s.generation != g then s.seen.(stalePromotion := true) else s.seen)
  }

  /** The slot's reason, if it was set for this generation. */
  function OwnReason(s: State, g: nat): Option<StopReason> {
    if s.terminalReason.Some? && s.terminalReason.value.generation == g then Some(s.terminalReason.value.reason) else None
  }

  function TerminalEvent(task: Task): PluginEvent {
    if task.explicit.Some? then Ended(task.explicit.value)
    else if task.outcome.Some? && task.outcome.value.Failed? then Failure(task.outcome.value.message)
    else Ended(TaskCompleted)
  }

  predicate CompletedNaturally(task: Task) {
    task.explicit.None? && task.outcome == Some(Finished)
  }

  /** Whether a step is the one a task in this phase is about to take. */
  predicate Fits(phase: Phase, t: TaskStep) {
    match t
    case InitReturns(_) => phase.Initialising?
    case Report => phase.InitFailed?
    case Cleanup => phase.InitReported? || phase.Notified?
    case Fire => phase.InitCleaned? || phase.Settled?
    case Check => phase.InitDone?
    case Promote => phase.Checked?
    case EmitStarted => phase.Promoted?
    case RunReturns(_) => phase.InRun?
    case ReadReason => phase.Returned?
    case EmitTerminal => phase.Classified?
    case SettleIntent(_) => phase.Reported?
  }

  /** The task's own record after its step. */
  function Advance(s: State, g: nat, task: Task, t: TaskStep): Task {
    match t
    case InitReturns(error) =>
      if error.None? then task.(phase := InitDone)
      else task.(phase := InitFailed, outcome := Some(Failed(error.value)))
    case Report => task.(phase := InitReported)
    case Cleanup => task.(phase := if task.phase.Notified? then Exited else InitCleaned)
    case Fire => task.(phase := if task.phase.Settled? then Notified else Exited, callback := None)
    case Check => task.(phase := Checked(s.generation == g))
    case Promote => task.(phase := Promoted)
    case EmitStarted => task.(phase := InRun)
    case RunReturns(outcome) => task.(phase := Returned, outcome := Some(outcome))
    case ReadReason => task.(phase := Classified, explicit := OwnReason(s, g), seen := Some(|s.seen.stops|))
    case EmitTerminal => task.(phase := Reported)
    case SettleIntent(_) => task.(phase := Settled)
  }

  /** What the step does to everything but the task's own record. */
  function Effect(s: State, g: nat, task: Task, t: TaskStep): State {
    match t
    case Report => Emit(s, g, TerminalEvent(task))
    case EmitTerminal => Emit(s, g, TerminalEvent(task))
    case EmitStarted => Emit(s, g, Started)
    case Cleanup => CleanUp(s, g, task)
    case Fire => FireCallback(s, g, task)
    case Promote => PromoteLifecycle(s, g, task.phase.Checked? && task.phase.current)
    case SettleIntent(saving) =>
      if CompletedNaturally(task) then Settle(s, g, saving) else s
    case _ => s
  }

  /** A task's steps; a step that does not fit its phase does nothing. */
  function ApplyTask(s: State, g: nat, t: TaskStep): State
    requires g in s.tasks
  {
    var task := s.tasks[g];
    if Fits(task.phase, t) then Effect(s, g, task, t).(tasks := s.tasks[g := Advance(s, g, task, t)]) else s
  }

  function Apply(s: State, step: Step): State {
    match step
    case Actor(a) => ApplyActor(s, a)
    case Work(g, t) => if g in s.tasks then ApplyTask(s, g, t) else s
    case Restart => Reborn(s)
  }

  /** Runs any sequence of steps: every interleaving of actor and tasks is one, since a step that
      is not possible where it stands does nothing. */
  function Run(s: State, steps: seq<Step>): State {
    if steps == [] then s else Apply(Run(s, steps[..|steps| - 1]), steps[|steps| - 1])
  }

  lemma RunAppend(s: State, steps: seq<Step>, step: Step)
    ensures Run(s, steps + [step]) == Apply(Run(s, steps), step)
  {
    assert (steps + [step])[..|steps|] == steps;
  }

  // ----- what a step may use -----

  /** Steps that carry no answer from an Android authority. */
  predicate WithoutAndroid(step: Step) {
    match step
    case Actor(a) => !(a.ReconcileCompare? && a.native.Some?) && !(a.PollMerge? && a.native.Some?)
    case _ => true
  }
}
