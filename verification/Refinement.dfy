/** Without an Android authority, the actor's three cells refine one abstract service. */
module Refinement {
  import opened Wrappers
  import opened Models
  import opened DesiredStateRecord
  import opened Lifecycle
  import opened TokenSafety
  import opened TerminalReasons

  predicate Active(lifecycle: ServiceLifecycle) {
    lifecycle.Initializing? || lifecycle.Running?
  }

  /** The task has taken its promotion step, on the path of a successful init. */
  predicate PastPromotion(phase: Phase) {
    phase.Promoted? || phase.InRun? || phase.Returned? || phase.Classified? || phase.Reported?
    || phase.Settled? || phase.Notified?
  }

  predicate CurrentPromoted(s: State) {
    s.generation in s.tasks && PastPromotion(s.tasks[s.generation].phase)
  }

  /** The task's init failed and it has been through its cleanup. */
  predicate GaveUp(task: Task) {
    task.phase.InitCleaned? || (task.phase.Exited? && task.seen.None?)
  }

  /** The one family of states in which the lifecycle outlives the service: a stale task promoted
      this generation, whose own init then failed without anyone stopping it.  The cleanup of a
      failed init only takes the lifecycle down from Initializing. */
  predicate Stranded(s: State) {
    s.seen.stalePromotion && s.generation in s.tasks && GaveUp(s.tasks[s.generation]) && !CurrentStopped(s)
  }

  /** The lifecycle agrees with the flag, and what Running means while it is set: the current task
      took its promotion step, or a stale one wrote the promotion in its place. */
  predicate LifecycleAgrees(s: State) {
    if s.isRunning then
      Active(s.lifecycle) && (s.lifecycle.Running? <==> CurrentPromoted(s) || s.seen.stalePromotion)
    else
      (Active(s.lifecycle) <==> Stranded(s)) && (Stranded(s) ==> s.lifecycle.Running?)
  }

  ghost predicate CellsInv(s: State) {
    && !s.actor.Converging? && !s.actor.Releasing? && !s.actor.Recording? && !s.actor.Merging?
    && (if s.actor.TokenReturned? then s.isRunning else s.token.Some? == s.isRunning)
    && (forall g | g in s.tasks && s.tasks[g].phase.Checked? && !s.tasks[g].phase.current :: g < s.generation)
    && LifecycleAgrees(s)
  }

  lemma CommandKeepsCells(s: State, a: ActorStep)
    requires TokenInv(s) && StopsInv(s) && CellsInv(s) && WithoutAndroid(Actor(a)) && s.actor.Ready?
    ensures CellsInv(ApplyActor(s, a))
  {
  }

  lemma MidCommandKeepsCells(s: State, a: ActorStep)
    requires TokenInv(s) && StopsInv(s) && CellsInv(s) && WithoutAndroid(Actor(a)) && !s.actor.Ready?
    ensures CellsInv(ApplyActor(s, a))
  {
    if ContinuesStart(a) {
      StartKeepsCells(s, a);
    } else if !a.BootReplay? {
      OthersLeaveCells(s, a);
    }
  }

  /** Without an Android authority, the rest of a stop, a reconciliation or a poll changes no cell. */
  lemma OthersLeaveCells(s: State, a: ActorStep)
    requires CellsInv(s) && WithoutAndroid(Actor(a)) && !s.actor.Ready? && !ContinuesStart(a) && !a.BootReplay?
    ensures var s' := ApplyActor(s, a);
            && s'.token == s.token && s'.isRunning == s.isRunning && s'.lifecycle == s.lifecycle
            && s'.generation == s.generation && s'.tasks == s.tasks && s'.seen.stops == s.seen.stops
            && s'.seen.stalePromotion == s.seen.stalePromotion && (s'.actor == s.actor || s'.actor.Ready?)
  {
  }

  lemma StartKeepsCells(s: State, a: ActorStep)
    requires TokenInv(s) && StopsInv(s) && CellsInv(s) && !s.actor.Ready? && ContinuesStart(a)
    ensures CellsInv(ApplyActor(s, a))
  {
    if s.actor.Kept? && a.StartSpawn? {
      SpawnKeepsCells(s, Spawn(s));
    }
  }

  lemma SpawnKeepsCells(s: State, s': State)
    requires TokenInv(s) && StopsInv(s) && CellsInv(s) && s.actor.Kept? && s' == Spawn(s)
    ensures CellsInv(s')
  {
  }

  lemma CleanupKeepsCells(s: State, g: nat)
    requires TokenInv(s) && StopsInv(s) && CellsInv(s) && g in s.tasks
    ensures CellsInv(ApplyTask(s, g, Cleanup))
  {
    assert TaskReasonInv(s.seen.stops, g, s.tasks[g]);
  }

  lemma PromoteKeepsCells(s: State, g: nat)
    requires TokenInv(s) && StopsInv(s) && CellsInv(s) && g in s.tasks
    ensures CellsInv(ApplyTask(s, g, Promote))
  {
  }

  /** What a task step other than promotion and cleanup does to the task as the cells see it. */
  predicate SameForCells(old': Task, new': Task, isCurrent: bool) {
    && (PastPromotion(new'.phase) <==> PastPromotion(old'.phase))
    && (GaveUp(new') <==> GaveUp(old'))
    && (new'.phase.Checked? ==> new'.phase.current == isCurrent)
  }

  lemma AdvanceForCells(s: State, g: nat, task: Task, t: TaskStep)
    requires Fits(task.phase, t) && !t.Promote? && !t.Cleanup? && TaskReasonInv(s.seen.stops, g, task)
    ensures SameForCells(task, Advance(s, g, task, t), s.generation == g)
  {
  }

  lemma QuietTaskKeepsCells(s: State, s': State, g: nat)
    requires CellsInv(s) && g in s.tasks && g <= s.generation
    requires g in s'.tasks && s'.tasks == s.tasks[g := s'.tasks[g]]
    requires SameForCells(s.tasks[g], s'.tasks[g], s.generation == g)
    requires ActorSideSame(s, s') && GuardedSame(s, s')
    requires s'.lifecycle == s.lifecycle && s'.seen.stalePromotion == s.seen.stalePromotion
    ensures CellsInv(s')
  {
  }

  lemma TaskKeepsCells(s: State, g: nat, t: TaskStep)
    requires TokenInv(s) && StopsInv(s) && CellsInv(s) && g in s.tasks
    ensures CellsInv(ApplyTask(s, g, t))
  {
    if t.Cleanup? {
      CleanupKeepsCells(s, g);
    } else if t.Promote? {
      PromoteKeepsCells(s, g);
    } else if Fits(s.tasks[g].phase, t) {
      EffectFrame(s, g, s.tasks[g], t);
      AdvanceForCells(s, g, s.tasks[g], t);
      QuietTaskKeepsCells(s, ApplyTask(s, g, t), g);
    }
  }

  lemma {:induction false} CellsInvHolds(config: Config, record: Option<DesiredState>, steps: seq<Step>)
    requires forall step | step in steps :: WithoutAndroid(step)
    ensures CellsInv(Run(Boot(config, record), steps))
  {
    if steps != [] {
      var before, step := steps[..|steps| - 1], steps[|steps| - 1];
      CellsInvHolds(config, record, before);
      TokenInvHolds(config, record, before);
      StopsInvHolds(config, record, before);
      var s := Run(Boot(config, record), before);
      match step {
        case Actor(a) => if s.actor.Ready? { CommandKeepsCells(s, a); } else { MidCommandKeepsCells(s, a); }
        case Work(g, t) => if g in s.tasks { TaskKeepsCells(s, g, t); }
        case Restart =>
      }
    }
  }

  /** Between commands the token is present exactly when the flag is set, and the lifecycle is
      Initializing or Running exactly when the flag is set or the state is stranded, never both. */
  lemma CellsAgree(config: Config, record: Option<DesiredState>, steps: seq<Step>)
    requires forall step | step in steps :: WithoutAndroid(step)
    ensures var s := Run(Boot(config, record), steps);
            s.actor.Ready? ==>
              && (s.token.Some? <==> s.isRunning)
              && (Active(s.lifecycle) <==> s.isRunning || Stranded(s))
              && !(s.isRunning && Stranded(s))
  {
    CellsInvHolds(config, record, steps);
    TokenInvHolds(config, record, steps);
  }

  // ----- when Running is exact -----

  /** A step that does not come between some task's generation check and its promotion. */
  ghost predicate Undisturbed(s: State, step: Step) {
    forall g | g in s.tasks && s.tasks[g].phase == Checked(true) :: step == Work(g, Promote) || step == Restart
  }

  ghost predicate UndisturbedRun(s: State, steps: seq<Step>) {
    forall i | 0 <= i < |steps| :: Undisturbed(Run(s, steps[..i]), steps[i])
  }

  ghost predicate PromotionInv(s: State) {
    && !s.seen.stalePromotion
    && (forall g | g in s.tasks && s.tasks[g].phase == Checked(true) :: g == s.generation)
  }

  lemma ActorKeepsPromotion(s: State, a: ActorStep)
    requires TokenInv(s) && PromotionInv(s) && Undisturbed(s, Actor(a))
    ensures PromotionInv(ApplyActor(s, a))
  {
    if ContinuesStart(a) {
      StartKeepsPromotion(s, a);
    } else if s.actor.Ready? {
      CommandKeepsPromotion(s, a);
    }
  }

  lemma CommandKeepsPromotion(s: State, a: ActorStep)
    requires TokenInv(s) && PromotionInv(s) && Undisturbed(s, Actor(a)) && s.actor.Ready?
    ensures PromotionInv(Command(s, a))
  {
  }

  lemma StartKeepsPromotion(s: State, a: ActorStep)
    requires TokenInv(s) && PromotionInv(s) && Undisturbed(s, Actor(a)) && ContinuesStart(a)
    ensures PromotionInv(ApplyActor(s, a))
  {
  }

  lemma StepKeepsPromotion(s: State, step: Step)
    requires TokenInv(s) && PromotionInv(s) && Undisturbed(s, step)
    ensures PromotionInv(Apply(s, step))
  {
    match step {
      case Actor(a) => ActorKeepsPromotion(s, a);
      case Work(g, t) => if g in s.tasks { TaskKeepsPromotion(s, g, t); }
      case Restart =>
    }
  }

  lemma TaskKeepsPromotion(s: State, g: nat, t: TaskStep)
    requires TokenInv(s) && PromotionInv(s) && g in s.tasks && Undisturbed(s, Work(g, t))
    ensures PromotionInv(ApplyTask(s, g, t))
  {
    EffectFrame(s, g, s.tasks[g], t);
  }

  lemma UndisturbedPrefix(s: State, steps: seq<Step>, n: nat)
    requires UndisturbedRun(s, steps) && n <= |steps|
    ensures UndisturbedRun(s, steps[..n])
  {
    forall i | 0 <= i < n ensures Undisturbed(Run(s, steps[..n][..i]), steps[..n][i]) {
      assert steps[..n][..i] == steps[..i];
    }
  }

  lemma {:induction false} PromotionInvHolds(config: Config, record: Option<DesiredState>, steps: seq<Step>)
    requires UndisturbedRun(Boot(config, record), steps)
    ensures PromotionInv(Run(Boot(config, record), steps))
  {
    if steps != [] {
      var n := |steps| - 1;
      UndisturbedPrefix(Boot(config, record), steps, n);
      PromotionInvHolds(config, record, steps[..n]);
      TokenInvHolds(config, record, steps[..n]);
      StepKeepsPromotion(Run(Boot(config, record), steps[..n]), steps[n]);
    }
  }

  /** If no step separates a generation check from its promotion, no state is stranded: token, flag
      and lifecycle agree, and Running means exactly that the current generation's task promoted. */
  lemma {:induction false} RunningIsExact(config: Config, record: Option<DesiredState>, steps: seq<Step>)
    requires forall step | step in steps :: WithoutAndroid(step)
    requires UndisturbedRun(Boot(config, record), steps)
    ensures var s := Run(Boot(config, record), steps);
            s.actor.Ready? ==>
              && (s.token.Some? <==> s.isRunning) && (s.isRunning <==> Active(s.lifecycle))
              && (s.lifecycle.Running? <==> s.isRunning && CurrentPromoted(s))
  {
    CellsInvHolds(config, record, steps);
    PromotionInvHolds(config, record, steps);
  }

  // ----- the abstract service -----

  /** One service: its phase, how many starts it has accepted, and its last error. */
  datatype Service = Service(phase: ServiceLifecycle, starts: nat, error: Option<string>)

  datatype ServiceEvent =
    | Nothing
    | Accept
    | Abort
    | Promotion
    | Halt
    | Finish(error: Option<string>)
    | LateFailure(message: string)
    | Death

  /** The abstract phase: the lifecycle, except that a service that does not run is not active. */
  function Abstract(s: State): Service {
    Service(if !s.isRunning && Active(s.lifecycle) then Stopped else s.lifecycle, s.generation, s.lastError)
  }

  /** What each event does, and when it may happen. */
  predicate ServiceStep(a: Service, e: ServiceEvent, b: Service) {
    match e
    case Nothing => b == a
    case Accept => !Active(a.phase) && b == Service(Initializing, a.starts + 1, None)
    case Abort => Active(a.phase) && b == a.(phase := Idle)
    case Promotion => a.phase.Initializing? && b == a.(phase := Running)
    case Halt => Active(a.phase) && b == Service(Stopped, a.starts, None)
    case Finish(error) => Active(a.phase) && b == Service(Stopped, a.starts, if error.Some? then error else a.error)
    case LateFailure(m) => !Active(a.phase) && b == a.(error := Some(m))
    case Death => b == Service(Idle, 0, None)
  }

  /** The abstract event a concrete step stands for. */
  function EventOf(s: State, step: Step): ServiceEvent {
    var s' := Apply(s, step);
    match step
    case Restart => Death
    case Actor(a) =>
      if s'.generation != s.generation then Accept
      else if s.actor.TokenReturned? && a.StartRestore? then Abort
      else if s.actor.Ready? && a.StopTake? && s.token.Some? then Halt
      else Nothing
    case Work(g, t) =>
      if Abstract(s') == Abstract(s) then Nothing
      else if t.Promote? then Promotion
      else if s.isRunning then Finish(s'.lastError)
      else if s'.lastError.Some? then LateFailure(s'.lastError.value)
      else Nothing
  }

  lemma ActorRefines(s: State, a: ActorStep)
    requires TokenInv(s) && StopsInv(s) && CellsInv(s) && WithoutAndroid(Actor(a))
    ensures ServiceStep(Abstract(s), EventOf(s, Actor(a)), Abstract(Apply(s, Actor(a))))
  {
    if !s.actor.Ready? {
      MidCommandRefines(s, a);
    }
  }

  lemma MidCommandRefines(s: State, a: ActorStep)
    requires TokenInv(s) && StopsInv(s) && CellsInv(s) && WithoutAndroid(Actor(a)) && !s.actor.Ready?
    ensures ServiceStep(Abstract(s), EventOf(s, Actor(a)), Abstract(Apply(s, Actor(a))))
  {
  }

  lemma TaskRefines(s: State, g: nat, t: TaskStep)
    requires TokenInv(s) && StopsInv(s) && CellsInv(s)
    ensures ServiceStep(Abstract(s), EventOf(s, Work(g, t)), Abstract(Apply(s, Work(g, t))))
  {
    if g in s.tasks {
      EffectFrame(s, g, s.tasks[g], t);
    }
  }

  /** Every step of every interleaving is a step of the one abstract service. */
  lemma StepsRefine(config: Config, record: Option<DesiredState>, steps: seq<Step>, step: Step)
    requires (forall x | x in steps :: WithoutAndroid(x)) && WithoutAndroid(step)
    ensures var s := Run(Boot(config, record), steps);
            ServiceStep(Abstract(s), EventOf(s, step), Abstract(Apply(s, step)))
  {
    CellsInvHolds(config, record, steps);
    TokenInvHolds(config, record, steps);
    StopsInvHolds(config, record, steps);
    var s := Run(Boot(config, record), steps);
    match step {
      case Actor(a) => ActorRefines(s, a);
      case Work(g, t) => TaskRefines(s, g, t);
      case Restart =>
    }
  }

  /** Between commands a start is accepted exactly when the service is inactive and its type passes. */
  lemma AcceptedIffInactive(config: Config, record: Option<DesiredState>, steps: seq<Step>, app: nat, start: StartConfig)
    requires forall x | x in steps :: WithoutAndroid(x)
    ensures var s := Run(Boot(config, record), steps);
            s.actor.Ready? ==>
              (EventOf(s, Actor(StartInstall(app, start))).Accept?
               <==> !Active(Abstract(s).phase) && TypeRefusal(s, start.foregroundServiceType).Ok?)
  {
    CellsInvHolds(config, record, steps);
  }
}
