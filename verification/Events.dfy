/** What each generation emits, and who wrote the last error. */
module Events {
  import opened Wrappers
  import opened Models
  import opened DesiredStateRecord
  import opened Lifecycle
  import opened TokenSafety
  import opened TerminalReasons

  // ----- the shape of a task's record -----

  predicate InitPath(phase: Phase) {
    phase.InitFailed? || phase.InitReported? || phase.InitCleaned?
  }

  predicate BeforeOutcome(phase: Phase) {
    phase.Initialising? || phase.InitDone? || phase.Checked? || phase.Promoted? || phase.InRun?
  }

  /** When a task has an outcome; a failed init never reads the reason slot. */
  predicate TaskShape(task: Task) {
    && (BeforeOutcome(task.phase) <==> task.outcome.None?)
    && (InitPath(task.phase) || (task.phase.Exited? && task.seen.None?) ==>
          task.explicit.None? && task.outcome.Some? && task.outcome.value.Failed?)
    && (BeforeOutcome(task.phase) || InitPath(task.phase) || task.phase.Returned? ==> task.seen.None?)
    && (MustHaveRead(task.phase) ==> task.seen.Some?)
    && (task.seen.None? ==> task.explicit.None?)
  }

  lemma AdvanceKeepsShape(s: State, g: nat, task: Task, t: TaskStep)
    requires TaskShape(task) && Fits(task.phase, t)
    ensures TaskShape(Advance(s, g, task, t))
  {
  }

  // ----- the event log -----

  /** The events of one generation, in order. */
  function EventsOf(events: seq<Emission>, g: nat): seq<PluginEvent> {
    if events == [] then []
    else
      var e := events[|events| - 1];
      EventsOf(events[..|events| - 1], g) + if e.generation == g then [e.event] else []
  }

  lemma Emitted(events: seq<Emission>, e: Emission)
    ensures forall g :: EventsOf(events + [e], g) == EventsOf(events, g) + if e.generation == g then [e.event] else []
  {
    assert (events + [e])[..|events|] == events;
  }

  /** What a task has emitted by the time it is in its phase. */
  function Expected(task: Task): seq<PluginEvent> {
    match task.phase
    case InitReported => [TerminalEvent(task)]
    case InitCleaned => [TerminalEvent(task)]
    case InRun => [Started]
    case Returned => [Started]
    case Classified => [Started]
    case Reported => [Started, TerminalEvent(task)]
    case Settled => [Started, TerminalEvent(task)]
    case Notified => [Started, TerminalEvent(task)]
    case Exited => (if task.seen.None? then [] else [Started]) + [TerminalEvent(task)]
    case _ => []
  }

  ghost predicate EventsInv(s: State) {
    && (forall g | g in s.tasks :: TaskShape(s.tasks[g]))
    && (forall g :: EventsOf(s.seen.events, g) == if g in s.tasks then Expected(s.tasks[g]) else [])
  }

  lemma ActorLeavesEvents(s: State, a: ActorStep)
    requires TokenInv(s)
    ensures var s' := ApplyActor(s, a);
            && s'.seen.events == s.seen.events
            && (s'.tasks == s.tasks
                || (s.actor.Kept? && s.generation !in s.tasks && s'.tasks == s.tasks[s.generation := Task(Initialising, None, None, None, s.actor.callback)]))
  {
    if !a.StartSpawn? {
      OnlySpawnAddsTask(s, a);
    }
  }

  lemma OnlySpawnAddsTask(s: State, a: ActorStep)
    requires !a.StartSpawn?
    ensures ApplyActor(s, a).seen.events == s.seen.events && ApplyActor(s, a).tasks == s.tasks
  {
    if s.actor.Ready? {
      CommandAddsNoTask(s, a);
    }
  }

  lemma CommandAddsNoTask(s: State, a: ActorStep)
    requires s.actor.Ready?
    ensures Command(s, a).seen.events == s.seen.events && Command(s, a).tasks == s.tasks
  {
  }

  /** The event a task's step emits, if it emits one. */
  function EmittedBy(task: Task, t: TaskStep): Option<PluginEvent> {
    match t
    case Report => Some(TerminalEvent(task))
    case EmitTerminal => Some(TerminalEvent(task))
    case EmitStarted => Some(Started)
    case _ => None
  }

  lemma EffectOnEvents(s: State, g: nat, task: Task, t: TaskStep)
    ensures Effect(s, g, task, t).seen.events
            == match EmittedBy(task, t) case None => s.seen.events case Some(e) => s.seen.events + [Emission(g, e)]
  {
  }

  lemma ExpectedGrows(s: State, g: nat, task: Task, t: TaskStep)
    requires TaskShape(task) && Fits(task.phase, t)
    ensures Expected(Advance(s, g, task, t))
            == Expected(task) + match EmittedBy(task, t) case None => [] case Some(e) => [e]
  {
  }

  lemma OwnEventsKeep(s: State, s': State, g: nat, task: Task, e: Option<PluginEvent>)
    requires EventsInv(s) && g in s.tasks && TaskShape(task) && s'.tasks == s.tasks[g := task]
    requires Expected(task) == Expected(s.tasks[g]) + match e case None => [] case Some(x) => [x]
    requires s'.seen.events == match e case None => s.seen.events case Some(x) => s.seen.events + [Emission(g, x)]
    ensures EventsInv(s')
  {
    if e.Some? {
      Emitted(s.seen.events, Emission(g, e.value));
    }
  }

  lemma TaskKeepsEvents(s: State, s': State, g: nat, t: TaskStep)
    requires EventsInv(s) && g in s.tasks && Fits(s.tasks[g].phase, t) && s' == ApplyTask(s, g, t)
    ensures EventsInv(s')
  {
    var task := s.tasks[g];
    AdvanceKeepsShape(s, g, task, t);
    EffectOnEvents(s, g, task, t);
    ExpectedGrows(s, g, task, t);
    OwnEventsKeep(s, s', g, Advance(s, g, task, t), EmittedBy(task, t));
  }

  lemma {:induction false} EventsInvHolds(config: Config, record: Option<DesiredState>, steps: seq<Step>)
    ensures EventsInv(Run(Boot(config, record), steps))
  {
    if steps != [] {
      var before, step := steps[..|steps| - 1], steps[|steps| - 1];
      EventsInvHolds(config, record, before);
      TokenInvHolds(config, record, before);
      var s := Run(Boot(config, record), before);
      match step {
        case Actor(a) => ActorLeavesEvents(s, a);
        case Work(g, t) => if g in s.tasks && Fits(s.tasks[g].phase, t) { TaskKeepsEvents(s, Apply(s, step), g, t); }
        case Restart =>
      }
    }
  }

  /** Nothing yet, a lone failure of init, or Started followed by at most one end. */
  predicate Grammatical(es: seq<PluginEvent>) {
    || es == []
    || (|es| == 1 && (es[0].Started? || es[0].Failure?))
    || (|es| == 2 && es[0].Started? && (es[1].Ended? || es[1].Failure?))
  }

  /** Each generation's events follow the grammar, and a generation whose start was rejected or
      rolled back, so that it has no task, emits nothing. */
  lemma {:induction false} EventGrammar(config: Config, record: Option<DesiredState>, steps: seq<Step>, g: nat)
    ensures var s := Run(Boot(config, record), steps);
            && Grammatical(EventsOf(s.seen.events, g))
            && (g !in s.tasks ==> EventsOf(s.seen.events, g) == [])
  {
    EventsInvHolds(config, record, steps);
    GrammarHolds(Run(Boot(config, record), steps), g);
  }

  lemma GrammarHolds(s: State, g: nat)
    requires EventsInv(s)
    ensures Grammatical(EventsOf(s.seen.events, g)) && (g !in s.tasks ==> EventsOf(s.seen.events, g) == [])
  {
    if g in s.tasks {
      assert TaskShape(s.tasks[g]);
      ExpectedIsGrammatical(s.tasks[g]);
    }
  }

  lemma ExpectedIsGrammatical(task: Task)
    requires TaskShape(task)
    ensures Grammatical(Expected(task))
  {
  }

  /** The end of a generation that started: its explicit reason if it read one, otherwise its
      error, and `TaskCompleted` without an explicit reason only if its run returned normally. */
  lemma {:induction false} EndIsClassified(config: Config, record: Option<DesiredState>, steps: seq<Step>, g: nat)
    ensures var s := Run(Boot(config, record), steps);
            var es := EventsOf(s.seen.events, g);
            |es| == 2 ==>
              && g in s.tasks && s.tasks[g].seen.Some? && s.tasks[g].outcome.Some? && !es[1].Started?
              && (s.tasks[g].explicit.Some? ==> es[1] == Ended(s.tasks[g].explicit.value))
              && (s.tasks[g].explicit.None? ==>
                    es[1] == match s.tasks[g].outcome.value
                             case Finished => Ended(TaskCompleted)
                             case Failed(m) => Failure(m))
  {
    EventsInvHolds(config, record, steps);
    var s := Run(Boot(config, record), steps);
    if |EventsOf(s.seen.events, g)| == 2 {
      EndHolds(s, g);
    }
  }

  lemma EndHolds(s: State, g: nat)
    requires EventsInv(s) && |EventsOf(s.seen.events, g)| == 2
    ensures g in s.tasks && s.tasks[g].seen.Some? && s.tasks[g].outcome.Some?
    ensures EventsOf(s.seen.events, g)[1] == TerminalEvent(s.tasks[g])
  {
    if g in s.tasks {
      assert TaskShape(s.tasks[g]);
    }
  }

  // ----- the last error -----

  /** The error the current generation's task has left behind, if it has been through cleanup. */
  function ErrorOf(s: State): Option<string> {
    if s.generation in s.tasks && !BeforeCleanup(s.tasks[s.generation].phase)
       && s.tasks[s.generation].outcome.Some? && s.tasks[s.generation].outcome.value.Failed?
    then Some(s.tasks[s.generation].outcome.value.message)
    else None
  }

  predicate ErrorInv(s: State) {
    && s.lastError == ErrorOf(s)
    && s.seen.errorWriter == if s.lastError.Some? then Some(s.generation) else None
  }

  lemma CommandKeepsError(s: State, a: ActorStep)
    requires TokenInv(s) && ErrorInv(s) && s.actor.Ready?
    ensures ErrorInv(ApplyActor(s, a))
  {
  }

  lemma MidCommandKeepsError(s: State, a: ActorStep)
    requires TokenInv(s) && ErrorInv(s) && !s.actor.Ready?
    ensures ErrorInv(ApplyActor(s, a))
  {
    if ContinuesStart(a) {
      StartKeepsError(s, a);
    } else if !a.BootReplay? {
      OthersLeaveError(s, a);
    }
  }

  lemma OthersLeaveError(s: State, a: ActorStep)
    requires !s.actor.Ready? && !ContinuesStart(a) && !a.BootReplay?
    ensures var s' := ApplyActor(s, a);
            && s'.lastError == s.lastError && s'.seen.errorWriter == s.seen.errorWriter
            && s'.generation == s.generation && s'.tasks == s.tasks
  {
    if !a.StopPersist? && !a.PollMerge? && !a.PollLifecycle? {
      ReconcileLeavesError(s, a);
    }
  }

  lemma ReconcileLeavesError(s: State, a: ActorStep)
    ensures var s' := Reconcile(s, a);
            && s'.lastError == s.lastError && s'.seen.errorWriter == s.seen.errorWriter
            && s'.generation == s.generation && s'.tasks == s.tasks
  {
  }

  lemma StartKeepsError(s: State, a: ActorStep)
    requires TokenInv(s) && ErrorInv(s) && !s.actor.Ready? && ContinuesStart(a)
    ensures ErrorInv(ContinueStart(s, a))
  {
  }

  lemma TaskKeepsError(s: State, g: nat, t: TaskStep)
    requires TokenInv(s) && ErrorInv(s) && g in s.tasks && TaskShape(s.tasks[g]) && Fits(s.tasks[g].phase, t)
    ensures ErrorInv(ApplyTask(s, g, t))
  {
    EffectFrame(s, g, s.tasks[g], t);
  }

  /** In every reachable state a recorded error was written by the current generation's task and
      is that task's own failure; it is recorded exactly when that task failed and cleaned up. */
  lemma {:induction false} ErrorOwnership(config: Config, record: Option<DesiredState>, steps: seq<Step>)
    ensures ErrorInv(Run(Boot(config, record), steps))
  {
    if steps != [] {
      var before, step := steps[..|steps| - 1], steps[|steps| - 1];
      ErrorOwnership(config, record, before);
      TokenInvHolds(config, record, before);
      EventsInvHolds(config, record, before);
      var s := Run(Boot(config, record), before);
      match step {
        case Actor(a) => if s.actor.Ready? { CommandKeepsError(s, a); } else { MidCommandKeepsError(s, a); }
        case Work(g, t) => if g in s.tasks && Fits(s.tasks[g].phase, t) { TaskKeepsError(s, g, t); }
        case Restart =>
      }
    }
  }
}
