/** The persisted intent over whole histories, across stops, races and process restarts. */
module IntentHistory {
  import opened Wrappers
  import opened Models
  import opened DesiredStateRecord
  import opened Intent
  import opened Lifecycle
  import opened TokenSafety
  import opened Events

  // ----- every record is normalised -----

  predicate RecordNormalised(s: State) {
    s.record.Some? ==> Normalised(s.record.value)
  }

  lemma EffectOnIntent(s: State, g: nat, task: Task, t: TaskStep)
    requires !(t.SettleIntent? && CompletedNaturally(task))
    ensures var s' := Effect(s, g, task, t);
            && s'.seen.accepted == s.seen.accepted && s'.seen.acknowledged == s.seen.acknowledged
            && s'.seen.attempts == s.seen.attempts && s'.record == s.record
            && s'.actor == s.actor && s'.generation == s.generation
  {
  }

  lemma ActorKeepsNormalised(s: State, a: ActorStep)
    requires RecordNormalised(s)
    ensures RecordNormalised(ApplyActor(s, a))
  {
  }

  lemma StepKeepsNormalised(s: State, step: Step)
    requires RecordNormalised(s)
    ensures RecordNormalised(Apply(s, step))
  {
    match step {
      case Actor(a) => ActorKeepsNormalised(s, a);
      case Work(g, t) => if g in s.tasks && !(t.SettleIntent? && CompletedNaturally(s.tasks[g])) { EffectOnIntent(s, g, s.tasks[g], t); }
      case Restart =>
    }
  }

  /** From the default record, every record persisted by any interleaving of saves, with loads and
      saves failing at will, carries nothing to recover when it does not want the service. */
  lemma {:induction false} RecordsAreNormalised(config: Config, record: Option<DesiredState>, steps: seq<Step>)
    requires record.Some? ==> Normalised(record.value)
    ensures RecordNormalised(Run(Boot(config, record), steps))
  {
    if steps != [] {
      RecordsAreNormalised(config, record, steps[..|steps| - 1]);
      StepKeepsNormalised(Run(Boot(config, record), steps[..|steps| - 1]), steps[|steps| - 1]);
    }
  }

  // ----- the record expresses the last save -----

  predicate RecordIsWritten(s: State) {
    s.record.Some? ==> Expresses(s.record.value, Written(Reached(s.seen.attempts)))
  }

  /** Between commands or not, does the record express what the saved history means? */
  predicate RecordIsIntent(s: State) {
    s.record.Some? ==> Expresses(s.record.value, IntentAfter(Reached(s.seen.attempts)))
  }

  lemma PersistKeepsWritten(s: State, desired: bool, config: Option<StartConfig>, saving: Saving, e: IntentEvent)
    requires RecordIsWritten(s) && Writes(e) && SetBy(e) == Wish(desired, if desired then config else None)
    ensures RecordIsWritten(Persist(s, desired, config, saving, e))
  {
    Attempted(s.seen.attempts, Attempt(e, s.record.Some? && saving.saves));
    AppendedSaves(Reached(s.seen.attempts), e);
    assert Reached(s.seen.attempts) + [] == Reached(s.seen.attempts);
  }

  lemma ActorKeepsWritten(s: State, a: ActorStep)
    requires RecordIsWritten(s)
    ensures RecordIsWritten(ApplyActor(s, a))
  {
    if s.actor.Ready? && a.Declare? {
      PersistKeepsWritten(Accept(s, Declared(a.desired, a.wanted)), a.desired, if a.desired then a.wanted else None, a.saving, Declared(a.desired, a.wanted));
    } else if s.actor.Spawned? && a.StartPersist? {
      PersistKeepsWritten(s, true, Some(s.actor.config), a.saving, Launched(s.generation, s.actor.config));
    } else if s.actor.Stopping? && a.StopPersist? {
      StopKeepsWritten(s, s.actor.reason, a.saving);
    } else {
      OthersLeaveIntent(s, a);
    }
  }

  lemma StopKeepsWritten(s: State, reason: StopReason, saving: Saving)
    requires RecordIsWritten(s)
    ensures RecordIsWritten(PersistStop(s, reason, saving))
  {
    Attempted(s.seen.attempts, Attempt(Halted(reason), true));
    AppendedSaves(Reached(s.seen.attempts), Halted(reason));
    if ShouldClearDesiredState(reason) {
      PersistKeepsWritten(s, false, None, saving, Halted(reason));
    }
  }

  lemma OthersLeaveIntent(s: State, a: ActorStep)
    requires !(s.actor.Ready? && a.Declare?) && !(s.actor.Spawned? && a.StartPersist?) && !(s.actor.Stopping? && a.StopPersist?)
    ensures ApplyActor(s, a).record == s.record && ApplyActor(s, a).seen.attempts == s.seen.attempts
  {
    if s.actor.Ready? {
      CommandLeavesIntent(s, a);
    } else if ContinuesStart(a) {
      StartLeavesIntent(s, a);
    }
  }

  lemma CommandLeavesIntent(s: State, a: ActorStep)
    requires s.actor.Ready? && !a.Declare?
    ensures Command(s, a).record == s.record && Command(s, a).seen.attempts == s.seen.attempts
  {
  }

  lemma StartLeavesIntent(s: State, a: ActorStep)
    requires ContinuesStart(a) && !(s.actor.Spawned? && a.StartPersist?)
    ensures ContinueStart(s, a).record == s.record && ContinueStart(s, a).seen.attempts == s.seen.attempts
  {
  }

  lemma StepKeepsWritten(s: State, step: Step)
    requires RecordIsWritten(s)
    ensures RecordIsWritten(Apply(s, step))
  {
    match step {
      case Actor(a) => ActorKeepsWritten(s, a);
      case Work(g, t) =>
        if g in s.tasks && t.SettleIntent? && CompletedNaturally(s.tasks[g]) {
          PersistKeepsWritten(s, false, None, t.saving, Completed(g));
        } else if g in s.tasks {
          EffectOnIntent(s, g, s.tasks[g], t);
        }
      case Restart =>
        Attempted(s.seen.attempts, Attempt(Died, true));
        AppendedSaves(Reached(s.seen.attempts), Died);
    }
  }

  /** Unconditionally, over every interleaving and any number of process deaths, the record
      expresses the last save that reached the backend. */
  lemma {:induction false} RecordExpressesLastSave(config: Config, steps: seq<Step>)
    ensures RecordIsWritten(Run(Boot(config, Some(DEFAULT_STATE)), steps))
  {
    if steps != [] {
      RecordExpressesLastSave(config, steps[..|steps| - 1]);
      StepKeepsWritten(Run(Boot(config, Some(DEFAULT_STATE)), steps[..|steps| - 1]), steps[|steps| - 1]);
    }
  }

  /** Exactly when the record expresses the intent of the saved history, for every run: unless a
      stale task's natural completion has been saved since the last decisive event, or nothing is
      wanted anyway. */
  lemma {:induction false} RecordIsIntentIff(config: Config, steps: seq<Step>)
    ensures var s := Run(Boot(config, Some(DEFAULT_STATE)), steps);
            s.record.Some? ==>
              (RecordIsIntent(s) <==> !StaleSince(Reached(s.seen.attempts)) || IntentAfter(Reached(s.seen.attempts)) == NO_WISH)
  {
    RecordExpressesLastSave(config, steps);
    var s := Run(Boot(config, Some(DEFAULT_STATE)), steps);
    if s.record.Some? {
      WrittenIsIntentOrStale(Reached(s.seen.attempts));
      ExpressesOne(s.record.value, Written(Reached(s.seen.attempts)), IntentAfter(Reached(s.seen.attempts)));
    }
  }

  // ----- completions of this process -----

  /** A completion is saved by a task of the same process. */
  ghost predicate CompletionsHaveTasks(s: State) {
    forall g | CompletedHere(Tried(s.seen.attempts), g) :: g in s.tasks
  }

  lemma SavesExtend(s: State, s': State, e: IntentEvent)
    requires CompletionsHaveTasks(s) && (forall g | g in s.tasks :: g in s'.tasks)
    requires AtMostOneMore(s, s', e)
    requires e.Completed? ==> e.generation in s.tasks
    ensures CompletionsHaveTasks(s')
  {
    if OneMore(s, s', e) {
      OneMoreTried(s, s', e);
    }
    AppendedSaves(Tried(s.seen.attempts), e);
  }

  /** The event whose save an actor step may carry out. */
  function SavedBy(s: State, a: ActorStep): IntentEvent {
    match a
    case Declare(desired, wanted, _) => Declared(desired, wanted)
    case StartPersist(_) => if s.actor.Spawned? then Launched(s.generation, s.actor.config) else Died
    case StopPersist(_) => if s.actor.Stopping? then Halted(s.actor.reason) else Died
    case _ => Died
  }

  /** The save of this event has been attempted, and nothing else. */
  predicate OneMore(s: State, s': State, e: IntentEvent) {
    || s'.seen.attempts == s.seen.attempts + [Attempt(e, true)]
    || s'.seen.attempts == s.seen.attempts + [Attempt(e, false)]
  }

  predicate AtMostOneMore(s: State, s': State, e: IntentEvent) {
    s'.seen.attempts == s.seen.attempts || OneMore(s, s', e)
  }

  lemma OneMoreTried(s: State, s': State, e: IntentEvent)
    requires OneMore(s, s', e)
    ensures Tried(s'.seen.attempts) == Tried(s.seen.attempts) + [e]
  {
    Attempted(s.seen.attempts, Attempt(e, true));
    Attempted(s.seen.attempts, Attempt(e, false));
  }

  lemma ActorSaves(s: State, a: ActorStep)
    ensures AtMostOneMore(s, ApplyActor(s, a), SavedBy(s, a))
  {
    if !(s.actor.Ready? && a.Declare?) && !(s.actor.Spawned? && a.StartPersist?) && !(s.actor.Stopping? && a.StopPersist?) {
      OthersLeaveIntent(s, a);
    }
  }

  lemma StepKeepsCompletions(s: State, step: Step)
    requires TokenInv(s) && CompletionsHaveTasks(s)
    ensures CompletionsHaveTasks(Apply(s, step))
  {
    match step {
      case Actor(a) =>
        ActorSaves(s, a);
        ActorLeavesEvents(s, a);
        SavesExtend(s, ApplyActor(s, a), SavedBy(s, a));
      case Work(g, t) =>
        if g in s.tasks {
          EffectSaves(s, g, s.tasks[g], t);
          SavesExtend(s, ApplyTask(s, g, t), Completed(g));
        }
      case Restart =>
        Attempted(s.seen.attempts, Attempt(Died, true));
        AppendedSaves(Tried(s.seen.attempts), Died);
    }
  }

  lemma EffectSaves(s: State, g: nat, task: Task, t: TaskStep)
    ensures AtMostOneMore(s, Effect(s, g, task, t), Completed(g))
  {
    if !(t.SettleIntent? && CompletedNaturally(task)) {
      EffectOnIntent(s, g, task, t);
    }
  }

  lemma {:induction false} CompletionsHaveTasksHolds(config: Config, steps: seq<Step>)
    ensures CompletionsHaveTasks(Run(Boot(config, Some(DEFAULT_STATE)), steps))
  {
    if steps != [] {
      CompletionsHaveTasksHolds(config, steps[..|steps| - 1]);
      TokenInvHolds(config, Some(DEFAULT_STATE), steps[..|steps| - 1]);
      StepKeepsCompletions(Run(Boot(config, Some(DEFAULT_STATE)), steps[..|steps| - 1]), steps[|steps| - 1]);
    }
  }

  // ----- which completions settle the intent -----

  /** A task that is about to settle the intent attempts a save exactly if its run returned normally
      and it read no stop of its own; the record changes in no other case. */
  lemma SettlesExactly(s: State, g: nat, saving: Saving)
    requires g in s.tasks && s.tasks[g].phase.Reported?
    ensures var task, s' := s.tasks[g], ApplyTask(s, g, SettleIntent(saving));
            if task.explicit.None? && task.outcome == Some(Finished) then
              && s'.seen.attempts == s.seen.attempts + [Attempt(Completed(g), s.record.Some? && saving.saves)]
              && (s.record.Some? && saving.saves ==> s'.record.Some? && !s'.record.value.desiredRunning && s'.record.value.lastStartConfig.None?)
              && (!saving.saves ==> s'.record == s.record)
            else s'.seen.attempts == s.seen.attempts && s'.record == s.record
  {
  }

  /** The task is past the point at which it settles the intent. */
  predicate PastSettling(task: Task) {
    task.phase.Settled? || task.phase.Notified? || (task.phase.Exited? && task.seen.Some?)
  }

  predicate CompletedUnstopped(task: Task) {
    PastSettling(task) && task.explicit.None? && task.outcome == Some(Finished)
  }

  ghost predicate SettledInv(s: State) {
    forall g :: CompletedHere(Tried(s.seen.attempts), g) <==> g in s.tasks && CompletedUnstopped(s.tasks[g])
  }

  lemma AdvanceOnSettling(s: State, g: nat, task: Task, t: TaskStep)
    requires Fits(task.phase, t) && TaskShape(task)
    ensures var task' := Advance(s, g, task, t);
            CompletedUnstopped(task')
            <==> if t.SettleIntent? then task.explicit.None? && task.outcome == Some(Finished) else CompletedUnstopped(task)
  {
  }

  lemma EffectOnAttempts(s: State, g: nat, task: Task, t: TaskStep)
    ensures var s' := Effect(s, g, task, t);
            if t.SettleIntent? && task.explicit.None? && task.outcome == Some(Finished) then OneMore(s, s', Completed(g))
            else s'.seen.attempts == s.seen.attempts
  {
  }

  lemma TaskKeepsSettled(s: State, s': State, g: nat, t: TaskStep)
    requires SettledInv(s) && g in s.tasks && Fits(s.tasks[g].phase, t) && TaskShape(s.tasks[g])
    requires s' == ApplyTask(s, g, t)
    ensures SettledInv(s')
  {
    AdvanceOnSettling(s, g, s.tasks[g], t);
    EffectOnAttempts(s, g, s.tasks[g], t);
    if OneMore(s, s', Completed(g)) {
      OneMoreTried(s, s', Completed(g));
      AppendedSaves(Tried(s.seen.attempts), Completed(g));
    }
  }

  lemma ActorKeepsSettled(s: State, s': State, a: ActorStep)
    requires TokenInv(s) && SettledInv(s) && s' == ApplyActor(s, a)
    ensures SettledInv(s')
  {
    ActorSaves(s, a);
    ActorLeavesEvents(s, a);
    NoCompletionByActor(s, s', SavedBy(s, a));
  }

  lemma NoCompletionByActor(s: State, s': State, e: IntentEvent)
    requires SettledInv(s) && AtMostOneMore(s, s', e) && !e.Completed?
    requires OneMore(s, s', e) ==> !e.Died?
    requires s'.tasks == s.tasks
             || (s.actor.Kept? && s.generation !in s.tasks && s'.tasks == s.tasks[s.generation := Task(Initialising, None, None, None, s.actor.callback)])
    ensures SettledInv(s')
  {
    if OneMore(s, s', e) {
      OneMoreTried(s, s', e);
      AppendedSaves(Tried(s.seen.attempts), e);
    }
  }

  lemma RestartKeepsSettled(s: State, s': State)
    requires s'.tasks == map[] && s'.seen.attempts == s.seen.attempts + [Attempt(Died, true)]
    ensures SettledInv(s')
  {
    Attempted(s.seen.attempts, Attempt(Died, true));
    AppendedSaves(Tried(s.seen.attempts), Died);
  }

  lemma StepKeepsSettled(s: State, step: Step)
    requires TokenInv(s) && EventsInv(s) && SettledInv(s)
    ensures SettledInv(Apply(s, step))
  {
    match step {
      case Actor(a) => ActorKeepsSettled(s, Apply(s, step), a);
      case Work(g, t) => if g in s.tasks && Fits(s.tasks[g].phase, t) { TaskKeepsSettled(s, Apply(s, step), g, t); }
      case Restart => RestartKeepsSettled(s, Reborn(s));
    }
  }

  /** In every reachable state a generation has tried to clear the intent exactly if its task is past
      that point, its run returned normally, and it read no stop of its own: a stopped task never
      touches the intent, and neither does a failed one. */
  lemma {:induction false} OnlyUnstoppedCompletionsSettle(config: Config, record: Option<DesiredState>, steps: seq<Step>)
    ensures SettledInv(Run(Boot(config, record), steps))
  {
    if steps != [] {
      var before, step := steps[..|steps| - 1], steps[|steps| - 1];
      OnlyUnstoppedCompletionsSettle(config, record, before);
      TokenInvHolds(config, record, before);
      EventsInvHolds(config, record, before);
      StepKeepsSettled(Run(Boot(config, record), before), step);
    }
  }

  // ----- the intent as the caller knows it -----

  /** The event whose save the command in progress still owes. */
  function Owed(s: State): seq<IntentEvent> {
    match s.actor
    case Spawned(config) => [Launched(s.generation, config)]
    case Stopping(reason) => [Halted(reason)]
    case _ => []
  }

  /** The decided events `a` and the saves `b`, in whatever order the saves came, mean the same. */
  predicate Agree(a: seq<IntentEvent>, b: seq<IntentEvent>) {
    IntentAfter(a) == Meant(b) && LatestLaunch(a) == LatestLaunch(b)
  }

  /** What was decided agrees with the saves including the one still owed, and what was answered
      with the saves made. */
  predicate AcceptedInv(s: State) {
    Agree(s.seen.accepted, Tried(s.seen.attempts) + Owed(s)) && Agree(s.seen.acknowledged, Tried(s.seen.attempts))
  }

  lemma AppendAgrees(a: seq<IntentEvent>, b: seq<IntentEvent>, e: IntentEvent)
    requires Agree(a, b) && (e.Launched? ==> !CompletedHere(b, e.generation))
    ensures Agree(a + [e], b + [e])
  {
    Appended(a, e);
    Appended(b, e);
    AppendedSaves(b, e);
  }

  /** A completion may be saved before a stop that was decided earlier. */
  lemma CompletionBeforeStop(a: seq<IntentEvent>, b: seq<IntentEvent>, g: nat, reason: StopReason)
    requires Agree(a, b + [Halted(reason)])
    ensures Agree(a + [Completed(g)], b + [Completed(g)] + [Halted(reason)])
  {
    Appended(a, Completed(g));
    Appended(b, Halted(reason));
    AppendedSaves(b, Halted(reason));
    Appended(b, Completed(g));
    AppendedSaves(b, Completed(g));
    Appended(b + [Completed(g)], Halted(reason));
    AppendedSaves(b + [Completed(g)], Halted(reason));
  }

  /** A completion may be saved before a start that was decided earlier, its own or a later one. */
  lemma CompletionBeforeStart(a: seq<IntentEvent>, b: seq<IntentEvent>, g: nat, launch: IntentEvent)
    requires launch.Launched? && Agree(a, b + [launch])
    ensures Agree(a + [Completed(g)], b + [Completed(g)] + [launch])
  {
    Appended(a, Completed(g));
    Appended(b, launch);
    AppendedSaves(b, launch);
    AppendedSaves(b, Completed(g));
    Appended(b + [Completed(g)], launch);
    AppendedSaves(b + [Completed(g)], launch);
  }

  lemma CommandKeepsAccepted(s: State, a: ActorStep)
    requires AcceptedInv(s) && s.actor.Ready?
    ensures AcceptedInv(ApplyActor(s, a))
  {
    var e := AcceptedBy(s, a);
    CommandAppends(s, a);
    if e.Some? {
      DecidedKeepsAccepted(s, ApplyActor(s, a), e.value);
    } else {
      SameKeepsAccepted(s, ApplyActor(s, a));
    }
  }

  /** The event a command accepts, if any, when the actor takes it. */
  function AcceptedBy(s: State, a: ActorStep): Option<IntentEvent> {
    match a
    case StopTake(reason) => if s.token.Some? then Some(Halted(reason)) else None
    case Declare(desired, wanted, _) => Some(Declared(desired, wanted))
    case _ => None
  }

  lemma CommandAppends(s: State, a: ActorStep)
    requires s.actor.Ready?
    ensures var s' := ApplyActor(s, a);
            match AcceptedBy(s, a)
            case None =>
              && s'.seen.accepted == s.seen.accepted && Owed(s') == Owed(s) == []
              && s'.seen.acknowledged == s.seen.acknowledged && s'.seen.attempts == s.seen.attempts
            case Some(e) =>
              && s'.seen.accepted == s.seen.accepted + [e] && Owed(s) == []
              && if a.Declare? then s'.seen.acknowledged == s'.seen.accepted && OneMore(s, s', e) && Owed(s') == []
                 else s'.seen.acknowledged == s.seen.acknowledged && s'.seen.attempts == s.seen.attempts && Owed(s') == [e]
  {
    CommandOwes(s, a);
  }

  lemma CommandOwes(s: State, a: ActorStep)
    requires s.actor.Ready?
    ensures Owed(ApplyActor(s, a)) == if a.StopTake? && s.token.Some? then [Halted(a.reason)] else []
  {
  }

  lemma MidCommandKeepsAccepted(s: State, a: ActorStep)
    requires AcceptedInv(s) && !s.actor.Ready?
    requires TokenInv(s) && CompletionsHaveTasks(s)
    ensures AcceptedInv(ApplyActor(s, a))
  {
    if s.actor.Kept? && a.StartSpawn? {
      SpawnAppends(s);
      DecidedKeepsAccepted(s, Spawn(s), Launched(s.generation, s.actor.config));
    } else if (s.actor.Spawned? && a.StartPersist?) || (s.actor.Stopping? && a.StopPersist?) {
      PersistAppends(s, a);
      AnsweredKeepsAccepted(s, ApplyActor(s, a), SavedBy(s, a));
    } else {
      OthersLeaveAccepted(s, a);
      SameKeepsAccepted(s, ApplyActor(s, a));
    }
  }

  /** An event has been decided; its save is owed or already made. */
  lemma DecidedKeepsAccepted(s: State, s': State, e: IntentEvent)
    requires AcceptedInv(s) && Owed(s) == [] && (e.Launched? ==> !CompletedHere(Tried(s.seen.attempts), e.generation))
    requires s'.seen.accepted == s.seen.accepted + [e]
    requires || (s'.seen.acknowledged == s.seen.acknowledged && s'.seen.attempts == s.seen.attempts && Owed(s') == [e])
             || (s'.seen.acknowledged == s'.seen.accepted && OneMore(s, s', e) && Owed(s') == [])
    ensures AcceptedInv(s')
  {
    var tried := Tried(s.seen.attempts);
    assert tried + [] == tried && tried + [e] + [] == tried + [e];
    AppendAgrees(s.seen.accepted, tried, e);
    if OneMore(s, s', e) {
      OneMoreTried(s, s', e);
    }
  }

  lemma AnsweredKeepsAccepted(s: State, s': State, e: IntentEvent)
    requires AcceptedInv(s) && Owed(s) == [e] && OneMore(s, s', e) && Owed(s') == []
    requires s'.seen.accepted == s'.seen.acknowledged == s.seen.accepted
    ensures AcceptedInv(s')
  {
    OneMoreTried(s, s', e);
    assert Tried(s'.seen.attempts) + [] == Tried(s'.seen.attempts);
  }

  lemma SameKeepsAccepted(s: State, s': State)
    requires AcceptedInv(s) && s'.seen.accepted == s.seen.accepted && s'.seen.acknowledged == s.seen.acknowledged
    requires s'.seen.attempts == s.seen.attempts && Owed(s') == Owed(s)
    ensures AcceptedInv(s')
  {
  }

  lemma SpawnAppends(s: State)
    requires s.actor.Kept?
    ensures var s' := ApplyActor(s, StartSpawn);
            && s'.seen.accepted == s.seen.accepted + [Launched(s.generation, s.actor.config)]
            && s'.seen.acknowledged == s.seen.acknowledged && s'.seen.attempts == s.seen.attempts
            && Owed(s) == [] && Owed(s') == [Launched(s.generation, s.actor.config)]
  {
  }

  /** The save at the end of a command is the one it owed. */
  lemma PersistAppends(s: State, a: ActorStep)
    requires (s.actor.Spawned? && a.StartPersist?) || (s.actor.Stopping? && a.StopPersist?)
    ensures var s' := ApplyActor(s, a);
            && Owed(s) == [SavedBy(s, a)] && OneMore(s, s', SavedBy(s, a)) && Owed(s') == []
            && s'.seen.accepted == s'.seen.acknowledged == s.seen.accepted
  {
  }

  lemma OthersLeaveAccepted(s: State, a: ActorStep)
    requires !s.actor.Ready? && !(s.actor.Kept? && a.StartSpawn?)
    requires !(s.actor.Spawned? && a.StartPersist?) && !(s.actor.Stopping? && a.StopPersist?)
    ensures var s' := ApplyActor(s, a);
            && s'.seen.accepted == s.seen.accepted && s'.seen.acknowledged == s.seen.acknowledged
            && s'.seen.attempts == s.seen.attempts && Owed(s') == Owed(s)
  {
    if ContinuesStart(a) {
      StartLeavesAccepted(s, a);
    }
  }

  lemma StartLeavesAccepted(s: State, a: ActorStep)
    requires ContinuesStart(a) && !(s.actor.Kept? && a.StartSpawn?) && !(s.actor.Spawned? && a.StartPersist?)
    ensures var s' := ContinueStart(s, a);
            && s'.seen.accepted == s.seen.accepted && s'.seen.acknowledged == s.seen.acknowledged
            && s'.seen.attempts == s.seen.attempts && Owed(s') == Owed(s)
  {
  }

  /** A completion has been decided and saved beside the command in progress. */
  lemma CompletionKeepsAccepted(s: State, s': State, g: nat)
    requires AcceptedInv(s) && s'.actor == s.actor && s'.generation == s.generation
    requires s'.seen.accepted == s.seen.accepted + [Completed(g)] && s'.seen.acknowledged == s.seen.acknowledged + [Completed(g)]
    requires OneMore(s, s', Completed(g))
    ensures AcceptedInv(s')
  {
    OneMoreTried(s, s', Completed(g));
    AppendAgrees(s.seen.acknowledged, Tried(s.seen.attempts), Completed(g));
    CompletionBeforeOwed(s.seen.accepted, Tried(s.seen.attempts), g, Owed(s));
  }

  /** A completion may be saved before whatever save is owed. */
  lemma CompletionBeforeOwed(a: seq<IntentEvent>, b: seq<IntentEvent>, g: nat, owed: seq<IntentEvent>)
    requires Agree(a, b + owed)
    requires owed == [] || (|owed| == 1 && (owed[0].Halted? || owed[0].Launched?))
    ensures Agree(a + [Completed(g)], b + [Completed(g)] + owed)
  {
    if owed == [] {
      assert b + owed == b && b + [Completed(g)] + owed == b + [Completed(g)];
      AppendAgrees(a, b, Completed(g));
    } else if owed[0].Halted? {
      assert owed == [Halted(owed[0].reason)];
      CompletionBeforeStop(a, b, g, owed[0].reason);
    } else {
      assert owed == [owed[0]];
      CompletionBeforeStart(a, b, g, owed[0]);
    }
  }

  lemma SettleAppends(s: State, g: nat, t: TaskStep)
    requires t.SettleIntent? && g in s.tasks
    requires CompletedNaturally(s.tasks[g]) && s.tasks[g].phase.Reported?
    ensures var s' := ApplyTask(s, g, t);
            && s'.seen.accepted == s.seen.accepted + [Completed(g)] && s'.seen.acknowledged == s.seen.acknowledged + [Completed(g)]
            && OneMore(s, s', Completed(g)) && s'.actor == s.actor && s'.generation == s.generation
  {
  }

  lemma QuietKeepsAccepted(s: State, s': State)
    requires AcceptedInv(s) && s'.seen.accepted == s.seen.accepted && s'.seen.acknowledged == s.seen.acknowledged
    requires s'.seen.attempts == s.seen.attempts && s'.actor == s.actor && s'.generation == s.generation
    ensures AcceptedInv(s')
  {
  }

  lemma TaskKeepsAccepted(s: State, s': State, g: nat, t: TaskStep)
    requires AcceptedInv(s) && g in s.tasks && Fits(s.tasks[g].phase, t)
    requires s' == ApplyTask(s, g, t)
    ensures AcceptedInv(s')
  {
    if t.SettleIntent? && CompletedNaturally(s.tasks[g]) {
      SettleAppends(s, g, t);
      CompletionKeepsAccepted(s, s', g);
    } else {
      EffectOnIntent(s, g, s.tasks[g], t);
      QuietKeepsAccepted(s, s');
    }
  }

  lemma RestartKeepsAccepted(s: State)
    requires AcceptedInv(s)
    ensures AcceptedInv(Reborn(s))
  {
    Attempted(s.seen.attempts, Attempt(Died, true));
    AppendAgrees(s.seen.acknowledged, Tried(s.seen.attempts), Died);
    assert Tried(s.seen.attempts) + [Died] + [] == Tried(s.seen.attempts) + [Died];
  }

  lemma RecordStays(s: State, step: Step)
    ensures Apply(s, step).record.Some? <==> s.record.Some?
  {
    match step {
      case Actor(a) => ActorKeepsRecord(s, a);
      case Work(g, t) => if g in s.tasks { EffectKeepsRecord(s, g, s.tasks[g], t); }
      case Restart =>
    }
  }

  lemma ActorKeepsRecord(s: State, a: ActorStep)
    ensures ApplyActor(s, a).record.Some? <==> s.record.Some?
  {
    if !(s.actor.Ready? && a.Declare?) && !(s.actor.Spawned? && a.StartPersist?) && !(s.actor.Stopping? && a.StopPersist?) {
      OthersLeaveIntent(s, a);
    }
  }

  lemma StepKeepsAccepted(s: State, step: Step)
    requires AcceptedInv(s) && TokenInv(s) && CompletionsHaveTasks(s)
    ensures AcceptedInv(Apply(s, step))
  {
    match step {
      case Actor(a) => if s.actor.Ready? { CommandKeepsAccepted(s, a); } else { MidCommandKeepsAccepted(s, a); }
      case Work(g, t) => if g in s.tasks && Fits(s.tasks[g].phase, t) { TaskKeepsAccepted(s, Apply(s, step), g, t); }
      case Restart => RestartKeepsAccepted(s);
    }
  }

  lemma {:induction false} AcceptedInvHolds(config: Config, steps: seq<Step>)
    ensures AcceptedInv(Run(Boot(config, Some(DEFAULT_STATE)), steps))
    ensures Run(Boot(config, Some(DEFAULT_STATE)), steps).record.Some?
  {
    if steps != [] {
      var before, step := steps[..|steps| - 1], steps[|steps| - 1];
      AcceptedInvHolds(config, before);
      TokenInvHolds(config, Some(DEFAULT_STATE), before);
      CompletionsHaveTasksHolds(config, before);
      StepKeepsAccepted(Run(Boot(config, Some(DEFAULT_STATE)), before), step);
      RecordStays(Run(Boot(config, Some(DEFAULT_STATE)), before), step);
    }
  }

  /** Exactly when the record between commands expresses what was decided, in the order in which it
      was decided: for every run, however tasks interleave with the saves, saves fail and processes
      die.  If a decisive save has been lost since the last that reached the backend, only when that
      one asked for the same; if not, and a stale completion was saved since the last decisive event,
      only when nothing is wanted; otherwise, unless the last decisive save is that of a start whose
      own task had already completed. */
  lemma {:induction false} RecordFollowsAcceptedIff(config: Config, steps: seq<Step>)
    ensures var s := Run(Boot(config, Some(DEFAULT_STATE)), steps);
            s.actor.Ready? ==>
              && s.record.Some?
              && (Expresses(s.record.value, IntentAfter(s.seen.accepted)) <==> SavesFollow(s))
  {
    RecordExpressesLastSave(config, steps);
    AcceptedInvHolds(config, steps);
    var s := Run(Boot(config, Some(DEFAULT_STATE)), steps);
    if s.actor.Ready? {
      AcceptedExactly(s);
    }
  }

  predicate SavesFollow(s: State) {
    if Lost(s.seen.attempts) then Written(Reached(s.seen.attempts)) == IntentAfter(s.seen.accepted)
    else if StaleSaved(s.seen.attempts) then IntentAfter(s.seen.accepted) == NO_WISH
    else !Late(Tried(s.seen.attempts))
  }

  lemma AcceptedExactly(s: State)
    requires RecordIsWritten(s) && AcceptedInv(s) && s.record.Some? && s.actor.Ready?
    ensures Expresses(s.record.value, IntentAfter(s.seen.accepted)) <==> SavesFollow(s)
  {
    var tried := Tried(s.seen.attempts);
    assert tried + [] == tried;
    ExpressesOne(s.record.value, Written(Reached(s.seen.attempts)), IntentAfter(s.seen.accepted));
    if !Lost(s.seen.attempts) {
      ReachedIsIntentUnlessLost(s.seen.attempts);
    }
    if Late(tried) {
      LateWantsService(tried);
    }
  }

  /** If every save reaches the backend, none is lost. */
  lemma {:induction false} NothingLost(log: seq<Attempt>)
    requires forall i | 0 <= i < |log| :: log[i].reached
    ensures !Lost(log)
  {
    if log != [] {
      NothingLost(log[..|log| - 1]);
    }
  }

  // ----- callers that do not overlap generations -----

  /** The discipline of a caller that does not overlap generations: a start is issued only when
      every earlier task has exited, and a start's save precedes its own task's. */
  ghost predicate Disciplined(s: State, step: Step) {
    match step
    case Restart => true
    case Work(g, t) => t.SettleIntent? ==> !s.actor.Spawned?
    case Actor(a) => a.StartInstall? ==> forall g | g in s.tasks :: s.tasks[g].phase.Exited?
  }

  ghost predicate DisciplinedRun(s: State, steps: seq<Step>) {
    forall i | 0 <= i < |steps| :: Disciplined(Run(s, steps[..i]), steps[i])
  }

  predicate InOrder(log: seq<IntentEvent>) {
    !StaleSince(log) && !Late(log)
  }

  /** Only the latest generation has a live task, and between commands its start is the latest saved. */
  ghost predicate SingleTask(s: State) {
    && (s.actor.Booting? ==> s.tasks == map[])
    && (forall g | g in s.tasks && !s.tasks[g].phase.Exited? ::
          g == s.generation && (!s.actor.Spawned? ==> LatestLaunch(Tried(s.seen.attempts)) == Some(g)))
  }

  /** Nothing stale or late has been saved, and the start being saved has not completed yet. */
  ghost predicate OrderInv(s: State) {
    InOrder(Tried(s.seen.attempts)) && (s.actor.Spawned? ==> !CompletedHere(Tried(s.seen.attempts), s.generation))
  }

  lemma CommandKeepsSingleTask(s: State, a: ActorStep)
    requires TokenInv(s) && SingleTask(s) && Disciplined(s, Actor(a)) && s.actor.Ready?
    ensures SingleTask(ApplyActor(s, a))
  {
    if a.Declare? {
      ActorSaves(s, a);
      OneMoreTried(s, ApplyActor(s, a), Declared(a.desired, a.wanted));
      Appended(Tried(s.seen.attempts), Declared(a.desired, a.wanted));
    }
  }

  lemma PersistKeepsSingleTask(s: State, a: ActorStep)
    requires TokenInv(s) && SingleTask(s) && Disciplined(s, Actor(a))
    requires (s.actor.Spawned? && a.StartPersist?) || (s.actor.Stopping? && a.StopPersist?)
    ensures SingleTask(ApplyActor(s, a))
  {
    PersistAppends(s, a);
    OneMoreTried(s, ApplyActor(s, a), SavedBy(s, a));
    if s.actor.Spawned? {
      Appended(Tried(s.seen.attempts), Launched(s.generation, s.actor.config));
    } else {
      Appended(Tried(s.seen.attempts), Halted(s.actor.reason));
    }
  }

  lemma MidCommandKeepsSingleTask(s: State, a: ActorStep)
    requires TokenInv(s) && SingleTask(s) && Disciplined(s, Actor(a)) && !s.actor.Ready?
    requires !(s.actor.Spawned? && a.StartPersist?) && !(s.actor.Stopping? && a.StopPersist?)
    ensures SingleTask(ApplyActor(s, a))
  {
    OthersLeaveIntent(s, a);
  }

  lemma TaskKeepsSingleTask(s: State, g: nat, t: TaskStep)
    requires TokenInv(s) && SingleTask(s) && g in s.tasks && Fits(s.tasks[g].phase, t)
    ensures SingleTask(ApplyTask(s, g, t))
  {
    EffectFrame(s, g, s.tasks[g], t);
    EffectSaves(s, g, s.tasks[g], t);
    if OneMore(s, ApplyTask(s, g, t), Completed(g)) {
      OneMoreTried(s, ApplyTask(s, g, t), Completed(g));
    }
    Appended(Tried(s.seen.attempts), Completed(g));
  }

  lemma EffectKeepsRecord(s: State, g: nat, task: Task, t: TaskStep)
    ensures Effect(s, g, task, t).record.Some? <==> s.record.Some?
  {
    if !(t.SettleIntent? && CompletedNaturally(task)) {
      EffectOnIntent(s, g, task, t);
    }
  }

  lemma StepKeepsSingleTask(s: State, step: Step)
    requires TokenInv(s) && SingleTask(s) && Disciplined(s, step)
    ensures SingleTask(Apply(s, step))
  {
    match step {
      case Actor(a) =>
        if s.actor.Ready? {
          CommandKeepsSingleTask(s, a);
        } else if (s.actor.Spawned? && a.StartPersist?) || (s.actor.Stopping? && a.StopPersist?) {
          PersistKeepsSingleTask(s, a);
        } else {
          MidCommandKeepsSingleTask(s, a);
        }
      case Work(g, t) => if g in s.tasks && Fits(s.tasks[g].phase, t) { TaskKeepsSingleTask(s, g, t); }
      case Restart =>
    }
  }

  lemma ActorKeepsOrder(s: State, a: ActorStep)
    requires TokenInv(s) && CompletionsHaveTasks(s) && OrderInv(s)
    ensures OrderInv(ApplyActor(s, a))
  {
    ActorSaves(s, a);
    SpawnIsFresh(s, a);
    OrderedStep(s, ApplyActor(s, a), SavedBy(s, a));
  }

  lemma OrderedStep(s: State, s': State, e: IntentEvent)
    requires OrderInv(s) && CompletionsHaveTasks(s) && AtMostOneMore(s, s', e) && !e.Completed?
    requires e.Launched? && s'.seen.attempts != s.seen.attempts ==> s.actor.Spawned? && e.generation == s.generation
    requires s'.actor.Spawned? ==> s' == s || (s.generation !in s.tasks && s'.generation == s.generation && s'.seen.attempts == s.seen.attempts)
    ensures OrderInv(s')
  {
    if OneMore(s, s', e) {
      OneMoreTried(s, s', e);
    }
    AppendedSaves(Tried(s.seen.attempts), e);
  }

  lemma SpawnIsFresh(s: State, a: ActorStep)
    requires TokenInv(s)
    ensures var s' := ApplyActor(s, a);
            && (s'.actor.Spawned? ==> s' == s || (s.generation !in s.tasks && s'.generation == s.generation && s'.seen.attempts == s.seen.attempts))
            && (a.StartPersist? && s'.seen.attempts != s.seen.attempts ==> s.actor.Spawned?)
  {
  }

  lemma SettledInOrder(s: State, s': State, g: nat)
    requires OrderInv(s) && !s.actor.Spawned? && s'.actor == s.actor && LatestLaunch(Tried(s.seen.attempts)) == Some(g)
    requires AtMostOneMore(s, s', Completed(g))
    ensures OrderInv(s')
  {
    if OneMore(s, s', Completed(g)) {
      OneMoreTried(s, s', Completed(g));
    }
    AppendedSaves(Tried(s.seen.attempts), Completed(g));
  }

  lemma StepKeepsOrder(s: State, step: Step)
    requires TokenInv(s) && CompletionsHaveTasks(s) && OrderInv(s) && SingleTask(s) && Disciplined(s, step)
    ensures OrderInv(Apply(s, step))
  {
    match step {
      case Actor(a) => ActorKeepsOrder(s, a);
      case Work(g, t) =>
        if g in s.tasks && Fits(s.tasks[g].phase, t) {
          EffectFrame(s, g, s.tasks[g], t);
          if t.SettleIntent? && CompletedNaturally(s.tasks[g]) {
            EffectSaves(s, g, s.tasks[g], t);
            SettledInOrder(s, ApplyTask(s, g, t), g);
          } else {
            EffectOnIntent(s, g, s.tasks[g], t);
          }
        }
      case Restart =>
        Attempted(s.seen.attempts, Attempt(Died, true));
        AppendedSaves(Tried(s.seen.attempts), Died);
    }
  }

  /** Callers that do not overlap generations never see a stale completion or a late start. */
  lemma {:induction false} DisciplinedIsInOrder(config: Config, steps: seq<Step>)
    requires DisciplinedRun(Boot(config, Some(DEFAULT_STATE)), steps)
    ensures SingleTask(Run(Boot(config, Some(DEFAULT_STATE)), steps))
    ensures OrderInv(Run(Boot(config, Some(DEFAULT_STATE)), steps))
  {
    var s0 := Boot(config, Some(DEFAULT_STATE));
    if steps != [] {
      var n := |steps| - 1;
      DisciplinedPrefix(s0, steps, n);
      DisciplinedIsInOrder(config, steps[..n]);
      TokenInvHolds(config, Some(DEFAULT_STATE), steps[..n]);
      CompletionsHaveTasksHolds(config, steps[..n]);
      StepKeepsSingleTask(Run(s0, steps[..n]), steps[n]);
      StepKeepsOrder(Run(s0, steps[..n]), steps[n]);
    }
  }

  lemma DisciplinedPrefix(s: State, steps: seq<Step>, n: nat)
    requires DisciplinedRun(s, steps) && n < |steps|
    ensures DisciplinedRun(s, steps[..n]) && Disciplined(Run(s, steps[..n]), steps[n])
  {
    forall i | 0 <= i < n ensures Disciplined(Run(s, steps[..n][..i]), steps[..n][i]) {
      assert steps[..n][..i] == steps[..i];
    }
  }

  lemma {:induction false} StaleSavedIsStale(log: seq<Attempt>)
    requires StaleSaved(log)
    ensures StaleSince(Tried(log))
  {
    var before, x := log[..|log| - 1], log[|log| - 1];
    Attempted(before, x);
    assert before + [x] == log;
    AppendedSaves(Tried(before), x.event);
    if !(x.event.Completed? && x.reached) {
      StaleSavedIsStale(before);
    }
  }

  /** So for such callers, unless a decisive save is lost, the record between commands is the fold over
      what was decided. */
  lemma {:induction false} RecordFollowsAcceptedCommands(config: Config, steps: seq<Step>)
    requires DisciplinedRun(Boot(config, Some(DEFAULT_STATE)), steps)
    ensures var s := Run(Boot(config, Some(DEFAULT_STATE)), steps);
            s.actor.Ready? && !Lost(s.seen.attempts) ==>
              s.record.Some? && Expresses(s.record.value, IntentAfter(s.seen.accepted))
  {
    DisciplinedIsInOrder(config, steps);
    RecordFollowsAcceptedIff(config, steps);
    var s := Run(Boot(config, Some(DEFAULT_STATE)), steps);
    if StaleSaved(s.seen.attempts) {
      StaleSavedIsStale(s.seen.attempts);
    }
  }

  // ----- boot -----

  /** After every history the process may die: the next one replays a start on boot exactly on
      desktop, with a boot app, with consent, and when the history's intent wants the service with
      that config and no stale completion has been saved since; the start is installed exactly when
      its type passes. */
  lemma {:induction false} BootReplaysIntent(config: Config, steps: seq<Step>, bootApp: Option<nat>, consent: bool, start: StartConfig)
    ensures var s := Run(Boot(config, Some(DEFAULT_STATE)), steps);
            var reborn := Apply(s, Restart);
            s.record.Some? ==>
              (Apply(reborn, Actor(BootReplay(bootApp, consent, true))).actor == Installed(start)
               <==> (reborn.config.mode.DesktopInProcess? || reborn.config.mode.DesktopOsService?)
                    && bootApp.Some? && consent
                    && !StaleSince(Reached(s.seen.attempts)) && IntentAfter(Reached(s.seen.attempts)) == Wish(true, Some(start))
                    && TypeRefusal(reborn, start.foregroundServiceType).Ok?)
  {
    RecordExpressesLastSave(config, steps);
    var s := Run(Boot(config, Some(DEFAULT_STATE)), steps);
    if s.record.Some? {
      WrittenIsIntentOrStale(Reached(s.seen.attempts));
      WishesAreWhole(Reached(s.seen.attempts));
      ReplayInstalls(Reborn(s), bootApp, consent, start, Written(Reached(s.seen.attempts)));
    }
  }

  lemma ReplayInstalls(s: State, bootApp: Option<nat>, consent: bool, start: StartConfig, w: Wish)
    requires s.actor.Booting? && s.token.None? && s.record.Some? && Expresses(s.record.value, w)
    requires !w.desired ==> w.config.None?
    ensures Apply(s, Actor(BootReplay(bootApp, consent, true))).actor == Installed(start)
            <==> (s.config.mode.DesktopInProcess? || s.config.mode.DesktopOsService?)
                 && bootApp.Some? && consent && w == Wish(true, Some(start))
                 && TypeRefusal(s, start.foregroundServiceType).Ok?
  {
    ReplayFollowsWish(s.config.mode, true, consent, s.record.value, w);
  }

  /** A wish that does not want the service carries no config. */
  lemma {:induction false} WishesAreWhole(log: seq<IntentEvent>)
    ensures !IntentAfter(log).desired ==> IntentAfter(log).config.None?
  {
    if log != [] {
      WishesAreWhole(log[..|log| - 1]);
    }
  }
}
