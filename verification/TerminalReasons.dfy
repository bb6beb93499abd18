/** Explicit stops, the one reason slot, and which reason a task ends up reporting. */
module TerminalReasons {
  import opened Wrappers
  import opened Models
  import opened DesiredStateRecord
  import opened Lifecycle
  import opened TokenSafety

  /** What the slot holds after a sequence of stops. */
  function Latest(stops: seq<Stop>): Option<Stop> {
    if stops == [] then None else Some(stops[|stops| - 1])
  }

  /** The reason a task of generation `g` finds after a sequence of stops. */
  function ReasonFor(stops: seq<Stop>, g: nat): Option<StopReason> {
    if stops != [] && stops[|stops| - 1].generation == g then Some(stops[|stops| - 1].reason) else None
  }

  ghost predicate StopsBelow(stops: seq<Stop>, bound: int) {
    forall i | 0 <= i < |stops| :: 1 <= stops[i].generation < bound
  }

  ghost predicate StopsIncrease(stops: seq<Stop>) {
    forall i, j | 0 <= i < j < |stops| :: stops[i].generation < stops[j].generation
  }

  /** The latest stop is the current generation's. */
  predicate CurrentStopped(s: State) {
    s.seen.stops != [] && s.seen.stops[|s.seen.stops| - 1].generation == s.generation
  }

  predicate MustHaveRead(phase: Phase) {
    phase.Classified? || phase.Reported? || phase.Settled? || phase.Notified?
  }

  predicate CannotHaveRead(phase: Phase) {
    !MustHaveRead(phase) && !phase.Exited?
  }

  predicate TaskReasonInv(stops: seq<Stop>, g: nat, task: Task) {
    && (MustHaveRead(task.phase) ==> task.seen.Some?)
    && (CannotHaveRead(task.phase) ==> task.seen.None?)
    && (task.seen.None? ==> task.explicit.None?)
    && (task.seen.Some? ==> task.seen.value <= |stops| && task.explicit == ReasonFor(stops[..task.seen.value], g))
  }

  ghost predicate StopsInv(s: State) {
    && StopsIncrease(s.seen.stops)
    && StopsBelow(s.seen.stops, s.generation + 1)
    && (s.token.Some? || s.actor.Recording? ==> StopsBelow(s.seen.stops, s.generation))
    && s.terminalReason == Latest(s.seen.stops)
    && (s.token.None? && !s.actor.Recording? && s.generation in s.tasks && BeforeCleanup(s.tasks[s.generation].phase)
        ==> CurrentStopped(s))
    && (forall g | g in s.tasks :: TaskReasonInv(s.seen.stops, g, s.tasks[g]))
  }

  lemma PrefixOfAppended(stops: seq<Stop>, stop: Stop, n: nat)
    requires n <= |stops|
    ensures (stops + [stop])[..n] == stops[..n]
  {
  }

  /** Recording a further stop keeps every task's account of what it read. */
  lemma AppendKeepsReads(s: State, stop: Stop)
    requires forall g | g in s.tasks :: TaskReasonInv(s.seen.stops, g, s.tasks[g])
    ensures forall g | g in s.tasks :: TaskReasonInv(s.seen.stops + [stop], g, s.tasks[g])
  {
    forall g | g in s.tasks ensures TaskReasonInv(s.seen.stops + [stop], g, s.tasks[g]) {
      if s.tasks[g].seen.Some? {
        PrefixOfAppended(s.seen.stops, stop, s.tasks[g].seen.value);
      }
    }
  }

  lemma CommandKeepsStops(s: State, a: ActorStep)
    requires TokenInv(s) && StopsInv(s) && s.actor.Ready?
    ensures StopsInv(ApplyActor(s, a))
  {
    if a.StopTake? {
      StopKeepsStops(s, a.reason);
    }
  }

  lemma StopKeepsStops(s: State, reason: StopReason)
    requires TokenInv(s) && StopsInv(s) && s.actor.Ready?
    ensures StopsInv(TakeForStop(s, reason))
  {
    AppendKeepsReads(s, Stop(s.generation, reason));
  }

  lemma RecordKeepsStops(s: State)
    requires TokenInv(s) && StopsInv(s) && s.actor.Recording?
    ensures StopsInv(RecordNativeStop(s))
  {
    AppendKeepsReads(s, Stop(s.generation, NativeNotificationStop));
  }

  lemma StartKeepsStops(s: State, a: ActorStep)
    requires TokenInv(s) && StopsInv(s) && !s.actor.Ready? && ContinuesStart(a)
    ensures StopsInv(ApplyActor(s, a))
  {
    if s.actor.Kept? && a.StartSpawn? {
      SpawnKeepsStops(s, Spawn(s));
    } else {
      StartLeavesStops(s, a);
      StartedKeepsStops(s, ContinueStart(s, a));
    }
  }

  lemma SpawnKeepsStops(s: State, s': State)
    requires TokenInv(s) && StopsInv(s) && s.actor.Kept? && s' == Spawn(s)
    ensures StopsInv(s')
  {
  }

  lemma StartLeavesStops(s: State, a: ActorStep)
    requires ContinuesStart(a) && !(s.actor.Kept? && a.StartSpawn?)
    ensures var s' := ContinueStart(s, a);
            && s'.seen.stops == s.seen.stops && s'.terminalReason == s.terminalReason
            && s'.generation == s.generation && s'.tasks == s.tasks
            && (s'.actor.Recording? <==> s.actor.Recording?)
            && (s'.token == s.token || (s.actor.RollingBack? && s'.token.None?))
  {
  }

  lemma StartedKeepsStops(s: State, s': State)
    requires TokenInv(s) && StopsInv(s)
    requires s'.seen.stops == s.seen.stops && s'.terminalReason == s.terminalReason
    requires s'.generation == s.generation && s'.tasks == s.tasks && (s'.actor.Recording? <==> s.actor.Recording?)
    requires s'.token == s.token || (s.actor.RollingBack? && s'.token.None?)
    ensures StopsInv(s')
  {
  }

  /** Nothing the stop record depends on has changed: a token is at most handed over to be recorded. */
  predicate StopsUntouched(s: State, s': State) {
    && s'.seen.stops == s.seen.stops && s'.terminalReason == s.terminalReason
    && s'.generation == s.generation && s'.tasks == s.tasks
    && ((s'.token.Some? || s'.actor.Recording?) <==> (s.token.Some? || s.actor.Recording?))
  }

  lemma UntouchedKeepsStops(s: State, s': State)
    requires StopsInv(s) && StopsUntouched(s, s')
    ensures StopsInv(s')
  {
  }

  lemma MidCommandLeavesStops(s: State, a: ActorStep)
    requires !s.actor.Ready? && !ContinuesStart(a) && !a.ReconcileRecord? && !a.BootReplay?
    ensures StopsUntouched(s, ApplyActor(s, a))
  {
    if !a.StopPersist? && !a.PollMerge? && !a.PollLifecycle? {
      ReconcileLeavesStops(s, a);
    }
  }

  lemma ReconcileLeavesStops(s: State, a: ActorStep)
    requires !a.ReconcileRecord?
    ensures StopsUntouched(s, Reconcile(s, a))
  {
  }

  lemma BootKeepsStops(s: State, a: ActorStep)
    requires TokenInv(s) && StopsInv(s) && a.BootReplay? && !s.actor.Ready?
    ensures StopsInv(ApplyActor(s, a))
  {
  }

  lemma ActorKeepsStops(s: State, a: ActorStep)
    requires TokenInv(s) && StopsInv(s)
    ensures StopsInv(ApplyActor(s, a))
  {
    if s.actor.Ready? {
      CommandKeepsStops(s, a);
    } else if ContinuesStart(a) {
      StartKeepsStops(s, a);
    } else if a.BootReplay? {
      BootKeepsStops(s, a);
    } else if !a.ReconcileRecord? {
      MidCommandLeavesStops(s, a);
      UntouchedKeepsStops(s, ApplyActor(s, a));
    } else if s.actor.Recording? {
      RecordKeepsStops(s);
    }
  }

  lemma AdvanceKeepsRead(s: State, g: nat, task: Task, t: TaskStep)
    requires TaskReasonInv(s.seen.stops, g, task) && Fits(task.phase, t) && s.terminalReason == Latest(s.seen.stops)
    ensures TaskReasonInv(s.seen.stops, g, Advance(s, g, task, t))
    ensures BeforeCleanup(Advance(s, g, task, t).phase) ==> BeforeCleanup(task.phase) && !t.Cleanup?
  {
    assert s.seen.stops[..|s.seen.stops|] == s.seen.stops;
  }

  lemma TaskChangeKeepsStops(s: State, s': State, g: nat)
    requires StopsInv(s) && g in s.tasks && ActorSideSame(s, s')
    requires g in s'.tasks && s'.tasks == s.tasks[g := s'.tasks[g]] && TaskReasonInv(s.seen.stops, g, s'.tasks[g])
    requires BeforeCleanup(s'.tasks[g].phase) ==> BeforeCleanup(s.tasks[g].phase)
    requires s'.token == s.token || (s'.token.None? && g == s.generation && !BeforeCleanup(s'.tasks[g].phase))
    ensures StopsInv(s')
  {
  }

  lemma TaskKeepsStops(s: State, g: nat, t: TaskStep)
    requires TokenInv(s) && StopsInv(s) && g in s.tasks
    ensures StopsInv(ApplyTask(s, g, t))
  {
    if Fits(s.tasks[g].phase, t) {
      EffectFrame(s, g, s.tasks[g], t);
      AdvanceKeepsRead(s, g, s.tasks[g], t);
      TaskChangeKeepsStops(s, ApplyTask(s, g, t), g);
    }
  }

  lemma {:induction false} StopsInvHolds(config: Config, record: Option<DesiredState>, steps: seq<Step>)
    ensures StopsInv(Run(Boot(config, record), steps))
  {
    if steps != [] {
      var before, step := steps[..|steps| - 1], steps[|steps| - 1];
      StopsInvHolds(config, record, before);
      TokenInvHolds(config, record, before);
      var s := Run(Boot(config, record), before);
      match step {
        case Actor(a) => ActorKeepsStops(s, a);
        case Work(g, t) => if g in s.tasks { TaskKeepsStops(s, g, t); }
        case Restart =>
      }
    }
  }

  // ----- cancellation -----

  predicate Stopped(stops: seq<Stop>, g: nat) {
    exists i | 0 <= i < |stops| :: stops[i].generation == g
  }

  /** The cancelled tokens are those of the stopped generations, and of the one that reconciliation has
      cancelled and is about to record. */
  ghost predicate CancelledInv(s: State) {
    forall g :: g in s.cancelled <==> Stopped(s.seen.stops, g) || (s.actor.Recording? && g == s.generation)
  }

  lemma StoppedAppended(stops: seq<Stop>, stop: Stop)
    ensures forall g :: Stopped(stops + [stop], g) <==> Stopped(stops, g) || g == stop.generation
  {
    forall g ensures Stopped(stops + [stop], g) <==> Stopped(stops, g) || g == stop.generation {
      if Stopped(stops, g) {
        var i :| 0 <= i < |stops| && stops[i].generation == g;
        assert (stops + [stop])[i].generation == g;
      }
      assert (stops + [stop])[|stops|] == stop;
    }
  }

  /** Which actor steps cancel, and which record a stop. */
  lemma ActorCancels(s: State, a: ActorStep)
    ensures var s' := ApplyActor(s, a);
            if s.actor.Ready? && a.StopTake? && s.token.Some? then
              s'.cancelled == s.cancelled + {s.token.value} && s'.seen.stops == s.seen.stops + [Stop(s.generation, a.reason)]
              && !s'.actor.Recording?
            else if s.actor.Releasing? && a.ReconcileTake? && s.token.Some? then
              s'.cancelled == s.cancelled + {s.token.value} && s'.seen.stops == s.seen.stops
              && s'.actor.Recording? && s'.generation == s.generation
            else if s.actor.Recording? && a.ReconcileRecord? then
              s'.cancelled == s.cancelled && s'.seen.stops == s.seen.stops + [Stop(s.generation, NativeNotificationStop)]
              && !s'.actor.Recording?
            else
              s'.cancelled == s.cancelled && s'.seen.stops == s.seen.stops
              && (s'.actor.Recording? <==> s.actor.Recording?) && (s.actor.Recording? ==> s'.generation == s.generation)
  {
    if s.actor.Ready? {
      CommandCancels(s, a);
    } else if ContinuesStart(a) {
      StartCancelsNothing(s, a);
    }
  }

  lemma CommandCancels(s: State, a: ActorStep)
    requires s.actor.Ready?
    ensures var s' := Command(s, a);
            && !s'.actor.Recording?
            && if a.StopTake? && s.token.Some? then
                 s'.cancelled == s.cancelled + {s.token.value} && s'.seen.stops == s.seen.stops + [Stop(s.generation, a.reason)]
               else s'.cancelled == s.cancelled && s'.seen.stops == s.seen.stops
  {
  }

  lemma StartCancelsNothing(s: State, a: ActorStep)
    requires ContinuesStart(a)
    ensures var s' := ContinueStart(s, a);
            && s'.cancelled == s.cancelled && s'.seen.stops == s.seen.stops && s'.generation == s.generation
            && (s'.actor.Recording? <==> s.actor.Recording?)
  {
  }

  lemma StepKeepsCancelled(s: State, step: Step)
    requires TokenInv(s) && CancelledInv(s)
    ensures CancelledInv(Apply(s, step))
  {
    match step {
      case Actor(a) =>
        ActorCancels(s, a);
        if a.StopTake? {
          StoppedAppended(s.seen.stops, Stop(s.generation, a.reason));
        }
        StoppedAppended(s.seen.stops, Stop(s.generation, NativeNotificationStop));
      case Work(g, t) => if g in s.tasks { EffectFrame(s, g, s.tasks[g], t); }
      case Restart =>
    }
  }

  /** In every reachable state a service has been told to stop exactly if its generation was explicitly
      stopped, by a command or by native, or is just being. */
  lemma {:induction false} CancelledExactly(config: Config, record: Option<DesiredState>, steps: seq<Step>)
    ensures CancelledInv(Run(Boot(config, record), steps))
  {
    if steps != [] {
      CancelledExactly(config, record, steps[..|steps| - 1]);
      TokenInvHolds(config, record, steps[..|steps| - 1]);
      StepKeepsCancelled(Run(Boot(config, record), steps[..|steps| - 1]), steps[|steps| - 1]);
    }
  }

  /** In an increasing sequence of stops, the last one is for `g` exactly when `g` is stopped and
      nothing later is. */
  lemma ReasonForExact(stops: seq<Stop>, g: nat, r: StopReason)
    requires StopsIncrease(stops)
    ensures ReasonFor(stops, g) == Some(r)
            <==> Stop(g, r) in stops && forall i | 0 <= i < |stops| :: stops[i].generation <= g
  {
    if ReasonFor(stops, g) == Some(r) {
      assert stops[|stops| - 1] == Stop(g, r);
    }
  }

  // ----- main results -----

  /** Every generation is explicitly stopped at most once, and the slot holds the stop of the
      greatest stopped generation. */
  lemma {:induction false} SlotHoldsGreatestStop(config: Config, record: Option<DesiredState>, steps: seq<Step>)
    ensures var s := Run(Boot(config, record), steps);
            && (forall i, j | 0 <= i < j < |s.seen.stops| :: s.seen.stops[i].generation != s.seen.stops[j].generation)
            && (s.terminalReason.None? <==> s.seen.stops == [])
            && (s.terminalReason.Some? ==>
                  s.terminalReason.value in s.seen.stops
                  && forall i | 0 <= i < |s.seen.stops| :: s.seen.stops[i].generation <= s.terminalReason.value.generation)
  {
    StopsInvHolds(config, record, steps);
  }

  /** A task that has read the slot took reason `r` for explicit exactly when its own stop, with
      that reason, was recorded before the read and no later generation's was.  So a reason never
      reaches another generation, and an own reason is missed only if overwritten or late. */
  lemma ExplicitReasonExact(config: Config, record: Option<DesiredState>, steps: seq<Step>, g: nat, r: StopReason)
    ensures var s := Run(Boot(config, record), steps);
            g in s.tasks && s.tasks[g].seen.Some? ==>
              && s.tasks[g].seen.value <= |s.seen.stops|
              && var known := s.seen.stops[..s.tasks[g].seen.value];
                 (s.tasks[g].explicit == Some(r)
                  <==> Stop(g, r) in known && forall i | 0 <= i < |known| :: known[i].generation <= g)
  {
    StopsInvHolds(config, record, steps);
    var s := Run(Boot(config, record), steps);
    if g in s.tasks && s.tasks[g].seen.Some? {
      ReasonForExact(s.seen.stops[..s.tasks[g].seen.value], g, r);
      assert TaskReasonInv(s.seen.stops, g, s.tasks[g]);
    }
  }
}
