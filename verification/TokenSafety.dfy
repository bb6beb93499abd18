/** Who owns the token, who may release it, and why a start is never refused for good. */
module TokenSafety {
  import opened Wrappers
  import opened Models
  import opened DesiredStateRecord
  import opened Lifecycle

  /** The task has not been through its guarded cleanup. */
  predicate BeforeCleanup(phase: Phase) {
    !phase.InitCleaned? && !phase.Exited?
  }

  /** The actor is inside a start whose task is not spawned yet. */
  predicate Launching(pc: ActorPc) {
    pc.Installed? || pc.Captured? || pc.Kept? || pc.RollingBack?
  }

  ghost predicate TokenInv(s: State) {
    && (forall g | g in s.tasks :: 1 <= g <= s.generation)
    && (forall c | c in s.cancelled :: c <= s.generation)
    && (s.token.Some? ==> s.token.value == s.generation >= 1 && s.generation !in s.cancelled)
    && (Launching(s.actor) ==> s.token.Some? && s.generation !in s.tasks)
    && (s.actor.TokenReturned? ==> s.token.None? && s.generation !in s.tasks)
    && (s.actor.Spawned? ==> s.generation in s.tasks)
    && (s.actor.Recording? ==> s.generation >= 1)
    && (s.actor.Recording? || s.actor.Stopping? || s.actor.Booting? ==> s.token.None?)
    && (s.token.Some? && !Launching(s.actor) ==> s.generation in s.tasks && BeforeCleanup(s.tasks[s.generation].phase))
    && s.seen.installs == s.seen.releases + (if s.token.Some? then 1 else 0)
  }

  // ----- what a task step leaves alone -----

  /** The parts of the state that no task ever writes. */
  predicate ActorSideSame(s: State, s': State) {
    && s'.config == s.config && s'.generation == s.generation && s'.actor == s.actor
    && s'.cancelled == s.cancelled && s'.terminalReason == s.terminalReason && s'.bridge == s.bridge
    && s'.onComplete == s.onComplete && s'.app == s.app && s'.schedulingDegraded == s.schedulingDegraded
    && s'.seen.stops == s.seen.stops && s'.seen.installs == s.seen.installs
    && s'.seen.typeCalls == s.seen.typeCalls && s'.seen.replaced == s.seen.replaced
    && s'.seen.callbacksSet == s.seen.callbacksSet && s'.seen.captures == s.seen.captures
  }

  /** The cells that only the guarded cleanup writes. */
  predicate GuardedSame(s: State, s': State) {
    && s'.token == s.token && s'.isRunning == s.isRunning && s'.lastError == s.lastError
    && s'.seen.releases == s.seen.releases && s'.seen.errorWriter == s.seen.errorWriter
  }

  lemma EffectFrame(s: State, g: nat, task: Task, t: TaskStep)
    ensures ActorSideSame(s, Effect(s, g, task, t))
    ensures !t.Cleanup? ==> GuardedSame(s, Effect(s, g, task, t))
    ensures !t.Cleanup? && !t.Promote? ==>
              Effect(s, g, task, t).lifecycle == s.lifecycle
              && Effect(s, g, task, t).seen.stalePromotion == s.seen.stalePromotion
  {
  }

  /** No stale task ever removes a newer token, whatever it is doing: a task's step can only take
      away its own generation's token, in its cleanup, and cannot install one. */
  lemma OnlyOwnTokenReleased(s: State, g: nat, t: TaskStep)
    requires TokenInv(s) && g in s.tasks
    ensures var s' := ApplyTask(s, g, t);
            s'.token != s.token ==> t.Cleanup? && s.token == Some(g) && g == s.generation && s'.token == None
  {
    EffectFrame(s, g, s.tasks[g], t);
  }

  // ----- the invariant -----

  lemma CommandKeepsTokenInv(s: State, a: ActorStep)
    requires TokenInv(s) && s.actor.Ready?
    ensures TokenInv(ApplyActor(s, a))
  {
  }

  lemma StartKeepsTokenInv(s: State, a: ActorStep)
    requires TokenInv(s) && !s.actor.Ready? && ContinuesStart(a)
    ensures TokenInv(ApplyActor(s, a))
  {
  }

  lemma MidCommandKeepsTokenInv(s: State, a: ActorStep)
    requires TokenInv(s) && !s.actor.Ready? && !ContinuesStart(a)
    ensures TokenInv(ApplyActor(s, a))
  {
    if a.BootReplay? {
      if s.actor.Booting? {
        BootKeepsTokenInv(s, a);
      }
    } else if !a.StopPersist? && !a.PollMerge? && !a.PollLifecycle? {
      ReconcileKeepsTokenInv(s, a);
    }
  }

  lemma BootKeepsTokenInv(s: State, a: ActorStep)
    requires TokenInv(s) && a.BootReplay? && s.actor.Booting?
    ensures TokenInv(Replay(s, a.bootApp, a.consent, a.loads))
  {
  }

  lemma ReconcileKeepsTokenInv(s: State, a: ActorStep)
    requires TokenInv(s) && !s.actor.Ready?
    ensures TokenInv(Reconcile(s, a))
  {
  }

  lemma ActorKeepsTokenInv(s: State, a: ActorStep)
    requires TokenInv(s)
    ensures TokenInv(ApplyActor(s, a))
  {
    if s.actor.Ready? {
      CommandKeepsTokenInv(s, a);
    } else if ContinuesStart(a) {
      StartKeepsTokenInv(s, a);
    } else {
      MidCommandKeepsTokenInv(s, a);
    }
  }

  lemma TaskKeepsTokenInv(s: State, g: nat, t: TaskStep)
    requires TokenInv(s) && g in s.tasks
    ensures TokenInv(ApplyTask(s, g, t))
  {
    EffectFrame(s, g, s.tasks[g], t);
  }

  lemma StepKeepsTokenInv(s: State, step: Step)
    requires TokenInv(s)
    ensures TokenInv(Apply(s, step))
  {
    match step {
      case Actor(a) => ActorKeepsTokenInv(s, a);
      case Work(g, t) =>
        if g in s.tasks { TaskKeepsTokenInv(s, g, t); }
      case Restart =>
    }
  }

  /** In every reachable state of every process the token invariant holds. */
  lemma {:induction false} TokenInvHolds(config: Config, record: Option<DesiredState>, steps: seq<Step>)
    ensures TokenInv(Run(Boot(config, record), steps))
  {
    if steps != [] {
      TokenInvHolds(config, record, steps[..|steps| - 1]);
      StepKeepsTokenInv(Run(Boot(config, record), steps[..|steps| - 1]), steps[|steps| - 1]);
    }
  }
}
