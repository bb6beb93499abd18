/** No start is refused as already running for good: if services return, the tasks drain. */
module Draining {
  import opened Wrappers
  import opened Models
  import opened DesiredStateRecord
  import opened Lifecycle
  import opened TokenSafety
  import Intent

  /** The number of steps a task can still take. */
  function Rank(phase: Phase): nat {
    match phase
    case Initialising => 12
    case InitDone => 11
    case Checked(_) => 10
    case Promoted => 9
    case InRun => 8
    case Returned => 7
    case Classified => 6
    case Reported => 5
    case Settled => 4
    case Notified => 3
    case InitFailed => 3
    case InitReported => 2
    case InitCleaned => 1
    case Exited => 0
  }

  /** The steps all tasks of generations up to `n` can still take together. */
  function Remaining(tasks: map<nat, Task>, n: nat): nat {
    if n == 0 then 0 else Remaining(tasks, n - 1) + if n in tasks then Rank(tasks[n].phase) else 0
  }

  lemma {:induction false} RemainingDecreases(tasks: map<nat, Task>, g: nat, task: Task, n: nat)
    requires g in tasks && 1 <= g && Rank(task.phase) < Rank(tasks[g].phase)
    ensures if g <= n then Remaining(tasks[g := task], n) < Remaining(tasks, n)
            else Remaining(tasks[g := task], n) == Remaining(tasks, n)
  {
    if n != 0 {
      RemainingDecreases(tasks, g, task, n - 1);
    }
  }

  lemma {:induction false} NothingRemains(tasks: map<nat, Task>, g: nat, n: nat)
    requires Remaining(tasks, n) == 0 && g in tasks && 1 <= g <= n
    ensures tasks[g].phase.Exited?
  {
    if g < n {
      NothingRemains(tasks, g, n - 1);
    }
  }

  lemma {:induction false} SomethingRemains(tasks: map<nat, Task>, n: nat) returns (g: nat)
    requires Remaining(tasks, n) > 0
    ensures g in tasks && 1 <= g <= n && !tasks[g].phase.Exited?
  {
    if n in tasks && !tasks[n].phase.Exited? {
      g := n;
    } else {
      g := SomethingRemains(tasks, n - 1);
    }
  }

  /** A step that some task is about to take. */
  predicate Drains(s: State, step: Step) {
    step.Work? && step.g in s.tasks && Fits(s.tasks[step.g].phase, step.t)
  }

  /** Every such step strictly decreases the remaining work and leaves the actor where it is. */
  lemma DrainStep(s: State, step: Step)
    requires TokenInv(s) && Drains(s, step)
    ensures var s' := Apply(s, step);
            && Remaining(s'.tasks, s'.generation) < Remaining(s.tasks, s.generation)
            && s'.actor == s.actor && s'.generation == s.generation
  {
    EffectFrame(s, step.g, s.tasks[step.g], step.t);
    RemainingDecreases(s.tasks, step.g, Advance(s, step.g, s.tasks[step.g], step.t), s.generation);
  }

  /** The step a live task is about to take when its service returns successfully. */
  function NextStep(phase: Phase): TaskStep
    requires !phase.Exited?
  {
    match phase
    case Initialising => InitReturns(None)
    case InitFailed => Report
    case InitReported => Cleanup
    case InitCleaned => Fire
    case InitDone => Check
    case Checked(_) => Promote
    case Promoted => EmitStarted
    case InRun => RunReturns(Finished)
    case Returned => ReadReason
    case Classified => EmitTerminal
    case Reported => SettleIntent(Intent.Saving(0, true, true))
    case Settled => Fire
    case Notified => Cleanup
  }

  /** However the tasks are scheduled, a drain is no longer than the work that remained. */
  lemma {:induction false} DrainIsBounded(s: State, steps: seq<Step>)
    requires TokenInv(s)
    requires forall i | 0 <= i < |steps| :: Drains(Run(s, steps[..i]), steps[i])
    ensures TokenInv(Run(s, steps))
    ensures var s' := Run(s, steps);
            |steps| + Remaining(s'.tasks, s'.generation) <= Remaining(s.tasks, s.generation)
  {
    if steps != [] {
      var n := |steps| - 1;
      forall i | 0 <= i < n ensures Drains(Run(s, steps[..n][..i]), steps[..n][i]) {
        assert steps[..n][..i] == steps[..i];
      }
      DrainIsBounded(s, steps[..n]);
      assert Drains(Run(s, steps[..n]), steps[n]);
      DrainStep(Run(s, steps[..n]), steps[n]);
      StepKeepsTokenInv(Run(s, steps[..n]), steps[n]);
    }
  }

  /** As long as a task lives, some task can step; once none does, nobody holds the token. */
  lemma DrainProgressesOrIsFree(s: State) returns (step: Step)
    requires TokenInv(s) && s.actor.Ready?
    ensures Remaining(s.tasks, s.generation) > 0 ==> Drains(s, step)
    ensures Remaining(s.tasks, s.generation) == 0 ==> s.token.None?
  {
    if Remaining(s.tasks, s.generation) > 0 {
      var g := SomethingRemains(s.tasks, s.generation);
      step := Work(g, NextStep(s.tasks[g].phase));
    } else {
      step := Restart;
      if s.token.Some? {
        NothingRemains(s.tasks, s.generation, s.generation);
      }
    }
  }

  /** From any state between commands, letting the tasks run frees the token, and then every start
      whose type passes is accepted. */
  lemma {:induction false} AlreadyRunningIsTemporary(s: State) returns (steps: seq<Step>)
    requires TokenInv(s) && s.actor.Ready?
    ensures forall i | 0 <= i < |steps| :: Drains(Run(s, steps[..i]), steps[i])
    ensures var s' := Run(s, steps);
            && s'.actor.Ready? && s'.token.None?
            && forall config: StartConfig | TypeRefusal(s', config.foregroundServiceType).Ok? :: StartRefusal(s', config).None?
    decreases Remaining(s.tasks, s.generation)
  {
    var step := DrainProgressesOrIsFree(s);
    if Remaining(s.tasks, s.generation) == 0 {
      steps := [];
    } else {
      DrainStep(s, step);
      StepKeepsTokenInv(s, step);
      var rest := AlreadyRunningIsTemporary(Apply(s, step));
      steps := [step] + rest;
      RunFirst(s, step, rest);
      forall i | 0 <= i < |steps| ensures Drains(Run(s, steps[..i]), steps[i]) {
        if i > 0 {
          assert steps[..i] == [step] + rest[..i - 1];
          RunFirst(s, step, rest[..i - 1]);
        }
      }
    }
  }

  lemma {:induction false} RunFirst(s: State, step: Step, rest: seq<Step>)
    ensures Run(s, [step] + rest) == Run(Apply(s, step), rest)
  {
    if rest == [] {
      RunAppend(s, [], step);
      assert [step] + rest == [] + [step];
    } else {
      var before, last := rest[..|rest| - 1], rest[|rest| - 1];
      RunFirst(s, step, before);
      RunAppend(s, [step] + before, last);
      assert [step] + rest == ([step] + before) + [last];
    }
  }
}
