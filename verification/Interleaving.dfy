/** Tasks that run between the steps of a command, and what the actor finds changed afterwards. */
module Interleaving {
  import opened Wrappers
  import opened Models
  import opened DesiredStateRecord
  import opened Lifecycle
  import opened TokenSafety

  /** Where tasks run inside a command: after its first step, its second, and so on. */
  datatype Gaps = Gaps(first: seq<Step>, second: seq<Step>, third: seq<Step>, fourth: seq<Step>)

  predicate GapsOfTasks(w: Gaps) {
    TasksOnly(w.first) && TasksOnly(w.second) && TasksOnly(w.third) && TasksOnly(w.fourth)
  }

  predicate TasksOnly(steps: seq<Step>) {
    forall step | step in steps :: step.Work?
  }

  /** The current generation's task takes its guarded cleanup. */
  predicate CleansUp(s: State, step: Step) {
    step == Work(s.generation, Cleanup) && s.generation in s.tasks && Fits(s.tasks[s.generation].phase, Cleanup)
  }

  predicate CleanedDuring(s: State, steps: seq<Step>) {
    steps != [] &&
    var before := steps[..|steps| - 1];
    CleanedDuring(s, before) || CleansUp(Run(s, before), steps[|steps| - 1])
  }

  /** Token, flag and error are as before, or token and flag are both gone if the current generation cleaned up; an inactive
      lifecycle stays, and Running gives way at most to Stopped. */
  predicate CellsAfterTasks(s: State, s': State, cleaned: bool) {
    && ActorSideSame(s, s')
    && s'.tasks.Keys == s.tasks.Keys
    && (if cleaned then s'.token.None? && !s'.isRunning
        else s'.token == s.token && s'.isRunning == s.isRunning && s'.lastError == s.lastError)
    && (s.lifecycle.Idle? || s.lifecycle.Stopped? ==> s'.lifecycle == s.lifecycle)
    && (s.lifecycle.Running? ==> s'.lifecycle.Running? || s'.lifecycle.Stopped?)
  }

  lemma TaskBetween(s: State, g: nat, t: TaskStep)
    requires g in s.tasks
    ensures CellsAfterTasks(s, ApplyTask(s, g, t), CleansUp(s, Work(g, t)))
  {
    EffectFrame(s, g, s.tasks[g], t);
  }

  lemma {:induction false} TasksBetween(s: State, steps: seq<Step>)
    requires TasksOnly(steps)
    ensures CellsAfterTasks(s, Run(s, steps), CleanedDuring(s, steps))
  {
    if steps != [] {
      var before, step := steps[..|steps| - 1], steps[|steps| - 1];
      TasksBetween(s, before);
      var s1 := Run(s, before);
      if step.g in s1.tasks {
        TaskBetween(s1, step.g, step.t);
      }
    }
  }

  /** A generation without a task, as during a start, is not cleaned up. */
  lemma {:induction false} NoTaskNoCleanup(s: State, steps: seq<Step>)
    requires TasksOnly(steps) && s.generation !in s.tasks
    ensures !CleanedDuring(s, steps)
  {
    if steps != [] {
      NoTaskNoCleanup(s, steps[..|steps| - 1]);
      TasksBetween(s, steps[..|steps| - 1]);
    }
  }
}
