/** Converging to the Android authority, with tasks running between the actor's steps: what one call
    settles, and what it leaves unsettled. */
module Convergence {
  import opened Wrappers
  import opened Models
  import opened DesiredStateRecord
  import opened Lifecycle
  import opened TokenSafety
  import opened Interleaving
  import opened Handlers
  import opened NativeStatus

  // ----- the two calls -----

  datatype Call = IsRunning | GetLifecycleStatus

  /** The call has read the flag. */
  function Read(s: State, call: Call): State {
    Apply(s, Actor(if call.IsRunning? then ReconcileRead else PollRead))
  }

  /** It has compared what it read with native, and on a divergence set the flag. */
  function Compared(s: State, call: Call, native: bool, w: Gaps): State {
    Apply(Run(Read(s, call), w.first), Actor(if call.IsRunning? then ReconcileCompare(Some(native)) else PollMerge(Some(native))))
  }

  /** It has set the lifecycle, if it diverged. */
  function Shown(s: State, call: Call, native: bool, w: Gaps): State {
    Apply(Run(Compared(s, call, native, w), w.second), Actor(if call.IsRunning? then ReconcileLifecycle else PollLifecycle))
  }

  /** `IsRunning` has released the token, if native stopped. */
  function Released(s: State, call: Call, native: bool, w: Gaps): State {
    Apply(Run(Shown(s, call, native, w), w.third), Actor(ReconcileTake))
  }

  /** The state in which the call is answered: the first in which the actor is ready again. */
  function Answered(s: State, call: Call, native: bool, w: Gaps): State {
    if Compared(s, call, native, w).actor.Ready? then Compared(s, call, native, w)
    else if Shown(s, call, native, w).actor.Ready? then Shown(s, call, native, w)
    else if Released(s, call, native, w).actor.Ready? then Released(s, call, native, w)
    else Apply(Run(Released(s, call, native, w), w.fourth), Actor(ReconcileRecord))
  }

  /** The current generation cleaned up inside the call. */
  predicate CleanedInside(s: State, call: Call, native: bool, w: Gaps) {
    || CleanedDuring(Read(s, call), w.first)
    || (s.isRunning != native && CleanedDuring(Compared(s, call, native, w), w.second))
    || (s.isRunning && !native && call.IsRunning? && CleanedDuring(Shown(s, call, native, w), w.third))
  }

  /** The flag once native has been compared with what was read. */
  lemma AfterComparison(s: State, call: Call, native: bool, w: Gaps)
    requires s.actor.Ready? && GapsOfTasks(w)
    ensures var c := Compared(s, call, native, w);
            var cleaned := CleanedDuring(Read(s, call), w.first);
            && c.generation == s.generation && c.cancelled == s.cancelled && c.terminalReason == s.terminalReason
            && c.token == (if cleaned then None else s.token)
            && (if s.isRunning == native then c.actor.Ready? && c.isRunning == (native && !cleaned)
                else c.isRunning == native
                     && c.actor == if call.IsRunning? then Converging(native) else Merging(if native then Running else Stopped))
  {
    var c := ComparesAfter(Read(s, call), call, native, w.first);
  }

  /** The step that compares, from a state that has read the flag. */
  lemma ComparesAfter(r: State, call: Call, native: bool, first: seq<Step>) returns (c: State)
    requires TasksOnly(first) && r.actor == if call.IsRunning? then Comparing(r.isRunning) else Polling(r.isRunning)
    ensures c == Apply(Run(r, first), Actor(if call.IsRunning? then ReconcileCompare(Some(native)) else PollMerge(Some(native))))
    ensures c.generation == r.generation && c.cancelled == r.cancelled && c.terminalReason == r.terminalReason
    ensures c.token == (if CleanedDuring(r, first) then None else r.token)
    ensures if r.isRunning == native then c.actor.Ready? && c.isRunning == (native && !CleanedDuring(r, first))
            else c.isRunning == native
                 && c.actor == if call.IsRunning? then Converging(native) else Merging(if native then Running else Stopped)
  {
    TasksBetween(r, first);
    c := Apply(Run(r, first), Actor(if call.IsRunning? then ReconcileCompare(Some(native)) else PollMerge(Some(native))));
  }

  lemma AfterShowing(s: State, call: Call, native: bool, w: Gaps)
    requires s.actor.Ready? && GapsOfTasks(w) && s.isRunning != native
    ensures var c, e := Compared(s, call, native, w), Shown(s, call, native, w);
            var cleaned := CleanedDuring(c, w.second);
            && e.generation == s.generation && e.cancelled == s.cancelled && e.terminalReason == s.terminalReason
            && e.token == (if cleaned then None else c.token)
            && e.isRunning == (native && !cleaned)
            && e.lifecycle == (if native then Running else Stopped)
            && (if native || call.GetLifecycleStatus? then e.actor.Ready? else e.actor.Releasing?)
  {
    AfterComparison(s, call, native, w);
    var e := ShowsAfter(Compared(s, call, native, w), call, native, w.second);
  }

  /** The step that sets the lifecycle, from a state that has diverged. */
  lemma ShowsAfter(c: State, call: Call, native: bool, second: seq<Step>) returns (e: State)
    requires TasksOnly(second) && c.isRunning == native
    requires c.actor == if call.IsRunning? then Converging(native) else Merging(if native then Running else Stopped)
    ensures e == Apply(Run(c, second), Actor(if call.IsRunning? then ReconcileLifecycle else PollLifecycle))
    ensures e.generation == c.generation && e.cancelled == c.cancelled && e.terminalReason == c.terminalReason
    ensures e.token == (if CleanedDuring(c, second) then None else c.token)
    ensures e.isRunning == (native && !CleanedDuring(c, second))
    ensures e.lifecycle == (if native then Running else Stopped)
    ensures if native || call.GetLifecycleStatus? then e.actor.Ready? else e.actor.Releasing?
  {
    TasksBetween(c, second);
    e := Apply(Run(c, second), Actor(if call.IsRunning? then ReconcileLifecycle else PollLifecycle));
  }

  /** The last two steps of `IsRunning` from a state that is about to release the token. */
  lemma AfterTaking(d: State, third: seq<Step>) returns (r: State)
    requires d.actor.Releasing? && !d.isRunning && d.lifecycle.Stopped? && TasksOnly(third)
    ensures r == Apply(Run(d, third), Actor(ReconcileTake))
    ensures r.token.None? && !r.isRunning && r.lifecycle.Stopped?
    ensures r.generation == d.generation && r.terminalReason == d.terminalReason
    ensures if d.token.Some? && !CleanedDuring(d, third) then r.actor.Recording? && r.cancelled == d.cancelled + {d.token.value}
            else r.actor.Ready? && r.cancelled == d.cancelled
  {
    TasksBetween(d, third);
    r := Apply(Run(d, third), Actor(ReconcileTake));
  }

  lemma AfterRecording(r: State, fourth: seq<Step>) returns (e: State)
    requires r.actor.Recording? && !r.isRunning && r.lifecycle.Stopped? && r.token.None? && TasksOnly(fourth)
    ensures e == Apply(Run(r, fourth), Actor(ReconcileRecord))
    ensures e.actor.Ready? && e.token.None? && !e.isRunning && e.lifecycle.Stopped? && e.cancelled == r.cancelled
    ensures e.terminalReason == Some(Stop(r.generation, NativeNotificationStop))
  {
    TasksBetween(r, fourth);
    e := Apply(Run(r, fourth), Actor(ReconcileRecord));
  }

  lemma AfterRelease(s: State, w: Gaps)
    requires s.actor.Ready? && GapsOfTasks(w) && s.isRunning
    ensures var d, e := Shown(s, IsRunning, false, w), Answered(s, IsRunning, false, w);
            var held := d.token.Some? && !CleanedDuring(d, w.third);
            && e.actor.Ready? && !e.isRunning && e.token.None? && e.lifecycle.Stopped?
            && (held ==> e.terminalReason == Some(Stop(s.generation, NativeNotificationStop)) && d.token.value in e.cancelled)
            && (!held ==> e.terminalReason == s.terminalReason && e.cancelled == s.cancelled)
  {
    AfterComparison(s, IsRunning, false, w);
    AfterShowing(s, IsRunning, false, w);
    var r := AfterTaking(Shown(s, IsRunning, false, w), w.third);
    if r.actor.Recording? {
      var e := AfterRecording(r, w.fourth);
    }
  }

  // Each of these states is one of a run that interleaves the call's steps with those of tasks.

  function ToCompared(call: Call, native: bool, w: Gaps): seq<Step> {
    [Actor(if call.IsRunning? then ReconcileRead else PollRead)] + w.first
    + [Actor(if call.IsRunning? then ReconcileCompare(Some(native)) else PollMerge(Some(native)))]
  }

  function ToShown(call: Call, native: bool, w: Gaps): seq<Step> {
    ToCompared(call, native, w) + w.second + [Actor(if call.IsRunning? then ReconcileLifecycle else PollLifecycle)]
  }

  function ToReleased(call: Call, native: bool, w: Gaps): seq<Step> {
    ToShown(call, native, w) + w.third + [Actor(ReconcileTake)]
  }

  function ToRecorded(call: Call, native: bool, w: Gaps): seq<Step> {
    ToReleased(call, native, w) + w.fourth + [Actor(ReconcileRecord)]
  }

  lemma RunThen(s: State, steps: seq<Step>, more: seq<Step>, step: Step)
    ensures Run(s, steps + more + [step]) == Apply(Run(Run(s, steps), more), step)
  {
    RunConcat(s, steps, more);
    RunAppend(s, steps + more, step);
  }

  lemma CallIsRun(s: State, call: Call, native: bool, w: Gaps)
    ensures Run(s, ToCompared(call, native, w)) == Compared(s, call, native, w)
    ensures Run(s, ToShown(call, native, w)) == Shown(s, call, native, w)
    ensures Run(s, ToReleased(call, native, w)) == Released(s, call, native, w)
    ensures Run(s, ToRecorded(call, native, w)) == Apply(Run(Released(s, call, native, w), w.fourth), Actor(ReconcileRecord))
  {
    var read := Actor(if call.IsRunning? then ReconcileRead else PollRead);
    RunOne(s, read);
    RunThen(s, [read], w.first, Actor(if call.IsRunning? then ReconcileCompare(Some(native)) else PollMerge(Some(native))));
    RunThen(s, ToCompared(call, native, w), w.second, Actor(if call.IsRunning? then ReconcileLifecycle else PollLifecycle));
    RunThen(s, ToShown(call, native, w), w.third, Actor(ReconcileTake));
    RunThen(s, ToReleased(call, native, w), w.fourth, Actor(ReconcileRecord));
  }

  // ----- main results -----

  predicate RefusedAsRunning(s: State, start: StartConfig) {
    StartRefusal(s, start) == Some(AlreadyRunning)
  }

  /** Native has stopped: whatever tasks do inside the call, the flag is clear when it is answered,
      and a repeat of either call on the same snapshot changes nothing. */
  lemma NativeStopConverges(s: State, call: Call, w: Gaps)
    requires s.actor.Ready? && GapsOfTasks(w)
    ensures var e := Answered(s, call, false, w);
            && e.actor.Ready? && !e.isRunning
            && (s.isRunning ==> e.lifecycle.Stopped?)
            && Run(e, ReconcileSteps(Some(false))) == e && Run(e, PollSteps(Some(false))) == e
  {
    AfterComparison(s, call, false, w);
    if s.isRunning {
      AfterShowing(s, call, false, w);
      if call.IsRunning? {
        AfterRelease(s, w);
      }
    }
    RepeatChangesNothing(Answered(s, call, false, w), false);
  }

  lemma RepeatChangesNothing(s: State, native: bool)
    requires s.actor.Ready? && s.isRunning == native
    ensures Run(s, ReconcileSteps(Some(native))) == s && Run(s, PollSteps(Some(native))) == s
  {
    AfterReconcileIsRun(s, Some(native));
    AfterPollIsRun(s, Some(native));
  }

  /** Native has stopped: whatever tasks do inside it, `IsRunning` leaves the next start refused as
      already running exactly if it found the flag clear and a token in place, which the current
      generation did not clean up meanwhile.  If it found the flag set, the token is gone, and
      unless the task was faster it was cancelled with the reason recorded. */
  lemma IsRunningUnblocks(s: State, w: Gaps, start: StartConfig)
    requires s.actor.Ready? && GapsOfTasks(w)
    ensures var e := Answered(s, IsRunning, false, w);
            && (RefusedAsRunning(e, start) <==> !s.isRunning && s.token.Some? && !CleanedInside(s, IsRunning, false, w))
            && (s.isRunning && s.token.Some? && !CleanedInside(s, IsRunning, false, w) ==>
                  s.token.value in e.cancelled && e.terminalReason == Some(Stop(s.generation, NativeNotificationStop)))
  {
    AfterComparison(s, IsRunning, false, w);
    if s.isRunning {
      AfterShowing(s, IsRunning, false, w);
      AfterRelease(s, w);
    }
  }

  /** Native is running: the call is answered with the flag set exactly if the current generation
      does not clean up after the call's decision: after its read if it found the flag set, after
      its comparison if it found it clear.  An adoption undone in this way leaves the lifecycle at
      Running.  If the flag is set, a repeat on the same snapshot changes nothing. */
  lemma NativeRunConvergesIff(s: State, call: Call, w: Gaps)
    requires s.actor.Ready? && GapsOfTasks(w)
    ensures var e := Answered(s, call, true, w);
            && e.actor.Ready? && e == (if s.isRunning then Compared(s, call, true, w) else Shown(s, call, true, w))
            && (e.isRunning <==>
                  !CleanedDuring(if s.isRunning then Read(s, call) else Compared(s, call, true, w),
                                 if s.isRunning then w.first else w.second))
            && (!s.isRunning ==> e.lifecycle.Running?)
            && (e.isRunning ==> Run(e, ReconcileSteps(Some(true))) == e && Run(e, PollSteps(Some(true))) == e)
  {
    AfterComparison(s, call, true, w);
    if !s.isRunning {
      AfterShowing(s, call, true, w);
    }
    var e := Answered(s, call, true, w);
    if e.isRunning {
      RepeatChangesNothing(e, true);
    }
  }

  /** A later poll on the same snapshot does not report the divergence the first one found, whatever
      tasks do inside the first and between the two. */
  lemma MismatchReportedOnce(s: State, w: Gaps, between: seq<Step>, ns: AndroidServiceState, noted: Option<string>)
    requires s.actor.Ready? && GapsOfTasks(w) && TasksOnly(between)
    ensures var later := Run(Answered(s, GetLifecycleStatus, ns.nativeRunning, w), between);
            DegradedBecause(Some(Android(ns)), later.isRunning, noted) != Some(NativeStoppedRustRunning)
  {
    if !ns.nativeRunning {
      NativeStopConverges(s, GetLifecycleStatus, w);
      TasksBetween(Answered(s, GetLifecycleStatus, false, w), between);
    }
  }

  /** A poll never touches the token: only the task's own cleanup can. */
  lemma PollLeavesToken(s: State, w: Gaps)
    requires s.actor.Ready? && GapsOfTasks(w)
    ensures Answered(s, GetLifecycleStatus, false, w).token
            == if CleanedInside(s, GetLifecycleStatus, false, w) then None else s.token
  {
    AfterComparison(s, GetLifecycleStatus, false, w);
    if s.isRunning {
      AfterShowing(s, GetLifecycleStatus, false, w);
    }
  }

  function Reconciles(s: State, ws: seq<Gaps>): State {
    if ws == [] then s else Answered(Reconciles(s, ws[..|ws| - 1]), IsRunning, false, ws[|ws| - 1])
  }

  /** No task of the current generation cleans up in the poll or in any of the calls after it. */
  predicate NeverCleaned(s: State, ws: seq<Gaps>) {
    ws == [] || (NeverCleaned(s, ws[..|ws| - 1]) && !CleanedInside(Reconciles(s, ws[..|ws| - 1]), IsRunning, false, ws[|ws| - 1]))
  }

  /** The documented promise that a native stop never blocks a restart fails when a status poll is
      what finds the divergence: it heals the flag but not the token, and from then on no number of
      `IsRunning` calls releases it; only the task's own end can. */
  lemma {:induction false} PollMasksTheToken(s: State, w: Gaps, ws: seq<Gaps>, start: StartConfig)
    requires s.actor.Ready? && s.token.Some? && GapsOfTasks(w) && forall x | x in ws :: GapsOfTasks(x)
    requires !CleanedInside(s, GetLifecycleStatus, false, w)
    requires NeverCleaned(Answered(s, GetLifecycleStatus, false, w), ws)
    ensures var e := Reconciles(Answered(s, GetLifecycleStatus, false, w), ws);
            e.actor.Ready? && e.token.Some? && !e.isRunning && RefusedAsRunning(e, start)
  {
    var polled := Answered(s, GetLifecycleStatus, false, w);
    if ws == [] {
      NativeStopConverges(s, GetLifecycleStatus, w);
      PollLeavesToken(s, w);
    } else {
      var n := |ws| - 1;
      PollMasksTheToken(s, w, ws[..n], start);
      NativeStopConverges(Reconciles(polled, ws[..n]), IsRunning, ws[n]);
      IsRunningUnblocks(Reconciles(polled, ws[..n]), ws[n], start);
    }
  }
}
