/** The command handlers and the task body as sequences of steps, run without interference. */
module Handlers {
  import opened Wrappers
  import opened Models
  import opened DesiredStateRecord
  import opened Intent
  import opened Lifecycle
  import opened TokenSafety

  lemma {:induction false} RunConcat(s: State, a: seq<Step>, b: seq<Step>)
    ensures Run(s, a + b) == Run(Run(s, a), b)
  {
    if b == [] {
      assert a + b == a;
    } else {
      var n := |b| - 1;
      RunConcat(s, a, b[..n]);
      assert (a + b)[..|a + b| - 1] == a + b[..n];
    }
  }

  lemma RunOne(s: State, a: Step)
    ensures Run(s, [a]) == Apply(s, a)
  {
    assert [a][..0] == [];
  }

  lemma RunTwo(s: State, a: Step, b: Step)
    ensures Run(s, [a, b]) == Apply(Apply(s, a), b)
  {
    RunOne(s, a);
    RunAppend(s, [a], b);
    assert [a] + [b] == [a, b];
  }

  lemma RunThree(s: State, a: Step, b: Step, c: Step)
    ensures Run(s, [a, b, c]) == Apply(Apply(Apply(s, a), b), c)
  {
    RunTwo(s, a, b);
    RunAppend(s, [a, b], c);
    assert [a, b] + [c] == [a, b, c];
  }

  lemma RunFour(s: State, a: Step, b: Step, c: Step, d: Step)
    ensures Run(s, [a, b, c, d]) == Apply(Apply(Apply(Apply(s, a), b), c), d)
  {
    RunTwo(s, a, b);
    RunConcat(s, [a, b], [c, d]);
    RunTwo(Run(s, [a, b]), c, d);
    assert [a, b] + [c, d] == [a, b, c, d];
  }

  /** A start run without interference: refused without effect, rolled back, or accepted. */
  function AfterStart(s: State, app: nat, start: StartConfig, keepalive: Option<string>, saving: Saving): State {
    if StartRefusal(s, start).Some? then s
    else if FatalFailure(s, keepalive) then RolledBack(s, app, start)
    else Acknowledge(Persist(Launch(s, app, start, keepalive), true, Some(start), saving, Launched(s.generation + 1, start)))
  }

  /** A fatal failure is one the bridge does not call advisory. */
  predicate FatalFailure(s: State, keepalive: Option<string>) {
    s.bridge.Some? && keepalive.Some? && !s.bridge.value.advisory
  }

  function StartReply(s: State, start: StartConfig, keepalive: Option<string>): Result<(), ServiceError> {
    match StartRefusal(s, start)
    case Some(e) => Err(e)
    case None => if FatalFailure(s, keepalive) then Err(Platform(keepalive.value)) else Ok(())
  }

  function TypeCallsWith(s: State, start: StartConfig): seq<TypeCall> {
    if s.bridge.None? then s.seen.typeCalls
    else s.seen.typeCalls + [TypeCall(start.foregroundServiceType, s.bridge.value.enforcesTypes)]
  }

  /** Only the generation, the app handle and the cleared errors remain of a rolled-back start. */
  function RolledBack(s: State, app: nat, start: StartConfig): State {
    s.(generation := s.generation + 1, app := Some(app), lastError := None, schedulingDegraded := None,
    isRunning := false, lifecycle := Idle,
    seen := s.seen.(installs := s.seen.installs + 1, releases := s.seen.releases + 1, errorWriter := None,
    stalePromotion := false, typeCalls := TypeCallsWith(s, start)))
  }

  function Launch(s: State, app: nat, start: StartConfig, keepalive: Option<string>): State {
    var g := s.generation + 1;
    s.(token := Some(g), generation := g, app := Some(app), isRunning := true, lifecycle := Initializing,
    lastError := None, schedulingDegraded := if s.bridge.Some? then keepalive else None,
    onComplete := None, tasks := s.tasks[g := Task(Initialising, None, None, None, s.onComplete)],
    seen := s.seen.(installs := s.seen.installs + 1, errorWriter := None, stalePromotion := false,
    captures := CapturesWith(s, g), typeCalls := TypeCallsWith(s, start),
    accepted := s.seen.accepted + [Launched(g, start)]))
  }

  function CapturesWith(s: State, g: nat): seq<Capture> {
    if s.onComplete.None? then s.seen.captures else s.seen.captures + [Capture(s.onComplete.value, g)]
  }

  /** A stop run without interference. */
  function AfterStop(s: State, reason: StopReason, saving: Saving): State {
    if s.token.None? then s else Acknowledge(PersistStop(TakeForStop(s, reason), reason, saving)).(actor := s.actor)
  }

  /** A reconciliation run without interference: native wins, and a native stop takes the token. */
  function AfterReconcile(s: State, native: Option<bool>): State {
    if native.None? || native.value == s.isRunning then s
    else if native.value then s.(isRunning := true, lifecycle := Running)
    else if s.token.None? then s.(isRunning := false, lifecycle := Stopped)
    else
      var stop := Stop(s.generation, NativeNotificationStop);
      s.(isRunning := false, lifecycle := Stopped, token := None, cancelled := s.cancelled + {s.token.value},
      terminalReason := Some(stop),
      seen := s.seen.(releases := s.seen.releases + 1, stops := s.seen.stops + [stop]))
  }

  /** A status poll run without interference: native wins, and the token is left alone. */
  function AfterPoll(s: State, native: Option<bool>): State {
    if native.None? || native.value == s.isRunning then s
    else s.(isRunning := native.value, lifecycle := if native.value then Running else Stopped)
  }

  // ----- the spawned task -----

  /** The whole body of a task whose init fails: report, clean up, fire. */
  function AfterFailedInit(s: State, g: nat, error: string): State
    requires g in s.tasks
  {
    var task := s.tasks[g].(phase := InitReported, outcome := Some(Failed(error)));
    FireCallback(CleanUp(Emit(s, g, TerminalEvent(task)), g, task), g, task)
    .(tasks := s.tasks[g := task.(phase := Exited, callback := None)])
  }

  /** The body of a task whose init succeeds, up to its run. */
  function AfterInit(s: State, g: nat): State
    requires g in s.tasks
  {
    Emit(s.(lifecycle := if s.generation == g && s.lifecycle.Initializing? then Running else s.lifecycle), g, PluginEvent.Started)
    .(tasks := s.tasks[g := s.tasks[g].(phase := InRun)])
  }

  /** The rest of the body: classify, emit, settle the intent, fire, clean up. */
  function AfterRun(s: State, g: nat, outcome: Outcome, saving: Saving): State
    requires g in s.tasks
  {
    var task := s.tasks[g].(phase := Reported, outcome := Some(outcome), explicit := OwnReason(s, g), seen := Some(|s.seen.stops|));
    var emitted := Emit(s, g, TerminalEvent(task));
    var settled := if CompletedNaturally(task) then Settle(emitted, g, saving) else emitted;
    CleanUp(FireCallback(settled, g, task), g, task.(phase := Notified))
    .(tasks := s.tasks[g := task.(phase := Exited, callback := None)])
  }

  // ----- each is a run -----

  function StartSteps(app: nat, start: StartConfig, keepalive: Option<string>, saving: Saving): seq<Step> {
    [Actor(StartInstall(app, start)), Actor(StartCapture), Actor(StartKeepalive(keepalive)),
     Actor(StartReturnToken), Actor(StartRestore), Actor(StartSpawn), Actor(StartPersist(saving))]
  }

  function StopSteps(reason: StopReason, saving: Saving): seq<Step> {
    [Actor(StopTake(reason)), Actor(StopPersist(saving))]
  }

  function ReconcileSteps(native: Option<bool>): seq<Step> {
    [Actor(ReconcileRead), Actor(ReconcileCompare(native)), Actor(ReconcileLifecycle), Actor(ReconcileTake),
     Actor(ReconcileRecord)]
  }

  function PollSteps(native: Option<bool>): seq<Step> {
    [Actor(PollRead), Actor(PollMerge(native)), Actor(PollLifecycle)]
  }

  function FailedInitSteps(g: nat, error: string): seq<Step> {
    [Work(g, InitReturns(Some(error))), Work(g, Report), Work(g, Cleanup), Work(g, Fire)]
  }

  function InitSteps(g: nat): seq<Step> {
    [Work(g, InitReturns(None)), Work(g, Check), Work(g, Promote), Work(g, EmitStarted)]
  }

  function FinishSteps(g: nat, outcome: Outcome, saving: Saving): seq<Step> {
    [Work(g, RunReturns(outcome)), Work(g, ReadReason), Work(g, EmitTerminal), Work(g, SettleIntent(saving)),
     Work(g, Fire), Work(g, Cleanup)]
  }

  // Proofs that each closed form is the composition of its steps.

  lemma StartOutcome(s: State, app: nat, start: StartConfig, keepalive: Option<string>) returns (kept: State)
    requires s.actor.Ready? && StartRefusal(s, start).None?
    ensures kept == ApplyActor(ApplyActor(ApplyActor(s, StartInstall(app, start)), StartCapture), StartKeepalive(keepalive))
    ensures FatalFailure(s, keepalive) ==>
              && kept.actor == RollingBack(s.onComplete)
              && RolledBack(s, app, start) == ReleaseToken(kept).(
                 isRunning := false, lifecycle := Idle, onComplete := s.onComplete, actor := Ready)
    ensures !FatalFailure(s, keepalive) ==>
              && kept.actor == Kept(start, s.onComplete)
              && Launch(s, app, start, keepalive) == Accept(Taken(kept, s.onComplete), Launched(kept.generation, start)).(
                 tasks := s.tasks[kept.generation := Task(Initialising, None, None, None, s.onComplete)], actor := Ready)
  {
    kept := ApplyActor(ApplyActor(ApplyActor(s, StartInstall(app, start)), StartCapture), StartKeepalive(keepalive));
  }

  lemma StartConcludes(s: State, saving: Saving)
    ensures var s' := ApplyActor(ApplyActor(ApplyActor(ApplyActor(s, StartReturnToken), StartRestore), StartSpawn), StartPersist(saving));
            && (s.actor.Ready? ==> s' == s)
            && (s.actor.RollingBack? ==> s' == ReleaseToken(s).(
                isRunning := false, lifecycle := Idle, onComplete := s.actor.callback, actor := Ready))
            && (s.actor.Kept? ==> s' == Acknowledge(Persist(
                Accept(Taken(s, s.actor.callback), Launched(s.generation, s.actor.config)).(
                tasks := s.tasks[s.generation := Task(Initialising, None, None, None, s.actor.callback)], actor := Ready),
                true, Some(s.actor.config), saving, Launched(s.generation, s.actor.config))))
  {
  }

  /** The last stage of an accepted start: spawn, save, answer. */
  function SpawnedAndSaved(s: State, start: StartConfig, captured: Option<nat>, saving: Saving): State {
    Acknowledge(Persist(
      Accept(Taken(s.(tasks := s.tasks[s.generation := Task(Initialising, None, None, None, captured)]), captured),
             Launched(s.generation, start)),
      true, Some(start), saving, Launched(s.generation, start)))
  }

  /** The closed form of a start, stage by stage. */
  lemma StartInStages(s: State, app: nat, start: StartConfig, keepalive: Option<string>, saving: Saving)
    requires StartRefusal(s, start).None?
    ensures var taken := Install(s, app, start).(actor := s.actor, onComplete := None);
            var kept := Keepalive(taken, start, None, keepalive).(actor := s.actor);
            && kept.token.Some?
            && (FatalFailure(s, keepalive) <==> FatalFailure(taken, keepalive))
            && AfterStart(s, app, start, keepalive, saving)
               == if FatalFailure(s, keepalive)
                  then ReleaseToken(kept).(isRunning := false, lifecycle := Idle, onComplete := s.onComplete)
                  else SpawnedAndSaved(kept, start, s.onComplete, saving)
  {
  }

  lemma StartUnrolls(s: State, x: seq<Step>)
    requires |x| == 7
    ensures Run(s, x) == Apply(Apply(Apply(Apply(Apply(Apply(Apply(s, x[0]), x[1]), x[2]), x[3]), x[4]), x[5]), x[6])
  {
    RunFour(s, x[0], x[1], x[2], x[3]);
    RunThree(Run(s, x[..4]), x[4], x[5], x[6]);
    RunConcat(s, x[..4], x[4..]);
    assert x[..4] == [x[0], x[1], x[2], x[3]] && x[4..] == [x[4], x[5], x[6]] && x[..4] + x[4..] == x;
  }

  lemma AfterStartIsRun(s: State, app: nat, start: StartConfig, keepalive: Option<string>, saving: Saving)
    requires s.actor.Ready?
    ensures Run(s, StartSteps(app, start, keepalive, saving)) == AfterStart(s, app, start, keepalive, saving)
  {
    StartUnrolls(s, StartSteps(app, start, keepalive, saving));
    StartComposes(s, app, start, keepalive, saving);
  }

  lemma StartComposes(s: State, app: nat, start: StartConfig, keepalive: Option<string>, saving: Saving)
    requires s.actor.Ready?
    ensures var kept := ApplyActor(ApplyActor(ApplyActor(s, StartInstall(app, start)), StartCapture), StartKeepalive(keepalive));
            ApplyActor(ApplyActor(ApplyActor(ApplyActor(kept, StartReturnToken), StartRestore), StartSpawn), StartPersist(saving))
            == AfterStart(s, app, start, keepalive, saving)
  {
    if StartRefusal(s, start).None? {
      var kept := StartOutcome(s, app, start, keepalive);
      StartConcludes(kept, saving);
    } else {
      StartConcludes(s, saving);
    }
  }

  lemma {:induction false} AfterStopIsRun(s: State, reason: StopReason, saving: Saving)
    requires s.actor.Ready?
    ensures Run(s, StopSteps(reason, saving)) == AfterStop(s, reason, saving)
  {
    RunTwo(s, Actor(StopTake(reason)), Actor(StopPersist(saving)));
  }

  lemma ReconcileBegins(s: State, native: Option<bool>) returns (s2: State)
    requires s.actor.Ready?
    ensures s2 == ApplyActor(ApplyActor(s, ReconcileRead), ReconcileCompare(native))
    ensures if native.None? || native.value == s.isRunning then s2 == s
            else s2 == s.(isRunning := native.value, actor := Converging(native.value))
  {
    s2 := ApplyActor(ApplyActor(s, ReconcileRead), ReconcileCompare(native));
  }

  lemma ReconcileConcludes(s: State)
    ensures var s' := ApplyActor(ApplyActor(ApplyActor(s, ReconcileLifecycle), ReconcileTake), ReconcileRecord);
            && (s.actor.Ready? ==> s' == s)
            && (s.actor == Converging(true) ==> s' == s.(lifecycle := Running, actor := Ready))
            && (s.actor == Converging(false) ==>
                  s' == if s.token.None? then s.(lifecycle := Stopped, actor := Ready)
                  else RecordNativeStop(ReleaseToken(s.(lifecycle := Stopped, cancelled := s.cancelled + {s.token.value}))))
  {
  }

  lemma ReconcileUnrolls(s: State, x: seq<Step>)
    requires |x| == 5
    ensures Run(s, x) == Apply(Apply(Apply(Apply(Apply(s, x[0]), x[1]), x[2]), x[3]), x[4])
  {
    RunTwo(s, x[0], x[1]);
    RunThree(Run(s, x[..2]), x[2], x[3], x[4]);
    RunConcat(s, x[..2], x[2..]);
    assert x[..2] == [x[0], x[1]] && x[2..] == [x[2], x[3], x[4]] && x[..2] + x[2..] == x;
  }

  lemma AfterReconcileIsRun(s: State, native: Option<bool>)
    requires s.actor.Ready?
    ensures Run(s, ReconcileSteps(native)) == AfterReconcile(s, native)
  {
    ReconcileUnrolls(s, ReconcileSteps(native));
    var s2 := ReconcileBegins(s, native);
    ReconcileConcludes(s2);
  }

  lemma AfterPollIsRun(s: State, native: Option<bool>)
    requires s.actor.Ready?
    ensures Run(s, PollSteps(native)) == AfterPoll(s, native)
  {
    RunThree(s, Actor(PollRead), Actor(PollMerge(native)), Actor(PollLifecycle));
    PollComposes(s, native);
  }

  lemma PollComposes(s: State, native: Option<bool>)
    requires s.actor.Ready?
    ensures ApplyActor(ApplyActor(ApplyActor(s, PollRead), PollMerge(native)), PollLifecycle) == AfterPoll(s, native)
  {
  }

  /** A task step on a state whose task table is given apart. */
  function On(s: State, m: map<nat, Task>): State {
    s.(tasks := m)
  }

  lemma EffectIgnoresTasks(s: State, m: map<nat, Task>, g: nat, task: Task, t: TaskStep)
    ensures Effect(On(s, m), g, task, t).(tasks := s.tasks) == Effect(s, g, task, t)
  {
    if t.Cleanup? {
      CleanUpIgnoresTasks(s, m, g, task);
    } else if t.SettleIntent? {
      SettleIgnoresTasks(s, m, g, t.saving);
    } else {
      OthersIgnoreTasks(s, m, g, task, t);
    }
  }

  lemma OthersIgnoreTasks(s: State, m: map<nat, Task>, g: nat, task: Task, t: TaskStep)
    requires !t.Cleanup? && !t.SettleIntent?
    ensures Effect(On(s, m), g, task, t).(tasks := s.tasks) == Effect(s, g, task, t)
  {
  }

  lemma CleanUpIgnoresTasks(s: State, m: map<nat, Task>, g: nat, task: Task)
    ensures CleanUp(On(s, m), g, task).(tasks := s.tasks) == CleanUp(s, g, task)
  {
  }

  lemma SettleIgnoresTasks(s: State, m: map<nat, Task>, g: nat, saving: Saving)
    ensures Settle(On(s, m), g, saving).(tasks := s.tasks) == Settle(s, g, saving)
  {
  }

  lemma StepOn(s: State, m: map<nat, Task>, g: nat, task: Task, t: TaskStep)
    requires Fits(task.phase, t)
    ensures Apply(On(s, m[g := task]), Work(g, t)) == On(Effect(s, g, task, t), m[g := Advance(s, g, task, t)])
  {
    EffectIgnoresTasks(s, m[g := task], g, task, t);
    assert m[g := task][g := Advance(s, g, task, t)] == m[g := Advance(s, g, task, t)];
  }

  lemma RunHalves(s: State, a: Step, b: Step, c: Step, d: Step)
    ensures Run(s, [a, b, c, d]) == Run(Run(s, [a, b]), [c, d])
  {
    RunConcat(s, [a, b], [c, d]);
    assert [a, b] + [c, d] == [a, b, c, d];
  }

  lemma RunThirds(s: State, a: Step, b: Step, c: Step, d: Step, e: Step, f: Step)
    ensures Run(s, [a, b, c, d, e, f]) == Run(Run(s, [a, b, c]), [d, e, f])
  {
    RunConcat(s, [a, b, c], [d, e, f]);
    assert [a, b, c] + [d, e, f] == [a, b, c, d, e, f];
  }

  lemma FailureIsReported(s: State, g: nat, error: string) returns (s2: State, t2: Task)
    requires g in s.tasks && s.tasks[g].phase.Initialising?
    ensures t2 == s.tasks[g].(phase := InitReported, outcome := Some(Failed(error))) && s2 == Emit(s, g, TerminalEvent(t2))
    ensures Run(s, [Work(g, InitReturns(Some(error))), Work(g, Report)]) == On(s2, s.tasks[g := t2])
  {
    var m := s.tasks;
    RunTwo(s, Work(g, InitReturns(Some(error))), Work(g, Report));
    assert s == On(s, m[g := m[g]]);
    StepOn(s, m, g, m[g], InitReturns(Some(error)));
    var t1 := m[g].(phase := InitFailed, outcome := Some(Failed(error)));
    StepOn(s, m, g, t1, Report);
    s2, t2 := Emit(s, g, TerminalEvent(t1)), t1.(phase := InitReported);
  }

  lemma FailureIsCleaned(s: State, m: map<nat, Task>, g: nat, task: Task)
    requires task.phase.InitReported?
    ensures Run(On(s, m[g := task]), [Work(g, Cleanup), Work(g, Fire)])
            == On(FireCallback(CleanUp(s, g, task), g, task), m[g := task.(phase := Exited, callback := None)])
  {
    RunTwo(On(s, m[g := task]), Work(g, Cleanup), Work(g, Fire));
    StepOn(s, m, g, task, Cleanup);
    StepOn(CleanUp(s, g, task), m, g, task.(phase := InitCleaned), Fire);
  }

  lemma AfterFailedInitIsRun(s: State, g: nat, error: string)
    requires g in s.tasks && s.tasks[g].phase.Initialising?
    ensures Run(s, FailedInitSteps(g, error)) == AfterFailedInit(s, g, error)
  {
    var x := FailedInitSteps(g, error);
    var s2, t2 := FailureIsReported(s, g, error);
    FailureIsCleaned(s2, s.tasks, g, t2);
    RunHalves(s, x[0], x[1], x[2], x[3]);
  }

  lemma {:induction false} AfterInitIsRun(s: State, g: nat)
    requires g in s.tasks && s.tasks[g].phase.Initialising?
    ensures Run(s, InitSteps(g)) == AfterInit(s, g)
  {
    var x := InitSteps(g);
    RunHalves(s, x[0], x[1], x[2], x[3]);
    var checked := InitIsChecked(s, g);
    CheckedIsAnnounced(s, s.tasks, g, checked);
  }

  lemma InitIsChecked(s: State, g: nat) returns (checked: Task)
    requires g in s.tasks && s.tasks[g].phase.Initialising?
    ensures checked == s.tasks[g].(phase := Checked(s.generation == g))
    ensures Run(s, [Work(g, InitReturns(None)), Work(g, Check)]) == On(s, s.tasks[g := checked])
  {
    var m := s.tasks;
    RunTwo(s, Work(g, InitReturns(None)), Work(g, Check));
    assert s == On(s, m[g := m[g]]);
    StepOn(s, m, g, m[g], InitReturns(None));
    StepOn(s, m, g, m[g].(phase := InitDone), Check);
    checked := m[g].(phase := Checked(s.generation == g));
  }

  lemma CheckedIsAnnounced(s: State, m: map<nat, Task>, g: nat, task: Task)
    requires task.phase.Checked?
    ensures Run(On(s, m[g := task]), [Work(g, Promote), Work(g, EmitStarted)])
            == On(Emit(PromoteLifecycle(s, g, task.phase.current), g, PluginEvent.Started), m[g := task.(phase := InRun)])
  {
    RunTwo(On(s, m[g := task]), Work(g, Promote), Work(g, EmitStarted));
    StepOn(s, m, g, task, Promote);
    StepOn(PromoteLifecycle(s, g, task.phase.current), m, g, task.(phase := Promoted), EmitStarted);
  }

  lemma RunIsClassified(s: State, g: nat, outcome: Outcome) returns (s3: State, t3: Task)
    requires g in s.tasks && s.tasks[g].phase.InRun?
    ensures t3 == s.tasks[g].(phase := Reported, outcome := Some(outcome), explicit := OwnReason(s, g), seen := Some(|s.seen.stops|))
    ensures s3 == Emit(s, g, TerminalEvent(t3))
    ensures Run(s, [Work(g, RunReturns(outcome)), Work(g, ReadReason), Work(g, EmitTerminal)]) == On(s3, s.tasks[g := t3])
  {
    var m := s.tasks;
    RunThree(s, Work(g, RunReturns(outcome)), Work(g, ReadReason), Work(g, EmitTerminal));
    assert s == On(s, m[g := m[g]]);
    StepOn(s, m, g, m[g], RunReturns(outcome));
    var t1 := m[g].(phase := Returned, outcome := Some(outcome));
    StepOn(s, m, g, t1, ReadReason);
    var t2 := t1.(phase := Classified, explicit := OwnReason(s, g), seen := Some(|s.seen.stops|));
    StepOn(s, m, g, t2, EmitTerminal);
    s3, t3 := Emit(s, g, TerminalEvent(t2)), t2.(phase := Reported);
  }

  lemma RunIsSettled(s: State, m: map<nat, Task>, g: nat, task: Task, saving: Saving)
    requires task.phase.Reported?
    ensures var settled := if CompletedNaturally(task) then Settle(s, g, saving) else s;
            Run(On(s, m[g := task]), [Work(g, SettleIntent(saving)), Work(g, Fire), Work(g, Cleanup)])
            == On(CleanUp(FireCallback(settled, g, task), g, task.(phase := Notified)), m[g := task.(phase := Exited, callback := None)])
  {
    RunThree(On(s, m[g := task]), Work(g, SettleIntent(saving)), Work(g, Fire), Work(g, Cleanup));
    StepOn(s, m, g, task, SettleIntent(saving));
    var s4, t4 := Effect(s, g, task, SettleIntent(saving)), task.(phase := Settled);
    StepOn(s4, m, g, t4, Fire);
    var s5, t5 := FireCallback(s4, g, t4), t4.(phase := Notified, callback := None);
    StepOn(s5, m, g, t5, Cleanup);
  }

  lemma RunComposes(s: State, g: nat, task: Task, saving: Saving)
    requires g in s.tasks && task.outcome.Some?
    requires task == s.tasks[g].(phase := Reported, outcome := task.outcome, explicit := OwnReason(s, g), seen := Some(|s.seen.stops|))
    ensures var emitted := Emit(s, g, TerminalEvent(task));
            var settled := if CompletedNaturally(task) then Settle(emitted, g, saving) else emitted;
            On(CleanUp(FireCallback(settled, g, task), g, task.(phase := Notified)), s.tasks[g := task.(phase := Exited, callback := None)])
            == AfterRun(s, g, task.outcome.value, saving)
  {
  }

  lemma AfterRunIsRun(s: State, g: nat, outcome: Outcome, saving: Saving)
    requires g in s.tasks && s.tasks[g].phase.InRun?
    ensures Run(s, FinishSteps(g, outcome, saving)) == AfterRun(s, g, outcome, saving)
  {
    var x := FinishSteps(g, outcome, saving);
    var s3, t3 := RunIsClassified(s, g, outcome);
    RunIsSettled(s3, s.tasks, g, t3, saving);
    RunComposes(s, g, t3, saving);
    RunThirds(s, x[0], x[1], x[2], x[3], x[4], x[5]);
  }
}
