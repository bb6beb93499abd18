/** Runs in which a delivery's callback ends up where its delivery did not mean it to. */
module DeliveryRaces {
  import opened Wrappers
  import opened Models
  import opened DesiredStateRecord
  import opened Intent
  import opened Lifecycle
  import opened TokenSafety
  import opened Handlers
  import opened Interleaving
  import opened BgTaskDelivery
  import opened Races

  const IOS := Config(IosBgTaskScheduler, [], false, map[])

  /** The steps of others, as steps of the world. */
  function Others(steps: seq<Step>): seq<WorldStep> {
    if steps == [] then [] else Others(steps[..|steps| - 1]) + [Other(steps[|steps| - 1])]
  }

  /** While no delivery is served, other clients' commands and tasks just run. */
  lemma {:induction false} OthersRun(w: World, steps: seq<Step>)
    requires w.open && w.serving.None? && forall step | step in steps :: !step.Restart? && WithoutAndroid(step)
    ensures RunWorld(w, Others(steps)) == w.(actor := Run(w.actor, steps))
  {
    if steps != [] {
      var before, last := steps[..|steps| - 1], steps[|steps| - 1];
      OthersRun(w, before);
      assert Others(steps)[..|Others(steps)| - 1] == Others(before);
    }
  }

  lemma {:induction false} WorldConcat(w: World, a: seq<WorldStep>, b: seq<WorldStep>)
    ensures RunWorld(w, a + b) == RunWorld(RunWorld(w, a), b)
  {
    if b == [] {
      assert a + b == a;
    } else {
      WorldConcat(w, a, b[..|b| - 1]);
      assert (a + b)[..|a + b| - 1] == a + b[..|b| - 1];
    }
  }

  lemma WorldOne(w: World, a: WorldStep)
    ensures RunWorld(w, [a]) == Next(w, a)
  {
    assert [a][..0] == [];
  }

  lemma WorldTwo(w: World, a: WorldStep, b: WorldStep)
    ensures RunWorld(w, [a, b]) == Next(Next(w, a), b)
  {
    WorldConcat(w, [a], [b]);
    WorldOne(w, a);
    WorldOne(Next(w, a), b);
    assert [a] + [b] == [a, b];
  }

  /** A process that has booted and serves nobody. */
  function Booted(): World {
    Start(IOS, None).(actor := Boot(IOS, None).(actor := Ready))
  }

  lemma BootedIsReached()
    ensures RunWorld(Start(IOS, None), Others([Actor(BootReplay(None, false, true))])) == Booted()
  {
    OthersRun(Start(IOS, None), [Actor(BootReplay(None, false, true))]);
    RunOne(Boot(IOS, None), Actor(BootReplay(None, false, true)));
  }

  /** Puts the pieces of a run together behind the boot. */
  lemma Assembled(a: seq<WorldStep>, b: seq<WorldStep>, c: seq<WorldStep>) returns (steps: seq<WorldStep>)
    ensures RunWorld(Start(IOS, None), steps) == RunWorld(RunWorld(RunWorld(Booted(), a), b), c)
  {
    var boot := Others([Actor(BootReplay(None, false, true))]);
    BootedIsReached();
    steps := boot + (a + b + c);
    WorldConcat(Start(IOS, None), boot, a + b + c);
    WorldConcat(Booted(), a + b, c);
    WorldConcat(Booted(), a, b);
  }

  /** Another client's start, on a world that serves nobody. */
  lemma OtherClientStarts(w: World) returns (steps: seq<WorldStep>, w': World)
    requires w.open && w.serving.None? && w.actor.actor.Ready? && w.actor.token.None?
    requires w.actor.bridge.None? && !w.actor.config.validateTypes && w.actor.record.None?
    ensures RunWorld(w, steps) == w' == w.(actor := w'.actor)
    ensures var s, s' := w.actor, w'.actor;
            && s'.actor.Ready? && s'.generation == s.generation + 1 && s'.token == Some(s'.generation) && s'.onComplete.None?
            && s'.tasks == s.tasks[s'.generation := Task(Initialising, None, None, None, s.onComplete)]
            && s'.seen.callbacksSet == s.seen.callbacksSet && s'.seen.fired == s.seen.fired
            && s'.seen.captures == CapturesWith(s, s'.generation)
            && s'.bridge.None? && s'.config == s.config && s'.record.None?
  {
    steps := Others(StartSteps(0, START, None, SAVED));
    OthersRun(w, StartSteps(0, START, None, SAVED));
    AfterStartIsRun(w.actor, 0, START, None, SAVED);
    w' := w.(actor := AfterStart(w.actor, 0, START, None, SAVED));
  }

  // ----- a delivery that is overtaken before it arms -----

  lemma AsksWhileIdle()
    ensures RunWorld(Booted(), [Deliver(0, Warm), Serve(0, 0, START)])
            == Booted().(calls := map[0 := Opening(Warm).(pc := AwaitingRunning)],
                         actor := Booted().actor.(actor := Comparing(false)), serving := Some(0))
  {
    WorldTwo(Booted(), Deliver(0, Warm), Serve(0, 0, START));
  }

  /** A warm delivery has been told that nothing runs. */
  lemma ToldIdle() returns (steps: seq<WorldStep>, w: World)
    ensures RunWorld(Booted(), steps) == w == Booted().(calls := map[0 := Opening(Warm).(pc := Arming)])
  {
    steps := [Deliver(0, Warm), Serve(0, 0, START)] + [Other(Actor(ReconcileCompare(None)))];
    WorldConcat(Booted(), [Deliver(0, Warm), Serve(0, 0, START)], [Other(Actor(ReconcileCompare(None)))]);
    AsksWhileIdle();
    var w1 := RunWorld(Booted(), [Deliver(0, Warm), Serve(0, 0, START)]);
    WorldOne(w1, Other(Actor(ReconcileCompare(None))));
    w := Next(w1, Other(Actor(ReconcileCompare(None))));
  }

  lemma ArmsAndLeaves(w: World)
    requires 0 in w.calls && w.calls[0] == Opening(Warm).(pc := Arming)
    requires w.open && w.serving.None? && w.actor.actor.Ready? && w.actor.token.Some?
    ensures var w' := RunWorld(w, [Serve(0, 0, START), Serve(0, 0, START)]);
            && 0 in w'.calls && w'.calls[0].left && w'.calls[0].held && w'.calls[0].armed == Some(w.actor.seen.callbacksSet)
            && w'.actor.onComplete == w'.calls[0].armed && w'.actor.token == w.actor.token
  {
    WorldTwo(w, Serve(0, 0, START), Serve(0, 0, START));
  }

  /** A warm delivery asks first, so as not to arm a callback for nothing; but between the answer and
      the arming another client's start is accepted.  The delivery leaves quietly, and its callback
      stays in the slot for whichever start comes next. */
  lemma OvertakenDeliveryStaysArmed() returns (steps: seq<WorldStep>)
    ensures var w := RunWorld(Start(IOS, None), steps);
            && 0 in w.calls && w.calls[0].left && w.calls[0].armed.Some? && w.calls[0].held
            && w.actor.onComplete == w.calls[0].armed && w.actor.token == Some(1)
  {
    var told, w1 := ToldIdle();
    var start, w2 := OtherClientStarts(w1);
    ArmsAndLeaves(w2);
    steps := Assembled(told, start, [Serve(0, 0, START), Serve(0, 0, START)]);
  }

  // ----- a delivery whose callback another start takes -----

  lemma ArmsCold() returns (steps: seq<WorldStep>, w: World)
    ensures RunWorld(Booted(), steps) == w && w.open && w.serving.None? && w.calls.Keys == {0}
    ensures w.calls[0] == Opening(Cold).(pc := Starting, armed := Some(0))
    ensures w.actor == Booted().actor.(onComplete := Some(0), seen := NO_HISTORY.(callbacksSet := 1))
  {
    steps := [Deliver(0, Cold), Serve(0, 0, START)];
    WorldTwo(Booted(), Deliver(0, Cold), Serve(0, 0, START));
    w := RunWorld(Booted(), steps);
  }

  /** The other client's service fails to initialise, and fires the callback it captured. */
  lemma OtherFails(w: World) returns (steps: seq<WorldStep>, w': World)
    requires w.open && w.serving.None? && w.actor.actor.Ready? && w.actor.generation == 1 && w.actor.token == Some(1)
    requires w.actor.tasks == map[1 := Task(Initialising, None, None, None, Some(0))] && w.actor.seen.fired == []
    ensures RunWorld(w, steps) == w' == w.(actor := w'.actor)
    ensures w'.actor.actor.Ready? && w'.actor.token.None? && w'.actor.seen.fired == [Firing(0, 1, false)]
    ensures w'.actor.generation == 1 && w'.actor.onComplete == w.actor.onComplete && w'.actor.seen.captures == w.actor.seen.captures
    ensures w'.actor.bridge == w.actor.bridge && w'.actor.config == w.actor.config
  {
    steps := Others(FailedInitSteps(1, "init failed"));
    OthersRun(w, FailedInitSteps(1, "init failed"));
    AfterFailedInitIsRun(w.actor, 1, "init failed");
    w' := w.(actor := AfterFailedInit(w.actor, 1, "init failed"));
  }

  /** The delivery can make its start now. */
  predicate ReadyToStart(w: World) {
    && w.open && w.serving.None? && w.actor.actor.Ready? && w.actor.token.None?
    && w.actor.bridge.None? && !w.actor.config.validateTypes
    && 0 in w.calls && w.calls[0] == Opening(Cold).(pc := Starting, armed := Some(0))
  }

  /** The call as it awaits the reply to that start. */
  function AwaitingReply(w: World): Call
    requires 0 in w.calls
  {
    Installing(w.actor, TakenUp(w.actor, w.calls[0]))
  }

  /** The delivery's own start, up to the spawn of its task. */
  lemma OwnStartSpawns(w: World) returns (steps: seq<WorldStep>, w': World)
    requires ReadyToStart(w)
    ensures RunWorld(w, steps) == w' && 0 in w'.calls && w'.calls[0] == AwaitingReply(w)
    ensures w'.open && w'.serving == Some(0) && w'.actor.actor.Spawned? && w'.actor.generation == w.actor.generation + 1
    ensures w'.actor.tasks == w.actor.tasks[w'.actor.generation := Task(Initialising, None, None, None, w.actor.onComplete)]
    ensures w'.actor.seen.fired == w.actor.seen.fired && w'.actor.seen.captures == CapturesWith(w.actor, w'.actor.generation)
  {
    var first, rest := [Serve(0, 0, START), Other(Actor(StartCapture))],
                       [Other(Actor(StartKeepalive(None))), Other(Actor(StartSpawn))];
    WorldConcat(w, first, rest);
    var w1 := OwnStartCaptures(w);
    w' := KeptAndSpawned(w1);
    steps := first + rest;
  }

  lemma OwnStartInstalls(w: World) returns (w': World)
    requires ReadyToStart(w)
    ensures w' == Next(w, Serve(0, 0, START))
    ensures 0 in w'.calls && w'.calls[0] == AwaitingReply(w) && w'.open && w'.serving == Some(0)
    ensures var s, s' := w.actor, w'.actor;
            && s'.actor == Installed(START) && s'.generation == s.generation + 1 && s'.bridge.None? && s'.tasks == s.tasks
            && s'.onComplete == s.onComplete && s'.seen.fired == s.seen.fired && s'.seen.captures == s.seen.captures
  {
    w' := Next(w, Serve(0, 0, START));
  }

  lemma OwnStartCaptures(w: World) returns (w': World)
    requires ReadyToStart(w)
    ensures w' == RunWorld(w, [Serve(0, 0, START), Other(Actor(StartCapture))])
    ensures 0 in w'.calls && w'.calls[0] == AwaitingReply(w) && w'.open && w'.serving == Some(0)
    ensures var s, s' := w.actor, w'.actor;
            && s'.actor == Captured(START, s.onComplete) && s'.generation == s.generation + 1 && s'.bridge.None?
            && s'.tasks == s.tasks && s'.seen.fired == s.seen.fired && s'.seen.captures == s.seen.captures
  {
    WorldTwo(w, Serve(0, 0, START), Other(Actor(StartCapture)));
    var w1 := OwnStartInstalls(w);
    w' := Next(w1, Other(Actor(StartCapture)));
  }

  lemma KeptAndSpawned(w: World) returns (w': World)
    requires w.open && w.serving == Some(0) && 0 in w.calls && w.actor.actor.Captured? && w.actor.bridge.None?
    ensures w' == RunWorld(w, [Other(Actor(StartKeepalive(None))), Other(Actor(StartSpawn))])
    ensures w'.calls == w.calls && w'.open && w'.serving == w.serving
    ensures var s, s' := w.actor, w'.actor;
            && s'.actor.Spawned? && s'.generation == s.generation && s'.seen.fired == s.seen.fired
            && s'.tasks == s.tasks[s.generation := Task(Initialising, None, None, None, s.actor.callback)]
            && s'.seen.captures == Taken(s, s.actor.callback).seen.captures
  {
    WorldTwo(w, Other(Actor(StartKeepalive(None))), Other(Actor(StartSpawn)));
    w' := Next(Next(w, Other(Actor(StartKeepalive(None)))), Other(Actor(StartSpawn)));
  }

  lemma OwnStartReplies(w: World)
    requires w.open && w.serving == Some(0) && w.actor.actor.Spawned? && 0 in w.calls && w.calls[0].pc.AwaitingStart?
    ensures var w' := RunWorld(w, [Other(Actor(StartPersist(SAVED)))]);
            && 0 in w'.calls && w'.calls[0] == w.calls[0].(pc := Consuming, accepted := w.calls[0].installed)
            && w'.actor.actor.Ready? && w'.actor.seen.fired == w.actor.seen.fired && w'.actor.seen.captures == w.actor.seen.captures
  {
    WorldOne(w, Other(Actor(StartPersist(SAVED))));
  }

  /** Between a delivery's arming and its start, another client's start takes the callback along.
      That start's service fails, and the delivery is told so; then its own start is accepted, with
      no callback left to tell it how that one ends. */
  lemma DeliveryToldOfAnother() returns (steps: seq<WorldStep>)
    ensures var w := RunWorld(Start(IOS, None), steps);
            && 0 in w.calls && w.calls[0].armed == Some(0) && w.calls[0].accepted == Some(2) && !w.calls[0].held
            && w.actor.seen.fired == [Firing(0, 1, false)] && w.actor.seen.captures == [Capture(0, 1)]
  {
    var arm, w1 := ArmsCold();
    var start, w2 := OtherClientStarts(w1);
    var fail, w3 := OtherFails(w2);
    var own, w4 := OwnStartSpawns(w3);
    OwnStartReplies(w4);
    var reply := [Other(Actor(StartPersist(SAVED)))];
    WorldConcat(w1, start, fail);
    WorldConcat(w3, own, reply);
    steps := Assembled(arm, start + fail, own + reply);
  }

  // ----- a delivery that is told before its start is answered -----

  lemma TaskRuns(w: World, step: Step)
    requires !w.actor.actor.Ready? && step.Work?
    ensures Next(w, Other(step)) == w.(actor := Apply(w.actor, step))
  {
    if step.g in w.actor.tasks {
      WorkOnward(w.actor, step.g, step.t);
    }
  }

  /** While the actor is inside a command, tasks run beside the call it serves. */
  lemma {:induction false} TasksRun(w: World, steps: seq<Step>)
    requires !w.actor.actor.Ready? && TasksOnly(steps)
    ensures RunWorld(w, Others(steps)) == w.(actor := Run(w.actor, steps))
  {
    if steps != [] {
      var before, last := steps[..|steps| - 1], steps[|steps| - 1];
      TasksRun(w, before);
      TasksBetween(w.actor, before);
      TaskRuns(w.(actor := Run(w.actor, before)), last);
      assert Others(steps)[..|Others(steps)| - 1] == Others(before);
    }
  }

  lemma OwnFails(w: World) returns (steps: seq<WorldStep>, w': World)
    requires w.actor.actor.Spawned? && w.actor.tasks == map[1 := Task(Initialising, None, None, None, Some(0))]
    requires w.actor.seen.fired == []
    ensures RunWorld(w, steps) == w' == w.(actor := w'.actor)
    ensures w'.actor.seen.fired == [Firing(0, 1, false)] && w'.actor.tasks.Keys == {1}
  {
    steps := Others(FailedInitSteps(1, "init failed"));
    TasksRun(w, FailedInitSteps(1, "init failed"));
    AfterFailedInitIsRun(w.actor, 1, "init failed");
    w' := w.(actor := AfterFailedInit(w.actor, 1, "init failed"));
  }

  /** The task of a delivery's own start fails and reports before the start is answered: the callback
      has told the delivery how its start ended while the delivery still awaits whether it began. */
  lemma DeliveryToldBeforeReply() returns (steps: seq<WorldStep>)
    ensures var w := RunWorld(Start(IOS, None), steps);
            && 0 in w.calls && w.calls[0].armed == Some(0) && w.calls[0].held && w.calls[0].pc.AwaitingStart?
            && w.calls[0].installed == Some(1) && w.calls[0].accepted.None? && OwnStartSpawned(w.actor, w.calls[0])
            && w.actor.seen.fired == [Firing(0, 1, false)]
  {
    var arm, w1 := ArmsCold();
    var own, w2 := OwnStartSpawns(w1);
    var fail, w3 := OwnFails(w2);
    steps := Assembled(arm, own, fail);
  }
}
