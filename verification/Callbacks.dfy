/** Completion callbacks are neither lost nor duplicated. */
module Callbacks {
  import opened Wrappers
  import opened Models
  import opened DesiredStateRecord
  import opened Lifecycle
  import opened TokenSafety
  import opened Interleaving
  import opened Events

  /** Where a callback can be: in the actor's slot, held by a start in progress, captured by a task,
      fired (as the n-th firing), or replaced by a later one before any start took it. */
  datatype Place =
    | InSlot
    | InStart
    | InTask(g: nat)
    | FiredAs(n: nat)
    | ReplacedAs(n: nat)

  function HeldByStart(pc: ActorPc): Option<nat> {
    match pc
    case Captured(_, callback) => callback
    case Kept(_, callback) => callback
    case RollingBack(callback) => callback
    case TokenReturned(callback) => callback
    case _ => None
  }

  function Content(s: State, p: Place): Option<nat> {
    match p
    case InSlot => s.onComplete
    case InStart => HeldByStart(s.actor)
    case InTask(g) => if g in s.tasks then s.tasks[g].callback else None
    case FiredAs(n) => if n < |s.seen.fired| then Some(s.seen.fired[n].callback) else None
    case ReplacedAs(n) => if n < |s.seen.replaced| then Some(s.seen.replaced[n]) else None
  }

  ghost predicate ExactlyOnePlace(s: State, c: nat) {
    && (exists p :: Content(s, p) == Some(c))
    && (forall p, q | Content(s, p) == Some(c) && Content(s, q) == Some(c) :: p == q)
  }

  ghost predicate AllPlaced(s: State) {
    && (forall p | Content(s, p).Some? :: Content(s, p).value < s.seen.callbacksSet)
    && (forall c | 0 <= c < s.seen.callbacksSet :: ExactlyOnePlace(s, c))
  }

  predicate HasFired(phase: Phase) {
    phase.Notified? || phase.Exited?
  }

  predicate SucceededIffFinished(firing: Firing, tasks: map<nat, Task>) {
    && firing.generation in tasks && HasFired(tasks[firing.generation].phase)
    && firing.success == (tasks[firing.generation].outcome == Some(Finished))
  }

  ghost predicate CallbackInv(s: State) {
    && AllPlaced(s)
    && (s.actor.Captured? || s.actor.Kept? || s.actor.RollingBack? || s.actor.TokenReturned? ==> s.onComplete.None?)
    && (forall g | g in s.tasks && HasFired(s.tasks[g].phase) :: s.tasks[g].callback.None?)
    && (forall n | 0 <= n < |s.seen.fired| :: SucceededIffFinished(s.seen.fired[n], s.tasks))
  }

  /** The content of `from` has moved to the empty place `to`, and nothing else has. */
  ghost predicate Moved(s: State, s': State, from: Place, to: Place) {
    && from != to && Content(s, to).None?
    && Content(s', to) == Content(s, from) && Content(s', from).None?
    && (forall p | p != from && p != to :: Content(s', p) == Content(s, p))
    && s'.seen.callbacksSet == s.seen.callbacksSet
  }

  ghost predicate Still(s: State, s': State) {
    && (forall p :: Content(s', p) == Content(s, p))
    && s'.seen.callbacksSet == s.seen.callbacksSet
  }

  lemma MovePreserves(s: State, s': State, from: Place, to: Place)
    requires AllPlaced(s) && Moved(s, s', from, to)
    ensures AllPlaced(s')
  {
    forall c | 0 <= c < s.seen.callbacksSet ensures ExactlyOnePlace(s', c) {
      assert ExactlyOnePlace(s, c);
      var p :| Content(s, p) == Some(c);
      assert Content(s', if p == from then to else p) == Some(c);
    }
  }

  lemma StillPreserves(s: State, s': State)
    requires AllPlaced(s) && Still(s, s')
    ensures AllPlaced(s')
  {
    forall c | 0 <= c < s.seen.callbacksSet ensures ExactlyOnePlace(s', c) {
      assert ExactlyOnePlace(s, c);
      var p :| Content(s, p) == Some(c);
      assert Content(s', p) == Some(c);
    }
  }

  /** A new callback arrives in the empty slot. */
  lemma ArrivalPreserves(s: State, s': State)
    requires AllPlaced(s) && s.onComplete.None? && s'.onComplete == Some(s.seen.callbacksSet)
    requires forall p | p != InSlot :: Content(s', p) == Content(s, p)
    requires s'.seen.callbacksSet == s.seen.callbacksSet + 1
    ensures AllPlaced(s')
  {
    forall c | 0 <= c < s'.seen.callbacksSet ensures ExactlyOnePlace(s', c) {
      if c == s.seen.callbacksSet {
        assert Content(s', InSlot) == Some(c);
      } else {
        assert ExactlyOnePlace(s, c);
        var p :| Content(s, p) == Some(c);
        assert Content(s', p) == Some(c);
      }
    }
  }

  lemma SetKeepsPlaces(s: State)
    requires AllPlaced(s) && s.actor.Ready?
    ensures AllPlaced(ApplyActor(s, SetOnComplete))
  {
    if s.onComplete.None? {
      ArrivalPreserves(s, ApplyActor(s, SetOnComplete));
    } else {
      var cleared := s.(onComplete := None, seen := s.seen.(replaced := s.seen.replaced + [s.onComplete.value]));
      assert Moved(s, cleared, InSlot, ReplacedAs(|s.seen.replaced|));
      MovePreserves(s, cleared, InSlot, ReplacedAs(|s.seen.replaced|));
      ArrivalPreserves(cleared, ApplyActor(s, SetOnComplete));
    }
  }

  lemma CommandKeepsPlaces(s: State, a: ActorStep)
    requires AllPlaced(s) && s.actor.Ready?
    ensures AllPlaced(ApplyActor(s, a))
  {
    if a.SetOnComplete? {
      SetKeepsPlaces(s);
    } else {
      assert Still(s, ApplyActor(s, a));
      StillPreserves(s, ApplyActor(s, a));
    }
  }

  lemma StartMovesCallback(s: State, a: ActorStep)
    requires TokenInv(s) && CallbackInv(s) && !s.actor.Ready?
    requires a.StartCapture? || a.StartRestore? || a.StartSpawn?
    ensures AllPlaced(ApplyActor(s, a))
  {
    var s' := ApplyActor(s, a);
    if s' != s {
      var from, to := if a.StartCapture? then InSlot else InStart,
                      if a.StartCapture? then InStart else if a.StartRestore? then InSlot else InTask(s.generation);
      assert Moved(s, s', from, to);
      MovePreserves(s, s', from, to);
    }
  }

  lemma KeepaliveIsStill(s: State, a: ActorStep)
    requires !s.actor.Ready? && (a.StartKeepalive? || a.StartReturnToken? || a.StartPersist? || a.BootReplay?)
    ensures Still(s, ApplyActor(s, a))
  {
    if ContinuesStart(a) {
      StartLeavesPlaces(s, a);
    }
  }

  lemma StartLeavesPlaces(s: State, a: ActorStep)
    requires a.StartKeepalive? || a.StartReturnToken? || a.StartPersist?
    ensures var s' := ContinueStart(s, a);
            && s'.onComplete == s.onComplete && HeldByStart(s'.actor) == HeldByStart(s.actor) && s'.tasks == s.tasks
            && s'.seen.fired == s.seen.fired && s'.seen.replaced == s.seen.replaced && s'.seen.callbacksSet == s.seen.callbacksSet
  {
  }

  lemma MidCommandIsStill(s: State, a: ActorStep)
    requires !s.actor.Ready? && !ContinuesStart(a) && !a.BootReplay?
    ensures Still(s, ApplyActor(s, a))
  {
    OthersLeavePlaces(s, a);
  }

  lemma OthersLeavePlaces(s: State, a: ActorStep)
    requires !s.actor.Ready? && !ContinuesStart(a) && !a.BootReplay?
    ensures var s' := ApplyActor(s, a);
            && s'.onComplete == s.onComplete && HeldByStart(s'.actor) == HeldByStart(s.actor) && s'.tasks == s.tasks
            && s'.seen.fired == s.seen.fired && s'.seen.replaced == s.seen.replaced && s'.seen.callbacksSet == s.seen.callbacksSet
  {
    if !a.StopPersist? && !a.PollMerge? && !a.PollLifecycle? {
      ReconcileLeavesPlaces(s, a);
    }
  }

  lemma ReconcileLeavesPlaces(s: State, a: ActorStep)
    ensures var s' := Reconcile(s, a);
            && s'.onComplete == s.onComplete && HeldByStart(s'.actor) == HeldByStart(s.actor) && s'.tasks == s.tasks
            && s'.seen.fired == s.seen.fired && s'.seen.replaced == s.seen.replaced && s'.seen.callbacksSet == s.seen.callbacksSet
  {
  }

  lemma ActorKeepsCallbacks(s: State, a: ActorStep)
    requires TokenInv(s) && CallbackInv(s)
    ensures CallbackInv(ApplyActor(s, a))
  {
    ActorLeavesFirings(s, a);
    if s.actor.Ready? {
      CommandKeepsPlaces(s, a);
    } else if a.StartCapture? || a.StartRestore? || a.StartSpawn? {
      StartMovesCallback(s, a);
    } else {
      if a.StartKeepalive? || a.StartReturnToken? || a.StartPersist? || a.BootReplay? {
        KeepaliveIsStill(s, a);
      } else {
        MidCommandIsStill(s, a);
      }
      StillPreserves(s, ApplyActor(s, a));
    }
  }

  /** The actor fires nothing, touches no task but the one it spawns, and keeps the slot empty
      while a start holds the callback. */
  lemma ActorLeavesFirings(s: State, a: ActorStep)
    requires TokenInv(s)
    requires s.actor.Captured? || s.actor.Kept? || s.actor.RollingBack? || s.actor.TokenReturned? ==> s.onComplete.None?
    ensures var s' := ApplyActor(s, a);
            && s'.seen.fired == s.seen.fired
            && (s'.actor.Captured? || s'.actor.Kept? || s'.actor.RollingBack? || s'.actor.TokenReturned? ==> s'.onComplete.None?)
            && (s'.tasks == s.tasks
                || (s.actor.Kept? && s.generation !in s.tasks && s'.tasks == s.tasks[s.generation := Task(Initialising, None, None, None, s.actor.callback)]))
  {
    ActorLeavesEvents(s, a);
    SlotStaysEmpty(s, a);
  }

  lemma SlotStaysEmpty(s: State, a: ActorStep)
    requires s.actor.Captured? || s.actor.Kept? || s.actor.RollingBack? || s.actor.TokenReturned? ==> s.onComplete.None?
    ensures var s' := ApplyActor(s, a);
            && s'.seen.fired == s.seen.fired
            && (s'.actor.Captured? || s'.actor.Kept? || s'.actor.RollingBack? || s'.actor.TokenReturned? ==> s'.onComplete.None?)
  {
    if !ContinuesStart(a) {
      OthersHoldNothing(s, a);
    }
  }

  lemma OthersHoldNothing(s: State, a: ActorStep)
    requires !ContinuesStart(a)
    ensures var s' := ApplyActor(s, a);
            s'.seen.fired == s.seen.fired
            && (s' == s || !(s'.actor.Captured? || s'.actor.Kept? || s'.actor.RollingBack? || s'.actor.TokenReturned?))
  {
    if s.actor.Ready? {
      CommandHoldsNothing(s, a);
    }
  }

  lemma CommandHoldsNothing(s: State, a: ActorStep)
    requires s.actor.Ready?
    ensures var s' := Command(s, a);
            s'.seen.fired == s.seen.fired
            && !(s'.actor.Captured? || s'.actor.Kept? || s'.actor.RollingBack? || s'.actor.TokenReturned?)
  {
  }

  lemma EffectOnFirings(s: State, g: nat, task: Task, t: TaskStep)
    ensures Effect(s, g, task, t).seen.fired
            == if t.Fire? && task.callback.Some?
               then s.seen.fired + [Firing(task.callback.value, g, task.outcome == Some(Finished))] else s.seen.fired
  {
  }

  lemma TaskKeepsPlaces(s: State, g: nat, t: TaskStep)
    requires AllPlaced(s) && g in s.tasks && Fits(s.tasks[g].phase, t)
    ensures AllPlaced(ApplyTask(s, g, t))
  {
    var s' := ApplyTask(s, g, t);
    EffectFrame(s, g, s.tasks[g], t);
    EffectOnFirings(s, g, s.tasks[g], t);
    if t.Fire? && s.tasks[g].callback.Some? {
      assert Moved(s, s', InTask(g), FiredAs(|s.seen.fired|));
      MovePreserves(s, s', InTask(g), FiredAs(|s.seen.fired|));
    } else {
      assert Still(s, s');
      StillPreserves(s, s');
    }
  }

  lemma TaskKeepsCallbacks(s: State, g: nat, t: TaskStep)
    requires EventsInv(s) && CallbackInv(s) && g in s.tasks && Fits(s.tasks[g].phase, t)
    ensures CallbackInv(ApplyTask(s, g, t))
  {
    TaskKeepsPlaces(s, g, t);
    EffectFrame(s, g, s.tasks[g], t);
    EffectOnFirings(s, g, s.tasks[g], t);
    assert TaskShape(s.tasks[g]);
    AdvanceKeepsFired(s, g, s.tasks[g], t);
    FiringsKeep(s, ApplyTask(s, g, t), g, s.tasks[g], t.Fire? && s.tasks[g].callback.Some?);
  }

  lemma AdvanceKeepsFired(s: State, g: nat, task: Task, t: TaskStep)
    requires Fits(task.phase, t) && TaskShape(task) && (HasFired(task.phase) ==> task.callback.None?)
    ensures var task' := Advance(s, g, task, t);
            && (HasFired(task.phase) ==> HasFired(task'.phase) && task'.outcome == task.outcome)
            && (HasFired(task'.phase) ==> task'.callback.None?)
            && (t.Fire? ==> HasFired(task'.phase) && task'.outcome == task.outcome)
  {
  }

  lemma FiringsKeep(s: State, s': State, g: nat, task: Task, fires: bool)
    requires CallbackInv(s) && AllPlaced(s') && g in s.tasks && task == s.tasks[g] && g in s'.tasks
    requires s'.tasks == s.tasks[g := s'.tasks[g]] && s'.actor == s.actor && s'.onComplete == s.onComplete
    requires HasFired(task.phase) ==> HasFired(s'.tasks[g].phase) && s'.tasks[g].outcome == task.outcome
    requires HasFired(s'.tasks[g].phase) ==> s'.tasks[g].callback.None?
    requires fires ==> HasFired(s'.tasks[g].phase) && s'.tasks[g].outcome == task.outcome && task.callback.Some?
    requires s'.seen.fired == if fires then s.seen.fired + [Firing(task.callback.value, g, task.outcome == Some(Finished))] else s.seen.fired
    ensures CallbackInv(s')
  {
    forall n | 0 <= n < |s'.seen.fired| ensures SucceededIffFinished(s'.seen.fired[n], s'.tasks) {
      if n < |s.seen.fired| {
        assert SucceededIffFinished(s.seen.fired[n], s.tasks);
      }
    }
  }

  lemma {:induction false} CallbackInvHolds(config: Config, record: Option<DesiredState>, steps: seq<Step>)
    ensures CallbackInv(Run(Boot(config, record), steps))
  {
    if steps != [] {
      var before, step := steps[..|steps| - 1], steps[|steps| - 1];
      CallbackInvHolds(config, record, before);
      TokenInvHolds(config, record, before);
      EventsInvHolds(config, record, before);
      var s := Run(Boot(config, record), before);
      match step {
        case Actor(a) => ActorKeepsCallbacks(s, a);
        case Work(g, t) => if g in s.tasks && Fits(s.tasks[g].phase, t) { TaskKeepsCallbacks(s, g, t); }
        case Restart =>
      }
    }
  }

  // ----- who captured what -----

  predicate FiredFor(s: State, x: Capture) {
    exists n | 0 <= n < |s.seen.fired| :: s.seen.fired[n].callback == x.callback && s.seen.fired[n].generation == x.generation
  }

  /** The task that captured the callback still has it, or has fired it. */
  predicate Carried(s: State, x: Capture) {
    x.generation in s.tasks && (s.tasks[x.generation].callback == Some(x.callback) || FiredFor(s, x))
  }

  /** The captures on record are those of the callbacks that tasks have or have fired. */
  ghost predicate CaptureInv(s: State) {
    && (forall i | 0 <= i < |s.seen.captures| :: Carried(s, s.seen.captures[i]))
    && (forall g | g in s.tasks && s.tasks[g].callback.Some? :: Capture(s.tasks[g].callback.value, g) in s.seen.captures)
    && (forall n | 0 <= n < |s.seen.fired| :: Capture(s.seen.fired[n].callback, s.seen.fired[n].generation) in s.seen.captures)
  }

  lemma OthersLeaveCaptures(s: State, a: ActorStep)
    requires !(s.actor.Kept? && a.StartSpawn?)
    ensures var s' := ApplyActor(s, a);
            s'.seen.captures == s.seen.captures && s'.seen.fired == s.seen.fired && s'.tasks == s.tasks
  {
    if s.actor.Ready? {
      CommandLeavesCaptures(s, a);
    } else if ContinuesStart(a) {
      StartLeavesCaptures(s, a);
    }
  }

  lemma CommandLeavesCaptures(s: State, a: ActorStep)
    requires s.actor.Ready?
    ensures var s' := Command(s, a);
            s'.seen.captures == s.seen.captures && s'.seen.fired == s.seen.fired && s'.tasks == s.tasks
  {
  }

  lemma StartLeavesCaptures(s: State, a: ActorStep)
    requires ContinuesStart(a) && !(s.actor.Kept? && a.StartSpawn?)
    ensures var s' := ContinueStart(s, a);
            s'.seen.captures == s.seen.captures && s'.seen.fired == s.seen.fired && s'.tasks == s.tasks
  {
  }

  lemma SpawnCaptures(s: State)
    requires s.actor.Kept?
    ensures var s' := ApplyActor(s, StartSpawn);
            && s'.seen.captures == Taken(s, s.actor.callback).seen.captures && s'.seen.fired == s.seen.fired
            && s'.tasks == s.tasks[s.generation := Task(Initialising, None, None, None, s.actor.callback)]
  {
  }

  lemma SpawnKeepsCaptures(s: State, s': State, callback: Option<nat>)
    requires CaptureInv(s) && s.generation !in s.tasks && s'.seen.fired == s.seen.fired
    requires s'.seen.captures == Taken(s, callback).seen.captures
    requires s'.tasks == s.tasks[s.generation := Task(Initialising, None, None, None, callback)]
    ensures CaptureInv(s')
  {
    forall i | 0 <= i < |s'.seen.captures| ensures Carried(s', s'.seen.captures[i]) {
      if i < |s.seen.captures| {
        assert Carried(s, s.seen.captures[i]);
      }
    }
  }

  lemma SameKeepsCaptures(s: State, s': State)
    requires CaptureInv(s) && s'.seen.captures == s.seen.captures && s'.seen.fired == s.seen.fired
    requires s'.tasks.Keys == s.tasks.Keys && forall g | g in s.tasks :: s'.tasks[g].callback == s.tasks[g].callback
    ensures CaptureInv(s')
  {
    forall i | 0 <= i < |s'.seen.captures| ensures Carried(s', s'.seen.captures[i]) {
      assert Carried(s, s.seen.captures[i]);
    }
  }

  lemma FireKeepsCaptures(s: State, s': State, g: nat, firing: Firing)
    requires CaptureInv(s) && g in s.tasks && s.tasks[g].callback == Some(firing.callback) && firing.generation == g
    requires s'.seen.captures == s.seen.captures && s'.seen.fired == s.seen.fired + [firing]
    requires s'.tasks.Keys == s.tasks.Keys && s'.tasks[g].callback.None?
    requires forall h | h in s.tasks && h != g :: s'.tasks[h].callback == s.tasks[h].callback
    ensures CaptureInv(s')
  {
    assert s'.seen.fired[|s.seen.fired|] == firing;
    forall i | 0 <= i < |s'.seen.captures| ensures Carried(s', s'.seen.captures[i]) {
      var x := s.seen.captures[i];
      assert Carried(s, x);
      if FiredFor(s, x) {
        var n :| 0 <= n < |s.seen.fired| && s.seen.fired[n].callback == x.callback && s.seen.fired[n].generation == x.generation;
        assert s'.seen.fired[n] == s.seen.fired[n];
      }
    }
  }

  lemma StepKeepsCaptures(s: State, step: Step)
    requires TokenInv(s) && CaptureInv(s)
    ensures CaptureInv(Apply(s, step))
  {
    match step {
      case Actor(a) =>
        if s.actor.Kept? && a.StartSpawn? {
          SpawnCaptures(s);
          SpawnKeepsCaptures(s, ApplyActor(s, a), s.actor.callback);
        } else {
          OthersLeaveCaptures(s, a);
          SameKeepsCaptures(s, ApplyActor(s, a));
        }
      case Work(g, t) =>
        if g in s.tasks && Fits(s.tasks[g].phase, t) {
          TaskKeepsCaptures(s, ApplyTask(s, g, t), g, t);
        }
      case Restart =>
    }
  }

  lemma TaskKeepsCaptures(s: State, s': State, g: nat, t: TaskStep)
    requires CaptureInv(s) && g in s.tasks && Fits(s.tasks[g].phase, t) && s' == ApplyTask(s, g, t)
    ensures CaptureInv(s')
  {
    EffectFrame(s, g, s.tasks[g], t);
    EffectOnFirings(s, g, s.tasks[g], t);
    if t.Fire? && s.tasks[g].callback.Some? {
      FireKeepsCaptures(s, s', g, Firing(s.tasks[g].callback.value, g, s.tasks[g].outcome == Some(Finished)));
    } else {
      SameKeepsCaptures(s, s');
    }
  }

  lemma {:induction false} CaptureInvHolds(config: Config, record: Option<DesiredState>, steps: seq<Step>)
    ensures CaptureInv(Run(Boot(config, record), steps))
  {
    if steps != [] {
      var before, step := steps[..|steps| - 1], steps[|steps| - 1];
      CaptureInvHolds(config, record, before);
      TokenInvHolds(config, record, before);
      StepKeepsCaptures(Run(Boot(config, record), before), step);
    }
  }

  /** The one place of a captured callback. */
  lemma PlaceOfCapture(s: State, x: Capture) returns (p: Place)
    requires Carried(s, x)
    ensures Content(s, p) == Some(x.callback)
    ensures p == InTask(x.generation) || (p.FiredAs? && p.n < |s.seen.fired| && s.seen.fired[p.n].generation == x.generation)
  {
    if s.tasks[x.generation].callback == Some(x.callback) {
      p := InTask(x.generation);
    } else {
      var n :| 0 <= n < |s.seen.fired| && s.seen.fired[n].callback == x.callback && s.seen.fired[n].generation == x.generation;
      p := FiredAs(n);
    }
  }

  lemma CapturedByOne(s: State, x: Capture, y: Capture)
    requires AllPlaced(s) && CaptureInv(s) && x in s.seen.captures && y in s.seen.captures && x.callback == y.callback
    ensures x == y
  {
    var p := PlaceOfCapture(s, x);
    var q := PlaceOfCapture(s, y);
    assert ExactlyOnePlace(s, x.callback);
  }

  // ----- main results -----

  /** No callback is captured by two generations, and a firing is that of the generation that
      captured it. */
  lemma {:induction false} CapturedOnce(config: Config, record: Option<DesiredState>, steps: seq<Step>, x: Capture, y: Capture)
    ensures var s := Run(Boot(config, record), steps);
            && (x in s.seen.captures && y in s.seen.captures && x.callback == y.callback ==> x == y)
            && (forall n | 0 <= n < |s.seen.fired| :: Capture(s.seen.fired[n].callback, s.seen.fired[n].generation) in s.seen.captures)
  {
    CallbackInvHolds(config, record, steps);
    CaptureInvHolds(config, record, steps);
    var s := Run(Boot(config, record), steps);
    if x in s.seen.captures && y in s.seen.captures && x.callback == y.callback {
      CapturedByOne(s, x, y);
    }
  }

  /** Conservation: every callback ever set is in exactly one place, and a firing carries the
      result of the generation that captured it. */
  lemma {:induction false} CallbackConservation(config: Config, record: Option<DesiredState>, steps: seq<Step>)
    ensures var s := Run(Boot(config, record), steps);
            && (forall c | 0 <= c < s.seen.callbacksSet :: ExactlyOnePlace(s, c))
            && (forall n | 0 <= n < |s.seen.fired| :: SucceededIffFinished(s.seen.fired[n], s.tasks))
  {
    CallbackInvHolds(config, record, steps);
  }

  /** After a successful init a task fires its callback before its cleanup can release the token. */
  lemma {:induction false} FiresBeforeRelease(config: Config, record: Option<DesiredState>, steps: seq<Step>, g: nat, t: TaskStep)
    ensures var s := Run(Boot(config, record), steps);
            g in s.tasks && s.tasks[g].seen.Some? && ApplyTask(s, g, t).token != s.token ==>
              s.tasks[g].callback.None?
  {
    CallbackInvHolds(config, record, steps);
    TokenInvHolds(config, record, steps);
    EventsInvHolds(config, record, steps);
    var s := Run(Boot(config, record), steps);
    if g in s.tasks {
      OnlyOwnTokenReleased(s, g, t);
      assert TaskShape(s.tasks[g]);
    }
  }

  /** Once every task has exited, no captured callback is left unfired. */
  lemma {:induction false} NoCallbackLost(config: Config, record: Option<DesiredState>, steps: seq<Step>, c: nat)
    ensures var s := Run(Boot(config, record), steps);
            c < s.seen.callbacksSet && s.actor.Ready? && (forall g | g in s.tasks :: s.tasks[g].phase.Exited?) ==>
              || s.onComplete == Some(c)
              || (exists n | 0 <= n < |s.seen.fired| :: s.seen.fired[n].callback == c)
              || c in s.seen.replaced
  {
    CallbackInvHolds(config, record, steps);
    var s := Run(Boot(config, record), steps);
    if c < s.seen.callbacksSet && s.actor.Ready? && forall g | g in s.tasks :: s.tasks[g].phase.Exited? {
      assert ExactlyOnePlace(s, c);
      var p :| Content(s, p) == Some(c);
    }
  }

  // ----- rollback -----

  /** An accepted start with a fatal bridge, up to its keepalive call, with tasks running in between. */
  function BeforeKeepalive(s: State, app: nat, config: StartConfig, w: Gaps): State {
    Run(Apply(Run(Apply(s, Actor(StartInstall(app, config))), w.first), Actor(StartCapture)), w.second)
  }

  function AfterRollback(s: State, app: nat, config: StartConfig, error: string, w: Gaps): State {
    var failed := Apply(BeforeKeepalive(s, app, config, w), Actor(StartKeepalive(Some(error))));
    Apply(Run(Apply(Run(failed, w.third), Actor(StartReturnToken)), w.fourth), Actor(StartRestore))
  }

  lemma CaptureTakesSlot(s: State, app: nat, config: StartConfig, w: Gaps)
    requires TokenInv(s) && s.actor.Ready? && StartRefusal(s, config).None? && GapsOfTasks(w)
    ensures var k := BeforeKeepalive(s, app, config, w);
            && k.actor == Captured(config, s.onComplete) && k.onComplete.None? && k.bridge == s.bridge
            && k.token == Some(k.generation) && k.generation == s.generation + 1 && k.generation !in k.tasks
            && k.tasks.Keys == s.tasks.Keys && k.app == Some(app) && k.lastError.None? && k.schedulingDegraded.None?
            && k.seen.captures == s.seen.captures
  {
    var s1 := InstalledFor(s, app, config, w.first);
    var s2 := Apply(s1, Actor(StartCapture));
    NoTaskNoCleanup(s2, w.second);
    TasksBetween(s2, w.second);
  }

  lemma InstalledFor(s: State, app: nat, config: StartConfig, first: seq<Step>) returns (s': State)
    requires TokenInv(s) && s.actor.Ready? && StartRefusal(s, config).None? && TasksOnly(first)
    ensures s' == Run(Apply(s, Actor(StartInstall(app, config))), first)
    ensures s'.actor == Installed(config) && s'.onComplete == s.onComplete && s'.bridge == s.bridge
    ensures s'.token == Some(s'.generation) && s'.generation == s.generation + 1 && s'.generation !in s'.tasks
    ensures s'.tasks.Keys == s.tasks.Keys && s'.app == Some(app) && s'.lastError.None? && s'.schedulingDegraded.None?
    ensures s'.seen.captures == s.seen.captures
  {
    var s1 := JustInstalled(s, app, config);
    NoTaskNoCleanup(s1, first);
    TasksBetween(s1, first);
    s' := Run(s1, first);
  }

  lemma JustInstalled(s: State, app: nat, config: StartConfig) returns (s': State)
    requires TokenInv(s) && s.actor.Ready? && StartRefusal(s, config).None?
    ensures s' == Apply(s, Actor(StartInstall(app, config)))
    ensures s'.actor == Installed(config) && s'.onComplete == s.onComplete && s'.bridge == s.bridge
    ensures s'.token == Some(s'.generation) && s'.generation == s.generation + 1 && s'.generation !in s'.tasks
    ensures s'.tasks == s.tasks && s'.app == Some(app) && s'.lastError.None? && s'.schedulingDegraded.None?
    ensures s'.seen.captures == s.seen.captures
  {
    s' := Install(s, app, config);
  }

  lemma RollbackRestores(k: State, error: string, w: Gaps) returns (s': State)
    requires k.actor.Captured? && k.onComplete.None? && k.bridge.Some? && !k.bridge.value.advisory
    requires k.token.Some? && k.generation !in k.tasks && GapsOfTasks(w)
    ensures var failed := Apply(k, Actor(StartKeepalive(Some(error))));
            s' == Apply(Run(Apply(Run(failed, w.third), Actor(StartReturnToken)), w.fourth), Actor(StartRestore))
    ensures s'.actor.Ready? && s'.onComplete == k.actor.callback && s'.token.None? && !s'.isRunning && s'.lifecycle.Idle?
    ensures s'.tasks.Keys == k.tasks.Keys && s'.generation == k.generation && s'.app == k.app
    ensures s'.lastError == k.lastError && s'.schedulingDegraded == k.schedulingDegraded && s'.seen.captures == k.seen.captures
  {
    var s3 := Apply(k, Actor(StartKeepalive(Some(error))));
    NoTaskNoCleanup(s3, w.third);
    TasksBetween(s3, w.third);
    var s4 := Apply(Run(s3, w.third), Actor(StartReturnToken));
    NoTaskNoCleanup(s4, w.fourth);
    TasksBetween(s4, w.fourth);
    s' := Apply(Run(s4, w.fourth), Actor(StartRestore));
  }

  /** A fatal keepalive failure undoes the start, whatever older tasks do meanwhile: the callback that
      the start took is back in the slot, nothing was spawned or captured, and the cells are those of
      an idle service.  Only the generation has moved on, the app handle is the new one, and the
      markers of the last run are cleared. */
  lemma FatalKeepaliveRollsBack(s: State, app: nat, config: StartConfig, error: string, w: Gaps)
    requires TokenInv(s) && s.actor.Ready? && StartRefusal(s, config).None?
    requires s.bridge.Some? && !s.bridge.value.advisory && GapsOfTasks(w)
    ensures BeforeKeepalive(s, app, config, w).onComplete.None?
    ensures var s' := AfterRollback(s, app, config, error, w);
            && s'.actor.Ready? && s'.onComplete == s.onComplete && s'.seen.captures == s.seen.captures
            && s'.tasks.Keys == s.tasks.Keys && s'.generation == s.generation + 1
            && s'.token.None? && !s'.isRunning && s'.lifecycle.Idle?
            && s'.app == Some(app) && s'.lastError.None? && s'.schedulingDegraded.None?
  {
    CaptureTakesSlot(s, app, config, w);
    var s' := RollbackRestores(BeforeKeepalive(s, app, config, w), error, w);
  }

  /** If no task runs meanwhile, nothing else changes: not the tasks, the events or the record. */
  lemma RollbackAlone(s: State, app: nat, config: StartConfig, error: string)
    requires TokenInv(s) && s.actor.Ready? && StartRefusal(s, config).None?
    requires s.bridge.Some? && !s.bridge.value.advisory
    ensures var s' := AfterRollback(s, app, config, error, Gaps([], [], [], []));
            && s'.tasks == s.tasks && s'.record == s.record && s'.terminalReason == s.terminalReason
            && s'.seen.events == s.seen.events && s'.seen.attempts == s.seen.attempts && s'.seen.accepted == s.seen.accepted
  {
  }
}
