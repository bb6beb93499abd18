/** The iOS background-task deliveries as clients of the actor.

    A cold delivery arms a callback and starts the service; a warm one first asks whether it runs.
    The pending record is consumed once, only by a delivery whose own start was accepted. */
module BgTaskDelivery {
  import opened Wrappers
  import opened Models
  import opened DesiredStateRecord
  import opened Lifecycle
  import opened TokenSafety
  import opened Callbacks
  import opened Handlers

  datatype Kind = Cold | Warm

  /** What the delivery does once its start has been answered: run the success hook for the
      accepted generation, run the failure hook, or nothing because the service already ran. */
  datatype Verdict = Consume | Mark | Leave

  function StartVerdict(kind: Kind, reply: Result<(), ServiceError>): Verdict {
    match reply
    case Ok(_) => Consume
    case Err(e) => if kind.Warm? && e.AlreadyRunning? then Leave else Mark
  }

  // ----- the two client procedures -----

  datatype Reply<+T> = Dropped | Replied(value: T)

  /** The environment's answers to one delivery: whether each send gets through, and each reply. */
  datatype Answers = Answers(
    asked: bool,
    running: Reply<bool>,
    callbackSent: bool,
    sent: bool,
    reply: Reply<Result<(), ServiceError>>)

  /** A warm delivery is told that the service runs; a dropped reply counts as not running. */
  predicate ToldRunning(kind: Kind, a: Answers) {
    kind.Warm? && a.asked && a.running == Replied(true)
  }

  predicate Succeeds(kind: Kind, a: Answers) {
    && (kind.Warm? ==> a.asked && a.running != Replied(true))
    && a.callbackSent && a.sent && a.reply.Replied? && a.reply.value.Ok?
  }

  /** A warm delivery ends without a hook: told so, or overtaken between the question and its start. */
  predicate LeavesQuietly(kind: Kind, a: Answers) {
    || ToldRunning(kind, a)
    || (kind.Warm? && a.asked && a.callbackSent && a.sent && a.reply == Replied(Err(AlreadyRunning)))
  }

  /** The hooks a delivery may run; the environment's answers are parameters of each call. */
  class Hooks {
    var consumed: nat
    var marked: nat
    var armed: nat

    constructor ()
      ensures consumed == marked == armed == 0
    {
      consumed, marked, armed := 0, 0, 0;
    }

    method OnSuccess()
      modifies this`consumed
      ensures consumed == old(consumed) + 1
    {
      consumed := consumed + 1;
    }

    method OnFailure()
      modifies this`marked
      ensures marked == old(marked) + 1
    {
      marked := marked + 1;
    }

    /** The tail that both procedures share: send the start, await its reply, run a hook. */
    method SendStart(kind: Kind, sent: bool, reply: Reply<Result<(), ServiceError>>) returns (started: bool)
      modifies this`consumed, this`marked
      ensures started <==> sent && reply.Replied? && reply.value.Ok?
      ensures consumed == old(consumed) + (if started then 1 else 0)
      ensures marked == old(marked)
              + (if !sent || reply.Dropped? || StartVerdict(kind, reply.value).Mark? then 1 else 0)
    {
      if !sent {
        OnFailure();
        return false;
      }
      match reply {
        case Dropped =>
          OnFailure();
          return false;
        case Replied(result) =>
          match StartVerdict(kind, result) {
            case Consume =>
              OnSuccess();
              return true;
            case Mark =>
              OnFailure();
              return false;
            case Leave =>
              return false;
          }
      }
    }

    method RunAutoStart(sent: bool, reply: Reply<Result<(), ServiceError>>) returns (started: bool)
      modifies this`consumed, this`marked
      ensures started <==> sent && reply.Replied? && reply.value.Ok?
      ensures consumed == old(consumed) + (if started then 1 else 0)
      ensures marked == old(marked) + (if started then 0 else 1)
      ensures forall asked, running :: started <==> Succeeds(Cold, Answers(asked, running, true, sent, reply))
    {
      started := SendStart(Cold, sent, reply);
    }

    method RunWarmStart(asked: bool, running: Reply<bool>, callbackSent: bool, sent: bool, reply: Reply<Result<(), ServiceError>>)
      returns (started: bool)
      modifies this
      ensures asked && running == Replied(true) ==>
                !started && consumed == old(consumed) && marked == old(marked) && armed == old(armed)
      ensures started <==> asked && running != Replied(true) && callbackSent && sent && reply.Replied? && reply.value.Ok?
      ensures consumed == old(consumed) + (if started then 1 else 0)
      ensures consumed + marked <= old(consumed) + old(marked) + 1
      ensures var a := Answers(asked, running, callbackSent, sent, reply);
              && (started <==> Succeeds(Warm, a))
              && marked == old(marked) + (if Succeeds(Warm, a) || LeavesQuietly(Warm, a) then 0 else 1)
              && armed == old(armed) + (if asked && running != Replied(true) && callbackSent then 1 else 0)
    {
      if !asked {
        OnFailure();
        return false;
      }
      if running == Replied(true) {
        return false;
      }
      if !callbackSent {
        OnFailure();
        return false;
      }
      armed := armed + 1;
      started := SendStart(Warm, sent, reply);
    }
  }

  // ----- deliveries interleaved with everything else -----

  datatype CallPc =
    | Asking
    | AwaitingRunning
    | Arming
    | Starting
    | AwaitingStart
    | Consuming
    | Marking
    | Done

  /** `armed` is the callback the call set, and `held` whether the slot still held that callback when
      its start was taken up.  `installed` is the generation that start created, if it was not
      refused, and `accepted` the same once the reply has said so.  `left` says that the call ended
      because the service already ran. */
  datatype Call = Call(
    kind: Kind,
    pc: CallPc,
    armed: Option<nat>,
    held: bool,
    installed: Option<nat>,
    accepted: Option<nat>,
    left: bool,
    consumed: nat,
    marked: nat)

  datatype Consumption = Consumption(call: nat, generation: nat)

  datatype World = World(
    actor: State,
    calls: map<nat, Call>,
    serving: Option<nat>,
    open: bool,
    consumptions: seq<Consumption>)

  /** A delivery arrives, has its next command taken by the actor, loses the actor, or runs its
      hook; any other actor or task step happens; or the actor, between commands, shuts down. */
  datatype WorldStep =
    | Deliver(id: nat, kind: Kind)
    | Serve(id: nat, app: nat, config: StartConfig)
    | Lose(id: nat)
    | RunHook(id: nat)
    | Other(step: Step)
    | Close

  function SetCall(w: World, id: nat, call: Call): World {
    w.(calls := w.calls[id := call])
  }

  // The call's own transitions.

  function Opening(kind: Kind): Call {
    Call(kind, if kind.Warm? then Asking else Arming, None, false, None, None, false, 0, 0)
  }

  function Told(call: Call, running: bool): Call {
    if running then call.(pc := Done, left := true) else call.(pc := Arming)
  }

  function Armed(call: Call, callback: nat): Call {
    call.(pc := Starting, armed := Some(callback))
  }

  /** The call after its start was answered; if accepted, as the generation it installed. */
  function Answered(call: Call, reply: Result<(), ServiceError>): Call {
    match StartVerdict(call.kind, reply)
    case Consume => call.(pc := Consuming, accepted := call.installed)
    case Mark => call.(pc := Marking)
    case Leave => call.(pc := Done, left := true)
  }

  /** A closed channel: sends fail and awaited replies are dropped. */
  function LoseCall(call: Call): Call {
    match call.pc
    case AwaitingRunning => call.(pc := Arming)
    case Consuming => call
    case Done => call
    case _ => call.(pc := Marking)
  }

  function HookOf(call: Call): Call {
    match call.pc
    case Consuming => call.(pc := Done, consumed := call.consumed + 1)
    case Marking => call.(pc := Done, marked := call.marked + 1)
    case _ => call
  }

  /** The call taken through its transitions by given answers. */
  function CallOn(kind: Kind, a: Answers, callback: nat): Call {
    var opening := Opening(kind);
    var told := if kind.Cold? then opening
                else if !a.asked then LoseCall(opening)
                else if a.running.Dropped? then LoseCall(opening.(pc := AwaitingRunning))
                else Told(opening.(pc := AwaitingRunning), a.running.value);
    var armed := if !told.pc.Arming? then told else if a.callbackSent then Armed(told, callback) else LoseCall(told);
    var answered := if !armed.pc.Starting? then armed
                    else if !a.sent then LoseCall(armed)
                    else if a.reply.Dropped? then LoseCall(armed.(pc := AwaitingStart))
                    else Answered(armed, a.reply.value);
    HookOf(answered)
  }

  /** The calls of the transition system are the two client procedures: on the same answers they end
      having run the same hooks. */
  lemma CallsAreClients(kind: Kind, a: Answers, callback: nat)
    ensures var call := CallOn(kind, a, callback);
            && call.pc.Done?
            && call.consumed == (if Succeeds(kind, a) then 1 else 0)
            && call.marked == (if Succeeds(kind, a) || LeavesQuietly(kind, a) then 0 else 1)
            && (call.left <==> LeavesQuietly(kind, a))
  {
  }

  // The transitions of the world.

  /** The actor takes the call's next command. */
  function ServeCall(w: World, id: nat, call: Call, app: nat, config: StartConfig): World {
    var s := w.actor;
    match call.pc
    case Asking => SetCall(w, id, call.(pc := AwaitingRunning)).(actor := ApplyActor(s, ReconcileRead), serving := Some(id))
    case Arming => SetCall(w, id, Armed(call, s.seen.callbacksSet)).(actor := ApplyActor(s, SetOnComplete))
    case Starting =>
      var taken := TakenUp(s, call);
      (match StartRefusal(s, config)
       case Some(e) => SetCall(w, id, Answered(taken, Err(e)))
       case None =>
         SetCall(w, id, Installing(s, taken)).(actor := ApplyActor(s, StartInstall(app, config)), serving := Some(id)))
    case _ => w
  }

  function TakenUp(s: State, call: Call): Call {
    call.(held := call.armed.Some? && s.onComplete == call.armed)
  }

  function Installing(s: State, call: Call): Call {
    call.(pc := AwaitingStart, installed := Some(s.generation + 1))
  }

  /** The reply the actor sends when it finishes the command it is serving. */
  function ReplyTo(call: Call, before: State): Call {
    match call.pc
    case AwaitingRunning => Told(call, before.actor.Comparing? && before.actor.seen)
    case AwaitingStart => Answered(call, if before.actor.Spawned? then Ok(()) else Err(Platform("start_keepalive failed")))
    case _ => call
  }

  function OtherStep(w: World, step: Step): World {
    if step.Restart? || (step.Actor? && !w.open) || !WithoutAndroid(step) then w
    else
      var after := Apply(w.actor, step);
      if w.serving.Some? && w.serving.value in w.calls && after.actor.Ready? then
        SetCall(w, w.serving.value, ReplyTo(w.calls[w.serving.value], w.actor)).(actor := after, serving := None)
      else w.(actor := after)
  }

  function Hooked(w: World, id: nat, call: Call): World {
    var w' := SetCall(w, id, HookOf(call));
    if call.pc.Consuming? && call.accepted.Some? then
      w'.(consumptions := w.consumptions + [Consumption(id, call.accepted.value)])
    else w'
  }

  function Next(w: World, step: WorldStep): World {
    match step
    case Deliver(id, kind) => if id in w.calls then w else SetCall(w, id, Opening(kind))
    case Serve(id, app, config) =>
      if id in w.calls && w.open && w.actor.actor.Ready? && w.serving.None? then ServeCall(w, id, w.calls[id], app, config) else w
    case Lose(id) => if id in w.calls && !w.open then SetCall(w, id, LoseCall(w.calls[id])) else w
    case RunHook(id) => if id in w.calls then Hooked(w, id, w.calls[id]) else w
    case Other(step) => OtherStep(w, step)
    case Close => if w.actor.actor.Ready? then w.(open := false) else w
  }

  function RunWorld(w: World, steps: seq<WorldStep>): World {
    if steps == [] then w else Next(RunWorld(w, steps[..|steps| - 1]), steps[|steps| - 1])
  }

  function Start(config: Config, record: Option<DesiredState>): World {
    World(Boot(config, record), map[], None, true, [])
  }

  // ----- the invariant -----

  predicate CallShape(call: Call) {
    && call.consumed + call.marked <= 1
    && (call.consumed > 0 ==> call.pc.Done? && call.accepted.Some?)
    && (call.marked > 0 ==> call.pc.Done? && call.accepted.None?)
    && (call.left ==> call.pc.Done? && call.accepted.None? && call.consumed == 0 && call.marked == 0)
    && (call.accepted.Some? <==> call.pc.Consuming? || call.consumed > 0)
    && (call.accepted.Some? ==> call.accepted == call.installed)
    && (call.pc.AwaitingStart? ==> call.installed.Some?)
    && (call.installed.Some? ==> !call.pc.Asking? && !call.pc.AwaitingRunning? && !call.pc.Arming? && !call.pc.Starting?)
    && (call.pc.Starting? || call.installed.Some? || call.held ==> call.armed.Some?)
  }

  /** The actor is inside some start. */
  predicate MidStart(pc: ActorPc) {
    Launching(pc) || pc.TokenReturned? || pc.Spawned?
  }

  /** The callback is where the start in progress takes it from, or has taken it to. */
  predicate OnItsWay(s: State, c: nat) {
    match s.actor
    case Installed(_) => s.onComplete == Some(c)
    case Spawned(_) => Capture(c, s.generation) in s.seen.captures
    case _ => HeldByStart(s.actor) == Some(c)
  }

  /** The generation that the call's own start created has captured the call's callback. */
  predicate CapturedByOwnStart(s: State, call: Call) {
    call.installed.Some? && call.armed.Some? && Capture(call.armed.value, call.installed.value) in s.seen.captures
  }

  /** The call's own start has spawned its task. */
  predicate OwnStartSpawned(s: State, call: Call) {
    call.installed.Some? && call.installed.value in s.tasks
  }

  /** While its own start is in progress, the call awaits the reply and its callback is on its way
      exactly if the slot held it at the outset.  Once that start has spawned, its generation has
      captured the callback under the same condition.  After the reply, it has spawned exactly if it
      was accepted. */
  predicate OwnStartFits(s: State, call: Call) {
    call.installed.Some? ==>
      && call.armed.Some? && call.installed.value <= s.generation
      && (MidStart(s.actor) && call.installed.value == s.generation ==>
            call.pc.AwaitingStart? && (call.held <==> OnItsWay(s, call.armed.value)))
      && (OwnStartSpawned(s, call) ==> (CapturedByOwnStart(s, call) <==> call.held))
      && (!call.pc.AwaitingStart? ==> (OwnStartSpawned(s, call) <==> call.accepted.Some?))
  }

  /** The call waits for the command the actor is inside of. */
  predicate Waiting(s: State, call: Call) {
    || (call.pc.AwaitingRunning? && s.actor.Comparing?)
    || (call.pc.AwaitingStart? && MidStart(s.actor) && call.installed == Some(s.generation))
  }

  /** The actor serves the one call, if any, that waits for the command it is inside of. */
  ghost predicate ServingFits(w: World) {
    && (w.serving.Some? ==> w.serving.value in w.calls && Waiting(w.actor, w.calls[w.serving.value]))
    && (forall id | id in w.calls && w.calls[id].pc.AwaitingStart? :: w.serving == Some(id))
    && (!w.open ==> w.serving.None?)
  }

  ghost predicate DeliveryInv(w: World) {
    && TokenInv(w.actor)
    && (forall id | id in w.calls :: CallShape(w.calls[id]) && OwnStartFits(w.actor, w.calls[id]))
    && (forall i, j | i in w.calls && j in w.calls && w.calls[i].installed.Some? && w.calls[i].installed == w.calls[j].installed :: i == j)
    && ServingFits(w)
    && (forall n | 0 <= n < |w.consumptions| ::
          w.consumptions[n].call in w.calls
          && w.calls[w.consumptions[n].call].consumed > 0
          && w.calls[w.consumptions[n].call].accepted == Some(w.consumptions[n].generation))
    && (forall m, n | 0 <= m < n < |w.consumptions| :: w.consumptions[m].call != w.consumptions[n].call)
  }

  // ----- the actor moves on -----

  /** Tasks stay with what they captured, only the start in progress adds one, and a start in progress
      is either the same one or a new generation. */
  ghost predicate Onward(s: State, s': State) {
    && s'.generation >= s.generation
    && (forall g | g in s.tasks :: g in s'.tasks)
    && (forall g | g in s'.tasks && g !in s.tasks :: g == s.generation && MidStart(s.actor))
    && (forall x: Capture | x.generation in s.tasks :: x in s'.seen.captures <==> x in s.seen.captures)
    && (MidStart(s'.actor) ==> (MidStart(s.actor) && s'.generation == s.generation) || s'.generation > s.generation)
  }

  lemma CapturesOnward(s: State, a: ActorStep)
    requires TokenInv(s)
    ensures var s' := ApplyActor(s, a);
            && (forall g | g in s.tasks :: g in s'.tasks)
            && (forall g | g in s'.tasks && g !in s.tasks :: g == s.generation && MidStart(s.actor))
            && (forall x: Capture | x.generation in s.tasks :: x in s'.seen.captures <==> x in s.seen.captures)
  {
    if s.actor.Kept? && a.StartSpawn? {
      SpawnCaptures(s);
    } else {
      OthersLeaveCaptures(s, a);
    }
  }

  /** A start in progress keeps the callback on its way until it spawns or returns it. */
  lemma StartKeepsOnItsWay(s: State, a: ActorStep, c: nat)
    requires TokenInv(s) && CaptureInv(s) && MidStart(s.actor)
    ensures var s' := ApplyActor(s, a);
            && (MidStart(s'.actor) ==> (OnItsWay(s', c) <==> OnItsWay(s, c)))
            && (s'.actor.Ready? && s.actor.Spawned? ==> (Capture(c, s'.generation) in s'.seen.captures <==> OnItsWay(s, c)))
            && (s'.actor.Ready? && !s.actor.Spawned? ==> (s'.onComplete == Some(c) <==> OnItsWay(s, c)))
  {
    if s.actor.Kept? && a.StartSpawn? {
      SpawnCaptures(s);
      assert forall i | 0 <= i < |s.seen.captures| :: Carried(s, s.seen.captures[i]);
    } else {
      OthersLeaveCaptures(s, a);
      StartMoves(s, a);
    }
  }

  /** What an actor step does to the callback of a start in progress, other than the spawn. */
  lemma StartMoves(s: State, a: ActorStep)
    requires MidStart(s.actor) && !(s.actor.Kept? && a.StartSpawn?)
    ensures var s' := ApplyActor(s, a);
            && s'.generation == s.generation
            && (MidStart(s'.actor) ==>
                  if s.actor.Installed? && s'.actor.Captured? then HeldByStart(s'.actor) == s.onComplete
                  else HeldByStart(s'.actor) == HeldByStart(s.actor) && s'.onComplete == s.onComplete
                       && s'.actor.Installed? == s.actor.Installed? && s'.actor.Spawned? == s.actor.Spawned?)
            && (s'.actor.Ready? ==> s.actor.Spawned? || (s.actor.TokenReturned? && s'.onComplete == HeldByStart(s.actor)))
  {
  }

  lemma CommandOnward(s: State, a: ActorStep)
    requires TokenInv(s) && s.actor.Ready?
    ensures Onward(s, ApplyActor(s, a))
  {
    CapturesOnward(s, a);
    CommandStarts(s, a);
  }

  lemma CommandStarts(s: State, a: ActorStep)
    requires s.actor.Ready?
    ensures var s' := ApplyActor(s, a);
            s'.generation >= s.generation && (MidStart(s'.actor) ==> s'.generation > s.generation)
  {
  }

  lemma MidCommandOnward(s: State, a: ActorStep)
    requires TokenInv(s) && !s.actor.Ready?
    ensures var s' := ApplyActor(s, a);
            && Onward(s, s')
            && (MidStart(s.actor) ==> s'.generation == s.generation && (s'.actor.Ready? || MidStart(s'.actor)))
            && (s.actor.Comparing? && WithoutAndroid(Actor(a)) ==> s'.actor.Ready? || s'.actor.Comparing?)
  {
    CapturesOnward(s, a);
    MidCommandProceeds(s, a);
  }

  lemma MidCommandProceeds(s: State, a: ActorStep)
    requires !s.actor.Ready?
    ensures var s' := ApplyActor(s, a);
            && s'.generation >= s.generation
            && (MidStart(s'.actor) ==> (MidStart(s.actor) && s'.generation == s.generation) || s'.generation > s.generation)
            && (MidStart(s.actor) ==> s'.generation == s.generation && (s'.actor.Ready? || MidStart(s'.actor)))
            && (s.actor.Comparing? && WithoutAndroid(Actor(a)) ==> s'.actor.Ready? || s'.actor.Comparing?)
  {
  }

  lemma WorkOnward(s: State, g: nat, t: TaskStep)
    requires g in s.tasks
    ensures var s' := ApplyTask(s, g, t);
            && Onward(s, s') && s'.actor == s.actor && s'.generation == s.generation && s'.tasks.Keys == s.tasks.Keys
            && s'.seen.captures == s.seen.captures && (forall c :: OnItsWay(s', c) <==> OnItsWay(s, c))
  {
    EffectFrame(s, g, s.tasks[g], t);
  }

  /** A start that ends does so by its save or by its rollback. */
  lemma StartConcluding(s: State, a: ActorStep)
    requires MidStart(s.actor)
    ensures var s' := ApplyActor(s, a);
            s'.actor.Ready? ==> (s.actor.Spawned? || s.actor.TokenReturned?) && s'.tasks == s.tasks
  {
  }

  // ----- one call while the actor moves on -----

  lemma OnwardFits(s: State, s': State, call: Call)
    requires Onward(s, s') && OwnStartFits(s, call) && !call.pc.AwaitingStart?
    ensures OwnStartFits(s', call)
  {
  }

  /** The served call, while its command goes on. */
  lemma OngoingFits(s: State, a: ActorStep, call: Call)
    requires TokenInv(s) && CaptureInv(s) && OwnStartFits(s, call) && Waiting(s, call) && WithoutAndroid(Actor(a))
    requires !ApplyActor(s, a).actor.Ready?
    ensures OwnStartFits(ApplyActor(s, a), call) && Waiting(ApplyActor(s, a), call)
  {
    MidCommandOnward(s, a);
    if call.pc.AwaitingStart? {
      StartKeepsOnItsWay(s, a, call.armed.value);
      ActorKeepsTokenInv(s, a);
    } else {
      OnwardFits(s, ApplyActor(s, a), call);
    }
  }

  /** The served call, once its command is done. */
  lemma ReplyFits(s: State, a: ActorStep, call: Call)
    requires TokenInv(s) && CaptureInv(s) && CallShape(call) && OwnStartFits(s, call) && Waiting(s, call)
    requires WithoutAndroid(Actor(a)) && ApplyActor(s, a).actor.Ready?
    ensures var answered := ReplyTo(call, s);
            && CallShape(answered) && OwnStartFits(ApplyActor(s, a), answered) && !answered.pc.AwaitingStart?
            && answered.consumed == call.consumed && answered.installed == call.installed && call.accepted.None?
  {
    MidCommandOnward(s, a);
    if call.pc.AwaitingStart? {
      StartConcluding(s, a);
      StartKeepsOnItsWay(s, a, call.armed.value);
    } else {
      OnwardFits(s, ApplyActor(s, a), call);
    }
  }

  // ----- the world -----

  /** The actor may move on while one call changes, as long as the call keeps the generation it
      installed or installs one newer than every other call's. */
  lemma CallChangeKeeps(w: World, w': World, id: nat, call: Call)
    requires DeliveryInv(w) && TokenInv(w'.actor) && Onward(w.actor, w'.actor) && ServingFits(w')
    requires w'.calls == w.calls[id := call] && w'.consumptions == w.consumptions
    requires CallShape(call) && OwnStartFits(w'.actor, call)
    requires forall k | k in w.calls && k != id :: !w.calls[k].pc.AwaitingStart?
    requires id in w.calls ==> call.consumed == w.calls[id].consumed && (w.calls[id].accepted.Some? ==> call.accepted == w.calls[id].accepted)
    requires call.installed.Some? ==> (id in w.calls && call.installed == w.calls[id].installed) || call.installed.value > w.actor.generation
    ensures DeliveryInv(w')
  {
    OthersFit(w, w'.actor, id);
    InstalledSoFar(w);
  }

  lemma OthersFit(w: World, s': State, id: nat)
    requires (forall k | k in w.calls :: OwnStartFits(w.actor, w.calls[k])) && Onward(w.actor, s')
    requires forall k | k in w.calls && k != id :: !w.calls[k].pc.AwaitingStart?
    ensures forall k | k in w.calls && k != id :: OwnStartFits(s', w.calls[k])
  {
    forall k | k in w.calls && k != id ensures OwnStartFits(s', w.calls[k]) {
      OnwardFits(w.actor, s', w.calls[k]);
    }
  }

  lemma InstalledSoFar(w: World)
    requires forall k | k in w.calls :: OwnStartFits(w.actor, w.calls[k])
    ensures forall k | k in w.calls && w.calls[k].installed.Some? :: w.calls[k].installed.value <= w.actor.generation
  {
    forall k | k in w.calls && w.calls[k].installed.Some? ensures w.calls[k].installed.value <= w.actor.generation {
      assert OwnStartFits(w.actor, w.calls[k]);
    }
  }

  lemma ActorMoveKeeps(w: World, w': World)
    requires DeliveryInv(w) && TokenInv(w'.actor) && Onward(w.actor, w'.actor) && ServingFits(w')
    requires w'.calls == w.calls && w'.consumptions == w.consumptions
    requires forall k | k in w.calls && w.calls[k].pc.AwaitingStart? :: OwnStartFits(w'.actor, w.calls[k])
    ensures DeliveryInv(w')
  {
    forall k | k in w.calls ensures OwnStartFits(w'.actor, w.calls[k]) {
      if !w.calls[k].pc.AwaitingStart? {
        OnwardFits(w.actor, w'.actor, w.calls[k]);
      }
    }
  }

  lemma ServeMoves(s: State, app: nat, config: StartConfig)
    requires TokenInv(s) && s.actor.Ready?
    ensures var s' := ApplyActor(s, StartInstall(app, config));
            StartRefusal(s, config).None? ==>
              s'.actor.Installed? && s'.onComplete == s.onComplete && s'.generation == s.generation + 1 && s'.tasks == s.tasks
  {
  }

  lemma ServeKeeps(w: World, id: nat, app: nat, config: StartConfig)
    requires DeliveryInv(w) && id in w.calls && w.open && w.actor.actor.Ready? && w.serving.None?
    ensures DeliveryInv(ServeCall(w, id, w.calls[id], app, config))
  {
    var s, call := w.actor, w.calls[id];
    assert CallShape(call) && OwnStartFits(s, call);
    if call.pc.Asking? {
      AskKeeps(w, id);
    } else if call.pc.Arming? {
      ArmKeeps(w, id);
    } else if call.pc.Starting? {
      if StartRefusal(s, config).Some? {
        QuietChangeKeeps(w, id, Answered(TakenUp(s, call), Err(StartRefusal(s, config).value)));
      } else {
        InstallKeeps(w, id, app, config);
      }
    }
  }

  lemma AskKeeps(w: World, id: nat)
    requires DeliveryInv(w) && id in w.calls && w.open && w.actor.actor.Ready? && w.serving.None?
    requires w.calls[id].pc.Asking? && CallShape(w.calls[id])
    ensures DeliveryInv(SetCall(w, id, w.calls[id].(pc := AwaitingRunning)).(actor := ApplyActor(w.actor, ReconcileRead), serving := Some(id)))
  {
    var call := w.calls[id].(pc := AwaitingRunning);
    CommandOnward(w.actor, ReconcileRead);
    ActorKeepsTokenInv(w.actor, ReconcileRead);
    CallChangeKeeps(w, SetCall(w, id, call).(actor := ApplyActor(w.actor, ReconcileRead), serving := Some(id)), id, call);
  }

  lemma ArmKeeps(w: World, id: nat)
    requires DeliveryInv(w) && id in w.calls && w.open && w.actor.actor.Ready? && w.serving.None?
    requires w.calls[id].pc.Arming? && CallShape(w.calls[id])
    ensures DeliveryInv(SetCall(w, id, Armed(w.calls[id], w.actor.seen.callbacksSet)).(actor := ApplyActor(w.actor, SetOnComplete)))
  {
    var call := Armed(w.calls[id], w.actor.seen.callbacksSet);
    CommandOnward(w.actor, SetOnComplete);
    ActorKeepsTokenInv(w.actor, SetOnComplete);
    CallChangeKeeps(w, SetCall(w, id, call).(actor := ApplyActor(w.actor, SetOnComplete)), id, call);
  }

  lemma InstallKeeps(w: World, id: nat, app: nat, config: StartConfig)
    requires DeliveryInv(w) && id in w.calls && w.open && w.actor.actor.Ready? && w.serving.None?
    requires w.calls[id].pc.Starting? && CallShape(w.calls[id]) && StartRefusal(w.actor, config).None?
    ensures DeliveryInv(SetCall(w, id, Installing(w.actor, TakenUp(w.actor, w.calls[id]))).(
                        actor := ApplyActor(w.actor, StartInstall(app, config)), serving := Some(id)))
  {
    var call := Installing(w.actor, TakenUp(w.actor, w.calls[id]));
    var w' := SetCall(w, id, call).(actor := ApplyActor(w.actor, StartInstall(app, config)), serving := Some(id));
    ServeMoves(w.actor, app, config);
    CommandOnward(w.actor, StartInstall(app, config));
    ActorKeepsTokenInv(w.actor, StartInstall(app, config));
    CallChangeKeeps(w, w', id, call);
  }

  /** The reply to the served call, once the actor is between commands again. */
  lemma ReplyKeeps(w: World, a: ActorStep)
    requires DeliveryInv(w) && w.serving.Some? && WithoutAndroid(Actor(a)) && ApplyActor(w.actor, a).actor.Ready?
    requires w.open && CaptureInv(w.actor)
    ensures DeliveryInv(OtherStep(w, Actor(a)))
  {
    var s, id := w.actor, w.serving.value;
    var s', call := ApplyActor(s, a), w.calls[id];
    assert CallShape(call) && OwnStartFits(s, call);
    ActorKeepsTokenInv(s, a);
    MidCommandOnward(s, a);
    ReplyFits(s, a, call);
    CallChangeKeeps(w, w.(calls := w.calls[id := ReplyTo(call, s)], actor := s', serving := None), id, ReplyTo(call, s));
  }

  lemma OtherActorKeeps(w: World, a: ActorStep)
    requires DeliveryInv(w) && w.open && WithoutAndroid(Actor(a)) && CaptureInv(w.actor)
    ensures DeliveryInv(OtherStep(w, Actor(a)))
  {
    var s := w.actor;
    var s' := ApplyActor(s, a);
    ActorKeepsTokenInv(s, a);
    if s.actor.Ready? {
      CommandKeeps(w, a);
    } else if w.serving.Some? && s'.actor.Ready? {
      ReplyKeeps(w, a);
    } else {
      OngoingKeeps(w, a);
    }
  }

  lemma CommandKeeps(w: World, a: ActorStep)
    requires DeliveryInv(w) && w.actor.actor.Ready?
    ensures w.serving.None? && DeliveryInv(w.(actor := ApplyActor(w.actor, a)))
  {
    ActorKeepsTokenInv(w.actor, a);
    CommandOnward(w.actor, a);
    ActorMoveKeeps(w, w.(actor := ApplyActor(w.actor, a)));
  }

  lemma OngoingKeeps(w: World, a: ActorStep)
    requires DeliveryInv(w) && WithoutAndroid(Actor(a)) && CaptureInv(w.actor) && !w.actor.actor.Ready?
    requires w.serving.None? || !ApplyActor(w.actor, a).actor.Ready?
    ensures DeliveryInv(w.(actor := ApplyActor(w.actor, a)))
  {
    ActorKeepsTokenInv(w.actor, a);
    MidCommandOnward(w.actor, a);
    if w.serving.Some? {
      assert OwnStartFits(w.actor, w.calls[w.serving.value]);
      OngoingFits(w.actor, a, w.calls[w.serving.value]);
    }
    ActorMoveKeeps(w, w.(actor := ApplyActor(w.actor, a)));
  }

  lemma OtherWorkKeeps(w: World, g: nat, t: TaskStep)
    requires DeliveryInv(w)
    ensures DeliveryInv(OtherStep(w, Work(g, t)))
  {
    if g in w.actor.tasks {
      WorkOnward(w.actor, g, t);
      TaskKeepsTokenInv(w.actor, g, t);
      ActorMoveKeeps(w, w.(actor := ApplyTask(w.actor, g, t)));
    }
  }

  lemma HookKeeps(w: World, id: nat)
    requires DeliveryInv(w) && id in w.calls
    ensures DeliveryInv(Hooked(w, id, w.calls[id]))
  {
    assert CallShape(w.calls[id]) && OwnStartFits(w.actor, w.calls[id]);
    if w.calls[id].pc.Marking? {
      QuietChangeKeeps(w, id, HookOf(w.calls[id]));
    } else if w.calls[id].pc.Consuming? {
      ConsumeKeeps(w, id, HookOf(w.calls[id]), Hooked(w, id, w.calls[id]));
    } else {
      assert w.calls[id := w.calls[id]] == w.calls;
    }
  }

  lemma ConsumeKeeps(w: World, id: nat, call: Call, w': World)
    requires DeliveryInv(w) && id in w.calls && w.calls[id].pc.Consuming? && CallShape(call)
    requires call == w.calls[id].(pc := Done, consumed := call.consumed) && call.accepted.Some? && call.consumed > 0
    requires w' == w.(calls := w.calls[id := call], consumptions := w.consumptions + [Consumption(id, call.accepted.value)])
    ensures DeliveryInv(w')
  {
    assert CallShape(w.calls[id]) && OwnStartFits(w.actor, w.calls[id]);
    forall n | 0 <= n < |w.consumptions| ensures w.consumptions[n].call != id {
      assert w.calls[w.consumptions[n].call].consumed > 0;
    }
  }

  /** One call changes by itself, the actor being elsewhere. */
  lemma QuietChangeKeeps(w: World, id: nat, call: Call)
    requires DeliveryInv(w) && CallShape(call) && OwnStartFits(w.actor, call) && !call.pc.AwaitingStart?
    requires id in w.calls ==>
               && call.consumed == w.calls[id].consumed && call.installed == w.calls[id].installed
               && (w.calls[id].accepted.Some? ==> call.accepted == w.calls[id].accepted)
               && (w.serving != Some(id) || call.pc == w.calls[id].pc)
    requires id !in w.calls ==> call.installed.None?
    ensures DeliveryInv(SetCall(w, id, call))
  {
  }

  lemma LoseKeeps(w: World, id: nat)
    requires DeliveryInv(w) && id in w.calls && !w.open
    ensures DeliveryInv(SetCall(w, id, LoseCall(w.calls[id])))
  {
    assert CallShape(w.calls[id]) && OwnStartFits(w.actor, w.calls[id]);
    QuietChangeKeeps(w, id, LoseCall(w.calls[id]));
  }

  lemma NextKeeps(w: World, step: WorldStep)
    requires DeliveryInv(w) && CaptureInv(w.actor)
    ensures DeliveryInv(Next(w, step))
  {
    match step {
      case Deliver(id, kind) => if id !in w.calls { DeliverKeeps(w, id, kind); }
      case Serve(id, app, config) =>
        if id in w.calls && w.open && w.actor.actor.Ready? && w.serving.None? { ServeKeeps(w, id, app, config); }
      case Lose(id) => if id in w.calls && !w.open { LoseKeeps(w, id); }
      case RunHook(id) => if id in w.calls { HookKeeps(w, id); }
      case Other(x) => OtherKeeps(w, x);
      case Close => CloseKeeps(w);
    }
  }

  lemma DeliverKeeps(w: World, id: nat, kind: Kind)
    requires DeliveryInv(w) && id !in w.calls
    ensures DeliveryInv(SetCall(w, id, Opening(kind)))
  {
    QuietChangeKeeps(w, id, Opening(kind));
  }

  lemma CloseKeeps(w: World)
    requires DeliveryInv(w)
    ensures DeliveryInv(Next(w, Close))
  {
  }

  lemma OtherKeeps(w: World, step: Step)
    requires DeliveryInv(w) && CaptureInv(w.actor)
    ensures DeliveryInv(OtherStep(w, step))
  {
    if step.Actor? && w.open && WithoutAndroid(step) {
      OtherActorKeeps(w, step.a);
    } else if step.Work? {
      OtherWorkKeeps(w, step.g, step.t);
    }
  }

  /** One step of the world moves the actor by at most one of its own. */
  lemma ActorMoves(w: World, step: WorldStep) returns (moves: seq<Step>)
    ensures Next(w, step).actor == Run(w.actor, moves)
  {
    moves := [];
    match step {
      case Serve(id, app, config) =>
        if id in w.calls && Next(w, step).actor != w.actor {
          moves := [Actor(if w.calls[id].pc.Asking? then ReconcileRead
                          else if w.calls[id].pc.Arming? then SetOnComplete
                          else StartInstall(app, config))];
          RunOne(w.actor, moves[0]);
        }
      case Other(x) =>
        if Next(w, step).actor != w.actor {
          moves := [x];
          RunOne(w.actor, x);
        }
      case _ =>
    }
  }

  /** What the actor does in a world is a run, so whatever holds of every run holds of it. */
  lemma {:induction false} ActorIsReachable(config: Config, record: Option<DesiredState>, steps: seq<WorldStep>) returns (run: seq<Step>)
    ensures RunWorld(Start(config, record), steps).actor == Run(Boot(config, record), run)
  {
    run := [];
    if steps != [] {
      var before := ActorIsReachable(config, record, steps[..|steps| - 1]);
      var moves := ActorMoves(RunWorld(Start(config, record), steps[..|steps| - 1]), steps[|steps| - 1]);
      RunConcat(Boot(config, record), before, moves);
      run := before + moves;
    }
  }

  lemma {:induction false} DeliveryInvHolds(config: Config, record: Option<DesiredState>, steps: seq<WorldStep>)
    ensures DeliveryInv(RunWorld(Start(config, record), steps))
  {
    if steps != [] {
      DeliveryInvHolds(config, record, steps[..|steps| - 1]);
      var run := ActorIsReachable(config, record, steps[..|steps| - 1]);
      CaptureInvHolds(config, record, run);
      NextKeeps(RunWorld(Start(config, record), steps[..|steps| - 1]), steps[|steps| - 1]);
    }
  }

  // ----- main results -----

  /** However cold and warm deliveries interleave with each other, with other clients' commands and
      with tasks: no delivery runs both hooks or one twice; the pending record is consumed only by a
      delivery whose own start was accepted and spawned a task; and a delivery that found the
      service running consumes and marks nothing. */
  lemma {:induction false} HooksAreExclusive(config: Config, record: Option<DesiredState>, steps: seq<WorldStep>, id: nat)
    ensures var w := RunWorld(Start(config, record), steps);
            id in w.calls ==>
              && w.calls[id].consumed + w.calls[id].marked <= 1
              && (w.calls[id].consumed > 0 ==> w.calls[id].accepted.Some? && w.calls[id].accepted.value in w.actor.tasks)
              && (w.calls[id].marked > 0 ==> w.calls[id].accepted.None?)
              && (w.calls[id].left ==> w.calls[id].consumed == 0 && w.calls[id].marked == 0 && w.calls[id].accepted.None?)
  {
    DeliveryInvHolds(config, record, steps);
    var w := RunWorld(Start(config, record), steps);
    if id in w.calls {
      assert CallShape(w.calls[id]) && OwnStartFits(w.actor, w.calls[id]);
    }
  }

  /** Consumptions map injectively to distinct generations and to distinct deliveries. */
  lemma {:induction false} ConsumptionsAreDistinct(config: Config, record: Option<DesiredState>, steps: seq<WorldStep>, m: nat, n: nat)
    ensures var w := RunWorld(Start(config, record), steps);
            m < n < |w.consumptions| ==>
              && w.consumptions[m].call != w.consumptions[n].call
              && w.consumptions[m].generation != w.consumptions[n].generation
              && w.consumptions[m].generation in w.actor.tasks
  {
    DeliveryInvHolds(config, record, steps);
    var w := RunWorld(Start(config, record), steps);
    if m < n < |w.consumptions| {
      var i, j := w.consumptions[m].call, w.consumptions[n].call;
      assert CallShape(w.calls[i]) && CallShape(w.calls[j]) && OwnStartFits(w.actor, w.calls[i]);
    }
  }

  /** At every moment of every run, before and after the reply: the generation that a delivery's own
      start created has captured the delivery's callback exactly if that start has spawned and the
      slot still held the callback when it was taken up.  Another start may have captured it before,
      or another callback replaced it.  Once the start is no longer awaited, it has spawned exactly if
      it was accepted: not if it was refused, rolled back or lost. */
  lemma {:induction false} OwnCallbackIff(config: Config, record: Option<DesiredState>, steps: seq<WorldStep>, id: nat)
    ensures var w := RunWorld(Start(config, record), steps);
            id in w.calls ==>
              && (CapturedByOwnStart(w.actor, w.calls[id]) <==> OwnStartSpawned(w.actor, w.calls[id]) && w.calls[id].held)
              && (!w.calls[id].pc.AwaitingStart? ==> (OwnStartSpawned(w.actor, w.calls[id]) <==> w.calls[id].accepted.Some?))
  {
    DeliveryInvHolds(config, record, steps);
    var run := ActorIsReachable(config, record, steps);
    CaptureInvHolds(config, record, run);
    var w := RunWorld(Start(config, record), steps);
    if id in w.calls {
      if CapturedByOwnStart(w.actor, w.calls[id]) {
        CaptureMeansSpawned(w.actor, w.calls[id]);
      }
      assert CallShape(w.calls[id]) && OwnStartFits(w.actor, w.calls[id]);
    }
  }

  lemma CaptureMeansSpawned(s: State, call: Call)
    requires CaptureInv(s) && CapturedByOwnStart(s, call)
    ensures OwnStartSpawned(s, call)
  {
    var i :| 0 <= i < |s.seen.captures| && s.seen.captures[i] == Capture(call.armed.value, call.installed.value);
    assert Carried(s, s.seen.captures[i]);
  }

  /** So a delivery's callback that fires, be it before the reply, reports the result of the start the
      delivery made under exactly that condition, and otherwise another's. */
  lemma {:induction false} FiresForOwnStartIff(config: Config, record: Option<DesiredState>, steps: seq<WorldStep>, id: nat, n: nat)
    ensures var w := RunWorld(Start(config, record), steps);
            id in w.calls && n < |w.actor.seen.fired| && w.calls[id].armed == Some(w.actor.seen.fired[n].callback) ==>
              (w.calls[id].installed == Some(w.actor.seen.fired[n].generation)
               <==> OwnStartSpawned(w.actor, w.calls[id]) && w.calls[id].held)
  {
    OwnCallbackIff(config, record, steps, id);
    var run := ActorIsReachable(config, record, steps);
    var w := RunWorld(Start(config, record), steps);
    if id in w.calls && n < |w.actor.seen.fired| && w.calls[id].armed == Some(w.actor.seen.fired[n].callback) {
      var c, g := w.actor.seen.fired[n].callback, w.actor.seen.fired[n].generation;
      var own := if w.calls[id].installed.Some? then w.calls[id].installed.value else g;
      CapturedOnce(config, record, run, Capture(c, g), Capture(c, own));
    }
  }

  /** A start that is refused or rolled back leaves its callback armed for whichever start comes
      next, exactly if the slot held it at the outset; a warm delivery leaves quietly exactly if a
      token was in place, and otherwise the failure is marked. */
  lemma {:induction false} RefusedStartLeavesCallback(config: Config, record: Option<DesiredState>, steps: seq<WorldStep>, step: WorldStep, id: nat)
    ensures var w := RunWorld(Start(config, record), steps);
            var w' := Next(w, step);
            id in w.calls && (step.Serve? || step.Other?)
            && (w.calls[id].pc.Starting? || w.calls[id].pc.AwaitingStart?) && (w'.calls[id].pc.Done? || w'.calls[id].pc.Marking?) ==>
              && (w'.actor.onComplete == w'.calls[id].armed <==> w'.calls[id].held)
              && (w'.calls[id].pc.Done? <==> w.calls[id].kind.Warm? && w.calls[id].pc.Starting? && w.actor.token.Some?)
              && (w'.calls[id].left <==> w'.calls[id].pc.Done?)
  {
    DeliveryInvHolds(config, record, steps);
    var run := ActorIsReachable(config, record, steps);
    CaptureInvHolds(config, record, run);
    var w := RunWorld(Start(config, record), steps);
    if id in w.calls && (step.Serve? || step.Other?) && (w.calls[id].pc.Starting? || w.calls[id].pc.AwaitingStart?) {
      assert CallShape(w.calls[id]) && OwnStartFits(w.actor, w.calls[id]);
      if w.calls[id].pc.Starting? {
        RefusedAtOnce(w, step, id);
      } else {
        RolledBackLater(w, step, id);
      }
    }
  }

  lemma RolledBackLater(w: World, step: WorldStep, id: nat)
    requires TokenInv(w.actor) && CaptureInv(w.actor) && ServingFits(w) && id in w.calls && (step.Serve? || step.Other?)
    requires CallShape(w.calls[id]) && OwnStartFits(w.actor, w.calls[id]) && w.calls[id].pc.AwaitingStart?
    ensures var w' := Next(w, step);
            (w'.calls[id].pc.Done? || w'.calls[id].pc.Marking?) ==>
              && (w'.actor.onComplete == w'.calls[id].armed <==> w'.calls[id].held)
              && w'.calls[id].pc.Marking? && !w'.calls[id].left
  {
    OnlyServedIsAnswered(w, step, id);
    if step.Other? && step.step.Actor? {
      RollbackAnswer(w.actor, step.step.a, w.calls[id]);
    }
  }

  /** A call that awaits its start's reply changes only when the actor finishes that start. */
  lemma OnlyServedIsAnswered(w: World, step: WorldStep, id: nat)
    requires ServingFits(w) && id in w.calls && w.calls[id].pc.AwaitingStart? && (step.Serve? || step.Other?)
    ensures var w' := Next(w, step);
            || w'.calls[id] == w.calls[id]
            || (step.Other? && step.step.Actor?
                && w'.actor == ApplyActor(w.actor, step.step.a) && w'.actor.actor.Ready?
                && w'.calls[id] == ReplyTo(w.calls[id], w.actor))
  {
  }

  lemma RollbackAnswer(s: State, a: ActorStep, call: Call)
    requires TokenInv(s) && CaptureInv(s) && CallShape(call) && OwnStartFits(s, call) && call.pc.AwaitingStart? && Waiting(s, call)
    ensures var s' := ApplyActor(s, a);
            var answered := ReplyTo(call, s);
            s'.actor.Ready? ==>
              answered.pc.Consuming? || (answered.pc.Marking? && !answered.left && answered.armed == call.armed
                                         && (s'.onComplete == answered.armed <==> answered.held))
  {
    StartKeepsOnItsWay(s, a, call.armed.value);
    StartConcluding(s, a);
  }

  lemma RefusedAtOnce(w: World, step: WorldStep, id: nat)
    requires ServingFits(w) && id in w.calls && w.calls[id].pc.Starting? && CallShape(w.calls[id]) && (step.Serve? || step.Other?)
    ensures var w' := Next(w, step);
            (w'.calls[id].pc.Done? || w'.calls[id].pc.Marking?) ==>
              && (w'.actor.onComplete == w'.calls[id].armed <==> w'.calls[id].held)
              && (w'.calls[id].pc.Done? <==> w.calls[id].kind.Warm? && w.actor.token.Some?)
              && (w'.calls[id].left <==> w'.calls[id].pc.Done?)
  {
  }
}
