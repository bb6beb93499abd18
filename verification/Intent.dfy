/** The durable intent: how a save rewrites the record, and what a history of intent-setting
    events means. */
module Intent {
  import opened Wrappers
  import opened Models
  import opened Json
  import opened DesiredStateRecord

  /** What the environment does to one load-modify-save: the clock it reads, whether the load
      succeeds (a failed load falls back to the default record) and whether the save does. */
  datatype Saving = Saving(now: U64, loads: bool, saves: bool)

  function ConfigJson(config: Option<StartConfig>): Option<Json> {
    match config
    case None => None
    case Some(c) => Some(ConfigToJson(c))
  }

  /** The rewritten record: a start intent stores its config and time; a stop intent erases both
      and every recovery field. */
  function Rewrite(ds: DesiredState, desired: bool, config: Option<StartConfig>, now: U64): DesiredState {
    if desired then
      ds.(desiredRunning := true, lastStartConfig := ConfigJson(config), lastStartEpochMs := Some(now))
    else
      ds.(desiredRunning := false, lastStartConfig := None, lastStartEpochMs := None,
      recoveryPending := false, recoveryReason := None, restartAttempt := 0)
  }

  /** One save of the intent; no backend, no record. */
  function SaveDesiredRunning(record: Option<DesiredState>, desired: bool, config: Option<StartConfig>, saving: Saving)
    : Option<DesiredState>
  {
    if record.None? || !saving.saves then record
    else Some(Rewrite(if saving.loads then record.value else DEFAULT_STATE, desired, config, saving.now))
  }

  /** A record that does not want the service carries nothing to start or recover it with. */
  predicate Normalised(ds: DesiredState) {
    !ds.desiredRunning ==>
      ds.lastStartConfig.None? && ds.lastStartEpochMs.None? && !ds.recoveryPending
      && ds.recoveryReason.None? && ds.restartAttempt == 0
  }

  // ----- histories of intent -----

  /** The events that bear on the intent.  A generation is only meant within its process: `Died`
      marks where one process ends and the next, which counts generations from one again, begins. */
  datatype IntentEvent =
    | Launched(generation: nat, config: StartConfig)
    | Halted(reason: StopReason)
    | Completed(generation: nat)
    | Declared(desired: bool, wanted: Option<StartConfig>)
    | Died

  datatype Wish = Wish(desired: bool, config: Option<StartConfig>)

  const NO_WISH := Wish(false, None)

  /** The generation of the latest start in the current process. */
  function LatestLaunch(log: seq<IntentEvent>): Option<nat> {
    if log == [] then None
    else
      var e := log[|log| - 1];
      if e.Launched? then Some(e.generation) else if e.Died? then None else LatestLaunch(log[..|log| - 1])
  }

  /** Whether the event after history `before` decides the intent: starts and declarations do,
      stops do by their reason, and a completion does if it is that of its process's latest start. */
  predicate Decisive(before: seq<IntentEvent>, e: IntentEvent) {
    match e
    case Launched(_, _) => true
    case Declared(_, _) => true
    case Halted(reason) => ShouldClearDesiredState(reason)
    case Completed(g) => LatestLaunch(before) == Some(g)
    case Died => false
  }

  function SetBy(e: IntentEvent): Wish {
    match e
    case Launched(_, config) => Wish(true, Some(config))
    case Declared(desired, wanted) => if desired then Wish(true, wanted) else NO_WISH
    case Halted(_) => NO_WISH
    case Completed(_) => NO_WISH
    case Died => NO_WISH
  }

  /** What the user wants after a history. */
  function IntentAfter(log: seq<IntentEvent>): Wish {
    if log == [] then NO_WISH
    else
      var before, e := log[..|log| - 1], log[|log| - 1];
      if Decisive(before, e) then SetBy(e) else IntentAfter(before)
  }

  /** The intent is what the last decisive event set, and nothing earlier matters. */
  lemma {:induction false} IntentIsLastDecisive(log: seq<IntentEvent>, i: nat)
    requires i < |log| && Decisive(log[..i], log[i])
    requires forall k | i < k < |log| :: !Decisive(log[..k], log[k])
    ensures IntentAfter(log) == SetBy(log[i])
  {
    var before := log[..|log| - 1];
    if i < |before| {
      assert Decisive(before[..i], before[i]) by {
        assert before[..i] == log[..i];
      }
      forall k | i < k < |before| ensures !Decisive(before[..k], before[k]) {
        assert before[..k] == log[..k];
      }
      IntentIsLastDecisive(before, i);
    }
  }

  lemma {:induction false} NoDecisiveNoIntent(log: seq<IntentEvent>)
    requires forall k | 0 <= k < |log| :: !Decisive(log[..k], log[k])
    ensures IntentAfter(log) == NO_WISH
  {
    if log != [] {
      var before := log[..|log| - 1];
      forall k | 0 <= k < |before| ensures !Decisive(before[..k], before[k]) {
        assert before[..k] == log[..k];
      }
      NoDecisiveNoIntent(before);
    }
  }

  // ----- where saves and intent part -----

  predicate Writes(e: IntentEvent) {
    e.Launched? || e.Declared? || e.Completed? || (e.Halted? && ShouldClearDesiredState(e.reason))
  }

  /** What the saves of a history leave in the record: each overwrites the one before, decisive or not. */
  function Written(log: seq<IntentEvent>): Wish {
    if log == [] then NO_WISH
    else
      var e := log[|log| - 1];
      if Writes(e) then SetBy(e) else Written(log[..|log| - 1])
  }

  /** Since the last decisive event, a stale task's natural completion has been saved. */
  predicate StaleSince(log: seq<IntentEvent>) {
    log != [] &&
    var before, e := log[..|log| - 1], log[|log| - 1];
    !Decisive(before, e) && (e.Completed? || StaleSince(before))
  }

  /** The generation has completed naturally in the current process. */
  predicate CompletedHere(log: seq<IntentEvent>, g: nat) {
    log != [] &&
    var e := log[|log| - 1];
    e == Completed(g) || (!e.Died? && CompletedHere(log[..|log| - 1], g))
  }

  /** The last decisive event is a start whose save came after its own task's completion. */
  predicate Late(log: seq<IntentEvent>) {
    log != [] &&
    var before, e := log[..|log| - 1], log[|log| - 1];
    if Decisive(before, e) then e.Launched? && CompletedHere(before, e.generation) else Late(before)
  }

  /** One attempt to save an event's intent, and whether it reached the backend. */
  datatype Attempt = Attempt(event: IntentEvent, reached: bool)

  function Tried(log: seq<Attempt>): seq<IntentEvent> {
    if log == [] then [] else Tried(log[..|log| - 1]) + [log[|log| - 1].event]
  }

  function Reached(log: seq<Attempt>): seq<IntentEvent> {
    if log == [] then []
    else Reached(log[..|log| - 1]) + if log[|log| - 1].reached then [log[|log| - 1].event] else []
  }

  lemma Attempted(log: seq<Attempt>, x: Attempt)
    ensures Tried(log + [x]) == Tried(log) + [x.event]
    ensures Reached(log + [x]) == Reached(log) + if x.reached then [x.event] else []
  {
    assert (log + [x])[..|log|] == log;
  }

  /** Since the last save that reached the backend, the save of a decisive event has failed. */
  predicate Lost(log: seq<Attempt>) {
    log != [] &&
    var before, x := log[..|log| - 1], log[|log| - 1];
    !(Writes(x.event) && x.reached) && (Decisive(Tried(before), x.event) || Lost(before))
  }

  /** Since the last decisive event, a stale task's natural completion has reached the backend. */
  predicate StaleSaved(log: seq<Attempt>) {
    log != [] &&
    var before, x := log[..|log| - 1], log[|log| - 1];
    !Decisive(Tried(before), x.event) && ((x.event.Completed? && x.reached) || StaleSaved(before))
  }

  /** Unless a decisive save was lost, a stale completion is the only way in which the saves that
      reached the backend leave something else than the intent of all. */
  lemma {:induction false} ReachedIsIntentUnlessLost(log: seq<Attempt>)
    requires !Lost(log)
    ensures Written(Reached(log)) == if StaleSaved(log) then NO_WISH else IntentAfter(Tried(log))
  {
    if log != [] {
      var before, x := log[..|log| - 1], log[|log| - 1];
      Attempted(before, x);
      assert before + [x] == log;
      Appended(Tried(before), x.event);
      AppendedSaves(Reached(before), x.event);
      assert Reached(before) + [] == Reached(before);
      if !(Writes(x.event) && x.reached) {
        ReachedIsIntentUnlessLost(before);
      }
    }
  }

  /** What a history of saves means once late starts are discounted. */
  function Meant(log: seq<IntentEvent>): Wish {
    if Late(log) then NO_WISH else IntentAfter(log)
  }

  /** A stale completion is the only way in which the saves leave something else than the intent. */
  lemma {:induction false} WrittenIsIntentOrStale(log: seq<IntentEvent>)
    ensures Written(log) == if StaleSince(log) then NO_WISH else IntentAfter(log)
  {
    if log != [] {
      WrittenIsIntentOrStale(log[..|log| - 1]);
    }
  }

  lemma {:induction false} LateWantsService(log: seq<IntentEvent>)
    requires Late(log)
    ensures IntentAfter(log).desired
  {
    var before, e := log[..|log| - 1], log[|log| - 1];
    if !Decisive(before, e) {
      LateWantsService(before);
    }
  }

  lemma AppendedSaves(log: seq<IntentEvent>, e: IntentEvent)
    ensures Written(log + [e]) == if Writes(e) then SetBy(e) else Written(log)
    ensures StaleSince(log + [e]) <==> !Decisive(log, e) && (e.Completed? || StaleSince(log))
    ensures Late(log + [e]) <==> if Decisive(log, e) then e.Launched? && CompletedHere(log, e.generation) else Late(log)
    ensures forall g :: CompletedHere(log + [e], g) <==> e == Completed(g) || (!e.Died? && CompletedHere(log, g))
  {
    assert (log + [e])[..|log|] == log;
  }

  lemma Appended(log: seq<IntentEvent>, e: IntentEvent)
    ensures IntentAfter(log + [e]) == if Decisive(log, e) then SetBy(e) else IntentAfter(log)
    ensures LatestLaunch(log + [e]) == if e.Launched? then Some(e.generation) else if e.Died? then None else LatestLaunch(log)
  {
    assert (log + [e])[..|log|] == log;
  }

  /** The record expresses a wish: same flag, and the wish's config as its JSON value. */
  predicate Expresses(ds: DesiredState, w: Wish) {
    ds.desiredRunning == w.desired && ds.lastStartConfig == ConfigJson(w.config)
  }

  /** A record expresses at most one wish. */
  lemma ExpressesOne(ds: DesiredState, v: Wish, w: Wish)
    requires Expresses(ds, v)
    ensures Expresses(ds, w) <==> v == w
  {
    if Expresses(ds, w) && v.config.Some? {
      ConfigRoundTrip(v.config.value);
      ConfigRoundTrip(w.config.value);
    }
  }

  // ----- boot replay -----

  /** The config with which a fresh process replays a start, if it does: only on desktop, with a
      boot app, with consent, and when the loaded record asks for it and its config parses. */
  function ReplayConfig(mode: LifecycleMode, bootApp: bool, consent: bool, loaded: Option<DesiredState>): Option<StartConfig> {
    if !(mode.DesktopInProcess? || mode.DesktopOsService?) || !bootApp || !consent || loaded.None? then None
    else if !loaded.value.desiredRunning || loaded.value.lastStartConfig.None? then None
    else ConfigFromJson(loaded.value.lastStartConfig.value)
  }

  /** On a record that expresses a wish, the replay carries exactly the wish's config. */
  lemma ReplayFollowsWish(mode: LifecycleMode, bootApp: bool, consent: bool, ds: DesiredState, w: Wish)
    requires Expresses(ds, w)
    ensures ReplayConfig(mode, bootApp, consent, Some(ds))
            == if (mode.DesktopInProcess? || mode.DesktopOsService?) && bootApp && consent && w.desired
               then w.config else None
  {
    if w.config.Some? {
      ConfigRoundTrip(w.config.value);
    }
  }
}
