/** Which foreground service types ever reach the bridge. */
module ServiceTypes {
  import opened Wrappers
  import opened Models
  import opened DesiredStateRecord
  import opened Lifecycle
  import opened TokenSafety

  /** The type is one of the 14 where the bridge enforces types, and on the allowlist up to case
      where the configuration asks for that. */
  predicate Permitted(config: Config, call: TypeCall) {
    && (call.enforced ==> call.fgType in VALID_FOREGROUND_SERVICE_TYPES)
    && (config.validateTypes ==> call.fgType != "" && AllowedUpToCase(call.fgType, config.allowlist, config.casing))
  }

  predicate BridgeEnforces(s: State) {
    s.bridge.Some? && s.bridge.value.enforcesTypes
  }

  /** The type a start in progress is about to hand to the bridge, if any. */
  function PendingType(pc: ActorPc): Option<string> {
    match pc
    case Installed(config) => Some(config.foregroundServiceType)
    case Captured(config, _) => Some(config.foregroundServiceType)
    case _ => None
  }

  ghost predicate TypesInv(s: State) {
    && (forall i | 0 <= i < |s.seen.typeCalls| :: Permitted(s.config, s.seen.typeCalls[i]))
    && (PendingType(s.actor).Some? ==> Permitted(s.config, TypeCall(PendingType(s.actor).value, BridgeEnforces(s))))
  }

  lemma RefusalIsExact(s: State, fgType: string)
    ensures TypeRefusal(s, fgType).Ok? <==> Permitted(s.config, TypeCall(fgType, BridgeEnforces(s)))
  {
  }

  lemma CommandKeepsTypes(s: State, a: ActorStep)
    requires TypesInv(s) && s.actor.Ready?
    ensures TypesInv(ApplyActor(s, a))
  {
    if a.StartInstall? {
      RefusalIsExact(s, a.config.foregroundServiceType);
    } else if a.UpdateType? {
      RefusalIsExact(s, a.fgType);
    }
  }

  lemma BootKeepsTypes(s: State, a: ActorStep)
    requires TypesInv(s) && !s.actor.Ready? && a.BootReplay?
    ensures TypesInv(ApplyActor(s, a))
  {
    forall fgType: string ensures TypeRefusal(s, fgType).Ok? <==> Permitted(s.config, TypeCall(fgType, BridgeEnforces(s))) {
      RefusalIsExact(s, fgType);
    }
  }

  lemma MidCommandKeepsTypes(s: State, a: ActorStep)
    requires TypesInv(s) && !s.actor.Ready? && !a.BootReplay?
    ensures TypesInv(ApplyActor(s, a))
  {
    if a.StartKeepalive? {
      KeepaliveKeepsTypes(s, a);
    } else if ContinuesStart(a) {
      StartKeepsTypes(s, a);
    } else {
      OthersLeaveTypes(s, a);
    }
  }

  lemma OthersLeaveTypes(s: State, a: ActorStep)
    requires !s.actor.Ready? && !ContinuesStart(a) && !a.BootReplay?
    ensures var s' := ApplyActor(s, a);
            && s'.seen.typeCalls == s.seen.typeCalls && s'.config == s.config && s'.bridge == s.bridge
            && PendingType(s'.actor) == PendingType(s.actor)
  {
    if !a.StopPersist? && !a.PollMerge? && !a.PollLifecycle? {
      ReconcileLeavesTypes(s, a);
    }
  }

  lemma ReconcileLeavesTypes(s: State, a: ActorStep)
    ensures var s' := Reconcile(s, a);
            && s'.seen.typeCalls == s.seen.typeCalls && s'.config == s.config && s'.bridge == s.bridge
            && PendingType(s'.actor) == PendingType(s.actor)
  {
  }

  lemma StartKeepsTypes(s: State, a: ActorStep)
    requires TypesInv(s) && !s.actor.Ready? && ContinuesStart(a) && !a.StartKeepalive?
    ensures TypesInv(ContinueStart(s, a))
  {
  }

  lemma KeepaliveKeepsTypes(s: State, a: ActorStep)
    requires TypesInv(s) && a.StartKeepalive?
    ensures TypesInv(ApplyActor(s, a))
  {
  }

  lemma {:induction false} TypesInvHolds(config: Config, record: Option<DesiredState>, steps: seq<Step>)
    ensures TypesInv(Run(Boot(config, record), steps))
    ensures Run(Boot(config, record), steps).config == config
  {
    if steps != [] {
      var before, step := steps[..|steps| - 1], steps[|steps| - 1];
      TypesInvHolds(config, record, before);
      var s := Run(Boot(config, record), before);
      match step {
        case Actor(a) =>
          if s.actor.Ready? {
            CommandKeepsTypes(s, a);
          } else if a.BootReplay? {
            BootKeepsTypes(s, a);
          } else {
            MidCommandKeepsTypes(s, a);
          }
          ActorKeepsConfig(s, a);
        case Work(g, t) => if g in s.tasks { EffectFrame(s, g, s.tasks[g], t); }
        case Restart =>
      }
    }
  }

  lemma ActorKeepsConfig(s: State, a: ActorStep)
    ensures ApplyActor(s, a).config == s.config
  {
  }

  /** Over every run, every type handed to a keepalive start or to a type update is permitted, and
      was so for the bridge it was handed to, although the bridge can be replaced between commands. */
  lemma {:induction false} OnlyPermittedTypes(config: Config, record: Option<DesiredState>, steps: seq<Step>, i: nat)
    ensures var s := Run(Boot(config, record), steps);
            i < |s.seen.typeCalls| ==> Permitted(config, s.seen.typeCalls[i])
  {
    TypesInvHolds(config, record, steps);
  }

  // ----- up to case -----

  /** The same letter of the English alphabet in upper and in lower case. */
  predicate CasePair(upper: char, lower: char) {
    'A' <= upper <= 'Z' && 'a' <= lower <= 'z' && upper as int - 'A' as int == lower as int - 'a' as int
  }

  predicate SameUpToCase(s: string, t: string) {
    |s| == |t| && forall i | 0 <= i < |s| :: s[i] == t[i] || CasePair(s[i], t[i]) || CasePair(t[i], s[i])
  }

  /** Plain strings have equal lower case exactly if they differ at most in the case of letters. */
  lemma LowerIsUpToCase(s: string, t: string, casing: map<string, string>)
    requires PlainAscii(s) && PlainAscii(t)
    ensures Lower(s, casing) == Lower(t, casing) <==> SameUpToCase(s, t)
  {
    if Lower(s, casing) == Lower(t, casing) {
      forall i | 0 <= i < |s| ensures s[i] == t[i] || CasePair(s[i], t[i]) || CasePair(t[i], s[i]) {
        assert Lower(s, casing)[i] == Lower(t, casing)[i];
      }
    }
    if SameUpToCase(s, t) {
      forall i | 0 <= i < |s| ensures Lower(s, casing)[i] == Lower(t, casing)[i] {
      }
    }
  }

  /** With validation on and the bridge content, a plain type passes exactly if it is not empty and
      some entry of a plain allowlist is the same up to the case of letters. */
  lemma AllowedExactly(s: State, fgType: string)
    requires PlainAscii(fgType) && forall i | 0 <= i < |s.config.allowlist| :: PlainAscii(s.config.allowlist[i])
    requires s.config.validateTypes && !BridgeEnforces(s)
    ensures TypeRefusal(s, fgType).Ok?
            <==> fgType != "" && exists i | 0 <= i < |s.config.allowlist| :: SameUpToCase(s.config.allowlist[i], fgType)
  {
    forall i | 0 <= i < |s.config.allowlist|
      ensures Lower(s.config.allowlist[i], s.config.casing) == Lower(fgType, s.config.casing)
              <==> SameUpToCase(s.config.allowlist[i], fgType)
    {
      LowerIsUpToCase(s.config.allowlist[i], fgType, s.config.casing);
    }
  }

  /** The platform's service types. */
  predicate IsServiceType(t: string) {
    || t == "dataSync" || t == "mediaPlayback" || t == "phoneCall" || t == "location" || t == "connectedDevice"
    || t == "mediaProjection" || t == "camera" || t == "microphone" || t == "health" || t == "remoteMessaging"
    || t == "systemExempted" || t == "shortService" || t == "specialUse" || t == "mediaProcessing"
  }

  lemma ValidTypesAreThose(t: string)
    ensures ValidateForegroundServiceType(t).Ok? <==> IsServiceType(t)
  {
    var v := VALID_FOREGROUND_SERVICE_TYPES;
    assert v[0] == "dataSync" && v[1] == "mediaPlayback" && v[2] == "phoneCall" && v[3] == "location" && v[4] == "connectedDevice";
    assert v[5] == "mediaProjection" && v[6] == "camera" && v[7] == "microphone" && v[8] == "health" && v[9] == "remoteMessaging";
    assert v[10] == "systemExempted" && v[11] == "shortService" && v[12] == "specialUse" && v[13] == "mediaProcessing";
  }

  /** A bridge that enforces types lets exactly the 14 of the platform through to the allowlist. */
  lemma EnforcedExactly(s: State, fgType: string)
    requires BridgeEnforces(s) && !s.config.validateTypes
    ensures TypeRefusal(s, fgType).Ok? <==> IsServiceType(fgType)
  {
    ValidTypesAreThose(fgType);
  }

  /** A type update moves nothing but the call log: not the token, generation or lifecycle. */
  lemma UpdateOnlySwapsType(s: State, fgType: string)
    ensures var s' := Apply(s, Actor(UpdateType(fgType)));
            s' == s.(seen := s.seen.(typeCalls := s'.seen.typeCalls))
            && (s'.seen.typeCalls != s.seen.typeCalls <==>
                  s.actor.Ready? && s.token.Some? && BridgeEnforces(s)
                  && Permitted(s.config, TypeCall(fgType, true)))
  {
    RefusalIsExact(s, fgType);
  }
}
