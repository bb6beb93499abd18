/** The value types shared by the actor, its tasks and its clients, and the checks made on them. */
module Models {
  import opened Wrappers

  /** The actor's own view of the service. */
  datatype ServiceLifecycle = Idle | Initializing | Running | Stopped

  datatype ServiceError =
    | AlreadyRunning
    | NotRunning
    | Runtime(message: string)
    | Platform(message: string)

  datatype StopReason =
    | UserStop
    | AppStop
    | PlatformTimeout
    | PlatformExpiration
    | NativeNotificationStop
    | OsRestart
    | BootRecovery
    | TaskCompleted
    | Error
    | ProcessExit

  /** Events a service task emits to the front end. */
  datatype PluginEvent =
    | Started
    | Ended(reason: StopReason)
    | Failure(message: string)

  datatype StartConfig = StartConfig(serviceLabel: string, foregroundServiceType: string)

  datatype LifecycleMode =
    | AndroidForegroundService
    | IosBgTaskScheduler
    | DesktopInProcess
    | DesktopOsService

  datatype NativeLifecycleEvent =
    | AndroidNotificationStop
    | AndroidTimeout(fgsType: Option<string>)
    | AndroidOsRestartAccepted
    | AndroidBootRecoveryAccepted
    | IosBgTaskExpired

  function ToStopReason(event: NativeLifecycleEvent): StopReason {
    match event
    case AndroidNotificationStop => NativeNotificationStop
    case AndroidTimeout(_) => PlatformTimeout
    case AndroidOsRestartAccepted => OsRestart
    case AndroidBootRecoveryAccepted => BootRecovery
    case IosBgTaskExpired => PlatformExpiration
  }

  predicate IsRecoveryAcceptance(event: NativeLifecycleEvent) {
    event.AndroidOsRestartAccepted? || event.AndroidBootRecoveryAccepted?
  }

  // ----- foreground service types -----

  const VALID_FOREGROUND_SERVICE_TYPES: seq<string> := [
    "dataSync", "mediaPlayback", "phoneCall", "location", "connectedDevice",
    "mediaProjection", "camera", "microphone", "health", "remoteMessaging",
    "systemExempted", "shortService", "specialUse", "mediaProcessing"]

  function AsciiLower(s: string): string {
    seq(|s|, i requires 0 <= i < |s| => if 'A' <= s[i] <= 'Z' then s[i] + 32 as char else s[i])
  }

  predicate PlainAscii(s: string) {
    forall i | 0 <= i < |s| :: s[i] < 128 as char
  }

  /** Lower case: `casing` gives it for the strings that are not plain ASCII. */
  function Lower(s: string, casing: map<string, string>): string {
    if !PlainAscii(s) && s in casing then casing[s] else AsciiLower(s)
  }

  function ValidateForegroundServiceType(t: string): Result<(), ServiceError> {
    if t in VALID_FOREGROUND_SERVICE_TYPES then Ok(())
    else Err(Platform("invalid foreground_service_type"))
  }

  /** Whether some entry of the allowlist equals `t` up to case. */
  predicate AllowedUpToCase(t: string, allowlist: seq<string>, casing: map<string, string>) {
    exists i | 0 <= i < |allowlist| :: Lower(allowlist[i], casing) == Lower(t, casing)
  }

  function ValidateAgainstAllowlist(t: string, allowlist: seq<string>, validate: bool, casing: map<string, string>)
    : Result<(), ServiceError>
  {
    if !validate then Ok(())
    else if t == "" then Err(Platform("foreground_service_type must not be empty"))
    else if AllowedUpToCase(t, allowlist, casing) then Ok(())
    else Err(Platform("foreground_service_type is not allowed"))
  }

  // ----- stop-reason policy -----

  /** Intentional stops clear the persisted intent; every other reason keeps it for recovery. */
  predicate ShouldClearDesiredState(reason: StopReason) {
    reason.UserStop? || reason.AppStop? || reason.NativeNotificationStop? || reason.TaskCompleted?
  }
}
