/** The runtime records of a managed valve (internal/device/valve.go) and of a
    valve command (internal/scheduler/action.go). Times and durations are
    milliseconds. */
module Options {
  datatype Option<+T> = None | Some(value: T)
}

module Device {
  import opened Options

  /** ValveUnset is the empty string a resource without status carries. */
  datatype ValveState = ValveOpen | ValveClosed | ValveUnknown | ValveUnset

  datatype ValveConfig = ValveConfig(
    disabled: bool,
    retryCount: int,
    commandTimeout: int,
    keepClosedInterval: int,
    maxOpenDuration: int,
    closeRepeatCount: int)

  datatype ValveInfo = ValveInfo(
    name: string,
    namespace: string,
    config: ValveConfig,
    friendlyName: string,
    shortAddr: string,
    bridgeName: string,
    bridgeHost: string,
    bridgePort: int,
    state: ValveState,
    linkQuality: int,
    batteryPercentage: int,
    dailyIrrigationVolume: real,
    lastValveOpenDuration: int,
    currentActionID: string,
    lastOpenTime: Option<int>,
    lastCloseTime: Option<int>)
  {
    function Key(): string { namespace + "/" + name }

    function CommandTarget(): string {
      if shortAddr != "" then shortAddr else friendlyName
    }

    /** How often one OFF attempt or one ping sends its command. */
    function CloseSends(): nat {
      if config.closeRepeatCount < 1 then 1 else config.closeRepeatCount
    }
  }

  /** A parsed telemetry entry; None is an absent field. */
  datatype SensorEvent = SensorEvent(
    deviceName: string,
    shortAddr: string,
    power: Option<int>,
    linkQuality: Option<int>,
    batteryPercentage: Option<int>,
    dailyIrrigationVolume: Option<real>,
    lastValveOpenDuration: Option<int>)

  function Or<T>(o: Option<T>, default: T): T {
    if o.Some? then o.value else default
  }

  /** UpdateConfig: spec-derived fields only. */
  function WithSpec(old_: ValveInfo, spec: ValveInfo): ValveInfo {
    old_.(config := spec.config, friendlyName := spec.friendlyName, shortAddr := spec.shortAddr,
          bridgeName := spec.bridgeName, bridgeHost := spec.bridgeHost, bridgePort := spec.bridgePort)
  }

  /** The conversion to a 32-bit integer keeps the low 32 bits. */
  function Int32(x: int): (r: int)
    ensures -0x8000_0000 <= r < 0x8000_0000 && (r - x) % 0x1_0000_0000 == 0
  {
    var low := x % 0x1_0000_0000;
    if low < 0x8000_0000 then low else low - 0x1_0000_0000
  }

  /** UpdateSensorFields: telemetry fields only. */
  function WithSensors(old_: ValveInfo, ev: SensorEvent): ValveInfo {
    old_.(linkQuality := if ev.linkQuality.Some? then Int32(ev.linkQuality.value) else old_.linkQuality,
          batteryPercentage := if ev.batteryPercentage.Some? then Int32(ev.batteryPercentage.value)
              else old_.batteryPercentage,
          dailyIrrigationVolume := Or(ev.dailyIrrigationVolume, old_.dailyIrrigationVolume),
          lastValveOpenDuration := Or(ev.lastValveOpenDuration, old_.lastValveOpenDuration))
  }
}

module Actions {
  import opened Options
  import opened Device

  type ID = string

  datatype ActionType = Open | OpenTimed | Close | KeepClose

  datatype ActionState =
    Pending | Sending | WaitingConfirmation | Fulfilled | Closing | Failed | Cancelled

  datatype CallError = ContextEnded | NoConfirmation(attempts: int)

  datatype ErrorMessage = NoError | CommandFailed(cause: CallError) | CloseNotConfirmed(cause: CallError)

  datatype Action = Action(
    id: ID,
    valveName: string,
    namespace: string,
    typ: ActionType,
    duration: int,
    requestedAt: int,
    state: ActionState,
    attempts: nat,
    lastAttempt: Option<int>,
    fulfilledAt: Option<int>,
    closedAt: Option<int>,
    expiresAt: Option<int>,
    failedAt: Option<int>,
    errorMessage: ErrorMessage)
  {
    predicate IsTerminal() { state.Fulfilled? || state.Failed? || state.Cancelled? }

    predicate HoldsValveOpen() { typ.Open? || typ.OpenTimed? }

    predicate IsInternalSafetyPing() { typ.KeepClose? }
  }

  function NewAction(id: ID, info: ValveInfo, typ: ActionType, duration: int, now: int): Action {
    Action(id, info.name, info.namespace, typ, duration, now, Pending, 0,
           None, None, None, None, None, NoError)
  }

  /** The command of an action: ON for the two opens, OFF otherwise. */
  predicate Power(typ: ActionType) { typ != Close && typ != KeepClose }

  /** Lines 163-168 of execute: an untimed open becomes timed under a limit. */
  function Upgrade(a: Action, cfg: ValveConfig): Action {
    if a.typ.Open? && cfg.maxOpenDuration > 0
    then a.(typ := OpenTimed, duration := cfg.maxOpenDuration)
    else a
  }
}
