/** The data shapes of the Sensibo API as the client holds them. Field names
    and field order follow the Go structs; floating-point fields are reals. */
module SensiboTypes {

  datatype Option<T> = None | Some(value: T)

  datatype Result<T> = Success(value: T) | Failure(error: Error)

  /** Any failure of a remote call (transport, HTTP or decoding). */
  datatype Error = Error(reason: string)

  /** The device's direct (manual) operating state. */
  datatype AcState = AcState(
    On: bool,
    FanLevel: string,
    TemperatureUnit: string,
    TargetTemperature: int,
    Mode: string,
    Swing: string)

  /** What the device reported it measured; humidity is not modelled. */
  datatype Measurements = Measurements(Temperature: real)

  /** The state SmartMode switches to on one side of a threshold. */
  datatype TemperatureState = TemperatureState(
    On: bool,
    FanLevel: string,
    TemperatureUnit: string,
    TargetTemperature: int,
    Mode: string)

  /** The device's autonomous dual-threshold profile; thresholds are in
      degrees Celsius, the device's own scale. */
  datatype SmartMode = SmartMode(
    DeviceUID: string,
    HighTemperatureThreshold: real,
    Type: string,
    LowTemperatureState: TemperatureState,
    Enabled: bool,
    HighTemperatureState: TemperatureState,
    LowTemperatureThreshold: real)

  /** One device ("pod") as the API returns it. */
  datatype Pod = Pod(
    AcState: AcState,
    Measurements: Measurements,
    SmartMode: SmartMode,
    ID: string)

  /** Go's zero value of a Pod, which a client holds before it loads state. */
  const ZeroTemperatureState := TemperatureState(false, "", "", 0, "")
  const ZeroPod := Pod(
    AcState(false, "", "", 0, "", ""),
    Measurements(0.0),
    SmartMode("", 0.0, "", ZeroTemperatureState, false, ZeroTemperatureState, 0.0),
    "")
}
