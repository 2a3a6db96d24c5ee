# smarter_sensibo in Dafny

smarter_sensibo keeps a Sensibo air conditioner in line with a simple office
policy. Each run loads the device ("pod") from the Sensibo API and keeps two
copies of it: a baseline and a working copy. The policy then edits the
working copy:

- outside working hours, or when the room is comfortable, the device is
  switched off;
- when the room is cold, SmartMode (the device's own dual-threshold
  autopilot) is set to warm;
- when the room is hot, SmartMode is set to cool.

Finally the client pushes only what changed. SmartMode is pushed when it is
not *equivalent* to the baseline: thresholds within 0.01 count as equal.
The direct AC state is pushed when it differs at all.

This project models that core and proves what it does:

- `gomath.dfy` (module `GoMath`): the parts of Go's `math` package the code
  uses (`Abs`, `Floor`, `Ceil`, `Modf`), over reals.
- `types.dfy` (module `SensiboTypes`): the API's structs (`AcState`,
  `TemperatureState`, `SmartMode`, `Measurements`, `Pod`) as datatypes with
  the Go field names, plus `Option`, `Result` and `Error`.
- `client.dfy` (module `Sensibo`): `FloatEq`, `Equivalent` and the `Client`
  class. Its fields `State` and `origState` are the two copies, and a log
  `pushes` records every push attempted. `PushState` is specified by the
  functions `PushPlan` (which pushes, in which order) and `PushResult` (the
  error returned).
- `main.dfy` (module `SmarterSensibo`): `Round`, `CToF` and `FToC`; the
  schedule `InActiveWindow`; the three configurations; the decision
  `Decide`; and one cycle, `SyncSensibo`.

The configurations exist in two forms. `WarmingMode`, `CoolingMode` and
`Idle` are functions that state the result. `SetWarming`, `SetCooling` and
`Shutdown` are methods that assign one field at a time, as the Go code
does, and are proved equal to those functions.

Temperatures are reals. The device works in degrees Celsius and the policy
in degrees Fahrenheit. Some notable facts proved here:

- Going from Celsius to Fahrenheit and back is exact on tenths from 0 C
  up. Below 0 C it can lose one tenth: -0.1 C becomes 31.8 F, which
  becomes -0.2 C.
- Going from Fahrenheit to Celsius and back moves a tenth by at most one
  tenth from 32 F up: 68.1 F becomes 20.1 C, which becomes 68.2 F. Below
  32 F it can lose up to two tenths: 31.8 F becomes -0.2 C, which becomes
  31.6 F.
- The policy's 68/71/74 F thresholds become 20.0/21.7/23.3 C. Converted
  back, they read 68.0/71.1/73.9 F.
- In Celsius, the warming band is below 659/36 (about 18.31). The cooling
  band starts at 821/36 (about 22.81).
- `Equivalent` ignores `Enabled`. So the enabled flag alone never causes a
  SmartMode push. A device that matches the warming configuration except
  for being disabled stays disabled.
- Going idle pushes SmartMode only if a threshold state was powered.
- Once the device holds what the policy chose, the next cycle pushes
  nothing, as long as it runs in the same window and at the same measured
  temperature.

`round` does not round half up for negative values. For a negative value
`Modf` gives a fraction that is never positive, so `round` always floors:
-0.21 becomes -0.3. This is also why both round trips are worse below
freezing.

A Fahrenheit tenth does not always survive the trip through Celsius to
within 0.05: 68.1 becomes 20.1, which becomes 68.2.

## Model

| member | source | states |
|---|---|---|
| GoMath.Abs | code/pkg/sensibo/client.go:105 | the result is non-negative and is x or -x |
| GoMath.Floor | code/cmd/smarter_sensibo/main.go:23 | the greatest integer not above x |
| GoMath.Ceil | code/cmd/smarter_sensibo/main.go:21 | the least integer not below x |
| GoMath.Modf | code/cmd/smarter_sensibo/main.go:20 | integer and fractional parts add up to x; both carry x's sign, and the fraction lies strictly between -1 and 1 |
| SmarterSensibo.RoundNonNegative | code/cmd/smarter_sensibo/main.go:17-26 | for val >= 0, round is nearest-tenth with ties up: a tenth, within (-0.05, +0.05] of val |
| SmarterSensibo.RoundTiesUp | code/cmd/smarter_sensibo/main.go:20-21 | an exact half tenth is rounded up (adds 0.05) |
| SmarterSensibo.RoundNegative | code/cmd/smarter_sensibo/main.go:17-26 | for val < 0, round floors to a tenth: never above val and less than 0.1 below it |
| SmarterSensibo.RoundTenth | code/cmd/smarter_sensibo/main.go:17-26 | a whole number of tenths is left unchanged |
| SmarterSensibo.RoundIdempotent | code/cmd/smarter_sensibo/main.go:17-26 | round(round(x)) == round(x) for every x |
| SmarterSensibo.ThresholdConstants | code/cmd/smarter_sensibo/main.go:29-36 | FToC(68)=20.0, FToC(71)=21.7, FToC(74)=23.3; back in Fahrenheit they read 68.0, 71.1, 73.9 |
| SmarterSensibo.FToCAfterCToF | code/cmd/smarter_sensibo/main.go:29-36 | Celsius to Fahrenheit and back is the identity on non-negative tenths |
| SmarterSensibo.CToFAfterFToC | code/cmd/smarter_sensibo/main.go:29-36 | Fahrenheit to Celsius and back moves a tenth t >= 32 by at most 0.1 |
| SmarterSensibo.FToCAfterCToFBelowZero | code/cmd/smarter_sensibo/main.go:17-36 | Celsius to Fahrenheit and back on a negative tenth c gives c or c - 0.1 (round floors negatives) |
| SmarterSensibo.CToFAfterFToCBelowFreezing | code/cmd/smarter_sensibo/main.go:17-36 | Fahrenheit to Celsius and back on a tenth t < 32 lands in [t - 0.2, t] |
| SmarterSensibo.CelsiusRoundTripInexactBelowZero | code/cmd/smarter_sensibo/main.go:17-36 | some negative tenth does not survive CToF then FToC (-0.1 C goes to 31.8 F and comes back as -0.2 C) |
| SmarterSensibo.FahrenheitRoundTripLosesTwoTenths | code/cmd/smarter_sensibo/main.go:17-36 | some tenth below 32 loses two tenths through FToC then CToF (31.8 F goes to -0.2 C and comes back as 31.6 F) |
| SmarterSensibo.FahrenheitRoundTripInexact | code/cmd/smarter_sensibo/main.go:29-36 | some tenth t >= 32 does not survive FToC then CToF (68.1 F goes to 20.1 C and comes back as 68.2 F) |
| SmarterSensibo.WarmingBand | code/cmd/smarter_sensibo/main.go:103 | CToF(t) < 65 exactly when 36t < 659 (t in Celsius) |
| SmarterSensibo.CoolingBand | code/cmd/smarter_sensibo/main.go:106 | CToF(t) > 73 exactly when 36t >= 821 (t in Celsius) |
| SmarterSensibo.ActiveWindowMeans | code/cmd/smarter_sensibo/main.go:39-46 | active iff the day is Monday to Friday and the time of day is from 05:00 up to, not including, 17:00, whatever the minute |
| SmarterSensibo.ActiveWindowExamples | code/cmd/smarter_sensibo/main.go:39-46 | Wednesday 05h and 16h are active; Wednesday 17h, Wednesday 04h and Saturday 12h are not |
| SmarterSensibo.WarmingMode | code/cmd/smarter_sensibo/main.go:49-61 | warming SmartMode: enabled; low threshold 20.0 with low state on, "strong", 80, "heat" (unit kept); high threshold 23.3 with high state off (other fields kept); DeviceUID and Type kept |
| SmarterSensibo.CoolingMode | code/cmd/smarter_sensibo/main.go:64-75 | cooling SmartMode: enabled; low threshold 21.7 with low state off (other fields kept); high threshold 23.3 with high state on, "strong", 65, "cool" (unit kept); DeviceUID and Type kept |
| SmarterSensibo.Idle | code/cmd/smarter_sensibo/main.go:78-84 | direct power, SmartMode enabled, and both threshold states' power are off; restoring those four flags gives back the original pod |
| SmarterSensibo.WarmingCoolingIdempotent | code/cmd/smarter_sensibo/main.go:49-75 | applying setWarming or setCooling twice equals applying it once |
| SmarterSensibo.IdleIdempotent | code/cmd/smarter_sensibo/main.go:78-84 | applying shutdown twice equals applying it once |
| SmarterSensibo.SetWarming | code/cmd/smarter_sensibo/main.go:49-61 | the field-by-field assignments produce exactly WarmingMode |
| SmarterSensibo.SetCooling | code/cmd/smarter_sensibo/main.go:64-75 | the field-by-field assignments produce exactly CoolingMode |
| SmarterSensibo.Shutdown | code/cmd/smarter_sensibo/main.go:78-84 | the field-by-field assignments produce exactly Idle |
| SmarterSensibo.DecideTable | code/cmd/smarter_sensibo/main.go:101-116 | inactive: idle; active: warming below 659/36 C, cooling from 821/36 C, idle in the dead zone between (65..73 F inclusive) |
| SmarterSensibo.DecideKeeps | code/cmd/smarter_sensibo/main.go:101-116 | the policy keeps measurements and ID; the direct state is kept or only switched off |
| SmarterSensibo.DecideIdempotent | code/cmd/smarter_sensibo/main.go:101-116 | deciding again on the decided pod changes nothing |
| SmarterSensibo.NextCyclePushesNothing | code/cmd/smarter_sensibo/main.go:101-118 | once the device holds the decided state, a next cycle in the same window and at the same measured temperature pushes nothing |
| SmarterSensibo.HeatOrCoolNeverPushesAcState | code/cmd/smarter_sensibo/main.go:103-108 | a warming or cooling decision only ever pushes SmartMode |
| SmarterSensibo.IdlePushes | code/cmd/smarter_sensibo/main.go:78-84 | going idle pushes SmartMode iff a threshold state was on (the enabled flag does not matter), and AcState iff it was on and no SmartMode push failed first |
| SmarterSensibo.EnabledFlagNotPushedAlone | code/cmd/smarter_sensibo/main.go:103-105 | a device whose SmartMode is the warming configuration except for Enabled gets no push |
| SmarterSensibo.DisabledDeviceStaysDisabled | code/cmd/smarter_sensibo/main.go:103-105 | there is a disabled device, cold enough for warming, whose enabled working copy causes no push |
| SmarterSensibo.SyncSensibo | code/cmd/smarter_sensibo/main.go:88-122 | a load error is returned with no push; otherwise the pushes and the error are those of PushState on the decided pod against the loaded one |
| Sensibo.FloatEq | code/pkg/sensibo/client.go:104-106 | b lies strictly within 0.01 of a |
| Sensibo.FloatEqReflexiveSymmetric | code/pkg/sensibo/client.go:104-106 | floatEq is reflexive and symmetric |
| Sensibo.EquivalentReflexive | code/pkg/sensibo/client.go:109-128 | every SmartMode is equivalent to itself |
| Sensibo.EquivalentSymmetric | code/pkg/sensibo/client.go:109-128 | Equivalent(a, b) == Equivalent(b, a) |
| Sensibo.EquivalentMeans | code/pkg/sensibo/client.go:110-125 | not equivalent iff a threshold differs by 0.01 or more, or any field of either threshold state differs |
| Sensibo.EquivalentIgnoresFlags | code/pkg/sensibo/client.go:109-128 | Enabled, DeviceUID and Type do not affect equivalence |
| Sensibo.EquivalentNotTransitive | code/pkg/sensibo/client.go:104-114 | Equivalent is not transitive (thresholds 20.0 ~ 20.006 ~ 20.012 but not 20.0 ~ 20.012) |
| Sensibo.NoChangeNoPush | code/pkg/sensibo/client.go:131-154 | an unchanged working copy gives zero pushes and no error |
| Sensibo.PushPlanContents | code/pkg/sensibo/client.go:133-151 | SmartMode pushed iff not equivalent to the baseline; AcState pushed iff it differs and no SmartMode push failed; payloads are the working copy's |
| Sensibo.PushOrder | code/pkg/sensibo/client.go:133-151 | at most two pushes, SmartMode before AcState |
| Sensibo.FailedSmartModeStops | code/pkg/sensibo/client.go:135-138 | a failing SmartMode push is the returned error and AcState is not attempted |
| Sensibo.SuccessMeansSynced | code/pkg/sensibo/client.go:131-154 | no error means every changed resource was pushed and its push succeeded |
| Sensibo.Client.constructor | code/pkg/sensibo/client.go:34-50 | a new client holds zero-valued State and origState and no pushes |
| Sensibo.Client.LoadState | code/pkg/sensibo/client.go:83-101 | on success State == origState == first pod; on failure the error is returned and neither copy changes |
| Sensibo.Client.UpdateSmartMode | code/pkg/sensibo/client.go:173-186 | one SmartMode push of the working copy is logged; its outcome is the service's |
| Sensibo.Client.UpdateAcState | code/pkg/sensibo/client.go:157-170 | one AcState push of the working copy is logged; its outcome is the service's |
| Sensibo.Client.PushState | code/pkg/sensibo/client.go:131-154 | State and origState unchanged; the pushes appended are PushPlan and the error is PushResult |

## Left out

- HTTP transport, request building, request/response dumping and logging (client.go:188-239): remote calls are replaced by their replies, which are parameters. This also covers the GET in `LoadState` and the POSTs in `updateSmartMode`/`updateAcState`.
- JSON encoding of the POST bodies (client.go:157-186): a push carries the datatype value it would encode.
- API-key loading from the environment and AWS SSM, and the base URL (client.go:34-79): foreign calls and credential handling.
- `log.Fatal` paths: `SyncSensibo` returns the error instead of ending the process.
- Sensibo.Client.LoadState: requires a non-empty pod list on success, because the code indexes the first pod unchecked and would panic. Only the first pod is used, as in the code.
- `copier.Copy` is a plain value copy; the structs hold only values.
- The Lambda and command-line entry points, the success marker line, `time.LoadLocation` and `time.Now` (main.go:124-139, 98-99): `SyncSensibo` takes the local weekday and hour as inputs.
- IEEE-754 behaviour of `Modf`, `Ceil`, `Floor`, `*` and `/`: arithmetic is on reals. A float `10 * val` that lands just below a half is not modelled.
- Integer widths: `TargetTemperature` is Go's `int` and only ever takes small constants, so it is unbounded here.
- The diagnostic log lines of `Equivalent` and `PushState` that say which field differed.
- The `Time` type and the `Humidity` field of the API types, which the core does not read.
