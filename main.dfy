/** The controller's policy: unit conversion with one-decimal rounding, the
    weekday/hour schedule, the three configurations it can put the device
    in, and one sync cycle (load, decide, push). Temperatures are reals;
    the device works in degrees Celsius, the policy in degrees Fahrenheit. */
module SmarterSensibo {
  import opened GoMath
  import opened SensiboTypes
  import opened Sensibo

  // ---------------------------------------------------------------------
  // Rounding and unit conversion

  /** round: one decimal digit. The fraction Modf reports for 10*val picks
      Ceil or Floor; that fraction is never positive when val is negative,
      so negative values are always floored. */
  function Round(val: real): real
  {
    var digit := 10.0 * val;
    var rounded := if Modf(digit).1 >= 0.5 then Ceil(digit) else Floor(digit);
    rounded as real / 10.0
  }

  /** x is a whole number of tenths. */
  predicate IsTenth(x: real)
  {
    Floor(10.0 * x) as real == 10.0 * x
  }

  /** Reference definition: nearest tenth, ties rounded up. */
  function HalfUp(val: real): real
  {
    Floor(10.0 * val + 0.5) as real / 10.0
  }

  /** For non-negative inputs round is rounding to the nearest tenth with
      ties going up: the result is a tenth, at most 0.05 above and less
      than 0.05 below the input. */
  lemma RoundNonNegative(val: real)
    requires val >= 0.0
    ensures Round(val) == HalfUp(val)
    ensures IsTenth(Round(val))
    ensures val - 0.05 < Round(val) <= val + 0.05
  {
    var digit := 10.0 * val;
    var k := Floor(digit);
    assert Modf(digit).1 == digit - k as real;
    if Modf(digit).1 >= 0.5 {
      assert Ceil(digit) == k + 1;
      assert Floor(digit + 0.5) == k + 1;
    } else {
      assert Floor(digit + 0.5) == k;
    }
    var r := Round(val);
    assert 10.0 * r == Floor(digit + 0.5) as real;
  }

  /** A tie is rounded up: exactly half a tenth is added. */
  lemma RoundTiesUp(val: real)
    requires val >= 0.0
    requires 10.0 * val - Floor(10.0 * val) as real == 0.5
    ensures Round(val) == val + 0.05
  {
    RoundNonNegative(val);
  }

  /** For negative inputs round floors to a tenth: the result is never above
      the input and less than a tenth below it. */
  lemma RoundNegative(val: real)
    requires val < 0.0
    ensures Round(val) == Floor(10.0 * val) as real / 10.0
    ensures IsTenth(Round(val))
    ensures val - 0.1 < Round(val) <= val
  {
    var r := Round(val);
    assert 10.0 * r == Floor(10.0 * val) as real;
  }

  /** A whole number of tenths is left alone, so round is idempotent. */
  lemma RoundTenth(x: real)
    requires IsTenth(x)
    ensures Round(x) == x
  {
    var digit := 10.0 * x;
    var k := Floor(digit);
    assert digit == k as real;
    assert Floor(-digit) == -k;
    assert Ceil(digit) == k;
    assert Modf(digit).1 == 0.0;
  }

  lemma RoundIdempotent(val: real)
    ensures Round(Round(val)) == Round(val)
  {
    if val >= 0.0 {
      RoundNonNegative(val);
    } else {
      RoundNegative(val);
    }
    RoundTenth(Round(val));
  }

  /** CToF: Celsius to Fahrenheit, rounded to a tenth. */
  function CToF(c: real): real
  {
    Round(c * 9.0 / 5.0 + 32.0)
  }

  /** FToC: Fahrenheit to Celsius, rounded to a tenth. */
  function FToC(f: real): real
  {
    Round((f - 32.0) * 5.0 / 9.0)
  }

  /** The Fahrenheit constants of the policy, in the device's scale, and
      what they read as when converted back. */
  lemma ThresholdConstants()
    ensures FToC(68.0) == 20.0 && CToF(20.0) == 68.0
    ensures FToC(71.0) == 21.7 && CToF(21.7) == 71.1
    ensures FToC(74.0) == 23.3 && CToF(23.3) == 73.9
  {
    RoundNonNegative(20.0);
    RoundNonNegative((71.0 - 32.0) * 5.0 / 9.0);
    RoundNonNegative((74.0 - 32.0) * 5.0 / 9.0);
    RoundNonNegative(21.7 * 9.0 / 5.0 + 32.0);
    RoundNonNegative(23.3 * 9.0 / 5.0 + 32.0);
    RoundNonNegative(68.0);
  }

  /** Celsius to Fahrenheit and back is exact on non-negative tenths. */
  lemma {:induction false} FToCAfterCToF(c: real)
    requires c >= 0.0 && IsTenth(c)
    ensures FToC(CToF(c)) == c
  {
    var kc := Floor(10.0 * c);
    var y := c * 9.0 / 5.0 + 32.0;
    RoundNonNegative(y);
    var kf := Floor(10.0 * y + 0.5);
    assert CToF(c) == kf as real / 10.0;
    assert kf >= 320;
    var z := (CToF(c) - 32.0) * 5.0 / 9.0;
    assert z >= 0.0;
    RoundNonNegative(z);
    var kz := Floor(10.0 * z + 0.5);
    assert 10.0 * z == (kf - 320) as real * 5.0 / 9.0;
    assert kc as real < 10.0 * z + 0.5 < kc as real + 1.0;
    assert kz == kc;
  }

  /** Fahrenheit to Celsius and back can move a tenth either way, and no
      more, for tenths from 32 up. */
  lemma {:induction false} CToFAfterFToC(t: real)
    requires t >= 32.0 && IsTenth(t)
    ensures t - 0.1 <= CToF(FToC(t)) <= t + 0.1
  {
    var kt := Floor(10.0 * t);
    var x := (t - 32.0) * 5.0 / 9.0;
    RoundNonNegative(x);
    var kc := Floor(10.0 * x + 0.5);
    assert FToC(t) == kc as real / 10.0;
    assert kc >= 0;
    var y := FToC(t) * 9.0 / 5.0 + 32.0;
    RoundNonNegative(y);
    var kf := Floor(10.0 * y + 0.5);
    assert 10.0 * y == kc as real * 9.0 / 5.0 + 320.0;
    assert kt - 2 < kf < kt + 2;
  }

  /** Below freezing round floors, so Celsius to Fahrenheit and back can
      lose a tenth, and no more, on negative tenths. */
  lemma {:induction false} FToCAfterCToFBelowZero(c: real)
    requires c < 0.0 && IsTenth(c)
    ensures c - 0.1 <= FToC(CToF(c)) <= c
  {
    var kc := Floor(10.0 * c);
    var y := c * 9.0 / 5.0 + 32.0;
    if y >= 0.0 { RoundNonNegative(y); } else { RoundNegative(y); }
    var kf := Floor(10.0 * CToF(c));
    assert CToF(c) == kf as real / 10.0;
    assert 10.0 * y - 1.0 < kf as real <= 10.0 * y + 0.5;
    var z := (CToF(c) - 32.0) * 5.0 / 9.0;
    assert 10.0 * z == (kf - 320) as real * 5.0 / 9.0;
    if z >= 0.0 { RoundNonNegative(z); } else { RoundNegative(z); }
    var kz := Floor(10.0 * FToC(CToF(c)));
    assert FToC(CToF(c)) == kz as real / 10.0;
    assert 10.0 * z - 1.0 < kz as real <= 10.0 * z + 0.5;
    assert kc - 2 < kz < kc + 1;
  }

  /** Below 32 F round floors, so Fahrenheit to Celsius and back can lose
      up to two tenths, and never gains. */
  lemma {:induction false} CToFAfterFToCBelowFreezing(t: real)
    requires t < 32.0 && IsTenth(t)
    ensures t - 0.2 <= CToF(FToC(t)) <= t
  {
    var kt := Floor(10.0 * t);
    var x := (t - 32.0) * 5.0 / 9.0;
    RoundNegative(x);
    var kc := Floor(10.0 * x);
    assert FToC(t) == kc as real / 10.0;
    var y := FToC(t) * 9.0 / 5.0 + 32.0;
    assert 10.0 * y == kc as real * 9.0 / 5.0 + 320.0;
    if y >= 0.0 { RoundNonNegative(y); } else { RoundNegative(y); }
    var kf := Floor(10.0 * CToF(FToC(t)));
    assert CToF(FToC(t)) == kf as real / 10.0;
    assert 10.0 * y - 1.0 < kf as real <= 10.0 * y + 0.5;
    assert kt - 3 < kf < kt + 1;
  }

  /** The Celsius round trip is not exact below zero: -0.1 C reads 31.8 F,
      which comes back as -0.2 C. */
  lemma CelsiusRoundTripInexactBelowZero()
    ensures exists c :: c < 0.0 && IsTenth(c) && FToC(CToF(c)) != c
  {
    RoundNonNegative(-0.1 * 9.0 / 5.0 + 32.0);
    RoundNegative((31.8 - 32.0) * 5.0 / 9.0);
    assert CToF(-0.1) == 31.8 && FToC(31.8) == -0.2;
    assert IsTenth(-0.1);
  }

  /** Below 32 F the Fahrenheit round trip can lose two tenths: 31.8 F goes
      to -0.2 C and comes back as 31.6 F. */
  lemma FahrenheitRoundTripLosesTwoTenths()
    ensures exists t :: t < 32.0 && IsTenth(t) && CToF(FToC(t)) == t - 0.2
  {
    RoundNegative((31.8 - 32.0) * 5.0 / 9.0);
    RoundNonNegative(-0.2 * 9.0 / 5.0 + 32.0);
    assert FToC(31.8) == -0.2 && CToF(-0.2) == 31.6;
    assert IsTenth(31.8);
  }

  /** The Fahrenheit round trip is not exact: 68.1 goes to 20.1 and comes
      back as 68.2. */
  lemma FahrenheitRoundTripInexact()
    ensures exists t :: t >= 32.0 && IsTenth(t) && CToF(FToC(t)) != t
  {
    RoundNonNegative((68.1 - 32.0) * 5.0 / 9.0);
    RoundNonNegative(20.1 * 9.0 / 5.0 + 32.0);
    assert FToC(68.1) == 20.1 && CToF(20.1) == 68.2;
    assert IsTenth(68.1);
  }

  /** The warming band in the device's scale: below 659/36 (about 18.31)
      degrees Celsius. */
  lemma {:induction false} WarmingBand(t: real)
    ensures CToF(t) < 65.0 <==> 36.0 * t < 659.0
  {
    var y := t * 9.0 / 5.0 + 32.0;
    if y >= 0.0 {
      RoundNonNegative(y);
    } else {
      RoundNegative(y);
    }
  }

  /** The cooling band in the device's scale: from 821/36 (about 22.81)
      degrees Celsius up. */
  lemma {:induction false} CoolingBand(t: real)
    ensures CToF(t) > 73.0 <==> 36.0 * t >= 821.0
  {
    var y := t * 9.0 / 5.0 + 32.0;
    if y >= 0.0 {
      RoundNonNegative(y);
      var k := Floor(10.0 * y + 0.5);
      assert CToF(t) > 73.0 <==> k >= 731;
    } else {
      RoundNegative(y);
    }
  }

  // ---------------------------------------------------------------------
  // Schedule

  /** time.Weekday. */
  datatype Weekday = Sunday | Monday | Tuesday | Wednesday | Thursday | Friday | Saturday
  {
    /** Go's number for the day: Sunday is 0, Saturday 6. */
    function Number(): (n: int)
      ensures 0 <= n <= 6
    {
      match this
      case Sunday => 0
      case Monday => 1
      case Tuesday => 2
      case Wednesday => 3
      case Thursday => 4
      case Friday => 5
      case Saturday => 6
    }
  }

  type Hour = h: int | 0 <= h < 24
  type Minute = m: int | 0 <= m < 60

  /** inActiveWindow, given the local weekday and hour of the reference
      time zone. */
  function InActiveWindow(day: Weekday, hour: Hour): bool
  {
    if Monday.Number() <= day.Number() <= Friday.Number() then 5 <= hour <= 16 else false
  }

  /** Active exactly on working days from 05:00 up to, not including, 17:00. */
  lemma ActiveWindowMeans(day: Weekday, hour: Hour, minute: Minute)
    ensures InActiveWindow(day, hour) <==>
              day !in {Saturday, Sunday} && 5 * 60 <= hour * 60 + minute < 17 * 60
  {
  }

  lemma ActiveWindowExamples()
    ensures InActiveWindow(Wednesday, 5) && InActiveWindow(Wednesday, 16)
    ensures !InActiveWindow(Wednesday, 17) && !InActiveWindow(Wednesday, 4)
    ensures !InActiveWindow(Saturday, 12)
  {
  }

  // ---------------------------------------------------------------------
  // The three configurations

  /** The SmartMode that warms the room: heat below 68 F, nothing above 74 F. */
  function WarmingMode(sm: SmartMode): (r: SmartMode)
    ensures r.Enabled
    ensures r.LowTemperatureThreshold == 20.0 && r.HighTemperatureThreshold == 23.3
    ensures r.LowTemperatureState == TemperatureState(true, "strong", sm.LowTemperatureState.TemperatureUnit, 80, "heat")
    ensures r.HighTemperatureState == sm.HighTemperatureState.(On := false)
    ensures r.DeviceUID == sm.DeviceUID && r.Type == sm.Type
  {
    ThresholdConstants();
    sm.(Enabled := true,
        LowTemperatureThreshold := FToC(68.0),
        LowTemperatureState := sm.LowTemperatureState.(On := true, FanLevel := "strong", TargetTemperature := 80, Mode := "heat"),
        HighTemperatureThreshold := FToC(74.0),
        HighTemperatureState := sm.HighTemperatureState.(On := false))
  }

  /** The SmartMode that cools the room: nothing below 71 F, cool above 74 F. */
  function CoolingMode(sm: SmartMode): (r: SmartMode)
    ensures r.Enabled
    ensures r.LowTemperatureThreshold == 21.7 && r.HighTemperatureThreshold == 23.3
    ensures r.LowTemperatureState == sm.LowTemperatureState.(On := false)
    ensures r.HighTemperatureState == TemperatureState(true, "strong", sm.HighTemperatureState.TemperatureUnit, 65, "cool")
    ensures r.DeviceUID == sm.DeviceUID && r.Type == sm.Type
  {
    ThresholdConstants();
    sm.(Enabled := true,
        LowTemperatureThreshold := FToC(71.0),
        LowTemperatureState := sm.LowTemperatureState.(On := false),
        HighTemperatureThreshold := FToC(74.0),
        HighTemperatureState := sm.HighTemperatureState.(On := true, FanLevel := "strong", TargetTemperature := 65, Mode := "cool"))
  }

  /** The pod with its four power flags set: direct power, SmartMode's
      enabled flag, and the low and high threshold states' power. */
  function WithPowerFlags(pod: Pod, ac: bool, enabled: bool, low: bool, high: bool): Pod
  {
    pod.(AcState := pod.AcState.(On := ac),
         SmartMode := pod.SmartMode.(Enabled := enabled,
                                     LowTemperatureState := pod.SmartMode.LowTemperatureState.(On := low),
                                     HighTemperatureState := pod.SmartMode.HighTemperatureState.(On := high)))
  }

  /** The idle pod: every power flag off and nothing else touched. */
  function Idle(pod: Pod): (r: Pod)
    ensures !r.AcState.On && !r.SmartMode.Enabled
    ensures !r.SmartMode.LowTemperatureState.On && !r.SmartMode.HighTemperatureState.On
    ensures WithPowerFlags(r, pod.AcState.On, pod.SmartMode.Enabled,
                           pod.SmartMode.LowTemperatureState.On, pod.SmartMode.HighTemperatureState.On) == pod
  {
    WithPowerFlags(pod, false, false, false, false)
  }

  lemma WarmingCoolingIdempotent(sm: SmartMode)
    ensures WarmingMode(WarmingMode(sm)) == WarmingMode(sm)
    ensures CoolingMode(CoolingMode(sm)) == CoolingMode(sm)
  {
  }

  lemma IdleIdempotent(pod: Pod)
    ensures Idle(Idle(pod)) == Idle(pod)
  {
  }

  /** setWarming, one field at a time. */
  method SetWarming(sm: SmartMode) returns (r: SmartMode)
    ensures r == WarmingMode(sm)
  {
    r := sm.(Enabled := true);
    r := r.(LowTemperatureThreshold := FToC(68.0));
    r := r.(LowTemperatureState := r.LowTemperatureState.(On := true));
    r := r.(LowTemperatureState := r.LowTemperatureState.(FanLevel := "strong"));
    r := r.(LowTemperatureState := r.LowTemperatureState.(TargetTemperature := 80));
    r := r.(LowTemperatureState := r.LowTemperatureState.(Mode := "heat"));
    r := r.(HighTemperatureThreshold := FToC(74.0));
    r := r.(HighTemperatureState := r.HighTemperatureState.(On := false));
  }

  /** setCooling, one field at a time. */
  method SetCooling(sm: SmartMode) returns (r: SmartMode)
    ensures r == CoolingMode(sm)
  {
    r := sm.(Enabled := true);
    r := r.(LowTemperatureThreshold := FToC(71.0));
    r := r.(LowTemperatureState := r.LowTemperatureState.(On := false));
    r := r.(HighTemperatureThreshold := FToC(74.0));
    r := r.(HighTemperatureState := r.HighTemperatureState.(On := true));
    r := r.(HighTemperatureState := r.HighTemperatureState.(FanLevel := "strong"));
    r := r.(HighTemperatureState := r.HighTemperatureState.(TargetTemperature := 65));
    r := r.(HighTemperatureState := r.HighTemperatureState.(Mode := "cool"));
  }

  /** shutdown, one field at a time. */
  method Shutdown(pod: Pod) returns (r: Pod)
    ensures r == Idle(pod)
  {
    r := pod.(AcState := pod.AcState.(On := false));
    r := r.(SmartMode := r.SmartMode.(Enabled := false));
    r := r.(SmartMode := r.SmartMode.(HighTemperatureState := r.SmartMode.HighTemperatureState.(On := false)));
    r := r.(SmartMode := r.SmartMode.(LowTemperatureState := r.SmartMode.LowTemperatureState.(On := false)));
  }

  // ---------------------------------------------------------------------
  // The decision

  /** The working copy after the policy: idle outside the window; inside
      it, warming below 65 F, cooling above 73 F, idle in between (the
      measured temperature is converted and rounded first). */
  function Decide(active: bool, pod: Pod): Pod
  {
    if !active then Idle(pod)
    else if CToF(pod.Measurements.Temperature) < 65.0 then pod.(SmartMode := WarmingMode(pod.SmartMode))
    else if CToF(pod.Measurements.Temperature) > 73.0 then pod.(SmartMode := CoolingMode(pod.SmartMode))
    else Idle(pod)
  }

  /** The decision table, with the bands stated on the measured (Celsius)
      temperature: warming below 659/36, cooling from 821/36, idle between. */
  lemma DecideTable(active: bool, pod: Pod)
    ensures var t := pod.Measurements.Temperature;
            var r := Decide(active, pod);
            && (!active ==> r == Idle(pod))
            && (active && 36.0 * t < 659.0 ==> r == pod.(SmartMode := WarmingMode(pod.SmartMode)))
            && (active && 36.0 * t >= 821.0 ==> r == pod.(SmartMode := CoolingMode(pod.SmartMode)))
            && (active && 659.0 <= 36.0 * t < 821.0 ==> r == Idle(pod))
  {
    WarmingBand(pod.Measurements.Temperature);
    CoolingBand(pod.Measurements.Temperature);
  }

  /** The policy never touches the measurements or the device id, and the
      only change it can make to the direct state is switching it off. */
  lemma DecideKeeps(active: bool, pod: Pod)
    ensures var r := Decide(active, pod);
            && r.Measurements == pod.Measurements && r.ID == pod.ID
            && (r.AcState == pod.AcState || r.AcState == pod.AcState.(On := false))
  {
  }

  /** Deciding again on the decided pod changes nothing. */
  lemma {:induction false} DecideIdempotent(active: bool, pod: Pod)
    ensures Decide(active, Decide(active, pod)) == Decide(active, pod)
  {
    WarmingCoolingIdempotent(pod.SmartMode);
    IdleIdempotent(pod);
  }

  /** Once the device holds what the policy chose, the next cycle in the
      same window pushes nothing. */
  lemma {:induction false} NextCyclePushesNothing(active: bool, pod: Pod, smartModeReply: Option<Error>)
    ensures var d := Decide(active, pod);
            PushPlan(Decide(active, d), d, smartModeReply) == []
  {
    DecideIdempotent(active, pod);
    var d := Decide(active, pod);
    EquivalentReflexive(d.SmartMode);
  }

  /** A warming or cooling decision never pushes the direct state. */
  lemma {:induction false} HeatOrCoolNeverPushesAcState(pod: Pod, smartModeReply: Option<Error>)
    requires !(65.0 <= CToF(pod.Measurements.Temperature) <= 73.0)
    ensures forall p | p in PushPlan(Decide(true, pod), pod, smartModeReply) :: p.SmartModePush?
  {
    PushPlanContents(Decide(true, pod), pod, smartModeReply);
  }

  /** Going idle pushes SmartMode exactly when a threshold state was
      powered, whatever the enabled flag said, and pushes the direct state
      exactly when it was on (unless the SmartMode push failed first). */
  lemma {:induction false} IdlePushes(pod: Pod, smartModeReply: Option<Error>)
    ensures var plan := PushPlan(Idle(pod), pod, smartModeReply);
            var wasPowered := pod.SmartMode.LowTemperatureState.On || pod.SmartMode.HighTemperatureState.On;
            && (SmartModePush(Idle(pod).SmartMode) in plan <==> wasPowered)
            && (AcStatePush(Idle(pod).AcState) in plan <==> pod.AcState.On && (!wasPowered || smartModeReply.None?))
  {
    var r := Idle(pod);
    PushPlanContents(r, pod, smartModeReply);
    EquivalentMeans(r.SmartMode, pod.SmartMode);
    assert r.AcState != pod.AcState <==> pod.AcState.On;
  }

  /** The enabled flag is never pushed on its own: a device whose SmartMode
      matches the warming configuration in everything but Enabled is left
      as it is, disabled flag included. */
  lemma {:induction false} EnabledFlagNotPushedAlone(pod: Pod, smartModeReply: Option<Error>)
    requires CToF(pod.Measurements.Temperature) < 65.0
    requires pod.SmartMode.(Enabled := true) == WarmingMode(pod.SmartMode)
    ensures PushPlan(Decide(true, pod), pod, smartModeReply) == []
  {
    var sm := pod.SmartMode;
    EquivalentIgnoresFlags(sm, sm, true, sm.DeviceUID, sm.Type);
  }

  /** So a device someone disabled stays disabled through a warming
      decision: the working copy is enabled, yet nothing is pushed. */
  lemma DisabledDeviceStaysDisabled()
    ensures exists pod: Pod ::
              && !pod.SmartMode.Enabled
              && CToF(pod.Measurements.Temperature) < 65.0
              && Decide(true, pod).SmartMode.Enabled
              && PushPlan(Decide(true, pod), pod, None) == []
  {
    var sm := WarmingMode(ZeroPod.SmartMode).(Enabled := false);
    var pod := ZeroPod.(Measurements := Measurements(15.0), SmartMode := sm);
    WarmingBand(15.0);
    EnabledFlagNotPushedAlone(pod, None);
    assert Decide(true, pod).SmartMode.Enabled;
  }

  // ---------------------------------------------------------------------
  // One cycle

  /** syncSensibo, with the remote replies and the local weekday and hour
      as inputs. A load or push error ends the cycle and is returned; the
      pushes made are reported in `pushed`. */
  method SyncSensibo(reply: Result<seq<Pod>>, day: Weekday, hour: Hour,
                     smartModeReply: Option<Error>, acStateReply: Option<Error>)
    returns (err: Option<Error>, pushed: seq<Push>)
    requires reply.Success? ==> |reply.value| > 0
    ensures reply.Failure? ==> err == Some(reply.error) && pushed == []
    ensures reply.Success? ==>
              var loaded := reply.value[0];
              var desired := Decide(InActiveWindow(day, hour), loaded);
              && pushed == PushPlan(desired, loaded, smartModeReply)
              && err == PushResult(desired, loaded, smartModeReply, acStateReply)
  {
    var client := new Client();
    err := client.LoadState(reply);
    if err.Some? {
      pushed := client.pushes;
      return;
    }

    if InActiveWindow(day, hour) {
      if CToF(client.State.Measurements.Temperature) < 65.0 {
        var sm := SetWarming(client.State.SmartMode);
        client.State := client.State.(SmartMode := sm);
      } else if CToF(client.State.Measurements.Temperature) > 73.0 {
        var sm := SetCooling(client.State.SmartMode);
        client.State := client.State.(SmartMode := sm);
      } else {
        client.State := Shutdown(client.State);
      }
    } else {
      client.State := Shutdown(client.State);
    }

    err := client.PushState(smartModeReply, acStateReply);
    pushed := client.pushes;
  }
}
