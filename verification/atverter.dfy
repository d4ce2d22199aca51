/**
 * `AtverterH`, the bidirectional DC-DC converter board of the newer library:
 * six averaged sensors, the duty cycle, the latching gate shutdown with its
 * reason code, current and thermal protection, the droop resistance, the
 * discrete compensator, the gradient-descent stepper, the bootstrap refresh
 * counter and the board's command table.
 *
 * The ADC, `readVCC()` and the pins are not modelled: their readings are method
 * parameters, and the level of the GATESD latch is the boolean `gateShutdown`.
 */
module AtverterBoard {
  import opened CArith
  import opened CText
  import opened MovingAverage
  import opened Conversions
  import opened AtverterControl
  import opened PicroBoardBase

  /** Sensor numbers (`SensorIndex`). */
  const V1_INDEX := 0
  const V2_INDEX := 1
  const I1_INDEX := 2
  const I2_INDEX := 3
  const T1_INDEX := 4
  const T2_INDEX := 5
  const NUM_SENSORS := 6
  /** `AVERAGE_WINDOW_MAX` with the default window lengths (4 for V and T, 16 for I). */
  const WINDOWS: seq<nat> := [4, 4, 16, 16, 4, 4]

  /** Shutdown reason codes (`ShutdownCodes`); -1 is reported while the gates are not shut down. */
  const HARDWARE := 0
  const SOFTWAREUNLABELED := 1
  const OVERCURRENT := 2
  const OVERTEMPERATURE := 3

  // ---------------------------------------------------------------------------
  // Protection rules

  /** `checkCurrentShutdown` trips when a current average lies strictly outside [-limit, limit] of its terminal. */
  predicate OverCurrent(i1: int, i2: int, limit1: int, limit2: int)
  {
    i1 > limit1 || i1 < -limit1 || i2 > limit2 || i2 < -limit2
  }

  /**
   * With limits set from non-negative currents in mA, a trip means a terminal
   * current, read at VCC = 5000 mV before rounding (avg·1875/128 mA), beyond its
   * limit in either direction; an average exactly at a limit does not trip.
   */
  lemma OverCurrentInMilliamps(i1: int, i2: int, mA1: int, mA2: int)
    requires mA1 >= 0 && mA2 >= 0
    ensures OverCurrent(i1, i2, CurrentLimitRaw(mA1), CurrentLimitRaw(mA2)) <==>
      i1 * 1875 > mA1 * 128 || i1 * 1875 < -(mA1 * 128) || i2 * 1875 > mA2 * 128 || i2 * 1875 < -(mA2 * 128)
  {
    CurrentLimitTrips(i1, mA1);
    CurrentLimitTrips(i2, mA2);
  }

  /** `checkThermalShutdown` trips when either thermistor reads strictly above the limit in °C. */
  predicate OverTemperature(t1: int, t2: int, limitC: int)
  {
    DegC(t1) > limitC || DegC(t2) > limitC
  }

  /**
   * Hotter thermistors never clear a thermal trip, and a reading at or beyond
   * the last table entry (100 °C) trips any limit below 100 °C.
   */
  lemma OverTemperatureMonotone(t1: int, t2: int, t1': int, t2': int, limitC: int)
    requires t1 <= t1' && t2 <= t2'
    ensures OverTemperature(t1, t2, limitC) ==> OverTemperature(t1', t2', limitC)
    ensures (t1 >= 880 || t2 >= 880) && limitC < 100 ==> OverTemperature(t1, t2, limitC)
  {
    DegCMonotone(t1, t1');
    DegCMonotone(t2, t2');
    if t1 >= 880 {
      DegCAboveTable(t1);
    }
    if t2 >= 880 {
      DegCAboveTable(t2);
    }
  }

  // ---------------------------------------------------------------------------
  // Command table

  /** What the getters report: V in mV, I in mA, T in °C, VCC in mV, duty in %, droop in mΩ. */
  datatype Telemetry = Telemetry(v1: int, v2: int, i1: int, i2: int, t1: int, t2: int, vcc: int, duty: int, rDroop: int)

  const READ_KEYS: set<string> := {"RV1", "RV2", "RI1", "RI2", "RT1", "RT2", "RVCC", "RDUT", "RDRP"}
  const WRITE_KEYS: set<string> := {"WIS1", "WIS2", "WTSD", "WDRP"}

  /** The getter a read key reports; `RT1` reports the side-2 temperature, as the firmware does. */
  function ReadValue(key: string, t: Telemetry): int
    requires key in READ_KEYS
  {
    if key == "RV1" then t.v1
    else if key == "RV2" then t.v2
    else if key == "RI1" then t.i1
    else if key == "RI2" then t.i2
    else if key == "RT1" then t.t2
    else if key == "RT2" then t.t2
    else if key == "RVCC" then t.vcc
    else if key == "RDUT" then t.duty
    else t.rDroop
  }

  /**
   * The reply `interpretRXCommand` writes for a command: a read key is answered
   * with its getter, a write key echoes the `atoi` of its value, and any other
   * command gets no reply (it goes to the callbacks).
   */
  function Reply(command: string, value: Option<string>, t: Telemetry): Option<string>
    requires command in WRITE_KEYS ==> value.Some?
  {
    if command in READ_KEYS then Some(ReadReply(command, ReadValue(command, t)))
    else if command in WRITE_KEYS then Some(WriteAck(command, Atoi(value.value)))
    else None
  }

  /** Read keys start with `R`, write keys with `W`. */
  lemma KeyClasses(command: string)
    ensures command in READ_KEYS ==> |command| >= 3 && command[0] == 'R'
    ensures command in WRITE_KEYS ==> |command| >= 3 && command[0] == 'W'
  {
  }

  /** Exactly the built-in keys are answered. */
  lemma ReplyAnswersKeys(command: string, value: Option<string>, t: Telemetry)
    requires command in WRITE_KEYS ==> value.Some?
    ensures Reply(command, value, t).Some? <==> command in READ_KEYS || command in WRITE_KEYS
  {
  }

  /** A read key `Rxxx` is answered `Wxxx:<n>` with the getter's value. */
  lemma ReadReplyText(command: string, value: Option<string>, t: Telemetry)
    requires command in READ_KEYS
    requires command in WRITE_KEYS ==> value.Some?
    ensures Reply(command, value, t) == Some("W" + command[1..] + ":" + Decimal(ReadValue(command, t)))
  {
    KeyClasses(command);
    var key, d := "W" + command[1..], Decimal(ReadValue(command, t));
    assert key + ":" + "" + d == "W" + command[1..] + ":" + d;
  }

  /** A write key `Wxxx` is answered `Wxxx:=<n>`, echoing the parsed value. */
  lemma WriteReplyText(command: string, value: Option<string>, t: Telemetry)
    requires command in WRITE_KEYS && value.Some?
    ensures Reply(command, value, t) == Some(command + ":=" + Decimal(Atoi(value.value)))
  {
    KeyClasses(command);
    assert command !in READ_KEYS;
    var d := Decimal(Atoi(value.value));
    assert Reply(command, value, t) == Some(command + ":" + "=" + d);
    assert command + ":" + "=" + d == command + ":=" + d;
  }

  /** `RT1` is answered with the side-2 temperature. */
  lemma TemperatureOneReply(value: Option<string>, t: Telemetry)
    ensures Reply("RT1", value, t) == Some("WT1:" + Decimal(t.t2))
  {
    assert "W" + "RT1"[1..] == "WT1";
    assert "WT1" + ":" + "" + Decimal(t.t2) == "WT1:" + Decimal(t.t2);
  }

  /** The rest of the converter's configuration: VCC, the bootstrap counter, the compensator coefficients and the stepper's counts. */
  datatype Config = Config(vcc: int, bootstrapCounter: int, bootstrapCounterMax: int,
                           compNum: seq<int>, compDen: seq<int>, compNumSize: int, compDenSize: int,
                           settleMax: int, averageMax: int)

  /** The writable settings: the two raw current limits, the thermal limit in °C and the raw droop resistance. */
  datatype Limits = Limits(current1: int, current2: int, thermalC: int, rDroop: int)

  /** The setter a write key calls with the parsed value. */
  function ApplyWrite(l: Limits, key: string, v: int): Limits
  {
    if key == "WIS1" then l.(current1 := CurrentLimitRaw(v))
    else if key == "WIS2" then l.(current2 := CurrentLimitRaw(v))
    else if key == "WTSD" then l.(thermalC := v)
    else if key == "WDRP" then l.(rDroop := RDroopOf(v))
    else l
  }

  /**
   * A write followed by the matching read or check: `RDRP` reads back a written
   * droop within 5 mΩ below it, and a written current limit trips exactly the
   * currents beyond it.
   */
  lemma WriteThenRead(l: Limits, m: int, i: int)
    requires m >= 0
    ensures m - 5 <= RDroopMilliOhm(ApplyWrite(l, "WDRP", m).rDroop) <= m
    ensures ApplyWrite(l, "WTSD", m).thermalC == m
    ensures OverCurrent(i, 0, ApplyWrite(l, "WIS1", m).current1, 0) <==> i * 1875 > m * 128 || i * 1875 < -(m * 128)
    ensures ApplyWrite(l, "WIS1", m).current2 == l.current2 && ApplyWrite(l, "WIS2", m).current1 == l.current1
  {
    RDroopReadBack(m);
    OverCurrentInMilliamps(i, 0, m, 0);
  }

  // ---------------------------------------------------------------------------
  // Compensator arrays

  /** The shift loop of `updateCompPast`: entries `size-1` down to 1 each take the entry before them. */
  method ShiftRight(a: array<int>, size: int)
    requires 0 < a.Length && size <= a.Length
    modifies a
    ensures a[..] == Shifted(old(a[..]), size, old(a[0]))
  {
    var n := size - 1;
    while n > 0
      invariant n <= size - 1 && (n >= 0 || size <= 0)
      invariant forall k :: 0 <= k < a.Length && (k <= n || k >= size || n < 0) ==> a[k] == old(a[k])
      invariant forall k :: 0 <= k < a.Length && n < k < size && 0 <= n ==> a[k] == old(a[k - 1])
    {
      a[n] := a[n - 1];
      n := n - 1;
    }
  }

  /** The reset loops of `resetComp`: the first `size` entries become `v`. */
  method Fill(a: array<int>, size: int, v: int)
    requires size <= a.Length
    modifies a
    ensures a[..] == Filled(old(a[..]), size, v)
  {
    var n := 0;
    while n < size
      invariant 0 <= n <= if size < 0 then 0 else size
      invariant forall k :: 0 <= k < n ==> a[k] == v
      invariant forall k :: n <= k < a.Length ==> a[k] == old(a[k])
    {
      a[n] := v;
      n := n + 1;
    }
  }

  class Atverter {
    const sensors: SensorBank
    const comm: PicroBoard
    /** `_compIn` and `_compOut`: compensator inputs and outputs, newest first. */
    const compIn: array<int>
    const compOut: array<int>
    var vcc: int
    var dutyCycle: int
    var bootstrapCounter: int
    var bootstrapCounterMax: int
    var currentLimitRaw1: int
    var currentLimitRaw2: int
    var thermalLimitC: int
    var rDroop: int
    /** The coefficient arrays `setComp` points the compensator at, and their lengths. */
    var compNum: seq<int>
    var compDen: seq<int>
    var compNumSize: int
    var compDenSize: int
    var gradDescCount: int
    var gradDescSettleMax: int
    var gradDescAverageMax: int
    var gradDescErrorAcc: int
    var shutdownCode: int
    /** Whether the GATESD protection latch holds the gate drivers off. */
    var gateShutdown: bool

    ghost predicate Valid()
      reads this, sensors, sensors.past
    {
      && sensors.Valid() && sensors.windows == WINDOWS
      && compIn.Length == COMP_LENGTH && compOut.Length == COMP_LENGTH && compIn != compOut
      && compIn !in sensors.past && compOut !in sensors.past
      && 1 <= dutyCycle <= 99
    }

    /** What the getters report. */
    function Readings(): Telemetry
      reads this, sensors
      requires |sensors.averages| == NUM_SENSORS
    {
      var avg := sensors.averages;
      Telemetry(Raw2mV(avg[V1_INDEX], vcc), Raw2mV(avg[V2_INDEX], vcc),
                Raw2mA(avg[I1_INDEX], vcc), Raw2mA(avg[I2_INDEX], vcc),
                DegC(avg[T1_INDEX]), DegC(avg[T2_INDEX]),
                vcc, dutyCycle, RDroopMilliOhm(rDroop))
    }

    ghost function Settings(): Limits
      reads this
    {
      Limits(currentLimitRaw1, currentLimitRaw2, thermalLimitC, rDroop)
    }

    ghost function GradState(): GradDescent
      reads this
    {
      GradDescent(gradDescCount, gradDescErrorAcc, dutyCycle)
    }

    ghost function Configuration(): Config
      reads this
    {
      Config(vcc, bootstrapCounter, bootstrapCounterMax, compNum, compDen, compNumSize, compDenSize,
             gradDescSettleMax, gradDescAverageMax)
    }

    /** A board object as the firmware declares it, with the protection latch in the given state. */
    constructor (latched: bool)
      ensures Valid() && comm.Valid() && fresh(sensors) && fresh(comm.Repr()) && fresh(compIn) && fresh(compOut)
      ensures forall i :: 0 <= i < NUM_SENSORS ==> fresh(sensors.past[i])
      ensures dutyCycle == 50 && bootstrapCounter == 0
      ensures Settings() == Limits(444, 444, 80, 0)
      ensures gradDescCount == 0 && gradDescSettleMax == 4 && gradDescAverageMax == 4 && gradDescErrorAcc == 0
      ensures shutdownCode == 0 && gateShutdown == latched
      ensures compIn[..] == Zeros(COMP_LENGTH) && compOut[..] == Zeros(COMP_LENGTH)
    {
      sensors := new SensorBank(WINDOWS);
      comm := new PicroBoard();
      compIn := new int[COMP_LENGTH](_ => 0);
      compOut := new int[COMP_LENGTH](_ => 0);
      vcc := 0;
      dutyCycle := 50;
      bootstrapCounter, bootstrapCounterMax := 0, 0;
      currentLimitRaw1, currentLimitRaw2 := 444, 444;
      thermalLimitC := 80;
      rDroop := 0;
      compNum, compDen, compNumSize, compDenSize := [], [], 0, 0;
      gradDescCount, gradDescSettleMax, gradDescAverageMax, gradDescErrorAcc := 0, 4, 4, 0;
      shutdownCode := 0;
      gateShutdown := latched;
      new;
      assert compIn[..] == Zeros(COMP_LENGTH) && compOut[..] == Zeros(COMP_LENGTH);
    }

    // -------------------------------------------------------------------------
    // Sensors

    /** `updateSensorRaw`: the moving-average update of one channel; any other index changes nothing. */
    method UpdateSensorRaw(index: int, sample: int)
      requires Valid()
      modifies sensors, sensors.past
      ensures Valid()
      ensures 0 <= index < NUM_SENSORS ==> sensors.Window(index) == old(sensors.Window(index))[1..] + [sample]
      ensures forall j :: 0 <= j < NUM_SENSORS && j != index ==> sensors.Window(j) == old(sensors.Window(j))
      ensures forall j :: 0 <= j < NUM_SENSORS && j != index ==> sensors.averages[j] == old(sensors.averages[j])
    {
      sensors.Update(index, sample);
    }

    /** `updateVISensors` with the four ADC readings: the current readings are centred by subtracting 512. */
    method UpdateVISensors(v1: int, v2: int, i1: int, i2: int)
      requires Valid()
      modifies sensors, sensors.past
      ensures Valid()
      ensures sensors.Window(V1_INDEX) == old(sensors.Window(V1_INDEX))[1..] + [v1]
      ensures sensors.Window(V2_INDEX) == old(sensors.Window(V2_INDEX))[1..] + [v2]
      ensures sensors.Window(I1_INDEX) == old(sensors.Window(I1_INDEX))[1..] + [i1 - 512]
      ensures sensors.Window(I2_INDEX) == old(sensors.Window(I2_INDEX))[1..] + [i2 - 512]
      ensures sensors.Window(T1_INDEX) == old(sensors.Window(T1_INDEX))
      ensures sensors.Window(T2_INDEX) == old(sensors.Window(T2_INDEX))
    {
      UpdateSensorRaw(V1_INDEX, v1);
      UpdateSensorRaw(V2_INDEX, v2);
      UpdateSensorRaw(I1_INDEX, i1 - 512);
      UpdateSensorRaw(I2_INDEX, i2 - 512);
    }

    /** `updateTSensors` with the two thermistor readings. */
    method UpdateTSensors(t1: int, t2: int)
      requires Valid()
      modifies sensors, sensors.past
      ensures Valid()
      ensures sensors.Window(T1_INDEX) == old(sensors.Window(T1_INDEX))[1..] + [t1]
      ensures sensors.Window(T2_INDEX) == old(sensors.Window(T2_INDEX))[1..] + [t2]
      ensures forall j :: 0 <= j < T1_INDEX ==> sensors.Window(j) == old(sensors.Window(j))
    {
      UpdateSensorRaw(T1_INDEX, t1);
      UpdateSensorRaw(T2_INDEX, t2);
    }

    /** `updateVCC` over four `readVCC()` results: their truncated mean, 5000 mV if that is below 4950 mV. */
    method UpdateVCC(readings: seq<int>)
      requires Valid() && |readings| == VCC_AVERAGE_LENGTH
      modifies this
      ensures Valid()
      ensures vcc >= VCC_USB_THRESHOLD
      ensures Configuration() == old(Configuration()).(vcc := UsbCorrected(Mean(readings)))
      ensures Settings() == old(Settings()) && GradState() == old(GradState())
      ensures shutdownCode == old(shutdownCode) && gateShutdown == old(gateShutdown)
    {
      var mean := MeanOf(readings);
      vcc := mean;
      if vcc < VCC_USB_THRESHOLD {
        vcc := VCC_ASSUMED;
      }
    }

    // -------------------------------------------------------------------------
    // Duty cycle and bootstrap

    /** `setDutyCycle`: the duty cycle is clamped to [1, 99] percent. */
    method SetDutyCycle(duty: int)
      requires Valid()
      modifies this
      ensures Valid()
      ensures GradState() == old(GradState()).(duty := Constrain(duty, 1, 99))
      ensures 1 <= duty <= 99 ==> dutyCycle == duty
      ensures Settings() == old(Settings()) && Configuration() == old(Configuration())
      ensures shutdownCode == old(shutdownCode) && gateShutdown == old(gateShutdown)
    {
      dutyCycle := Constrain(duty, 1, 99);
    }

    /**
     * `initializeInterruptTimer(periodus)`: the bootstrap capacitors are
     * refreshed every `1000/periodus` control periods (at least every period),
     * starting with a refresh now.
     */
    method InitializeInterruptTimer(periodus: int)
      requires Valid() && periodus != 0
      modifies this
      ensures Valid()
      ensures var m := if TruncDiv(1000, periodus) < 1 then 1 else TruncDiv(1000, periodus);
        Configuration() == old(Configuration()).(bootstrapCounter := m, bootstrapCounterMax := m)
      ensures bootstrapCounterMax >= 1
      ensures 1 <= periodus <= 1000 ==> bootstrapCounterMax * periodus <= 1000 < (bootstrapCounterMax + 1) * periodus
      ensures Settings() == old(Settings()) && GradState() == old(GradState())
      ensures shutdownCode == old(shutdownCode) && gateShutdown == old(gateShutdown)
    {
      bootstrapCounterMax := TruncDiv(1000, periodus);
      if bootstrapCounterMax < 1 {
        bootstrapCounterMax := 1;
      }
      bootstrapCounter := bootstrapCounterMax;
    }

    /** `checkBootstrapRefresh`: count down, refreshing and reloading once the counter reaches 0. */
    method CheckBootstrapRefresh() returns (refreshed: bool)
      requires Valid()
      modifies this
      ensures Valid()
      ensures refreshed == Tick(old(bootstrapCounter), bootstrapCounterMax, true).1
      ensures Configuration() == old(Configuration()).(bootstrapCounter := Tick(old(bootstrapCounter), bootstrapCounterMax, true).0)
      ensures Settings() == old(Settings()) && GradState() == old(GradState())
      ensures shutdownCode == old(shutdownCode) && gateShutdown == old(gateShutdown)
    {
      bootstrapCounter := bootstrapCounter - 1;
      refreshed := bootstrapCounter <= 0;
      if refreshed {
        bootstrapCounter := bootstrapCounterMax;
      }
    }

    /**
     * `applyHoldHigh1` and `applyHoldHigh2`: besides switching one gate driver
     * to the always-high signal (pins, not modelled), both end with
     * `refreshBootstrap`, which reloads the counter to its maximum.
     */
    method ApplyHoldHigh()
      requires Valid()
      modifies this
      ensures Valid()
      ensures Configuration() == old(Configuration()).(bootstrapCounter := bootstrapCounterMax)
      ensures Settings() == old(Settings()) && GradState() == old(GradState())
      ensures shutdownCode == old(shutdownCode) && gateShutdown == old(gateShutdown)
    {
      bootstrapCounter := bootstrapCounterMax;
    }

    // -------------------------------------------------------------------------
    // Protection

    /** `shutdownGates(code)`: record the reason and latch the gate drivers off. */
    method ShutdownGates(code: int)
      requires Valid()
      modifies this
      ensures Valid()
      ensures shutdownCode == code && gateShutdown
      ensures Settings() == old(Settings()) && GradState() == old(GradState()) && Configuration() == old(Configuration())
    {
      shutdownCode := code;
      gateShutdown := true;
    }

    /** `shutdownGates()`: a shutdown with the code SOFTWAREUNLABELED. */
    method ShutdownGatesUnlabeled()
      requires Valid()
      modifies this
      ensures Valid()
      ensures shutdownCode == SOFTWAREUNLABELED && gateShutdown
      ensures Settings() == old(Settings()) && GradState() == old(GradState()) && Configuration() == old(Configuration())
    {
      ShutdownGates(SOFTWAREUNLABELED);
    }

    /** `enableGateDrivers`: reset the protection latch and the code to HARDWARE. */
    method EnableGateDrivers()
      requires Valid()
      modifies this
      ensures Valid()
      ensures shutdownCode == HARDWARE && !gateShutdown
      ensures Settings() == old(Settings()) && GradState() == old(GradState()) && Configuration() == old(Configuration())
    {
      shutdownCode := HARDWARE;
      gateShutdown := false;
    }

    /** The protection circuit latching on its own, which leaves the code untouched. */
    method HardwareTrip()
      requires Valid()
      modifies this
      ensures Valid()
      ensures gateShutdown && shutdownCode == old(shutdownCode)
      ensures Settings() == old(Settings()) && GradState() == old(GradState()) && Configuration() == old(Configuration())
    {
      gateShutdown := true;
    }

    /**
     * `getShutdownCode`: -1 while the gates run, otherwise the code of the last
     * software shutdown, or HARDWARE (0) when the circuit latched by itself since
     * the gates were last enabled.
     */
    method GetShutdownCode() returns (code: int)
      requires Valid()
      ensures !gateShutdown ==> code == -1
      ensures gateShutdown ==> code == shutdownCode
    {
      if !gateShutdown {
        code := -1;
      } else {
        code := shutdownCode;
      }
    }

    /** `setCurrentShutdown1`: the terminal 1 limit in raw counts. */
    method SetCurrentShutdown1(mA: int)
      requires Valid()
      modifies this
      ensures Valid()
      ensures Settings() == old(Settings()).(current1 := CurrentLimitRaw(mA))
      ensures GradState() == old(GradState()) && Configuration() == old(Configuration())
      ensures shutdownCode == old(shutdownCode) && gateShutdown == old(gateShutdown)
    {
      currentLimitRaw1 := TruncDiv(mA * 128, 1875);
    }

    /** `setCurrentShutdown2`: the terminal 2 limit in raw counts. */
    method SetCurrentShutdown2(mA: int)
      requires Valid()
      modifies this
      ensures Valid()
      ensures Settings() == old(Settings()).(current2 := CurrentLimitRaw(mA))
      ensures GradState() == old(GradState()) && Configuration() == old(Configuration())
      ensures shutdownCode == old(shutdownCode) && gateShutdown == old(gateShutdown)
    {
      currentLimitRaw2 := TruncDiv(mA * 128, 1875);
    }

    /** `setThermalShutdown`: the thermal limit in °C. */
    method SetThermalShutdown(limitC: int)
      requires Valid()
      modifies this
      ensures Valid()
      ensures Settings() == old(Settings()).(thermalC := limitC)
      ensures GradState() == old(GradState()) && Configuration() == old(Configuration())
      ensures shutdownCode == old(shutdownCode) && gateShutdown == old(gateShutdown)
    {
      thermalLimitC := limitC;
    }

    /** `setRDroop`: the droop resistance in mΩ, stored in raw counts. */
    method SetRDroop(mOhm: int)
      requires Valid()
      modifies this
      ensures Valid()
      ensures Settings() == old(Settings()).(rDroop := RDroopOf(mOhm))
      ensures GradState() == old(GradState()) && Configuration() == old(Configuration())
      ensures shutdownCode == old(shutdownCode) && gateShutdown == old(gateShutdown)
    {
      rDroop := RDROOPFACTOR * mOhm;
      rDroop := TruncDiv(rDroop, 4316);
    }

    /** `checkCurrentShutdown`: shut down with OVERCURRENT when a current average is outside its limits. */
    method CheckCurrentShutdown()
      requires Valid()
      modifies this
      ensures Valid()
      ensures OverCurrent(sensors.averages[I1_INDEX], sensors.averages[I2_INDEX], currentLimitRaw1, currentLimitRaw2) ==>
        shutdownCode == OVERCURRENT && gateShutdown
      ensures !OverCurrent(sensors.averages[I1_INDEX], sensors.averages[I2_INDEX], currentLimitRaw1, currentLimitRaw2) ==>
        shutdownCode == old(shutdownCode) && gateShutdown == old(gateShutdown)
      ensures Settings() == old(Settings()) && GradState() == old(GradState()) && Configuration() == old(Configuration())
    {
      var avg := sensors.averages;
      if avg[I1_INDEX] > currentLimitRaw1 || avg[I1_INDEX] < -currentLimitRaw1
        || avg[I2_INDEX] > currentLimitRaw2 || avg[I2_INDEX] < -currentLimitRaw2
      {
        ShutdownGates(OVERCURRENT);
      }
    }

    /**
     * `checkThermalShutdown`: shut down with OVERTEMPERATURE when a thermistor
     * reads above the limit. `raw2degC` divides by zero for an average of 880
     * or more, so both averages are required to lie below the table's top.
     */
    method CheckThermalShutdown()
      requires Valid()
      requires sensors.averages[T1_INDEX] < 880 && sensors.averages[T2_INDEX] < 880
      modifies this
      ensures Valid()
      ensures OverTemperature(sensors.averages[T1_INDEX], sensors.averages[T2_INDEX], thermalLimitC) ==>
        shutdownCode == OVERTEMPERATURE && gateShutdown
      ensures !OverTemperature(sensors.averages[T1_INDEX], sensors.averages[T2_INDEX], thermalLimitC) ==>
        shutdownCode == old(shutdownCode) && gateShutdown == old(gateShutdown)
      ensures Settings() == old(Settings()) && GradState() == old(GradState()) && Configuration() == old(Configuration())
    {
      var t1 := DegC(sensors.averages[T1_INDEX]);
      var t2 := DegC(sensors.averages[T2_INDEX]);
      if t1 > thermalLimitC || t2 > thermalLimitC {
        ShutdownGates(OVERTEMPERATURE);
      }
    }

    // -------------------------------------------------------------------------
    // Compensator

    /** `setComp`: point the compensator at new coefficients. */
    method SetComp(num: seq<int>, den: seq<int>, numSize: int, denSize: int)
      requires Valid()
      modifies this
      ensures Valid()
      ensures Configuration() == old(Configuration()).(compNum := num, compDen := den, compNumSize := numSize, compDenSize := denSize)
      ensures Settings() == old(Settings()) && GradState() == old(GradState())
      ensures shutdownCode == old(shutdownCode) && gateShutdown == old(gateShutdown)
    {
      compNum, compDen, compNumSize, compDenSize := num, den, numSize, denSize;
    }

    /**
     * `updateCompPast(x)`: the inputs shift one place toward the old end with `x`
     * as the newest; the outputs shift the same way, keeping the newest output in
     * place for `calculateCompOut` to overwrite.
     */
    method UpdateCompPast(x: int)
      requires Valid() && compNumSize <= COMP_LENGTH && compDenSize <= COMP_LENGTH
      modifies compIn, compOut
      ensures Valid()
      ensures compIn[..] == Shifted(old(compIn[..]), compNumSize, x)
      ensures compOut[..] == Shifted(old(compOut[..]), compDenSize, old(compOut[0]))
    {
      ghost var before := compIn[..];
      ShiftRight(compIn, compNumSize);
      compIn[0] := x;
      assert compIn[..] == Shifted(before, compNumSize, x);
      ShiftRight(compOut, compDenSize);
    }

    /**
     * `calculateCompOut`: the newest output of the difference equation, which is
     * also stored as the newest entry of the outputs.
     */
    method CalculateCompOut() returns (out: int)
      requires Valid() && compNumSize <= COMP_LENGTH && compDenSize <= COMP_LENGTH
      requires compNumSize <= |compNum| && compDenSize <= |compDen| && |compDen| > 0 && compDen[0] != 0
      modifies compOut
      ensures Valid()
      ensures out == CompOutput(compIn[..], old(compOut[..]), compNum, compDen, compNumSize, compDenSize)
      ensures compOut[..] == old(compOut[..])[0 := out]
    {
      var acc := 0;
      var n := 0;
      while n < compNumSize
        invariant 0 <= n <= if compNumSize < 0 then 0 else compNumSize
        invariant acc == Dot(compIn[..], compNum, 0, n)
      {
        acc := acc + compIn[n] * compNum[n];
        n := n + 1;
      }
      assert acc == Dot(compIn[..], compNum, 0, compNumSize);
      ghost var x := acc;
      n := 1;
      while n < compDenSize
        invariant 1 <= n <= if compDenSize < 1 then 1 else compDenSize
        invariant acc == x - Dot(compOut[..], compDen, 1, n)
      {
        acc := acc - compOut[n] * compDen[n];
        n := n + 1;
      }
      assert acc == x - Dot(compOut[..], compDen, 1, compDenSize);
      acc := TruncDiv(acc, compDen[0]);
      compOut[0] := acc;
      out := acc;
    }

    /** `resetComp`: clear the inputs and set every output to the duty cycle in raw form (duty·10). */
    method ResetComp()
      requires Valid() && compNumSize <= COMP_LENGTH && compDenSize <= COMP_LENGTH
      modifies compIn, compOut
      ensures Valid()
      ensures compIn[..] == Filled(old(compIn[..]), compNumSize, 0)
      ensures compOut[..] == Filled(old(compOut[..]), compDenSize, dutyCycle * 10)
    {
      Fill(compIn, compNumSize, 0);
      Fill(compOut, compDenSize, dutyCycle * 10);
    }

    // -------------------------------------------------------------------------
    // Gradient descent

    /** `setGradDescCountMax`: new settle and average counts, and a reset counter. */
    method SetGradDescCountMax(settle: int, average: int)
      requires Valid()
      modifies this
      ensures Valid()
      ensures Configuration() == old(Configuration()).(settleMax := settle, averageMax := average)
      ensures GradState() == old(GradState()).(count := 0)
      ensures Settings() == old(Settings()) && shutdownCode == old(shutdownCode) && gateShutdown == old(gateShutdown)
    {
      gradDescSettleMax := settle;
      gradDescAverageMax := average;
      gradDescCount := 0;
    }

    /** `triggerGradDescStep`: make the next `gradDescStep` step on its own error alone. */
    method TriggerGradDescStep()
      requires Valid()
      modifies this
      ensures Valid()
      ensures GradState() == old(GradState()).(count := gradDescSettleMax + gradDescAverageMax, errorAcc := 0)
      ensures Configuration() == old(Configuration())
      ensures Settings() == old(Settings()) && shutdownCode == old(shutdownCode) && gateShutdown == old(gateShutdown)
    {
      gradDescCount := gradDescSettleMax + gradDescAverageMax;
      gradDescErrorAcc := 0;
    }

    /**
     * `gradDescStep(error)`: one call of the stepper; when it steps, the duty
     * cycle it started from is stored, in raw form (duty·1024/100), as the
     * newest compensator output.
     */
    method GradDescStep(error: int)
      requires Valid()
      requires Fires(GradState(), gradDescSettleMax, gradDescAverageMax) ==> gradDescAverageMax != 0
      modifies this, compOut
      ensures Valid()
      ensures Configuration() == old(Configuration())
      ensures GradState() == GradStep(old(GradState()), gradDescSettleMax, gradDescAverageMax, error).0
      ensures GradStep(old(GradState()), gradDescSettleMax, gradDescAverageMax, error).1 ==>
        compOut[..] == old(compOut[..])[0 := TruncDiv(old(dutyCycle) * 1024, 100)]
      ensures !GradStep(old(GradState()), gradDescSettleMax, gradDescAverageMax, error).1 ==>
        compOut[..] == old(compOut[..])
      ensures Settings() == old(Settings()) && shutdownCode == old(shutdownCode) && gateShutdown == old(gateShutdown)
    {
      gradDescCount := gradDescCount + 1;
      if gradDescCount < gradDescSettleMax {
        return;
      }
      gradDescErrorAcc := gradDescErrorAcc + error;
      if gradDescCount > gradDescSettleMax + gradDescAverageMax {
        var duty := dutyCycle;
        compOut[0] := TruncDiv(duty * 1024, 100);
        gradDescCount := 0;
        var avgError := TruncDiv(gradDescErrorAcc, gradDescAverageMax);
        gradDescErrorAcc := 0;
        if avgError > 0 {
          SetDutyCycle(duty + 1);
        } else if error < 0 {
          SetDutyCycle(duty - 1);
        }
      }
    }

    // -------------------------------------------------------------------------
    // Commands

    /**
     * `interpretRXCommand(command, value, protocol)`: a built-in key is answered
     * on the transport it came from, a write key first applying its setter; any
     * other command is handed to every registered callback, in order, and gets
     * no reply. `strcmp` on a missing command and `atoi` on a missing value are
     * undefined, so both are required; so is `raw2degC` on an average of 880 or
     * more, which RT1 and RT2 (both `getT2`) would reach.
     */
    method InterpretRXCommand(line: SplitLine, protocol: int)
      requires Valid() && comm.Valid() && line.command.Some?
      requires line.command.value in WRITE_KEYS ==> line.value.Some?
      requires line.command.value == "RT1" || line.command.value == "RT2" ==> sensors.averages[T2_INDEX] < 880
      requires line.command.value in READ_KEYS || line.command.value in WRITE_KEYS ==>
        protocol == UART_INDEX || protocol == I2C_INDEX
      modifies this, comm
      ensures Valid() && comm.Valid()
      ensures var reply := Reply(line.command.value, line.value, old(Readings()));
        && (reply.Some? ==> comm.Answered(protocol, reply.value, old(comm.serialOut), old(comm.txUart), old(comm.txI2c), old(comm.invocations)))
        && (reply.None? ==> comm.Forwarded(line, protocol, old(comm.serialOut), old(comm.txUart), old(comm.txI2c), old(comm.invocations)))
      ensures Settings() == if line.command.value in WRITE_KEYS
        then ApplyWrite(old(Settings()), line.command.value, Atoi(line.value.value)) else old(Settings())
      ensures GradState() == old(GradState()) && Configuration() == old(Configuration())
      ensures shutdownCode == old(shutdownCode) && gateShutdown == old(gateShutdown)
      ensures comm.wireOut == old(comm.wireOut) && comm.callbacksEnd == old(comm.callbacksEnd)
    {
      var command := line.command.value;
      KeyClasses(command);
      var reply := Reply(command, line.value, Readings());
      comm.Respond(reply, line, protocol);
      if command in WRITE_KEYS {
        WriteSetting(command, Atoi(line.value.value));
      }
    }

    /** The setter a write key of `interpretRXCommand` calls with the parsed value. */
    method WriteSetting(command: string, temp: int)
      requires Valid() && command in WRITE_KEYS
      modifies this
      ensures Valid()
      ensures Settings() == ApplyWrite(old(Settings()), command, temp)
      ensures GradState() == old(GradState()) && Configuration() == old(Configuration())
      ensures shutdownCode == old(shutdownCode) && gateShutdown == old(gateShutdown)
    {
      if command == "WIS1" {
        SetCurrentShutdown1(temp);
      } else if command == "WIS2" {
        SetCurrentShutdown2(temp);
      } else if command == "WTSD" {
        SetThermalShutdown(temp);
      } else {
        SetRDroop(temp);
      }
    }
  }
}
