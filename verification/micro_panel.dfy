/**
 * `MicroPanelH`, the four-channel power panel: a bus voltage and four channel
 * currents averaged in ring buffers, four switched channels with per-channel
 * and total current limits, per-channel inrush hold times and hardware-shutoff
 * flags, the droop resistance and the board's command table.
 *
 * The ADC, `readVCC()`, the pins and the delays are not modelled: readings are
 * method parameters and each channel's level is a boolean in `channels`.
 */
module MicroPanelBoard {
  import opened CArith
  import opened CText
  import opened MovingAverage
  import opened Conversions
  import opened PicroBoardBase

  /** Sensor numbers (`SensorIndex`). */
  const VBUS_INDEX := 0
  const I1_INDEX := 1
  const I2_INDEX := 2
  const I3_INDEX := 3
  const I4_INDEX := 4
  const NUM_SENSORS := 5
  /** `AVERAGE_WINDOW_MAX` with the default lengths: 4 for the bus voltage, 16 for the currents. */
  const WINDOWS: seq<nat> := [4, 16, 16, 16, 16]
  const NUM_CHANNELS := 4
  /** The default inrush hold time in microseconds. */
  const DEFAULT_HOLD_MICROS := 20
  /** Limits `initialize` sets: 6500 mA per channel, 22000 mA in total. */
  const DEFAULT_CHANNEL_MA := 6500
  const DEFAULT_TOTAL_MA := 22000

  // ---------------------------------------------------------------------------
  // Totals and protection

  /** `getRawITotal`: the sum of the four zero-centred current averages. */
  function RawITotal(avg: seq<int>): int
    requires |avg| == NUM_SENSORS
  {
    avg[I1_INDEX] + avg[I2_INDEX] + avg[I3_INDEX] + avg[I4_INDEX]
  }

  /** `getITotal`: the sum of the four currents, each converted to mA on its own. */
  function ITotal(avg: seq<int>, vcc: int): int
    requires |avg| == NUM_SENSORS
  {
    Raw2mA(avg[I1_INDEX], vcc) + Raw2mA(avg[I2_INDEX], vcc) + Raw2mA(avg[I3_INDEX], vcc) + Raw2mA(avg[I4_INDEX], vcc)
  }

  /**
   * Converting each current before adding, as `getITotal` does, differs from
   * converting the raw total by less than 5 mA: each conversion truncates by
   * less than one.
   */
  lemma ITotalRounding(avg: seq<int>, vcc: int)
    requires |avg| == NUM_SENSORS
    ensures -5 < ITotal(avg, vcc) - Raw2mA(RawITotal(avg), vcc) < 5
  {
    var a, b, c, d := avg[I1_INDEX], avg[I2_INDEX], avg[I3_INDEX], avg[I4_INDEX];
    var pa, pb, pc, pd := a * vcc * 3, b * vcc * 3, c * vcc * 3, d * vcc * 3;
    assert (a + b + c + d) * vcc == a * vcc + b * vcc + c * vcc + d * vcc;
    assert (a + b + c + d) * vcc * 3 == pa + pb + pc + pd;
    TruncDivRemainder(pa, 1024);
    TruncDivRemainder(pb, 1024);
    TruncDivRemainder(pc, 1024);
    TruncDivRemainder(pd, 1024);
    TruncDivRemainder(pa + pb + pc + pd, 1024);
    TruncationsAddUp(pa, pb, pc, pd, TruncDiv(pa, 1024), TruncDiv(pb, 1024), TruncDiv(pc, 1024), TruncDiv(pd, 1024),
                     TruncDiv(pa + pb + pc + pd, 1024));
  }

  /** Five quotients by 1024, each within one of exact: the four add up to the fifth to within 5. */
  lemma TruncationsAddUp(pa: int, pb: int, pc: int, pd: int, qa: int, qb: int, qc: int, qd: int, q: int)
    requires -1024 < pa - qa * 1024 < 1024 && -1024 < pb - qb * 1024 < 1024
    requires -1024 < pc - qc * 1024 < 1024 && -1024 < pd - qd * 1024 < 1024
    requires -1024 < pa + pb + pc + pd - q * 1024 < 1024
    ensures -5 < qa + qb + qc + qd - q < 5
  {
    var e := qa + qb + qc + qd - q;
    assert e * 1024 == qa * 1024 + qb * 1024 + qc * 1024 + qd * 1024 - q * 1024;
    MulCancel(e, 4, 1024);
    MulCancel(-4, e, 1024);
  }

  /** The raw current limits: one per channel and one for the total. */
  datatype Limits = Limits(limit1: int, limit2: int, limit3: int, limit4: int, total: int)

  /** The limit of channel `k`, numbered from 0. */
  function ChannelLimit(l: Limits, k: int): int
    requires 0 <= k < NUM_CHANNELS
  {
    if k == 0 then l.limit1 else if k == 1 then l.limit2 else if k == 2 then l.limit3 else l.limit4
  }

  /**
   * `checkCurrentShutdown` switches channel `k` off when its own average is
   * strictly above its limit or the four averages together are strictly above
   * the total limit; there is no lower bound.
   */
  predicate Trips(k: int, avg: seq<int>, l: Limits)
    requires 0 <= k < NUM_CHANNELS && |avg| == NUM_SENSORS
  {
    avg[I1_INDEX + k] > ChannelLimit(l, k) || RawITotal(avg) > l.total
  }

  /**
   * The trip rules: a total over its limit trips every channel; a channel at or
   * below zero current trips only through the total when its own limit is not
   * negative; more current never clears a trip; and with limits set from
   * currents in mA a channel trips on its own exactly when its current, at VCC =
   * 5000 mV before rounding, exceeds its limit.
   */
  lemma TripRules(avg: seq<int>, avg': seq<int>, l: Limits, k: int, mA: int)
    requires |avg| == |avg'| == NUM_SENSORS && 0 <= k < NUM_CHANNELS
    requires forall j :: I1_INDEX <= j < NUM_SENSORS ==> avg[j] <= avg'[j]
    ensures RawITotal(avg) > l.total ==> Trips(k, avg, l)
    ensures avg[I1_INDEX + k] <= 0 <= ChannelLimit(l, k) ==> (Trips(k, avg, l) <==> RawITotal(avg) > l.total)
    ensures Trips(k, avg, l) ==> Trips(k, avg', l)
    ensures mA >= 0 && ChannelLimit(l, k) == CurrentLimitRaw(mA) ==>
      (avg[I1_INDEX + k] > ChannelLimit(l, k) <==> avg[I1_INDEX + k] * 1875 > mA * 128)
  {
    if mA >= 0 {
      CurrentLimitTrips(avg[I1_INDEX + k], mA);
    }
  }

  /** The four channel updates of `checkCurrentShutdown`, one per channel, follow `Trips`. */
  lemma ShutdownRule(before: seq<bool>, after: seq<bool>, avg: seq<int>, l: Limits)
    requires |before| == NUM_CHANNELS && |avg| == NUM_SENSORS
    requires var overTotal := RawITotal(avg) > l.total;
      after == [before[0] && !(avg[I1_INDEX] > l.limit1 || overTotal),
                before[1] && !(avg[I2_INDEX] > l.limit2 || overTotal),
                before[2] && !(avg[I3_INDEX] > l.limit3 || overTotal),
                before[3] && !(avg[I4_INDEX] > l.limit4 || overTotal)]
    ensures |after| == NUM_CHANNELS
    ensures forall k :: 0 <= k < NUM_CHANNELS ==> after[k] == (before[k] && !Trips(k, avg, l))
  {
  }

  /** The writable current limits, by key. */
  const LIMIT_KEYS: set<string> := {"WIL1", "WIL2", "WIL3", "WIL4", "WILT"}

  /** The setter a limit key calls with the parsed value. */
  function ApplyLimit(l: Limits, key: string, v: int): Limits
  {
    if key == "WIL1" then l.(limit1 := CurrentLimitRaw(v))
    else if key == "WIL2" then l.(limit2 := CurrentLimitRaw(v))
    else if key == "WIL3" then l.(limit3 := CurrentLimitRaw(v))
    else if key == "WIL4" then l.(limit4 := CurrentLimitRaw(v))
    else if key == "WILT" then l.(total := CurrentLimitRaw(v))
    else l
  }

  /**
   * Writing a channel limit changes that limit only, and the written limit
   * trips exactly the currents above the value in mA.
   */
  lemma ApplyLimitThenTrip(l: Limits, avg: seq<int>, k: int, mA: int)
    requires |avg| == NUM_SENSORS && 0 <= k < NUM_CHANNELS && mA >= 0
    ensures var key := ["WIL1", "WIL2", "WIL3", "WIL4"][k];
      var l' := ApplyLimit(l, key, mA);
      && ChannelLimit(l', k) == CurrentLimitRaw(mA)
      && (forall j :: 0 <= j < NUM_CHANNELS && j != k ==> ChannelLimit(l', j) == ChannelLimit(l, j))
      && l'.total == l.total
      && (avg[I1_INDEX + k] > ChannelLimit(l', k) <==> avg[I1_INDEX + k] * 1875 > mA * 128)
  {
    CurrentLimitTrips(avg[I1_INDEX + k], mA);
  }

  // ---------------------------------------------------------------------------
  // Command table

  /** What the getters report: bus voltage in mV, currents in mA, VCC in mV, channel levels 0 or 1. */
  datatype Telemetry = Telemetry(vBus: int, i1: int, i2: int, i3: int, i4: int, iTotal: int, vcc: int,
                                 ch1: int, ch2: int, ch3: int, ch4: int)

  const READ_KEYS: set<string> := {"RVB", "RI1", "RI2", "RI3", "RI4", "RIT", "RVCC", "RCH1", "RCH2", "RCH3", "RCH4"}
  const CHANNEL_KEYS: set<string> := {"WCH1", "WCH2", "WCH3", "WCH4"}

  /** The three key sets are told apart by their first two letters. */
  lemma KeyClasses(command: string)
    ensures command in READ_KEYS ==> |command| >= 3 && command[0] == 'R'
    ensures command in CHANNEL_KEYS ==> |command| == 4 && command[0] == 'W' && command[1] == 'C'
    ensures command in LIMIT_KEYS ==> |command| == 4 && command[0] == 'W' && command[1] == 'I'
  {
  }

  /** The getter a read key reports. */
  function ReadValue(key: string, t: Telemetry): int
    requires key in READ_KEYS
  {
    if key == "RVB" then t.vBus
    else if key == "RI1" then t.i1
    else if key == "RI2" then t.i2
    else if key == "RI3" then t.i3
    else if key == "RI4" then t.i4
    else if key == "RIT" then t.iTotal
    else if key == "RVCC" then t.vcc
    else if key == "RCH1" then t.ch1
    else if key == "RCH2" then t.ch2
    else if key == "RCH3" then t.ch3
    else t.ch4
  }

  /** The channel, numbered from 0, a channel key switches. */
  function ChannelOfKey(key: string): (k: int)
    requires key in CHANNEL_KEYS
    ensures 0 <= k < NUM_CHANNELS && key == ["WCH1", "WCH2", "WCH3", "WCH4"][k]
  {
    if key == "WCH1" then 0 else if key == "WCH2" then 1 else if key == "WCH3" then 2 else 3
  }

  /** `digitalRead` of a channel pin: 1 when on. */
  function Level(on: bool): int
  {
    if on then 1 else 0
  }

  /**
   * The reply `interpretRXCommand` writes: a read key is answered with its
   * getter; a channel key with the channel's level read back after switching
   * it (on for any non-zero value); a limit key echoes the `atoi` of its value;
   * anything else gets no reply.
   */
  function Reply(command: string, value: Option<string>, t: Telemetry): Option<string>
    requires command in CHANNEL_KEYS || command in LIMIT_KEYS ==> value.Some?
  {
    if command in READ_KEYS then Some(ReadReply(command, ReadValue(command, t)))
    else if command in CHANNEL_KEYS then Some(WriteAck(command, Level(Atoi(value.value) != 0)))
    else if command in LIMIT_KEYS then Some(WriteAck(command, Atoi(value.value)))
    else None
  }

  /** Exactly the built-in keys are answered; every other command goes to the callbacks. */
  lemma ReplyAnswersKeys(command: string, value: Option<string>, t: Telemetry)
    requires command in CHANNEL_KEYS || command in LIMIT_KEYS ==> value.Some?
    ensures Reply(command, value, t).Some? <==> command in READ_KEYS || command in CHANNEL_KEYS || command in LIMIT_KEYS
  {
  }

  /** `RVB` is answered `WVB:<mV>`. */
  lemma BusVoltageReply(value: Option<string>, t: Telemetry)
    ensures Reply("RVB", value, t) == Some("WVB:" + Decimal(t.vBus))
  {
    assert "W" + "RVB"[1..] == "WVB";
    assert "WVB" + ":" + "" + Decimal(t.vBus) == "WVB:" + Decimal(t.vBus);
  }

  /** A channel key `WCHn` is answered `WCHn:=1` or `WCHn:=0` as its value parses non-zero or not. */
  lemma ChannelReplyText(command: string, value: Option<string>, t: Telemetry)
    requires command in CHANNEL_KEYS && value.Some?
    ensures Reply(command, value, t) == Some(command + ":=" + (if Atoi(value.value) != 0 then "1" else "0"))
  {
    KeyClasses(command);
    assert command !in READ_KEYS;
    var n := Level(Atoi(value.value) != 0);
    assert Reply(command, value, t) == Some(command + ":" + "=" + Decimal(n));
    assert Decimal(n) == if n == 1 then "1" else "0";
    assert command + ":" + "=" + Decimal(n) == command + ":=" + Decimal(n);
  }

  /** A limit key is answered with its parsed value. */
  lemma LimitReplyText(command: string, value: Option<string>, t: Telemetry)
    requires command in LIMIT_KEYS && value.Some?
    ensures Reply(command, value, t) == Some(command + ":=" + Decimal(Atoi(value.value)))
  {
    KeyClasses(command);
    assert command !in READ_KEYS && command !in CHANNEL_KEYS;
    var d := Decimal(Atoi(value.value));
    assert Reply(command, value, t) == Some(command + ":" + "=" + d);
    assert command + ":" + "=" + d == command + ":=" + d;
  }

  /** What `updateVISensors` stores for a reading of sensor `i`: the bus voltage as read, a current minus 512. */
  function CentreReading(i: int, raw: int): int
  {
    if i == VBUS_INDEX then raw else raw - 512
  }

  /** Sensor `i`'s stored reading of each round, oldest first. */
  function Centred(rounds: seq<seq<int>>, i: int): (s: seq<int>)
    requires forall n :: 0 <= n < |rounds| ==> |rounds[n]| == NUM_SENSORS
    requires 0 <= i < NUM_SENSORS
    ensures |s| == |rounds|
    ensures forall n :: 0 <= n < |rounds| ==> s[n] == CentreReading(i, rounds[n][i])
  {
    seq(|rounds|, n requires 0 <= n < |rounds| => CentreReading(i, rounds[n][i]))
  }

  /** The windows after one `updateVISensors` round: its five `updateSensorRaw` calls in order. */
  function RoundPushed(ws: seq<seq<int>>, readings: seq<int>): (r: seq<seq<int>>)
    requires |readings| == NUM_SENSORS
    ensures |r| == |ws|
  {
    var w1 := Pushed(ws, VBUS_INDEX, readings[VBUS_INDEX]);
    var w2 := Pushed(w1, I1_INDEX, readings[I1_INDEX] - 512);
    var w3 := Pushed(w2, I2_INDEX, readings[I2_INDEX] - 512);
    var w4 := Pushed(w3, I3_INDEX, readings[I3_INDEX] - 512);
    Pushed(w4, I4_INDEX, readings[I4_INDEX] - 512)
  }

  /** A round of `updateVISensors` feeds every window its own reading, the currents centred. */
  lemma RoundOfUpdates(ws: seq<seq<int>>, readings: seq<int>)
    requires |ws| == NUM_SENSORS && |readings| == NUM_SENSORS
    requires forall i :: 0 <= i < NUM_SENSORS ==> |ws[i]| > 0
    ensures forall i :: 0 <= i < NUM_SENSORS ==> RoundPushed(ws, readings)[i] == ws[i][1..] + [CentreReading(i, readings[i])]
  {
  }

  /** One more round of `updateVISensors` feeds each window that round's reading. */
  lemma FeedRound(start: seq<seq<int>>, rounds: seq<seq<int>>, n: int, before: seq<seq<int>>, after: seq<seq<int>>)
    requires |start| == |before| == |after| == NUM_SENSORS && 0 <= n < |rounds|
    requires forall k :: 0 <= k < |rounds| ==> |rounds[k]| == NUM_SENSORS
    requires forall i :: 0 <= i < NUM_SENSORS ==> |start[i]| > 0 && |before[i]| == |start[i]|
    requires forall i :: 0 <= i < NUM_SENSORS ==> before[i] == Feed(start[i], Centred(rounds[..n], i))
    requires forall i :: 0 <= i < NUM_SENSORS ==> after[i] == before[i][1..] + [CentreReading(i, rounds[n][i])]
    ensures forall i :: 0 <= i < NUM_SENSORS ==> after[i] == Feed(start[i], Centred(rounds[..n + 1], i))
  {
    forall i | 0 <= i < NUM_SENSORS
      ensures after[i] == Feed(start[i], Centred(rounds[..n + 1], i))
    {
      var xs, x := Centred(rounds[..n], i), CentreReading(i, rounds[n][i]);
      assert Centred(rounds[..n + 1], i) == xs + [x];
      FeedSnoc(start[i], xs, x);
    }
  }

  /** The longest of the windows is the 16 samples of a current sensor. */
  lemma LongestIsSixteen(max: int)
    requires max in WINDOWS && forall i :: 0 <= i < NUM_SENSORS ==> WINDOWS[i] <= max
    ensures max == 16
  {
    assert WINDOWS[I1_INDEX] <= max;
  }

  /** After as many rounds as the longest window, each window holds its sensor's latest readings. */
  lemma LatestRounds(start: seq<seq<int>>, rounds: seq<seq<int>>, after: seq<seq<int>>)
    requires |start| == |after| == NUM_SENSORS && |rounds| == 16
    requires forall n :: 0 <= n < |rounds| ==> |rounds[n]| == NUM_SENSORS
    requires forall i :: 0 <= i < NUM_SENSORS ==> |start[i]| == WINDOWS[i]
    requires forall i :: 0 <= i < NUM_SENSORS ==> after[i] == Feed(start[i], Centred(rounds, i))
    ensures forall i :: 0 <= i < NUM_SENSORS ==> after[i] == Centred(rounds, i)[16 - WINDOWS[i]..]
  {
    forall i | 0 <= i < NUM_SENSORS
      ensures after[i] == Centred(rounds, i)[16 - WINDOWS[i]..]
    {
      FeedLatest(start[i], Centred(rounds, i));
    }
  }

  class MicroPanel {
    const sensors: SensorBank
    const comm: PicroBoard
    /** `_holdProtectMicros`: per-channel inrush hold times in microseconds. */
    const holdProtectMicros: array<int>
    /** `_hardwareShutoffEnabled`: per-channel hardware shutoff flags. */
    const hardwareShutoffEnabled: array<bool>
    var vcc: int
    var currentLimitRaw1: int
    var currentLimitRaw2: int
    var currentLimitRaw3: int
    var currentLimitRaw4: int
    var currentLimitRawTotal: int
    var rDroop: int
    /** The level of each channel's gate, channel 1 first. */
    var channels: seq<bool>

    ghost predicate Valid()
      reads this, sensors, sensors.past
    {
      && sensors.Valid() && sensors.windows == WINDOWS
      && holdProtectMicros.Length == NUM_CHANNELS && hardwareShutoffEnabled.Length == NUM_CHANNELS
      && holdProtectMicros !in sensors.past
      && |channels| == NUM_CHANNELS
    }

    ghost function Settings(): Limits
      reads this
    {
      Limits(currentLimitRaw1, currentLimitRaw2, currentLimitRaw3, currentLimitRaw4, currentLimitRawTotal)
    }

    /** What the getters report. */
    function Readings(): Telemetry
      reads this, sensors
      requires |sensors.averages| == NUM_SENSORS && |channels| == NUM_CHANNELS
    {
      var avg := sensors.averages;
      Telemetry(Raw2mV(avg[VBUS_INDEX], vcc),
                Raw2mA(avg[I1_INDEX], vcc), Raw2mA(avg[I2_INDEX], vcc),
                Raw2mA(avg[I3_INDEX], vcc), Raw2mA(avg[I4_INDEX], vcc),
                ITotal(avg, vcc), vcc,
                Level(channels[0]), Level(channels[1]), Level(channels[2]), Level(channels[3]))
    }

    /**
     * A board object as declared: zeroed sensors, the default limits of 444
     * counts, a total limit of 0 until `initialize`, hold times of 20 µs,
     * hardware shutoff flags clear and the channels at the given levels.
     */
    constructor (levels: seq<bool>)
      requires |levels| == NUM_CHANNELS
      ensures Valid() && comm.Valid() && fresh(sensors) && fresh(comm.Repr()) && fresh(holdProtectMicros) && fresh(hardwareShutoffEnabled)
      ensures forall i :: 0 <= i < NUM_SENSORS ==> fresh(sensors.past[i])
      ensures Settings() == Limits(444, 444, 444, 444, 0) && rDroop == 0 && vcc == 0
      ensures holdProtectMicros[..] == [DEFAULT_HOLD_MICROS, DEFAULT_HOLD_MICROS, DEFAULT_HOLD_MICROS, DEFAULT_HOLD_MICROS]
      ensures hardwareShutoffEnabled[..] == [false, false, false, false]
      ensures channels == levels
    {
      sensors := new SensorBank(WINDOWS);
      comm := new PicroBoard();
      holdProtectMicros := new int[NUM_CHANNELS](_ => DEFAULT_HOLD_MICROS);
      hardwareShutoffEnabled := new bool[NUM_CHANNELS](_ => false);
      vcc := 0;
      currentLimitRaw1, currentLimitRaw2, currentLimitRaw3, currentLimitRaw4 := 444, 444, 444, 444;
      currentLimitRawTotal := 0;
      rDroop := 0;
      channels := levels;
      new;
      assert holdProtectMicros[..] == [DEFAULT_HOLD_MICROS, DEFAULT_HOLD_MICROS, DEFAULT_HOLD_MICROS, DEFAULT_HOLD_MICROS];
      assert hardwareShutoffEnabled[..] == [false, false, false, false];
    }

    // -------------------------------------------------------------------------
    // Sensors

    /** `updateSensorRaw`: the moving-average update of one channel; any other index changes nothing. */
    method UpdateSensorRaw(index: int, sample: int)
      requires Valid()
      modifies sensors, sensors.past
      ensures Valid()
      ensures sensors.Windows() == Pushed(old(sensors.Windows()), index, sample)
      ensures forall j :: 0 <= j < NUM_SENSORS && j != index ==> sensors.averages[j] == old(sensors.averages[j])
      ensures !(0 <= index < NUM_SENSORS) ==> sensors.averages == old(sensors.averages)
    {
      sensors.Update(index, sample);
    }

    /**
     * `updateVISensors` with the five ADC readings, in sensor order: each is fed
     * to its sensor's window, the currents centred by subtracting 512.
     */
    method UpdateVISensors(readings: seq<int>)
      requires Valid() && |readings| == NUM_SENSORS
      modifies sensors, sensors.past
      ensures Valid()
      ensures forall i :: 0 <= i < NUM_SENSORS ==>
        sensors.Windows()[i] == old(sensors.Windows())[i][1..] + [CentreReading(i, readings[i])]
    {
      ghost var start := sensors.Windows();
      UpdateSensorRaw(VBUS_INDEX, readings[VBUS_INDEX]);
      UpdateSensorRaw(I1_INDEX, readings[I1_INDEX] - 512);
      UpdateSensorRaw(I2_INDEX, readings[I2_INDEX] - 512);
      UpdateSensorRaw(I3_INDEX, readings[I3_INDEX] - 512);
      UpdateSensorRaw(I4_INDEX, readings[I4_INDEX] - 512);
      RoundOfUpdates(start, readings);
    }

    /** `updateVCC` over four `readVCC()` results: their truncated mean, 5000 mV if that is below 4950 mV. */
    method UpdateVCC(readings: seq<int>)
      requires Valid() && |readings| == VCC_AVERAGE_LENGTH
      modifies this
      ensures Valid()
      ensures vcc == UsbCorrected(Mean(readings)) && vcc >= VCC_USB_THRESHOLD
      ensures Settings() == old(Settings()) && channels == old(channels) && rDroop == old(rDroop)
    {
      var mean := MeanOf(readings);
      vcc := mean;
      if vcc < VCC_USB_THRESHOLD {
        vcc := VCC_ASSUMED;
      }
    }

    /**
     * `initializeSensors()`: VCC is measured, then as many rounds of
     * `updateVISensors` run as the longest window is long, so that every window
     * holds only readings of this call: its latest ones.
     */
    method InitializeSensors(vccReadings: seq<int>, rounds: seq<seq<int>>)
      requires Valid() && |vccReadings| == VCC_AVERAGE_LENGTH && |rounds| == 16
      requires forall n :: 0 <= n < |rounds| ==> |rounds[n]| == NUM_SENSORS
      modifies this, sensors, sensors.past
      ensures Valid()
      ensures vcc == UsbCorrected(Mean(vccReadings))
      ensures forall i :: 0 <= i < NUM_SENSORS ==> sensors.Windows()[i] == Centred(rounds, i)[16 - WINDOWS[i]..]
      ensures Settings() == old(Settings()) && channels == old(channels) && rDroop == old(rDroop)
    {
      UpdateVCC(vccReadings);
      var max := LongestWindow(WINDOWS);
      LongestIsSixteen(max);
      ghost var start := sensors.Windows();
      assert rounds[..max] == rounds;
      UpdateRounds(rounds[..max]);
      LatestRounds(start, rounds, sensors.Windows());
    }

    /** The loop of `initializeSensors`: one `updateVISensors` per round, feeding every window that round's reading. */
    method UpdateRounds(rounds: seq<seq<int>>)
      requires Valid()
      requires forall n :: 0 <= n < |rounds| ==> |rounds[n]| == NUM_SENSORS
      modifies sensors, sensors.past
      ensures Valid()
      ensures forall i :: 0 <= i < NUM_SENSORS ==> sensors.Windows()[i] == Feed(old(sensors.Windows())[i], Centred(rounds, i))
    {
      ghost var start := sensors.Windows();
      var n := 0;
      while n < |rounds|
        invariant 0 <= n <= |rounds| && Valid()
        invariant forall i :: 0 <= i < NUM_SENSORS ==> sensors.Windows()[i] == Feed(start[i], Centred(rounds[..n], i))
      {
        ghost var before := sensors.Windows();
        UpdateVISensors(rounds[n]);
        FeedRound(start, rounds, n, before, sensors.Windows());
        n := n + 1;
      }
      assert rounds[..n] == rounds;
    }

    // -------------------------------------------------------------------------
    // Channels

    /** `setCh1`..`setCh4` (`k` = 0..3): the channel is switched on for any non-zero state. */
    method SetChannel(k: int, state: int)
      requires Valid() && 0 <= k < NUM_CHANNELS
      modifies this
      ensures Valid()
      ensures channels == old(channels)[k := state != 0]
      ensures Settings() == old(Settings()) && vcc == old(vcc) && rDroop == old(rDroop)
    {
      channels := channels[k := state != 0];
    }

    /** `getCh1`..`getCh4`: the channel's level, 1 when on. */
    method GetChannel(k: int) returns (level: int)
      requires Valid() && 0 <= k < NUM_CHANNELS
      ensures level == Level(channels[k]) && (level == 1 <==> channels[k])
    {
      level := if channels[k] then 1 else 0;
    }

    /** `shutdownChannels`: every channel off. */
    method ShutdownChannels()
      requires Valid()
      modifies this
      ensures Valid()
      ensures channels == [false, false, false, false]
      ensures Settings() == old(Settings()) && vcc == old(vcc) && rDroop == old(rDroop)
    {
      channels := [false, false, false, false];
    }

    /** `isSomeChannelsActive`: whether at least one channel is on. */
    method IsSomeChannelsActive() returns (active: bool)
      requires Valid()
      ensures active <==> exists k :: 0 <= k < NUM_CHANNELS && channels[k]
    {
      var c1 := GetChannel(0);
      var c2 := GetChannel(1);
      var c3 := GetChannel(2);
      var c4 := GetChannel(3);
      active := c1 != 0 || c2 != 0 || c3 != 0 || c4 != 0;
    }

    /** `setDefaultInrushOverride(channel, us)`: only channels 1 to 4 are set; any other number is ignored. */
    method SetDefaultInrushOverride(channel: int, us: int)
      requires Valid()
      modifies holdProtectMicros
      ensures Valid()
      ensures 1 <= channel <= NUM_CHANNELS ==> holdProtectMicros[..] == old(holdProtectMicros[..])[channel - 1 := us]
      ensures !(1 <= channel <= NUM_CHANNELS) ==> holdProtectMicros[..] == old(holdProtectMicros[..])
    {
      if channel < 1 || channel > 4 {
        return;
      }
      holdProtectMicros[channel - 1] := us;
    }

    /** `setDefaultInrushOverride(us)`: the same hold time for all four channels. */
    method SetDefaultInrushOverrideAll(us: int)
      requires Valid()
      modifies holdProtectMicros
      ensures Valid()
      ensures holdProtectMicros[..] == [us, us, us, us]
    {
      SetDefaultInrushOverride(1, us);
      SetDefaultInrushOverride(2, us);
      SetDefaultInrushOverride(3, us);
      SetDefaultInrushOverride(4, us);
    }

    /** `enableHardwareShutoff(channel)` and `disableHardwareShutoff(channel)`: only channels 1 to 4 have a flag. */
    method SetHardwareShutoff(channel: int, enabled: bool)
      requires Valid()
      modifies hardwareShutoffEnabled
      ensures Valid()
      ensures 1 <= channel <= NUM_CHANNELS ==> hardwareShutoffEnabled[..] == old(hardwareShutoffEnabled[..])[channel - 1 := enabled]
      ensures !(1 <= channel <= NUM_CHANNELS) ==> hardwareShutoffEnabled[..] == old(hardwareShutoffEnabled[..])
    {
      if 1 <= channel <= 4 {
        hardwareShutoffEnabled[channel - 1] := enabled;
      }
    }

    // -------------------------------------------------------------------------
    // Protection

    /** `setCurrentLimit1`..`setCurrentLimit4` (`k` = 0..3): the channel limit in raw counts. */
    method SetCurrentLimit(k: int, mA: int)
      requires Valid() && 0 <= k < NUM_CHANNELS
      modifies this
      ensures Valid()
      ensures Settings() == ApplyLimit(old(Settings()), ["WIL1", "WIL2", "WIL3", "WIL4"][k], mA)
      ensures channels == old(channels) && vcc == old(vcc) && rDroop == old(rDroop)
    {
      var raw := TruncDiv(mA * 128, 1875);
      if k == 0 {
        currentLimitRaw1 := raw;
      } else if k == 1 {
        currentLimitRaw2 := raw;
      } else if k == 2 {
        currentLimitRaw3 := raw;
      } else {
        currentLimitRaw4 := raw;
      }
    }

    /** `setCurrentLimitTotal`: the limit on the sum of the four currents, in raw counts. */
    method SetCurrentLimitTotal(mA: int)
      requires Valid()
      modifies this
      ensures Valid()
      ensures Settings() == ApplyLimit(old(Settings()), "WILT", mA)
      ensures channels == old(channels) && vcc == old(vcc) && rDroop == old(rDroop)
    {
      currentLimitRawTotal := TruncDiv(mA * 128, 1875);
    }

    /**
     * `checkCurrentShutdown`: each channel whose rule trips is switched off; no
     * channel is switched on and nothing else changes. The firmware's separate
     * `setChN(LOW)` writes are gathered into one update of `channels`.
     */
    method CheckCurrentShutdown()
      requires Valid()
      modifies this
      ensures Valid()
      ensures forall k :: 0 <= k < NUM_CHANNELS ==>
        channels[k] == (old(channels[k]) && !Trips(k, sensors.averages, Settings()))
      ensures Settings() == old(Settings()) && vcc == old(vcc) && rDroop == old(rDroop)
    {
      var avg := sensors.averages;
      var overTotal := RawITotal(avg) > currentLimitRawTotal;
      channels := [channels[0] && !(avg[I1_INDEX] > currentLimitRaw1 || overTotal),
                   channels[1] && !(avg[I2_INDEX] > currentLimitRaw2 || overTotal),
                   channels[2] && !(avg[I3_INDEX] > currentLimitRaw3 || overTotal),
                   channels[3] && !(avg[I4_INDEX] > currentLimitRaw4 || overTotal)];
      ShutdownRule(old(channels), channels, avg, Settings());
    }

    /**
     * `initialize`: all channels off, the sensors initialised, and limits of
     * 6500 mA per channel and 22000 mA in total (443 and 1501 raw counts).
     */
    method Initialize(vccReadings: seq<int>, rounds: seq<seq<int>>)
      requires Valid() && |vccReadings| == VCC_AVERAGE_LENGTH && |rounds| == 16
      requires forall n :: 0 <= n < |rounds| ==> |rounds[n]| == NUM_SENSORS
      modifies this, sensors, sensors.past
      ensures Valid()
      ensures channels == [false, false, false, false]
      ensures vcc == UsbCorrected(Mean(vccReadings))
      ensures forall i :: 0 <= i < NUM_SENSORS ==> sensors.Windows()[i] == Centred(rounds, i)[16 - WINDOWS[i]..]
      ensures Settings() == Limits(443, 443, 443, 443, 1501)
      ensures Settings() == Limits(CurrentLimitRaw(DEFAULT_CHANNEL_MA), CurrentLimitRaw(DEFAULT_CHANNEL_MA),
        CurrentLimitRaw(DEFAULT_CHANNEL_MA), CurrentLimitRaw(DEFAULT_CHANNEL_MA), CurrentLimitRaw(DEFAULT_TOTAL_MA))
    {
      ShutdownChannels();
      InitializeSensors(vccReadings, rounds);
      SetCurrentLimit(0, DEFAULT_CHANNEL_MA);
      SetCurrentLimit(1, DEFAULT_CHANNEL_MA);
      SetCurrentLimit(2, DEFAULT_CHANNEL_MA);
      SetCurrentLimit(3, DEFAULT_CHANNEL_MA);
      SetCurrentLimitTotal(DEFAULT_TOTAL_MA);
    }

    // -------------------------------------------------------------------------
    // Droop

    /** `setRDroop`: the droop resistance in mΩ, stored in raw counts. */
    method SetRDroop(mOhm: int)
      requires Valid()
      modifies this
      ensures Valid()
      ensures rDroop == RDroopOf(mOhm)
      ensures mOhm >= 0 ==> mOhm - 5 <= RDroopMilliOhm(rDroop) <= mOhm
      ensures Settings() == old(Settings()) && channels == old(channels) && vcc == old(vcc)
    {
      rDroop := TruncDiv(RDROOPFACTOR * mOhm, 4316);
      if mOhm >= 0 {
        RDroopReadBack(mOhm);
      }
    }

    /** `getRDroop`: the stored droop resistance in mΩ. */
    method GetRDroop() returns (mOhm: int)
      requires Valid()
      ensures mOhm == RDroopMilliOhm(rDroop)
      ensures rDroop >= 0 ==> mOhm >= 0
    {
      mOhm := TruncDiv(rDroop * 4316, RDROOPFACTOR);
    }

    /** `getVDroopRaw`: the droop voltage for an output current, zero without droop. */
    method GetVDroopRaw(iOut: int) returns (v: int)
      requires Valid()
      ensures v == VDroopRaw(iOut, rDroop)
      ensures rDroop == 0 ==> v == 0
      ensures rDroop >= 0 && iOut >= 0 ==> v >= 0
    {
      v := TruncDiv(iOut * rDroop, RDROOPFACTOR);
      if rDroop >= 0 && iOut >= 0 {
        VDroopProperties(0, iOut, rDroop);
      }
    }

    // -------------------------------------------------------------------------
    // Commands

    /**
     * `interpretRXCommand(command, value, protocol)`: a built-in key is answered
     * on the transport it came from, a write key first switching its channel or
     * setting its limit; any other command is handed to every registered
     * callback, in order, and gets no reply. `strcmp` on a missing command and
     * `atoi` on a missing value are undefined, so both are required.
     */
    method InterpretRXCommand(line: SplitLine, protocol: int)
      requires Valid() && comm.Valid() && line.command.Some?
      requires line.command.value in CHANNEL_KEYS || line.command.value in LIMIT_KEYS ==> line.value.Some?
      requires line.command.value in READ_KEYS || line.command.value in CHANNEL_KEYS || line.command.value in LIMIT_KEYS ==>
        protocol == UART_INDEX || protocol == I2C_INDEX
      modifies this, comm
      ensures Valid() && comm.Valid()
      ensures var reply := Reply(line.command.value, line.value, old(Readings()));
        && (reply.Some? ==> comm.Answered(protocol, reply.value, old(comm.serialOut), old(comm.txUart), old(comm.txI2c), old(comm.invocations)))
        && (reply.None? ==> comm.Forwarded(line, protocol, old(comm.serialOut), old(comm.txUart), old(comm.txI2c), old(comm.invocations)))
      ensures channels == if line.command.value in CHANNEL_KEYS
        then old(channels)[ChannelOfKey(line.command.value) := Atoi(line.value.value) != 0] else old(channels)
      ensures Settings() == if line.command.value in LIMIT_KEYS
        then ApplyLimit(old(Settings()), line.command.value, Atoi(line.value.value)) else old(Settings())
      ensures vcc == old(vcc) && rDroop == old(rDroop)
      ensures comm.wireOut == old(comm.wireOut) && comm.callbacksEnd == old(comm.callbacksEnd)
    {
      var command := line.command.value;
      var reply := Reply(command, line.value, Readings());
      comm.Respond(reply, line, protocol);
      ApplyCommand(command, line.value);
    }

    /** The state change of `interpretRXCommand`: a channel key sets that channel, a limit key that limit. */
    method ApplyCommand(command: string, value: Option<string>)
      requires Valid()
      requires command in CHANNEL_KEYS || command in LIMIT_KEYS ==> value.Some?
      modifies this
      ensures Valid()
      ensures channels == if command in CHANNEL_KEYS
        then old(channels)[ChannelOfKey(command) := Atoi(value.value) != 0] else old(channels)
      ensures Settings() == if command in LIMIT_KEYS
        then ApplyLimit(old(Settings()), command, Atoi(value.value)) else old(Settings())
      ensures vcc == old(vcc) && rDroop == old(rDroop)
    {
      KeyClasses(command);
      if command in CHANNEL_KEYS {
        SetChannel(ChannelOfKey(command), Atoi(value.value));
      } else if command in LIMIT_KEYS {
        WriteLimit(command, Atoi(value.value));
      }
    }

    /** The setter a limit key of `interpretRXCommand` calls with the parsed value. */
    method WriteLimit(command: string, temp: int)
      requires Valid() && command in LIMIT_KEYS
      modifies this
      ensures Valid()
      ensures Settings() == ApplyLimit(old(Settings()), command, temp)
      ensures channels == old(channels) && vcc == old(vcc) && rDroop == old(rDroop)
    {
      if command == "WIL1" {
        SetCurrentLimit(0, temp);
      } else if command == "WIL2" {
        SetCurrentLimit(1, temp);
      } else if command == "WIL3" {
        SetCurrentLimit(2, temp);
      } else if command == "WIL4" {
        SetCurrentLimit(3, temp);
      } else {
        SetCurrentLimitTotal(temp);
      }
    }
  }
}
