/**
 * `PiSupplyH`, the power supply of the Raspberry Pi: the 48 V input bus and
 * the 12 V bus voltages and four analog GPIO pins averaged in ring buffers,
 * four switched outputs (the Pi's own 5 V, a 5 V output, the GPIO 5 V supply
 * and a 12 V output) and the board's command table.
 *
 * The ADC, `readVCC()`, the pins and the timer are not modelled: readings are
 * method parameters and each output pin's level is a boolean in `pins`.
 */
module PiSupplyBoard {
  import opened CArith
  import opened CText
  import opened MovingAverage
  import opened Conversions
  import opened PicroBoardBase

  /** Sensor numbers (`SensorIndex`). */
  const V48_INDEX := 0
  const V12_INDEX := 1
  const A0_INDEX := 2
  const A1_INDEX := 3
  const A6_INDEX := 4
  const A7_INDEX := 5
  const NUM_SENSORS := 6
  /** `AVERAGE_WINDOW_MAX` with the default lengths: 32 samples for every sensor. */
  const WINDOWS: seq<nat> := [32, 32, 32, 32, 32, 32]
  const ROUNDS := 32

  /** Output channel numbers: the Pi, the 5 V output, the GPIO supply and the 12 V output. */
  const CH_PI := 0
  const CH_5V := 1
  const CH_GPIO := 2
  const CH_12V := 3
  const NUM_CHANNELS := 4
  /**
   * Which outputs are driven active-low: the three 5 V switches are on while
   * their pin is LOW, the 12 V switch while its pin is HIGH.
   */
  const ACTIVE_LOW: seq<bool> := [true, true, true, false]

  // ---------------------------------------------------------------------------
  // Output channels

  /** Whether channel `k` is on, given the pin levels (`true` = HIGH). */
  predicate On(pins: seq<bool>, k: int)
    requires |pins| == NUM_CHANNELS && 0 <= k < NUM_CHANNELS
  {
    pins[k] != ACTIVE_LOW[k]
  }

  /**
   * The level `setChPi`..`setCh12V` write for `state`: `digitalWrite(pin,
   * !state)` on an active-low switch, `digitalWrite(pin, state)` on the 12 V
   * switch, where any non-zero value writes HIGH.
   */
  function PinLevel(k: int, state: int): bool
    requires 0 <= k < NUM_CHANNELS
  {
    if ACTIVE_LOW[k] then state == 0 else state != 0
  }

  /** `digitalRead` seen through the getter: 1 when the channel is on. */
  function Level(on: bool): int
  {
    if on then 1 else 0
  }

  /**
   * Setting a channel switches it on exactly for a non-zero state, whichever
   * level its switch is driven at, and leaves the other channels alone.
   */
  lemma SetThenGet(pins: seq<bool>, k: int, state: int)
    requires |pins| == NUM_CHANNELS && 0 <= k < NUM_CHANNELS
    ensures var pins' := pins[k := PinLevel(k, state)];
      && (On(pins', k) <==> state != 0)
      && Level(On(pins', k)) == (if state != 0 then 1 else 0)
      && forall j :: 0 <= j < NUM_CHANNELS && j != k ==> On(pins', j) == On(pins, j)
  {
  }

  /** `shutdownOutputChannels` keeps the Pi's level; `shutdownAllChannels` turns everything off. */
  lemma ShutdownLevels(piPin: bool)
    ensures var pins := [piPin, PinLevel(CH_5V, 0), PinLevel(CH_GPIO, 0), PinLevel(CH_12V, 0)];
      && (On(pins, CH_PI) <==> !piPin)
      && forall k :: CH_5V <= k < NUM_CHANNELS ==> !On(pins, k)
    ensures forall k :: 0 <= k < NUM_CHANNELS ==> !On([true, true, true, false], k)
  {
  }

  // ---------------------------------------------------------------------------
  // Sensors

  /** The sensor a GPIO pin number is averaged in: pins 0, 1, 6 and 7 only. */
  function AnalogIndex(pin: int): (r: Option<int>)
    ensures r.Some? <==> pin == 0 || pin == 1 || pin == 6 || pin == 7
    ensures r.Some? ==> A0_INDEX <= r.value < NUM_SENSORS
  {
    if pin == 0 then Some(A0_INDEX)
    else if pin == 1 then Some(A1_INDEX)
    else if pin == 6 then Some(A6_INDEX)
    else if pin == 7 then Some(A7_INDEX)
    else None
  }

  /** The four analog pins have four different sensors, in pin order. */
  lemma AnalogIndexInjective(p: int, q: int)
    requires AnalogIndex(p).Some? && AnalogIndex(q).Some?
    ensures AnalogIndex(p) == AnalogIndex(q) <==> p == q
    ensures p < q ==> AnalogIndex(p).value < AnalogIndex(q).value
  {
  }

  /**
   * Conversion of an `unsigned int` in 0..65535 to a 16-bit `int`, as `getV12`
   * returns `raw2mV`: values from 32768 up come out negative.
   */
  function Int16(u: int): (r: int)
    requires 0 <= u < 0x1_0000
    ensures -0x8000 <= r < 0x8000
    ensures (r - u) % 0x1_0000 == 0
    ensures u < 0x8000 ==> r == u
    ensures u >= 0x8000 ==> r < 0
  {
    if u < 0x8000 then u else u - 0x1_0000
  }

  /** Sensor `i`'s reading of each round, oldest first. */
  function Column(rounds: seq<seq<int>>, i: int): (s: seq<int>)
    requires forall n :: 0 <= n < |rounds| ==> |rounds[n]| == NUM_SENSORS
    requires 0 <= i < NUM_SENSORS
    ensures |s| == |rounds|
    ensures forall n :: 0 <= n < |rounds| ==> s[n] == rounds[n][i]
  {
    seq(|rounds|, n requires 0 <= n < |rounds| => rounds[n][i])
  }

  /** The windows after `updateVSensors` with the two bus readings. */
  function VPushed(ws: seq<seq<int>>, v48: int, v12: int): (r: seq<seq<int>>)
    ensures |r| == |ws|
  {
    Pushed(Pushed(ws, V48_INDEX, v48), V12_INDEX, v12)
  }

  /** The windows after `updateASensors` with the readings of pins 0, 1, 6 and 7. */
  function APushed(ws: seq<seq<int>>, a0: int, a1: int, a6: int, a7: int): (r: seq<seq<int>>)
    ensures |r| == |ws|
  {
    Pushed(Pushed(Pushed(Pushed(ws, A0_INDEX, a0), A1_INDEX, a1), A6_INDEX, a6), A7_INDEX, a7)
  }

  /** One `updateSensors` round feeds every window its own reading. */
  lemma RoundOfUpdates(ws: seq<seq<int>>, readings: seq<int>)
    requires |ws| == NUM_SENSORS && |readings| == NUM_SENSORS
    requires forall i :: 0 <= i < NUM_SENSORS ==> |ws[i]| > 0
    ensures var r := APushed(VPushed(ws, readings[V48_INDEX], readings[V12_INDEX]),
                             readings[A0_INDEX], readings[A1_INDEX], readings[A6_INDEX], readings[A7_INDEX]);
      forall i :: 0 <= i < NUM_SENSORS ==> r[i] == ws[i][1..] + [readings[i]]
  {
  }

  /** One more round of `updateSensors` feeds each window that round's reading. */
  lemma FeedRound(start: seq<seq<int>>, rounds: seq<seq<int>>, n: int, before: seq<seq<int>>, after: seq<seq<int>>)
    requires |start| == |before| == |after| == NUM_SENSORS && 0 <= n < |rounds|
    requires forall k :: 0 <= k < |rounds| ==> |rounds[k]| == NUM_SENSORS
    requires forall i :: 0 <= i < NUM_SENSORS ==> |start[i]| > 0 && |before[i]| == |start[i]|
    requires forall i :: 0 <= i < NUM_SENSORS ==> before[i] == Feed(start[i], Column(rounds[..n], i))
    requires forall i :: 0 <= i < NUM_SENSORS ==> after[i] == before[i][1..] + [rounds[n][i]]
    ensures forall i :: 0 <= i < NUM_SENSORS ==> after[i] == Feed(start[i], Column(rounds[..n + 1], i))
  {
    forall i | 0 <= i < NUM_SENSORS
      ensures after[i] == Feed(start[i], Column(rounds[..n + 1], i))
    {
      var xs, x := Column(rounds[..n], i), rounds[n][i];
      assert Column(rounds[..n + 1], i) == xs + [x];
      FeedSnoc(start[i], xs, x);
    }
  }

  /** The longest of the windows is 32 samples. */
  lemma LongestIsThirtyTwo(max: int)
    requires max in WINDOWS
    ensures max == ROUNDS
  {
  }

  /** After 32 rounds every window holds exactly its sensor's readings of those rounds. */
  lemma AllRounds(start: seq<seq<int>>, rounds: seq<seq<int>>, after: seq<seq<int>>)
    requires |start| == |after| == NUM_SENSORS && |rounds| == ROUNDS
    requires forall n :: 0 <= n < |rounds| ==> |rounds[n]| == NUM_SENSORS
    requires forall i :: 0 <= i < NUM_SENSORS ==> |start[i]| == ROUNDS
    requires forall i :: 0 <= i < NUM_SENSORS ==> after[i] == Feed(start[i], Column(rounds, i))
    ensures forall i :: 0 <= i < NUM_SENSORS ==> after[i] == Column(rounds, i)
  {
    forall i | 0 <= i < NUM_SENSORS
      ensures after[i] == Column(rounds, i)
    {
      FeedLatest(start[i], Column(rounds, i));
      assert Column(rounds, i)[0..] == Column(rounds, i);
    }
  }

  // ---------------------------------------------------------------------------
  // Command table

  /** What the getters report: bus voltages and VCC in mV, channel levels 0 or 1. */
  datatype Telemetry = Telemetry(v48: int, v12: int, vcc: int, chPi: int, ch5V: int, chGpio: int, ch12V: int)

  const READ_KEYS: set<string> := {"RV48", "RV12", "RVCC", "RCPI", "RC5V", "RCGP", "RC12V"}
  const WRITE_KEYS: set<string> := {"WCPI", "WC5V", "WCGP", "WC12V"}

  /** Read keys start with `R`, write keys with `WC`. */
  lemma KeyClasses(command: string)
    ensures command in READ_KEYS ==> |command| >= 4 && command[0] == 'R'
    ensures command in WRITE_KEYS ==> |command| >= 4 && command[0] == 'W' && command[1] == 'C'
  {
  }

  /** The getter a read key reports. */
  function ReadValue(key: string, t: Telemetry): int
    requires key in READ_KEYS
  {
    if key == "RV48" then t.v48
    else if key == "RV12" then t.v12
    else if key == "RVCC" then t.vcc
    else if key == "RCPI" then t.chPi
    else if key == "RC5V" then t.ch5V
    else if key == "RCGP" then t.chGpio
    else t.ch12V
  }

  /** The channel a write key switches. */
  function ChannelOfKey(key: string): (k: int)
    requires key in WRITE_KEYS
    ensures 0 <= k < NUM_CHANNELS && key == ["WCPI", "WC5V", "WCGP", "WC12V"][k]
  {
    if key == "WCPI" then CH_PI else if key == "WC5V" then CH_5V else if key == "WCGP" then CH_GPIO else CH_12V
  }

  /**
   * The reply `interpretRXCommand` writes: a read key is answered with its
   * getter; a write key with the channel's level read back after switching it,
   * which is on exactly for a non-zero value; anything else gets no reply.
   */
  function Reply(command: string, value: Option<string>, t: Telemetry): Option<string>
    requires command in WRITE_KEYS ==> value.Some?
  {
    if command in READ_KEYS then Some(ReadReply(command, ReadValue(command, t)))
    else if command in WRITE_KEYS then Some(WriteAck(command, Level(Atoi(value.value) != 0)))
    else None
  }

  /** Exactly the built-in keys are answered; every other command goes to the callbacks. */
  lemma ReplyAnswersKeys(command: string, value: Option<string>, t: Telemetry)
    requires command in WRITE_KEYS ==> value.Some?
    ensures Reply(command, value, t).Some? <==> command in READ_KEYS || command in WRITE_KEYS
  {
  }

  /** `RV48` is answered `WV48:<mV>` and `RC12V` is answered `WC12V:<level>`. */
  lemma ReadReplyText(value: Option<string>, t: Telemetry)
    ensures Reply("RV48", value, t) == Some("WV48:" + Decimal(t.v48))
    ensures Reply("RC12V", value, t) == Some("WC12V:" + Decimal(t.ch12V))
  {
    assert "W" + "RV48"[1..] == "WV48";
    assert "WV48" + ":" + "" + Decimal(t.v48) == "WV48:" + Decimal(t.v48);
    assert "W" + "RC12V"[1..] == "WC12V";
    assert "WC12V" + ":" + "" + Decimal(t.ch12V) == "WC12V:" + Decimal(t.ch12V);
  }

  /** A write key is answered `<key>:=1` or `<key>:=0` as its value parses non-zero or not. */
  lemma WriteReplyText(command: string, value: Option<string>, t: Telemetry)
    requires command in WRITE_KEYS && value.Some?
    ensures Reply(command, value, t) == Some(command + ":=" + (if Atoi(value.value) != 0 then "1" else "0"))
  {
    KeyClasses(command);
    assert command !in READ_KEYS;
    var n := Level(Atoi(value.value) != 0);
    assert Reply(command, value, t) == Some(command + ":" + "=" + Decimal(n));
    assert Decimal(n) == if n == 1 then "1" else "0";
    assert command + ":" + "=" + Decimal(n) == command + ":=" + Decimal(n);
  }

  class PiSupply {
    const sensors: SensorBank
    const comm: PicroBoard
    var vcc: int
    /** The level of each output pin, `true` for HIGH, in channel order. */
    var pins: seq<bool>

    ghost predicate Valid()
      reads this, sensors, sensors.past
    {
      sensors.Valid() && sensors.windows == WINDOWS && |pins| == NUM_CHANNELS
    }

    /** What the getters report: `getV48`, `getV12`, `getVCC` and `getChPi`..`getCh12V`. */
    function Readings(): Telemetry
      reads this, sensors
      requires |sensors.averages| == NUM_SENSORS && |pins| == NUM_CHANNELS
    {
      var avg := sensors.averages;
      Telemetry(Raw2mV(avg[V48_INDEX], vcc), Int16(Raw2mV(avg[V12_INDEX], vcc)), vcc,
                Level(On(pins, CH_PI)), Level(On(pins, CH_5V)), Level(On(pins, CH_GPIO)), Level(On(pins, CH_12V)))
    }

    /** A board object as declared: zeroed sensors, VCC 0 and the outputs at the given levels. */
    constructor (levels: seq<bool>)
      requires |levels| == NUM_CHANNELS
      ensures Valid() && comm.Valid() && fresh(sensors) && fresh(comm.Repr())
      ensures forall i :: 0 <= i < NUM_SENSORS ==> fresh(sensors.past[i])
      ensures sensors.averages == Zeros(NUM_SENSORS) && vcc == 0 && pins == levels
    {
      sensors := new SensorBank(WINDOWS);
      comm := new PicroBoard();
      vcc := 0;
      pins := levels;
    }

    // -------------------------------------------------------------------------
    // Channels

    /**
     * `setChPi`, `setCh5V`, `setChGPIO` and `setCh12V` (`k` = 0..3): the pin
     * is written so that the channel is on exactly for a non-zero state.
     */
    method SetChannel(k: int, state: int)
      requires Valid() && 0 <= k < NUM_CHANNELS
      modifies this
      ensures Valid()
      ensures pins == old(pins)[k := PinLevel(k, state)]
      ensures On(pins, k) <==> state != 0
      ensures vcc == old(vcc)
    {
      if k == CH_12V {
        pins := pins[k := state != 0];
      } else {
        pins := pins[k := !(state != 0)];
      }
      SetThenGet(old(pins), k, state);
    }

    /** `getChPi`, `getCh5V`, `getChGPIO` and `getCh12V` (`k` = 0..3): 1 when the channel is on. */
    method GetChannel(k: int) returns (level: int)
      requires Valid() && 0 <= k < NUM_CHANNELS
      ensures level == Level(On(pins, k)) && (level == 1 <==> On(pins, k)) && (level == 0 <==> !On(pins, k))
    {
      if k == CH_12V {
        level := if pins[k] then 1 else 0;
      } else {
        level := if !pins[k] then 1 else 0;
      }
    }

    /** `shutdownOutputChannels`: every output but the Pi's own supply off; the Pi keeps its level. */
    method ShutdownOutputChannels()
      requires Valid()
      modifies this
      ensures Valid()
      ensures pins == [old(pins[CH_PI]), PinLevel(CH_5V, 0), PinLevel(CH_GPIO, 0), PinLevel(CH_12V, 0)]
      ensures On(pins, CH_PI) == old(On(pins, CH_PI))
      ensures forall k :: CH_5V <= k < NUM_CHANNELS ==> !On(pins, k)
      ensures vcc == old(vcc)
    {
      SetChannel(CH_5V, 0);
      SetChannel(CH_GPIO, 0);
      SetChannel(CH_12V, 0);
      ShutdownLevels(old(pins[CH_PI]));
    }

    /** `shutdownAllChannels`: every output off, the Pi's supply included. */
    method ShutdownAllChannels()
      requires Valid()
      modifies this
      ensures Valid()
      ensures pins == [true, true, true, false]
      ensures forall k :: 0 <= k < NUM_CHANNELS ==> !On(pins, k)
      ensures vcc == old(vcc)
    {
      SetChannel(CH_PI, 0);
      SetChannel(CH_5V, 0);
      SetChannel(CH_GPIO, 0);
      SetChannel(CH_12V, 0);
      ShutdownLevels(true);
    }

    // -------------------------------------------------------------------------
    // Sensors

    /**
     * `updateVCC` over four `readVCC()` results: their truncated mean, with no
     * USB correction (this board runs from its own 5 V supply).
     */
    method UpdateVCC(readings: seq<int>)
      requires Valid() && |readings| == VCC_AVERAGE_LENGTH
      modifies this
      ensures Valid()
      ensures vcc == Mean(readings)
      ensures pins == old(pins)
    {
      vcc := MeanOf(readings);
    }

    /** `updateSensorRaw`: the moving-average update of one sensor; any other index changes nothing. */
    method UpdateSensorRaw(index: int, sample: int)
      requires Valid()
      modifies sensors, sensors.past
      ensures Valid()
      ensures sensors.Windows() == Pushed(old(sensors.Windows()), index, sample)
      ensures forall j :: 0 <= j < NUM_SENSORS && j != index ==> sensors.averages[j] == old(sensors.averages[j])
      ensures !(0 <= index < NUM_SENSORS) ==> sensors.averages == old(sensors.averages)
    {
      sensors.Update(index, sample);
    }

    /** `updateVSensors` with the 48 V and 12 V bus readings. */
    method UpdateVSensors(v48: int, v12: int)
      requires Valid()
      modifies sensors, sensors.past
      ensures Valid()
      ensures sensors.Windows() == VPushed(old(sensors.Windows()), v48, v12)
    {
      UpdateSensorRaw(V48_INDEX, v48);
      UpdateSensorRaw(V12_INDEX, v12);
    }

    /** `updateASensor(sensor)`: the reading of GPIO pin 0, 1, 6 or 7 goes to that pin's sensor; any other pin is ignored. */
    method UpdateASensor(sensor: int, sample: int)
      requires Valid()
      modifies sensors, sensors.past
      ensures Valid()
      ensures AnalogIndex(sensor).Some? ==> sensors.Windows() == Pushed(old(sensors.Windows()), AnalogIndex(sensor).value, sample)
      ensures AnalogIndex(sensor).None? ==> sensors.Windows() == old(sensors.Windows()) && sensors.averages == old(sensors.averages)
    {
      if sensor == 0 {
        UpdateSensorRaw(A0_INDEX, sample);
      } else if sensor == 1 {
        UpdateSensorRaw(A1_INDEX, sample);
      } else if sensor == 6 {
        UpdateSensorRaw(A6_INDEX, sample);
      } else if sensor == 7 {
        UpdateSensorRaw(A7_INDEX, sample);
      }
    }

    /** `updateASensors` with the readings of pins 0, 1, 6 and 7. */
    method UpdateASensors(a0: int, a1: int, a6: int, a7: int)
      requires Valid()
      modifies sensors, sensors.past
      ensures Valid()
      ensures sensors.Windows() == APushed(old(sensors.Windows()), a0, a1, a6, a7)
    {
      UpdateASensor(0, a0);
      UpdateASensor(1, a1);
      UpdateASensor(6, a6);
      UpdateASensor(7, a7);
    }

    /** `updateSensors` with one reading per sensor, in sensor order: each window is fed its own reading. */
    method UpdateSensors(readings: seq<int>)
      requires Valid() && |readings| == NUM_SENSORS
      modifies sensors, sensors.past
      ensures Valid()
      ensures forall i :: 0 <= i < NUM_SENSORS ==> sensors.Windows()[i] == old(sensors.Windows())[i][1..] + [readings[i]]
    {
      ghost var start := sensors.Windows();
      UpdateVSensors(readings[V48_INDEX], readings[V12_INDEX]);
      UpdateASensors(readings[A0_INDEX], readings[A1_INDEX], readings[A6_INDEX], readings[A7_INDEX]);
      RoundOfUpdates(start, readings);
    }

    /** The loop of `initializeSensors`: one `updateSensors` per round. */
    method UpdateRounds(rounds: seq<seq<int>>)
      requires Valid()
      requires forall n :: 0 <= n < |rounds| ==> |rounds[n]| == NUM_SENSORS
      modifies sensors, sensors.past
      ensures Valid()
      ensures forall i :: 0 <= i < NUM_SENSORS ==> sensors.Windows()[i] == Feed(old(sensors.Windows())[i], Column(rounds, i))
    {
      ghost var start := sensors.Windows();
      var n := 0;
      while n < |rounds|
        invariant 0 <= n <= |rounds| && Valid()
        invariant forall i :: 0 <= i < NUM_SENSORS ==> sensors.Windows()[i] == Feed(start[i], Column(rounds[..n], i))
      {
        ghost var before := sensors.Windows();
        UpdateSensors(rounds[n]);
        FeedRound(start, rounds, n, before, sensors.Windows());
        n := n + 1;
      }
      assert rounds[..n] == rounds;
    }

    /**
     * `initializeSensors()`: VCC is measured, then 32 rounds of `updateSensors`
     * run, so that each window holds exactly its sensor's readings of this call
     * and each average is their truncated mean.
     */
    method InitializeSensors(vccReadings: seq<int>, rounds: seq<seq<int>>)
      requires Valid() && |vccReadings| == VCC_AVERAGE_LENGTH && |rounds| == ROUNDS
      requires forall n :: 0 <= n < |rounds| ==> |rounds[n]| == NUM_SENSORS
      modifies this, sensors, sensors.past
      ensures Valid()
      ensures vcc == Mean(vccReadings)
      ensures forall i :: 0 <= i < NUM_SENSORS ==> sensors.Windows()[i] == Column(rounds, i)
      ensures forall i :: 0 <= i < NUM_SENSORS ==> sensors.averages[i] == TruncDiv(Sum(Column(rounds, i)), ROUNDS)
      ensures pins == old(pins)
    {
      UpdateVCC(vccReadings);
      var max := LongestWindow(WINDOWS);
      LongestIsThirtyTwo(max);
      ghost var start := sensors.Windows();
      assert rounds[..max] == rounds;
      UpdateRounds(rounds[..max]);
      AllRounds(start, rounds, sensors.Windows());
      forall i | 0 <= i < NUM_SENSORS
        ensures sensors.averages[i] == TruncDiv(Sum(Column(rounds, i)), ROUNDS)
      {
        sensors.AverageIsWindowMean(i);
      }
    }

    /**
     * `initialize`: the outputs other than the Pi's own supply off, then the
     * sensors initialised.
     */
    method Initialize(vccReadings: seq<int>, rounds: seq<seq<int>>)
      requires Valid() && |vccReadings| == VCC_AVERAGE_LENGTH && |rounds| == ROUNDS
      requires forall n :: 0 <= n < |rounds| ==> |rounds[n]| == NUM_SENSORS
      modifies this, sensors, sensors.past
      ensures Valid()
      ensures pins == [old(pins[CH_PI]), PinLevel(CH_5V, 0), PinLevel(CH_GPIO, 0), PinLevel(CH_12V, 0)]
      ensures vcc == Mean(vccReadings)
      ensures forall i :: 0 <= i < NUM_SENSORS ==> sensors.Windows()[i] == Column(rounds, i)
    {
      ShutdownOutputChannels();
      InitializeSensors(vccReadings, rounds);
    }

    /** `getRawAnalog(analogInd)` for pin 0, 1, 6 or 7 (any other pin returns nothing defined). */
    function RawAnalog(analogInd: int): (raw: int)
      reads this, sensors
      requires |sensors.averages| == NUM_SENSORS && AnalogIndex(analogInd).Some?
    {
      sensors.averages[AnalogIndex(analogInd).value]
    }

    /**
     * `getAnalog(analogInd)`: the pin's averaged voltage in mV, raw·VCC/1024,
     * which for a 10-bit average and a non-negative VCC lies in 0..VCC.
     */
    function Analog(analogInd: int): (mV: int)
      reads this, sensors
      requires |sensors.averages| == NUM_SENSORS && AnalogIndex(analogInd).Some?
      ensures 0 <= RawAnalog(analogInd) <= 1023 && vcc >= 0 ==> 0 <= mV < vcc || mV == 0
    {
      var raw := RawAnalog(analogInd);
      if 0 <= raw <= 1023 && vcc >= 0 then AdcBounds(raw, vcc); Raw2mVADC(raw, vcc) else Raw2mVADC(raw, vcc)
    }

    // -------------------------------------------------------------------------
    // Commands

    /**
     * `interpretRXCommand(command, value, protocol)`: a built-in key is answered
     * on the transport it came from, a write key first switching its channel;
     * any other command is handed to every registered callback, in order, and
     * gets no reply. `strcmp` on a missing command and `atoi` on a missing
     * value are undefined, so both are required.
     */
    method InterpretRXCommand(line: SplitLine, protocol: int)
      requires Valid() && comm.Valid() && line.command.Some?
      requires line.command.value in WRITE_KEYS ==> line.value.Some?
      requires line.command.value in READ_KEYS || line.command.value in WRITE_KEYS ==>
        protocol == UART_INDEX || protocol == I2C_INDEX
      modifies this, comm
      ensures Valid() && comm.Valid()
      ensures var reply := Reply(line.command.value, line.value, old(Readings()));
        && (reply.Some? ==> comm.Answered(protocol, reply.value, old(comm.serialOut), old(comm.txUart), old(comm.txI2c), old(comm.invocations)))
        && (reply.None? ==> comm.Forwarded(line, protocol, old(comm.serialOut), old(comm.txUart), old(comm.txI2c), old(comm.invocations)))
      ensures pins == if line.command.value in WRITE_KEYS
        then old(pins)[ChannelOfKey(line.command.value) := PinLevel(ChannelOfKey(line.command.value), Atoi(line.value.value))]
        else old(pins)
      ensures line.command.value in WRITE_KEYS ==>
        (On(pins, ChannelOfKey(line.command.value)) <==> Atoi(line.value.value) != 0)
      ensures vcc == old(vcc)
      ensures comm.wireOut == old(comm.wireOut) && comm.callbacksEnd == old(comm.callbacksEnd)
    {
      var command := line.command.value;
      var reply := Reply(command, line.value, Readings());
      comm.Respond(reply, line, protocol);
      if command in WRITE_KEYS {
        SetChannel(ChannelOfKey(command), Atoi(line.value.value));
      }
    }
  }

  /** raw·VCC/1024 for a 10-bit reading lies below VCC (or is 0). */
  lemma AdcBounds(raw: int, vcc: int)
    requires 0 <= raw <= 1023 && vcc >= 0
    ensures 0 <= Raw2mVADC(raw, vcc) && (Raw2mVADC(raw, vcc) < vcc || Raw2mVADC(raw, vcc) == 0)
  {
    MulMonotone(raw, 1023, vcc, vcc);
    assert raw * vcc <= 1023 * vcc;
    TruncDivNonNegative(raw * vcc, 1024);
  }
}
