/**
 * `AtverterH` of the first Atverter library: six averaged sensors kept in a
 * two-dimensional `_sensorPast[row][sensor]` array whose averaging loop copies
 * forward, the duty cycle, the bootstrap refresh counter, the VCC average, and
 * current protection around the 512-count midpoint of the current sensors.
 *
 * The ADC, `readVCC()` and the pins are not modelled: readings are method
 * parameters and the GATESD protection latch is the boolean `gateShutdown`.
 */
module LegacyAtverter {
  import opened CArith
  import opened MovingAverage
  import opened Conversions
  import opened AtverterControl
  import AtverterBoard

  /** Rows of `_sensorPast`: `AVGWIN`, the longest averaging window. */
  const AVGWIN := 10
  /** Sensor columns, in the order of the newer library's `SensorIndex`. */
  const V1_INDEX := 0
  const V2_INDEX := 1
  const I1_INDEX := 2
  const I2_INDEX := 3
  const T1_INDEX := 4
  const T2_INDEX := 5
  const NUM_SENSORS := 6
  /** Largest 10-bit ADC reading. */
  const ADC_MAX := 1023
  /** Raw reading of a current sensor at zero current (half of VCC). */
  const MIDPOINT := 512

  // ---------------------------------------------------------------------------
  // The copy-forward averaging loop

  /**
   * A sensor's column after `updateSensorRaw(index, sample)` with window `w`:
   * rows 1 to `w-1` each take row 0's previous sample, because the loop copies
   * row `n-1` into row `n` with `n` counting up; row 0 takes the sample and rows
   * from `w` on are kept.
   */
  function CopyLoop(col: seq<int>, w: int, sample: int): (r: seq<int>)
    requires |col| > 0
    ensures |r| == |col| && r[0] == sample
  {
    seq(|col|, k requires 0 <= k < |col| => if k == 0 then sample else if k < w then col[0] else col[k])
  }

  /** The average `updateSensorRaw` stores: the new sample plus `w-1` copies of the previous one, over `w`. */
  function CopyLoopAverage(previous: int, w: int, sample: int): int
    requires w >= 1
  {
    (sample + (w - 1) * previous) / w
  }

  /** A column fed the samples in order, one `updateSensorRaw` each. */
  function Fed(col: seq<int>, w: int, samples: seq<int>): (r: seq<int>)
    requires |col| > 0
    ensures |r| == |col|
  {
    if samples == [] then col
    else CopyLoop(Fed(col, w, samples[..|samples| - 1]), w, samples[|samples| - 1])
  }

  /** A sequence whose head is `x` and whose other entries are all `p` sums to `x + (|s|-1)·p`. */
  lemma {:induction false} SumHeadThenRepeated(s: seq<int>, x: int, p: int)
    requires |s| >= 1 && s[0] == x
    requires forall k :: 1 <= k < |s| ==> s[k] == p
    ensures Sum(s) == x + (|s| - 1) * p
  {
    if |s| > 1 {
      SumHeadThenRepeated(s[..|s| - 1], x, p);
    } else {
      assert s[..0] == [];
    }
  }

  /**
   * The accumulator of the copy loop is the sum of the `w` rows it leaves
   * behind, so the stored average is the truncated mean of the stored window.
   */
  lemma CopyLoopWindowSum(col: seq<int>, w: int, sample: int)
    requires 1 <= w <= |col|
    ensures Sum(CopyLoop(col, w, sample)[..w]) == sample + (w - 1) * col[0]
    ensures w >= 1 ==> CopyLoopAverage(col[0], w, sample) == Sum(CopyLoop(col, w, sample)[..w]) / w
  {
    SumHeadThenRepeated(CopyLoop(col, w, sample)[..w], sample, col[0]);
  }

  /**
   * The stored window only ever holds the last two samples: after any two
   * updates its first `w` rows are the newest sample followed by `w-1` copies
   * of the one before, whatever the column held earlier.
   */
  lemma CopyLoopForgets(col: seq<int>, w: int, a: int, b: int)
    requires 1 <= w <= |col|
    ensures var r := CopyLoop(CopyLoop(col, w, a), w, b);
      r[0] == b && forall k :: 1 <= k < w ==> r[k] == a
    ensures Sum(CopyLoop(CopyLoop(col, w, a), w, b)[..w]) / w == CopyLoopAverage(a, w, b)
  {
    CopyLoopWindowSum(CopyLoop(col, w, a), w, b);
  }

  /** A steady reading averages to itself. */
  lemma SteadyAverage(r: int, w: int)
    requires w >= 1
    ensures CopyLoopAverage(r, w, r) == r
  {
    var p := w * r;
    assert r + (w - 1) * r == p;
    var q, m := p / w, p % w;
    assert p == q * w + m && 0 <= m < w;
    assert (r - q) * w == m;
    MulCancel(1, r - q, w);
    MulCancel(0, r - q, w);
  }

  /**
   * The loop is not the intended moving average: on window 4 with the column
   * `0, 8, 8, 8` (newest first) a new sample 0 gives the average 0, while the
   * shift the newer library's ring buffer performs keeps `0, 0, 8, 8`, whose
   * mean is 4.
   */
  lemma CopyLoopIsNotAShift()
    ensures CopyLoopAverage(0, 4, 0) == 0 && Sum(CopyLoop([0, 8, 8, 8], 4, 0)) / 4 == 0
    ensures Sum(Shifted([0, 8, 8, 8], 4, 0)) / 4 == 4
  {
    CopiedWindow();
    ShiftedWindow();
  }

  lemma CopiedWindow()
    ensures Sum(CopyLoop([0, 8, 8, 8], 4, 0)) == 0
  {
    var copied := CopyLoop([0, 8, 8, 8], 4, 0);
    assert copied == [0, 0, 0, 0] by {
      assert copied[1] == 0 && copied[2] == 0 && copied[3] == 0;
    }
    SumOfFour(0, 0, 0, 0);
  }

  lemma ShiftedWindow()
    ensures Sum(Shifted([0, 8, 8, 8], 4, 0)) == 16
  {
    var shifted := Shifted([0, 8, 8, 8], 4, 0);
    assert shifted == [0, 0, 8, 8] by {
      assert shifted[1] == 0 && shifted[2] == 8 && shifted[3] == 8;
    }
    SumOfFour(0, 0, 8, 8);
  }

  lemma SumOfFour(a: int, b: int, c: int, d: int)
    ensures Sum([a, b, c, d]) == a + b + c + d
  {
    assert [a][..0] == [];
    assert Sum([a]) == a;
    assert [a, b][..1] == [a];
    assert Sum([a, b]) == a + b;
    assert [a, b, c][..2] == [a, b];
    assert Sum([a, b, c]) == a + b + c;
    assert [a, b, c, d][..3] == [a, b, c];
  }

  /**
   * `initializeSensors(w)` feeds `w` readings to each sensor: for `w >= 2` the
   * resulting average is the last reading plus `w-1` copies of the one before,
   * over `w`; a sensor that read the same value every time averages to it.
   */
  lemma {:induction false} InitializedWindow(col: seq<int>, w: int, samples: seq<int>)
    requires 1 <= w <= |col| && |samples| == w
    ensures w >= 2 ==> Sum(Fed(col, w, samples)[..w]) / w == CopyLoopAverage(samples[w - 2], w, samples[w - 1])
    ensures w == 1 ==> Sum(Fed(col, w, samples)[..w]) / w == samples[0]
    ensures (forall k :: 0 <= k < w ==> samples[k] == samples[0]) ==> Sum(Fed(col, w, samples)[..w]) / w == samples[0]
  {
    var before := Fed(col, w, samples[..w - 1]);
    assert Fed(col, w, samples) == CopyLoop(before, w, samples[w - 1]);
    CopyLoopWindowSum(before, w, samples[w - 1]);
    if w >= 2 {
      var s := samples[..w - 1];
      assert s[..|s| - 1] == samples[..w - 2];
      assert before == CopyLoop(Fed(col, w, samples[..w - 2]), w, samples[w - 2]);
      assert before[0] == samples[w - 2];
      if forall k :: 0 <= k < w ==> samples[k] == samples[0] {
        SteadyAverage(samples[0], w);
      }
    } else {
      assert CopyLoopAverage(before[0], 1, samples[0]) == samples[0];
    }
  }

  /** Column `i` of some readings, one per `initializeSensors` round. */
  function Samples(readings: seq<seq<int>>, i: int): (s: seq<int>)
    requires forall n :: 0 <= n < |readings| ==> |readings[n]| == NUM_SENSORS
    requires 0 <= i < NUM_SENSORS
    ensures |s| == |readings| && forall n :: 0 <= n < |readings| ==> s[n] == readings[n][i]
  {
    seq(|readings|, n requires 0 <= n < |readings| => readings[n][i])
  }

  /** One more round of readings feeds each column one more sample. */
  lemma FedRound(start: seq<seq<int>>, w: int, readings: seq<seq<int>>, n: int, before: seq<seq<int>>, after: seq<seq<int>>)
    requires |start| == |before| == |after| == NUM_SENSORS && 0 <= n < |readings|
    requires forall m :: 0 <= m < |readings| ==> |readings[m]| == NUM_SENSORS
    requires forall i :: 0 <= i < NUM_SENSORS ==> |start[i]| > 0
    requires forall i :: 0 <= i < NUM_SENSORS ==> before[i] == Fed(start[i], w, Samples(readings[..n], i))
    requires forall i :: 0 <= i < NUM_SENSORS ==> |before[i]| > 0 && after[i] == CopyLoop(before[i], w, readings[n][i])
    ensures forall i :: 0 <= i < NUM_SENSORS ==> after[i] == Fed(start[i], w, Samples(readings[..n + 1], i))
  {
    forall i | 0 <= i < NUM_SENSORS
      ensures after[i] == Fed(start[i], w, Samples(readings[..n + 1], i))
    {
      var s := Samples(readings[..n + 1], i);
      assert s[..n] == Samples(readings[..n], i);
    }
  }

  // ---------------------------------------------------------------------------
  // Protection rule

  /** `checkCurrentShutdown`: a current average strictly outside [512 - limit, 512 + limit]. */
  predicate MidpointOverCurrent(i1: int, i2: int, limit: int)
  {
    i1 > MIDPOINT + limit || i1 < MIDPOINT - limit || i2 > MIDPOINT + limit || i2 < MIDPOINT - limit
  }

  /**
   * The midpoint check is the newer library's check on readings centred by
   * subtracting 512, with one limit for both terminals; for a limit set from a
   * non-negative current it trips exactly on the currents, at VCC = 5000 mV
   * before rounding, beyond that current in either direction.
   */
  lemma MidpointOverCurrentInMilliamps(i1: int, i2: int, mA: int)
    requires mA >= 0
    ensures MidpointOverCurrent(i1, i2, CurrentLimitRaw(mA)) <==>
      AtverterBoard.OverCurrent(i1 - MIDPOINT, i2 - MIDPOINT, CurrentLimitRaw(mA), CurrentLimitRaw(mA))
    ensures MidpointOverCurrent(i1, i2, CurrentLimitRaw(mA)) <==>
      (i1 - MIDPOINT) * 1875 > mA * 128 || (i1 - MIDPOINT) * 1875 < -(mA * 128)
      || (i2 - MIDPOINT) * 1875 > mA * 128 || (i2 - MIDPOINT) * 1875 < -(mA * 128)
  {
    AtverterBoard.OverCurrentInMilliamps(i1 - MIDPOINT, i2 - MIDPOINT, mA, mA);
  }

  /**
   * The midpoint conversions are the zero-centred ones shifted by 512 counts,
   * so a 10-bit reading converted to mA and back moves at most two counts
   * toward the midpoint.
   */
  lemma LegacyMA2RawRoundTrip(raw: int, vcc: int)
    requires 0 <= raw <= ADC_MAX && 342 <= vcc
    ensures raw >= MIDPOINT ==> raw - 2 <= LegacyMA2Raw(LegacyRaw2mA(raw, vcc), vcc) <= raw
    ensures raw <= MIDPOINT ==> raw <= LegacyMA2Raw(LegacyRaw2mA(raw, vcc), vcc) <= raw + 2
  {
    MA2RawRoundTrip(raw - MIDPOINT, vcc);
  }

  /** The scalar state of the board. */
  datatype Scalars = Scalars(averageWindow: int, dutyCycle: int, bootstrapCounter: int, bootstrapCounterMax: int,
                             vcc: int, currentLimitRaw: int, thermalLimitC: int, gateShutdown: bool)

  class Atverter {
    /** `_sensorPast[row][sensor]`: row 0 holds each sensor's newest sample. */
    const sensorPast: array2<int>
    /** `_sensorAverages`. */
    const sensorAverages: array<int>
    var averageWindow: int
    var dutyCycle: int
    var bootstrapCounter: int
    var bootstrapCounterMax: int
    var vcc: int
    var currentLimitRaw: int
    var thermalLimitC: int
    /** Whether the GATESD protection latch holds the gate drivers off. */
    var gateShutdown: bool

    /** Array shapes, a window no longer than the rows and a duty cycle within [1, 99]. */
    ghost predicate Valid()
      reads this, sensorPast
    {
      && sensorPast.Length0 == AVGWIN && sensorPast.Length1 == NUM_SENSORS
      && sensorAverages.Length == NUM_SENSORS
      && 0 <= averageWindow <= AVGWIN
      && 1 <= dutyCycle <= 99
    }

    /** Sensor `i`'s rows, newest first. */
    ghost function Column(i: int): (c: seq<int>)
      reads sensorPast
      requires sensorPast.Length1 == NUM_SENSORS && 0 <= i < NUM_SENSORS
      ensures |c| == sensorPast.Length0
    {
      seq(sensorPast.Length0, k requires 0 <= k < sensorPast.Length0 reads sensorPast => sensorPast[k, i])
    }

    /** Every sensor's column, in sensor order. */
    ghost function Columns(): (c: seq<seq<int>>)
      reads sensorPast
      requires sensorPast.Length1 == NUM_SENSORS
      ensures |c| == NUM_SENSORS && forall i :: 0 <= i < NUM_SENSORS ==> c[i] == Column(i)
    {
      seq(NUM_SENSORS, i requires 0 <= i < NUM_SENSORS reads sensorPast => Column(i))
    }

    ghost function State(): Scalars
      reads this
    {
      Scalars(averageWindow, dutyCycle, bootstrapCounter, bootstrapCounterMax, vcc, currentLimitRaw,
              thermalLimitC, gateShutdown)
    }

    /** A board object before `initializeSensors`: zeroed arrays, no window yet, duty cycle 50. */
    constructor (latched: bool)
      ensures Valid() && fresh(sensorPast) && fresh(sensorAverages)
      ensures State() == Scalars(0, 50, 0, 0, 0, 0, 0, latched)
      ensures forall i :: 0 <= i < NUM_SENSORS ==> Column(i) == Zeros(AVGWIN) && sensorAverages[i] == 0
    {
      sensorPast := new int[AVGWIN, NUM_SENSORS]((k, j) => 0);
      sensorAverages := new int[NUM_SENSORS](_ => 0);
      averageWindow, dutyCycle := 0, 50;
      bootstrapCounter, bootstrapCounterMax := 0, 0;
      vcc, currentLimitRaw, thermalLimitC := 0, 0, 0;
      gateShutdown := latched;
    }

    // -------------------------------------------------------------------------
    // Sensors

    /**
     * `updateSensorRaw(index, sample)`: the copy-forward loop over the window's
     * rows, then the sample into row 0 and the truncated mean into the average.
     */
    method UpdateSensorRaw(index: int, sample: int)
      requires Valid() && 0 <= index < NUM_SENSORS && averageWindow >= 1
      modifies sensorPast, sensorAverages
      ensures Valid()
      ensures Column(index) == CopyLoop(old(Column(index)), averageWindow, sample)
      ensures forall j :: 0 <= j < NUM_SENSORS && j != index ==> Column(j) == old(Column(j))
      ensures sensorAverages[..] ==
        old(sensorAverages[..])[index := CopyLoopAverage(old(sensorPast[0, index]), averageWindow, sample)]
      ensures sensorAverages[index] == Sum(Column(index)[..averageWindow]) / averageWindow
    {
      ghost var before := Column(index);
      assert before[0] == sensorPast[0, index];
      var accumulator := sample;
      var n := 1;
      while n < averageWindow
        invariant 1 <= n <= averageWindow
        invariant accumulator == sample + (n - 1) * before[0]
        invariant forall k :: 1 <= k < n ==> sensorPast[k, index] == before[0]
        invariant forall k, j :: 0 <= k < AVGWIN && 0 <= j < NUM_SENSORS && (j != index || k == 0 || k >= n) ==>
          sensorPast[k, j] == old(sensorPast[k, j])
        invariant sensorAverages[..] == old(sensorAverages[..])
      {
        sensorPast[n, index] := sensorPast[n - 1, index];
        accumulator := accumulator + sensorPast[n, index];
        n := n + 1;
      }
      sensorPast[0, index] := sample;
      sensorAverages[index] := accumulator / averageWindow;
      assert sensorAverages[..] == old(sensorAverages[..])[index := accumulator / averageWindow];
      assert Column(index) == CopyLoop(before, averageWindow, sample);
      forall j | 0 <= j < NUM_SENSORS && j != index
        ensures Column(j) == old(Column(j))
      {
        assert forall k :: 0 <= k < AVGWIN ==> Column(j)[k] == old(Column(j))[k];
      }
      CopyLoopWindowSum(before, averageWindow, sample);
    }

    /** `updateVISensors` with the four ADC readings. */
    method UpdateVISensors(v1: int, v2: int, i1: int, i2: int)
      requires Valid() && averageWindow >= 1
      modifies sensorPast, sensorAverages
      ensures Valid()
      ensures Column(V1_INDEX) == CopyLoop(old(Column(V1_INDEX)), averageWindow, v1)
      ensures Column(V2_INDEX) == CopyLoop(old(Column(V2_INDEX)), averageWindow, v2)
      ensures Column(I1_INDEX) == CopyLoop(old(Column(I1_INDEX)), averageWindow, i1)
      ensures Column(I2_INDEX) == CopyLoop(old(Column(I2_INDEX)), averageWindow, i2)
      ensures forall j :: T1_INDEX <= j < NUM_SENSORS ==> Column(j) == old(Column(j)) && sensorAverages[j] == old(sensorAverages[j])
      ensures forall j :: 0 <= j < T1_INDEX ==> sensorAverages[j] == Sum(Column(j)[..averageWindow]) / averageWindow
    {
      UpdateSensorRaw(V1_INDEX, v1);
      UpdateSensorRaw(V2_INDEX, v2);
      UpdateSensorRaw(I1_INDEX, i1);
      UpdateSensorRaw(I2_INDEX, i2);
    }

    /** `updateTSensors` with the two thermistor readings. */
    method UpdateTSensors(t1: int, t2: int)
      requires Valid() && averageWindow >= 1
      modifies sensorPast, sensorAverages
      ensures Valid()
      ensures Column(T1_INDEX) == CopyLoop(old(Column(T1_INDEX)), averageWindow, t1)
      ensures Column(T2_INDEX) == CopyLoop(old(Column(T2_INDEX)), averageWindow, t2)
      ensures forall j :: 0 <= j < T1_INDEX ==> Column(j) == old(Column(j)) && sensorAverages[j] == old(sensorAverages[j])
      ensures forall j :: T1_INDEX <= j < NUM_SENSORS ==> sensorAverages[j] == Sum(Column(j)[..averageWindow]) / averageWindow
    {
      UpdateSensorRaw(T1_INDEX, t1);
      UpdateSensorRaw(T2_INDEX, t2);
    }

    /** One round of `initializeSensors`: `updateVISensors` then `updateTSensors`. */
    method UpdateRound(r: seq<int>)
      requires Valid() && averageWindow >= 1 && |r| == NUM_SENSORS
      modifies sensorPast, sensorAverages
      ensures Valid()
      ensures forall i :: 0 <= i < NUM_SENSORS ==> Column(i) == CopyLoop(old(Column(i)), averageWindow, r[i])
      ensures forall i :: 0 <= i < NUM_SENSORS ==> sensorAverages[i] == Sum(Column(i)[..averageWindow]) / averageWindow
    {
      UpdateVISensors(r[V1_INDEX], r[V2_INDEX], r[I1_INDEX], r[I2_INDEX]);
      UpdateTSensors(r[T1_INDEX], r[T2_INDEX]);
    }

    /**
     * `initializeSensors(w)` with the readings of each round, in sensor order:
     * the window becomes `w` and every sensor is fed its `w` readings, so each
     * average is the mean of the window those readings leave.
     */
    method InitializeSensors(w: int, readings: seq<seq<int>>)
      requires Valid() && 1 <= w <= AVGWIN && |readings| == w
      requires forall n :: 0 <= n < w ==> |readings[n]| == NUM_SENSORS
      modifies this, sensorPast, sensorAverages
      ensures Valid()
      ensures State() == old(State()).(averageWindow := w)
      ensures forall i :: 0 <= i < NUM_SENSORS ==> Column(i) == Fed(old(Column(i)), w, Samples(readings, i))
      ensures forall i :: 0 <= i < NUM_SENSORS ==> sensorAverages[i] == Sum(Column(i)[..w]) / w
    {
      ghost var start := Columns();
      averageWindow := w;
      var n := 0;
      while n < w
        invariant 0 <= n <= w && Valid() && State() == old(State()).(averageWindow := w)
        invariant forall i :: 0 <= i < NUM_SENSORS ==> Column(i) == Fed(start[i], w, Samples(readings[..n], i))
        invariant n >= 1 ==> forall i :: 0 <= i < NUM_SENSORS ==> sensorAverages[i] == Sum(Column(i)[..w]) / w
      {
        ghost var before := Columns();
        UpdateRound(readings[n]);
        FedRound(start, w, readings, n, before, Columns());
        n := n + 1;
      }
      assert readings[..n] == readings;
    }

    /** `initializeSensors()`: the same with the default window of 4. */
    method InitializeSensorsDefault(readings: seq<seq<int>>)
      requires Valid() && |readings| == 4
      requires forall n :: 0 <= n < 4 ==> |readings[n]| == NUM_SENSORS
      modifies this, sensorPast, sensorAverages
      ensures Valid()
      ensures State() == old(State()).(averageWindow := 4)
      ensures forall i :: 0 <= i < NUM_SENSORS ==>
        sensorAverages[i] == CopyLoopAverage(readings[2][i], 4, readings[3][i])
    {
      InitializeSensors(4, readings);
      forall i | 0 <= i < NUM_SENSORS
        ensures sensorAverages[i] == CopyLoopAverage(readings[2][i], 4, readings[3][i])
      {
        InitializedWindow(old(Column(i)), 4, Samples(readings, i));
      }
    }

    /** `updateVCC` over four `readVCC()` results: their truncated mean, with no USB correction. */
    method UpdateVCC(readings: seq<int>)
      requires Valid() && |readings| == VCC_AVERAGE_LENGTH
      modifies this
      ensures Valid()
      ensures State() == old(State()).(vcc := Mean(readings))
    {
      vcc := MeanOf(readings);
    }

    // -------------------------------------------------------------------------
    // Duty cycle and bootstrap

    /** `setDutyCycle`: the duty cycle is clamped to [1, 99] percent. */
    method SetDutyCycle(duty: int)
      requires Valid()
      modifies this
      ensures Valid()
      ensures State() == old(State()).(dutyCycle := Constrain(duty, 1, 99))
    {
      dutyCycle := duty;
      dutyCycle := Constrain(dutyCycle, 1, 99);
    }

    /** `getDutyCycle`: always within [1, 99]. */
    method GetDutyCycle() returns (duty: int)
      requires Valid()
      ensures duty == dutyCycle && 1 <= duty <= 99
    {
      duty := dutyCycle;
    }

    /**
     * `initializeInterruptTimer(periodus)`: the capacitors are refreshed every
     * `10000/periodus` periods, with no lower bound, and once now.
     */
    method InitializeInterruptTimer(periodus: int)
      requires Valid() && periodus != 0
      modifies this
      ensures Valid()
      ensures State() == old(State()).(bootstrapCounter := TruncDiv(10000, periodus),
                                       bootstrapCounterMax := TruncDiv(10000, periodus))
      ensures 1 <= periodus ==> bootstrapCounterMax * periodus <= 10000 < (bootstrapCounterMax + 1) * periodus
    {
      bootstrapCounterMax := TruncDiv(10000, periodus);
      bootstrapCounter := bootstrapCounterMax;
    }

    /** `checkBootstrapRefresh`: count down, refreshing and reloading once the counter drops below 0. */
    method CheckBootstrapRefresh() returns (refreshed: bool)
      requires Valid()
      modifies this
      ensures Valid()
      ensures refreshed == Tick(old(bootstrapCounter), bootstrapCounterMax, false).1
      ensures State() == old(State()).(bootstrapCounter := Tick(old(bootstrapCounter), bootstrapCounterMax, false).0)
    {
      bootstrapCounter := bootstrapCounter - 1;
      refreshed := bootstrapCounter < 0;
      if refreshed {
        bootstrapCounter := bootstrapCounterMax;
      }
    }

    // -------------------------------------------------------------------------
    // Protection

    /** `shutdownGates`: latch the gate drivers off. */
    method ShutdownGates()
      requires Valid()
      modifies this
      ensures Valid()
      ensures State() == old(State()).(gateShutdown := true)
    {
      gateShutdown := true;
    }

    /** `enableGateDrivers`: reset the protection latch. */
    method EnableGateDrivers()
      requires Valid()
      modifies this
      ensures Valid()
      ensures State() == old(State()).(gateShutdown := false)
    {
      gateShutdown := false;
    }

    /**
     * `isGateShutdown`: the level of the GATESD latch. The library as written
     * reads the pin with `analogRead`, which samples a different signal; the
     * model keeps the latch the function is named for.
     */
    method IsGateShutdown() returns (latched: bool)
      requires Valid()
      ensures latched == gateShutdown
    {
      latched := gateShutdown;
    }

    /** `setCurrentShutdown`: one limit for both terminals, in raw counts from the midpoint. */
    method SetCurrentShutdown(mA: int)
      requires Valid()
      modifies this
      ensures Valid()
      ensures State() == old(State()).(currentLimitRaw := CurrentLimitRaw(mA))
    {
      currentLimitRaw := TruncDiv(mA * 128, 1875);
    }

    /** `checkCurrentShutdown`: shut the gates when a current average leaves [512 - limit, 512 + limit]. */
    method CheckCurrentShutdown()
      requires Valid()
      modifies this
      ensures Valid()
      ensures MidpointOverCurrent(sensorAverages[I1_INDEX], sensorAverages[I2_INDEX], currentLimitRaw) ==>
        State() == old(State()).(gateShutdown := true)
      ensures !MidpointOverCurrent(sensorAverages[I1_INDEX], sensorAverages[I2_INDEX], currentLimitRaw) ==>
        State() == old(State())
    {
      if sensorAverages[I1_INDEX] > 512 + currentLimitRaw
        || sensorAverages[I1_INDEX] < 512 - currentLimitRaw
        || sensorAverages[I2_INDEX] > 512 + currentLimitRaw
        || sensorAverages[I2_INDEX] < 512 - currentLimitRaw
      {
        ShutdownGates();
      }
    }

    /** `setThermalShutdown`: the thermal limit in °C. */
    method SetThermalShutdown(limitC: int)
      requires Valid()
      modifies this
      ensures Valid()
      ensures State() == old(State()).(thermalLimitC := limitC)
    {
      thermalLimitC := limitC;
    }

    /**
     * `checkThermalShutdown`: shut the gates when a thermistor reads strictly
     * above the limit. `raw2degC` divides by zero for an average of 880 or
     * more, so both averages are required to lie below the table's top.
     */
    method CheckThermalShutdown()
      requires Valid()
      requires sensorAverages[T1_INDEX] < 880 && sensorAverages[T2_INDEX] < 880
      modifies this
      ensures Valid()
      ensures AtverterBoard.OverTemperature(sensorAverages[T1_INDEX], sensorAverages[T2_INDEX], thermalLimitC) ==>
        State() == old(State()).(gateShutdown := true)
      ensures !AtverterBoard.OverTemperature(sensorAverages[T1_INDEX], sensorAverages[T2_INDEX], thermalLimitC) ==>
        State() == old(State())
    {
      var t1 := DegC(sensorAverages[T1_INDEX]);
      var t2 := DegC(sensorAverages[T2_INDEX]);
      if t1 > thermalLimitC || t2 > thermalLimitC {
        ShutdownGates();
      }
    }
  }
}
