/**
 * The unit conversions every board shares: raw 10-bit ADC counts to millivolts
 * and milliamps and back, the droop resistance scaling, the current-limit
 * scaling, the VCC average and the thermistor look-up table. Each takes the
 * board's measured VCC (millivolts) as a parameter where the firmware calls
 * `getVCC()`.
 */
module Conversions {
  import opened CArith
  import opened MovingAverage

  /** Droop resistances are stored multiplied by this factor. */
  const RDROOPFACTOR := 1024

  /** Conversion to a 16-bit `unsigned int`: reduction modulo 2^16. */
  function U16(x: int): (r: int)
    ensures 0 <= r < 0x1_0000
    ensures 0 <= x < 0x1_0000 ==> r == x
  {
    x % 0x1_0000
  }

  // ---------------------------------------------------------------------------
  // Voltage

  /** `raw2mV`: the divided-down input voltage, raw·VCC/1024 scaled by (120k+10k)/10k = 13. */
  function Raw2mV(raw: int, vcc: int): int
  {
    U16(TruncDiv(raw * vcc * 13, 1024))
  }

  /** `raw2mVADC`: the voltage at the ADC pin, raw·VCC/1024. */
  function Raw2mVADC(raw: int, vcc: int): int
  {
    TruncDiv(raw * vcc, 1024)
  }

  /** `mV2raw`: a terminal voltage in raw counts, mV·79/VCC (79 ≈ 1024/13). */
  function MV2Raw(mV: int, vcc: int): int
    requires vcc != 0
  {
    TruncDiv(mV * 79, vcc)
  }

  /**
   * For a 10-bit reading and VCC up to 5046 mV the `unsigned int` result does
   * not wrap; up to 5000 mV it stays within the documented 0 to 65000 mV.
   */
  lemma Raw2mVInRange(raw: int, vcc: int)
    requires 0 <= raw <= 1023 && 0 <= vcc <= 5046
    ensures Raw2mV(raw, vcc) == (raw * vcc * 13) / 1024
    ensures vcc <= 5000 ==> 0 <= Raw2mV(raw, vcc) <= 65000
  {
    var p := raw * vcc;
    MulMonotone(raw, 1023, vcc, 5046);
    assert raw * vcc * 13 == p * 13;
    var q := (p * 13) / 1024;
    assert q * 1024 <= p * 13;
    if vcc <= 5000 {
      MulMonotone(raw, 1023, vcc, 5000);
    }
  }

  /**
   * Converting a reading to millivolts and back returns it to within the
   * rounding of the two scalings (13·79 = 1027 ≈ 1024).
   */
  lemma MV2RawRoundTrip(raw: int, vcc: int)
    requires 0 <= raw <= 1023 && 80 <= vcc <= 5046
    ensures raw - 1 <= MV2Raw(Raw2mV(raw, vcc), vcc) <= raw + 3
  {
    Raw2mVInRange(raw, vcc);
    var p := raw * vcc;
    assert raw * vcc * 13 == p * 13;
    var b := Raw2mV(raw, vcc);
    assert b == (p * 13) / 1024;
    assert 0 <= p by {
      MulMonotone(0, raw, 0, vcc);
    }
    TruncDivNonNegative(b * 79, vcc);
    var c := MV2Raw(b, vcc);
    assert c == (b * 79) / vcc;
    assert p <= vcc * 1024 by {
      MulMonotone(raw, 1024, vcc, vcc);
    }
    RoundTripUpper(raw, vcc, p, b, c);
    RoundTripLower(raw, vcc, p, b, c);
  }

  /** c·vcc·1024 ≤ 79·1024·b ≤ 1027·raw·vcc ≤ (raw + 3)·vcc·1024. */
  lemma RoundTripUpper(raw: int, vcc: int, p: int, b: int, c: int)
    requires 0 <= raw <= 1023 && 80 <= vcc && p == raw * vcc && 0 <= p <= vcc * 1024
    requires b * 1024 <= p * 13 && c * vcc <= b * 79
    ensures c <= raw + 3
  {
    var n := vcc * 1024;
    assert c * n == (c * vcc) * 1024;
    assert (raw + 3) * n == p * 1024 + 3 * n;
    MulCancel(c, raw + 3, n);
  }

  /** (c + 1)·vcc·1024 > 79·1024·b > 1027·raw·vcc − 80896 ≥ (raw − 1)·vcc·1024. */
  lemma RoundTripLower(raw: int, vcc: int, p: int, b: int, c: int)
    requires 0 <= raw <= 1023 && 80 <= vcc && p == raw * vcc && 0 <= p
    requires p * 13 < b * 1024 + 1024 && b * 79 < c * vcc + vcc
    ensures c >= raw - 1
  {
    var n := vcc * 1024;
    assert (c + 1) * n == (c * vcc) * 1024 + n;
    assert (raw - 1) * n == p * 1024 - n;
    MulCancel(c + 1, raw - 1, n);
  }

  // ---------------------------------------------------------------------------
  // Current

  /** `raw2mA`: a zero-centred current reading in mA; the sensor gives 333 mV/A, scaled as 3·VCC/1024 per count. */
  function Raw2mA(raw: int, vcc: int): int
  {
    TruncDiv(raw * vcc * 3, 1024)
  }

  /** `mA2raw`: a current in zero-centred raw counts, mA·341/VCC. */
  function MA2Raw(mA: int, vcc: int): int
    requires vcc != 0
  {
    TruncDiv(mA * 341, vcc)
  }

  /** A current reading and its negation convert to opposite currents, and back. */
  lemma CurrentConversionsOdd(raw: int, mA: int, vcc: int)
    requires vcc != 0
    ensures Raw2mA(-raw, vcc) == -Raw2mA(raw, vcc)
    ensures MA2Raw(-mA, vcc) == -MA2Raw(mA, vcc)
  {
    assert -raw * vcc * 3 == -(raw * vcc * 3);
    TruncDivOdd(raw * vcc * 3, 1024);
    assert -mA * 341 == -(mA * 341);
    TruncDivOdd(mA * 341, vcc);
  }

  /**
   * Converting a zero-centred 10-bit reading to mA and back loses at most two
   * counts toward zero (3·341 = 1023 ≈ 1024).
   */
  lemma MA2RawRoundTrip(raw: int, vcc: int)
    requires -1024 <= raw <= 1024 && 342 <= vcc
    ensures raw >= 0 ==> raw - 2 <= MA2Raw(Raw2mA(raw, vcc), vcc) <= raw
    ensures raw <= 0 ==> raw <= MA2Raw(Raw2mA(raw, vcc), vcc) <= raw + 2
  {
    if raw >= 0 {
      MA2RawRoundTripNonNegative(raw, vcc);
    } else {
      MA2RawRoundTripNonNegative(-raw, vcc);
      CurrentConversionsOdd(-raw, Raw2mA(-raw, vcc), vcc);
    }
  }

  lemma MA2RawRoundTripNonNegative(raw: int, vcc: int)
    requires 0 <= raw <= 1024 && 342 <= vcc
    ensures raw - 2 <= MA2Raw(Raw2mA(raw, vcc), vcc) <= raw
  {
    var p := raw * vcc;
    MulMonotone(raw, 1024, vcc, vcc);
    assert raw * vcc * 3 == p * 3;
    TruncDivNonNegative(p * 3, 1024);
    var b := Raw2mA(raw, vcc);
    assert b == (p * 3) / 1024;
    TruncDivNonNegative(b * 341, vcc);
    var c := MA2RawNonNegative(b, vcc);
    CurrentRoundTripBounds(raw, vcc, p, b, c);
  }

  /** `mA2raw` of a non-negative current, as Euclidean division. */
  function MA2RawNonNegative(b: int, vcc: int): (c: int)
    requires b >= 0 && vcc > 0
    ensures c == MA2Raw(b, vcc)
  {
    TruncDivNonNegative(b * 341, vcc);
    (b * 341) / vcc
  }

  /**
   * c·vcc·1024 ≤ 341·1024·b ≤ 1023·raw·vcc ≤ raw·vcc·1024, and
   * (c + 1)·vcc·1024 > 341·1024·b > 1023·raw·vcc − 349184 > (raw − 2)·vcc·1024.
   */
  lemma CurrentRoundTripBounds(raw: int, vcc: int, p: int, b: int, c: int)
    requires 0 <= raw <= 1024 && 342 <= vcc && p == raw * vcc && 0 <= p <= 1024 * vcc
    requires b * 1024 <= p * 3 < b * 1024 + 1024
    requires c * vcc <= b * 341 < c * vcc + vcc
    ensures raw - 2 <= c <= raw
  {
    var n := vcc * 1024;
    assert c * n == (c * vcc) * 1024;
    assert raw * n == p * 1024;
    MulCancel(c, raw, n);
    assert (c + 1) * n == (c * vcc) * 1024 + n;
    assert (raw - 2) * n == p * 1024 - 2 * n;
    MulCancel(c + 1, raw - 2, n);
  }

  /** `raw2mA` of the first Atverter library, whose readings are centred on 512 counts. */
  function LegacyRaw2mA(raw: int, vcc: int): (r: int)
    ensures r == Raw2mA(raw - 512, vcc)
  {
    TruncDiv((raw - 512) * vcc * 3, 1024)
  }

  /** `mA2raw` of the first Atverter library: the zero-centred conversion shifted up by 512 counts. */
  function LegacyMA2Raw(mA: int, vcc: int): (r: int)
    requires vcc != 0
    ensures r - 512 == MA2Raw(mA, vcc)
  {
    TruncDiv(mA * 341, vcc) + 512
  }

  /**
   * `setCurrentShutdown*`/`setCurrentLimit*`: a current limit in raw counts,
   * mA·128/1875, which is the exact inverse of `raw2mA` at VCC = 5000 mV
   * (3·5000/1024 = 1875/128).
   */
  function CurrentLimitRaw(mA: int): int
  {
    TruncDiv(mA * 128, 1875)
  }

  /**
   * A zero-centred reading exceeds the raw limit of a non-negative current
   * exactly when the current it stands for at VCC = 5000 mV, avg·1875/128 mA
   * before any rounding, exceeds that current; the same holds below the
   * negated limit.
   */
  lemma CurrentLimitTrips(avg: int, mA: int)
    requires mA >= 0
    ensures avg > CurrentLimitRaw(mA) <==> avg * 1875 > mA * 128
    ensures avg < -CurrentLimitRaw(mA) <==> avg * 1875 < -(mA * 128)
  {
    var l := (mA * 128) / 1875;
    assert l * 1875 <= mA * 128 < l * 1875 + 1875;
  }

  /** At VCC = 5000 mV `raw2mA` reports a reading above the raw limit as a current at or above the limit. */
  lemma CurrentLimitAgreesWithRaw2mA(avg: int, mA: int)
    requires mA >= 0 && avg > CurrentLimitRaw(mA)
    ensures Raw2mA(avg, 5000) >= mA
  {
    CurrentLimitTrips(avg, mA);
    assert avg * 5000 * 3 == avg * 15000;
    assert avg * 15000 >= mA * 1024 + 8;
    assert (avg * 15000) / 1024 >= mA;
  }

  /** The raw limit of a larger current is never smaller. */
  lemma CurrentLimitMonotone(mA: int, mA': int)
    requires mA <= mA'
    ensures CurrentLimitRaw(mA) <= CurrentLimitRaw(mA')
  {
    TruncDivMonotone(mA * 128, mA' * 128, 1875);
  }

  // ---------------------------------------------------------------------------
  // Droop resistance

  /** `setRDroop`: a droop resistance in mΩ stored in raw counts, times RDROOPFACTOR (1024·mΩ/4316, 4316 ≈ 1000·341/79). */
  function RDroopOf(mOhm: int): int
  {
    TruncDiv(RDROOPFACTOR * mOhm, 4316)
  }

  /** `getRDroop`: the stored droop resistance back in mΩ. */
  function RDroopMilliOhm(rDroop: int): int
  {
    TruncDiv(rDroop * 4316, RDROOPFACTOR)
  }

  /** `getVDroopRaw`: the droop voltage, in raw counts, for an output current in raw counts. */
  function VDroopRaw(iOut: int, rDroop: int): int
  {
    TruncDiv(iOut * rDroop, RDROOPFACTOR)
  }

  /** Reading back a stored droop resistance gives the value written, rounded down by less than 5 mΩ. */
  lemma RDroopReadBack(mOhm: int)
    requires mOhm >= 0
    ensures mOhm - 5 <= RDroopMilliOhm(RDroopOf(mOhm)) <= mOhm
  {
    var r := (1024 * mOhm) / 4316;
    assert r * 4316 <= 1024 * mOhm < r * 4316 + 4316;
    assert r >= 0;
    var g := (r * 4316) / 1024;
    assert g * 1024 <= r * 4316 < g * 1024 + 1024;
  }

  /** Without droop the droop voltage is zero, and it grows with the output current. */
  lemma VDroopProperties(iOut: int, iOut': int, rDroop: int)
    requires rDroop >= 0 && iOut <= iOut'
    ensures VDroopRaw(iOut, 0) == 0
    ensures VDroopRaw(iOut, rDroop) <= VDroopRaw(iOut', rDroop)
    ensures VDroopRaw(-iOut, rDroop) == -VDroopRaw(iOut, rDroop)
  {
    assert iOut * rDroop <= iOut' * rDroop by {
      assert (iOut' - iOut) * rDroop >= 0;
    }
    TruncDivMonotone(iOut * rDroop, iOut' * rDroop, RDROOPFACTOR);
    assert -iOut * rDroop == -(iOut * rDroop);
    TruncDivOdd(iOut * rDroop, RDROOPFACTOR);
  }

  // ---------------------------------------------------------------------------
  // VCC

  /** Below this measured VCC (mV) a board that applies the USB correction takes VCC to be 5000 mV. */
  const VCC_USB_THRESHOLD := 4950
  const VCC_ASSUMED := 5000
  /** `updateVCC` averages this many `readVCC()` results. */
  const VCC_AVERAGE_LENGTH := 4

  /** The truncated mean of some readings. */
  function Mean(readings: seq<int>): int
    requires |readings| > 0
  {
    TruncDiv(Sum(readings), |readings|)
  }

  /** `accumulator/avgLength` of the `updateVCC` loop. */
  method MeanOf(readings: seq<int>) returns (mean: int)
    requires |readings| > 0
    ensures mean == Mean(readings)
  {
    var accumulator := 0;
    var n := 0;
    while n < |readings|
      invariant 0 <= n <= |readings|
      invariant accumulator == Sum(readings[..n])
    {
      assert readings[..n + 1][..n] == readings[..n];
      accumulator := accumulator + readings[n];
      n := n + 1;
    }
    assert readings[..n] == readings;
    mean := TruncDiv(accumulator, |readings|);
  }

  /** Non-negative readings have a mean between their smallest and their largest. */
  lemma {:induction false} MeanBounds(readings: seq<int>, lo: int, hi: int)
    requires |readings| > 0 && 0 <= lo
    requires forall i :: 0 <= i < |readings| ==> lo <= readings[i] <= hi
    ensures lo <= Mean(readings) <= hi
  {
    SumBounds(readings, lo, hi);
    var n := |readings|;
    var s := Sum(readings);
    assert s >= 0;
    assert lo * n <= s <= hi * n;
    var q := s / n;
    assert q * n <= s < q * n + n;
    assert (q + 1) * n == q * n + n;
    MulCancel(q + 1, lo, n);
    MulCancel(q, hi, n);
  }

  lemma {:induction false} SumBounds(s: seq<int>, lo: int, hi: int)
    requires forall i :: 0 <= i < |s| ==> lo <= s[i] <= hi
    ensures lo * |s| <= Sum(s) <= hi * |s|
  {
    if s != [] {
      SumBounds(s[..|s| - 1], lo, hi);
      assert lo * |s| == lo * (|s| - 1) + lo;
      assert hi * |s| == hi * (|s| - 1) + hi;
    }
  }

  /**
   * The USB correction of `updateVCC`: a measured VCC under 4950 mV (about 4500
   * mV when powered over USB) is replaced by 5000 mV.
   */
  function UsbCorrected(vcc: int): (r: int)
    ensures r >= VCC_USB_THRESHOLD
    ensures vcc >= VCC_USB_THRESHOLD ==> r == vcc
    ensures vcc < VCC_USB_THRESHOLD ==> r == VCC_ASSUMED
  {
    if vcc < VCC_USB_THRESHOLD then VCC_ASSUMED else vcc
  }

  // ---------------------------------------------------------------------------
  // Thermistor

  /** The NCP15WF104F03RC look-up table: (ADC reading, °C), both strictly increasing. */
  const TTABLE: seq<(int, int)> := [
    (139, 10), (211, 20), (301, 30), (404, 40), (510, 50), (612, 60), (658, 65),
    (701, 70), (740, 75), (776, 80), (807, 85), (835, 90), (859, 95), (880, 100)]

  lemma TableIncreasing(i: int, j: int)
    requires 0 <= i < j < |TTABLE|
    ensures TTABLE[i].0 < TTABLE[j].0 && TTABLE[i].1 < TTABLE[j].1
  {
  }

  /**
   * The table segment `raw2degC` interpolates on, counting from `n`: the first
   * `n` with `raw < TTABLE[n].0`; past the last entry, the last segment.
   */
  function SegmentFrom(raw: int, n: int): (s: int)
    requires 1 <= n <= 13
    ensures n <= s <= 13
    ensures raw < TTABLE[s].0 || s == 13
    ensures forall m :: n <= m < s ==> TTABLE[m].0 <= raw
    decreases 13 - n
  {
    if n == 13 || raw < TTABLE[n].0 then n else SegmentFrom(raw, n + 1)
  }

  function Segment(raw: int): int
  {
    SegmentFrom(raw, 1)
  }

  /** Linear interpolation between table entries s-1 and s, with C division. */
  function Interpolate(raw: int, s: int): int
    requires 1 <= s <= 13
  {
    var x0, y0 := TTABLE[s - 1].0, TTABLE[s - 1].1;
    var x1, y1 := TTABLE[s].0, TTABLE[s].1;
    y0 + TruncDiv((raw - x0) * (y1 - y0), x1 - x0)
  }

  /**
   * The temperature in °C of a thermistor reading: the piecewise-linear
   * interpolation of the table, extrapolated below 139 counts along the first
   * segment and at and above 880 counts along the last.
   */
  function DegC(raw: int): int
  {
    Interpolate(raw, Segment(raw))
  }

  /**
   * `raw2degC`'s search as written: the end points `(x0, x1, y0, y1)` of the
   * first segment whose upper reading exceeds `raw`, and the initial zeros when
   * the loop finds none.
   */
  function SearchAsWritten(raw: int, n: int): (int, int, int, int)
    requires 1 <= n <= 14
    decreases 14 - n
  {
    if n == 14 then (0, 0, 0, 0)
    else if raw < TTABLE[n].0 then (TTABLE[n - 1].0, TTABLE[n].0, TTABLE[n - 1].1, TTABLE[n].1)
    else SearchAsWritten(raw, n + 1)
  }

  /**
   * At and above the last table reading (100 °C) the search finds no segment and
   * `raw2degC` divides by `x1 - x0 == 0`.
   */
  lemma {:induction false} SearchAsWrittenFails(raw: int, n: int)
    requires 1 <= n <= 14 && raw >= 880
    ensures SearchAsWritten(raw, n) == (0, 0, 0, 0)
    decreases 14 - n
  {
    if n < 14 {
      if n < 13 {
        TableIncreasing(n, 13);
      }
      SearchAsWrittenFails(raw, n + 1);
    }
  }

  /** Below 880 counts the search as written finds the segment `DegC` interpolates on. */
  lemma {:induction false} SearchAsWrittenAgrees(raw: int, n: int)
    requires 1 <= n <= 13 && raw < 880
    ensures SearchAsWritten(raw, n) == (TTABLE[SegmentFrom(raw, n) - 1].0, TTABLE[SegmentFrom(raw, n)].0,
                                        TTABLE[SegmentFrom(raw, n) - 1].1, TTABLE[SegmentFrom(raw, n)].1)
    decreases 13 - n
  {
    if n < 13 && !(raw < TTABLE[n].0) {
      SearchAsWrittenAgrees(raw, n + 1);
    }
  }

  /** `raw2degC`: the table search loop and the interpolation; a reading of 880 or more divides by zero. */
  method Raw2DegC(raw: int) returns (t: int)
    requires raw < 880
    ensures t == DegC(raw)
  {
    var x0, x1, y0, y1 := 0, 0, 0, 0;
    var n := 1;
    while n < |TTABLE|
      invariant 1 <= n <= 14
      invariant SearchAsWritten(raw, 1) == SearchAsWritten(raw, n)
      invariant (x0, x1, y0, y1) == (0, 0, 0, 0)
    {
      if raw < TTABLE[n].0 {
        x0, x1 := TTABLE[n - 1].0, TTABLE[n].0;
        y0, y1 := TTABLE[n - 1].1, TTABLE[n].1;
        break;
      }
      n := n + 1;
    }
    SearchAsWrittenAgrees(raw, 1);
    ghost var s := Segment(raw);
    assert (x0, x1, y0, y1) == (TTABLE[s - 1].0, TTABLE[s].0, TTABLE[s - 1].1, TTABLE[s].1);
    t := y0 + TruncDiv((raw - x0) * (y1 - y0), x1 - x0);
  }

  /** Each table reading converts to exactly its table temperature. */
  lemma DegCAtTable(k: int)
    requires 0 <= k < |TTABLE|
    ensures DegC(TTABLE[k].0) == TTABLE[k].1
  {
    SegmentOfReading(k, 1);
    if k < 13 {
      InterpolateAtStart(k + 1);
    } else {
      assert Interpolate(880, 13) == 95 + TruncDiv(21 * 5, 21);
    }
  }

  /** A segment's interpolation starts at its lower table entry. */
  lemma InterpolateAtStart(s: int)
    requires 1 <= s <= 13
    ensures Interpolate(TTABLE[s - 1].0, s) == TTABLE[s - 1].1
  {
    TableIncreasing(s - 1, s);
    assert (TTABLE[s - 1].0 - TTABLE[s - 1].0) * (TTABLE[s].1 - TTABLE[s - 1].1) == 0;
  }

  /** Table reading k lies on segment k + 1, the last reading on the last segment. */
  lemma {:induction false} SegmentOfReading(k: int, n: int)
    requires 0 <= k < |TTABLE| && 1 <= n <= 13 && n <= k + 1
    ensures SegmentFrom(TTABLE[k].0, n) == if k < 13 then k + 1 else 13
    decreases 13 - n
  {
    if n < 13 && n < k + 1 {
      if n < k {
        TableIncreasing(n, k);
      }
      SegmentOfReading(k, n + 1);
    } else if n < 13 {
      TableIncreasing(k, n);
    }
  }

  /** Between two table readings the temperature stays between their temperatures. */
  lemma DegCBetween(raw: int)
    requires TTABLE[0].0 <= raw < 880
    ensures TTABLE[Segment(raw) - 1].1 <= DegC(raw) <= TTABLE[Segment(raw)].1
    ensures 10 <= DegC(raw) <= 100
  {
    var s := Segment(raw);
    InterpolateBounds(raw, s);
    TableIncreasing(0, s);
    if s > 1 {
      TableIncreasing(0, s - 1);
    }
    if s < 13 {
      TableIncreasing(s, 13);
    }
  }

  lemma InterpolateBounds(raw: int, s: int)
    requires 1 <= s <= 13 && TTABLE[s - 1].0 <= raw < TTABLE[s].0
    ensures TTABLE[s - 1].1 <= Interpolate(raw, s) <= TTABLE[s].1
  {
    var x0, y0 := TTABLE[s - 1].0, TTABLE[s - 1].1;
    var x1, y1 := TTABLE[s].0, TTABLE[s].1;
    TableIncreasing(s - 1, s);
    var a := (raw - x0) * (y1 - y0);
    assert 0 <= a;
    assert a <= (x1 - x0) * (y1 - y0);
    DivMonotone(a, (x1 - x0) * (y1 - y0), x1 - x0);
  }

  /**
   * A larger reading never converts to a lower temperature, so a thermal limit
   * trips on every reading above the first one that trips it.
   */
  lemma DegCMonotone(raw: int, raw': int)
    requires raw <= raw'
    ensures DegC(raw) <= DegC(raw')
  {
    var s, s' := Segment(raw), Segment(raw');
    SegmentMonotone(raw, raw', 1);
    if s == s' {
      InterpolateMonotone(raw, raw', s);
    } else {
      // raw sits below the upper end of its segment, raw' at or above the lower end of its own
      assert raw < TTABLE[s].0;
      InterpolateUpper(raw, s);
      TableIncreasing(s - 1, s);
      if s < s' - 1 {
        TableIncreasing(s, s' - 1);
      }
      InterpolateLower(raw', s');
    }
  }

  /** A larger reading never lies on an earlier segment. */
  lemma {:induction false} SegmentMonotone(raw: int, raw': int, n: int)
    requires raw <= raw' && 1 <= n <= 13
    ensures SegmentFrom(raw, n) <= SegmentFrom(raw', n)
    decreases 13 - n
  {
    if n < 13 && !(raw < TTABLE[n].0) {
      SegmentMonotone(raw, raw', n + 1);
    }
  }

  lemma InterpolateMonotone(raw: int, raw': int, s: int)
    requires 1 <= s <= 13 && raw <= raw'
    ensures Interpolate(raw, s) <= Interpolate(raw', s)
  {
    var x0, y0 := TTABLE[s - 1].0, TTABLE[s - 1].1;
    var x1, y1 := TTABLE[s].0, TTABLE[s].1;
    TableIncreasing(s - 1, s);
    assert (raw - x0) * (y1 - y0) <= (raw' - x0) * (y1 - y0) by {
      assert (raw' - raw) * (y1 - y0) >= 0;
    }
    TruncDivMonotone((raw - x0) * (y1 - y0), (raw' - x0) * (y1 - y0), x1 - x0);
  }

  lemma InterpolateUpper(raw: int, s: int)
    requires 1 <= s <= 13 && raw < TTABLE[s].0
    ensures Interpolate(raw, s) <= TTABLE[s].1
  {
    var x0, y0 := TTABLE[s - 1].0, TTABLE[s - 1].1;
    var x1, y1 := TTABLE[s].0, TTABLE[s].1;
    TableIncreasing(s - 1, s);
    assert (raw - x0) * (y1 - y0) <= (x1 - x0) * (y1 - y0) by {
      assert (x1 - raw) * (y1 - y0) >= 0;
    }
    TruncDivMonotone((raw - x0) * (y1 - y0), (x1 - x0) * (y1 - y0), x1 - x0);
  }

  lemma InterpolateLower(raw: int, s: int)
    requires 1 <= s <= 13 && TTABLE[s - 1].0 <= raw
    ensures TTABLE[s - 1].1 <= Interpolate(raw, s)
  {
    var x0, y0 := TTABLE[s - 1].0, TTABLE[s - 1].1;
    var x1, y1 := TTABLE[s].0, TTABLE[s].1;
    TableIncreasing(s - 1, s);
    assert (raw - x0) * (y1 - y0) >= 0;
  }

  /** From the last table reading on, the temperature is at least 100 °C, above every default thermal limit. */
  lemma DegCAboveTable(raw: int)
    requires raw >= 880
    ensures DegC(raw) >= 100
  {
    DegCAtTable(13);
    DegCMonotone(880, raw);
  }
}
