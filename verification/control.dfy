/**
 * The control laws of the converter, as functions of the values they work on:
 * the history shift and the difference equation of the discrete compensator,
 * the gradient-descent duty stepper and the bootstrap refresh counter. The
 * board classes hold the state and prove their methods against these.
 */
module AtverterControl {
  import opened CArith
  import opened MovingAverage

  // ---------------------------------------------------------------------------
  // Discrete compensator

  /** Length of `_compIn` and `_compOut`. */
  const COMP_LENGTH := 8

  /**
   * A history array after shifting its first `size` entries one place toward
   * the old end and writing `x` at index 0; entries from `size` on are kept.
   */
  function Shifted(s: seq<int>, size: int, x: int): (r: seq<int>)
    requires |s| > 0
    ensures |r| == |s| && r[0] == x
  {
    seq(|s|, k requires 0 <= k < |s| => if k == 0 then x else if k < size then s[k - 1] else s[k])
  }

  /** The shift keeps the newest `size` values, newest first, and leaves the tail alone. */
  lemma ShiftedHistory(s: seq<int>, size: int, x: int)
    requires 1 <= size <= |s|
    ensures Shifted(s, size, x)[..size] == [x] + s[..size - 1]
    ensures Shifted(s, size, x)[size..] == s[size..]
  {
    var r := Shifted(s, size, x);
    assert forall k :: 0 <= k < size ==> r[..size][k] == ([x] + s[..size - 1])[k];
  }

  /** A history array whose first `size` entries are set to `v`. */
  function Filled(s: seq<int>, size: int, v: int): (r: seq<int>)
    ensures |r| == |s|
    ensures forall k :: 0 <= k < |s| && k < size ==> r[k] == v
    ensures forall k :: 0 <= k < |s| && size <= k ==> r[k] == s[k]
  {
    seq(|s|, k requires 0 <= k < |s| => if k < size then v else s[k])
  }

  /** `x[lo]*c[lo] + ... + x[hi-1]*c[hi-1]`, zero for an empty range. */
  function Dot(x: seq<int>, c: seq<int>, lo: nat, hi: int): int
    requires hi <= |x| && hi <= |c|
    decreases hi
  {
    if hi <= lo then 0 else Dot(x, c, lo, hi - 1) + x[hi - 1] * c[hi - 1]
  }

  /**
   * `calculateCompOut`: `(Σ num[n]*x[n] - Σ_{n>=1} den[n]*y[n]) / den[0]` with C
   * division, where `x` holds the inputs and `y` the outputs, newest first.
   */
  function CompOutput(x: seq<int>, y: seq<int>, num: seq<int>, den: seq<int>, numSize: int, denSize: int): int
    requires numSize <= |x| && numSize <= |num| && denSize <= |y| && denSize <= |den|
    requires |den| > 0 && den[0] != 0
  {
    TruncDiv(Dot(x, num, 0, numSize) - Dot(y, den, 1, denSize), den[0])
  }

  /**
   * The output solves the difference equation
   * `den[0]*y[n] + den[1]*y[n-1] + ... = num[0]*x[n] + num[1]*x[n-1] + ...`
   * up to a rounding error smaller than `|den[0]|`, of the sign of the right-hand side.
   */
  lemma DifferenceEquation(x: seq<int>, y: seq<int>, num: seq<int>, den: seq<int>, numSize: int, denSize: int)
    requires numSize <= |x| && numSize <= |num| && denSize <= |y| && denSize <= |den|
    requires |den| > 0 && den[0] != 0
    ensures var e := Dot(x, num, 0, numSize) - Dot(y, den, 1, denSize)
                     - den[0] * CompOutput(x, y, num, den, numSize, denSize);
      Abs(e) < Abs(den[0])
      && (e == 0 || (e > 0 <==> Dot(x, num, 0, numSize) - Dot(y, den, 1, denSize) > 0))
  {
    var a := Dot(x, num, 0, numSize) - Dot(y, den, 1, denSize);
    TruncDivRemainder(a, den[0]);
    assert den[0] * CompOutput(x, y, num, den, numSize, denSize) == TruncDiv(a, den[0]) * den[0];
  }

  /** With `num = den = {1}` the compensator passes its newest input straight through. */
  lemma UnitCompensator(x: seq<int>, y: seq<int>)
    requires |x| > 0 && |y| > 0
    ensures CompOutput(x, y, [1], [1], 1, 1) == x[0]
  {
    assert Dot(x, [1], 0, 1) == Dot(x, [1], 0, 0) + x[0] * 1;
  }

  // ---------------------------------------------------------------------------
  // Gradient descent

  /** The stepper's counter, its error accumulator and the duty cycle it drives. */
  datatype GradDescent = GradDescent(count: int, errorAcc: int, duty: int)

  /**
   * The duty cycle after a step: one percent up when the average error is
   * positive, else one percent down when the newest error is negative, as
   * `setDutyCycle` clamps it to [1, 99].
   */
  function Nudge(duty: int, avgError: int, error: int): int
  {
    if avgError > 0 then Constrain(duty + 1, 1, 99)
    else if error < 0 then Constrain(duty - 1, 1, 99)
    else duty
  }

  /** A step moves an in-range duty cycle by at most one percent, in the direction of the error. */
  lemma NudgeBounded(duty: int, avgError: int, error: int)
    requires 1 <= duty <= 99
    ensures duty - 1 <= Nudge(duty, avgError, error) <= duty + 1
    ensures avgError > 0 ==> Nudge(duty, avgError, error) == if duty < 99 then duty + 1 else 99
    ensures avgError <= 0 && error < 0 ==> Nudge(duty, avgError, error) == if duty > 1 then duty - 1 else 1
    ensures avgError <= 0 && error >= 0 ==> Nudge(duty, avgError, error) == duty
  {
  }

  /** Whether `gradDescStep` divides by `_gradDescAverageMax` on this call. */
  predicate Fires(g: GradDescent, settle: int, avg: int)
  {
    g.count + 1 >= settle && g.count + 1 > settle + avg
  }

  /**
   * One `gradDescStep(error)`: the counter advances; from `settle` on the error
   * is accumulated; once the counter passes `settle + avg` the duty cycle is
   * nudged by the accumulated error divided by `avg` and both are reset. The
   * second component says whether the step fired.
   */
  function GradStep(g: GradDescent, settle: int, avg: int, error: int): (GradDescent, bool)
    requires Fires(g, settle, avg) ==> avg != 0
  {
    var count := g.count + 1;
    if count < settle then (g.(count := count), false)
    else
      var acc := g.errorAcc + error;
      if count > settle + avg then (GradDescent(0, 0, Nudge(g.duty, TruncDiv(acc, avg), error)), true)
      else (GradDescent(count, acc, g.duty), false)
  }

  /** The stepper after a run of errors, oldest first. */
  function Run(g: GradDescent, settle: int, avg: int, errors: seq<int>): GradDescent
    requires avg != 0
  {
    if errors == [] then g
    else GradStep(Run(g, settle, avg, errors[..|errors| - 1]), settle, avg, errors[|errors| - 1]).0
  }

  /**
   * From a reset counter, the first `settle + avg` calls never step: the counter
   * counts them, the errors from call `settle` on are accumulated (those before
   * are dropped) and the duty cycle stays.
   */
  lemma {:induction false} GradDescQuiet(duty: int, settle: int, avg: int, errors: seq<int>)
    requires settle >= 1 && avg >= 1 && |errors| <= settle + avg
    ensures Run(GradDescent(0, 0, duty), settle, avg, errors)
      == GradDescent(|errors|, Sum(errors[if |errors| < settle then |errors| else settle - 1..]), duty)
  {
    var n := |errors|;
    if n > 0 {
      var init := errors[..n - 1];
      GradDescQuiet(duty, settle, avg, init);
      var lo := if n - 1 < settle then n - 1 else settle - 1;
      assert Run(GradDescent(0, 0, duty), settle, avg, errors)
        == GradStep(GradDescent(n - 1, Sum(init[lo..]), duty), settle, avg, errors[n - 1]).0;
      if n >= settle {
        assert errors[settle - 1..][..|errors[settle - 1..]| - 1] == init[settle - 1..];
        if n - 1 < settle {
          assert init[lo..] == [];
          assert errors[settle - 1..] == [errors[n - 1]];
        }
      } else {
        assert errors[n..] == [] && init[n - 1..] == [];
      }
    }
  }

  /**
   * The call after those `settle + avg` steps: the duty cycle moves by the
   * average of the last `avg + 2` errors, divided by `avg`, or by the sign of
   * the newest error, and the stepper resets.
   */
  lemma GradDescFires(duty: int, settle: int, avg: int, errors: seq<int>, error: int)
    requires settle >= 1 && avg >= 1 && |errors| == settle + avg
    ensures var acc := Sum(errors[settle - 1..]) + error;
      GradStep(Run(GradDescent(0, 0, duty), settle, avg, errors), settle, avg, error)
        == (GradDescent(0, 0, Nudge(duty, TruncDiv(acc, avg), error)), true)
    ensures |errors[settle - 1..] + [error]| == avg + 2
  {
    GradDescQuiet(duty, settle, avg, errors);
  }

  /** `triggerGradDescStep` makes the very next call step, with that call's error as the only one accumulated. */
  lemma TriggeredStep(g: GradDescent, settle: int, avg: int, error: int)
    requires avg >= 1
    ensures GradStep(g.(count := settle + avg, errorAcc := 0), settle, avg, error)
      == (GradDescent(0, 0, Nudge(g.duty, TruncDiv(error, avg), error)), true)
  {
  }

  /** Every step keeps an in-range duty cycle in range and moves it by at most one percent. */
  lemma GradStepBounded(g: GradDescent, settle: int, avg: int, error: int)
    requires Fires(g, settle, avg) ==> avg != 0
    requires 1 <= g.duty <= 99
    ensures var d := GradStep(g, settle, avg, error).0.duty; 1 <= d <= 99 && g.duty - 1 <= d <= g.duty + 1
    ensures !GradStep(g, settle, avg, error).1 ==> GradStep(g, settle, avg, error).0.duty == g.duty
  {
    if Fires(g, settle, avg) {
      NudgeBounded(g.duty, TruncDiv(g.errorAcc + error, avg), error);
    }
  }

  // ---------------------------------------------------------------------------
  // Bootstrap refresh

  /**
   * One `checkBootstrapRefresh`: the counter is decremented and, once it falls
   * to the threshold (at or below 0 in the newer board, below 0 in the first
   * one), the capacitors are refreshed and the counter reloaded with `max`.
   */
  function Tick(counter: int, max: int, atZero: bool): (int, bool)
  {
    var c := counter - 1;
    if (if atZero then c <= 0 else c < 0) then (max, true) else (c, false)
  }

  /** The lowest counter value left standing after a decrement. */
  function Floor(atZero: bool): int
  {
    if atZero then 1 else 0
  }

  /** The counter after `k` calls and how many of them refreshed. */
  function Ticks(counter: int, max: int, atZero: bool, k: nat): (int, nat)
    decreases k
  {
    if k == 0 then (counter, 0)
    else
      var t := Tick(counter, max, atZero);
      var r := Ticks(t.0, max, atZero, k - 1);
      (r.0, r.1 + if t.1 then 1 else 0)
  }

  /** Running `a` calls and then `b` is running `a + b`. */
  lemma {:induction false} TicksAppend(counter: int, max: int, atZero: bool, a: nat, b: nat)
    ensures var r := Ticks(counter, max, atZero, a);
      Ticks(counter, max, atZero, a + b) == (Ticks(r.0, max, atZero, b).0, r.1 + Ticks(r.0, max, atZero, b).1)
    decreases a
  {
    if a > 0 {
      TicksAppend(Tick(counter, max, atZero).0, max, atZero, a - 1, b);
    }
  }

  /** While the counter stays above the threshold, calls only count down. */
  lemma {:induction false} TicksCountDown(counter: int, max: int, atZero: bool, k: nat)
    requires counter - k >= Floor(atZero)
    ensures Ticks(counter, max, atZero, k) == (counter - k, 0)
    decreases k
  {
    if k > 0 {
      TicksCountDown(counter - 1, max, atZero, k - 1);
    }
  }

  /**
   * From a reload, the capacitors are refreshed exactly once every `max` calls
   * in the newer board and every `max + 1` calls in the first one, and the
   * counter is back at `max` after each refresh.
   */
  lemma BootstrapPeriod(max: int, atZero: bool)
    requires max >= Floor(atZero)
    ensures var period := max - Floor(atZero) + 1;
      Ticks(max, max, atZero, period) == (max, 1)
      && forall k: nat :: k < period ==> Ticks(max, max, atZero, k) == (max - k, 0)
  {
    var period := max - Floor(atZero) + 1;
    TicksCountDown(max, max, atZero, period - 1);
    TicksAppend(max, max, atZero, period - 1, 1);
    forall k: nat | k < period
      ensures Ticks(max, max, atZero, k) == (max - k, 0)
    {
      TicksCountDown(max, max, atZero, k);
    }
  }

  /** `n` periods give exactly `n` refreshes and leave the counter at `max`. */
  lemma {:induction false} BootstrapEvery(max: int, atZero: bool, n: nat)
    requires max >= Floor(atZero)
    ensures Ticks(max, max, atZero, n * (max - Floor(atZero) + 1)) == (max, n)
  {
    var period := max - Floor(atZero) + 1;
    if n > 0 {
      BootstrapEvery(max, atZero, n - 1);
      BootstrapPeriod(max, atZero);
      assert n * period == (n - 1) * period + period;
      TicksAppend(max, max, atZero, (n - 1) * period, period);
    }
  }
}
