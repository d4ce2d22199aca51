/**
 * The moving averages every board keeps of its analog inputs. Channel `i` has a
 * ring of `windows[i]` past samples, an accumulator holding their sum, a cursor
 * naming the oldest slot and the truncated mean of the ring.
 */
module MovingAverage {
  import opened CArith

  function Sum(s: seq<int>): int
  {
    if s == [] then 0 else Sum(s[..|s| - 1]) + s[|s| - 1]
  }

  lemma {:induction false} SumConcat(a: seq<int>, b: seq<int>)
    ensures Sum(a + b) == Sum(a) + Sum(b)
  {
    if b != [] {
      assert (a + b)[..|a + b| - 1] == a + b[..|b| - 1];
      SumConcat(a, b[..|b| - 1]);
    } else {
      assert a + b == a;
    }
  }

  /** Replacing one sample changes the sum by the difference. */
  lemma SumUpdate(s: seq<int>, k: int, x: int)
    requires 0 <= k < |s|
    ensures Sum(s[k := x]) == Sum(s) - s[k] + x
  {
    assert s == s[..k] + [s[k]] + s[k + 1..];
    assert s[k := x] == s[..k] + [x] + s[k + 1..];
    SumConcat(s[..k] + [s[k]], s[k + 1..]);
    SumConcat(s[..k], [s[k]]);
    SumConcat(s[..k] + [x], s[k + 1..]);
    SumConcat(s[..k], [x]);
  }

  /** Reading a ring from any starting slot does not change its sum. */
  lemma SumRotate(s: seq<int>, c: int)
    requires 0 <= c <= |s|
    ensures Sum(s[c..] + s[..c]) == Sum(s)
  {
    SumConcat(s[c..], s[..c]);
    SumConcat(s[..c], s[c..]);
    assert s[..c] + s[c..] == s;
  }

  /** The cursor after one sample: incremented, and returned to zero at the end of the ring. */
  function Advance(c: int, w: int): (n: int)
    requires 0 <= c < w
    ensures 0 <= n < w
  {
    if c + 1 >= w then 0 else c + 1
  }

  /** Advancing the cursor is addition modulo the window length. */
  lemma AdvanceIsModular(c: int, w: int)
    requires 0 <= c < w
    ensures Advance(c, w) == (c + 1) % w
  {
  }

  /** The ring read from the oldest sample (slot `c`) to the newest. */
  function Ordered(slots: seq<int>, c: int): seq<int>
    requires 0 <= c <= |slots|
  {
    slots[c..] + slots[..c]
  }

  /**
   * Storing a sample at the cursor and advancing the cursor drops the oldest
   * sample of the ordered window and appends the new one.
   */
  lemma OrderedAdvance(slots: seq<int>, c: int, x: int)
    requires 0 <= c < |slots|
    ensures Ordered(slots[c := x], Advance(c, |slots|)) == Ordered(slots, c)[1..] + [x]
  {
    if c + 1 < |slots| {
      OrderedAdvanceInner(slots, c, x);
    } else {
      OrderedAdvanceLast(slots, c, x);
    }
  }

  lemma OrderedAdvanceInner(slots: seq<int>, c: int, x: int)
    requires 0 <= c && c + 1 < |slots|
    ensures Ordered(slots[c := x], c + 1) == Ordered(slots, c)[1..] + [x]
  {
    var s' := slots[c := x];
    assert s'[c + 1..] == slots[c + 1..];
    assert s'[..c + 1] == slots[..c] + [x];
    assert (slots[c..] + slots[..c])[1..] == slots[c + 1..] + slots[..c];
  }

  lemma OrderedAdvanceLast(slots: seq<int>, c: int, x: int)
    requires 0 <= c && c + 1 == |slots|
    ensures Ordered(slots[c := x], 0) == Ordered(slots, c)[1..] + [x]
  {
    var s' := slots[c := x];
    assert s'[0..] + s'[..0] == s';
    assert s' == slots[..c] + [x];
    assert slots[c..] == [slots[c]];
    assert (slots[c..] + slots[..c])[1..] == slots[..c];
  }

  /** The window that results from feeding `xs` one by one into a window holding `w`. */
  function Feed(w: seq<int>, xs: seq<int>): (r: seq<int>)
    requires |w| > 0
    ensures |r| == |w|
    decreases xs
  {
    if xs == [] then w else Feed(w[1..] + [xs[0]], xs[1..])
  }

  /**
   * The windows after `updateSensorRaw(index, sample)`: the sensor's oldest
   * sample gives way to `sample`; an index that names no sensor (or a window
   * with nothing to give way, which a board never has) is left alone.
   */
  function Pushed(ws: seq<seq<int>>, index: int, sample: int): (r: seq<seq<int>>)
    ensures |r| == |ws|
  {
    if 0 <= index < |ws| && ws[index] != [] then ws[index := ws[index][1..] + [sample]] else ws
  }

  /** The longest of the averaging windows: the number of rounds `initializeSensors` runs. */
  method LongestWindow(windows: seq<nat>) returns (max: int)
    requires |windows| > 0
    ensures max in windows && forall i :: 0 <= i < |windows| ==> windows[i] <= max
  {
    max := 0;
    var n := 0;
    while n < |windows|
      invariant 0 <= n <= |windows|
      invariant forall i :: 0 <= i < n ==> windows[i] <= max
      invariant n == 0 ==> max == 0
      invariant n > 0 ==> max in windows[..n]
    {
      if windows[n] > max {
        max := windows[n];
      }
      n := n + 1;
    }
  }

  /** Feeding one more sample drops the oldest of the window fed so far and appends the sample. */
  lemma {:induction false} FeedSnoc(w: seq<int>, xs: seq<int>, x: int)
    requires 0 < |w|
    ensures Feed(w, xs + [x]) == Feed(w, xs)[1..] + [x]
    decreases xs
  {
    if xs == [] {
      assert [] + [x] == [x];
      assert [x][1..] == [];
    } else {
      assert (xs + [x])[0] == xs[0];
      assert (xs + [x])[1..] == xs[1..] + [x];
      FeedSnoc(w[1..] + [xs[0]], xs[1..], x);
    }
  }

  /** Once at least a window's worth of samples has been fed, the window holds exactly the latest ones. */
  lemma {:induction false} FeedLatest(w: seq<int>, xs: seq<int>)
    requires 0 < |w|
    ensures |xs| >= |w| ==> Feed(w, xs) == xs[|xs| - |w|..]
    ensures |xs| < |w| ==> Feed(w, xs) == w[|xs|..] + xs
    decreases xs
  {
    if xs != [] {
      var w' := w[1..] + [xs[0]];
      FeedLatest(w', xs[1..]);
      if |xs| < |w| {
        assert w'[|xs| - 1..] + xs[1..] == w[|xs|..] + xs;
      } else if |xs| - 1 < |w'| {
        assert w'[|xs| - 1..] == [xs[0]];
        assert [xs[0]] + xs[1..] == xs;
      } else {
        assert xs[1..][|xs| - 1 - |w'|..] == xs[|xs| - |w|..];
      }
    } else {
      assert w[0..] + [] == w;
    }
  }

  /**
   * The sensor state of one board: `past[i]` is channel i's sample ring,
   * `accumulators`, `iterators` and `averages` are the per-channel arrays the
   * firmware indexes by sensor number.
   */
  class SensorBank {
    const windows: seq<nat>
    const past: seq<array<int>>
    var accumulators: seq<int>
    var iterators: seq<int>
    var averages: seq<int>

    ghost predicate Valid()
      reads this, past
    {
      |past| == |windows| == |accumulators| == |iterators| == |averages|
      && (forall i :: 0 <= i < |past| ==> past[i].Length == windows[i] > 0)
      && (forall i, j :: 0 <= i < j < |past| ==> past[i] != past[j])
      && (forall i :: 0 <= i < |past| ==> 0 <= iterators[i] < windows[i])
      && (forall i :: 0 <= i < |past| ==> accumulators[i] == Sum(past[i][..]))
      && (forall i :: 0 <= i < |past| ==> averages[i] == TruncDiv(accumulators[i], windows[i]))
    }

    /** Channel i's samples, oldest first. */
    ghost function Window(i: int): (w: seq<int>)
      reads this, past
      requires Valid() && 0 <= i < |past|
      ensures |w| == windows[i]
    {
      Ordered(past[i][..], iterators[i])
    }

    /** Every channel's samples, oldest first, in channel order. */
    ghost function Windows(): (ws: seq<seq<int>>)
      reads this, past
      requires Valid()
      ensures |ws| == |past| && forall i :: 0 <= i < |past| ==> ws[i] == Window(i) && |ws[i]| == windows[i]
    {
      seq(|past|, i requires 0 <= i < |past| && Valid() reads this, past => Window(i))
    }

    /** Zero-initialised rings, as for a statically allocated board object. */
    constructor (windowLengths: seq<nat>)
      requires forall i :: 0 <= i < |windowLengths| ==> windowLengths[i] > 0
      ensures Valid()
      ensures windows == windowLengths
      ensures forall i :: 0 <= i < |past| ==> fresh(past[i]) && past[i][..] == Zeros(windows[i])
      ensures accumulators == averages == iterators == Zeros(|windowLengths|)
    {
      var rings: seq<array<int>> := [];
      var n := 0;
      while n < |windowLengths|
        invariant 0 <= n <= |windowLengths| && |rings| == n
        invariant forall i :: 0 <= i < n ==> fresh(rings[i])
        invariant forall i :: 0 <= i < n ==> rings[i].Length == windowLengths[i]
        invariant forall i :: 0 <= i < n ==> rings[i][..] == Zeros(windowLengths[i])
        invariant forall i, j :: 0 <= i < j < n ==> rings[i] != rings[j]
      {
        var a := new int[windowLengths[n]](_ => 0);
        assert a[..] == Zeros(windowLengths[n]);
        rings := rings + [a];
        n := n + 1;
      }
      windows := windowLengths;
      past := rings;
      accumulators := Zeros(|windowLengths|);
      iterators := Zeros(|windowLengths|);
      averages := Zeros(|windowLengths|);
      new;
      forall i | 0 <= i < |past|
        ensures accumulators[i] == Sum(past[i][..])
      {
        SumZeros(windows[i]);
      }
    }

    /**
     * `updateSensorRaw(index, sample)`: the oldest sample of the channel is taken
     * out of the accumulator, replaced by `sample` and added back; the average is
     * recomputed and the cursor advances, wrapping to 0. An index that names no
     * channel changes nothing.
     */
    method Update(index: int, sample: int)
      requires Valid()
      modifies this, past
      ensures Valid()
      ensures !(0 <= index < |past|) ==>
        accumulators == old(accumulators) && iterators == old(iterators) && averages == old(averages)
      ensures 0 <= index < |past| ==>
        && past[index][..] == old(past[index][..])[old(iterators[index]) := sample]
        && iterators == old(iterators)[index := Advance(old(iterators[index]), windows[index])]
        && accumulators == old(accumulators)[index := old(accumulators[index]) - old(past[index][iterators[index]]) + sample]
        && averages == old(averages)[index := TruncDiv(accumulators[index], windows[index])]
        && Window(index) == old(Window(index))[1..] + [sample]
      ensures forall j :: 0 <= j < |past| && j != index ==> past[j][..] == old(past[j][..])
    {
      if !(0 <= index < |past|) {
        return;
      }
      var ring := past[index];
      var it := iterators[index];
      ghost var before := ring[..];
      var acc := accumulators[index] - ring[it];
      ring[it] := sample;
      acc := acc + ring[it];
      accumulators := accumulators[index := acc];
      averages := averages[index := TruncDiv(acc, windows[index])];
      it := it + 1;
      if it >= windows[index] {
        it := 0;
      }
      iterators := iterators[index := it];
      forall j | 0 <= j < |past| && j != index
        ensures past[j][..] == old(past[j][..])
      {
        assert past[j] != ring;
      }
      assert ring[..] == before[old(iterators[index]) := sample];
      SumUpdate(before, old(iterators[index]), sample);
      OrderedAdvance(before, old(iterators[index]), sample);
    }

    /** The stored average is the truncated mean of the samples in the window. */
    lemma AverageIsWindowMean(i: int)
      requires Valid() && 0 <= i < |past|
      ensures averages[i] == TruncDiv(Sum(Window(i)), windows[i])
      ensures |Window(i)| == windows[i]
    {
      SumRotate(past[i][..], iterators[i]);
    }
  }

  function Zeros(n: nat): (z: seq<int>)
    ensures |z| == n && forall i :: 0 <= i < n ==> z[i] == 0
  {
    seq(n, _ => 0)
  }

  lemma {:induction false} SumZeros(n: nat)
    ensures Sum(Zeros(n)) == 0
  {
    if n > 0 {
      assert Zeros(n)[..n - 1] == Zeros(n - 1);
      SumZeros(n - 1);
    }
  }
}
