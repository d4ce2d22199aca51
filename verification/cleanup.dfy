/**
 * `cleanup.py`, the pass over a monitoring log in CSV form: every `???` or
 * `Error` cell of a data row is replaced by the cell above it, already
 * cleaned, and the numeric cells are averaged per minute into a summary table
 * whose first line is the header.
 *
 * Reading and writing the files is not modelled: the rows arrive as a
 * parameter and the two tables are the results. `round(acc/n)` is kept as the
 * pair (sum, count) it is computed from.
 */
module CsvCleanup {
  import opened CText
  import opened HostReply

  /** The column holding the minute of each row. */
  const MINUTEINDEX := 4

  /** The placeholders the monitoring scripts write for a failed reading. */
  predicate IsPlaceholder(cell: string)
  {
    cell == "???" || cell == "Error"
  }

  /**
   * What the loop needs of the table: a header and at least one data row
   * (`data1min[0]` is assigned at the end), every data row at least as wide as
   * the header and holding a minute column, and every non-placeholder cell
   * under the header a number for `int`.
   */
  predicate WellFormed(data: seq<seq<string>>)
  {
    && |data| >= 2
    && (forall n :: 1 <= n < |data| ==> |data[n]| >= |data[0]| && |data[n]| > MINUTEINDEX)
    && (forall n, m :: 1 <= n < |data| && 0 <= m < |data[0]| && !IsPlaceholder(data[n][m]) ==> IsIntText(data[n][m]))
  }

  // ---------------------------------------------------------------------------
  // Fill-forward

  /**
   * The row whose cell `m` fills row `n`: the nearest row at or above `n`
   * whose cell is not a placeholder, or the header when there is none.
   */
  function SourceRow(data: seq<seq<string>>, n: nat, m: nat): (r: nat)
    requires WellFormed(data) && n < |data| && m < |data[0]|
    ensures r <= n
    ensures r == 0 || !IsPlaceholder(data[r][m])
    ensures forall k :: r < k <= n ==> IsPlaceholder(data[k][m])
    decreases n
  {
    if n == 0 || !IsPlaceholder(data[n][m]) then n else SourceRow(data, n - 1, m)
  }

  /** A cell that is not a placeholder is its own source. */
  lemma RealCellIsOwnSource(data: seq<seq<string>>, n: nat, m: nat)
    requires WellFormed(data) && n < |data| && m < |data[0]| && !IsPlaceholder(data[n][m])
    ensures SourceRow(data, n, m) == n
  {
  }

  // ---------------------------------------------------------------------------
  // Minute groups

  /** Row `n` opens a minute group: it is the first data row or its minute text differs from the row above. */
  predicate IsStart(data: seq<seq<string>>, n: nat)
    requires WellFormed(data) && 1 <= n < |data|
  {
    n == 1 || data[n][MINUTEINDEX] != data[n - 1][MINUTEINDEX]
  }

  /** The rows among `1..k-1` that open a minute group, in order. */
  function StartsBefore(data: seq<seq<string>>, k: nat): (st: seq<nat>)
    requires WellFormed(data) && 1 <= k <= |data|
    ensures forall j :: 0 <= j < |st| ==> 1 <= st[j] < k
    ensures forall i, j :: 0 <= i < j < |st| ==> st[i] < st[j]
    ensures k > 1 ==> |st| > 0 && st[0] == 1
    decreases k
  {
    if k == 1 then [] else StartsBefore(data, k - 1) + (if IsStart(data, k - 1) then [k - 1] else [])
  }

  /** The rows listed are exactly the group starts among `1..k-1`. */
  lemma {:induction false} StartsBeforeExact(data: seq<seq<string>>, k: nat)
    requires WellFormed(data) && 1 <= k <= |data|
    ensures forall r :: 1 <= r < k ==> (r in StartsBefore(data, k) <==> IsStart(data, r))
    decreases k
  {
    if k > 1 {
      StartsBeforeExact(data, k - 1);
    }
  }

  /** `int(cell)` of a numeric cell; a placeholder adds nothing. */
  function CellValue(cell: string): int
  {
    if IsPlaceholder(cell) then 0 else TryValueInt(cell).0
  }

  /** The sum of the numeric cells of column `m` in rows `s..e-1`. */
  function ColumnSum(data: seq<seq<string>>, s: nat, e: nat, m: nat): int
    requires WellFormed(data) && 1 <= s <= e <= |data| && m < |data[0]|
    decreases e
  {
    if e == s then 0 else ColumnSum(data, s, e - 1, m) + CellValue(data[e - 1][m])
  }

  /** The number of numeric cells of column `m` in rows `s..e-1`. */
  function ColumnCount(data: seq<seq<string>>, s: nat, e: nat, m: nat): (c: int)
    requires WellFormed(data) && 1 <= s <= e <= |data| && m < |data[0]|
    ensures 0 <= c <= e - s
    decreases e
  {
    if e == s then 0 else ColumnCount(data, s, e - 1, m) + (if IsPlaceholder(data[e - 1][m]) then 0 else 1)
  }

  /** A column without a number in the group sums to 0, the value the summary then shows. */
  lemma {:induction false} EmptyColumnSumsToZero(data: seq<seq<string>>, s: nat, e: nat, m: nat)
    requires WellFormed(data) && 1 <= s <= e <= |data| && m < |data[0]|
    requires ColumnCount(data, s, e, m) == 0
    ensures ColumnSum(data, s, e, m) == 0
    ensures forall k :: s <= k < e ==> IsPlaceholder(data[k][m])
    decreases e
  {
    if e > s {
      EmptyColumnSumsToZero(data, s, e - 1, m);
    }
  }

  /**
   * One cell of the summary: `round(sum/count)` when the column had numbers in
   * the minute, `sum` (which is then 0) otherwise.
   */
  datatype Mean = Mean(sum: int, count: int)

  /** A line of `data1min`: the header, or the means of one minute. */
  datatype SummaryRow = Header(names: seq<string>) | Means(cells: seq<Mean>)

  /** The means of each header column over rows `s..e-1`. */
  function GroupMeans(data: seq<seq<string>>, s: nat, e: nat): (line: seq<Mean>)
    requires WellFormed(data) && 1 <= s <= e <= |data|
    ensures |line| == |data[0]|
  {
    seq(|data[0]|, m requires 0 <= m < |data[0]| => Mean(ColumnSum(data, s, e, m), ColumnCount(data, s, e, m)))
  }

  /** The line the first group start appends: the accumulators as initialised, all zero. */
  function EmptyMeans(width: nat): (line: seq<Mean>)
    ensures |line| == width && forall m :: 0 <= m < width ==> line[m] == Mean(0, 0)
  {
    seq(width, _ => Mean(0, 0))
  }

  /** The start of the group that row `k - 1` belongs to: the nearest group start at or above it. */
  function LastStart(data: seq<seq<string>>, k: nat): (s: nat)
    requires WellFormed(data) && 1 < k <= |data|
    ensures 1 <= s < k && IsStart(data, s)
    ensures forall r :: s < r < k ==> !IsStart(data, r)
    decreases k
  {
    if IsStart(data, k - 1) then k - 1 else LastStart(data, k - 1)
  }

  /** That start is the last one `StartsBefore` lists. */
  lemma {:induction false} LastStartIsLast(data: seq<seq<string>>, k: nat)
    requires WellFormed(data) && 1 < k <= |data|
    ensures var st := StartsBefore(data, k); LastStart(data, k) == st[|st| - 1]
    decreases k
  {
    if !IsStart(data, k - 1) {
      LastStartIsLast(data, k - 1);
    }
  }

  /**
   * The summary lines the loop has appended before row `k`, one per group
   * start: the first flushes the empty accumulators; each later one the group
   * that has just ended.
   */
  function Emitted(data: seq<seq<string>>, k: nat): (rows: seq<SummaryRow>)
    requires WellFormed(data) && 1 <= k <= |data|
    ensures |rows| < k && (k > 1 ==> |rows| > 0)
    decreases k
  {
    if k == 1 then []
    else if !IsStart(data, k - 1) then Emitted(data, k - 1)
    else if k == 2 then [Means(EmptyMeans(|data[0]|))]
    else Emitted(data, k - 1) + [Means(GroupMeans(data, LastStart(data, k - 1), k - 1))]
  }

  /**
   * The emitted summary has one line per group start. Line 0 holds the empty
   * accumulators, and each later line `j` holds the means of the group from
   * start `j - 1` up to start `j`. The group after the last start never gets
   * a line.
   */
  lemma {:induction false} EmittedGroups(data: seq<seq<string>>, k: nat)
    requires WellFormed(data) && 1 <= k <= |data|
    ensures var st := StartsBefore(data, k);
      && |Emitted(data, k)| == |st|
      && (k > 1 ==> Emitted(data, k)[0] == Means(EmptyMeans(|data[0]|)))
      && forall j :: 1 <= j < |st| ==> Emitted(data, k)[j] == Means(GroupMeans(data, st[j - 1], st[j]))
    decreases k
  {
    if k > 1 {
      EmittedGroups(data, k - 1);
      if IsStart(data, k - 1) && k > 2 {
        var st := StartsBefore(data, k);
        var prev := StartsBefore(data, k - 1);
        assert st == prev + [k - 1];
        LastStartIsLast(data, k - 1);
        forall j | 1 <= j < |st|
          ensures Emitted(data, k)[j] == Means(GroupMeans(data, st[j - 1], st[j]))
        {
          if j < |st| - 1 {
            assert Emitted(data, k)[j] == Emitted(data, k - 1)[j];
          }
        }
      }
    }
  }

  // ---------------------------------------------------------------------------
  // The pass

  /** The inner `for m` loop over one data row: placeholders copied from the row above, numbers accumulated. */
  method FillRow(above: seq<string>, row: seq<string>, acc: seq<int>, cnt: seq<int>)
    returns (row': seq<string>, acc': seq<int>, cnt': seq<int>)
    requires |acc| == |cnt| <= |row| && |acc| <= |above|
    requires forall m :: 0 <= m < |acc| && !IsPlaceholder(row[m]) ==> IsIntText(row[m])
    ensures |row'| == |row| && |acc'| == |cnt'| == |acc|
    ensures forall m :: 0 <= m < |acc| ==> row'[m] == if IsPlaceholder(row[m]) then above[m] else row[m]
    ensures forall m :: |acc| <= m < |row| ==> row'[m] == row[m]
    ensures forall m :: 0 <= m < |acc| ==> acc'[m] == acc[m] + CellValue(row[m])
    ensures forall m :: 0 <= m < |acc| ==> cnt'[m] == cnt[m] + (if IsPlaceholder(row[m]) then 0 else 1)
  {
    row', acc', cnt' := row, acc, cnt;
    var m := 0;
    while m < |acc|
      invariant 0 <= m <= |acc|
      invariant |row'| == |row| && |acc'| == |cnt'| == |acc|
      invariant forall k :: 0 <= k < m ==> row'[k] == if IsPlaceholder(row[k]) then above[k] else row[k]
      invariant forall k :: m <= k < |row| ==> row'[k] == row[k]
      invariant forall k :: 0 <= k < m ==> acc'[k] == acc[k] + CellValue(row[k])
      invariant forall k :: m <= k < |acc| ==> acc'[k] == acc[k]
      invariant forall k :: 0 <= k < m ==> cnt'[k] == cnt[k] + (if IsPlaceholder(row[k]) then 0 else 1)
      invariant forall k :: m <= k < |acc| ==> cnt'[k] == cnt[k]
    {
      if row'[m] == "???" || row'[m] == "Error" {
        row' := row'[m := above[m]];
      } else {
        acc' := acc'[m := acc'[m] + TryValueInt(row'[m]).0];
        cnt' := cnt'[m := cnt'[m] + 1];
      }
      m := m + 1;
    }
  }

  /** The summary line of the `for m` loop at a group start, before `round` is applied. */
  method MeanLine(acc: seq<int>, cnt: seq<int>) returns (line: seq<Mean>)
    requires |acc| == |cnt|
    ensures |line| == |acc| && forall m :: 0 <= m < |acc| ==> line[m] == Mean(acc[m], cnt[m])
  {
    line := [];
    var m := 0;
    while m < |acc|
      invariant 0 <= m <= |acc| && |line| == m
      invariant forall k :: 0 <= k < m ==> line[k] == Mean(acc[k], cnt[k])
    {
      line := line + [Mean(acc[m], cnt[m])];
      m := m + 1;
    }
  }

  /** Freshly reset accumulators describe the empty group at `s`. */
  lemma ZeroAccumulated(data: seq<seq<string>>, s: nat, acc: seq<int>, cnt: seq<int>)
    requires WellFormed(data) && 1 <= s <= |data|
    requires acc == cnt == seq(|data[0]|, _ => 0)
    ensures Accumulated(data, s, s, acc, cnt)
  {
  }

  /** Rows `0..n-1` are cleaned; the rest are as read. */
  ghost predicate CleanedUpTo(data: seq<seq<string>>, n: nat, rows: seq<seq<string>>)
    requires WellFormed(data) && 1 <= n <= |data|
  {
    && |rows| == |data| && rows[0] == data[0]
    && (forall k :: 0 <= k < |data| ==> |rows[k]| == |data[k]|)
    && (forall k :: n <= k < |data| ==> rows[k] == data[k])
    && (forall k, m :: 0 <= k < n && 0 <= m < |data[0]| ==> rows[k][m] == data[SourceRow(data, k, m)][m])
    && (forall k, m :: 0 <= k < n && |data[0]| <= m < |data[k]| ==> rows[k][m] == data[k][m])
  }

  /** The accumulators hold the column sums and counts of rows `s..e-1`. */
  ghost predicate Accumulated(data: seq<seq<string>>, s: nat, e: nat, acc: seq<int>, cnt: seq<int>)
    requires WellFormed(data) && 1 <= s <= e <= |data|
  {
    && |acc| == |cnt| == |data[0]|
    && forall m :: 0 <= m < |data[0]| ==> acc[m] == ColumnSum(data, s, e, m) && cnt[m] == ColumnCount(data, s, e, m)
  }

  /** The start of the group the accumulators describe before row `n`; before the first data row, the empty group at 1. */
  function GroupStart(data: seq<seq<string>>, n: nat): (s: nat)
    requires WellFormed(data) && 1 <= n <= |data|
    ensures 1 <= s <= n
  {
    if n == 1 then 1 else LastStart(data, n)
  }

  /**
   * The state of the pass before row `n`: the summary lines emitted so far,
   * the minute text of the row above and the accumulators of its group.
   */
  ghost predicate Grouped(data: seq<seq<string>>, n: nat, minute: Option<string>, summary: seq<SummaryRow>,
                          acc: seq<int>, cnt: seq<int>)
    requires WellFormed(data) && 1 <= n <= |data|
  {
    && summary == Emitted(data, n)
    && minute == (if n == 1 then None else Some(data[n - 1][MINUTEINDEX]))
    && Accumulated(data, GroupStart(data, n), n, acc, cnt)
  }

  /**
   * The `if` at the top of the row loop: when the minute text of row `n`
   * differs from the one remembered, the accumulators are flushed as a
   * summary line and reset.
   */
  method StartGroup(data: seq<seq<string>>, n: nat, minuteText: string, minute: Option<string>,
                    summary: seq<SummaryRow>, acc: seq<int>, cnt: seq<int>)
    returns (minute': Option<string>, summary': seq<SummaryRow>, acc': seq<int>, cnt': seq<int>)
    requires WellFormed(data) && 1 <= n < |data| && minuteText == data[n][MINUTEINDEX]
    requires |acc| == |cnt| == |data[0]| && Grouped(data, n, minute, summary, acc, cnt)
    ensures minute' == Some(data[n][MINUTEINDEX])
    ensures summary' == Emitted(data, n + 1)
    ensures Accumulated(data, LastStart(data, n + 1), n, acc', cnt')
  {
    minute', summary', acc', cnt' := minute, summary, acc, cnt;
    if minute != Some(minuteText) {
      assert IsStart(data, n);
      minute' := Some(minuteText);
      var line := MeanLine(acc, cnt);
      GroupLine(data, n, acc, cnt, line);
      summary' := summary + [Means(line)];
      acc' := seq(|data[0]|, _ => 0);
      cnt' := seq(|data[0]|, _ => 0);
      ZeroAccumulated(data, n, acc', cnt');
    } else {
      assert !IsStart(data, n);
    }
  }

  /** One pass of the row loop over row `n`: the group check, then the inner `for m` loop. */
  method CleanRow(data: seq<seq<string>>, n: nat, rows: seq<seq<string>>, minute: Option<string>,
                  summary: seq<SummaryRow>, acc: seq<int>, cnt: seq<int>)
    returns (rows': seq<seq<string>>, minute': Option<string>, summary': seq<SummaryRow>, acc': seq<int>, cnt': seq<int>)
    requires WellFormed(data) && 1 <= n < |data| && |acc| == |cnt| == |data[0]|
    requires CleanedUpTo(data, n, rows) && Grouped(data, n, minute, summary, acc, cnt)
    ensures |acc'| == |cnt'| == |data[0]|
    ensures CleanedUpTo(data, n + 1, rows') && Grouped(data, n + 1, minute', summary', acc', cnt')
  {
    var acc0, cnt0;
    minute', summary', acc0, cnt0 := StartGroup(data, n, rows[n][MINUTEINDEX], minute, summary, acc, cnt);
    var row;
    row, acc', cnt' := FillRow(rows[n - 1], rows[n], acc0, cnt0);
    FilledRow(data, n, rows, row);
    AccumulatedRow(data, LastStart(data, n + 1), n, acc0, cnt0, acc', cnt');
    rows' := rows[n := row];
  }

  /** The row loop of `cleanup.py`: every data row cleaned, and one summary line per group start. */
  method RowLoop(data: seq<seq<string>>) returns (rows: seq<seq<string>>, summary: seq<SummaryRow>)
    requires WellFormed(data)
    ensures CleanedUpTo(data, |data|, rows)
    ensures summary == Emitted(data, |data|)
  {
    var width := |data[0]|;
    rows := data;
    summary := [];
    var minute: Option<string> := None;
    var acc: seq<int> := seq(width, _ => 0);
    var cnt: seq<int> := seq(width, _ => 0);
    var n := 1;
    Started(data, acc, cnt);
    while n < |data|
      invariant 1 <= n <= |data| && |acc| == |cnt| == width
      invariant CleanedUpTo(data, n, rows)
      invariant Grouped(data, n, minute, summary, acc, cnt)
    {
      rows, minute, summary, acc, cnt := CleanRow(data, n, rows, minute, summary, acc, cnt);
      n := n + 1;
    }
  }

  /**
   * The row loop of `cleanup.py` and the header assignment after it. Each
   * cleaned cell under the header holds the cell of its source row; cells
   * right of the header are kept. The summary starts with the header and
   * holds, for each group start after the first, the means of the group that
   * ended there.
   */
  method Cleanup(data: seq<seq<string>>) returns (cleaned: seq<seq<string>>, data1min: seq<SummaryRow>)
    requires WellFormed(data)
    ensures |cleaned| == |data| && cleaned[0] == data[0]
    ensures forall n :: 0 <= n < |data| ==> |cleaned[n]| == |data[n]|
    ensures forall n, m :: 0 <= n < |data| && 0 <= m < |data[0]| ==> cleaned[n][m] == data[SourceRow(data, n, m)][m]
    ensures forall n, m :: 0 <= n < |data| && |data[0]| <= m < |data[n]| ==> cleaned[n][m] == data[n][m]
    ensures data1min == [Header(data[0])] + Emitted(data, |data|)[1..]
  {
    var summary;
    cleaned, summary := RowLoop(data);
    data1min := summary[0 := Header(data[0])];
    ReplaceFirst(summary, Header(data[0]));
  }

  /** Before the first data row nothing is cleaned, emitted or accumulated. */
  lemma Started(data: seq<seq<string>>, acc: seq<int>, cnt: seq<int>)
    requires WellFormed(data) && acc == cnt == seq(|data[0]|, _ => 0)
    ensures CleanedUpTo(data, 1, data) && Grouped(data, 1, None, [], acc, cnt)
  {
  }

  /** Overwriting the first line keeps the rest. */
  lemma ReplaceFirst(lines: seq<SummaryRow>, h: SummaryRow)
    requires |lines| > 0
    ensures lines[0 := h] == [h] + lines[1..]
  {
  }

  /** Row `n` after the inner loop, put in place, extends the cleaned prefix by one row. */
  lemma FilledRow(data: seq<seq<string>>, n: nat, rows: seq<seq<string>>, row: seq<string>)
    requires WellFormed(data) && 1 <= n < |data| && CleanedUpTo(data, n, rows)
    requires |row| == |data[n]|
    requires forall m :: 0 <= m < |data[0]| ==> row[m] == if IsPlaceholder(rows[n][m]) then rows[n - 1][m] else rows[n][m]
    requires forall m :: |data[0]| <= m < |data[n]| ==> row[m] == rows[n][m]
    ensures CleanedUpTo(data, n + 1, rows[n := row])
  {
    forall m | 0 <= m < |data[0]|
      ensures row[m] == data[SourceRow(data, n, m)][m]
    {
      assert rows[n - 1][m] == data[SourceRow(data, n - 1, m)][m];
    }
  }

  /** Row `n`'s numbers extend the column sums and counts of the current group by one row. */
  lemma AccumulatedRow(data: seq<seq<string>>, s: nat, n: nat, acc: seq<int>, cnt: seq<int>, acc': seq<int>, cnt': seq<int>)
    requires WellFormed(data) && 1 <= s <= n < |data| && Accumulated(data, s, n, acc, cnt)
    requires |acc'| == |cnt'| == |data[0]|
    requires forall m :: 0 <= m < |data[0]| ==> acc'[m] == acc[m] + CellValue(data[n][m])
    requires forall m :: 0 <= m < |data[0]| ==> cnt'[m] == cnt[m] + (if IsPlaceholder(data[n][m]) then 0 else 1)
    ensures Accumulated(data, s, n + 1, acc', cnt')
  {
  }

  /** The line appended at a group start is the next line `Emitted` predicts. */
  lemma GroupLine(data: seq<seq<string>>, n: nat, acc: seq<int>, cnt: seq<int>, line: seq<Mean>)
    requires WellFormed(data) && 1 <= n < |data| && IsStart(data, n)
    requires |acc| == |cnt| == |line| == |data[0]|
    requires forall m :: 0 <= m < |acc| ==> line[m] == Mean(acc[m], cnt[m])
    requires Accumulated(data, GroupStart(data, n), n, acc, cnt)
    ensures Emitted(data, n + 1) == Emitted(data, n) + [Means(line)]
  {
    if n == 1 {
      assert line == EmptyMeans(|data[0]|);
    } else {
      assert line == GroupMeans(data, LastStart(data, n), n);
    }
  }
}
