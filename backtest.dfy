/**
 * What the two historical backtest scripts share: the download check, the
 * guard that decides which days yield a row, the windowed median and mean,
 * and the layout of a row (eight indicator cells, four condition labels, the
 * final flag and fourteen lookahead cells, blank on an unsuitable day).
 */
module Backtest {
  import opened Wrappers
  import opened Series
  import opened Stats
  import opened Signals
  import opened Report
  import opened GapIndicators

  /** The number of calendar days the backtest looks ahead. */
  const LookaheadDays: int := 14

  /** `download_data`: an empty download raises, anything else is returned as it is. */
  function DownloadData(s: seq<Obs>): (r: Result<seq<Obs>, Fault>)
    ensures r.Success? <==> |s| > 0
    ensures r.Success? ==> r.value == s
    ensures r.Failure? ==> r.error == NoData
  {
    if |s| == 0 then Failure(NoData) else Success(s)
  }

  /**
   * The day `index[i]` yields a row: the rate series holds that date and both
   * closes are truthy, that is non-zero.
   */
  predicate Emits(index: seq<Obs>, rate: seq<Obs>, i: int)
    requires 0 <= i < |index|
  {
    var today := Find(rate, index[i].day);
    today.Some? && index[i].close != 0.0 && today.value != 0.0
  }

  /**
   * `calculate_median_and_mean`: the median and the mean of the closes whose
   * day lies in the inclusive range [lo, hi]; both are positive when those
   * closes are.
   */
  function MedianAndMean(s: seq<Obs>, lo: int, hi: int): (r: (real, real))
    requires |Window(s, lo, hi)| > 0
    ensures Positive(Window(s, lo, hi)) ==> r.0 > 0.0 && r.1 > 0.0
  {
    var w := Closes(Window(s, lo, hi));
    assert Positive(Window(s, lo, hi)) ==> Median(w) > 0.0 && Mean(w) > 0.0 by {
      if Positive(Window(s, lo, hi)) {
        MedianPositive(w);
        MeanPositive(w);
      }
    }
    (Median(w), Mean(w))
  }

  /** Looking a day of the range up in the window finds what looking it up in the whole series finds. */
  lemma {:induction false} WindowFind(s: seq<Obs>, lo: int, hi: int, d: int)
    requires lo <= d <= hi
    ensures Find(Window(s, lo, hi), d) == Find(s, d)
  {
    if |s| > 0 {
      var rest := Window(s[1..], lo, hi);
      WindowFind(s[1..], lo, hi, d);
      if lo <= s[0].day <= hi {
        assert Window(s, lo, hi) == [s[0]] + rest;
        assert ([s[0]] + rest)[1..] == rest;
      } else {
        assert Window(s, lo, hi) == rest;
      }
    }
  }

  /** A window of a positive series is positive. */
  lemma WindowPositive(s: seq<Obs>, lo: int, hi: int)
    requires Positive(s)
    ensures Positive(Window(s, lo, hi))
  {
    var w := Window(s, lo, hi);
    WindowMembers(s, lo, hi);
    forall i | 0 <= i < |w| ensures w[i].close > 0.0 {
      assert w[i] in s;
      var k :| 0 <= k < |s| && s[k] == w[i];
    }
  }

  /**
   * A day of `a` that `b` also holds, inside the range, makes both windows
   * non-empty and gives their matching at least one pair.
   */
  lemma CommonDayInWindows(a: seq<Obs>, b: seq<Obs>, i: int, lo: int, hi: int)
    requires 0 <= i < |a| && Find(b, a[i].day).Some? && lo <= a[i].day <= hi
    ensures |Window(a, lo, hi)| > 0 && |Window(b, lo, hi)| > 0
    ensures |Matched(Window(a, lo, hi), Window(b, lo, hi))| > 0
  {
    var d := a[i].day;
    var wa, wb := Window(a, lo, hi), Window(b, lo, hi);
    WindowFind(a, lo, hi, d);
    WindowFind(b, lo, hi, d);
    WindowMembers(a, lo, hi);
    assert Find(a, d).Some?;
    var j :| 0 <= j < |wa| && wa[j] == Obs(d, Find(a, d).value);
    MatchedComplete(wa, wb, j);
  }

  /** The windows of two positive series around a common day are non-empty, positive, and share a day. */
  lemma PositiveCommonWindows(a: seq<Obs>, b: seq<Obs>, i: int, lo: int, hi: int)
    requires Positive(a) && Positive(b)
    requires 0 <= i < |a| && Find(b, a[i].day).Some? && lo <= a[i].day <= hi
    ensures var wa, wb := Window(a, lo, hi), Window(b, lo, hi);
            |wa| > 0 && |wb| > 0 && |Matched(wa, wb)| > 0 && Positive(wa) && Positive(wb)
  {
    CommonDayInWindows(a, b, i, lo, hi);
    WindowPositive(a, lo, hi);
    WindowPositive(b, lo, hi);
  }

  /** `'적합' if all(conditions) else '부적합'` */
  function FinalSuitability(c: seq<bool>): (s: string)
    ensures s == Suitable <==> forall i :: 0 <= i < |c| ==> c[i]
  {
    if CountTrue(c) == |c| then Suitable else Unsuitable
  }

  /** `['' for _ in range(1, 15)]` */
  function Blanks(): (cells: seq<Cell>)
    ensures |cells| == LookaheadDays
    ensures forall k :: 0 <= k < |cells| ==> cells[k] == Text("")
  {
    seq(LookaheadDays, _ => Text(""))
  }

  /**
   * The eight leading cells of a row: the date, the estimate in the given
   * unit, the current gap ratio, today's index and rate, the average gap
   * ratio and the two means.
   */
  function Leading(date: int, k: Core, estimateUnit: string): (cells: seq<Cell>)
    ensures |cells| == 8 && cells[0] == Day(date)
    ensures cells[1] == Shown(k.rateEstimate, estimateUnit) && cells[2] == Shown(k.gapRatioNew, "%")
    ensures cells[3] == Number(k.todayIndex) && cells[4] == Number(k.todayRate)
    ensures cells[5] == Shown(k.avgGapRatio, "%")
    ensures cells[6] == Number(k.avgIndex) && cells[7] == Number(k.avgRate)
  {
    [ Day(date), Shown(k.rateEstimate, estimateUnit), Shown(k.gapRatioNew, "%"), Number(k.todayIndex),
      Number(k.todayRate), Shown(k.avgGapRatio, "%"), Number(k.avgIndex), Number(k.avgRate) ]
  }

  /**
   * The row of a day with indicators `k`: the leading cells, the four
   * condition labels, the final flag, and the lookahead cells when the day
   * is suitable or blanks when it is not.
   */
  function BacktestRow(date: int, k: Core, estimateUnit: string, profitLoss: seq<Cell>): (row: seq<Cell>)
    requires |profitLoss| == LookaheadDays
    ensures |row| == 27
  {
    var conditions := CheckConditions(k);
    var final := FinalSuitability(conditions);
    Leading(date, k, estimateUnit) + LabelCells(conditions) + [Text(final)]
    + (if final == Suitable then profitLoss else Blanks())
  }

  /**
   * A row starts with its date, the estimate, the current gap ratio, today's
   * values, the average gap ratio and the means, followed by the four
   * condition labels.
   */
  lemma RowCells(date: int, k: Core, estimateUnit: string, profitLoss: seq<Cell>)
    requires |profitLoss| == LookaheadDays
    ensures var row := BacktestRow(date, k, estimateUnit, profitLoss);
            && row[0] == Day(date) && row[1] == Shown(k.rateEstimate, estimateUnit)
            && row[2] == Shown(k.gapRatioNew, "%")
            && row[3] == Number(k.todayIndex) && row[4] == Number(k.todayRate)
            && row[5] == Shown(k.avgGapRatio, "%")
            && row[6] == Number(k.avgIndex) && row[7] == Number(k.avgRate)
            && row[8..12] == LabelCells(CheckConditions(k))
  {
    var c := CheckConditions(k);
    var final := FinalSuitability(c);
    var tail := [Text(final)] + (if final == Suitable then profitLoss else Blanks());
    var row := BacktestRow(date, k, estimateUnit, profitLoss);
    assert row == Leading(date, k, estimateUnit) + (LabelCells(c) + tail);
    assert row[8..12] == (LabelCells(c) + tail)[..4];
  }

  /**
   * The final flag of a row reads '적합' exactly when all four condition
   * labels do, and the lookahead cells are filled only then.
   */
  lemma RowFinal(date: int, k: Core, estimateUnit: string, profitLoss: seq<Cell>)
    requires |profitLoss| == LookaheadDays
    ensures var row := BacktestRow(date, k, estimateUnit, profitLoss);
            && (row[12] == Text(Suitable) <==> CountSuitable(row[8..12]) == 4)
            && (row[12] == Text(Suitable) ==> row[13..] == profitLoss)
            && (row[12] != Text(Suitable) ==> row[13..] == Blanks())
  {
    var row := BacktestRow(date, k, estimateUnit, profitLoss);
    var c := CheckConditions(k);
    var final := FinalSuitability(c);
    var tail := [Text(final)] + (if final == Suitable then profitLoss else Blanks());
    assert row == Leading(date, k, estimateUnit) + LabelCells(c) + tail;
    assert row[12..] == tail;
    assert row[12] == Text(final);
    assert row[13..] == tail[1..];
    RowCells(date, k, estimateUnit, profitLoss);
    CountSuitableLabels(c);
  }

  /**
   * The result list of a date loop that appends the rows each day yields:
   * the rows of `parts[0]`, then those of `parts[1]`, and so on.
   */
  function Flatten<T>(parts: seq<seq<T>>): seq<T>
  {
    if |parts| == 0 then [] else Flatten(parts[..|parts| - 1]) + parts[|parts| - 1]
  }

  /** The days whose part is non-empty, as indices in day order. */
  function Contributors<T>(parts: seq<seq<T>>): (e: seq<int>)
    ensures forall j :: 0 <= j < |e| ==> 0 <= e[j] < |parts| && parts[e[j]] != []
  {
    if |parts| == 0 then []
    else
      var init := parts[..|parts| - 1];
      Contributors(init) + (if parts[|parts| - 1] != [] then [|parts| - 1] else [])
  }

  /** One more pass of the loop appends the rows of that day. */
  lemma FlattenSnoc<T>(parts: seq<seq<T>>, last: seq<T>)
    ensures Flatten(parts + [last]) == Flatten(parts) + last
  {
    assert (parts + [last])[..|parts|] == parts;
  }

  /** When each day yields at most one row, there are as many rows as contributing days. */
  lemma {:induction false} FlattenLength<T>(parts: seq<seq<T>>)
    requires forall i :: 0 <= i < |parts| ==> |parts[i]| <= 1
    ensures |Flatten(parts)| == |Contributors(parts)|
  {
    if |parts| > 0 {
      FlattenLength(parts[..|parts| - 1]);
    }
  }

  /** When each day yields at most one row, row `j` is the row of the `j`-th contributing day. */
  lemma {:induction false} FlattenAt<T>(parts: seq<seq<T>>, j: int)
    requires forall i :: 0 <= i < |parts| ==> |parts[i]| <= 1
    requires 0 <= j < |Contributors(parts)|
    ensures j < |Flatten(parts)|
    ensures Flatten(parts)[j] == parts[Contributors(parts)[j]][0]
  {
    var init := parts[..|parts| - 1];
    FlattenLength(init);
    FlattenLength(parts);
    if j < |Contributors(init)| {
      FlattenAt(init, j);
      assert Contributors(parts)[j] == Contributors(init)[j];
      assert init[Contributors(init)[j]] == parts[Contributors(init)[j]];
    } else {
      assert Contributors(parts)[j] == |parts| - 1;
    }
  }

  /** The contributing days are strictly increasing: day order, each day at most once. */
  lemma {:induction false} ContributorsAscending<T>(parts: seq<seq<T>>)
    ensures forall j, l :: 0 <= j < l < |Contributors(parts)| ==> Contributors(parts)[j] < Contributors(parts)[l]
  {
    if |parts| > 0 {
      ContributorsAscending(parts[..|parts| - 1]);
    }
  }

  /** Every day with a non-empty part is among the contributing days. */
  lemma {:induction false} ContributorsComplete<T>(parts: seq<seq<T>>, i: int)
    requires 0 <= i < |parts| && parts[i] != []
    ensures i in Contributors(parts)
  {
    var init := parts[..|parts| - 1];
    if i < |init| {
      assert init[i] == parts[i];
      ContributorsComplete(init, i);
    }
  }
}
