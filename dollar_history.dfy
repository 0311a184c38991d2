/**
 * `calculate_52_week_dollar_all_period_exchange_rate.py`: a backtest over
 * every trading day of the USD index. For each day USD/KRW also holds with
 * non-zero closes, the script recomputes the 52-week indicators, checks the
 * four conditions and, on a suitable day, the percentage change of USD/KRW
 * one to fourteen calendar days later; the rows then replace the sheet.
 */
module DollarHistory {
  import opened Wrappers
  import opened Series
  import opened Stats
  import opened Gap
  import opened Report
  import opened Signals
  import opened GapIndicators
  import opened Backtest

  /** `timedelta(weeks=52)` in days. */
  const WindowDays: int := 364

  /**
   * Two windows give finite indicators: both are non-empty, the rate median
   * is non-zero, and the mean index-to-rate ratio over the matched dates is
   * defined and non-zero.
   */
  predicate WindowsDefined(wa: seq<Obs>, wb: seq<Obs>) {
    && |wa| > 0 && |wb| > 0 && |Matched(wa, wb)| > 0
    && Median(Closes(wb)) != 0.0
    && NonzeroDivisors(Matched(wa, wb)) && Mean(Ratios(Matched(wa, wb))) != 0.0
  }

  /** The 52-week windows ending on `date` give finite indicators. */
  predicate WindowDefined(usdIndex: seq<Obs>, usdKrw: seq<Obs>, date: int) {
    WindowsDefined(Window(usdIndex, date - WindowDays, date), Window(usdKrw, date - WindowDays, date))
  }

  /** Every day among `usdIndex[..n]` that yields a row has defined indicators. */
  predicate Defined(usdIndex: seq<Obs>, usdKrw: seq<Obs>, n: int)
    requires 0 <= n <= |usdIndex|
  {
    n == 0 ||
    (Defined(usdIndex, usdKrw, n - 1) &&
     (Emits(usdIndex, usdKrw, n - 1) ==> WindowDefined(usdIndex, usdKrw, usdIndex[n - 1].day)))
  }

  /** Definedness of a prefix carries over to every shorter prefix. */
  lemma {:induction false} DefinedPrefix(usdIndex: seq<Obs>, usdKrw: seq<Obs>, n: int, m: int)
    requires 0 <= m <= n <= |usdIndex| && Defined(usdIndex, usdKrw, n)
    ensures Defined(usdIndex, usdKrw, m)
  {
    if m < n {
      DefinedPrefix(usdIndex, usdKrw, n - 1, m);
    }
  }

  /** A defined prefix gives defined indicators to each of its days that yields a row. */
  lemma DefinedAt(usdIndex: seq<Obs>, usdKrw: seq<Obs>, n: int, i: int)
    requires 0 <= i < n <= |usdIndex| && Defined(usdIndex, usdKrw, n) && Emits(usdIndex, usdKrw, i)
    ensures WindowDefined(usdIndex, usdKrw, usdIndex[i].day)
  {
    DefinedPrefix(usdIndex, usdKrw, n, i + 1);
  }

  /**
   * `k` carries the statistics of the 52-week windows ending on `date`: the
   * USD/KRW median, the means of both windows, and 100 times the mean of
   * index over rate on the dates both windows hold.
   */
  predicate WindowStats(usdIndex: seq<Obs>, usdKrw: seq<Obs>, date: int, k: Core)
    requires WindowDefined(usdIndex, usdKrw, date)
  {
    var wa, wb := Window(usdIndex, date - WindowDays, date), Window(usdKrw, date - WindowDays, date);
    && k.rateMedian == Median(Closes(wb))
    && k.avgIndex == Mean(Closes(wa)) && k.avgRate == Mean(Closes(wb))
    && k.avgGapRatio == Mean(Ratios(Matched(wa, wb))) * 100.0
  }

  /** The indicators of a day with the given closes, computed over the 52 weeks ending on `date`. */
  function WindowCore(usdIndex: seq<Obs>, usdKrw: seq<Obs>, date: int, todayIndex: real, todayRate: real): (k: Core)
    requires WindowDefined(usdIndex, usdKrw, date)
    ensures CoreConsistent(k) && WindowStats(usdIndex, usdKrw, date, k)
    ensures k.todayIndex == todayIndex && k.todayRate == todayRate
  {
    var lo := date - WindowDays;
    var indexStats := MedianAndMean(usdIndex, lo, date);
    var rateStats := MedianAndMean(usdKrw, lo, date);
    var meanRatio := Mean(Ratios(Matched(Window(usdIndex, lo, date), Window(usdKrw, lo, date))));
    DeriveCore(todayIndex, todayRate, rateStats.0, meanRatio, indexStats.1, rateStats.1)
  }

  /** The indicators of the day `usdIndex[i]`. */
  function IndicatorsAt(usdIndex: seq<Obs>, usdKrw: seq<Obs>, i: int): (k: Core)
    requires 0 <= i < |usdIndex| && Emits(usdIndex, usdKrw, i)
    requires WindowDefined(usdIndex, usdKrw, usdIndex[i].day)
    ensures CoreConsistent(k) && WindowStats(usdIndex, usdKrw, usdIndex[i].day, k)
    ensures k.todayIndex == usdIndex[i].close && Find(usdKrw, usdIndex[i].day) == Some(k.todayRate)
    ensures k.todayRate != 0.0
  {
    WindowCore(usdIndex, usdKrw, usdIndex[i].day, usdIndex[i].close, Find(usdKrw, usdIndex[i].day).value)
  }

  /** `c` reads, over the 52-week windows ending on `date`, as `ConditionsRead` says. */
  predicate WindowConditions(usdIndex: seq<Obs>, usdKrw: seq<Obs>, date: int, today: real, rate: real, c: seq<bool>)
    requires WindowDefined(usdIndex, usdKrw, date)
  {
    var wa, wb := Window(usdIndex, date - WindowDays, date), Window(usdKrw, date - WindowDays, date);
    ConditionsRead(c, today, rate, Median(Closes(wb)), Mean(Ratios(Matched(wa, wb))), Mean(Closes(wa)), Mean(Closes(wb)))
  }

  /**
   * On positive series the four conditions of a day that yields a row read
   * over its 52-week windows: USD/KRW below its window mean, the index below
   * its window mean, the index above the mean ratio times the USD/KRW window
   * median, and USD/KRW times the mean ratio below the index.
   */
  lemma IndicatorsAtConditions(usdIndex: seq<Obs>, usdKrw: seq<Obs>, i: int)
    requires Positive(usdIndex) && Positive(usdKrw) && 0 <= i < |usdIndex| && Emits(usdIndex, usdKrw, i)
    ensures WindowDefined(usdIndex, usdKrw, usdIndex[i].day)
    ensures WindowConditions(usdIndex, usdKrw, usdIndex[i].day, usdIndex[i].close, Find(usdKrw, usdIndex[i].day).value,
                             CheckConditions(IndicatorsAt(usdIndex, usdKrw, i)))
  {
    var date := usdIndex[i].day;
    var lo := date - WindowDays;
    var wa, wb := Window(usdIndex, lo, date), Window(usdKrw, lo, date);
    PositiveWindowDefined(usdIndex, usdKrw, i);
    var k := IndicatorsAt(usdIndex, usdKrw, i);
    PositiveCommonWindows(usdIndex, usdKrw, i, lo, date);
    PositiveWindowsDefined(wa, wb);
    StatsConditions(usdIndex, usdKrw, date, k);
  }

  /** A consistent core carrying the statistics of windows with a positive median and mean ratio reads over them. */
  lemma StatsConditions(usdIndex: seq<Obs>, usdKrw: seq<Obs>, date: int, k: Core)
    requires WindowDefined(usdIndex, usdKrw, date) && WindowStats(usdIndex, usdKrw, date, k) && CoreConsistent(k)
    requires var wa, wb := Window(usdIndex, date - WindowDays, date), Window(usdKrw, date - WindowDays, date);
             Median(Closes(wb)) > 0.0 && Mean(Ratios(Matched(wa, wb))) > 0.0
    ensures WindowConditions(usdIndex, usdKrw, date, k.todayIndex, k.todayRate, CheckConditions(k))
  {
    var wa, wb := Window(usdIndex, date - WindowDays, date), Window(usdKrw, date - WindowDays, date);
    CoreConditions(k, k.todayIndex, k.todayRate, Median(Closes(wb)), Mean(Ratios(Matched(wa, wb))),
                   Mean(Closes(wa)), Mean(Closes(wb)));
  }

  /** The cell for `daysAhead` days later: the percentage change of USD/KRW, or `'N/A'` when that date is missing. */
  function ProfitCell(usdKrw: seq<Obs>, date: int, today: real, daysAhead: int): (cell: Cell)
    requires today != 0.0
    ensures cell == Text("N/A") <==> Find(usdKrw, date + daysAhead).None?
    ensures cell.Shown? <==> Find(usdKrw, date + daysAhead).Some?
  {
    match Find(usdKrw, date + daysAhead)
    case Some(future) => Shown(PercentChange(today, future), "%")
    case None => Text("N/A")
  }

  /** The fourteen lookahead cells of a suitable day. */
  function ProfitLoss(usdKrw: seq<Obs>, date: int, today: real): (cells: seq<Cell>)
    requires today != 0.0
    ensures |cells| == LookaheadDays
  {
    seq(LookaheadDays, j requires 0 <= j < LookaheadDays => ProfitCell(usdKrw, date, today, j + 1))
  }

  /**
   * The lookahead cell of `daysAhead` days reads `'N/A'` exactly when USD/KRW
   * lacks that date; otherwise it is the percentage change from today's rate,
   * positive exactly when the rate rose from a positive one.
   */
  lemma ProfitLossCell(usdKrw: seq<Obs>, date: int, today: real, daysAhead: int)
    requires today != 0.0 && 1 <= daysAhead <= LookaheadDays
    ensures var cell := ProfitLoss(usdKrw, date, today)[daysAhead - 1];
            var future := Find(usdKrw, date + daysAhead);
            && (cell == Text("N/A") <==> future.None?)
            && (future.Some? ==>
                  cell == Shown(PercentChange(today, future.value), "%")
                  && Obs(date + daysAhead, future.value) in usdKrw
                  && (today > 0.0 ==> (cell.value > 0.0 <==> future.value > today)))
  {
  }

  /** The inner loop over `days_ahead` of a suitable day. */
  method CalculateProfitLoss(usdKrw: seq<Obs>, date: int, today: real) returns (results: seq<Cell>)
    requires today != 0.0
    ensures results == ProfitLoss(usdKrw, date, today)
  {
    results := [];
    for daysAhead := 1 to LookaheadDays + 1
      invariant |results| == daysAhead - 1
      invariant forall j :: 0 <= j < |results| ==> results[j] == ProfitCell(usdKrw, date, today, j + 1)
    {
      var futureDate := date + daysAhead;
      match Find(usdKrw, futureDate)
      case Some(future) =>
        var profitLoss := PercentChange(today, future);
        results := results + [Shown(profitLoss, "%")];
      case None =>
        results := results + [Text("N/A")];
    }
  }

  /** The column titles of the sheet. */
  function Titles(): (t: seq<string>)
    ensures |t| == 27
  {
    [ "현재날짜", "적정원달러", "현재달러갭비율", "현재달러인덱스", "현재원달러환율",
      "평균달러갭비율", "평균달러인덱스", "평균환율", "적합조건1", "적합조건2", "적합조건3",
      "적합조건4", "전체조건적합성여부", "1일후 예상수익", "2일후 예상수익", "3일후 예상수익",
      "4일후 예상수익", "5일후 예상수익", "6일후 예상수익", "7일후 예상수익", "8일후 예상수익",
      "9일후 예상수익", "10일후 예상수익", "11일후 예상수익", "12일후 예상수익", "13일후 예상수익",
      "14일후 예상수익" ]
  }

  /** The row of the day `usdIndex[i]`. */
  function Row(usdIndex: seq<Obs>, usdKrw: seq<Obs>, i: int): (row: seq<Cell>)
    requires 0 <= i < |usdIndex| && Emits(usdIndex, usdKrw, i)
    requires WindowDefined(usdIndex, usdKrw, usdIndex[i].day)
    ensures |row| == |Titles()|
    ensures row[0] == Day(usdIndex[i].day)
  {
    var k := IndicatorsAt(usdIndex, usdKrw, i);
    BacktestRow(usdIndex[i].day, k, " 원", ProfitLoss(usdKrw, usdIndex[i].day, k.todayRate))
  }

  /** The rows of the days `usdIndex[..n]`, in the index's order. */
  function RowsUpTo(usdIndex: seq<Obs>, usdKrw: seq<Obs>, n: int): seq<seq<Cell>>
    requires 0 <= n <= |usdIndex| && Defined(usdIndex, usdKrw, n)
  {
    Flatten(DayRows(usdIndex, usdKrw, n))
  }

  /** The rows the day `usdIndex[i]` adds: its row when it yields one, nothing otherwise. */
  function RowsOfDay(usdIndex: seq<Obs>, usdKrw: seq<Obs>, i: int): (rows: seq<seq<Cell>>)
    requires 0 <= i < |usdIndex|
    requires Emits(usdIndex, usdKrw, i) ==> WindowDefined(usdIndex, usdKrw, usdIndex[i].day)
    ensures |rows| <= 1 && (rows != [] <==> Emits(usdIndex, usdKrw, i))
  {
    if Emits(usdIndex, usdKrw, i) then [Row(usdIndex, usdKrw, i)] else []
  }

  /** What each of the days `usdIndex[..n]` adds, day by day. */
  function DayRows(usdIndex: seq<Obs>, usdKrw: seq<Obs>, n: int): (parts: seq<seq<seq<Cell>>>)
    requires 0 <= n <= |usdIndex| && Defined(usdIndex, usdKrw, n)
    ensures |parts| == n && forall i :: 0 <= i < n ==> |parts[i]| <= 1
  {
    if n == 0 then [] else DayRows(usdIndex, usdKrw, n - 1) + [RowsOfDay(usdIndex, usdKrw, n - 1)]
  }

  /** Day `i` of `DayRows` holds what that day adds, and the day has defined indicators when it yields a row. */
  lemma {:induction false} DayRowsAt(usdIndex: seq<Obs>, usdKrw: seq<Obs>, n: int, i: int)
    requires 0 <= i < n <= |usdIndex| && Defined(usdIndex, usdKrw, n)
    ensures Emits(usdIndex, usdKrw, i) ==> WindowDefined(usdIndex, usdKrw, usdIndex[i].day)
    ensures DayRows(usdIndex, usdKrw, n)[i] == RowsOfDay(usdIndex, usdKrw, i)
  {
    if i < n - 1 {
      DayRowsAt(usdIndex, usdKrw, n - 1, i);
    }
  }

  /** The row of one day once its indicators are known: the conditions, the final flag and the lookahead. */
  method CalculateRow(usdKrw: seq<Obs>, date: int, k: Core) returns (result: seq<Cell>)
    requires k.todayRate != 0.0
    ensures result == BacktestRow(date, k, " 원", ProfitLoss(usdKrw, date, k.todayRate))
  {
    var conditions := CheckConditions(k);
    var suitability := LabelCells(conditions);
    var finalSuitability := FinalSuitability(conditions);
    var profitLossResults;
    if finalSuitability == Suitable {
      profitLossResults := CalculateProfitLoss(usdKrw, date, k.todayRate);
    } else {
      profitLossResults := Blanks();
    }
    result := Leading(date, k, " 원") + suitability + [Text(finalSuitability)] + profitLossResults;
  }

  /**
   * One pass of the date loop of `calculate_exchange_rate_history`: the day
   * yields its row when the other series holds it and both closes are
   * non-zero, and nothing otherwise.
   */
  method CalculateDay(usdIndex: seq<Obs>, usdKrw: seq<Obs>, i: int) returns (rows: seq<seq<Cell>>)
    requires 0 <= i < |usdIndex|
    requires Emits(usdIndex, usdKrw, i) ==> WindowDefined(usdIndex, usdKrw, usdIndex[i].day)
    ensures rows == RowsOfDay(usdIndex, usdKrw, i)
  {
    rows := [];
    var date := usdIndex[i].day;
    match Find(usdKrw, date)
    case Some(todayUsdKrw) =>
      if usdIndex[i].close != 0.0 && todayUsdKrw != 0.0 {
        var k := IndicatorsAt(usdIndex, usdKrw, i);
        var result := CalculateRow(usdKrw, date, k);
        rows := [result];
      }
    case None =>
  }

  /** The outer loop of `calculate_exchange_rate_history`: one row per day that yields one, in order. */
  method CalculateRows(usdIndex: seq<Obs>, usdKrw: seq<Obs>) returns (results: seq<seq<Cell>>)
    requires Defined(usdIndex, usdKrw, |usdIndex|)
    ensures results == RowsUpTo(usdIndex, usdKrw, |usdIndex|)
  {
    results := [];
    for i := 0 to |usdIndex|
      invariant Defined(usdIndex, usdKrw, i) && results == RowsUpTo(usdIndex, usdKrw, i)
    {
      DefinedPrefix(usdIndex, usdKrw, |usdIndex|, i + 1);
      var rows := CalculateDay(usdIndex, usdKrw, i);
      FlattenSnoc(DayRows(usdIndex, usdKrw, i), rows);
      results := results + rows;
    }
  }

  /**
   * `calculate_exchange_rate_history` followed by `record_to_sheet`: an empty
   * download raises before the sheet is touched; otherwise the sheet ends up
   * holding the title row and then every computed row.
   */
  method CalculateExchangeRateHistory(sheet: Worksheet, usdIndex: seq<Obs>, usdKrw: seq<Obs>)
    returns (error: Option<Fault>)
    requires Defined(usdIndex, usdKrw, |usdIndex|)
    modifies sheet
    ensures error.Some? <==> |usdIndex| == 0 || |usdKrw| == 0
    ensures error.Some? ==> error.value == NoData && sheet.rows == old(sheet.rows)
    ensures error.None? ==> sheet.rows == [Header(Titles())] + RowsUpTo(usdIndex, usdKrw, |usdIndex|)
  {
    var usdIndexData := DownloadData(usdIndex);
    if usdIndexData.Failure? {
      return Some(usdIndexData.error);
    }
    var usdKrwData := DownloadData(usdKrw);
    if usdKrwData.Failure? {
      return Some(usdKrwData.error);
    }
    var results := CalculateRows(usdIndex, usdKrw);
    ReplaceSheet(sheet, Titles(), results);
    error := None;
  }

  /** The days that yield a row among `usdIndex[..n]`, as ascending indices. */
  function Emitted(usdIndex: seq<Obs>, usdKrw: seq<Obs>, n: int): (e: seq<int>)
    requires 0 <= n <= |usdIndex| && Defined(usdIndex, usdKrw, n)
    ensures forall j :: 0 <= j < |e| ==>
              0 <= e[j] < n && Emits(usdIndex, usdKrw, e[j]) && WindowDefined(usdIndex, usdKrw, usdIndex[e[j]].day)
  {
    var parts := DayRows(usdIndex, usdKrw, n);
    assert forall i :: 0 <= i < n && parts[i] != [] ==> Emits(usdIndex, usdKrw, i) && WindowDefined(usdIndex, usdKrw, usdIndex[i].day) by {
      forall i | 0 <= i < n && parts[i] != [] ensures Emits(usdIndex, usdKrw, i) && WindowDefined(usdIndex, usdKrw, usdIndex[i].day) {
        DayRowsAt(usdIndex, usdKrw, n, i);
      }
    }
    Contributors(parts)
  }

  /** The emitted days are in the index's order, each once. */
  lemma EmittedAscending(usdIndex: seq<Obs>, usdKrw: seq<Obs>, n: int)
    requires 0 <= n <= |usdIndex| && Defined(usdIndex, usdKrw, n)
    ensures forall j, l :: 0 <= j < l < |Emitted(usdIndex, usdKrw, n)| ==> Emitted(usdIndex, usdKrw, n)[j] < Emitted(usdIndex, usdKrw, n)[l]
  {
    ContributorsAscending(DayRows(usdIndex, usdKrw, n));
  }

  /** Every day that yields a row is among the emitted ones. */
  lemma EmittedComplete(usdIndex: seq<Obs>, usdKrw: seq<Obs>, n: int, i: int)
    requires 0 <= i < n <= |usdIndex| && Defined(usdIndex, usdKrw, n) && Emits(usdIndex, usdKrw, i)
    ensures i in Emitted(usdIndex, usdKrw, n)
  {
    DayRowsAt(usdIndex, usdKrw, n, i);
    ContributorsComplete(DayRows(usdIndex, usdKrw, n), i);
  }

  /** The sheet holds exactly one row per day that yields one. */
  lemma RowCount(usdIndex: seq<Obs>, usdKrw: seq<Obs>, n: int)
    requires 0 <= n <= |usdIndex| && Defined(usdIndex, usdKrw, n)
    ensures |RowsUpTo(usdIndex, usdKrw, n)| == |Emitted(usdIndex, usdKrw, n)|
  {
    FlattenLength(DayRows(usdIndex, usdKrw, n));
  }

  /** The `j`-th row of the sheet is the row of the `j`-th day that yields one. */
  lemma RowOfEmitted(usdIndex: seq<Obs>, usdKrw: seq<Obs>, n: int, j: int)
    requires 0 <= n <= |usdIndex| && Defined(usdIndex, usdKrw, n)
    requires 0 <= j < |Emitted(usdIndex, usdKrw, n)|
    ensures j < |RowsUpTo(usdIndex, usdKrw, n)|
    ensures RowsUpTo(usdIndex, usdKrw, n)[j] == Row(usdIndex, usdKrw, Emitted(usdIndex, usdKrw, n)[j])
  {
    var parts := DayRows(usdIndex, usdKrw, n);
    FlattenAt(parts, j);
    var i := Contributors(parts)[j];
    DayRowsAt(usdIndex, usdKrw, n, i);
  }

  /** Positive windows with a common day give a positive rate median and a positive mean ratio. */
  lemma PositiveWindowsDefined(wa: seq<Obs>, wb: seq<Obs>)
    requires |wa| > 0 && |wb| > 0 && |Matched(wa, wb)| > 0 && Positive(wa) && Positive(wb)
    ensures WindowsDefined(wa, wb)
    ensures Median(Closes(wb)) > 0.0 && Mean(Ratios(Matched(wa, wb))) > 0.0
  {
    MedianPositive(Closes(wb));
    var m := Matched(wa, wb);
    MatchedPositive(wa, wb);
    RatiosPositive(m);
    MeanPositive(Ratios(m));
  }

  /** On positive series a day that yields a row has defined indicators. */
  lemma PositiveWindowDefined(usdIndex: seq<Obs>, usdKrw: seq<Obs>, i: int)
    requires Positive(usdIndex) && Positive(usdKrw)
    requires 0 <= i < |usdIndex| && Emits(usdIndex, usdKrw, i)
    ensures WindowDefined(usdIndex, usdKrw, usdIndex[i].day)
  {
    var date := usdIndex[i].day;
    PositiveCommonWindows(usdIndex, usdKrw, i, date - WindowDays, date);
    PositiveWindowsDefined(Window(usdIndex, date - WindowDays, date), Window(usdKrw, date - WindowDays, date));
    assert WindowsDefined(Window(usdIndex, date - WindowDays, date), Window(usdKrw, date - WindowDays, date));
    assert WindowDefined(usdIndex, usdKrw, date);
  }

  /** On positive series every day that yields a row has defined indicators. */
  lemma {:induction false} PositiveDefined(usdIndex: seq<Obs>, usdKrw: seq<Obs>, n: int)
    requires Positive(usdIndex) && Positive(usdKrw) && 0 <= n <= |usdIndex|
    ensures Defined(usdIndex, usdKrw, n)
  {
    if n > 0 {
      PositiveDefined(usdIndex, usdKrw, n - 1);
      if Emits(usdIndex, usdKrw, n - 1) {
        PositiveWindowDefined(usdIndex, usdKrw, n - 1);
      }
    }
  }
}
