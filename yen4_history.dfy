/**
 * `yen_4_all.py`: a backtest over every trading day of the Nikkei 225. For
 * each day KRW/JPY also holds with non-zero closes, the script recomputes
 * the 4-week indicators in JPY/KRW terms (the reciprocal of the quoted
 * KRW/JPY), checks the four conditions and, on a suitable day, the
 * percentage change of JPY/KRW one to fourteen calendar days later; the rows
 * then replace the sheet.
 */
module YenHistory {
  import opened Wrappers
  import opened Series
  import opened Stats
  import opened Gap
  import opened Report
  import opened Signals
  import opened GapIndicators
  import opened Backtest

  /** `timedelta(weeks=4)` in days. */
  const WindowDays: int := 28

  /**
   * Two windows give finite indicators: both are non-empty, the KRW/JPY
   * median and mean are non-zero (they are inverted), and the mean of the
   * Nikkei over JPY/KRW on the matched dates is defined and non-zero.
   */
  predicate WindowsDefined(wa: seq<Obs>, wb: seq<Obs>) {
    && |wa| > 0 && |wb| > 0 && |Matched(wa, wb)| > 0
    && Median(Closes(wb)) != 0.0 && Mean(Closes(wb)) != 0.0
    && NonzeroDivisors(Matched(wa, wb)) && Mean(ReciprocalRatios(Matched(wa, wb))) != 0.0
  }

  /** The 4-week windows ending on `date` give finite indicators. */
  predicate WindowDefined(nikkei: seq<Obs>, krwJpy: seq<Obs>, date: int) {
    WindowsDefined(Window(nikkei, date - WindowDays, date), Window(krwJpy, date - WindowDays, date))
  }

  /** Every day among `nikkei[..n]` that yields a row has defined indicators. */
  predicate Defined(nikkei: seq<Obs>, krwJpy: seq<Obs>, n: int)
    requires 0 <= n <= |nikkei|
  {
    n == 0 ||
    (Defined(nikkei, krwJpy, n - 1) &&
     (Emits(nikkei, krwJpy, n - 1) ==> WindowDefined(nikkei, krwJpy, nikkei[n - 1].day)))
  }

  /** Definedness of a prefix carries over to every shorter prefix. */
  lemma {:induction false} DefinedPrefix(nikkei: seq<Obs>, krwJpy: seq<Obs>, n: int, m: int)
    requires 0 <= m <= n <= |nikkei| && Defined(nikkei, krwJpy, n)
    ensures Defined(nikkei, krwJpy, m)
  {
    if m < n {
      DefinedPrefix(nikkei, krwJpy, n - 1, m);
    }
  }

  /** A defined prefix gives defined indicators to each of its days that yields a row. */
  lemma DefinedAt(nikkei: seq<Obs>, krwJpy: seq<Obs>, n: int, i: int)
    requires 0 <= i < n <= |nikkei| && Defined(nikkei, krwJpy, n) && Emits(nikkei, krwJpy, i)
    ensures WindowDefined(nikkei, krwJpy, nikkei[i].day)
  {
    DefinedPrefix(nikkei, krwJpy, n, i + 1);
  }

  /**
   * `k` carries the statistics of the 4-week windows ending on `date`: the
   * JPY/KRW median and mean are the reciprocals of the KRW/JPY ones, the
   * Nikkei mean is that of its window, and the average gap ratio is 100
   * times the mean of Nikkei times KRW/JPY (Nikkei over JPY/KRW) on the
   * dates both windows hold.
   */
  predicate WindowStats(nikkei: seq<Obs>, krwJpy: seq<Obs>, date: int, k: Core)
    requires WindowDefined(nikkei, krwJpy, date)
  {
    var wa, wb := Window(nikkei, date - WindowDays, date), Window(krwJpy, date - WindowDays, date);
    && Inverse(k.rateMedian, Median(Closes(wb))) && Inverse(k.avgRate, Mean(Closes(wb)))
    && k.avgIndex == Mean(Closes(wa))
    && k.avgGapRatio == Mean(Products(Matched(wa, wb))) * 100.0
  }

  /** The indicators of a day with the given Nikkei close and JPY/KRW rate, computed over the 4 weeks ending on `date`. */
  function WindowCore(nikkei: seq<Obs>, krwJpy: seq<Obs>, date: int, todayNikkei: real, todayJpyKrw: real): (k: Core)
    requires WindowDefined(nikkei, krwJpy, date)
    ensures CoreConsistent(k) && WindowStats(nikkei, krwJpy, date, k)
    ensures k.todayIndex == todayNikkei && k.todayRate == todayJpyKrw
  {
    var lo := date - WindowDays;
    var nikkeiStats := MedianAndMean(nikkei, lo, date);
    var krwJpyStats := MedianAndMean(krwJpy, lo, date);
    var m := Matched(Window(nikkei, lo, date), Window(krwJpy, lo, date));
    ReciprocalRatiosAreProducts(m);
    var meanRatio := Mean(ReciprocalRatios(m));
    DeriveCore(todayNikkei, todayJpyKrw, Reciprocal(krwJpyStats.0), meanRatio, nikkeiStats.1, Reciprocal(krwJpyStats.1))
  }

  /** The indicators of the day `nikkei[i]`; today's JPY/KRW is the reciprocal of today's KRW/JPY. */
  function IndicatorsAt(nikkei: seq<Obs>, krwJpy: seq<Obs>, i: int): (k: Core)
    requires 0 <= i < |nikkei| && Emits(nikkei, krwJpy, i)
    requires WindowDefined(nikkei, krwJpy, nikkei[i].day)
    ensures CoreConsistent(k) && WindowStats(nikkei, krwJpy, nikkei[i].day, k)
    ensures k.todayIndex == nikkei[i].close && Inverse(k.todayRate, Find(krwJpy, nikkei[i].day).value)
    ensures k.todayRate != 0.0
  {
    var todayJpyKrw := Reciprocal(Find(krwJpy, nikkei[i].day).value);
    WindowCore(nikkei, krwJpy, nikkei[i].day, nikkei[i].close, todayJpyKrw)
  }

  /**
   * The cell for `daysAhead` days later: the percentage change of JPY/KRW, or
   * `'N/A'` when KRW/JPY lacks that date. A zero future KRW/JPY close makes
   * numpy's `1 / 0.0` infinite, and the f-string renders the change as
   * `'inf%'`, or `'-inf%'` when today's rate is negative.
   */
  function ProfitCell(krwJpy: seq<Obs>, date: int, todayJpyKrw: real, daysAhead: int): (cell: Cell)
    requires todayJpyKrw != 0.0
    ensures cell == Text("N/A") <==> Find(krwJpy, date + daysAhead).None?
    ensures cell.Shown? <==> Find(krwJpy, date + daysAhead).Some? && Find(krwJpy, date + daysAhead).value != 0.0
  {
    match Find(krwJpy, date + daysAhead)
    case Some(futureKrwJpy) =>
      if futureKrwJpy == 0.0 then Text(Infinite(todayJpyKrw))
      else Shown(PercentChange(todayJpyKrw, Reciprocal(futureKrwJpy)), "%")
    case None => Text("N/A")
  }

  /** How `f"{x:.2f}%"` renders the change from `today` to an infinite future rate. */
  function Infinite(today: real): (text: string)
    ensures text != "N/A"
  {
    if today > 0.0 then "inf%" else "-inf%"
  }

  /** The fourteen lookahead cells of a suitable day. */
  function ProfitLoss(krwJpy: seq<Obs>, date: int, todayJpyKrw: real): (cells: seq<Cell>)
    requires todayJpyKrw != 0.0
    ensures |cells| == LookaheadDays
  {
    seq(LookaheadDays, j requires 0 <= j < LookaheadDays => ProfitCell(krwJpy, date, todayJpyKrw, j + 1))
  }

  /**
   * The lookahead cell of `daysAhead` days reads `'N/A'` exactly when KRW/JPY
   * lacks that date. Otherwise it is the percentage change from today's
   * JPY/KRW to the reciprocal of that date's KRW/JPY, `'inf%'` when that
   * close is zero (`'-inf%'` below a negative quote); with positive quotes it
   * is positive exactly when KRW/JPY fell below today's, that is when the yen
   * gained against the won.
   */
  lemma ProfitLossCell(krwJpy: seq<Obs>, date: int, todayKrwJpy: real, daysAhead: int)
    requires todayKrwJpy != 0.0 && 1 <= daysAhead <= LookaheadDays
    ensures var cell := ProfitLoss(krwJpy, date, Reciprocal(todayKrwJpy))[daysAhead - 1];
            var future := Find(krwJpy, date + daysAhead);
            && (cell == Text("N/A") <==> future.None?)
            && (future.Some? ==> Obs(date + daysAhead, future.value) in krwJpy)
            && (future.Some? && future.value == 0.0 ==>
                  cell == Text(if todayKrwJpy > 0.0 then "inf%" else "-inf%"))
            && (future.Some? && future.value != 0.0 ==>
                  cell == Shown(PercentChange(Reciprocal(todayKrwJpy), Reciprocal(future.value)), "%"))
            && (todayKrwJpy > 0.0 && future.Some? && future.value > 0.0 ==>
                  (cell.value > 0.0 <==> future.value < todayKrwJpy))
  {
    var future := Find(krwJpy, date + daysAhead);
    if todayKrwJpy > 0.0 && future.Some? && future.value > 0.0 {
      ReciprocalReverses(future.value, todayKrwJpy);
    }
  }

  /** The inner loop over `days_ahead` of a suitable day. */
  method CalculateProfitLoss(krwJpy: seq<Obs>, date: int, todayJpyKrw: real) returns (results: seq<Cell>)
    requires todayJpyKrw != 0.0
    ensures results == ProfitLoss(krwJpy, date, todayJpyKrw)
  {
    results := [];
    for daysAhead := 1 to LookaheadDays + 1
      invariant |results| == daysAhead - 1
      invariant forall j :: 0 <= j < |results| ==> results[j] == ProfitCell(krwJpy, date, todayJpyKrw, j + 1)
    {
      var futureDate := date + daysAhead;
      match Find(krwJpy, futureDate)
      case Some(futureKrwJpy) =>
        if futureKrwJpy == 0.0 {
          results := results + [Text(Infinite(todayJpyKrw))];
        } else {
          var futureJpyKrw := Reciprocal(futureKrwJpy);
          var profitLoss := PercentChange(todayJpyKrw, futureJpyKrw);
          results := results + [Shown(profitLoss, "%")];
        }
      case None =>
        results := results + [Text("N/A")];
    }
  }

  /** The column titles of the sheet. */
  function Titles(): (t: seq<string>)
    ensures |t| == 27
  {
    [ "현재날짜", "적정엔화환율", "현재Nikkei갭비율", "현재Nikkei지수", "현재JPY/KRW환율",
      "평균Nikkei갭비율", "평균Nikkei지수", "평균JPY/KRW환율", "적합조건1", "적합조건2", "적합조건3",
      "적합조건4", "전체조건적합성여부", "1일후 예상수익", "2일후 예상수익", "3일후 예상수익",
      "4일후 예상수익", "5일후 예상수익", "6일후 예상수익", "7일후 예상수익", "8일후 예상수익",
      "9일후 예상수익", "10일후 예상수익", "11일후 예상수익", "12일후 예상수익", "13일후 예상수익",
      "14일후 예상수익" ]
  }

  /** The row of the day `nikkei[i]`. */
  function Row(nikkei: seq<Obs>, krwJpy: seq<Obs>, i: int): (row: seq<Cell>)
    requires 0 <= i < |nikkei| && Emits(nikkei, krwJpy, i)
    requires WindowDefined(nikkei, krwJpy, nikkei[i].day)
    ensures |row| == |Titles()|
    ensures row[0] == Day(nikkei[i].day)
  {
    var k := IndicatorsAt(nikkei, krwJpy, i);
    BacktestRow(nikkei[i].day, k, " KRW", ProfitLoss(krwJpy, nikkei[i].day, k.todayRate))
  }

  /** The rows of the days `nikkei[..n]`, in the index's order. */
  function RowsUpTo(nikkei: seq<Obs>, krwJpy: seq<Obs>, n: int): seq<seq<Cell>>
    requires 0 <= n <= |nikkei| && Defined(nikkei, krwJpy, n)
  {
    Flatten(DayRows(nikkei, krwJpy, n))
  }

  /** The rows the day `nikkei[i]` adds: its row when it yields one, nothing otherwise. */
  function RowsOfDay(nikkei: seq<Obs>, krwJpy: seq<Obs>, i: int): (rows: seq<seq<Cell>>)
    requires 0 <= i < |nikkei|
    requires Emits(nikkei, krwJpy, i) ==> WindowDefined(nikkei, krwJpy, nikkei[i].day)
    ensures |rows| <= 1 && (rows != [] <==> Emits(nikkei, krwJpy, i))
  {
    if Emits(nikkei, krwJpy, i) then [Row(nikkei, krwJpy, i)] else []
  }

  /** What each of the days `nikkei[..n]` adds, day by day. */
  function DayRows(nikkei: seq<Obs>, krwJpy: seq<Obs>, n: int): (parts: seq<seq<seq<Cell>>>)
    requires 0 <= n <= |nikkei| && Defined(nikkei, krwJpy, n)
    ensures |parts| == n && forall i :: 0 <= i < n ==> |parts[i]| <= 1
  {
    if n == 0 then [] else DayRows(nikkei, krwJpy, n - 1) + [RowsOfDay(nikkei, krwJpy, n - 1)]
  }

  /** Day `i` of `DayRows` holds what that day adds, and the day has defined indicators when it yields a row. */
  lemma {:induction false} DayRowsAt(nikkei: seq<Obs>, krwJpy: seq<Obs>, n: int, i: int)
    requires 0 <= i < n <= |nikkei| && Defined(nikkei, krwJpy, n)
    ensures Emits(nikkei, krwJpy, i) ==> WindowDefined(nikkei, krwJpy, nikkei[i].day)
    ensures DayRows(nikkei, krwJpy, n)[i] == RowsOfDay(nikkei, krwJpy, i)
  {
    if i < n - 1 {
      DayRowsAt(nikkei, krwJpy, n - 1, i);
    }
  }

  /** The row of one day once its indicators are known: the conditions, the final flag and the lookahead. */
  method CalculateRow(krwJpy: seq<Obs>, date: int, k: Core) returns (result: seq<Cell>)
    requires k.todayRate != 0.0
    ensures result == BacktestRow(date, k, " KRW", ProfitLoss(krwJpy, date, k.todayRate))
  {
    var conditions := CheckConditions(k);
    var suitability := LabelCells(conditions);
    var finalSuitability := FinalSuitability(conditions);
    var profitLossResults;
    if finalSuitability == Suitable {
      profitLossResults := CalculateProfitLoss(krwJpy, date, k.todayRate);
    } else {
      profitLossResults := Blanks();
    }
    result := Leading(date, k, " KRW") + suitability + [Text(finalSuitability)] + profitLossResults;
  }

  /**
   * One pass of the date loop of `calculate_exchange_rate_history`: the day
   * yields its row when the other series holds it and both closes are
   * non-zero, and nothing otherwise.
   */
  method CalculateDay(nikkei: seq<Obs>, krwJpy: seq<Obs>, i: int) returns (rows: seq<seq<Cell>>)
    requires 0 <= i < |nikkei|
    requires Emits(nikkei, krwJpy, i) ==> WindowDefined(nikkei, krwJpy, nikkei[i].day)
    ensures rows == RowsOfDay(nikkei, krwJpy, i)
  {
    rows := [];
    var date := nikkei[i].day;
    match Find(krwJpy, date)
    case Some(todayKrwJpy) =>
      if nikkei[i].close != 0.0 && todayKrwJpy != 0.0 {
        var k := IndicatorsAt(nikkei, krwJpy, i);
        var result := CalculateRow(krwJpy, date, k);
        rows := [result];
      }
    case None =>
  }

  /** The outer loop of `calculate_exchange_rate_history`: one row per day that yields one, in order. */
  method CalculateRows(nikkei: seq<Obs>, krwJpy: seq<Obs>) returns (results: seq<seq<Cell>>)
    requires Defined(nikkei, krwJpy, |nikkei|)
    ensures results == RowsUpTo(nikkei, krwJpy, |nikkei|)
  {
    results := [];
    for i := 0 to |nikkei|
      invariant Defined(nikkei, krwJpy, i) && results == RowsUpTo(nikkei, krwJpy, i)
    {
      DefinedPrefix(nikkei, krwJpy, |nikkei|, i + 1);
      var rows := CalculateDay(nikkei, krwJpy, i);
      FlattenSnoc(DayRows(nikkei, krwJpy, i), rows);
      results := results + rows;
    }
  }

  /**
   * `calculate_exchange_rate_history` followed by `record_to_sheet`: an empty
   * download raises before the sheet is touched; otherwise the sheet ends up
   * holding the title row and then every computed row.
   */
  method CalculateExchangeRateHistory(sheet: Worksheet, nikkei: seq<Obs>, krwJpy: seq<Obs>)
    returns (error: Option<Fault>)
    requires Defined(nikkei, krwJpy, |nikkei|)
    modifies sheet
    ensures error.Some? <==> |nikkei| == 0 || |krwJpy| == 0
    ensures error.Some? ==> error.value == NoData && sheet.rows == old(sheet.rows)
    ensures error.None? ==> sheet.rows == [Header(Titles())] + RowsUpTo(nikkei, krwJpy, |nikkei|)
  {
    var nikkeiData := DownloadData(nikkei);
    if nikkeiData.Failure? {
      return Some(nikkeiData.error);
    }
    var krwJpyData := DownloadData(krwJpy);
    if krwJpyData.Failure? {
      return Some(krwJpyData.error);
    }
    var results := CalculateRows(nikkei, krwJpy);
    ReplaceSheet(sheet, Titles(), results);
    error := None;
  }

  /** The days that yield a row among `nikkei[..n]`, as ascending indices. */
  function Emitted(nikkei: seq<Obs>, krwJpy: seq<Obs>, n: int): (e: seq<int>)
    requires 0 <= n <= |nikkei| && Defined(nikkei, krwJpy, n)
    ensures forall j :: 0 <= j < |e| ==>
              0 <= e[j] < n && Emits(nikkei, krwJpy, e[j]) && WindowDefined(nikkei, krwJpy, nikkei[e[j]].day)
  {
    var parts := DayRows(nikkei, krwJpy, n);
    assert forall i :: 0 <= i < n && parts[i] != [] ==> Emits(nikkei, krwJpy, i) && WindowDefined(nikkei, krwJpy, nikkei[i].day) by {
      forall i | 0 <= i < n && parts[i] != [] ensures Emits(nikkei, krwJpy, i) && WindowDefined(nikkei, krwJpy, nikkei[i].day) {
        DayRowsAt(nikkei, krwJpy, n, i);
      }
    }
    Contributors(parts)
  }

  /** The emitted days are in the index's order, each once. */
  lemma EmittedAscending(nikkei: seq<Obs>, krwJpy: seq<Obs>, n: int)
    requires 0 <= n <= |nikkei| && Defined(nikkei, krwJpy, n)
    ensures forall j, l :: 0 <= j < l < |Emitted(nikkei, krwJpy, n)| ==> Emitted(nikkei, krwJpy, n)[j] < Emitted(nikkei, krwJpy, n)[l]
  {
    ContributorsAscending(DayRows(nikkei, krwJpy, n));
  }

  /** Every day that yields a row is among the emitted ones. */
  lemma EmittedComplete(nikkei: seq<Obs>, krwJpy: seq<Obs>, n: int, i: int)
    requires 0 <= i < n <= |nikkei| && Defined(nikkei, krwJpy, n) && Emits(nikkei, krwJpy, i)
    ensures i in Emitted(nikkei, krwJpy, n)
  {
    DayRowsAt(nikkei, krwJpy, n, i);
    ContributorsComplete(DayRows(nikkei, krwJpy, n), i);
  }

  /** The sheet holds exactly one row per day that yields one. */
  lemma RowCount(nikkei: seq<Obs>, krwJpy: seq<Obs>, n: int)
    requires 0 <= n <= |nikkei| && Defined(nikkei, krwJpy, n)
    ensures |RowsUpTo(nikkei, krwJpy, n)| == |Emitted(nikkei, krwJpy, n)|
  {
    FlattenLength(DayRows(nikkei, krwJpy, n));
  }

  /** The `j`-th row of the sheet is the row of the `j`-th day that yields one. */
  lemma RowOfEmitted(nikkei: seq<Obs>, krwJpy: seq<Obs>, n: int, j: int)
    requires 0 <= n <= |nikkei| && Defined(nikkei, krwJpy, n)
    requires 0 <= j < |Emitted(nikkei, krwJpy, n)|
    ensures j < |RowsUpTo(nikkei, krwJpy, n)|
    ensures RowsUpTo(nikkei, krwJpy, n)[j] == Row(nikkei, krwJpy, Emitted(nikkei, krwJpy, n)[j])
  {
    var parts := DayRows(nikkei, krwJpy, n);
    FlattenAt(parts, j);
    var i := Contributors(parts)[j];
    DayRowsAt(nikkei, krwJpy, n, i);
  }

  /** Positive windows with a common day give positive KRW/JPY statistics and a positive mean product. */
  lemma PositiveWindowsDefined(wa: seq<Obs>, wb: seq<Obs>)
    requires |wa| > 0 && |wb| > 0 && |Matched(wa, wb)| > 0 && Positive(wa) && Positive(wb)
    ensures WindowsDefined(wa, wb)
    ensures Median(Closes(wb)) > 0.0 && Mean(Closes(wb)) > 0.0 && Mean(Products(Matched(wa, wb))) > 0.0
  {
    MedianPositive(Closes(wb));
    MeanPositive(Closes(wb));
    var m := Matched(wa, wb);
    MatchedPositive(wa, wb);
    RatiosPositive(m);
    ReciprocalRatiosAreProducts(m);
    ProductsPositive(m);
    MeanPositive(Products(m));
  }

  /** On positive series a day that yields a row has defined indicators. */
  lemma PositiveWindowDefined(nikkei: seq<Obs>, krwJpy: seq<Obs>, i: int)
    requires Positive(nikkei) && Positive(krwJpy)
    requires 0 <= i < |nikkei| && Emits(nikkei, krwJpy, i)
    ensures WindowDefined(nikkei, krwJpy, nikkei[i].day)
  {
    var date := nikkei[i].day;
    PositiveCommonWindows(nikkei, krwJpy, i, date - WindowDays, date);
    PositiveWindowsDefined(Window(nikkei, date - WindowDays, date), Window(krwJpy, date - WindowDays, date));
    assert WindowsDefined(Window(nikkei, date - WindowDays, date), Window(krwJpy, date - WindowDays, date));
    assert WindowDefined(nikkei, krwJpy, date);
  }

  /** `c` reads, over the quoted KRW/JPY values of the 4-week windows ending on `date`, as `QuotedConditionsRead` says. */
  predicate WindowConditions(nikkei: seq<Obs>, krwJpy: seq<Obs>, date: int, today: real, quotedToday: real, c: seq<bool>)
    requires WindowDefined(nikkei, krwJpy, date)
  {
    var wa, wb := Window(nikkei, date - WindowDays, date), Window(krwJpy, date - WindowDays, date);
    QuotedConditionsRead(c, today, quotedToday, Median(Closes(wb)), Mean(Products(Matched(wa, wb))),
                         Mean(Closes(wa)), Mean(Closes(wb)))
  }

  /**
   * On positive series the four conditions of a day that yields a row read
   * over its 4-week windows of quoted KRW/JPY: today's KRW/JPY above its
   * window mean, the Nikkei below its window mean, the Nikkei times the
   * KRW/JPY window median above the mean product, and the mean product below
   * the Nikkei times today's KRW/JPY.
   */
  lemma IndicatorsAtConditions(nikkei: seq<Obs>, krwJpy: seq<Obs>, i: int)
    requires Positive(nikkei) && Positive(krwJpy) && 0 <= i < |nikkei| && Emits(nikkei, krwJpy, i)
    ensures WindowDefined(nikkei, krwJpy, nikkei[i].day)
    ensures WindowConditions(nikkei, krwJpy, nikkei[i].day, nikkei[i].close, Find(krwJpy, nikkei[i].day).value,
                             CheckConditions(IndicatorsAt(nikkei, krwJpy, i)))
  {
    var date := nikkei[i].day;
    var lo := date - WindowDays;
    var wa, wb := Window(nikkei, lo, date), Window(krwJpy, lo, date);
    PositiveWindowDefined(nikkei, krwJpy, i);
    var k := IndicatorsAt(nikkei, krwJpy, i);
    PositiveCommonWindows(nikkei, krwJpy, i, lo, date);
    PositiveWindowsDefined(wa, wb);
    var today := Find(krwJpy, date).value;
    assert Obs(date, today) in krwJpy;
    StatsConditions(nikkei, krwJpy, date, k, today);
  }

  /** A consistent core carrying the statistics of positive windows reads over their quoted values. */
  lemma StatsConditions(nikkei: seq<Obs>, krwJpy: seq<Obs>, date: int, k: Core, quotedToday: real)
    requires WindowDefined(nikkei, krwJpy, date) && WindowStats(nikkei, krwJpy, date, k) && CoreConsistent(k)
    requires quotedToday > 0.0 && Inverse(k.todayRate, quotedToday)
    requires var wa, wb := Window(nikkei, date - WindowDays, date), Window(krwJpy, date - WindowDays, date);
             Median(Closes(wb)) > 0.0 && Mean(Closes(wb)) > 0.0 && Mean(Products(Matched(wa, wb))) > 0.0
    ensures WindowConditions(nikkei, krwJpy, date, k.todayIndex, quotedToday, CheckConditions(k))
  {
    var wa, wb := Window(nikkei, date - WindowDays, date), Window(krwJpy, date - WindowDays, date);
    QuotedConditions(k, k.todayIndex, quotedToday, Median(Closes(wb)), Mean(Products(Matched(wa, wb))),
                     Mean(Closes(wa)), Mean(Closes(wb)));
  }

  /** On positive series every day among `nikkei[..n]` that yields a row has defined indicators. */
  lemma {:induction false} PositiveDefined(nikkei: seq<Obs>, krwJpy: seq<Obs>, n: int)
    requires Positive(nikkei) && Positive(krwJpy) && 0 <= n <= |nikkei|
    ensures Defined(nikkei, krwJpy, n)
  {
    if n > 0 {
      PositiveDefined(nikkei, krwJpy, n - 1);
      if Emits(nikkei, krwJpy, n - 1) {
        PositiveWindowDefined(nikkei, krwJpy, n - 1);
      }
    }
  }
}
