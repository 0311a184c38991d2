/**
 * The 52-week yen script: the indicator block with the Nikkei 225 as the
 * index and JPY/KRW, the reciprocal of the downloaded KRW/JPY rate, as the
 * rate; the '52주 - ' advice table, the ±5 % trading rule and the result.
 */
module Yen52 {
  import opened Wrappers
  import opened Series
  import opened Stats
  import opened Signals
  import opened Report
  import opened Gap
  import opened GapIndicators

  const PeriodWeeks: int := 52

  /** Both series are non-empty and no divisor used by the indicators, reciprocals included, is zero. */
  predicate Computable(nikkei: seq<Obs>, krwJpy: seq<Obs>) {
    && |nikkei| > 0 && |krwJpy| > 0
    && LastClose(krwJpy) != 0.0
    && Median(Closes(nikkei)) != 0.0
    && Median(Closes(krwJpy)) != 0.0
    && Mean(Closes(krwJpy)) != 0.0
    && |Matched(nikkei, krwJpy)| > 0
    && NonzeroDivisors(Matched(nikkei, krwJpy))
    && Mean(ReciprocalRatios(Matched(nikkei, krwJpy))) != 0.0
  }

  /**
   * `calculate_indicators`: today's JPY/KRW, its median and its mean are the
   * reciprocals of the KRW/JPY values, and the average gap ratio is 100 times
   * the mean of Nikkei times KRW/JPY over the common dates.
   */
  function CalculateIndicators(nikkei: seq<Obs>, krwJpy: seq<Obs>): (ind: Indicators)
    requires Computable(nikkei, krwJpy)
    ensures ind.core.todayIndex == LastClose(nikkei)
    ensures ind.indexMedian == Median(Closes(nikkei)) && ind.core.avgIndex == Mean(Closes(nikkei))
    ensures Inverse(ind.core.todayRate, LastClose(krwJpy))
    ensures Inverse(ind.core.rateMedian, Median(Closes(krwJpy)))
    ensures Inverse(ind.core.avgRate, Mean(Closes(krwJpy)))
    ensures ind.core.avgGapRatio == Mean(Products(Matched(nikkei, krwJpy))) * 100.0
    ensures Consistent(ind)
  {
    var m := Matched(nikkei, krwJpy);
    ReciprocalRatiosAreProducts(m);
    var todayJpyKrw := Reciprocal(LastClose(krwJpy));
    var jpyKrwMedian := Reciprocal(Median(Closes(krwJpy)));
    var avgJpyKrw := Reciprocal(Mean(Closes(krwJpy)));
    Derive(LastClose(nikkei), todayJpyKrw, Median(Closes(nikkei)), jpyKrwMedian,
           Mean(ReciprocalRatios(m)), Mean(Closes(nikkei)), avgJpyKrw)
  }

  /**
   * On positive series (computable as soon as they share a date, by
   * `PositivePricesComputable`) the four conditions read over the quoted
   * KRW/JPY values: KRW/JPY above its mean, the Nikkei below its mean, the
   * Nikkei times the KRW/JPY median above the mean product, and the mean
   * product below the Nikkei times today's KRW/JPY.
   */
  lemma IndicatorConditions(nikkei: seq<Obs>, krwJpy: seq<Obs>)
    requires Positive(nikkei) && Positive(krwJpy) && Computable(nikkei, krwJpy)
    ensures QuotedConditionsRead(CheckConditions(CalculateIndicators(nikkei, krwJpy).core),
                                 LastClose(nikkei), LastClose(krwJpy), Median(Closes(krwJpy)),
                                 Mean(Products(Matched(nikkei, krwJpy))), Mean(Closes(nikkei)), Mean(Closes(krwJpy)))
  {
    PositiveQuotes(nikkei, krwJpy);
    QuotedConditions(CalculateIndicators(nikkei, krwJpy).core, LastClose(nikkei), LastClose(krwJpy),
                     Median(Closes(krwJpy)), Mean(Products(Matched(nikkei, krwJpy))), Mean(Closes(nikkei)),
                     Mean(Closes(krwJpy)));
  }

  /** On positive series today's KRW/JPY, its median, its mean and the mean product are positive. */
  lemma PositiveQuotes(nikkei: seq<Obs>, krwJpy: seq<Obs>)
    requires Positive(nikkei) && Positive(krwJpy) && Computable(nikkei, krwJpy)
    ensures LastClose(krwJpy) > 0.0 && Median(Closes(krwJpy)) > 0.0 && Mean(Closes(krwJpy)) > 0.0
    ensures Mean(Products(Matched(nikkei, krwJpy))) > 0.0
  {
    MedianPositive(Closes(krwJpy));
    MeanPositive(Closes(krwJpy));
    MatchedPositive(nikkei, krwJpy);
    PositivePairs(Matched(nikkei, krwJpy));
    ReciprocalRatiosAreProducts(Matched(nikkei, krwJpy));
  }

  /** Positive pairs give a positive mean of index over reciprocal rate. */
  lemma PositivePairs(m: seq<(real, real)>)
    requires |m| > 0 && forall i :: 0 <= i < |m| ==> m[i].0 > 0.0 && m[i].1 > 0.0
    ensures NonzeroDivisors(m) && Mean(ReciprocalRatios(m)) > 0.0
  {
    RatiosPositive(m);
    ReciprocalRatiosAreProducts(m);
    ProductsPositive(m);
    MeanPositive(Products(m));
  }

  /** On positive series with a common date every divisor is non-zero. */
  lemma PositivePricesComputable(nikkei: seq<Obs>, krwJpy: seq<Obs>, common: int)
    requires Positive(nikkei) && Positive(krwJpy)
    requires 0 <= common < |nikkei| && Find(krwJpy, nikkei[common].day).Some?
    ensures Computable(nikkei, krwJpy)
  {
    MedianPositive(Closes(nikkei));
    MedianPositive(Closes(krwJpy));
    MeanPositive(Closes(krwJpy));
    MatchedComplete(nikkei, krwJpy, common);
    MatchedPositive(nikkei, krwJpy);
    PositivePairs(Matched(nikkei, krwJpy));
  }

  const Prefix: string := "52주 - "

  /**
   * `provide_advice`: the plain labels behind a '52주 - ' prefix, 4 → invest
   * now, 3 → may start, 0..2 → hold, each label given for those counts only.
   */
  function ProvideAdvice(count: int): (advice: string)
    ensures |advice| > |Prefix| && advice[..|Prefix|] == Prefix
    ensures advice == Prefix + InvestNowText <==> count == 4
    ensures advice == Prefix + MayStartText <==> count >= 3 && count != 4
    ensures advice == Prefix + HoldText <==> count <= 2
  {
    var r := Recommend(count, 4);
    PrefixedLabelInjective(r, InvestNow);
    PrefixedLabelInjective(r, MayStart);
    PrefixedLabelInjective(r, Hold);
    Prefix + PlainLabel(r)
  }

  /** Behind the common prefix, distinct rungs still read differently. */
  lemma PrefixedLabelInjective(r: Recommendation, q: Recommendation)
    ensures Prefix + PlainLabel(r) == Prefix + PlainLabel(q) <==> r == q
  {
    PlainLabelInjective(r, q);
    if Prefix + PlainLabel(r) == Prefix + PlainLabel(q) {
      assert PlainLabel(r) == (Prefix + PlainLabel(r))[|Prefix|..];
      assert PlainLabel(q) == (Prefix + PlainLabel(q))[|Prefix|..];
    }
  }

  /**
   * The chat trigger fires exactly when at least three conditions hold: no
   * advice equals the bare '지금 바로 투자하세요', since every label starts
   * with '52주 - '.
   */
  lemma NotifyIffThree(count: int)
    ensures ProvideAdvice(count) != InvestNowText
    ensures ShouldNotify(count, ProvideAdvice(count)) <==> count >= 3
  {
    assert ProvideAdvice(count)[0] == '5' != InvestNowText[0];
  }

  /** The message of the short-term trading rule. */
  function TradingAdviceText(t: Trade): string {
    match t
    case Sell => "엔화 단타 - 매도하세요!"
    case Buy => "엔화 단타 - 매수하세요!"
    case NoTrade => "엔화 단타 없어요!"
  }

  /** Each trade has its own message, so the advice cell tells which trade the rule chose. */
  lemma TradingAdviceInjective(t: Trade, u: Trade)
    ensures TradingAdviceText(t) == TradingAdviceText(u) <==> t == u
  {
  }

  /** The keys of `create_result`, in writing order. */
  function ResultKeys(weeks: int): (keys: seq<Key>)
    ensures |keys| == 15 && keys[0] == DateKey && keys[1] == PeriodKey
  {
    [ DateKey,
      PeriodKey,
      Title("적정 엔화환율"),
      Title("현재 Nikkei 갭 비율"),
      Title("현재 Nikkei 225 지수"),
      Title("현재 JPY/KRW 환율"),
      PeriodTitle(weeks, "주 평균 Nikkei 갭 비율"),
      PeriodTitle(weeks, "주 평균 Nikkei 225 지수"),
      PeriodTitle(weeks, "주 평균 JPY/KRW 환율"),
      Title("조건1 (현재 JPY/KRW 환율 < 52주 평균 환율)"),
      Title("조건2 (현재 Nikkei 225 지수 < 52주 평균 Nikkei 225 지수)"),
      Title("조건3 (현재 Nikkei 갭 비율 > 52주 평균 Nikkei 갭 비율)"),
      Title("조건4 (현재 JPY/KRW 환율 < 적정 환율)"),
      Title("전체조건접합성여부"),
      Title("투자매수매도 조언") ]
  }

  /** The fifteen keys are pairwise distinct, so the dict literal loses no entry. */
  lemma ResultKeysDistinct(weeks: int)
    ensures Distinct(ResultKeys(weeks))
  {
  }

  /**
   * The values of `create_result`, in writing order: the date, the period,
   * the estimate, the current gap ratio, today's index and rate, the average
   * gap ratio, the two means, the four condition labels, the final
   * suitability and the short-term trading advice.
   */
  function ResultCells(now: string, weeks: int, ind: Indicators, c: seq<bool>, finalSuitability: string)
    : (cells: seq<Cell>)
    requires |c| == 4
    ensures |cells| == 15 && cells[0] == Text(now) && cells[1] == Shown(weeks as real, "주")
    ensures cells[2] == Shown(ind.core.rateEstimate, " 원") && cells[3] == Shown(ind.core.gapRatioNew, "%")
    ensures cells[4] == Number(ind.core.todayIndex) && cells[5] == Number(ind.core.todayRate)
    ensures cells[6] == Shown(ind.core.avgGapRatio, "%")
    ensures cells[7] == Number(ind.core.avgIndex) && cells[8] == Number(ind.core.avgRate)
    ensures cells[9..13] == LabelCells(c) && cells[13] == Text(finalSuitability)
    ensures cells[14] == Text(TradingAdviceText(TradeSignal(ind.gapPercentage)))
  {
    var head :=
      [ Text(now),
        Shown(weeks as real, "주"),
        Shown(ind.core.rateEstimate, " 원"),
        Shown(ind.core.gapRatioNew, "%"),
        Number(ind.core.todayIndex),
        Number(ind.core.todayRate),
        Shown(ind.core.avgGapRatio, "%"),
        Number(ind.core.avgIndex),
        Number(ind.core.avgRate) ];
    var cells := head
      + LabelCells(c)
      + [ Text(finalSuitability),
          Text(TradingAdviceText(TradeSignal(ind.gapPercentage))) ];
    assert cells[..9] == head && cells[9..13] == LabelCells(c);
    cells
  }

  /**
   * `create_result`: each key of `ResultKeys` paired with the value in the
   * same position of `ResultCells`.
   */
  function CreateResult(now: string, weeks: int, ind: Indicators, c: seq<bool>,
                        advice: string, finalSuitability: string): (d: Dict)
    requires |c| == 4
    ensures |d| == 15 && forall i :: 0 <= i < |d| ==> d[i].0 == ResultKeys(weeks)[i]
    ensures Values(d) == ResultCells(now, weeks, ind, c, finalSuitability)
    ensures d[0] == (DateKey, Text(now)) && d[1] == (PeriodKey, Shown(weeks as real, "주"))
  {
    Entries(ResultKeys(weeks), ResultCells(now, weeks, ind, c, finalSuitability))
  }

  /**
   * `calculate_exchange_rate(52)` on the two downloaded series, `now` being
   * the formatted current time. The row is the result's values in order; the
   * final-suitability column is the advice for the number of '적합' condition
   * columns, and the chat message goes out exactly when at least three of
   * those columns read '적합'.
   */
  function CalculateExchangeRate(now: string, nikkei: seq<Obs>, krwJpy: seq<Obs>): (r: Result<Outcome, Fault>)
    ensures r == Failure(NoData) <==> |nikkei| == 0 || |krwJpy| == 0
    ensures r.Success? <==> Computable(nikkei, krwJpy)
    ensures r.Success? ==> r.value.row == Values(r.value.result) && |r.value.row| == 15
    ensures r.Success? ==> r.value.row[0] == Text(now) && r.value.row[1] == Shown(52.0, "주")
    ensures r.Success? ==>
      var c := CheckConditions(CalculateIndicators(nikkei, krwJpy).core);
      r.value.row == ResultCells(now, PeriodWeeks, CalculateIndicators(nikkei, krwJpy), c, ProvideAdvice(CountTrue(c)))
    ensures r.Success? ==>
      var o := r.value;
      var n := CountSuitable(o.row[9..13]);
      && o.row[13] == Text(ProvideAdvice(n))
      && (o.notification.Some? <==> n >= 3)
      && (o.notification.Some? ==> o.notification.value == ProvideAdvice(n) + ": " + ProvideAdvice(n))
  {
    if |nikkei| == 0 || |krwJpy| == 0 then Failure(NoData)
    else if !Computable(nikkei, krwJpy) then Failure(DegenerateRate)
    else
      var indicators := CalculateIndicators(nikkei, krwJpy);
      var conditions := CheckConditions(indicators.core);
      var suitableConditions := CountTrue(conditions);
      var advice := ProvideAdvice(suitableConditions);
      var finalSuitability := advice;
      var result := CreateResult(now, PeriodWeeks, indicators, conditions, advice, finalSuitability);
      SheetRowIsValues(result);
      CountSuitableLabels(conditions);
      NotifyIffThree(suitableConditions);
      var notification :=
        if ShouldNotify(suitableConditions, finalSuitability) then Some(advice + ": " + finalSuitability) else None;
      Success(Outcome(result, SheetRow(result).value, notification))
  }

  /**
   * A successful run writes the series' own statistics: today's Nikkei close
   * and the KRW-per-JPY rate turned into JPY per KRW, the mean of index times
   * quote on the common dates times 100, the mean Nikkei close, the inverse
   * of the mean quote, and the estimate and current gap ratio derived from
   * them.
   */
  lemma ResultRowStatistics(now: string, nikkei: seq<Obs>, krwJpy: seq<Obs>)
    requires Computable(nikkei, krwJpy)
    ensures CalculateExchangeRate(now, nikkei, krwJpy).Success?
    ensures var ind, row := CalculateIndicators(nikkei, krwJpy), CalculateExchangeRate(now, nikkei, krwJpy).value.row;
            && row[2] == Shown(ind.core.rateEstimate, " 원") && row[3] == Shown(ind.core.gapRatioNew, "%")
            && row[4] == Number(LastClose(nikkei))
            && row[5].Number? && Inverse(row[5].value, LastClose(krwJpy))
            && row[6] == Shown(ind.core.avgGapRatio, "%")
            && ind.core.avgGapRatio == Mean(Products(Matched(nikkei, krwJpy))) * 100.0
            && row[7] == Number(Mean(Closes(nikkei)))
            && row[8].Number? && Inverse(row[8].value, Mean(Closes(krwJpy)))
  {
    var ind := CalculateIndicators(nikkei, krwJpy);
    var c := CheckConditions(ind.core);
    var cells := ResultCells(now, PeriodWeeks, ind, c, ProvideAdvice(CountTrue(c)));
    assert CalculateExchangeRate(now, nikkei, krwJpy).value.row == cells;
  }

  /**
   * A successful run writes, in its condition columns, the labels of the
   * four conditions checked on the series' indicators, and in its last
   * column the message of the trading rule for their gap percentage.
   */
  lemma ResultRowSignals(now: string, nikkei: seq<Obs>, krwJpy: seq<Obs>)
    requires Computable(nikkei, krwJpy)
    ensures CalculateExchangeRate(now, nikkei, krwJpy).Success?
    ensures var ind, row := CalculateIndicators(nikkei, krwJpy), CalculateExchangeRate(now, nikkei, krwJpy).value.row;
            && row[9..13] == LabelCells(CheckConditions(ind.core))
            && row[14] == Text(TradingAdviceText(TradeSignal(ind.gapPercentage)))
  {
    var ind := CalculateIndicators(nikkei, krwJpy);
    var c := CheckConditions(ind.core);
    var cells := ResultCells(now, PeriodWeeks, ind, c, ProvideAdvice(CountTrue(c)));
    assert CalculateExchangeRate(now, nikkei, krwJpy).value.row == cells;
  }
}
