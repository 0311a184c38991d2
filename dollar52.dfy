/**
 * The 52-week USD/KRW script: indicators from the USD index and the USD/KRW
 * rate, four conditions, the advice table, the ±5 % trading rule and the
 * result row.
 */
module Dollar52 {
  import opened Wrappers
  import opened Series
  import opened Stats
  import opened Signals
  import opened Report
  import opened Gap
  import opened GapIndicators
  import opened UsdGap

  const PeriodWeeks: int := 52

  /** `provide_advice`: 4 → invest now, 3 → may start, 0..2 → hold, each label given for those counts only. */
  function ProvideAdvice(count: int): (advice: string)
    ensures advice == InvestNowText <==> count == 4
    ensures advice == MayStartText <==> count >= 3 && count != 4
    ensures advice == HoldText <==> count <= 2
  {
    var r := Recommend(count, 4);
    PlainLabelInjective(r, InvestNow);
    PlainLabelInjective(r, MayStart);
    PlainLabelInjective(r, Hold);
    PlainLabel(r)
  }

  /**
   * The chat trigger fires exactly when at least three conditions hold: the
   * '지금 바로 투자하세요' disjunct adds nothing, since that label needs all four.
   */
  lemma NotifyIffThree(count: int)
    requires 0 <= count <= 4
    ensures ShouldNotify(count, ProvideAdvice(count)) <==> count >= 3
  {
  }

  /** The message of the short-term trading rule. */
  function TradingAdviceText(t: Trade): string {
    match t
    case Sell => "달러 단타 - 매도하세요!"
    case Buy => "달러 단타 - 매수하세요!"
    case NoTrade => "달러 단타 없어요!"
  }

  /** Each trade has its own message, so the advice cell tells which trade the rule chose. */
  lemma TradingAdviceInjective(t: Trade, u: Trade)
    ensures TradingAdviceText(t) == TradingAdviceText(u) <==> t == u
  {
  }

  /** The keys of `create_result`, in writing order. */
  function ResultKeys(weeks: int): (keys: seq<Key>)
    ensures |keys| == 15 && keys[0] == DateKey && keys[1] == PeriodKey
  {
    [ DateKey,
      PeriodKey,
      Title("적정 원달러 환율"),
      Title("현재 달러 갭 비율"),
      Title("현재 USD 지수"),
      Title("현재 USD/KRW 환율"),
      PeriodTitle(weeks, "주 평균 달러 갭 비율"),
      PeriodTitle(weeks, "주 평균 USD 지수"),
      PeriodTitle(weeks, "주 평균 USD/KRW 환율"),
      Title("조건1 (현재 원달러 환율 < 52주 평균 환율)"),
      Title("조건2 (현재 달러 지수 < 52주 평균 달러 지수)"),
      Title("조건3 (현재 달러 갭 비율 > 52주 평균 달러 갭 비율)"),
      Title("조건4 (현재 원달러 환율 < 적정 환율)"),
      Title("전체조건접합성여부"),
      Title("투자매수매도 조언") ]
  }

  /** The fifteen keys are pairwise distinct, so the dict literal loses no entry. */
  lemma ResultKeysDistinct(weeks: int)
    ensures Distinct(ResultKeys(weeks))
  {
  }

  /**
   * The values of `create_result`, in writing order: the date, the period,
   * the estimate, the current gap ratio, today's index and rate, the average
   * gap ratio, the two means, the four condition labels, the final
   * suitability and the short-term trading advice.
   */
  function ResultCells(now: string, weeks: int, ind: Indicators, c: seq<bool>, finalSuitability: string)
    : (cells: seq<Cell>)
    requires |c| == 4
    ensures |cells| == 15 && cells[0] == Text(now) && cells[1] == Shown(weeks as real, "주")
    ensures cells[2] == Shown(ind.core.rateEstimate, " 원") && cells[3] == Shown(ind.core.gapRatioNew, "%")
    ensures cells[4] == Number(ind.core.todayIndex) && cells[5] == Number(ind.core.todayRate)
    ensures cells[6] == Shown(ind.core.avgGapRatio, "%")
    ensures cells[7] == Number(ind.core.avgIndex) && cells[8] == Number(ind.core.avgRate)
    ensures cells[9..13] == LabelCells(c) && cells[13] == Text(finalSuitability)
    ensures cells[14] == Text(TradingAdviceText(TradeSignal(ind.gapPercentage)))
  {
    var head :=
      [ Text(now),
        Shown(weeks as real, "주"),
        Shown(ind.core.rateEstimate, " 원"),
        Shown(ind.core.gapRatioNew, "%"),
        Number(ind.core.todayIndex),
        Number(ind.core.todayRate),
        Shown(ind.core.avgGapRatio, "%"),
        Number(ind.core.avgIndex),
        Number(ind.core.avgRate) ];
    var cells := head
      + LabelCells(c)
      + [ Text(finalSuitability),
        Text(TradingAdviceText(TradeSignal(ind.gapPercentage))) ];
    assert cells[..9] == head && cells[9..13] == LabelCells(c);
    cells
  }

  /**
   * `create_result`: each key of `ResultKeys` paired with the value in the
   * same position of `ResultCells`.
   */
  function CreateResult(now: string, weeks: int, ind: Indicators, c: seq<bool>,
                        advice: string, finalSuitability: string): (d: Dict)
    requires |c| == 4
    ensures |d| == 15 && forall i :: 0 <= i < |d| ==> d[i].0 == ResultKeys(weeks)[i]
    ensures Values(d) == ResultCells(now, weeks, ind, c, finalSuitability)
    ensures d[0] == (DateKey, Text(now)) && d[1] == (PeriodKey, Shown(weeks as real, "주"))
  {
    Entries(ResultKeys(weeks), ResultCells(now, weeks, ind, c, finalSuitability))
  }

  /**
   * `calculate_exchange_rate(52)` on the two downloaded series, `now` being
   * the formatted current time. The row is the result's values in order; the
   * final-suitability column is the advice for the number of '적합' condition
   * columns, and the chat message, `advice: final_suitability`, goes out
   * exactly when at least three of those columns read '적합'.
   */
  function CalculateExchangeRate(now: string, usdIndex: seq<Obs>, usdKrw: seq<Obs>): (r: Result<Outcome, Fault>)
    ensures r == Failure(NoData) <==> |usdIndex| == 0 || |usdKrw| == 0
    ensures r.Success? <==> Computable(usdIndex, usdKrw)
    ensures r.Success? ==> r.value.row == Values(r.value.result) && |r.value.row| == 15
    ensures r.Success? ==> r.value.row[0] == Text(now) && r.value.row[1] == Shown(52.0, "주")
    ensures r.Success? ==>
      var c := CheckConditions(CalculateIndicators(usdIndex, usdKrw).core);
      r.value.row == ResultCells(now, PeriodWeeks, CalculateIndicators(usdIndex, usdKrw), c, ProvideAdvice(CountTrue(c)))
    ensures r.Success? ==>
      var o := r.value;
      var n := CountSuitable(o.row[9..13]);
      && o.row[13] == Text(ProvideAdvice(n))
      && (o.notification.Some? <==> n >= 3)
      && (o.notification.Some? ==> o.notification.value == ProvideAdvice(n) + ": " + ProvideAdvice(n))
  {
    if |usdIndex| == 0 || |usdKrw| == 0 then Failure(NoData)
    else if !Computable(usdIndex, usdKrw) then Failure(DegenerateRate)
    else
      var indicators := CalculateIndicators(usdIndex, usdKrw);
      var conditions := CheckConditions(indicators.core);
      var suitableConditions := CountTrue(conditions);
      var advice := ProvideAdvice(suitableConditions);
      var finalSuitability := advice;
      var result := CreateResult(now, PeriodWeeks, indicators, conditions, advice, finalSuitability);
      SheetRowIsValues(result);
      CountSuitableLabels(conditions);
      NotifyIffThree(suitableConditions);
      var notification :=
        if ShouldNotify(suitableConditions, finalSuitability) then Some(advice + ": " + finalSuitability) else None;
      Success(Outcome(result, SheetRow(result).value, notification))
  }

  /**
   * A successful run writes the series' own statistics: today's closes, the
   * mean of index over rate on the common dates times 100, the two means and
   * the estimate and current gap ratio derived from them.
   */
  lemma ResultRowStatistics(now: string, usdIndex: seq<Obs>, usdKrw: seq<Obs>)
    requires Computable(usdIndex, usdKrw)
    ensures CalculateExchangeRate(now, usdIndex, usdKrw).Success?
    ensures var ind, row := CalculateIndicators(usdIndex, usdKrw), CalculateExchangeRate(now, usdIndex, usdKrw).value.row;
            && row[2] == Shown(ind.core.rateEstimate, " 원") && row[3] == Shown(ind.core.gapRatioNew, "%")
            && row[4] == Number(LastClose(usdIndex)) && row[5] == Number(LastClose(usdKrw))
            && row[6] == Shown(ind.core.avgGapRatio, "%")
            && ind.core.avgGapRatio == Mean(Ratios(Matched(usdIndex, usdKrw))) * 100.0
            && row[7] == Number(Mean(Closes(usdIndex))) && row[8] == Number(Mean(Closes(usdKrw)))
  {
    var ind := CalculateIndicators(usdIndex, usdKrw);
    var c := CheckConditions(ind.core);
    var cells := ResultCells(now, PeriodWeeks, ind, c, ProvideAdvice(CountTrue(c)));
    assert CalculateExchangeRate(now, usdIndex, usdKrw).value.row == cells;
  }

  /**
   * A successful run writes, in its condition columns, the labels of the
   * four conditions checked on the series' indicators, and in its last
   * column the message of the trading rule for their gap percentage.
   */
  lemma ResultRowSignals(now: string, usdIndex: seq<Obs>, usdKrw: seq<Obs>)
    requires Computable(usdIndex, usdKrw)
    ensures CalculateExchangeRate(now, usdIndex, usdKrw).Success?
    ensures var ind, row := CalculateIndicators(usdIndex, usdKrw), CalculateExchangeRate(now, usdIndex, usdKrw).value.row;
            && row[9..13] == LabelCells(CheckConditions(ind.core))
            && row[14] == Text(TradingAdviceText(TradeSignal(ind.gapPercentage)))
  {
    var ind := CalculateIndicators(usdIndex, usdKrw);
    var c := CheckConditions(ind.core);
    var cells := ResultCells(now, PeriodWeeks, ind, c, ProvideAdvice(CountTrue(c)));
    assert CalculateExchangeRate(now, usdIndex, usdKrw).value.row == cells;
  }
}
