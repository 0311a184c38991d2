/**
 * The 4-week gold script: the US-dollar indicators plus today's gold and
 * silver prices, the gold/silver ratio, the fair gold price in KRW per gram
 * and the expected return; five conditions, the advice table and the
 * twenty-entry result.
 */
module Gold4 {
  import opened Wrappers
  import opened Series
  import opened Stats
  import opened Signals
  import opened Report
  import opened Gap
  import opened GapIndicators
  import opened UsdGap

  const PeriodWeeks: int := 4

  /** Grams per troy ounce, the divisor that turns USD per ounce into USD per gram. */
  const OunceGrams: real := 31.1035

  /** The gold-specific indicators next to the dollar ones. */
  datatype GoldIndicators = GoldIndicators(
    usd: Indicators,
    todayGold: real,
    todaySilver: real,
    goldSilverRatio: real,
    goldPriceKrwG: real,
    avgGold: real,
    goldEstimate: real,
    goldEstimateKrwG: real,
    expectedReturn: real)

  /**
   * How the gold indicators hang together: the ratio times the silver price
   * is the gold price; the fair gold price is the fair USD/KRW estimate scaled
   * by the average gold price over 100; today's and the fair price in KRW
   * per gram are the USD-per-ounce prices times USD/KRW over the grams in an
   * ounce; and the expected return is the percentage by which the fair KRW/g
   * price exceeds today's, which the conversion leaves equal to the change
   * between the USD-per-ounce prices.
   */
  predicate GoldConsistent(g: GoldIndicators) {
    && g.goldSilverRatio * g.todaySilver == g.todayGold
    && g.goldEstimate * 100.0 == g.usd.core.rateEstimate * g.avgGold
    && g.goldPriceKrwG * OunceGrams == g.todayGold * g.usd.core.todayRate
    && g.goldEstimateKrwG * OunceGrams == g.goldEstimate * g.usd.core.todayRate
    && g.todayGold != 0.0 && g.goldPriceKrwG != 0.0
    && g.expectedReturn == PercentChange(g.goldPriceKrwG, g.goldEstimateKrwG)
    && g.expectedReturn == PercentChange(g.todayGold, g.goldEstimate)
  }

  /** The arithmetic of the gold lines of `calculate_indicators`, given the dollar indicators. */
  function DeriveGold(usd: Indicators, todayGold: real, todaySilver: real, avgGold: real): (g: GoldIndicators)
    requires Consistent(usd) && usd.core.avgGapRatio != 0.0
    requires todaySilver != 0.0 && todayGold != 0.0 && usd.core.todayRate != 0.0
    ensures g.usd == usd && GoldConsistent(g)
  {
    var todayGoldG := todayGold / OunceGrams;
    var goldPriceKrwG := todayGoldG * usd.core.todayRate;
    var goldEstimate := (usd.core.todayIndex / usd.core.avgGapRatio) * avgGold;
    var goldEstimateG := goldEstimate / OunceGrams;
    var goldEstimateKrwG := goldEstimateG * usd.core.todayRate;
    var goldSilverRatio := todayGold / todaySilver;
    assert goldSilverRatio * todaySilver == todayGold;
    EstimateScales(usd.core.todayIndex, usd.core.avgGapRatio, avgGold, usd.core.rateEstimate);
    assert goldPriceKrwG != 0.0 by {
      assert todayGoldG * OunceGrams == todayGold;
    }
    ConversionCancels(todayGold, goldEstimate, usd.core.todayRate / OunceGrams);
    assert goldPriceKrwG == todayGold * (usd.core.todayRate / OunceGrams);
    assert goldEstimateKrwG == goldEstimate * (usd.core.todayRate / OunceGrams);
    PerGram(todayGold, usd.core.todayRate);
    PerGram(goldEstimate, usd.core.todayRate);
    GoldIndicators(
      usd := usd,
      todayGold := todayGold,
      todaySilver := todaySilver,
      goldSilverRatio := goldSilverRatio,
      goldPriceKrwG := goldPriceKrwG,
      avgGold := avgGold,
      goldEstimate := goldEstimate,
      goldEstimateKrwG := goldEstimateKrwG,
      expectedReturn := PercentChange(goldPriceKrwG, goldEstimateKrwG))
  }

  /** A USD-per-ounce price converted to KRW per gram, times the grams in an ounce, is the price times USD/KRW. */
  lemma PerGram(price: real, rate: real)
    ensures ((price / OunceGrams) * rate) * OunceGrams == price * rate
    ensures price * (rate / OunceGrams) == (price / OunceGrams) * rate
  {
    assert (price / OunceGrams) * OunceGrams == price;
  }

  /**
   * With positive gold price and USD/KRW, today's KRW/g price is positive
   * and the expected return is positive exactly when the fair KRW/g price
   * exceeds today's, that is when the fair USD-per-ounce price exceeds
   * today's gold price.
   */
  lemma ExpectedReturnSign(g: GoldIndicators)
    requires GoldConsistent(g) && g.todayGold > 0.0 && g.usd.core.todayRate > 0.0
    ensures g.goldPriceKrwG > 0.0
    ensures g.expectedReturn > 0.0 <==> g.goldEstimateKrwG > g.goldPriceKrwG
    ensures g.expectedReturn > 0.0 <==> g.goldEstimate > g.todayGold
  {
    var rate := g.usd.core.todayRate;
    assert g.todayGold * rate > 0.0;
  }

  /** `(t / g) * m` is the estimate `e` (with `e * g == t * 100`) scaled by `m / 100`. */
  lemma EstimateScales(t: real, g: real, m: real, e: real)
    requires g != 0.0 && e * g == t * 100.0
    ensures ((t / g) * m) * 100.0 == e * m
  {
    assert (t / g) * g == t;
    CancelFactor(e, (t / g) * 100.0, g);
  }

  /** A percentage change is unchanged when both prices are multiplied by the same nonzero factor. */
  lemma ConversionCancels(now: real, later: real, k: real)
    requires now != 0.0 && k != 0.0
    ensures PercentChange(now * k, later * k) == PercentChange(now, later)
  {
    var q := (later - now) / now;
    assert q * now == later - now;
    assert q * (now * k) == later * k - now * k;
    CancelFactor((later * k - now * k) / (now * k), q, now * k);
  }

  /** The four series are non-empty and no divisor used by the indicators is zero. */
  predicate GoldComputable(usdIndex: seq<Obs>, usdKrw: seq<Obs>, gold: seq<Obs>, silver: seq<Obs>) {
    && Computable(usdIndex, usdKrw)
    && |gold| > 0 && |silver| > 0
    && LastClose(silver) != 0.0 && LastClose(gold) != 0.0 && LastClose(usdKrw) != 0.0
  }

  /** `calculate_indicators` on the four downloaded series. */
  function CalculateIndicators(usdIndex: seq<Obs>, usdKrw: seq<Obs>, gold: seq<Obs>, silver: seq<Obs>): (g: GoldIndicators)
    requires GoldComputable(usdIndex, usdKrw, gold, silver)
    ensures g.usd == UsdGap.CalculateIndicators(usdIndex, usdKrw)
    ensures g.todayGold == LastClose(gold) && g.todaySilver == LastClose(silver) && g.avgGold == Mean(Closes(gold))
    ensures GoldConsistent(g)
  {
    DeriveGold(UsdGap.CalculateIndicators(usdIndex, usdKrw), LastClose(gold), LastClose(silver), Mean(Closes(gold)))
  }

  /** `check_conditions`: the four dollar conditions, then a gold/silver ratio strictly above 80. */
  function CheckConditions(g: GoldIndicators): (c: seq<bool>)
    ensures |c| == 5 && c[..4] == GapIndicators.CheckConditions(g.usd.core)
    ensures c[4] <==> g.goldSilverRatio > 80.0
  {
    GapIndicators.CheckConditions(g.usd.core) + [g.goldSilverRatio > 80.0]
  }

  /** `provide_advice`: 5 → invest now, 3 or 4 → may start, 0..2 → hold, each label given for those counts only. */
  function ProvideAdvice(count: int): (advice: string)
    ensures advice == InvestNowText <==> count == 5
    ensures advice == MayStartText <==> count >= 3 && count != 5
    ensures advice == HoldText <==> count <= 2
  {
    var r := Recommend(count, 5);
    PlainLabelInjective(r, InvestNow);
    PlainLabelInjective(r, MayStart);
    PlainLabelInjective(r, Hold);
    PlainLabel(r)
  }

  /** The chat trigger fires exactly when at least three of the five conditions hold. */
  lemma NotifyIffThree(count: int)
    requires 0 <= count <= 5
    ensures ShouldNotify(count, ProvideAdvice(count)) <==> count >= 3
  {
  }

  /** The keys of `create_result`, in writing order. */
  function ResultKeys(weeks: int): (keys: seq<Key>)
    ensures |keys| == 20 && keys[0] == DateKey && keys[1] == PeriodKey
  {
    [ DateKey,
      PeriodKey,
      Title("적정 금 가격 (KRW/g)"),
      Title("예상 수익률"),
      Title("현재 USD 지수"),
      Title("현재 USD/KRW 환율"),
      Title("현재 금 가격 (USD/온스)"),
      Title("현재 금 가격 (KRW/g)"),
      Title("현재 은 가격 (USD/온스)"),
      Title("금/은 비율"),
      PeriodTitle(weeks, "주 평균 달러 갭 비율"),
      PeriodTitle(weeks, "주 평균 USD 지수"),
      PeriodTitle(weeks, "주 평균 USD/KRW 환율"),
      Title("조건1 (현재 원달러 환율 < 52주 평균 환율)"),
      Title("조건2 (현재 달러 지수 < 52주 평균 달러 지수)"),
      Title("조건3 (현재 달러 갭 비율 > 52주 평균 달러 갭 비율)"),
      Title("조건4 (현재 원달러 환율 < 적정 환율)"),
      Title("조건5 (금/은 비율 > 80)"),
      Title("전체조건접합성여부"),
      Title("투자매수매도 조언") ]
  }

  /** The twenty keys are pairwise distinct, so the dict literal loses no entry. */
  lemma ResultKeysDistinct(weeks: int)
    ensures Distinct(ResultKeys(weeks))
  {
    ResultKeysFirst(weeks);
    ResultKeysSecond(weeks);
    ResultKeysLate(weeks);
    DistinctJoin(ResultKeys(weeks), 0, 5, 10);
    DistinctJoin(ResultKeys(weeks), 0, 10, 20);
  }

  /** The first five keys of `create_result` are not repeated. */
  lemma ResultKeysFirst(weeks: int)
    ensures DistinctFrom(ResultKeys(weeks), 0, 5)
  {
  }

  /** Nor are the next five. */
  lemma ResultKeysSecond(weeks: int)
    ensures DistinctFrom(ResultKeys(weeks), 5, 10)
  {
  }

  /** The last ten keys of `create_result` are pairwise distinct. */
  lemma ResultKeysLate(weeks: int)
    ensures DistinctFrom(ResultKeys(weeks), 10, 20)
  {
  }

  /**
   * The first thirteen values of `create_result`: the date, the period, the
   * fair KRW/g gold price, the expected return, today's index and rate,
   * today's gold price in USD per ounce and in KRW per gram, today's silver
   * price, the gold/silver ratio, the average gap ratio and the two means.
   */
  function IndicatorCells(now: string, weeks: int, g: GoldIndicators): (cells: seq<Cell>)
    ensures |cells| == 13 && cells[0] == Text(now) && cells[1] == Shown(weeks as real, "주")
    ensures cells[2] == Shown(g.goldEstimateKrwG, " 원") && cells[3] == Shown(g.expectedReturn, "%")
    ensures cells[4] == Number(g.usd.core.todayIndex) && cells[5] == Number(g.usd.core.todayRate)
    ensures cells[6] == Shown(g.todayGold, " USD") && cells[7] == Shown(g.goldPriceKrwG, " 원")
    ensures cells[8] == Shown(g.todaySilver, " USD") && cells[9] == Shown(g.goldSilverRatio, "")
    ensures cells[10] == Shown(g.usd.core.avgGapRatio, "%")
    ensures cells[11] == Number(g.usd.core.avgIndex) && cells[12] == Number(g.usd.core.avgRate)
  {
    [ Text(now),
      Shown(weeks as real, "주"),
      Shown(g.goldEstimateKrwG, " 원"),
      Shown(g.expectedReturn, "%"),
      Number(g.usd.core.todayIndex),
      Number(g.usd.core.todayRate),
      Shown(g.todayGold, " USD"),
      Shown(g.goldPriceKrwG, " 원"),
      Shown(g.todaySilver, " USD"),
      Shown(g.goldSilverRatio, ""),
      Shown(g.usd.core.avgGapRatio, "%"),
      Number(g.usd.core.avgIndex),
      Number(g.usd.core.avgRate) ]
  }

  /**
   * The values of `create_result`, in writing order: the indicator cells,
   * the five condition labels, the final suitability and the advice.
   */
  function ResultCells(now: string, weeks: int, g: GoldIndicators, c: seq<bool>,
                       advice: string, finalSuitability: string): (cells: seq<Cell>)
    requires |c| == 5
    ensures |cells| == 20 && cells[..13] == IndicatorCells(now, weeks, g)
    ensures cells[13..18] == LabelCells(c)
    ensures cells[18] == Text(finalSuitability) && cells[19] == Text(advice)
  {
    var head := IndicatorCells(now, weeks, g);
    var cells := head
      + LabelCells(c)
      + [ Text(finalSuitability),
          Text(advice) ];
    assert cells[..13] == head && cells[13..18] == LabelCells(c);
    cells
  }

  /**
   * `create_result`: each key of `ResultKeys` paired with the value in the
   * same position of `ResultCells`.
   */
  function CreateResult(now: string, weeks: int, g: GoldIndicators, c: seq<bool>,
                        advice: string, finalSuitability: string): (d: Dict)
    requires |c| == 5
    ensures |d| == 20 && forall i :: 0 <= i < |d| ==> d[i].0 == ResultKeys(weeks)[i]
    ensures Values(d) == ResultCells(now, weeks, g, c, advice, finalSuitability)
    ensures d[0] == (DateKey, Text(now)) && d[1] == (PeriodKey, Shown(weeks as real, "주"))
  {
    Entries(ResultKeys(weeks), ResultCells(now, weeks, g, c, advice, finalSuitability))
  }

  /**
   * `calculate_exchange_rate(4)` on the four downloaded series, `now` being
   * the formatted current time. The row is the result's values in order; the
   * final-suitability and advice columns both hold the advice for the number
   * of '적합' condition columns, and the chat message goes out exactly when at
   * least three of those columns read '적합'.
   */
  function CalculateExchangeRate(now: string, usdIndex: seq<Obs>, usdKrw: seq<Obs>, gold: seq<Obs>, silver: seq<Obs>)
    : (r: Result<Outcome, Fault>)
    ensures r == Failure(NoData) <==> |usdIndex| == 0 || |usdKrw| == 0 || |gold| == 0 || |silver| == 0
    ensures r.Success? <==> GoldComputable(usdIndex, usdKrw, gold, silver)
    ensures r.Success? ==> r.value.row == Values(r.value.result) && |r.value.row| == 20
    ensures r.Success? ==> r.value.row[0] == Text(now) && r.value.row[1] == Shown(4.0, "주")
    ensures r.Success? ==>
      var c := CheckConditions(CalculateIndicators(usdIndex, usdKrw, gold, silver));
      var advice := ProvideAdvice(CountTrue(c));
      r.value.row == ResultCells(now, PeriodWeeks, CalculateIndicators(usdIndex, usdKrw, gold, silver), c, advice, advice)
    ensures r.Success? ==>
      var o := r.value;
      var n := CountSuitable(o.row[13..18]);
      && o.row[18] == Text(ProvideAdvice(n)) && o.row[19] == o.row[18]
      && (o.notification.Some? <==> n >= 3)
      && (o.notification.Some? ==> o.notification.value == ProvideAdvice(n) + ": " + ProvideAdvice(n))
  {
    if |usdIndex| == 0 || |usdKrw| == 0 || |gold| == 0 || |silver| == 0 then Failure(NoData)
    else if !GoldComputable(usdIndex, usdKrw, gold, silver) then Failure(DegenerateRate)
    else
      var indicators := CalculateIndicators(usdIndex, usdKrw, gold, silver);
      var conditions := CheckConditions(indicators);
      var suitableConditions := CountTrue(conditions);
      var advice := ProvideAdvice(suitableConditions);
      var finalSuitability := advice;
      var result := CreateResult(now, PeriodWeeks, indicators, conditions, advice, finalSuitability);
      SheetRowIsValues(result);
      CountSuitableLabels(conditions);
      NotifyIffThree(suitableConditions);
      var notification :=
        if ShouldNotify(suitableConditions, finalSuitability) then Some(advice + ": " + finalSuitability) else None;
      Success(Outcome(result, SheetRow(result).value, notification))
  }

  /**
   * A successful run writes the series' own prices and statistics: today's
   * dollar index, USD/KRW, gold and silver closes, the mean of index over
   * rate on the common dates times 100 and the two dollar means, next to the
   * fair KRW/g price, the expected return, today's KRW/g price and the
   * gold/silver ratio derived from them.
   */
  lemma ResultRowStatistics(now: string, usdIndex: seq<Obs>, usdKrw: seq<Obs>, gold: seq<Obs>, silver: seq<Obs>)
    requires GoldComputable(usdIndex, usdKrw, gold, silver)
    ensures CalculateExchangeRate(now, usdIndex, usdKrw, gold, silver).Success?
    ensures var g, row := CalculateIndicators(usdIndex, usdKrw, gold, silver),
                          CalculateExchangeRate(now, usdIndex, usdKrw, gold, silver).value.row;
            && row[2] == Shown(g.goldEstimateKrwG, " 원") && row[3] == Shown(g.expectedReturn, "%")
            && row[4] == Number(LastClose(usdIndex)) && row[5] == Number(LastClose(usdKrw))
            && row[6] == Shown(LastClose(gold), " USD") && row[7] == Shown(g.goldPriceKrwG, " 원")
            && row[8] == Shown(LastClose(silver), " USD") && row[9] == Shown(g.goldSilverRatio, "")
            && row[10] == Shown(g.usd.core.avgGapRatio, "%")
            && g.usd.core.avgGapRatio == Mean(Ratios(Matched(usdIndex, usdKrw))) * 100.0
            && row[11] == Number(Mean(Closes(usdIndex))) && row[12] == Number(Mean(Closes(usdKrw)))
  {
    var g := CalculateIndicators(usdIndex, usdKrw, gold, silver);
    var c := CheckConditions(g);
    var advice := ProvideAdvice(CountTrue(c));
    var row := CalculateExchangeRate(now, usdIndex, usdKrw, gold, silver).value.row;
    var head := IndicatorCells(now, PeriodWeeks, g);
    assert row == ResultCells(now, PeriodWeeks, g, c, advice, advice);
    assert row[..13] == head;
  }

  /**
   * A successful run writes, in its condition columns, the labels of the
   * five conditions checked on the series' indicators.
   */
  lemma ResultRowSignals(now: string, usdIndex: seq<Obs>, usdKrw: seq<Obs>, gold: seq<Obs>, silver: seq<Obs>)
    requires GoldComputable(usdIndex, usdKrw, gold, silver)
    ensures CalculateExchangeRate(now, usdIndex, usdKrw, gold, silver).Success?
    ensures CalculateExchangeRate(now, usdIndex, usdKrw, gold, silver).value.row[13..18]
            == LabelCells(CheckConditions(CalculateIndicators(usdIndex, usdKrw, gold, silver)))
  {
    var g := CalculateIndicators(usdIndex, usdKrw, gold, silver);
    var c := CheckConditions(g);
    var advice := ProvideAdvice(CountTrue(c));
    var cells := ResultCells(now, PeriodWeeks, g, c, advice, advice);
    assert CalculateExchangeRate(now, usdIndex, usdKrw, gold, silver).value.row == cells;
  }
}
