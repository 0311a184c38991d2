/**
 * The indicator block every script computes from a market index and an
 * exchange rate (the USD index against USD/KRW, or the Nikkei 225 against
 * JPY/KRW): today's values, the rate median, the means, the average gap
 * ratio, the fair-rate estimate and the current gap ratio, plus, in the
 * single-run scripts, the index median, its gap ratio and its gap percentage.
 * The four conditions every script checks are stated once here.
 */
module GapIndicators {
  import opened Gap

  /** The values the four conditions are checked against. */
  datatype Core = Core(
    todayIndex: real,
    todayRate: real,
    rateMedian: real,
    avgGapRatio: real,
    avgIndex: real,
    avgRate: real,
    rateEstimate: real,
    gapRatioNew: real)

  /**
   * How the core values hang together: the fair-rate estimate is the rate at
   * which today's index would sit exactly at the average gap ratio, and the
   * current gap ratio is today's index over the rate median, in percent.
   */
  predicate CoreConsistent(k: Core) {
    && k.rateEstimate * k.avgGapRatio == k.todayIndex * 100.0
    && k.gapRatioNew * k.rateMedian == k.todayIndex * 100.0
  }

  /** The core formulas once the series are reduced to today's values, medians, means and the mean ratio. */
  function DeriveCore(todayIndex: real, todayRate: real, rateMedian: real, meanRatio: real,
                      avgIndex: real, avgRate: real): (k: Core)
    requires rateMedian != 0.0 && meanRatio != 0.0
    ensures CoreConsistent(k)
    ensures k.avgGapRatio == meanRatio * 100.0
  {
    var avgGapRatio := meanRatio * 100.0;
    var gapRatioNew := GapRatio(todayIndex, rateMedian);
    Core(
      todayIndex := todayIndex,
      todayRate := todayRate,
      rateMedian := rateMedian,
      avgGapRatio := avgGapRatio,
      avgIndex := avgIndex,
      avgRate := avgRate,
      rateEstimate := Estimate(todayIndex, avgGapRatio),
      gapRatioNew := gapRatioNew)
  }

  /** `check_conditions`: four strict comparisons in fixed order. */
  function CheckConditions(k: Core): (c: seq<bool>)
    ensures |c| == 4
  {
    [ k.todayRate < k.avgRate,
      k.todayIndex < k.avgIndex,
      k.gapRatioNew > k.avgGapRatio,
      k.todayRate < k.rateEstimate ]
  }

  /**
   * For any consistent core with a positive rate median and a positive
   * average gap ratio: condition 3 holds iff 100 times today's index exceeds
   * the average gap ratio times the rate median, and condition 4 iff today's
   * rate times the average gap ratio stays below 100 times today's index.
   */
  lemma ConsistentConditions(k: Core)
    requires CoreConsistent(k) && k.rateMedian > 0.0 && k.avgGapRatio > 0.0
    ensures var c := CheckConditions(k);
            && (c[2] <==> k.todayIndex * 100.0 > k.avgGapRatio * k.rateMedian)
            && (c[3] <==> k.todayRate * k.avgGapRatio < k.todayIndex * 100.0)
  {
    ScaleOrder(k.gapRatioNew, k.avgGapRatio, k.rateMedian);
    ScaleOrder(k.rateEstimate, k.todayRate, k.avgGapRatio);
  }

  /**
   * The four conditions read over plain numbers: the rate below its mean,
   * the index below its mean, the index above the mean index-to-rate ratio
   * times the rate median, and the rate times that ratio below the index.
   */
  predicate ConditionsRead(c: seq<bool>, todayIndex: real, todayRate: real, rateMedian: real, meanRatio: real,
                           avgIndex: real, avgRate: real)
  {
    && |c| == 4
    && (c[0] <==> todayRate < avgRate)
    && (c[1] <==> todayIndex < avgIndex)
    && (c[2] <==> todayIndex > meanRatio * rateMedian)
    && (c[3] <==> todayRate * meanRatio < todayIndex)
  }

  /**
   * When the average gap ratio is 100 times a positive mean index-to-rate
   * ratio, conditions 3 and 4 both compare against that ratio: condition 3
   * holds iff today's index exceeds the ratio times the rate median, and
   * condition 4 iff today's rate times the ratio stays below today's index.
   */
  lemma CoreConditions(k: Core, todayIndex: real, todayRate: real, rateMedian: real, meanRatio: real,
                       avgIndex: real, avgRate: real)
    requires CoreConsistent(k) && rateMedian > 0.0 && meanRatio > 0.0
    requires k.todayIndex == todayIndex && k.todayRate == todayRate && k.rateMedian == rateMedian
    requires k.avgIndex == avgIndex && k.avgRate == avgRate && k.avgGapRatio == meanRatio * 100.0
    ensures ConditionsRead(CheckConditions(k), todayIndex, todayRate, rateMedian, meanRatio, avgIndex, avgRate)
  {
    ConsistentConditions(k);
    assert k.avgGapRatio * k.rateMedian == (meanRatio * k.rateMedian) * 100.0;
    assert k.todayRate * k.avgGapRatio == (k.todayRate * meanRatio) * 100.0;
  }

  /**
   * The four conditions of a core whose rate is the reciprocal of a quoted
   * rate (JPY/KRW from KRW/JPY), read over the quoted numbers: the quoted
   * rate above its mean, the index below its mean, the index times the
   * quoted median above the mean product, and the mean product below the
   * index times the quoted rate.
   */
  predicate QuotedConditionsRead(c: seq<bool>, todayIndex: real, quotedToday: real, quotedMedian: real,
                                 meanProduct: real, avgIndex: real, quotedAvg: real)
  {
    && |c| == 4
    && (c[0] <==> quotedToday > quotedAvg)
    && (c[1] <==> todayIndex < avgIndex)
    && (c[2] <==> todayIndex * quotedMedian > meanProduct)
    && (c[3] <==> meanProduct < todayIndex * quotedToday)
  }

  /**
   * A consistent core whose rate, rate median and rate mean are the
   * reciprocals of positive quoted values, and whose average gap ratio is
   * 100 times a positive mean product, reads over the quoted values.
   */
  lemma QuotedConditions(k: Core, todayIndex: real, quotedToday: real, quotedMedian: real, meanProduct: real,
                         avgIndex: real, quotedAvg: real)
    requires CoreConsistent(k) && quotedToday > 0.0 && quotedMedian > 0.0 && quotedAvg > 0.0 && meanProduct > 0.0
    requires k.todayIndex == todayIndex && Inverse(k.todayRate, quotedToday) && Inverse(k.rateMedian, quotedMedian)
    requires k.avgIndex == avgIndex && Inverse(k.avgRate, quotedAvg) && k.avgGapRatio == meanProduct * 100.0
    ensures QuotedConditionsRead(CheckConditions(k), todayIndex, quotedToday, quotedMedian, meanProduct, avgIndex, quotedAvg)
  {
    InversePositive(k.rateMedian, quotedMedian);
    CoreConditions(k, todayIndex, k.todayRate, k.rateMedian, meanProduct, avgIndex, k.avgRate);
    InverseOrder(k.todayRate, k.avgRate, quotedToday, quotedAvg);
    TimesInverse(todayIndex, meanProduct, k.rateMedian, quotedMedian);
    TimesInverse(todayIndex, meanProduct, k.todayRate, quotedToday);
  }

  /** Between positive values, the reciprocals are in the opposite order. */
  lemma InverseOrder(r: real, s: real, x: real, y: real)
    requires Inverse(r, x) && Inverse(s, y) && x > 0.0 && y > 0.0
    ensures r < s <==> x > y
  {
    CancelFactor(r, Reciprocal(x), x);
    CancelFactor(s, Reciprocal(y), y);
    ReciprocalReverses(y, x);
  }

  /** With `r` the reciprocal of a positive `x`, `a` exceeds `b * r` exactly when `a * x` exceeds `b`. */
  lemma TimesInverse(a: real, b: real, r: real, x: real)
    requires Inverse(r, x) && x > 0.0
    ensures a > b * r <==> a * x > b
    ensures r * b < a <==> b < a * x
  {
    assert (b * r) * x == b * (r * x) == b;
    assert a * x - b == (a - b * r) * x;
    if a > b * r {
      assert (a - b * r) * x > 0.0;
    } else {
      assert (b * r - a) * x >= 0.0;
    }
  }

  /** The single-run indicators: the core plus the index median, its gap ratio and its gap percentage. */
  datatype Indicators = Indicators(core: Core, indexMedian: real, gapRatio: real, gapPercentage: real)

  /**
   * How the single-run indicators hang together: the core is consistent, and
   * the gap percentage is the gap ratio less 100.
   */
  predicate Consistent(ind: Indicators) {
    && CoreConsistent(ind.core)
    && ind.gapPercentage == ind.gapRatio - 100.0
  }

  /** `calculate_indicators` of the single-run scripts once the series are reduced to numbers. */
  function Derive(todayIndex: real, todayRate: real, indexMedian: real, rateMedian: real, meanRatio: real,
                  avgIndex: real, avgRate: real): (ind: Indicators)
    requires indexMedian != 0.0 && rateMedian != 0.0 && meanRatio != 0.0
    ensures Consistent(ind)
    ensures ind.core.todayIndex == todayIndex && ind.core.todayRate == todayRate
    ensures ind.core.avgGapRatio == meanRatio * 100.0
  {
    Indicators(
      core := DeriveCore(todayIndex, todayRate, rateMedian, meanRatio, avgIndex, avgRate),
      indexMedian := indexMedian,
      gapRatio := GapRatio(todayIndex, indexMedian),
      gapPercentage := GapPercentage(todayIndex, indexMedian))
  }
}
