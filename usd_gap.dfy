/**
 * The indicator block as the 52-week dollar script and the gold script
 * compute it from the downloaded USD index and USD/KRW series: today's
 * closes, the medians and means of both series, and the mean of the
 * index-to-rate ratio over the dates both series hold.
 */
module UsdGap {
  import opened Series
  import opened Stats
  import opened GapIndicators

  /** Both series are non-empty and no divisor used by the indicators is zero. */
  predicate Computable(usdIndex: seq<Obs>, usdKrw: seq<Obs>) {
    && |usdIndex| > 0 && |usdKrw| > 0
    && Median(Closes(usdIndex)) != 0.0
    && Median(Closes(usdKrw)) != 0.0
    && |Matched(usdIndex, usdKrw)| > 0
    && NonzeroDivisors(Matched(usdIndex, usdKrw))
    && Mean(Ratios(Matched(usdIndex, usdKrw))) != 0.0
  }

  /**
   * `calculate_indicators` on the two downloaded series: the index is the USD
   * index, the rate USD/KRW, and the average gap ratio 100 times the mean of
   * index over rate on the common dates.
   */
  function CalculateIndicators(usdIndex: seq<Obs>, usdKrw: seq<Obs>): (ind: Indicators)
    requires Computable(usdIndex, usdKrw)
    ensures ind.core.todayIndex == LastClose(usdIndex) && ind.core.todayRate == LastClose(usdKrw)
    ensures ind.indexMedian == Median(Closes(usdIndex)) && ind.core.rateMedian == Median(Closes(usdKrw))
    ensures ind.core.avgIndex == Mean(Closes(usdIndex)) && ind.core.avgRate == Mean(Closes(usdKrw))
    ensures ind.core.avgGapRatio == Mean(Ratios(Matched(usdIndex, usdKrw))) * 100.0
    ensures Consistent(ind)
  {
    Derive(LastClose(usdIndex), LastClose(usdKrw), Median(Closes(usdIndex)), Median(Closes(usdKrw)),
           Mean(Ratios(Matched(usdIndex, usdKrw))), Mean(Closes(usdIndex)), Mean(Closes(usdKrw)))
  }

  /**
   * On positive series (computable as soon as they share a date, by
   * `PositivePricesComputable`) the four conditions read over the series
   * themselves: USD/KRW below its mean, the index below its mean, the index
   * above the mean ratio times the USD/KRW median, and USD/KRW times the
   * mean ratio below the index.
   */
  lemma IndicatorConditions(usdIndex: seq<Obs>, usdKrw: seq<Obs>)
    requires Positive(usdIndex) && Positive(usdKrw) && Computable(usdIndex, usdKrw)
    ensures ConditionsRead(CheckConditions(CalculateIndicators(usdIndex, usdKrw).core),
                           LastClose(usdIndex), LastClose(usdKrw), Median(Closes(usdKrw)),
                           Mean(Ratios(Matched(usdIndex, usdKrw))), Mean(Closes(usdIndex)), Mean(Closes(usdKrw)))
  {
    PositiveDivisors(usdIndex, usdKrw);
    var m := Matched(usdIndex, usdKrw);
    CoreConditions(CalculateIndicators(usdIndex, usdKrw).core, LastClose(usdIndex), LastClose(usdKrw),
                   Median(Closes(usdKrw)), Mean(Ratios(m)), Mean(Closes(usdIndex)), Mean(Closes(usdKrw)));
  }

  /** On positive series the USD/KRW median and the mean ratio are positive. */
  lemma PositiveDivisors(usdIndex: seq<Obs>, usdKrw: seq<Obs>)
    requires Positive(usdIndex) && Positive(usdKrw) && Computable(usdIndex, usdKrw)
    ensures Median(Closes(usdKrw)) > 0.0 && Mean(Ratios(Matched(usdIndex, usdKrw))) > 0.0
  {
    var m := Matched(usdIndex, usdKrw);
    MedianPositive(Closes(usdKrw));
    MatchedPositive(usdIndex, usdKrw);
    RatiosPositive(m);
    MeanPositive(Ratios(m));
  }

  /** Positive price series with at least one common date always yield computable indicators. */
  lemma PositivePricesComputable(usdIndex: seq<Obs>, usdKrw: seq<Obs>, common: int)
    requires Positive(usdIndex) && Positive(usdKrw)
    requires 0 <= common < |usdIndex| && Find(usdKrw, usdIndex[common].day).Some?
    ensures Computable(usdIndex, usdKrw)
  {
    MedianPositive(Closes(usdIndex));
    MedianPositive(Closes(usdKrw));
    MatchedComplete(usdIndex, usdKrw, common);
    var m := Matched(usdIndex, usdKrw);
    MatchedPositive(usdIndex, usdKrw);
    RatiosPositive(m);
    MeanPositive(Ratios(m));
  }
}
