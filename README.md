# Fair-exchange-rate alerts, modelled in Dafny

asst_box is a set of small scripts. Each one downloads daily closing prices:
- the US dollar index against USD/KRW;
- the Nikkei 225 against KRW/JPY;
- gold and silver prices.

From those prices each script decides whether now is a good moment to buy dollars, yen or gold.

All scripts use the same core values:
- **gap ratio**: the index divided by the median exchange rate, times 100;
- **average gap ratio**: 100 times the mean index-to-rate ratio over the dates both series hold;
- **fair rate**: the rate at which today's index would sit exactly at the average gap ratio.

Four strict comparisons against these values become '적합' / '부적합' labels (suitable / unsuitable).

**Single-run scripts.** `gold/gold_4.py`, `yen/yen_52.py` and `dollar/calculate_52_week_dollar_exchange_rate.py` each do the following:
- evaluate the conditions once, over the downloaded period;
- turn the number of satisfied conditions into advice;
- build a result dictionary and write its values as one spreadsheet row;
- send a chat notification from three satisfied conditions on.

**Backtest scripts.** `dollar/calculate_52_week_dollar_all_period_exchange_rate.py` and `yen/yen_4_all.py` replay the decision for every trading day since 2020:
- over a trailing inclusive window of 52 weeks (USD) or 4 weeks (JPY);
- for each suitable day, with the return over each of the next 14 calendar days;
- finally replacing a worksheet's contents with a title row followed by all result rows.

**How the model represents this.** Prices are exact `real`s. Days are integer day numbers. A series is a sequence of `Obs(day, close)` with strictly increasing days.

Modules:
- `Series`, `Stats`, `Gap`, `Signals`, `Report` and `GapIndicators` hold the logic the scripts share, each stated once.
- `UsdGap` holds the dollar indicator block shared by the dollar and gold scripts.
- `Backtest` holds the window arithmetic and row layout shared by the two backtests.
- Each script has one module of its own: `Dollar52`, `Gold4`, `Yen52`, `DollarHistory`, `YenHistory`.

The single-run scripts are pure and are modelled as functions. The backtests build their result lists with nested loops. They are modelled as methods with `for` loops, proved equal to the specification functions `RowsUpTo` and `ProfitLoss`. `RowsUpTo` concatenates (`Flatten`) what each date adds (`DayRows`), and `Emitted` lists the dates that add a row (`Contributors`). The generic lemmas about these two in `Backtest` match row j with the j-th such date. The worksheet is a class whose `rows` field the methods reassign.

## Model

| member | source | states |
|---|---|---|
| Series.Closes | dollar/calculate_52_week_dollar_exchange_rate.py:40-45 | the close column has one entry per observation |
| Series.Find | dollar/calculate_52_week_dollar_all_period_exchange_rate.py:34-36 | a found value is an observation of that day; no result means no observation carries that day |
| Series.FindOrdered | dollar/calculate_52_week_dollar_all_period_exchange_rate.py:33-36 | in a day-ordered series, looking up an observation's own day yields its close |
| Series.Window | dollar/calculate_52_week_dollar_all_period_exchange_rate.py:19 | the date-range slice is never longer than the series |
| Series.WindowMembers | dollar/calculate_52_week_dollar_all_period_exchange_rate.py:19 | the slice holds exactly the observations whose day lies in the inclusive range |
| Series.WindowOrdered | yen/yen_4_all.py:25 | the slice of a day-ordered series is day-ordered |
| Series.Matched | dollar/calculate_52_week_dollar_exchange_rate.py:43 | index alignment keeps at most one pair per index observation |
| Series.MatchedComplete | dollar/calculate_52_week_dollar_exchange_rate.py:43 | every index day that the rate series also holds contributes its pair |
| Series.MatchedSound | dollar/calculate_52_week_dollar_exchange_rate.py:43 | every pair comes from an index observation and the rate on that same day |
| Series.HitsFrom | dollar/calculate_52_week_dollar_exchange_rate.py:43 | the positions of the index series from i on that the rate series also holds, strictly increasing, each with a match |
| Series.HitsFromComplete | dollar/calculate_52_week_dollar_exchange_rate.py:43 | every matching position from i on is listed |
| Series.MatchedAt | dollar/calculate_52_week_dollar_exchange_rate.py:43 | pair k is the index close and the rate on the k-th matching date, so each common date gives exactly one pair, in date order |
| Series.Ratios | dollar/calculate_52_week_dollar_exchange_rate.py:43 | one ratio per matched pair |
| Series.ReciprocalRatios | yen/yen_52.py:45 | one index-over-reciprocal-rate value per matched pair |
| Series.Products | yen/yen_52.py:45 | one index-times-rate value per matched pair |
| Series.ReciprocalRatiosAreProducts | yen/yen_52.py:45 | dividing by the reciprocal rate equals multiplying by the rate |
| Series.MatchedPositive | dollar/calculate_52_week_dollar_exchange_rate.py:43 | positive series give positive matched pairs |
| Series.ProductsPositive | yen/yen_52.py:45 | positive pairs have positive products |
| Series.RatiosPositive | dollar/calculate_52_week_dollar_exchange_rate.py:43 | positive pairs have nonzero divisors and positive ratios |
| Stats.SumWithin | dollar/calculate_52_week_dollar_exchange_rate.py:44-45 | a sum of values in [lo, hi] lies between n·lo and n·hi |
| Stats.MeanWithin | dollar/calculate_52_week_dollar_exchange_rate.py:44-45 | a mean lies between the bounds of its values |
| Stats.MeanPositive | dollar/calculate_52_week_dollar_exchange_rate.py:44-45 | the mean of positive values is positive |
| Stats.Mean | dollar/calculate_52_week_dollar_exchange_rate.py:44-45 | the mean times the number of values is their sum |
| Stats.SumPositive | dollar/calculate_52_week_dollar_exchange_rate.py:44-45 | the sum of a non-empty run of positive values is positive |
| Stats.Insert | dollar/calculate_52_week_dollar_exchange_rate.py:40-41 | inserting into a sorted sequence keeps it sorted and adds exactly the element |
| Stats.Sort | dollar/calculate_52_week_dollar_exchange_rate.py:40-41 | the sort is sorted and a permutation of its input |
| Stats.MedianWithin | dollar/calculate_52_week_dollar_exchange_rate.py:40-41 | the median lies between the bounds of its values |
| Stats.Median | dollar/calculate_52_week_dollar_exchange_rate.py:40-41 | the median lies between two of the values |
| Stats.MedianPositive | dollar/calculate_52_week_dollar_exchange_rate.py:40-41 | the median of positive values is positive |
| Stats.MedianOfSorted | dollar/calculate_52_week_dollar_exchange_rate.py:40-41 | the median is the middle element, or the mean of the two middle elements, of the sorted values |
| Stats.SortedUnique | dollar/calculate_52_week_dollar_exchange_rate.py:40-41 | two sorted permutations of the same values are equal, so the median does not depend on how it is sorted |
| Gap.GapPercentage | dollar/calculate_52_week_dollar_exchange_rate.py:42-47 | the gap percentage is the gap ratio less 100 |
| Gap.GapRatio | dollar/calculate_52_week_dollar_exchange_rate.py:48 | gap ratio × reference = value × 100 |
| Gap.Estimate | dollar/calculate_52_week_dollar_exchange_rate.py:46 | estimate × average gap ratio = today's index × 100; with a positive ratio the estimate has the index's sign |
| Gap.Reciprocal | yen/yen_52.py:40-48 | the reciprocal times the value is 1; it is nonzero, and positive exactly when the value is |
| Gap.ReciprocalReverses | yen/yen_4_all.py:41-49 | for positive rates, a larger JPY/KRW value means a smaller KRW/JPY value, and the reverse |
| Gap.InversePositive | yen/yen_52.py:40 | the reciprocal of a positive rate is positive |
| Gap.PercentChange | dollar/calculate_52_week_dollar_all_period_exchange_rate.py:66 | from a positive price, the change is positive iff the later price is higher, and zero iff it is equal |
| Gap.GapRatioAbove | dollar/calculate_52_week_dollar_all_period_exchange_rate.py:54 | with a positive reference, the gap ratio exceeds g iff value × 100 exceeds g × reference |
| Gap.BelowEstimate | dollar/calculate_52_week_dollar_all_period_exchange_rate.py:55 | with a positive average gap ratio g, a rate is below the estimate iff rate × g < index × 100 |
| GapIndicators.DeriveCore | dollar/calculate_52_week_dollar_all_period_exchange_rate.py:46-48 | the estimate and the current gap ratio satisfy their defining equations; the average gap ratio is 100 × the mean ratio |
| GapIndicators.CheckConditions | dollar/calculate_52_week_dollar_exchange_rate.py:69-73 | exactly four conditions |
| GapIndicators.ConsistentConditions | dollar/calculate_52_week_dollar_exchange_rate.py:69-73 | with a positive rate median and average gap ratio, condition 3 reads index × 100 > average gap ratio × rate median and condition 4 reads rate × average gap ratio < index × 100 |
| GapIndicators.CoreConditions | dollar/calculate_52_week_dollar_exchange_rate.py:69-73 | given the raw statistics the indicators were derived from, the four conditions read: rate below its mean, index below its mean, index above mean ratio × rate median, rate × mean ratio below the index, each as an iff |
| GapIndicators.QuotedConditions | yen/yen_52.py:66-76 | when the rates are reciprocals of positive KRW/JPY quotes, the four conditions read over the quotes: quote above its mean, Nikkei below its mean, Nikkei × median quote above the mean product, mean product below Nikkei × today's quote |
| GapIndicators.InverseOrder | yen/yen_52.py:72 | between reciprocals of positive quotes, the order reverses, as an iff |
| GapIndicators.TimesInverse | yen/yen_52.py:74-75 | comparing against b × r, with r the reciprocal of a positive x, is comparing a × x against b, as an iff |
| GapIndicators.Derive | dollar/calculate_52_week_dollar_exchange_rate.py:38-48 | the single-run indicators are consistent: gap % = gap ratio − 100, and the core equations hold |
| UsdGap.CalculateIndicators | dollar/calculate_52_week_dollar_exchange_rate.py:31-61 | today's values are the last closes; the index and rate medians are the medians of their closes, the means the means of their closes, and the average gap ratio 100 × the mean ratio over matched dates; the indicators are consistent |
| UsdGap.IndicatorConditions | dollar/calculate_52_week_dollar_exchange_rate.py:63-73 | on positive series, the four conditions of the computed indicators read over the series' own last closes, medians and means |
| UsdGap.PositiveDivisors | dollar/calculate_52_week_dollar_exchange_rate.py:41-43 | on positive series the rate median and the mean ratio are positive |
| UsdGap.PositivePricesComputable | dollar/calculate_52_week_dollar_exchange_rate.py:38-48 | positive series sharing a date never hit a zero divisor |
| Signals.LabelCells | dollar/calculate_52_week_dollar_all_period_exchange_rate.py:57 | one label per condition, in order: '적합' iff the condition holds |
| Signals.CountSuitable | dollar/calculate_52_week_dollar_exchange_rate.py:154 | never more than the number of cells |
| Signals.CountSuitableLabels | dollar/calculate_52_week_dollar_exchange_rate.py:116-119 | counting '적합' cells counts the conditions that hold |
| Signals.CountTrue | dollar/calculate_52_week_dollar_exchange_rate.py:154 | the count lies in 0..n; it is n iff all conditions hold and 0 iff none does |
| Signals.Recommend | dollar/calculate_52_week_dollar_exchange_rate.py:81-86 | all of the conditions → invest now; 3 up to all but one → may start; ≤ 2 → hold, each as an iff |
| Signals.PlainLabelInjective | dollar/calculate_52_week_dollar_exchange_rate.py:81-86 | the three advice texts are distinct |
| Signals.TradeSignal | dollar/calculate_52_week_dollar_exchange_rate.py:99-104 | sell iff gap % > 5, buy iff gap % ≤ −5, no trade iff −5 < gap % ≤ 5 |
| Report.Entries | dollar/calculate_52_week_dollar_exchange_rate.py:106-122 | the dictionary holds the keys and values in insertion order; distinct keys stay distinct |
| Report.Get | dollar/calculate_52_week_dollar_exchange_rate.py:138 | a lookup succeeds iff the key is present, and returns a value stored under it |
| Report.SheetRow | dollar/calculate_52_week_dollar_exchange_rate.py:138 | building the row fails iff the date or period key is missing |
| Report.SheetRowIsValues | gold/gold_4.py:172 | when date and period come first, the row is exactly the dictionary's values in order |
| Report.Worksheet.Clear | dollar/calculate_52_week_dollar_all_period_exchange_rate.py:101 | the sheet holds no rows afterwards |
| Report.Worksheet.AppendRow | dollar/calculate_52_week_dollar_all_period_exchange_rate.py:112 | the row is added after the existing rows |
| Report.Worksheet.AppendRows | dollar/calculate_52_week_dollar_all_period_exchange_rate.py:115 | the rows are added after the existing rows, in order |
| Report.RecordToSheet | dollar/calculate_52_week_dollar_exchange_rate.py:124-139 | on a well-formed result exactly one row, its values, is appended; on a missing key the sheet is unchanged and the key is reported |
| Report.Header | dollar/calculate_52_week_dollar_all_period_exchange_rate.py:104-112 | the title row has one text cell per title, in order |
| Report.ReplaceSheet | dollar/calculate_52_week_dollar_all_period_exchange_rate.py:101-115 | afterwards the sheet is the title row followed by the data rows; prior contents are gone |
| Dollar52.NotifyIffThree | dollar/calculate_52_week_dollar_exchange_rate.py:172-173 | a notification is sent iff the count is ≥ 3; the label disjunct adds nothing |
| Dollar52.ProvideAdvice | dollar/calculate_52_week_dollar_exchange_rate.py:75-86 | 4 → '지금 바로 투자하세요', 3 → '투자 시작해도 됨', ≤ 2 → '투자 보류', each as an iff |
| Dollar52.TradingAdviceInjective | dollar/calculate_52_week_dollar_exchange_rate.py:99-104 | the three trading messages are distinct, so the advice cell tells which trade the rule chose |
| Dollar52.ResultKeys | dollar/calculate_52_week_dollar_exchange_rate.py:106-122 | fifteen keys, date first and period second |
| Dollar52.ResultKeysDistinct | dollar/calculate_52_week_dollar_exchange_rate.py:106-122 | the fifteen keys are pairwise distinct, so no entry overwrites another |
| Dollar52.ResultCells | dollar/calculate_52_week_dollar_exchange_rate.py:106-122 | the date, the period, the estimate, the current gap ratio, today's index and rate, the average gap ratio, the two means, the four labels, the final suitability and the trading message, in that order |
| Dollar52.CreateResult | dollar/calculate_52_week_dollar_exchange_rate.py:88-122 | fifteen entries: each key of the result keys paired, in order, with the value in the same position of the result cells |
| Dollar52.CalculateExchangeRate | dollar/calculate_52_week_dollar_exchange_rate.py:141-173 | fails with no data iff a series is empty, succeeds iff the indicators are computable; the row is the 15 result values built from the series' indicators and conditions, the advice follows the count of '적합' labels, and a notification goes out iff that count is ≥ 3 |
| Dollar52.ResultRowStatistics | dollar/calculate_52_week_dollar_exchange_rate.py:38-48 | a successful row holds the last closes, 100 × the mean ratio over matched dates, the means of the closes, and the estimate and current gap ratio of those indicators |
| Dollar52.ResultRowSignals | dollar/calculate_52_week_dollar_exchange_rate.py:99-121 | a successful row holds the labels of the conditions checked on the series' indicators and the ±5 trading message for their gap percentage |
| Gold4.DeriveGold | gold/gold_4.py:55-75 | ratio × silver = gold; fair gold = fair USD/KRW × average gold / 100; today's and the fair KRW/g price × grams per ounce = the USD/ounce price × USD/KRW; the expected return is the change from today's to the fair KRW/g price, equal to the change in USD/ounce |
| Gold4.PerGram | gold/gold_4.py:58-59 | a USD/ounce price turned into KRW/g, times grams per ounce, is the price times USD/KRW |
| Gold4.ExpectedReturnSign | gold/gold_4.py:73-75 | for positive gold and USD/KRW, today's KRW/g price is positive and the expected return is positive iff the fair KRW/g price exceeds today's, iff the fair USD/ounce price exceeds today's |
| Gold4.EstimateScales | gold/gold_4.py:72 | the gold estimate is the USD/KRW estimate scaled by average gold / 100 |
| Gold4.ConversionCancels | gold/gold_4.py:58-59 | a common conversion factor leaves a percentage change unchanged |
| Gold4.CalculateIndicators | gold/gold_4.py:42-96 | the dollar block is the dollar script's indicators of the same series; today's gold and silver are the last closes, average gold the mean of the gold closes; the gold relations above hold |
| Gold4.CheckConditions | gold/gold_4.py:98-109 | five conditions: the four dollar ones in order, then gold/silver ratio strictly above 80 |
| Gold4.NotifyIffThree | gold/gold_4.py:210-211 | a notification is sent iff the count is ≥ 3 |
| Gold4.ProvideAdvice | gold/gold_4.py:111-122 | 5 → invest now, 3 or 4 → may start, ≤ 2 → hold, each as an iff |
| Gold4.ResultKeys | gold/gold_4.py:134-155 | twenty keys, date first and period second |
| Gold4.ResultKeysDistinct | gold/gold_4.py:134-155 | the twenty keys are pairwise distinct |
| Gold4.IndicatorCells | gold/gold_4.py:134-147 | the date, the period, the fair KRW/g price, the expected return, today's index and rate, today's gold in USD/ounce and KRW/g, today's silver, the gold/silver ratio, the average gap ratio and the two means, in that order |
| Gold4.ResultCells | gold/gold_4.py:134-155 | the indicator cells, then the five labels, the final suitability and the advice |
| Gold4.CreateResult | gold/gold_4.py:124-155 | twenty entries: each key of the result keys paired, in order, with the value in the same position of the result cells |
| Gold4.CalculateExchangeRate | gold/gold_4.py:178-211 | fails with no data iff a series is empty, succeeds iff computable; the row is the 20 result values built from the series' indicators and five conditions, final suitability and advice both follow the count, and a notification goes out iff the count is ≥ 3 |
| Gold4.ResultRowStatistics | gold/gold_4.py:51-75 | a successful row holds the last index, USD/KRW, gold and silver closes, 100 × the mean ratio over matched dates, the dollar means, and the KRW/g prices, return and ratio of those indicators |
| Gold4.ResultRowSignals | gold/gold_4.py:98-109 | a successful row holds the labels of the five conditions checked on the series' indicators |
| Yen52.CalculateIndicators | yen/yen_52.py:31-64 | today's Nikkei is the last close, its median and mean the median and mean of its closes; today's, the median and the mean JPY/KRW are reciprocals of the KRW/JPY last close, median and mean; the average gap ratio is 100 × the mean of Nikkei × KRW/JPY over matched dates; the indicators are consistent |
| Yen52.IndicatorConditions | yen/yen_52.py:66-76 | on positive series, the four conditions of the computed indicators read over the Nikkei closes and the KRW/JPY quotes themselves |
| Yen52.PositiveQuotes | yen/yen_52.py:39-49 | on positive series today's quote, the median and mean quote and the mean product are positive |
| Yen52.PositivePairs | yen/yen_52.py:45 | positive pairs give nonzero divisors and a positive mean |
| Yen52.PositivePricesComputable | yen/yen_52.py:38-51 | positive series sharing a date never hit a zero divisor |
| Yen52.NotifyIffThree | yen/yen_52.py:175-176 | the advice never equals the unprefixed label, so a notification is sent iff the count is ≥ 3 |
| Yen52.ProvideAdvice | yen/yen_52.py:78-89 | every advice starts with '52주 - '; 4 → invest now, 3 → may start, ≤ 2 → hold behind that prefix, each as an iff |
| Yen52.PrefixedLabelInjective | yen/yen_52.py:84-89 | behind the common prefix the three labels stay distinct |
| Yen52.TradingAdviceInjective | yen/yen_52.py:102-107 | the three trading messages are distinct |
| Yen52.ResultKeys | yen/yen_52.py:109-125 | fifteen keys, date first and period second |
| Yen52.ResultKeysDistinct | yen/yen_52.py:109-125 | the fifteen keys are pairwise distinct |
| Yen52.ResultCells | yen/yen_52.py:109-125 | the date, the period, the estimate, the current gap ratio, today's Nikkei and JPY/KRW, the average gap ratio, the two means, the four labels, the final suitability and the trading message, in that order |
| Yen52.CreateResult | yen/yen_52.py:91-125 | fifteen entries: each key of the result keys paired, in order, with the value in the same position of the result cells |
| Yen52.CalculateExchangeRate | yen/yen_52.py:144-176 | fails with no data iff a series is empty, succeeds iff computable; the row is the 15 result values built from the series' indicators and conditions, the advice follows the count, and a notification goes out iff the count is ≥ 3 |
| Yen52.ResultRowStatistics | yen/yen_52.py:38-51 | a successful row holds the last Nikkei close, the reciprocal of the last KRW/JPY close, 100 × the mean product over matched dates, the Nikkei mean, the reciprocal of the mean quote, and the estimate and current gap ratio |
| Yen52.ResultRowSignals | yen/yen_52.py:101-124 | a successful row holds the labels of the conditions checked on the series' indicators and the ±5 trading message for their gap percentage |
| Backtest.DownloadData | dollar/calculate_52_week_dollar_all_period_exchange_rate.py:7-15 | succeeds iff the series is non-empty, returning it unchanged; otherwise fails with no data |
| Backtest.MedianAndMean | dollar/calculate_52_week_dollar_all_period_exchange_rate.py:17-20 | the median and the mean of the window's closes; both positive over a positive window |
| Backtest.WindowFind | dollar/calculate_52_week_dollar_all_period_exchange_rate.py:47 | within the window's range, looking a day up in the window equals looking it up in the full series |
| Backtest.WindowPositive | dollar/calculate_52_week_dollar_all_period_exchange_rate.py:19 | the window of a positive series is positive |
| Backtest.CommonDayInWindows | dollar/calculate_52_week_dollar_all_period_exchange_rate.py:39-47 | the current date lies in both windows, so both are non-empty and share a matched date |
| Backtest.PositiveCommonWindows | yen/yen_4_all.py:44-52 | for positive series, both windows are non-empty and positive, and they share a matched date |
| Backtest.FinalSuitability | dollar/calculate_52_week_dollar_all_period_exchange_rate.py:58 | '적합' iff every condition holds |
| Backtest.Blanks | dollar/calculate_52_week_dollar_all_period_exchange_rate.py:71 | fourteen empty cells |
| Backtest.Leading | dollar/calculate_52_week_dollar_all_period_exchange_rate.py:74-81 | the eight leading cells: the date, the estimate in its unit, the current gap ratio, today's index and rate, the average gap ratio and the two means |
| Backtest.BacktestRow | dollar/calculate_52_week_dollar_all_period_exchange_rate.py:73-85 | every row has 27 cells |
| Backtest.RowCells | dollar/calculate_52_week_dollar_all_period_exchange_rate.py:73-85 | cells 0..7 are the date, estimate, current gap ratio, today's values, average gap ratio and means of the indicators; cells 8..11 are the condition labels |
| Backtest.RowFinal | dollar/calculate_52_week_dollar_all_period_exchange_rate.py:58-71 | cell 12 is '적합' iff all four label cells are '적합'; the last 14 cells are the lookahead when suitable and blanks otherwise |
| Backtest.Contributors | dollar/calculate_52_week_dollar_all_period_exchange_rate.py:33-87 | the dates that add a row are in range and add a non-empty part |
| Backtest.FlattenSnoc | dollar/calculate_52_week_dollar_all_period_exchange_rate.py:87 | one more pass of the loop appends that date's rows to those already built, which stay unchanged |
| Backtest.FlattenLength | dollar/calculate_52_week_dollar_all_period_exchange_rate.py:87 | with at most one row per date, there are as many rows as dates that add one |
| Backtest.FlattenAt | dollar/calculate_52_week_dollar_all_period_exchange_rate.py:33-87 | with at most one row per date, row j is the row of the j-th date that adds one |
| Backtest.ContributorsAscending | dollar/calculate_52_week_dollar_all_period_exchange_rate.py:33 | the dates that add a row are strictly increasing |
| Backtest.ContributorsComplete | dollar/calculate_52_week_dollar_all_period_exchange_rate.py:33-87 | every date that adds a row is among them |
| DollarHistory.DefinedPrefix | dollar/calculate_52_week_dollar_all_period_exchange_rate.py:33-48 | a date prefix whose emitted windows are computable stays so when shortened |
| DollarHistory.DefinedAt | dollar/calculate_52_week_dollar_all_period_exchange_rate.py:38-48 | every emitted date of a computable prefix has computable windows |
| DollarHistory.WindowCore | dollar/calculate_52_week_dollar_all_period_exchange_rate.py:39-48 | the indicators satisfy the gap-ratio and estimate equations, carry today's values, and take the rate median, both means and the average gap ratio from the closes of the 364-day windows ending at the date |
| DollarHistory.IndicatorsAt | dollar/calculate_52_week_dollar_all_period_exchange_rate.py:34-48 | today's index is the date's close and today's rate the nonzero close the rate series holds on that date; the window statistics are those of the 364-day windows ending at the date |
| DollarHistory.IndicatorsAtConditions | dollar/calculate_52_week_dollar_all_period_exchange_rate.py:50-56 | for positive series, the four conditions of an emitted date read over that date's closes and the closes of its 364-day windows |
| DollarHistory.StatsConditions | dollar/calculate_52_week_dollar_all_period_exchange_rate.py:46-56 | indicators tied to the window statistics read their conditions over those statistics |
| DollarHistory.ProfitLoss | dollar/calculate_52_week_dollar_all_period_exchange_rate.py:62-69 | exactly fourteen lookahead cells |
| DollarHistory.ProfitCell | dollar/calculate_52_week_dollar_all_period_exchange_rate.py:63-69 | the cell is 'N/A' iff the future date is absent, and a percentage iff it is present |
| DollarHistory.ProfitLossCell | dollar/calculate_52_week_dollar_all_period_exchange_rate.py:62-69 | cell k is 'N/A' iff date + k is absent; otherwise it is the percentage change from today's close to the close on date + k, positive iff that close is above a positive today's close |
| DollarHistory.CalculateProfitLoss | dollar/calculate_52_week_dollar_all_period_exchange_rate.py:62-69 | the loop builds exactly the fourteen lookahead cells |
| DollarHistory.Titles | dollar/calculate_52_week_dollar_all_period_exchange_rate.py:104-111 | twenty-seven titles |
| DollarHistory.Row | dollar/calculate_52_week_dollar_all_period_exchange_rate.py:73-85 | a row is as long as the title row and starts with its date |
| DollarHistory.CalculateRow | dollar/calculate_52_week_dollar_all_period_exchange_rate.py:50-85 | the loop body builds the 27-cell row with the lookahead only when suitable |
| DollarHistory.RowsOfDay | dollar/calculate_52_week_dollar_all_period_exchange_rate.py:33-38 | a day adds at most one row, and adds one iff it passes the date and nonzero-close guards |
| DollarHistory.DayRows | dollar/calculate_52_week_dollar_all_period_exchange_rate.py:33-87 | one entry per date of the USD index, each holding at most one row |
| DollarHistory.DayRowsAt | dollar/calculate_52_week_dollar_all_period_exchange_rate.py:33-87 | entry i is what date i adds, and a date that adds a row has computable windows |
| DollarHistory.CalculateDay | dollar/calculate_52_week_dollar_all_period_exchange_rate.py:33-87 | one pass of the date loop yields exactly what that date adds |
| DollarHistory.CalculateRows | dollar/calculate_52_week_dollar_all_period_exchange_rate.py:33-87 | the date loop builds exactly the specified rows |
| DollarHistory.CalculateExchangeRateHistory | dollar/calculate_52_week_dollar_all_period_exchange_rate.py:22-115 | fails with no data, leaving the sheet untouched, iff a series is empty; otherwise the sheet is the title row followed by all rows in order |
| DollarHistory.Emitted | dollar/calculate_52_week_dollar_all_period_exchange_rate.py:33-38 | every emitted date is in range, present in both series with nonzero closes, and has computable windows |
| DollarHistory.EmittedAscending | dollar/calculate_52_week_dollar_all_period_exchange_rate.py:33 | emitted dates follow the USD-index order, each at most once |
| DollarHistory.EmittedComplete | dollar/calculate_52_week_dollar_all_period_exchange_rate.py:33-38 | every date that passes the guard is emitted |
| DollarHistory.RowCount | dollar/calculate_52_week_dollar_all_period_exchange_rate.py:87 | one row per emitted date |
| DollarHistory.RowOfEmitted | dollar/calculate_52_week_dollar_all_period_exchange_rate.py:33-87 | row j is the row of the j-th emitted date |
| DollarHistory.PositiveWindowsDefined | dollar/calculate_52_week_dollar_all_period_exchange_rate.py:42-48 | positive windows that share a date never hit a zero divisor |
| DollarHistory.PositiveWindowDefined | dollar/calculate_52_week_dollar_all_period_exchange_rate.py:38-48 | for positive series, every emitted date has computable windows |
| DollarHistory.PositiveDefined | dollar/calculate_52_week_dollar_all_period_exchange_rate.py:33-48 | for positive series, every prefix is computable |
| YenHistory.DefinedPrefix | yen/yen_4_all.py:37-53 | a date prefix whose emitted windows are computable stays so when shortened |
| YenHistory.DefinedAt | yen/yen_4_all.py:43-53 | every emitted date of a computable prefix has computable windows |
| YenHistory.WindowCore | yen/yen_4_all.py:44-53 | the JPY/KRW median and mean are reciprocals of the 28-day KRW/JPY window's median and mean; the Nikkei mean is the mean of its window closes; the average gap ratio is 100 × the mean of Nikkei × KRW/JPY over the windows' common dates; the equations hold |
| YenHistory.IndicatorsAt | yen/yen_4_all.py:39-53 | today's Nikkei is the date's close and today's JPY/KRW the reciprocal of the date's KRW/JPY close; the window statistics are those of the 28-day windows |
| YenHistory.IndicatorsAtConditions | yen/yen_4_all.py:55-60 | for positive series, the four conditions of an emitted date read over that date's Nikkei close, its KRW/JPY quote and the quotes of its 28-day windows |
| YenHistory.StatsConditions | yen/yen_4_all.py:51-60 | indicators tied to the window statistics read their conditions over those statistics and today's quote |
| YenHistory.ProfitLoss | yen/yen_4_all.py:66-74 | exactly fourteen lookahead cells |
| YenHistory.ProfitCell | yen/yen_4_all.py:67-74 | the cell is 'N/A' iff the future date is absent, and a percentage iff it is present with a nonzero close |
| YenHistory.Infinite | yen/yen_4_all.py:70-72 | the text for an infinite change is never 'N/A' |
| YenHistory.ProfitLossCell | yen/yen_4_all.py:66-74 | cell k is 'N/A' iff date + k is absent; a zero future close gives 'inf%', or '-inf%' below a negative quote; otherwise it is the percentage change between the reciprocals, positive iff KRW/JPY on date + k is below a positive today's quote |
| YenHistory.CalculateProfitLoss | yen/yen_4_all.py:66-74 | the loop builds exactly the fourteen lookahead cells |
| YenHistory.Titles | yen/yen_4_all.py:105-112 | twenty-seven titles |
| YenHistory.Row | yen/yen_4_all.py:78-90 | a row is as long as the title row and starts with its date |
| YenHistory.CalculateRow | yen/yen_4_all.py:55-90 | the loop body builds the 27-cell row with the lookahead only when suitable |
| YenHistory.RowsOfDay | yen/yen_4_all.py:37-43 | a day adds at most one row, and adds one iff it passes the date and nonzero-close guards |
| YenHistory.DayRows | yen/yen_4_all.py:37-92 | one entry per date of the Nikkei, each holding at most one row |
| YenHistory.DayRowsAt | yen/yen_4_all.py:37-92 | entry i is what date i adds, and a date that adds a row has computable windows |
| YenHistory.CalculateDay | yen/yen_4_all.py:37-92 | one pass of the date loop yields exactly what that date adds |
| YenHistory.CalculateRows | yen/yen_4_all.py:37-92 | the date loop builds exactly the specified rows |
| YenHistory.CalculateExchangeRateHistory | yen/yen_4_all.py:28-115 | fails with no data, leaving the sheet untouched, iff a series is empty; otherwise the sheet is the title row followed by all rows in order |
| YenHistory.Emitted | yen/yen_4_all.py:37-43 | every emitted date is in range, present in both series with nonzero closes, and has computable windows |
| YenHistory.EmittedAscending | yen/yen_4_all.py:37 | emitted dates follow the Nikkei order, each at most once |
| YenHistory.EmittedComplete | yen/yen_4_all.py:37-43 | every date that passes the guard is emitted |
| YenHistory.RowCount | yen/yen_4_all.py:92 | one row per emitted date |
| YenHistory.RowOfEmitted | yen/yen_4_all.py:37-92 | row j is the row of the j-th emitted date |
| YenHistory.PositiveWindowsDefined | yen/yen_4_all.py:46-53 | positive windows that share a date never hit a zero divisor |
| YenHistory.PositiveWindowDefined | yen/yen_4_all.py:43-53 | for positive series, every emitted date has computable windows |
| YenHistory.PositiveDefined | yen/yen_4_all.py:37-53 | for positive series, every prefix is computable |

## Left out

- Downloading with yfinance is not modelled. Each series is an input sequence. Empty downloads are modelled: the single-run scripts fail at `.iloc[-1]`, and the backtests raise in `download_data`. Both become `Failure(NoData)`.
- Spreadsheet authentication and opening a worksheet by name are not modelled. The worksheet is a `Report.Worksheet` object passed in; only `clear`, `append_row` and `append_rows` are modelled.
- The chat notification's HTTP POST, its webhook URL and its error on a non-200 status are not modelled. The single-run model returns the message it would send as `notification`.
- The `send_slack_notification` defined in `yen/yen_4_all.py` is never called by that script, so it has no counterpart.
- `datetime.today()` and `strftime` are not modelled. The timestamp is the `now` parameter, and a backtest date is a `Day` cell.
- `round(..., 2)`, `round(..., 4)` and the `:.2f` / `:.4f` renderings are not modelled. The model computes with exact reals, and a formatted cell is `Shown(value, unit)`. Every equation in the contracts holds for the exact values, not the rounded ones the scripts print.
- The `print` loops are not modelled.
- The try/except wrappers in `gold/gold_4.py` only relay errors to the chat and print them, so they are not modelled.
- Apart from the yen lookahead cells (below), numpy's division by zero, which yields inf, is not modelled. pandas' mean of an empty alignment, which yields NaN, is not modelled either. Instead:
  - the single-run scripts return `Failure(DegenerateRate)` when a divisor would be zero or no date is common (`Computable`, `GoldComputable`);
  - the backtests require `Defined`, which says every emitted date's windows have nonzero divisors.
  - `PositiveDefined` and `PositivePricesComputable` show that positive prices always meet these requirements.
- DollarHistory.CalculateExchangeRateHistory: requires `Defined` instead of writing inf/NaN cells for degenerate windows.
- YenHistory.CalculateExchangeRateHistory: requires `Defined` instead of writing inf/NaN cells for degenerate windows.
- `yen/yen_4_all.py` computes `1 / today_krw_jpy` on line 41, before the nonzero guard on line 43. With numpy a zero close gives inf there, and the guard then discards the date. The model takes the reciprocal only after the guard, so this difference is invisible in the rows.
- The one infinite value that is modelled is a zero KRW/JPY close on a lookahead date of `yen/yen_4_all.py`: numpy makes its reciprocal infinite and the cell reads `inf%` (or `-inf%` below a negative rate), which `YenHistory.Infinite` writes. A zero USD/KRW close cannot reach the dollar lookahead, because the guard on line 38 already excludes a zero close on the current date and the divisor is that close.
- In `dollar/calculate_52_week_dollar_all_period_exchange_rate.py`, the comment on line 41 speaks of four weeks while the code uses 52. The model follows the code: a window of 364 days.
- The USD-index median in the dollar backtest (line 42) is computed but never used, so it is not modelled.
- The backtests test `today_usd_index and today_usd_krw` by truthiness. A NaN close counts as true there. NaN is not modelled, so the guard is modelled as "both closes nonzero".
- Index alignment in `Series.Matched` keeps one pair per index date whose day also appears in the rate series. This equals pandas' aligned division followed by a NaN-skipping mean when both series have strictly increasing days. Duplicate dates are not modelled.
- `Stats.Median` is the sorted-middle definition. pandas' selection algorithm is not modelled.
