/**
 * The suitability evaluator shared by all scripts: conditions rendered as
 * '적합' / '부적합', the number of conditions that hold, the count-to-advice
 * threshold table, the chat trigger and the short-term trading rule.
 */
module Signals {
  import opened Report

  const Suitable: string := "적합"
  const Unsuitable: string := "부적합"

  /** `'적합' if condition else '부적합'` */
  function ConditionLabel(holds: bool): string {
    if holds then Suitable else Unsuitable
  }

  /** The condition columns of a result row, one label cell per condition. */
  function LabelCells(c: seq<bool>): (cells: seq<Cell>)
    ensures |cells| == |c|
    ensures forall i :: 0 <= i < |c| ==> cells[i] == Text(ConditionLabel(c[i]))
  {
    if |c| == 0 then [] else [Text(ConditionLabel(c[0]))] + LabelCells(c[1..])
  }

  /** The number of cells that read '적합'. */
  function CountSuitable(cells: seq<Cell>): (n: nat)
    ensures n <= |cells|
  {
    if |cells| == 0 then 0 else (if cells[0] == Text(Suitable) then 1 else 0) + CountSuitable(cells[1..])
  }

  /** Counting '적합' cells in the rendered columns counts the conditions that hold. */
  lemma {:induction false} CountSuitableLabels(c: seq<bool>)
    ensures CountSuitable(LabelCells(c)) == CountTrue(c)
  {
    if |c| > 0 {
      CountSuitableLabels(c[1..]);
      assert LabelCells(c)[1..] == LabelCells(c[1..]);
      assert Text(Unsuitable) != Text(Suitable) by {
        assert |Unsuitable| != |Suitable|;
      }
    }
  }

  /** `sum(conditions)`: the number of conditions that hold. */
  function CountTrue(c: seq<bool>): (n: nat)
    ensures n <= |c|
    ensures n == |c| <==> forall i :: 0 <= i < |c| ==> c[i]
    ensures n == 0 <==> forall i :: 0 <= i < |c| ==> !c[i]
  {
    if |c| == 0 then 0 else (if c[0] then 1 else 0) + CountTrue(c[1..])
  }

  /** The three rungs of every `provide_advice` table. */
  datatype Recommendation = InvestNow | MayStart | Hold

  /**
   * `provide_advice` without its display text: the strongest rung when every
   * one of the `total` conditions holds, the moderate rung from three on,
   * and hold below that.
   */
  function Recommend(count: int, total: int): (r: Recommendation)
    ensures r == InvestNow <==> count == total
    ensures r == MayStart <==> 3 <= count && count != total
    ensures r == Hold <==> count <= 2 && count != total
  {
    if count == total then InvestNow
    else if count >= 3 then MayStart
    else Hold
  }

  const InvestNowText: string := "지금 바로 투자하세요"
  const MayStartText: string := "투자 시작해도 됨"
  const HoldText: string := "투자 보류"

  /** The advice strings of the gold and dollar scripts. */
  function PlainLabel(r: Recommendation): string {
    match r
    case InvestNow => InvestNowText
    case MayStart => MayStartText
    case Hold => HoldText
  }

  /** Distinct rungs are displayed with distinct strings. */
  lemma PlainLabelInjective(r: Recommendation, q: Recommendation)
    ensures PlainLabel(r) == PlainLabel(q) <==> r == q
  {
    if r != q {
      assert PlainLabel(r)[0] != PlainLabel(q)[0] || |PlainLabel(r)| != |PlainLabel(q)|;
    }
  }

  /** `suitable_conditions >= 3 or final_suitability == '지금 바로 투자하세요'` */
  function ShouldNotify(count: int, finalSuitability: string): bool {
    count >= 3 || finalSuitability == InvestNowText
  }

  /** The ±5 % short-term trading rule of the 52-week scripts. */
  datatype Trade = Sell | Buy | NoTrade

  /** Sell strictly above +5, buy at or below -5, nothing in between (so +5 itself is no trade). */
  function TradeSignal(gapPercentage: real): (t: Trade)
    ensures t == Sell <==> gapPercentage > 5.0
    ensures t == Buy <==> gapPercentage <= -5.0
    ensures t == NoTrade <==> -5.0 < gapPercentage <= 5.0
  {
    if gapPercentage > 5.0 then Sell
    else if gapPercentage <= -5.0 then Buy
    else NoTrade
  }
}
