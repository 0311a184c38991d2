/**
 * Price series as the scripts see them: a sequence of (day, close) observations
 * indexed by date. Days are integer day numbers, so `timedelta(weeks=n)` is
 * `7 * n` and `timedelta(days=k)` is `k`.
 */
module Series {
  import opened Wrappers

  /**
   * Why a run yields no result: a series came back empty (the scripts' index
   * lookups raise), or a divisor of an indicator is zero or there is no
   * common date to average over (where the scripts would carry inf or NaN).
   */
  datatype Fault = NoData | DegenerateRate

  /** One row of a downloaded series: the trading day and its closing price. */
  datatype Obs = Obs(day: int, close: real)

  /** The date index of a downloaded series is strictly increasing. */
  ghost predicate Ordered(s: seq<Obs>) {
    forall i, j :: 0 <= i < j < |s| ==> s[i].day < s[j].day
  }

  /** The `Close` column. */
  function Closes(s: seq<Obs>): (c: seq<real>)
    ensures |c| == |s|
  {
    seq(|s|, i requires 0 <= i < |s| => s[i].close)
  }

  /** `data['Close'].iloc[-1]`: the most recent close. */
  function LastClose(s: seq<Obs>): real
    requires |s| > 0
  {
    s[|s| - 1].close
  }

  /** `d in data.index` and `data.loc[d]['Close']`: the close recorded on day `d`, if any. */
  function Find(s: seq<Obs>, d: int): (r: Option<real>)
    ensures r.Some? ==> Obs(d, r.value) in s
    ensures r.None? ==> forall i :: 0 <= i < |s| ==> s[i].day != d
  {
    if |s| == 0 then None
    else if s[0].day == d then Some(s[0].close)
    else
      var r := Find(s[1..], d);
      assert forall i :: 1 <= i < |s| ==> s[i] == s[1..][i - 1];
      r
  }

  /** In an ordered series the close found for a day is the close of the observation with that day. */
  lemma {:induction false} FindOrdered(s: seq<Obs>, i: int)
    requires Ordered(s) && 0 <= i < |s|
    ensures Find(s, s[i].day) == Some(s[i].close)
  {
    if i > 0 {
      assert s[0].day < s[i].day;
      FindOrdered(s[1..], i - 1);
    }
  }

  /**
   * `data.loc[lo:hi]` on a date index: the observations whose day lies in the
   * inclusive range [lo, hi], in their original order.
   */
  function Window(s: seq<Obs>, lo: int, hi: int): (w: seq<Obs>)
    ensures |w| <= |s|
  {
    if |s| == 0 then []
    else (if lo <= s[0].day <= hi then [s[0]] else []) + Window(s[1..], lo, hi)
  }

  /** The window holds exactly the observations of the series whose day lies in the range. */
  lemma {:induction false} WindowMembers(s: seq<Obs>, lo: int, hi: int)
    ensures forall x :: x in Window(s, lo, hi) <==> x in s && lo <= x.day <= hi
  {
    if |s| > 0 {
      WindowMembers(s[1..], lo, hi);
      assert forall x :: x in s <==> x == s[0] || x in s[1..];
    }
  }

  /** Restricting an ordered series to a window keeps it ordered. */
  lemma {:induction false} WindowOrdered(s: seq<Obs>, lo: int, hi: int)
    requires Ordered(s)
    ensures Ordered(Window(s, lo, hi))
  {
    if |s| > 0 {
      WindowOrdered(s[1..], lo, hi);
      var rest := Window(s[1..], lo, hi);
      WindowMembers(s[1..], lo, hi);
      forall x | x in rest ensures s[0].day < x.day {
        assert x in s[1..];
      }
    }
  }

  /** Pairs (close in `a`, close in `b`) for every day of `a` that `b` also holds, in `a`'s order. */
  function Matched(a: seq<Obs>, b: seq<Obs>): (m: seq<(real, real)>)
    ensures |m| <= |a|
  {
    if |a| == 0 then []
    else
      var rest := Matched(a[1..], b);
      match Find(b, a[0].day)
      case Some(c) => [(a[0].close, c)] + rest
      case None => rest
  }

  /** Every day of `a` that `b` also holds contributes its pair of closes. */
  lemma {:induction false} MatchedComplete(a: seq<Obs>, b: seq<Obs>, i: int)
    requires 0 <= i < |a| && Find(b, a[i].day).Some?
    ensures (a[i].close, Find(b, a[i].day).value) in Matched(a, b)
  {
    if i > 0 {
      MatchedComplete(a[1..], b, i - 1);
    }
  }

  /** Every pair comes from a day of `a` that `b` also holds. */
  lemma {:induction false} MatchedSound(a: seq<Obs>, b: seq<Obs>, k: int)
    requires 0 <= k < |Matched(a, b)|
    ensures exists j :: 0 <= j < |a| && a[j].close == Matched(a, b)[k].0 && Find(b, a[j].day) == Some(Matched(a, b)[k].1)
  {
    var f := Find(b, a[0].day);
    if f.Some? && k == 0 {
      assert a[0].close == Matched(a, b)[0].0;
    } else {
      var k' := if f.Some? then k - 1 else k;
      MatchedSound(a[1..], b, k');
      var j :| 0 <= j < |a[1..]| && a[1..][j].close == Matched(a[1..], b)[k'].0 && Find(b, a[1..][j].day) == Some(Matched(a[1..], b)[k'].1);
      assert a[j + 1] == a[1..][j];
    }
  }

  /**
   * The positions of `a` from `i` on whose day `b` also holds, in increasing
   * order: each listed position has a match and no position is listed twice
   * (`HitsFromComplete`: every matching position is listed).
   */
  function HitsFrom(a: seq<Obs>, b: seq<Obs>, i: nat): (hits: seq<int>)
    requires i <= |a|
    decreases |a| - i
    ensures forall k :: 0 <= k < |hits| ==> i <= hits[k] < |a| && Find(b, a[hits[k]].day).Some?
    ensures forall k, l :: 0 <= k < l < |hits| ==> hits[k] < hits[l]
  {
    if i == |a| then []
    else
      var rest := HitsFrom(a, b, i + 1);
      if Find(b, a[i].day).Some? then [i] + rest else rest
  }

  /** Every position of `a` from `i` on whose day `b` also holds is listed by `HitsFrom`. */
  lemma {:induction false} HitsFromComplete(a: seq<Obs>, b: seq<Obs>, i: nat, j: int)
    requires i <= j < |a| && Find(b, a[j].day).Some?
    decreases |a| - i
    ensures j in HitsFrom(a, b, i)
  {
    if j > i {
      HitsFromComplete(a, b, i + 1, j);
    }
  }

  /**
   * Pair `k` of `Matched(a[i..], b)` is built from the `k`-th matching
   * position of `a` from `i` on: so each common day contributes exactly one
   * pair, in `a`'s order.
   */
  lemma {:induction false} MatchedAt(a: seq<Obs>, b: seq<Obs>, i: nat)
    requires i <= |a|
    decreases |a| - i
    ensures |Matched(a[i..], b)| == |HitsFrom(a, b, i)|
    ensures forall k :: 0 <= k < |Matched(a[i..], b)| ==>
              Matched(a[i..], b)[k] == (a[HitsFrom(a, b, i)[k]].close, Find(b, a[HitsFrom(a, b, i)[k]].day).value)
  {
    if i < |a| {
      MatchedAt(a, b, i + 1);
      assert a[i..][1..] == a[i + 1..];
      assert a[i..][0] == a[i];
      var f := Find(b, a[i].day);
      if f.Some? {
        assert Matched(a[i..], b) == [(a[i].close, f.value)] + Matched(a[i + 1..], b);
        assert HitsFrom(a, b, i) == [i] + HitsFrom(a, b, i + 1);
      } else {
        assert Matched(a[i..], b) == Matched(a[i + 1..], b);
        assert HitsFrom(a, b, i) == HitsFrom(a, b, i + 1);
      }
    }
  }

  /** Every close of the series lies strictly above zero. */
  ghost predicate Positive(s: seq<Obs>) {
    forall i :: 0 <= i < |s| ==> s[i].close > 0.0
  }

  /** No pair has a zero second component, so every quotient by it is defined. */
  predicate NonzeroDivisors(m: seq<(real, real)>) {
    forall i :: 0 <= i < |m| ==> m[i].1 != 0.0
  }

  /** `a['Close'] / b['Close']` restricted to the dates both series hold. */
  function Ratios(m: seq<(real, real)>): (r: seq<real>)
    requires NonzeroDivisors(m)
    ensures |r| == |m|
  {
    seq(|m|, i requires 0 <= i < |m| && NonzeroDivisors(m) => m[i].0 / m[i].1)
  }

  /** `a['Close'] / (1 / b['Close'])` restricted to the dates both series hold. */
  function ReciprocalRatios(m: seq<(real, real)>): (r: seq<real>)
    requires NonzeroDivisors(m)
    ensures |r| == |m|
  {
    seq(|m|, i requires 0 <= i < |m| && NonzeroDivisors(m) => m[i].0 / (1.0 / m[i].1))
  }

  /** The products of the two closes of each pair. */
  function Products(m: seq<(real, real)>): (r: seq<real>)
    ensures |r| == |m|
  {
    seq(|m|, i requires 0 <= i < |m| => m[i].0 * m[i].1)
  }

  /** Dividing by a reciprocal rate is multiplying by the rate itself. */
  lemma ReciprocalRatiosAreProducts(m: seq<(real, real)>)
    requires NonzeroDivisors(m)
    ensures ReciprocalRatios(m) == Products(m)
  {
    forall i | 0 <= i < |m| ensures ReciprocalRatios(m)[i] == Products(m)[i] {
      var x, y := m[i].0, m[i].1;
      assert (1.0 / y) * y == 1.0;
      assert (x / (1.0 / y)) * (1.0 / y) == x;
    }
  }

  /** Products of positive pairs are positive. */
  lemma ProductsPositive(m: seq<(real, real)>)
    requires forall i :: 0 <= i < |m| ==> m[i].0 > 0.0 && m[i].1 > 0.0
    ensures forall i :: 0 <= i < |m| ==> Products(m)[i] > 0.0
  {
    forall i | 0 <= i < |m| ensures Products(m)[i] > 0.0 {
      var x, y := m[i].0, m[i].1;
      assert x * y > 0.0;
    }
  }

  /** Pairs matched from two positive series hold positive closes on both sides. */
  lemma {:induction false} MatchedPositive(a: seq<Obs>, b: seq<Obs>)
    requires Positive(a) && Positive(b)
    ensures forall i :: 0 <= i < |Matched(a, b)| ==> Matched(a, b)[i].0 > 0.0 && Matched(a, b)[i].1 > 0.0
  {
    if |a| > 0 {
      MatchedPositive(a[1..], b);
      var f := Find(b, a[0].day);
      if f.Some? {
        var k :| 0 <= k < |b| && b[k] == Obs(a[0].day, f.value);
      }
    }
  }

  /** Quotients of positive pairs are defined and positive. */
  lemma RatiosPositive(m: seq<(real, real)>)
    requires forall i :: 0 <= i < |m| ==> m[i].0 > 0.0 && m[i].1 > 0.0
    ensures NonzeroDivisors(m)
    ensures forall i :: 0 <= i < |m| ==> Ratios(m)[i] > 0.0
  {
  }
}
