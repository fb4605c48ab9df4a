/** The linear-interpolation percentile behind the duration metrics, over the reals. */
module Percentile {
  import opened Common
  import opened Sorting

  predicate AtMost(x: real, y: real) { x <= y }

  function Sorted(values: seq<real>): seq<real> {
    Sort(values, AtMost)
  }

  /** math.ceil */
  function Ceil(x: real): int {
    if x == x.Floor as real then x.Floor else x.Floor + 1
  }

  /** The value at a fractional position of an ordered list. */
  function At(ordered: seq<real>, rank: real): real
    requires ordered != [] && 0.0 <= rank <= (|ordered| - 1) as real
  {
    var low, high := rank.Floor, Ceil(rank);
    if low == high then ordered[low]
    else
      var frac := rank - low as real;
      ordered[low] * (1.0 - frac) + ordered[high] * frac
  }

  function Rank(n: nat, p: real): real
    requires n > 0
  {
    (p / 100.0) * (n - 1) as real
  }

  lemma TimesIsMonotone(x: real, y: real, k: real)
    requires x <= y && k >= 0.0
    ensures x * k <= y * k
  {
  }

  lemma RankInRange(n: nat, p: real)
    requires n > 0 && 0.0 <= p <= 100.0
    ensures 0.0 <= Rank(n, p) <= (n - 1) as real
  {
    TimesIsMonotone(p / 100.0, 1.0, (n - 1) as real);
    TimesIsMonotone(0.0, p / 100.0, (n - 1) as real);
  }

  /** None for no values; an error for p outside [0, 100]. */
  function Percentile(values: seq<real>, p: real): Result<Option<real>> {
    if values == [] then Ok(None)
    else if !(0.0 <= p <= 100.0) then Raised
    else
      RankInRange(|values|, p);
      var ordered := Sorted(values);
      if |ordered| == 1 then Ok(Some(ordered[0])) else Ok(Some(At(ordered, Rank(|ordered|, p))))
  }

  // ---------------------------------------------------------------------------------------
  // Interpolation
  // ---------------------------------------------------------------------------------------

  ghost predicate Ascending(s: seq<real>) {
    Ordered(s, AtMost)
  }

  /** Interpolation is the lower value plus a share of the difference. */
  lemma MeanAsShare(x: real, y: real, frac: real)
    ensures x * (1.0 - frac) + y * frac == x + frac * (y - x)
  {
  }

  /** A weighted mean of two values lies between them. */
  lemma MeanIsBetween(x: real, y: real, frac: real)
    requires x <= y && 0.0 <= frac <= 1.0
    ensures x <= x * (1.0 - frac) + y * frac <= y
  {
  }

  /** A share of an amount is between nothing and all of it. */
  lemma ShareIsBounded(frac: real, k: real)
    requires 0.0 <= frac <= 1.0 && k >= 0.0
    ensures 0.0 <= frac * k <= k
  {
  }

  lemma MeanIsMonotone(x: real, y: real, x': real, y': real, frac: real)
    requires x <= x' && y <= y' && 0.0 <= frac <= 1.0
    ensures x * (1.0 - frac) + y * frac <= x' * (1.0 - frac) + y' * frac
  {
    var left, right := x' - x, y' - y;
    ShareIsBounded(frac, left);
    ShareIsBounded(frac, right);
    MeanAsShare(x, y, frac);
    MeanAsShare(x', y', frac);
    var before, after := frac * (y - x), frac * (y' - x');
    assert after == before + frac * right - frac * left;
    assert x + before <= x' + after;
  }

  lemma MeanGrowsWithWeight(x: real, y: real, f: real, g: real)
    requires x <= y && f <= g
    ensures x * (1.0 - f) + y * f <= x * (1.0 - g) + y * g
  {
  }

  lemma AtIsBetween(s: seq<real>, rank: real)
    requires s != [] && Ascending(s) && 0.0 <= rank <= (|s| - 1) as real
    ensures s[rank.Floor] <= At(s, rank) <= s[Ceil(rank)]
  {
    if rank.Floor != Ceil(rank) {
      assert AtMost(s[rank.Floor], s[Ceil(rank)]);
      MeanIsBetween(s[rank.Floor], s[Ceil(rank)], rank - rank.Floor as real);
    }
  }

  lemma AscendingAt(s: seq<real>, i: nat, j: nat)
    requires Ascending(s) && i <= j < |s|
    ensures s[i] <= s[j]
  {
  }

  /** Within a segment and across segments, a later position never has a smaller value. */
  lemma AtGrowsWithRank(s: seq<real>, r: real, q: real)
    requires s != [] && Ascending(s) && 0.0 <= r <= q <= (|s| - 1) as real
    ensures At(s, r) <= At(s, q)
  {
    AtIsBetween(s, r);
    AtIsBetween(s, q);
    if Ceil(r) <= q.Floor {
      AscendingAt(s, Ceil(r), q.Floor);
    } else {
      assert r.Floor == q.Floor && Ceil(r) == r.Floor + 1;
      if q.Floor != Ceil(q) {
        AscendingAt(s, q.Floor, Ceil(q));
        MeanGrowsWithWeight(s[q.Floor], s[Ceil(q)], r - r.Floor as real, q - q.Floor as real);
      }
    }
  }

  ghost predicate Pointwise(s: seq<real>, t: seq<real>) {
    |s| == |t| && forall i :: 0 <= i < |s| ==> s[i] <= t[i]
  }

  lemma AtGrowsWithData(s: seq<real>, t: seq<real>, rank: real)
    requires s != [] && Pointwise(s, t) && 0.0 <= rank <= (|s| - 1) as real
    ensures At(s, rank) <= At(t, rank)
  {
    if rank.Floor != Ceil(rank) {
      MeanIsMonotone(s[rank.Floor], s[Ceil(rank)], t[rank.Floor], t[Ceil(rank)], rank - rank.Floor as real);
    }
  }

  // ---------------------------------------------------------------------------------------
  // Order statistics
  // ---------------------------------------------------------------------------------------

  lemma AtMostIsOrder()
    ensures TotalPreorder(AtMost) && Antisymmetric(AtMost)
  {
  }

  lemma SortedAscends(values: seq<real>)
    ensures Ascending(Sorted(values))
  {
    AtMostIsOrder();
    SortOrdered(values, AtMost);
  }

  lemma InsertHead(s: seq<real>)
    requires s != [] && Ascending(s)
    ensures Insert(s[0], s[1..], AtMost) == s && Ascending(s[1..])
  {
  }

  lemma {:induction false} InsertIsMonotone(x: real, s: seq<real>, y: real, t: seq<real>)
    requires x <= y && Ascending(s) && Ascending(t) && Pointwise(s, t)
    ensures Pointwise(Insert(x, s, AtMost), Insert(y, t, AtMost))
    decreases |s|
  {
    if s != [] {
      InsertHead(s);
      InsertHead(t);
      // what is inserted one place further on, in each list
      var x' := if x <= s[0] then s[0] else x;
      var y' := if y <= t[0] then t[0] else y;
      InsertIsMonotone(x', s[1..], y', t[1..]);
      assert Insert(x, s, AtMost)[1..] == Insert(x', s[1..], AtMost);
      assert Insert(y, t, AtMost)[1..] == Insert(y', t[1..], AtMost);
      PointwiseTail(Insert(x, s, AtMost), Insert(y, t, AtMost));
    }
  }

  lemma PointwiseTail(s: seq<real>, t: seq<real>)
    requires s != [] && t != [] && s[0] <= t[0] && Pointwise(s[1..], t[1..])
    ensures Pointwise(s, t)
  {
  }

  /** Raising data points raises every order statistic. */
  lemma {:induction false} SortedIsMonotone(u: seq<real>, v: seq<real>)
    requires Pointwise(u, v)
    ensures Pointwise(Sorted(u), Sorted(v))
  {
    if u != [] {
      SortedIsMonotone(u[1..], v[1..]);
      SortedAscends(u[1..]);
      SortedAscends(v[1..]);
      InsertIsMonotone(u[0], Sorted(u[1..]), v[0], Sorted(v[1..]));
    }
  }

  // ---------------------------------------------------------------------------------------
  // The percentile
  // ---------------------------------------------------------------------------------------

  /** When there is a percentile: for p in range there is one exactly if there are values. */
  lemma PercentileExists(values: seq<real>, p: real)
    ensures Percentile(values, p) == Ok(None) <==> values == []
    ensures Percentile(values, p).Raised? <==> values != [] && !(0.0 <= p <= 100.0)
  {
  }

  ghost predicate Bounds(lo: real, values: seq<real>, hi: real) {
    forall v :: v in values ==> lo <= v <= hi
  }

  /** The percentile lies between any bounds of the data, so between its minimum and its maximum. */
  lemma PercentileIsBetween(values: seq<real>, p: real, lo: real, hi: real)
    requires values != [] && 0.0 <= p <= 100.0 && Bounds(lo, values, hi)
    ensures lo <= Percentile(values, p).value.value <= hi
  {
    var s := Sorted(values);
    SortedAscends(values);
    SortKeeps(values, AtMost);
    SameMembers(s, values);
    RankInRange(|s|, p);
    if |s| == 1 {
      assert s[0] in values;
    } else {
      var rank := Rank(|s|, p);
      AtIsBetween(s, rank);
      assert s[rank.Floor] in values && s[Ceil(rank)] in values;
    }
  }

  /** The order of the data does not matter. */
  lemma PercentileForgetsOrder(u: seq<real>, v: seq<real>, p: real)
    requires multiset(u) == multiset(v)
    ensures Percentile(u, p) == Percentile(v, p)
  {
    AtMostIsOrder();
    SortForgetsOrder(u, v, AtMost);
    assert |u| == |multiset(u)| == |multiset(v)| == |v|;
  }

  /** A product that stays below its value at the bound has a factor below the bound. */
  lemma FactorIsBounded(p: real, bound: real, k: real)
    requires k > 0.0 && 0.0 <= p * k <= bound * k
    ensures 0.0 <= p <= bound
  {
  }

  lemma AtInterpolates(s: seq<real>, k: nat, f: real)
    requires k + 1 < |s| && 0.0 <= f <= 1.0
    ensures At(s, k as real + f) == s[k] + f * (s[k + 1] - s[k])
  {
    MeanAsShare(s[k], s[k + 1], f);
    assert (k as real + f).Floor == if f < 1.0 then k else k + 1;
  }

  lemma RankFromShare(n: nat, p: real, rank: real)
    requires n > 1 && 0.0 <= rank <= (n - 1) as real && p * (n - 1) as real == 100.0 * rank
    ensures 0.0 <= p <= 100.0 && Rank(n, p) == rank
  {
    FactorIsBounded(p, 100.0, (n - 1) as real);
    assert Rank(n, p) * 100.0 == p * (n - 1) as real;
  }

  /**
   Exactly the piecewise linear function through the order statistics: k + f steps up the
   ordered data, it stands a share f of the way from one value to the next.
   */
  lemma PercentileInterpolates(values: seq<real>, p: real, k: nat, f: real)
    requires k + 1 < |values| && 0.0 <= f <= 1.0
    requires p * (|values| - 1) as real == 100.0 * (k as real + f)
    ensures 0.0 <= p <= 100.0
    ensures Percentile(values, p).value.value == Sorted(values)[k] + f * (Sorted(values)[k + 1] - Sorted(values)[k])
  {
    hide At, Rank, Sort;
    RankFromShare(|values|, p, k as real + f);
    AtInterpolates(Sorted(values), k, f);
  }

  /** A higher percentile of the same data is never lower. */
  lemma PercentileGrowsWithP(values: seq<real>, p: real, q: real)
    requires values != [] && 0.0 <= p <= q <= 100.0
    ensures Percentile(values, p).value.value <= Percentile(values, q).value.value
  {
    var s := Sorted(values);
    SortedAscends(values);
    RankInRange(|s|, p);
    RankInRange(|s|, q);
    TimesIsMonotone(p / 100.0, q / 100.0, (|s| - 1) as real);
    AtGrowsWithRank(s, Rank(|s|, p), Rank(|s|, q));
  }

  /** Raising data points never lowers a percentile. */
  lemma PercentileGrowsWithData(u: seq<real>, v: seq<real>, p: real)
    requires u != [] && Pointwise(u, v) && 0.0 <= p <= 100.0
    ensures Percentile(u, p).value.value <= Percentile(v, p).value.value
  {
    var s, t := Sorted(u), Sorted(v);
    SortedIsMonotone(u, v);
    RankInRange(|s|, p);
    AtGrowsWithData(s, t, Rank(|s|, p));
  }
}
