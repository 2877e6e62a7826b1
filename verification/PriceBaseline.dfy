// The price baseline of a search: quantiles by linear interpolation, outlier fences and
// the reference prices within them. Prices are reals.

module PriceBaseline {
  import opened Sorting

  predicate AtMost(a: real, b: real) { a <= b }

  ghost predicate Sorted(s: seq<real>) {
    forall i, j :: 0 <= i <= j < |s| ==> s[i] <= s[j]
  }

  function Clamp(v: real, lo: real, hi: real): real {
    var raised := if v < lo then lo else v;
    if raised > hi then hi else raised
  }

  function Ceil(p: real): int { -((-p).Floor) }

  function Sum(s: seq<real>): real {
    if s == [] then 0.0 else Sum(s[..|s| - 1]) + s[|s| - 1]
  }

  function Average(s: seq<real>): real {
    if s == [] then 0.0 else Sum(s) / (|s| as real)
  }

  function Blend(a: real, b: real, weight: real): real {
    a + (b - a) * weight
  }

  /** The interpolated value at a position between two indices. */
  function At(s: seq<real>, p: real): real
    requires 0.0 <= p <= (|s| - 1) as real
  {
    var lower := p.Floor;
    var upper := Ceil(p);
    if lower == upper then s[lower]
    else Blend(s[lower], s[upper], p - lower as real)
  }

  function Position(n: nat, q: real): (p: real)
    requires n > 0
    ensures 0.0 <= p <= (n - 1) as real
  {
    PositionInRange((n - 1) as real, Clamp(q, 0.0, 1.0));
    (n - 1) as real * Clamp(q, 0.0, 1.0)
  }

  lemma PositionInRange(m: real, c: real)
    requires m >= 0.0 && 0.0 <= c <= 1.0
    ensures 0.0 <= m * c <= m
  {
  }

  function Quantile(s: seq<real>, q: real): real {
    if |s| == 0 then 0.0
    else if |s| == 1 then s[0]
    else At(s, Position(|s|, q))
  }

  // ---------------------------------------------------------------------------------
  // Quantiles
  // ---------------------------------------------------------------------------------

  lemma ProductMono(d: real, w: real, v: real)
    requires d >= 0.0 && w <= v
    ensures d * w <= d * v
  {
  }

  lemma BlendMono(a: real, b: real, w: real, v: real)
    requires a <= b && w <= v
    ensures Blend(a, b, w) <= Blend(a, b, v)
  {
    ProductMono(b - a, w, v);
  }

  lemma AtIsBetween(s: seq<real>, p: real)
    requires Sorted(s) && 0.0 <= p <= (|s| - 1) as real
    ensures 0 <= p.Floor <= Ceil(p) < |s|
    ensures s[p.Floor] <= At(s, p) <= s[Ceil(p)]
  {
    var lower, upper := p.Floor, Ceil(p);
    if lower != upper {
      BlendMono(s[lower], s[upper], 0.0, p - lower as real);
      BlendMono(s[lower], s[upper], p - lower as real, 1.0);
    }
  }

  /** Over a sorted list the interpolated value never falls as the position grows. */
  lemma AtIsMonotone(s: seq<real>, p: real, q: real)
    requires Sorted(s) && 0.0 <= p <= q <= (|s| - 1) as real
    ensures At(s, p) <= At(s, q)
  {
    AtIsBetween(s, p);
    AtIsBetween(s, q);
    var lower := p.Floor;
    if lower != q.Floor {
      assert Ceil(p) <= q.Floor;
    } else if p == lower as real {
      assert Ceil(p) == lower;
    } else {
      SameCell(s, p, lower);
      SameCell(s, q, lower);
      BlendMono(s[lower], s[lower + 1], p - lower as real, q - lower as real);
    }
  }

  lemma SameCell(s: seq<real>, p: real, lower: nat)
    requires lower as real < p < (lower + 1) as real && p <= (|s| - 1) as real
    ensures lower + 1 < |s|
    ensures At(s, p) == Blend(s[lower], s[lower + 1], p - lower as real)
  {
    assert p.Floor == lower && Ceil(p) == lower + 1;
  }

  lemma PositionIsMonotone(n: nat, q: real, r: real)
    requires n > 0 && q <= r
    ensures Position(n, q) <= Position(n, r)
  {
    ClampIsMonotone(q, r);
    PositionIs(n, q);
    PositionIs(n, r);
    ProductMono((n - 1) as real, Clamp(q, 0.0, 1.0), Clamp(r, 0.0, 1.0));
  }

  lemma ClampIsMonotone(q: real, r: real)
    requires q <= r
    ensures 0.0 <= Clamp(q, 0.0, 1.0) <= Clamp(r, 0.0, 1.0) <= 1.0
  {
  }

  lemma PositionIs(n: nat, q: real)
    requires n > 0
    ensures Position(n, q) == (n - 1) as real * Clamp(q, 0.0, 1.0)
  {
  }

  lemma QuantileIsMonotone(s: seq<real>, q: real, r: real)
    requires Sorted(s) && q <= r
    ensures Quantile(s, q) <= Quantile(s, r)
  {
    if |s| > 1 {
      PositionIsMonotone(|s|, q, r);
      AtIsMonotone(s, Position(|s|, q), Position(|s|, r));
    }
  }

  lemma QuantileInRange(s: seq<real>, q: real)
    requires Sorted(s) && s != []
    ensures s[0] <= Quantile(s, q) <= s[|s| - 1]
  {
    if |s| > 1 {
      AtIsBetween(s, Position(|s|, q));
    }
  }

  // ---------------------------------------------------------------------------------
  // Filtering
  // ---------------------------------------------------------------------------------

  function Positive(values: seq<real>): (r: seq<real>)
    ensures forall x :: x in r <==> x in values && x > 0.0
  {
    if values == [] then []
    else (if values[0] > 0.0 then [values[0]] else []) + Positive(values[1..])
  }

  function Within(s: seq<real>, lo: real, hi: real): (r: seq<real>)
    ensures forall x :: x in r <==> x in s && lo <= x <= hi
    ensures |r| <= |s|
  {
    if s == [] then []
    else (if lo <= s[0] <= hi then [s[0]] else []) + Within(s[1..], lo, hi)
  }

  lemma {:induction false} WithinSplit(a: seq<real>, b: seq<real>, lo: real, hi: real)
    ensures Within(a + b, lo, hi) == Within(a, lo, hi) + Within(b, lo, hi)
    decreases |a|
  {
    if a == [] {
      assert a + b == b;
    } else {
      WithinSplit(a[1..], b, lo, hi);
      assert (a + b)[0] == a[0] && (a + b)[1..] == a[1..] + b;
      var first := if lo <= a[0] <= hi then [a[0]] else [];
      assert Within(a, lo, hi) == first + Within(a[1..], lo, hi);
      assert Within(a + b, lo, hi) == first + Within(a[1..] + b, lo, hi);
    }
  }

  lemma {:induction false} WithinSorted(s: seq<real>, lo: real, hi: real)
    requires Sorted(s)
    ensures Sorted(Within(s, lo, hi))
    decreases |s|
  {
    if s != [] {
      WithinSorted(s[1..], lo, hi);
      var rest := Within(s[1..], lo, hi);
      forall i | 0 <= i < |rest| ensures s[0] <= rest[i] {
        assert rest[i] in s[1..];
      }
    }
  }

  lemma ThreeWithin(s: seq<real>, c: nat, lo: real, hi: real)
    requires c + 2 < |s| && lo <= s[c] <= hi && lo <= s[c + 1] <= hi && lo <= s[c + 2] <= hi
    ensures |Within(s, lo, hi)| >= 3
  {
    var mid := [s[c], s[c + 1], s[c + 2]];
    assert s == s[..c] + (mid + s[c + 3..]);
    WithinSplit(s[..c], mid + s[c + 3..], lo, hi);
    WithinSplit(mid, s[c + 3..], lo, hi);
    assert mid[1..] == [s[c + 1], s[c + 2]] && mid[2..] == [s[c + 2]];
    assert Within([s[c + 2]], lo, hi) == [s[c + 2]];
    assert Within([s[c + 1], s[c + 2]], lo, hi) == [s[c + 1], s[c + 2]];
    assert Within(mid, lo, hi) == mid;
  }

  // ---------------------------------------------------------------------------------
  // The baseline
  // ---------------------------------------------------------------------------------

  datatype Baseline = Baseline(
    averagePrice: real,
    medianPrice: real,
    firstQuartilePrice: real,
    thirdQuartilePrice: real,
    minPrice: real,
    maxPrice: real,
    comparablePriceCount: nat,
    referencePriceCount: nat,
    excludedOutlierCount: int)

  function LowerFence(s: seq<real>): real {
    Quantile(s, 0.25) - (Quantile(s, 0.75) - Quantile(s, 0.25)) * 1.5
  }

  function UpperFence(s: seq<real>): real {
    Quantile(s, 0.75) + (Quantile(s, 0.75) - Quantile(s, 0.25)) * 1.5
  }

  function Reference(s: seq<real>): seq<real> {
    if |s| >= 5 && Quantile(s, 0.75) - Quantile(s, 0.25) > 0.0 then
      var within := Within(s, LowerFence(s), UpperFence(s));
      if |within| >= 3 then within else s
    else s
  }

  function SortedPrices(values: seq<real>): seq<real> {
    SortBy(AtMost, Positive(values))
  }

  function CreateBaseline(values: seq<real>): Baseline {
    var s := SortedPrices(values);
    if s == [] then Baseline(0.0, 0.0, 0.0, 0.0, 0.0, 0.0, 0, 0, 0)
    else
      var r := Reference(s);
      ReferenceIsNotEmpty(s);
      Baseline(Average(r), Quantile(s, 0.5), Quantile(s, 0.25), Quantile(s, 0.75), r[0], r[|r| - 1],
               |s|, |r|, |s| - |r|)
  }

  lemma ReferenceIsNotEmpty(s: seq<real>)
    requires s != []
    ensures Reference(s) != []
  {
  }

  lemma SortedPricesAreSorted(values: seq<real>)
    ensures Sorted(SortedPrices(values))
    ensures multiset(SortedPrices(values)) == multiset(Positive(values))
  {
    SortSorts(AtMost, Positive(values));
    assert SortedBy(AtMost, SortedPrices(values));
    var s := SortedPrices(values);
    forall i, j | 0 <= i <= j < |s| ensures s[i] <= s[j] {
      if i < j {
        assert AtMost(s[i], s[j]);
      }
    }
  }

  lemma QuartilePositions(n: nat)
    requires n > 1
    ensures Position(n, 0.25) == (n - 1) as real * 0.25
    ensures Position(n, 0.5) == (n - 1) as real * 0.5
    ensures Position(n, 0.75) == (n - 1) as real * 0.75
  {
  }

  /** Every index between the outer quartile positions holds a price between the quartiles. */
  lemma BetweenQuartiles(s: seq<real>, k: nat)
    requires Sorted(s) && |s| > 1
    requires (|s| - 1) as real * 0.25 <= k as real <= (|s| - 1) as real * 0.75
    ensures k < |s| && Quantile(s, 0.25) <= s[k] <= Quantile(s, 0.75)
  {
    QuartilePositions(|s|);
    AtIsMonotone(s, Position(|s|, 0.25), k as real);
    AtIsMonotone(s, k as real, Position(|s|, 0.75));
    assert At(s, k as real) == s[k];
  }

  lemma WithinFences(s: seq<real>, k: nat)
    requires Sorted(s) && |s| > 1
    requires (|s| - 1) as real * 0.25 <= k as real <= (|s| - 1) as real * 0.75
    ensures k < |s| && LowerFence(s) <= s[k] <= UpperFence(s)
  {
    BetweenQuartiles(s, k);
    QuantileIsMonotone(s, 0.25, 0.75);
  }

  /** With six prices only two lie between the quartile positions; the one below is kept by
      the width of the fence. */
  lemma SixPrices(s: seq<real>)
    requires Sorted(s) && |s| == 6
    ensures LowerFence(s) <= s[1] <= UpperFence(s)
  {
    QuartilePositions(6);
    assert Position(6, 0.25) == 1.25 && Position(6, 0.75) == 3.75;
    assert (1.25).Floor == 1 && Ceil(1.25) == 2;
    assert Quantile(s, 0.25) == s[1] + (s[2] - s[1]) * 0.25;
    BetweenQuartiles(s, 2);
  }

  /** The guard that keeps at least three reference prices is always met: with five prices
      or more, three lie within the fences. */
  lemma ThreePricesWithinFences(s: seq<real>)
    requires Sorted(s) && |s| >= 5
    ensures |Within(s, LowerFence(s), UpperFence(s))| >= 3
  {
    if |s| == 6 {
      SixPrices(s);
      WithinFences(s, 2);
      WithinFences(s, 3);
      ThreeWithin(s, 1, LowerFence(s), UpperFence(s));
    } else {
      var c := (|s| + 2) / 4;
      WithinFences(s, c);
      WithinFences(s, c + 1);
      WithinFences(s, c + 2);
      ThreeWithin(s, c, LowerFence(s), UpperFence(s));
    }
  }

  lemma ReferenceIsFiltered(s: seq<real>)
    requires Sorted(s) && s != []
    ensures Sorted(Reference(s)) && Reference(s) != [] && |Reference(s)| <= |s|
    ensures forall x <- Reference(s) :: x in s
    ensures |s| >= 5 && Quantile(s, 0.75) > Quantile(s, 0.25) ==>
              Reference(s) == Within(s, LowerFence(s), UpperFence(s)) && |Reference(s)| >= 3
    ensures |s| < 5 || Quantile(s, 0.75) <= Quantile(s, 0.25) ==> Reference(s) == s
  {
    if |s| >= 5 {
      ThreePricesWithinFences(s);
      WithinSorted(s, LowerFence(s), UpperFence(s));
    }
  }

  lemma {:induction false} AverageInRange(s: seq<real>, lo: real, hi: real)
    requires forall x <- s :: lo <= x <= hi
    ensures (|s| as real) * lo <= Sum(s) <= (|s| as real) * hi
    decreases |s|
  {
    if s != [] {
      var n := |s| - 1;
      assert s[n] in s && forall x <- s[..n] :: x in s;
      AverageInRange(s[..n], lo, hi);
      assert (|s| as real) * lo == (n as real) * lo + lo;
      assert (|s| as real) * hi == (n as real) * hi + hi;
    }
  }

  lemma QuotientInRange(total: real, n: real, lo: real, hi: real)
    requires n > 0.0 && n * lo <= total <= n * hi
    ensures lo <= total / n <= hi
  {
    assert total == (total / n) * n;
  }

  /** The indices on either side of the median. */
  lemma MedianNeighbours(s: seq<real>)
    requires Sorted(s) && |s| >= 2
    ensures var l, u := (|s| - 1) / 2, |s| / 2;
            0 <= l <= u < |s| && s[l] <= Quantile(s, 0.5) <= s[u]
  {
    QuartilePositions(|s|);
    var p := Position(|s|, 0.5);
    AtIsBetween(s, p);
    assert p.Floor == (|s| - 1) / 2;
    assert Ceil(p) == |s| / 2;
  }

  lemma MedianInReference(s: seq<real>)
    requires Sorted(s) && s != []
    ensures Reference(s) != []
    ensures Reference(s)[0] <= Quantile(s, 0.5) <= Reference(s)[|Reference(s)| - 1]
  {
    ReferenceIsFiltered(s);
    var r := Reference(s);
    QuantileInRange(s, 0.5);
    if |s| >= 5 && Quantile(s, 0.75) > Quantile(s, 0.25) {
      var l, u := (|s| - 1) / 2, |s| / 2;
      MedianNeighbours(s);
      WithinFences(s, l);
      WithinFences(s, u);
      assert s[l] in r && s[u] in r;
      FirstIsLeast(r, s[l]);
      FirstIsLeast(r, s[u]);
    }
  }

  lemma FirstIsLeast(r: seq<real>, x: real)
    requires Sorted(r) && x in r
    ensures r[0] <= x <= r[|r| - 1]
  {
  }

  /** The baseline of any list of prices: quartiles in order; median and average within the
      range of the reference prices; counts that add up; and of five or more spread prices
      exactly those outside the fences are left out. */
  lemma BaselineIsSound(values: seq<real>)
    requires Positive(values) != []
    ensures var b, s := CreateBaseline(values), SortedPrices(values);
            && b.firstQuartilePrice <= b.medianPrice <= b.thirdQuartilePrice
            && 0.0 < b.minPrice <= b.medianPrice <= b.maxPrice
            && b.minPrice <= b.averagePrice <= b.maxPrice
            && b.comparablePriceCount == |Positive(values)|
            && b.comparablePriceCount == b.referencePriceCount + b.excludedOutlierCount
            && b.excludedOutlierCount >= 0
            && (b.comparablePriceCount >= 5 ==> b.referencePriceCount >= 3)
            && (b.comparablePriceCount >= 5 && b.firstQuartilePrice < b.thirdQuartilePrice ==>
                  Reference(s) == Within(s, LowerFence(s), UpperFence(s)))
  {
    var s := SortedPrices(values);
    SortedPricesAreSorted(values);
    QuantileIsMonotone(s, 0.25, 0.5);
    QuantileIsMonotone(s, 0.5, 0.75);
    ReferenceIsFiltered(s);
    MedianInReference(s);
    AverageInReference(s);
    PricesArePositive(values, Reference(s)[0]);
    CountsMatch(values);
  }

  lemma CountsMatch(values: seq<real>)
    ensures |SortedPrices(values)| == |Positive(values)|
  {
  }

  lemma AverageInReference(s: seq<real>)
    requires Sorted(s) && s != []
    ensures var r := Reference(s); r != [] && r[0] <= Average(r) <= r[|r| - 1]
  {
    ReferenceIsFiltered(s);
    AverageOfSorted(Reference(s));
  }

  lemma AverageOfSorted(r: seq<real>)
    requires Sorted(r) && r != []
    ensures r[0] <= Average(r) <= r[|r| - 1]
  {
    forall x | x in r ensures r[0] <= x <= r[|r| - 1] {
      FirstIsLeast(r, x);
    }
    AverageInRange(r, r[0], r[|r| - 1]);
    QuotientInRange(Sum(r), |r| as real, r[0], r[|r| - 1]);
  }

  lemma PricesArePositive(values: seq<real>, x: real)
    requires x in SortedPrices(values)
    ensures x > 0.0
  {
    assert x in multiset(SortedPrices(values));
    assert x in multiset(Positive(values));
    assert x in Positive(values);
  }

  /** The order in which hotels are listed does not matter. */
  lemma BaselineIgnoresOrder(values: seq<real>, others: seq<real>)
    requires multiset(Positive(values)) == multiset(Positive(others))
    ensures CreateBaseline(values) == CreateBaseline(others)
  {
    SortSorts(AtMost, Positive(values));
    SortSorts(AtMost, Positive(others));
    SortedIsUnique(AtMost, SortedPrices(values), SortedPrices(others));
  }
}
