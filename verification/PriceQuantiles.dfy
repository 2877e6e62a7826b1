// Which numbers the quantiles and the baseline are: exact values at the places of the sorted
// prices, the straight line between them, and the bounds of the reference prices.

module PriceQuantiles {
  import opened PriceBaseline

  /** A quantile whose position falls on a place is the price there. */
  lemma QuantileAtPlace(s: seq<real>, q: real, k: nat)
    requires |s| > 1 && k < |s| && 0.0 <= q <= 1.0 && (|s| - 1) as real * q == k as real
    ensures Quantile(s, q) == s[k]
  {
    assert Position(|s|, q) == k as real;
  }

  /** Between two neighbouring places a quantile lies on the straight line between their
      prices: weight v of the way from the lower to the upper one. */
  lemma QuantileBetweenPlaces(s: seq<real>, q: real, k: nat, v: real)
    requires |s| > 1 && k + 1 < |s| && 0.0 <= q <= 1.0 && 0.0 < v < 1.0
    requires (|s| - 1) as real * q == k as real + v
    ensures Quantile(s, q) == (1.0 - v) * s[k] + v * s[k + 1]
  {
    var p := k as real + v;
    assert Position(|s|, q) == p;
    SameCell(s, p, k);
    assert p.Floor == k;
    BlendIsMean(s[k], s[k + 1], v);
  }

  lemma BlendIsMean(a: real, b: real, v: real)
    ensures Blend(a, b, v) == (1.0 - v) * a + v * b
  {
    assert (b - a) * v == v * b - v * a;
  }

  /** The quantiles 0 and 1 and all beyond are the lowest and the highest price. */
  lemma QuantileAtEnds(s: seq<real>, q: real)
    requires s != []
    ensures q <= 0.0 ==> Quantile(s, q) == s[0]
    ensures q >= 1.0 ==> Quantile(s, q) == s[|s| - 1]
  {
    if |s| > 1 {
      assert q <= 0.0 ==> Position(|s|, q) == 0.0;
      assert q >= 1.0 ==> Position(|s|, q) == (|s| - 1) as real;
    }
  }

  /** The median is the middle price, or the mean of the two middle ones. */
  lemma MedianIsTheMiddle(s: seq<real>)
    requires s != []
    ensures |s| % 2 == 1 ==> Quantile(s, 0.5) == s[|s| / 2]
    ensures |s| % 2 == 0 ==> Quantile(s, 0.5) == (s[|s| / 2 - 1] + s[|s| / 2]) / 2.0
  {
    var k := |s| / 2;
    if |s| % 2 == 1 && |s| > 1 {
      assert (|s| - 1) as real * 0.5 == k as real;
      QuantileAtPlace(s, 0.5, k);
    } else if |s| % 2 == 0 {
      assert (|s| - 1) as real * 0.5 == (k - 1) as real + 0.5;
      QuantileBetweenPlaces(s, 0.5, k - 1, 0.5);
    }
  }

  /** The price lies at most one and a half times the distance of the quartiles outside them. */
  predicate NearQuartiles(x: real, s: seq<real>) {
    var spread := Quantile(s, 0.75) - Quantile(s, 0.25);
    Quantile(s, 0.25) - 1.5 * spread <= x <= Quantile(s, 0.75) + 1.5 * spread
  }

  /** The reference prices are, of five or more prices with different quartiles, those near the
      quartiles, and otherwise all. */
  lemma ReferencePricesAre(s: seq<real>, x: real)
    requires Sorted(s) && s != []
    ensures x in Reference(s) <==>
            x in s && (|s| >= 5 && Quantile(s, 0.25) < Quantile(s, 0.75) ==> NearQuartiles(x, s))
  {
    ReferenceIsFiltered(s);
    FencesAreNear(s);
  }

  /** The quantiles of a baseline are those of all positive prices, sorted. */
  lemma BaselineQuantiles(values: seq<real>)
    requires Positive(values) != []
    ensures var b, s := CreateBaseline(values), SortedPrices(values);
            && Sorted(s) && multiset(s) == multiset(Positive(values))
            && b.medianPrice == Quantile(s, 0.5)
            && b.firstQuartilePrice == Quantile(s, 0.25) && b.thirdQuartilePrice == Quantile(s, 0.75)
            && b.comparablePriceCount == |Positive(values)|
  {
    SortedPricesAreSorted(values);
    CountsMatch(values);
  }

  lemma SortedExtremes(r: seq<real>)
    requires Sorted(r) && r != []
    ensures r[0] in r && r[|r| - 1] in r && forall x <- r :: r[0] <= x <= r[|r| - 1]
  {
  }

  lemma BaselineOfSorted(values: seq<real>)
    requires SortedPrices(values) != []
    ensures var b, r := CreateBaseline(values), Reference(SortedPrices(values));
            && |r| > 0 && b.minPrice == r[0] && b.maxPrice == r[|r| - 1]
            && b.referencePriceCount == |r| && b.averagePrice == Average(r)
  {
    ReferenceIsNotEmpty(SortedPrices(values));
  }

  lemma SortedIsNotEmpty(values: seq<real>)
    requires Positive(values) != []
    ensures SortedPrices(values) != [] && Sorted(SortedPrices(values))
  {
    SortedPricesAreSorted(values);
    CountsMatch(values);
  }

  /** The extremes, the average and the count of a baseline are those of its reference prices. */
  lemma BaselineExtremes(values: seq<real>)
    requires Positive(values) != []
    ensures var b, r := CreateBaseline(values), Reference(SortedPrices(values));
            && b.minPrice in r && b.maxPrice in r && (forall x <- r :: b.minPrice <= x <= b.maxPrice)
            && b.referencePriceCount == |r| && |r| > 0 && b.averagePrice == Average(r)
  {
    SortedIsNotEmpty(values);
    ReferenceIsFiltered(SortedPrices(values));
    BaselineOfSorted(values);
    SortedExtremes(Reference(SortedPrices(values)));
  }

  /** An average times the number of its prices is their sum. */
  lemma AverageIsTheMean(r: seq<real>)
    requires r != []
    ensures Average(r) * (|r| as real) == Sum(r)
  {
  }

  lemma FencesAreNear(s: seq<real>)
    ensures var spread := Quantile(s, 0.75) - Quantile(s, 0.25);
            && LowerFence(s) == Quantile(s, 0.25) - 1.5 * spread
            && UpperFence(s) == Quantile(s, 0.75) + 1.5 * spread
  {
  }
}
