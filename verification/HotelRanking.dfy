// The ranking of evaluated hotels: a chain of comparisons ending in the original position.

module HotelRanking {
  import opened Common
  import opened Sorting
  import opened PriceScores

  /** An evaluated hotel as the comparison sees it; `hotel` identifies it. */
  datatype Evaluation = Evaluation(
    hotel: nat,
    smartScore: int,
    highRisk: bool,
    reliability: int,
    dataQuality: int,
    location: int,
    cost: Option<Cost>)

  datatype Ranked = Ranked(evaluation: Evaluation, budgetPriority: int, originalIndex: int)

  predicate Reliable(e: Evaluation, cost: Cost) {
    !e.highRisk && cost.completeness == ReportedComplete
  }

  function BudgetPriority(e: Evaluation, ctx: Context): int {
    if ctx.totalBudget.None? then 0
    else
      var cost := ComparableCost(e.cost, ctx);
      if cost.None? then 4
      else if Reliable(e, cost.value) then
        if cost.value.amount <= ctx.totalBudget.value then 0 else 1
      else if cost.value.amount <= ctx.totalBudget.value then 2 else 3
  }

  /** Ascending prices; a hotel without a price comes last. */
  function ComparePrices(a: Option<Cost>, b: Option<Cost>): int {
    if a.None? && b.None? then 0
    else if a.None? then 1
    else if b.None? then -1
    else if a.value.amount < b.value.amount then -1
    else if a.value.amount > b.value.amount then 1
    else 0
  }

  /** The sign of the comparison passed to the sort. */
  function Compare(savings: bool, a: Ranked, b: Ranked): int {
    var x, y := a.evaluation, b.evaluation;
    if a.budgetPriority != b.budgetPriority then a.budgetPriority - b.budgetPriority
    else if y.smartScore != x.smartScore then y.smartScore - x.smartScore
    else if savings && ComparePrices(x.cost, y.cost) != 0 then ComparePrices(x.cost, y.cost)
    else if y.reliability != x.reliability then y.reliability - x.reliability
    else if y.dataQuality != x.dataQuality then y.dataQuality - x.dataQuality
    else if y.location != x.location then y.location - x.location
    else if ComparePrices(x.cost, y.cost) != 0 then ComparePrices(x.cost, y.cost)
    else a.originalIndex - b.originalIndex
  }

  predicate NotAfter(savings: bool, a: Ranked, b: Ranked) {
    Compare(savings, a, b) <= 0
  }

  function Order(savings: bool): (Ranked, Ranked) -> bool {
    (a, b) => NotAfter(savings, a, b)
  }

  function Decorate(evaluations: seq<Evaluation>, ctx: Context): (r: seq<Ranked>)
    ensures |r| == |evaluations|
    ensures forall i :: 0 <= i < |r| ==> r[i] == Ranked(evaluations[i], BudgetPriority(evaluations[i], ctx), i)
  {
    seq(|evaluations|, i requires 0 <= i < |evaluations| =>
      Ranked(evaluations[i], BudgetPriority(evaluations[i], ctx), i))
  }

  function Strip(items: seq<Ranked>): (r: seq<Evaluation>)
    ensures |r| == |items| && forall i :: 0 <= i < |r| ==> r[i] == items[i].evaluation
  {
    seq(|items|, i requires 0 <= i < |items| => items[i].evaluation)
  }

  function RankedItems(evaluations: seq<Evaluation>, savings: bool, ctx: Context): seq<Ranked> {
    SortBy(Order(savings), Decorate(evaluations, ctx))
  }

  function RankHotels(evaluations: seq<Evaluation>, savings: bool, ctx: Context): seq<Evaluation> {
    Strip(RankedItems(evaluations, savings, ctx))
  }

  // ---------------------------------------------------------------------------------
  // The comparison
  // ---------------------------------------------------------------------------------

  lemma ComparePricesOrders(a: Option<Cost>, b: Option<Cost>, c: Option<Cost>)
    ensures ComparePrices(a, b) == -ComparePrices(b, a)
    ensures ComparePrices(a, b) <= 0 && ComparePrices(b, c) <= 0 ==> ComparePrices(a, c) <= 0
    ensures ComparePrices(a, b) <= 0 && ComparePrices(b, c) <= 0 && ComparePrices(a, c) == 0 ==>
              ComparePrices(a, b) == 0 && ComparePrices(b, c) == 0
  {
  }

  lemma CompareIsAntisymmetric(savings: bool, a: Ranked, b: Ranked)
    ensures Compare(savings, a, b) < 0 <==> Compare(savings, b, a) > 0
    ensures Compare(savings, a, b) == 0 <==> Compare(savings, b, a) == 0
  {
    ComparePricesOrders(a.evaluation.cost, b.evaluation.cost, a.evaluation.cost);
  }

  lemma CompareIsTransitive(savings: bool, a: Ranked, b: Ranked, c: Ranked)
    requires Compare(savings, a, b) <= 0 && Compare(savings, b, c) <= 0
    ensures Compare(savings, a, c) <= 0
  {
    ComparePricesOrders(a.evaluation.cost, b.evaluation.cost, c.evaluation.cost);
  }

  /** Two decorated hotels compare equal only if they stand in the same place. */
  lemma CompareSeparates(savings: bool, a: Ranked, b: Ranked)
    ensures Compare(savings, a, b) == 0 ==> a.originalIndex == b.originalIndex
  {
  }

  /** The comparison is a strict total order on the hotels of one list. */
  lemma ComparisonIsStrictTotalOrder(evaluations: seq<Evaluation>, savings: bool, ctx: Context)
    ensures var items := Decorate(evaluations, ctx);
            && (forall i :: 0 <= i < |items| ==> Compare(savings, items[i], items[i]) == 0)
            && (forall i, j :: 0 <= i < |items| && 0 <= j < |items| && i != j ==>
                  (Compare(savings, items[i], items[j]) < 0) != (Compare(savings, items[j], items[i]) < 0))
            && (forall i, j, k :: 0 <= i < |items| && 0 <= j < |items| && 0 <= k < |items|
                  && Compare(savings, items[i], items[j]) < 0 && Compare(savings, items[j], items[k]) < 0
                  ==> Compare(savings, items[i], items[k]) < 0)
  {
    var items := Decorate(evaluations, ctx);
    forall i, j | 0 <= i < |items| && 0 <= j < |items| && i != j
      ensures (Compare(savings, items[i], items[j]) < 0) != (Compare(savings, items[j], items[i]) < 0)
    {
      CompareIsAntisymmetric(savings, items[i], items[j]);
      CompareSeparates(savings, items[i], items[j]);
    }
    forall i, j, k | 0 <= i < |items| && 0 <= j < |items| && 0 <= k < |items|
        && Compare(savings, items[i], items[j]) < 0 && Compare(savings, items[j], items[k]) < 0
      ensures Compare(savings, items[i], items[k]) < 0
    {
      CompareIsTransitive(savings, items[i], items[j], items[k]);
      CompareSeparates(savings, items[i], items[k]);
      CompareIsAntisymmetric(savings, items[i], items[j]);
    }
  }

  /** The criteria of the ranking in order of weight, each to be small: a missing price
      counts as larger than any. */
  function Criteria(savings: bool, a: Ranked): (r: seq<real>)
    ensures |r| == 10
  {
    var x := a.evaluation;
    var unpriced := if x.cost.None? then 1.0 else 0.0;
    var price := if x.cost.None? then 0.0 else x.cost.value.amount;
    [a.budgetPriority as real, -(x.smartScore as real),
     if savings then unpriced else 0.0, if savings then price else 0.0,
     -(x.reliability as real), -(x.dataQuality as real), -(x.location as real),
     unpriced, price, a.originalIndex as real]
  }

  /** Dictionary order. */
  predicate NotLater(a: seq<real>, b: seq<real>)
    requires |a| == |b|
  {
    a == [] || a[0] < b[0] || (a[0] == b[0] && NotLater(a[1..], b[1..]))
  }

  lemma NotLaterStep(a: seq<real>, b: seq<real>, k: nat)
    requires |a| == |b| && k < |a|
    ensures NotLater(a[k..], b[k..]) <==> a[k] < b[k] || (a[k] == b[k] && NotLater(a[k + 1..], b[k + 1..]))
  {
    assert a[k..][1..] == a[k + 1..] && b[k..][1..] == b[k + 1..];
  }

  lemma NotLaterFrom(a: seq<real>, b: seq<real>)
    requires |a| == |b| == 10
    ensures NotLater(a, b) <==>
            a[0] < b[0] || (a[0] == b[0] && (
            a[1] < b[1] || (a[1] == b[1] && (
            a[2] < b[2] || (a[2] == b[2] && (
            a[3] < b[3] || (a[3] == b[3] && NotLater(a[4..], b[4..]))))))))
    ensures NotLater(a[4..], b[4..]) <==>
            a[4] < b[4] || (a[4] == b[4] && (
            a[5] < b[5] || (a[5] == b[5] && (
            a[6] < b[6] || (a[6] == b[6] && NotLater(a[7..], b[7..]))))))
    ensures NotLater(a[7..], b[7..]) <==>
            a[7] < b[7] || (a[7] == b[7] && (
            a[8] < b[8] || (a[8] == b[8] && a[9] <= b[9])))
  {
    assert a[0..] == a && b[0..] == b && a[10..] == [] && b[10..] == [];
    NotLaterStep(a, b, 0);
    NotLaterStep(a, b, 1);
    NotLaterStep(a, b, 2);
    NotLaterStep(a, b, 3);
    NotLaterStep(a, b, 4);
    NotLaterStep(a, b, 5);
    NotLaterStep(a, b, 6);
    NotLaterStep(a, b, 7);
    NotLaterStep(a, b, 8);
    NotLaterStep(a, b, 9);
  }

  /** The comparison is the dictionary order of the criteria. */
  lemma ComparisonIsLexicographic(savings: bool, a: Ranked, b: Ranked)
    ensures NotAfter(savings, a, b) <==> NotLater(Criteria(savings, a), Criteria(savings, b))
  {
    NotLaterFrom(Criteria(savings, a), Criteria(savings, b));
  }

  lemma OrderIsTotal(savings: bool)
    ensures TotalPreorder(Order(savings))
  {
    var le := Order(savings);
    forall x: Ranked, y: Ranked ensures le(x, y) || le(y, x) {
      CompareIsAntisymmetric(savings, x, y);
    }
    forall x: Ranked, y: Ranked, z: Ranked | le(x, y) && le(y, z) ensures le(x, z) {
      CompareIsTransitive(savings, x, y, z);
    }
  }

  // ---------------------------------------------------------------------------------
  // The ranking
  // ---------------------------------------------------------------------------------

  ghost predicate InOrder(savings: bool, s: seq<Ranked>) {
    forall i, j :: 0 <= i < j < |s| ==> Compare(savings, s[i], s[j]) <= 0
  }

  /** The ranking is a permutation of the hotels in the order of the comparison, and it is
      the only one: whatever correct sort the runtime uses gives this answer. */
  lemma RankingIsTheSortedPermutation(evaluations: seq<Evaluation>, savings: bool, ctx: Context, s: seq<Ranked>)
    ensures var r := RankedItems(evaluations, savings, ctx);
            && multiset(r) == multiset(Decorate(evaluations, ctx))
            && InOrder(savings, r)
            && (multiset(s) == multiset(Decorate(evaluations, ctx)) && InOrder(savings, s) ==>
                  s == r && Strip(s) == RankHotels(evaluations, savings, ctx))
  {
    var items := Decorate(evaluations, ctx);
    var r := RankedItems(evaluations, savings, ctx);
    RankingIsSorted(evaluations, savings, ctx);
    if multiset(s) == multiset(items) && InOrder(savings, s) {
      forall x, y | x in s && y in s && Order(savings)(x, y) && Order(savings)(y, x) ensures x == y {
        assert x in multiset(items) && y in multiset(items);
        CompareIsAntisymmetric(savings, x, y);
        CompareSeparates(savings, x, y);
      }
      assert SortedBy(Order(savings), s);
      assert SortedBy(Order(savings), r);
      SortedIsUnique(Order(savings), s, r);
    }
  }

  lemma RankingIsSorted(evaluations: seq<Evaluation>, savings: bool, ctx: Context)
    ensures InOrder(savings, RankedItems(evaluations, savings, ctx))
    ensures SortedBy(Order(savings), RankedItems(evaluations, savings, ctx))
  {
    OrderIsTotal(savings);
    SortSorts(Order(savings), Decorate(evaluations, ctx));
    var r := RankedItems(evaluations, savings, ctx);
    forall i, j | 0 <= i < j < |r| ensures Compare(savings, r[i], r[j]) <= 0 {
      assert Order(savings)(r[i], r[j]);
    }
  }

  lemma RankedAreDecorated(evaluations: seq<Evaluation>, savings: bool, ctx: Context, i: nat)
    requires i < |RankedItems(evaluations, savings, ctx)|
    ensures var x := RankedItems(evaluations, savings, ctx)[i];
            x.budgetPriority == BudgetPriority(x.evaluation, ctx)
            && 0 <= x.originalIndex < |evaluations| && x.evaluation == evaluations[x.originalIndex]
  {
    var items := Decorate(evaluations, ctx);
    assert RankedItems(evaluations, savings, ctx)[i] in multiset(items);
    assert RankedItems(evaluations, savings, ctx)[i] in items;
  }

  /** Budget priorities never fall along the ranking, and within one priority smart scores
      never rise. */
  lemma LowestPriorityFirst(evaluations: seq<Evaluation>, savings: bool, ctx: Context, i: nat, j: nat)
    requires i < j < |RankHotels(evaluations, savings, ctx)|
    ensures var r := RankHotels(evaluations, savings, ctx);
            && BudgetPriority(r[i], ctx) <= BudgetPriority(r[j], ctx)
            && (BudgetPriority(r[i], ctx) == BudgetPriority(r[j], ctx) ==> r[i].smartScore >= r[j].smartScore)
  {
    RankingIsSorted(evaluations, savings, ctx);
    RankedAreDecorated(evaluations, savings, ctx, i);
    RankedAreDecorated(evaluations, savings, ctx, j);
    var items := RankedItems(evaluations, savings, ctx);
    assert Compare(savings, items[i], items[j]) <= 0;
  }

  /** With a budget, a hotel whose reliable cost is within it comes before every hotel that
      is dearer, unreliable or without a comparable cost. */
  lemma WithinBudgetComesFirst(evaluations: seq<Evaluation>, savings: bool, ctx: Context, i: nat, j: nat)
    requires i < |RankHotels(evaluations, savings, ctx)| && j < |RankHotels(evaluations, savings, ctx)|
    requires ctx.totalBudget.Some?
    requires var e := RankHotels(evaluations, savings, ctx)[i];
             var c := ComparableCost(e.cost, ctx);
             c.Some? && Reliable(e, c.value) && c.value.amount <= ctx.totalBudget.value
    requires var e := RankHotels(evaluations, savings, ctx)[j];
             var c := ComparableCost(e.cost, ctx);
             c.None? || !Reliable(e, c.value) || c.value.amount > ctx.totalBudget.value
    ensures i < j
  {
    if j < i {
      LowestPriorityFirst(evaluations, savings, ctx, j, i);
    }
  }

  /** The class of a hotel under a budget: 0 and 1 for a reliable cost within the budget or
      above it, 2 and 3 for an unreliable one, 4 without a comparable cost; one class without
      a budget. */
  lemma BudgetClassesAre(e: Evaluation, ctx: Context)
    ensures ctx.totalBudget.None? ==> BudgetPriority(e, ctx) == 0
    ensures ctx.totalBudget.Some? ==>
              var c := ComparableCost(e.cost, ctx);
              var p := BudgetPriority(e, ctx);
              && (p == 4 <==> c.None?)
              && (p in {0, 1} <==> c.Some? && !e.highRisk && c.value.completeness == ReportedComplete)
              && (p in {0, 2} <==> c.Some? && c.value.amount <= ctx.totalBudget.value)
              && 0 <= p <= 4
  {
  }

  /** With a budget, the hotels come in the order of their classes: reliable within it,
      reliable above it, unreliable within it, unreliable above it, and without a comparable
      cost. */
  lemma ClassesComeInOrder(evaluations: seq<Evaluation>, savings: bool, ctx: Context, i: nat, j: nat)
    requires i < |RankHotels(evaluations, savings, ctx)| && j < |RankHotels(evaluations, savings, ctx)|
    requires BudgetPriority(RankHotels(evaluations, savings, ctx)[i], ctx)
             < BudgetPriority(RankHotels(evaluations, savings, ctx)[j], ctx)
    ensures i < j
  {
    if j < i {
      LowestPriorityFirst(evaluations, savings, ctx, j, i);
    }
  }
}
