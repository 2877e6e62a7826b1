// The price scores of a hotel: how its cost fits the traveller's budget and how it stands
// in the market of the search. Costs are reals; scores are rounded to integers.

module PriceScores {
  import opened Common
  import opened PriceBaseline

  datatype Completeness = ReportedComplete | TaxStatusUnknown | PartialCost | UnknownCost

  /** `amount` is positive where the source builds one. */
  datatype Cost = Cost(amount: real, currency: string, completeness: Completeness)

  datatype Context = Context(totalBudget: Option<real>, currency: Option<string>, baseline: Baseline)

  function RoundScore(v: real): int {
    (Clamp(v, 0.0, 100.0) + 0.5).Floor
  }

  lemma RoundScoreIsMonotone(v: real, w: real)
    requires v <= w
    ensures 0 <= RoundScore(v) <= RoundScore(w) <= 100
  {
  }

  /** The cost, when it can be compared with the budget's currency. */
  function ComparableCost(cost: Option<Cost>, ctx: Context): Option<Cost> {
    if cost.None? then None
    else if ctx.currency.Some? && cost.value.currency != ctx.currency.value then None
    else cost
  }

  /** The budget curve, before the penalty for an incomplete cost. */
  function BudgetCurve(ratio: real): real {
    if ratio <= 0.75 then 100.0
    else if ratio <= 1.0 then 100.0 - ((ratio - 0.75) / 0.25) * 8.0
    else if ratio <= 1.05 then 92.0 - ((ratio - 1.0) / 0.05) * 17.0
    else if ratio <= 1.15 then 75.0 - ((ratio - 1.05) / 0.1) * 20.0
    else if ratio <= 1.3 then 55.0 - ((ratio - 1.15) / 0.15) * 20.0
    else if 35.0 - (ratio - 1.3) * 30.0 < 10.0 then 10.0
    else 35.0 - (ratio - 1.3) * 30.0
  }

  function Penalty(c: Completeness): real {
    match c
    case ReportedComplete => 0.0
    case TaxStatusUnknown => 3.0
    case PartialCost => 6.0
    case UnknownCost => 14.0
  }

  function BudgetScore(cost: Option<Cost>, ctx: Context): Option<int>
    requires ctx.totalBudget.Some? ==> ctx.totalBudget.value > 0.0
  {
    if ctx.totalBudget.None? then None
    else
      var c := ComparableCost(cost, ctx);
      if c.None? then Some(30)
      else Some(RoundScore(BudgetCurve(c.value.amount / ctx.totalBudget.value) - Penalty(c.value.completeness)))
  }

  /** The market score takes the cost in whatever currency it has. */
  function MarketScore(cost: Option<Cost>, ctx: Context): int
    requires cost.Some? ==> cost.value.amount > 0.0
  {
    var b := ctx.baseline;
    if cost.None? || b.averagePrice <= 0.0 then 40
    else if b.minPrice == b.maxPrice then 72
    else
      var price := cost.value.amount;
      var position := (price - b.minPrice) / (b.maxPrice - b.minPrice);
      var rangeScore := 100.0 - position * 75.0;
      var averageBonus := Clamp((b.averagePrice / price - 1.0) * 22.0, -16.0, 16.0);
      RoundScore(rangeScore + averageBonus)
  }

  function PriceScore(cost: Option<Cost>, ctx: Context): int
    requires cost.Some? ==> cost.value.amount > 0.0
    requires ctx.totalBudget.Some? ==> ctx.totalBudget.value > 0.0
  {
    var market := MarketScore(cost, ctx);
    match BudgetScore(cost, ctx)
    case None => market
    case Some(budget) => RoundScore(market as real * 0.55 + budget as real * 0.45)
  }

  // ---------------------------------------------------------------------------------

  /** What the constraints and a price baseline guarantee. */
  predicate GoodContext(ctx: Context) {
    && (ctx.totalBudget.Some? ==> ctx.totalBudget.value > 0.0)
    && ctx.baseline.minPrice <= ctx.baseline.maxPrice
  }

  lemma QuotientMono(a: real, b: real, c: real)
    requires c > 0.0 && a <= b
    ensures a / c <= b / c
  {
    var x, y := a / c, b / c;
    assert x * c == a && y * c == b;
    if y < x {
      StrictProduct(c, y, x);
    }
  }

  lemma QuotientAntitone(n: real, a: real, b: real)
    requires n > 0.0 && 0.0 < a <= b
    ensures n / a >= n / b > 0.0
  {
    var x, y := n / a, n / b;
    assert x * a == n && y * b == n;
    if y <= 0.0 {
      ProductMono(b, y, 0.0);
    }
    if x < y {
      ProductMono(y, a, b);
      StrictProduct(a, x, y);
    }
  }

  lemma StrictProduct(a: real, x: real, y: real)
    requires a > 0.0 && x < y
    ensures a * x < a * y
  {
  }

  /** The budget curve falls, with no jump that would favour a dearer stay. */
  lemma BudgetCurveFalls(r: real, s: real)
    requires r <= s
    ensures BudgetCurve(r) >= BudgetCurve(s) >= 10.0
  {
  }

  /** Where the pieces meet they agree, so a small difference in cost never costs many
      points: the curve falls at most 340 points per unit of the ratio. */
  lemma BudgetCurveHasNoJump(r: real, s: real)
    requires r <= s
    ensures BudgetCurve(0.75) == 100.0 && BudgetCurve(1.0) == 92.0 && BudgetCurve(1.05) == 75.0
    ensures BudgetCurve(1.15) == 55.0 && BudgetCurve(1.3) == 35.0
    ensures BudgetCurve(r) - BudgetCurve(s) <= 340.0 * (s - r)
  {
  }

  lemma BudgetScoreFalls(a: Cost, b: Cost, ctx: Context)
    requires GoodContext(ctx) && ctx.totalBudget.Some?
    requires a.currency == b.currency && a.completeness == b.completeness && a.amount <= b.amount
    ensures BudgetScore(Some(a), ctx).value >= BudgetScore(Some(b), ctx).value
  {
    var t := ctx.totalBudget.value;
    QuotientMono(a.amount, b.amount, t);
    BudgetCurveFalls(a.amount / t, b.amount / t);
    RoundScoreIsMonotone(BudgetCurve(b.amount / t) - Penalty(a.completeness),
                         BudgetCurve(a.amount / t) - Penalty(a.completeness));
  }

  function RangeScore(price: real, b: Baseline): real
    requires b.minPrice < b.maxPrice
  {
    100.0 - (price - b.minPrice) / (b.maxPrice - b.minPrice) * 75.0
  }

  function AverageBonus(price: real, b: Baseline): real
    requires price > 0.0
  {
    Clamp((b.averagePrice / price - 1.0) * 22.0, -16.0, 16.0)
  }

  lemma MarketScoreFalls(a: Cost, b: Cost, ctx: Context)
    requires GoodContext(ctx) && 0.0 < a.amount <= b.amount
    ensures MarketScore(Some(a), ctx) >= MarketScore(Some(b), ctx)
  {
    var base := ctx.baseline;
    if base.averagePrice > 0.0 && base.minPrice < base.maxPrice {
      QuotientMono(a.amount - base.minPrice, b.amount - base.minPrice, base.maxPrice - base.minPrice);
      QuotientAntitone(base.averagePrice, a.amount, b.amount);
      RoundScoreIsMonotone(RangeScore(b.amount, base) + AverageBonus(b.amount, base),
                           RangeScore(a.amount, base) + AverageBonus(a.amount, base));
    }
  }

  lemma ScoresAreInRange(cost: Option<Cost>, ctx: Context)
    requires GoodContext(ctx) && (cost.Some? ==> cost.value.amount > 0.0)
    ensures 0 <= MarketScore(cost, ctx) <= 100
    ensures BudgetScore(cost, ctx).Some? ==> 0 <= BudgetScore(cost, ctx).value <= 100
    ensures 0 <= PriceScore(cost, ctx) <= 100
  {
  }

  /** Under one baseline and one tax completeness a dearer stay never scores higher. */
  lemma PriceScoreFalls(a: Cost, b: Cost, ctx: Context)
    requires GoodContext(ctx) && 0.0 < a.amount <= b.amount
    requires a.currency == b.currency && a.completeness == b.completeness
    ensures PriceScore(Some(a), ctx) >= PriceScore(Some(b), ctx)
  {
    MarketScoreFalls(a, b, ctx);
    if ctx.totalBudget.Some? {
      BudgetScoreFalls(a, b, ctx);
      RoundScoreIsMonotone(
        MarketScore(Some(b), ctx) as real * 0.55 + BudgetScore(Some(b), ctx).value as real * 0.45,
        MarketScore(Some(a), ctx) as real * 0.55 + BudgetScore(Some(a), ctx).value as real * 0.45);
    }
  }

  function Completion(c: Completeness): nat {
    match c
    case ReportedComplete => 0
    case TaxStatusUnknown => 1
    case PartialCost => 2
    case UnknownCost => 3
  }

  /** At the same amount, knowing less about the taxes never scores higher. */
  lemma LessCompleteNeverHelps(a: Cost, b: Cost, ctx: Context)
    requires GoodContext(ctx) && a.amount == b.amount > 0.0 && a.currency == b.currency
    requires Completion(a.completeness) <= Completion(b.completeness)
    ensures PriceScore(Some(a), ctx) >= PriceScore(Some(b), ctx)
  {
    if ctx.totalBudget.Some? {
      var curve := BudgetCurve(a.amount / ctx.totalBudget.value);
      RoundScoreIsMonotone(curve - Penalty(b.completeness), curve - Penalty(a.completeness));
      RoundScoreIsMonotone(
        MarketScore(Some(b), ctx) as real * 0.55 + BudgetScore(Some(b), ctx).value as real * 0.45,
        MarketScore(Some(a), ctx) as real * 0.55 + BudgetScore(Some(a), ctx).value as real * 0.45);
    }
  }

  /** Every context whose baseline was made from prices is a good one. */
  lemma BaselineContextIsGood(values: seq<real>, budget: Option<real>, currency: Option<string>)
    requires budget.Some? ==> budget.value > 0.0
    ensures GoodContext(Context(budget, currency, CreateBaseline(values)))
  {
    if Positive(values) != [] {
      BaselineIsSound(values);
    } else {
      assert SortedPrices(values) == [];
    }
  }
}
