// What the price scores weigh: fixed points of each part and the response of the whole.

module PriceWeights {
  import opened Common
  import opened PriceBaseline
  import opened PriceScores

  /** The budget score at the corner points of the curve, by what is known about the cost. */
  lemma BudgetScoreCorners(cost: Cost, ctx: Context)
    requires ctx.totalBudget.Some? && ctx.totalBudget.value > 0.0
    requires ctx.currency.None? || ctx.currency.value == cost.currency
    ensures var t := ctx.totalBudget.value;
            var less := match cost.completeness
                        case ReportedComplete => 0 case TaxStatusUnknown => 3
                        case PartialCost => 6 case UnknownCost => 14;
            && (cost.amount == t * 0.75 ==> BudgetScore(Some(cost), ctx) == Some(100 - less))
            && (cost.amount == t ==> BudgetScore(Some(cost), ctx) == Some(92 - less))
            && (cost.amount == t * 1.05 ==> BudgetScore(Some(cost), ctx) == Some(75 - less))
            && (cost.amount == t * 1.15 ==> BudgetScore(Some(cost), ctx) == Some(55 - less))
            && (cost.amount == t * 1.3 ==> BudgetScore(Some(cost), ctx) == Some(35 - less))
  {
    var t := ctx.totalBudget.value;
    QuotientOfProduct(t, 0.75);
    QuotientOfProduct(t, 1.0);
    QuotientOfProduct(t, 1.05);
    QuotientOfProduct(t, 1.15);
    QuotientOfProduct(t, 1.3);
  }

  lemma QuotientOfProduct(t: real, r: real)
    requires t > 0.0
    ensures (t * r) / t == r
  {
    var q := (t * r) / t;
    assert q * t == t * r;
    if q < r {
      StrictProduct(t, q, r);
    } else if r < q {
      StrictProduct(t, r, q);
    }
  }

  /** A cost that cannot be compared with the budget scores 30; without a budget there is no
      budget score and the market decides alone. */
  lemma IncomparableBudget(cost: Option<Cost>, ctx: Context)
    requires GoodContext(ctx) && (cost.Some? ==> cost.value.amount > 0.0)
    ensures ctx.totalBudget.None? ==> BudgetScore(cost, ctx).None? && PriceScore(cost, ctx) == MarketScore(cost, ctx)
    ensures ctx.totalBudget.Some? && (cost.None? || (ctx.currency.Some? && cost.value.currency != ctx.currency.value)) ==>
              BudgetScore(cost, ctx) == Some(30)
  {
  }

  /** Without a market the score is 40, and where the market has a single price it is 72. */
  lemma MarketScoreWithoutRange(cost: Cost, ctx: Context)
    requires cost.amount > 0.0
    ensures MarketScore(None, ctx) == 40
    ensures ctx.baseline.averagePrice <= 0.0 ==> MarketScore(Some(cost), ctx) == 40
    ensures ctx.baseline.averagePrice > 0.0 && ctx.baseline.minPrice == ctx.baseline.maxPrice ==>
              MarketScore(Some(cost), ctx) == 72
  {
  }

  lemma MarketScoreIs(cost: Cost, ctx: Context)
    requires cost.amount > 0.0 && ctx.baseline.averagePrice > 0.0 && ctx.baseline.minPrice < ctx.baseline.maxPrice
    ensures MarketScore(Some(cost), ctx)
            == RoundScore(RangeScore(cost.amount, ctx.baseline) + AverageBonus(cost.amount, ctx.baseline))
  {
  }

  lemma OneOfItself(x: real)
    requires x > 0.0
    ensures x / x == 1.0
  {
  }

  /** The cheapest price of a market scores 100. */
  lemma CheapestScoresAll(cost: Cost, ctx: Context)
    requires 0.0 < ctx.baseline.minPrice < ctx.baseline.maxPrice && cost.amount == ctx.baseline.minPrice
    requires ctx.baseline.minPrice <= ctx.baseline.averagePrice
    ensures MarketScore(Some(cost), ctx) == 100
  {
    var b := ctx.baseline;
    MarketScoreIs(cost, ctx);
    OneOfItself(b.minPrice);
    QuotientMono(b.minPrice, b.averagePrice, b.minPrice);
    QuotientOfProduct(b.maxPrice - b.minPrice, 0.0);
    assert RangeScore(cost.amount, b) == 100.0;
  }

  /** The dearest price of a market scores between 9 and 25. */
  lemma DearestScoresAQuarter(cost: Cost, ctx: Context)
    requires 0.0 < ctx.baseline.minPrice < ctx.baseline.maxPrice && cost.amount == ctx.baseline.maxPrice
    requires 0.0 < ctx.baseline.averagePrice <= ctx.baseline.maxPrice
    ensures 9 <= MarketScore(Some(cost), ctx) <= 25
  {
    var b := ctx.baseline;
    MarketScoreIs(cost, ctx);
    OneOfItself(b.maxPrice);
    OneOfItself(b.maxPrice - b.minPrice);
    QuotientMono(b.averagePrice, b.maxPrice, b.maxPrice);
  }

  /** At the average price there is no bonus: half of the way from the cheapest to the dearest
      price costs 37.5 points, which leaves 63 after rounding. */
  lemma MarketScoreInTheMiddle(cost: Cost, ctx: Context)
    requires 0.0 < ctx.baseline.minPrice < ctx.baseline.maxPrice
    requires cost.amount == ctx.baseline.averagePrice == (ctx.baseline.minPrice + ctx.baseline.maxPrice) / 2.0
    ensures MarketScore(Some(cost), ctx) == 63
  {
    var b := ctx.baseline;
    var width := b.maxPrice - b.minPrice;
    assert cost.amount - b.minPrice == width * 0.5;
    QuotientOfProduct(width, 0.5);
    assert b.averagePrice / cost.amount == 1.0;
  }

  /** How much dearer than the average a price is, is worth at most 16 points, and 22 points
      for the whole ratio. */
  lemma AverageBonusIs(price: real, b: Baseline)
    requires price > 0.0 && b.averagePrice > 0.0
    ensures -16.0 <= AverageBonus(price, b) <= 16.0
    ensures -8.0 <= 11.0 * (b.averagePrice / price - 1.0) <= 8.0 ==>
              AverageBonus(price, b) == 22.0 * (b.averagePrice / price - 1.0)
  {
  }

  /** The price score is the nearest whole number to 11 parts of the market score and 9 parts
      of the budget score, in twentieths. */
  lemma PriceScoreIsWeighted(cost: Option<Cost>, ctx: Context)
    requires GoodContext(ctx) && (cost.Some? ==> cost.value.amount > 0.0) && ctx.totalBudget.Some?
    ensures var m, b := MarketScore(cost, ctx), BudgetScore(cost, ctx).value;
            -10 < 20 * PriceScore(cost, ctx) - (11 * m + 9 * b) <= 10
  {
    ScoresAreInRange(cost, ctx);
    var m, b := MarketScore(cost, ctx), BudgetScore(cost, ctx).value;
    var x := m as real * 0.55 + b as real * 0.45;
    assert 0.0 <= x <= 100.0;
    assert 20.0 * x == (11 * m + 9 * b) as real;
  }

  /** Twenty points of the market score are worth eleven points, twenty of the budget score
      nine, and equal scores are the price score. */
  lemma PriceScoreResponds(a: Option<Cost>, p: Context, c: Option<Cost>, q: Context)
    requires GoodContext(p) && (a.Some? ==> a.value.amount > 0.0) && p.totalBudget.Some?
    requires GoodContext(q) && (c.Some? ==> c.value.amount > 0.0) && q.totalBudget.Some?
    ensures BudgetScore(a, p) == BudgetScore(c, q) && MarketScore(c, q) == MarketScore(a, p) + 20 ==>
              PriceScore(c, q) == PriceScore(a, p) + 11
    ensures MarketScore(a, p) == MarketScore(c, q) && BudgetScore(c, q).value == BudgetScore(a, p).value + 20 ==>
              PriceScore(c, q) == PriceScore(a, p) + 9
    ensures BudgetScore(a, p).value == MarketScore(a, p) ==> PriceScore(a, p) == MarketScore(a, p)
  {
    PriceScoreIsWeighted(a, p);
    PriceScoreIsWeighted(c, q);
  }
}
