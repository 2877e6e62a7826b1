// What the parts of a merge mean: when two coordinates count as one, which record gives the
// location, and what makes an offer more complete.

module MergeSignals {
  import opened Common
  import opened OfferMerge
  import opened HotelMerge

  // ---------------------------------------------------------------------------------
  // Rounded coordinates
  // ---------------------------------------------------------------------------------

  lemma {:induction false} PaddedLength(n: nat, digits: nat)
    ensures |Padded(n, digits)| == digits
    decreases digits
  {
    if digits > 0 {
      PaddedLength(n / 10, digits - 1);
    }
  }

  lemma {:induction false} PaddedInjective(m: nat, n: nat, digits: nat)
    requires Padded(m, digits) == Padded(n, digits) && m / Power(digits) == n / Power(digits)
    ensures m == n
    decreases digits
  {
    if digits > 0 {
      var s, t := Padded(m, digits), Padded(n, digits);
      PaddedLength(m / 10, digits - 1);
      PaddedLength(n / 10, digits - 1);
      assert s[digits - 1] == DIGITS[m % 10] && t[digits - 1] == DIGITS[n % 10];
      assert s[..digits - 1] == Padded(m / 10, digits - 1) && t[..digits - 1] == Padded(n / 10, digits - 1);
      DigitsAreDistinct(m % 10, n % 10);
      DividedByTen(m, Power(digits - 1));
      DividedByTen(n, Power(digits - 1));
      PaddedInjective(m / 10, n / 10, digits - 1);
    }
  }

  lemma DividedByTen(n: nat, p: nat)
    requires p > 0
    ensures n / (10 * p) == (n / 10) / p
  {
    var q := (n / 10) / p;
    var r := (n / 10) % p;
    assert n / 10 == q * p + r;
    assert n == 10 * (q * p + r) + n % 10;
    assert 10 * (q * p + r) == q * (10 * p) + 10 * r;
    QuotientIs(n, 10 * p, q, 10 * r + n % 10);
  }

  lemma ProductAtLeast(k: int, d: nat)
    requires k >= 1
    ensures k * d >= d
  {
    assert k * d == (k - 1) * d + d;
  }

  lemma Distributes(x: int, q: int, d: int)
    ensures (x - q) * d == x * d - q * d
  {
  }

  lemma QuotientIs(n: nat, d: nat, q: nat, r: nat)
    requires d > 0 && n == q * d + r && r < d
    ensures n / d == q
  {
    var x, y := n / d, n % d;
    assert n == x * d + y;
    Distributes(x, q, d);
    Distributes(q, x, d);
    if x > q {
      ProductAtLeast(x - q, d);
    } else if x < q {
      ProductAtLeast(q - x, d);
    }
  }

  lemma {:induction false} DecimalHasDigits(n: nat)
    ensures Decimal(n)[0] in DIGITS
    decreases n
  {
    if n >= 10 {
      DecimalHasDigits(n / 10);
    }
  }

  /** Fixed texts split into their sign with the whole part, and the decimals. */
  lemma PiecesAgree(a: string, p: string, b: string, q: string)
    requires a + "." + p == b + "." + q && |p| == |q|
    ensures a == b && p == q
  {
    var s, t := a + "." + p, b + "." + q;
    assert |a| == |b|;
    assert s[..|a|] == a && t[..|b|] == b;
    assert s[|a| + 1..] == p && t[|b| + 1..] == q;
  }

  lemma SignsAgree(x: string, m: string, y: string, n: string)
    requires x in {"", "-"} && y in {"", "-"} && m != "" && n != "" && m[0] != '-' && n[0] != '-' && x + m == y + n
    ensures x == y && m == n
  {
    assert (x + m)[0] == (y + n)[0];
    if x == y {
      assert (x + m)[|x|..] == m && (y + n)[|y|..] == n;
    }
  }

  /** Two numbers have the same text with a number of decimals exactly when they have the same
      sign and the same magnitude in units of the last decimal. */
  lemma FixedIsExact(x: real, y: real, digits: nat)
    ensures Fixed(x, digits) == Fixed(y, digits) <==> (x < 0.0 <==> y < 0.0) && Units(x, digits) == Units(y, digits)
  {
    if Fixed(x, digits) == Fixed(y, digits) {
      var m, n := Units(x, digits), Units(y, digits);
      var s, t := if x < 0.0 then "-" else "", if y < 0.0 then "-" else "";
      var a, b := Decimal(Quotient(m, Power(digits))), Decimal(Quotient(n, Power(digits)));
      PaddedLength(m, digits);
      PaddedLength(n, digits);
      PiecesAgree(s + a, Padded(m, digits), t + b, Padded(n, digits));
      DecimalHasDigits(Quotient(m, Power(digits)));
      DecimalHasDigits(Quotient(n, Power(digits)));
      SignsAgree(s, a, t, b);
      DecimalInjective(Quotient(m, Power(digits)), Quotient(n, Power(digits)));
      PaddedInjective(m, n, digits);
    }
  }

  lemma UnitsAreNearest(x: real)
    ensures var size := if x < 0.0 then -x else x;
            -0.5 < Units(x, 4) as real - 10_000.0 * size <= 0.5
  {
    assert Power(4) == 10_000;
  }

  /** Two coordinates on the globe give the same signal exactly when they lie on the same side
      of zero and round to the same ten-thousandth of a degree. */
  lemma CoordinatesCoincideIff(x: real, y: real)
    requires -180.0 <= x <= 180.0 && -180.0 <= y <= 180.0
    ensures RoundCoordinate(Num(x)) == RoundCoordinate(Num(y)) <==>
            (x < 0.0 <==> y < 0.0) && Units(x, 4) == Units(y, 4)
  {
    FixedIsExact(x, y, 4);
  }

  // ---------------------------------------------------------------------------------
  // The location of a merged record
  // ---------------------------------------------------------------------------------

  predicate Calculated(x: Hotel) {
    ValidDistance(x.distance) && x.distanceSource == Some("calculated")
  }

  lemma CompareFromFirst(a: seq<nat>, b: seq<nat>)
    requires |a| == |b| && a != []
    ensures a[0] != b[0] ==> (Compare(a, b) > 0 <==> a[0] > b[0])
    ensures a[0] == b[0] ==> Compare(a, b) == Compare(a[1..], b[1..])
  {
  }

  /** The first of three places at which two ranks differ decides. */
  lemma CompareSecond(a: seq<nat>, b: seq<nat>)
    requires |a| == |b| && |a| >= 3
    ensures a[0] != b[0] ==> (Compare(a, b) > 0 <==> a[0] > b[0])
    ensures a[0] == b[0] && a[1] != b[1] ==> (Compare(a, b) > 0 <==> a[1] > b[1])
    ensures a[0] == b[0] && a[1] == b[1] && a[2] != b[2] ==> (Compare(a, b) > 0 <==> a[2] > b[2])
  {
    var a1, b1 := a[1..], b[1..];
    var a2, b2 := a1[1..], b1[1..];
    assert a1[0] == a[1] && b1[0] == b[1] && a2[0] == a[2] && b2[0] == b[2];
    CompareFromFirst(a, b);
    CompareFromFirst(a1, b1);
    CompareFromFirst(a2, b2);
  }

  /** Which record gives the location: the one with coordinates; of two with or two without,
      the one whose distance was calculated; and then the one that has a distance. */
  lemma LocationIsTakenFrom(h: Host, a: Hotel, b: Hotel)
    ensures ValidPair(a) && !ValidPair(b) ==> LocationHotel(h, a, b) == a
    ensures !ValidPair(a) && ValidPair(b) ==> LocationHotel(h, a, b) == b
    ensures (ValidPair(a) <==> ValidPair(b)) && Calculated(a) && !Calculated(b) ==> LocationHotel(h, a, b) == a
    ensures (ValidPair(a) <==> ValidPair(b)) && !Calculated(a) && Calculated(b) ==> LocationHotel(h, a, b) == b
    ensures ((ValidPair(a) <==> ValidPair(b)) && (Calculated(a) <==> Calculated(b))) ==>
              && (ValidDistance(a.distance) && !ValidDistance(b.distance) ==> LocationHotel(h, a, b) == a)
              && (!ValidDistance(a.distance) && ValidDistance(b.distance) ==> LocationHotel(h, a, b) == b)
  {
    CompareSecond(LocationRank(a), LocationRank(b));
    CompareSecond(LocationRank(b), LocationRank(a));
    CompareIsAntisymmetric(LocationRank(a), LocationRank(b));
  }

  /** Where both locations rank alike, the order of the two records does not matter, as long as
      the tie-break is the same either way. */
  lemma LocationIgnoresOrder(h: Host, a: Hotel, b: Hotel)
    requires h.first(a, b) != h.first(b, a)
    ensures LocationHotel(h, a, b) == LocationHotel(h, b, a)
  {
    CompareIsAntisymmetric(LocationRank(a), LocationRank(b));
  }

  /** A merged record keeps the first record's name unless that is empty, and has the better
      confidence of the two. */
  lemma MergedDetails(h: Host, a: Hotel, b: Hotel)
    ensures var m := Merge(h, a, b);
            && m.name == (if a.name.Some? && a.name.value != "" then a.name else b.name)
            && m.confidence in {a.confidence, b.confidence}
            && (m.confidence == Full <==> a.confidence == Full || b.confidence == Full)
            && (m.confidence == OtherData <==> a.confidence == OtherData && b.confidence == OtherData)
            && m.id == a.id && m.sourceProvider == a.sourceProvider && m.sourceHotelId == a.sourceHotelId
  {
  }

  // ---------------------------------------------------------------------------------
  // Completeness and cost of offers
  // ---------------------------------------------------------------------------------

  /** The offer b says what a says and possibly more. */
  predicate SaysMore(a: Offer, b: Offer) {
    && (Truthy(a.roomName) <= Truthy(b.roomName)) && (Finite(a.totalKnownCost) <= Finite(b.totalKnownCost))
    && (Finite(a.excludedTaxes) <= Finite(b.excludedTaxes)) && (a.refundable.Some? ==> b.refundable.Some?)
    && (Truthy(a.cancellationPolicy) <= Truthy(b.cancellationPolicy)) && (a.policies > 0 ==> b.policies > 0)
    && (Truthy(a.deepLink) <= Truthy(b.deepLink))
  }

  /** An offer that says more is at least as complete, and exactly as complete only if the
      other says as much. */
  lemma MoreIsMoreComplete(a: Offer, b: Offer)
    requires SaysMore(a, b)
    ensures Completeness(a) <= Completeness(b) <= 7
    ensures Completeness(a) == Completeness(b) <==> SaysMore(b, a)
  {
  }

  /** What an offer costs: its known total if that is positive, and its price otherwise. */
  predicate Costs(o: Offer, amount: real) {
    if ToNumber(o.totalKnownCost).Some? && ToNumber(o.totalKnownCost).value > 0.0
    then amount == ToNumber(o.totalKnownCost).value
    else ToNumber(o.price) == Some(amount)
  }

  /** The best offer costs no more than any other valid offer that can be compared with it,
      and has the lower price of two that cost the same. */
  lemma BestOfferCostsLeast(offers: seq<Offer>, preferred: string, o: Offer, cost: real, best: real)
    requires BestOffer(offers, preferred).Some? && o in offers && ToNumber(o.price).Some? && ToNumber(o.price).value > 0.0
    requires preferred == "" || Currency(o.currency) == preferred
    requires Costs(o, cost) && Costs(BestOffer(offers, preferred).value, best)
    ensures best <= cost
    ensures best == cost ==> ToNumber(BestOffer(offers, preferred).value.price).value <= ToNumber(o.price).value
  {
    BestOfferIsCheapest(offers, preferred);
  }
}
