// Offers of a hotel as providers report them: their merge key, their completeness, the
// merge of two lists and the choice of the offer that prices the hotel.

module OfferMerge {
  import opened OrderedMaps
  import opened Common
  import opened BestPerKey

  /** A numeric field: `Null` is null or the empty string, which `Number` turns into zero. */
  datatype Numeric = Undefined | Null | Num(value: real)

  /** `Number(value)` when it is finite. */
  function ToNumber(n: Numeric): Option<real> {
    match n
    case Undefined => None
    case Null => Some(0.0)
    case Num(v) => Some(v)
  }

  /** The text of a field with its host-dependent readings: `normal` is the normalised text,
      in which every character that is neither letter nor digit became a blank. */
  type Normalizer = f: string -> string | f("") == "" && forall s :: BAR !in f(s)
    witness s => ""

  const BAR: char := '|'

  /** `id` is trimmed; `currency` is trimmed and in upper case. */
  datatype Offer = Offer(
    id: string,
    sourceProvider: Option<string>,
    provider: Option<string>,
    currency: string,
    price: Numeric,
    totalKnownCost: Numeric,
    excludedTaxes: Numeric,
    cancellationPenalty: Numeric,
    roomName: Option<string>,
    refundable: Option<bool>,
    refundableTag: Option<string>,
    cancellationPolicy: Option<string>,
    policies: nat,
    deepLink: Option<string>)

  function Normal(f: Normalizer, t: Option<string>): (r: string)
    ensures BAR !in r
    ensures t == None || t == Some("") ==> r == ""
  {
    if t.None? then "" else f(t.value)
  }

  // ---------------------------------------------------------------------------------
  // Text of numbers and of joined parts
  // ---------------------------------------------------------------------------------

  const DIGITS := "0123456789"

  function Decimal(n: nat): (t: string)
    ensures t != "" && BAR !in t
  {
    if n < 10 then [DIGITS[n]] else Decimal(n / 10) + [DIGITS[n % 10]]
  }

  function Power(digits: nat): (r: nat)
    ensures r > 0
  {
    if digits == 0 then 1 else 10 * Power(digits - 1)
  }

  /** Rounds half up. */
  function Round(x: real): nat
    requires x >= 0.0
  {
    (x + 0.5).Floor
  }

  function Padded(n: nat, digits: nat): (t: string)
    ensures BAR !in t
  {
    if digits == 0 then "" else Padded(n / 10, digits - 1) + [DIGITS[n % 10]]
  }

  /** The magnitude of x in units of the last digit. */
  function Units(x: real, digits: nat): nat {
    var size := if x < 0.0 then -x else x;
    ProductIsNonNegative(size, Power(digits) as real);
    Round(size * Power(digits) as real)
  }

  /** `x.toFixed(digits)`: rounded half away from zero, with the sign of x. */
  function Fixed(x: real, digits: nat): (t: string)
    ensures t != "" && BAR !in t
  {
    var units := Units(x, digits);
    Pieced(if x < 0.0 then "-" else "", Decimal(Quotient(units, Power(digits))), Padded(units, digits))
  }

  function Quotient(n: nat, d: nat): nat
    requires d > 0
  {
    n / d
  }

  function Pieced(sign: string, whole: string, part: string): (t: string)
    requires BAR !in sign && BAR !in whole && BAR !in part
    ensures t != "" && BAR !in t
  {
    sign + whole + "." + part
  }

  lemma ProductIsNonNegative(a: real, b: real)
    requires a >= 0.0 && b >= 0.0
    ensures a * b >= 0.0
  {
  }

  /** `parts.join("|")`. */
  function Join(parts: seq<string>): string {
    if |parts| == 0 then ""
    else if |parts| == 1 then parts[0]
    else parts[0] + [BAR] + Join(parts[1..])
  }

  predicate NoBars(parts: seq<string>) {
    forall i :: 0 <= i < |parts| ==> BAR !in parts[i]
  }

  lemma FirstPart(a: string, b: string, x: string, y: string)
    requires BAR !in a && BAR !in b && a + [BAR] + x == b + [BAR] + y
    ensures a == b && x == y
  {
    FirstBar(a, x);
    FirstBar(b, y);
    var l, r := a + [BAR] + x, b + [BAR] + y;
    assert a == l[..BarAt(l)] && b == r[..BarAt(r)];
    assert x == l[|a| + 1..] && y == r[|b| + 1..];
  }

  /** The place of the first separator, or the length. */
  function BarAt(t: string): (i: nat)
    ensures i <= |t|
  {
    if t == "" || t[0] == BAR then 0 else 1 + BarAt(t[1..])
  }

  lemma {:induction false} FirstBar(a: string, x: string)
    requires BAR !in a
    ensures BarAt(a + [BAR] + x) == |a|
    decreases |a|
  {
    if a != "" {
      FirstBar(a[1..], x);
      assert (a + [BAR] + x)[1..] == a[1..] + [BAR] + x;
    }
  }

  lemma {:induction false} BarInJoin(parts: seq<string>)
    requires |parts| >= 2
    ensures BAR in Join(parts)
  {
    assert Join(parts)[|parts[0]|] == BAR;
  }

  /** A joined text determines its parts when none of them contains the separator. */
  lemma {:induction false} JoinInjective(a: seq<string>, b: seq<string>)
    requires |a| > 0 && |b| > 0 && NoBars(a) && NoBars(b) && Join(a) == Join(b)
    ensures a == b
    decreases |a|
  {
    if |a| == 1 {
      if |b| > 1 {
        BarInJoin(b);
      }
    } else if |b| == 1 {
      BarInJoin(a);
    } else {
      FirstPart(a[0], b[0], Join(a[1..]), Join(b[1..]));
      JoinInjective(a[1..], b[1..]);
      assert a == [a[0]] + a[1..] && b == [b[0]] + b[1..];
    }
  }

  // ---------------------------------------------------------------------------------
  // Offers
  // ---------------------------------------------------------------------------------

  predicate ValidOffer(o: Offer) {
    ToNumber(o.price).Some? && ToNumber(o.price).value > 0.0
  }

  function ValidOffers(offers: seq<Offer>): (r: seq<Offer>)
    ensures forall o :: o in r <==> o in offers && ValidOffer(o)
  {
    if offers == [] then []
    else (if ValidOffer(offers[0]) then [offers[0]] else []) + ValidOffers(offers[1..])
  }

  function Currency(c: string): (r: string)
    ensures BAR !in r
  {
    if |c| == 3 && 'A' <= c[0] <= 'Z' && 'A' <= c[1] <= 'Z' && 'A' <= c[2] <= 'Z' then c else ""
  }

  function Truthy(t: Option<string>): nat {
    if t.Some? && t.value != "" then 1 else 0
  }

  function Finite(n: Numeric): nat {
    if ToNumber(n).Some? then 1 else 0
  }

  function Completeness(o: Offer): nat {
    Truthy(o.roomName) + Finite(o.totalKnownCost) + Finite(o.excludedTaxes)
    + (if o.refundable.Some? then 1 else 0) + Truthy(o.cancellationPolicy)
    + (if o.policies > 0 then 1 else 0) + Truthy(o.deepLink)
  }

  function FixedPart(n: Numeric): string {
    if ToNumber(n).Some? then Fixed(ToNumber(n).value, 2) else ""
  }

  function OfferKey(f: Normalizer, o: Offer): string {
    var currency := Currency(o.currency);
    if o.id != "" then
      Join(["id", Normal(f, o.sourceProvider), Normal(f, o.provider), o.id, currency])
    else
      Join(["fingerprint", Normal(f, o.sourceProvider), Normal(f, o.provider), Normal(f, o.roomName),
            FixedPart(o.price), currency,
            match o.refundable case None => "" case Some(b) => if b then "true" else "false",
            Normal(f, o.refundableTag), Normal(f, o.cancellationPolicy),
            FixedPart(o.totalKnownCost), FixedPart(o.excludedTaxes), FixedPart(o.cancellationPenalty)])
  }

  function KeyBy(f: Normalizer): Offer -> string {
    o => OfferKey(f, o)
  }

  function ByCompleteness(): Offer -> int {
    o => Completeness(o)
  }

  function MergeOffers(f: Normalizer, first: seq<Offer>, second: seq<Offer>): seq<Offer> {
    Values(Gather(KeyBy(f), ByCompleteness(), first + second))
  }

  /** Merging two lists keeps every key, and of each key one offer: the earliest of the most
      complete ones. */
  lemma MergedOffers(f: Normalizer, first: seq<Offer>, second: seq<Offer>)
    ensures BestOfEach(KeyBy(f), ByCompleteness(), first + second, MergeOffers(f, first, second))
  {
    GatherKeepsTheBest(KeyBy(f), ByCompleteness(), first + second);
  }

  method CollectOffers(f: Normalizer, first: seq<Offer>, second: seq<Offer>) returns (offers: seq<Offer>)
    ensures offers == MergeOffers(f, first, second)
  {
    offers := CollectBest(KeyBy(f), ByCompleteness(), first + second);
  }

  // ---------------------------------------------------------------------------------
  // The best offer
  // ---------------------------------------------------------------------------------

  function Price(o: Offer): real
    requires ValidOffer(o)
  {
    ToNumber(o.price).value
  }

  function ComparableCost(o: Offer): real
    requires ValidOffer(o)
  {
    var t := ToNumber(o.totalKnownCost);
    if t.Some? && t.value > 0.0 then t.value else Price(o)
  }

  predicate Cheaper(a: Offer, b: Offer)
    requires ValidOffer(a) && ValidOffer(b)
  {
    ComparableCost(a) < ComparableCost(b) || (ComparableCost(a) == ComparableCost(b) && Price(a) < Price(b))
  }

  lemma NotCheaperTrans(a: Offer, b: Offer, c: Offer)
    requires ValidOffer(a) && ValidOffer(b) && ValidOffer(c)
    requires !Cheaper(a, b) && !Cheaper(b, c)
    ensures !Cheaper(a, c)
  {
  }

  function InCurrency(offers: seq<Offer>, c: string): (r: seq<Offer>)
    ensures forall o :: o in r <==> o in offers && Currency(o.currency) == c
  {
    if offers == [] then []
    else (if Currency(offers[0].currency) == c then [offers[0]] else []) + InCurrency(offers[1..], c)
  }

  /** The head of the stable sort: the first offer than which none is cheaper. */
  function Cheapest(offers: seq<Offer>): (r: Offer)
    requires offers != [] && forall o <- offers :: ValidOffer(o)
    ensures r in offers && forall o <- offers :: !Cheaper(o, r)
  {
    if |offers| == 1 then offers[0]
    else
      var rest := Cheapest(offers[1..]);
      assert forall o <- offers :: o == offers[0] || o in offers[1..];
      if Cheaper(rest, offers[0]) then rest
      else
        assert forall o <- offers :: !Cheaper(o, offers[0]) by {
          forall o | o in offers ensures !Cheaper(o, offers[0]) {
            if o != offers[0] {
              NotCheaperTrans(o, rest, offers[0]);
            }
          }
        }
        offers[0]
  }

  /** At most one currency among those that are known. */
  predicate SingleCurrency(offers: seq<Offer>) {
    forall i, j :: 0 <= i < |offers| && 0 <= j < |offers|
      && Currency(offers[i].currency) != "" && Currency(offers[j].currency) != ""
      ==> Currency(offers[i].currency) == Currency(offers[j].currency)
  }

  /** `preferred` is a normalised currency or empty. */
  function BestOffer(offers: seq<Offer>, preferred: string): (r: Option<Offer>)
    ensures r.Some? ==> r.value in offers && ValidOffer(r.value)
  {
    var valid := ValidOffers(offers);
    if valid == [] then None
    else if preferred != "" then
      var comparable := InCurrency(valid, preferred);
      if comparable == [] then None else Some(Cheapest(comparable))
    else if !SingleCurrency(valid) then None
    else Some(Cheapest(valid))
  }

  /** The best offer is one that no comparable offer undercuts, and there is one exactly
      when prices can be compared: some valid offer in the preferred currency or, without a
      preference, some valid offer and no two known currencies. */
  lemma BestOfferIsCheapest(offers: seq<Offer>, preferred: string)
    ensures var b := BestOffer(offers, preferred);
            && (b.Some? <==> if preferred != "" then
                               exists o <- offers :: ValidOffer(o) && Currency(o.currency) == preferred
                             else
                               (exists o <- offers :: ValidOffer(o)) && SingleCurrency(ValidOffers(offers)))
            && (b.Some? ==> forall o <- offers :: ValidOffer(o) && (preferred == "" || Currency(o.currency) == preferred)
                              ==> !Cheaper(o, b.value))
            && (b.Some? && preferred != "" ==> Currency(b.value.currency) == preferred)
  {
    var valid := ValidOffers(offers);
    if valid != [] {
      assert valid[0] in offers;
      var comparable := InCurrency(valid, preferred);
      if comparable != [] {
        assert comparable[0] in valid;
      }
    }
  }
}
