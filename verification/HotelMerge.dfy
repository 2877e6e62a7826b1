// Merging the hotel records of several providers: the merge key, the merge of two records
// of one hotel, and the merge of a whole result list.

module HotelMerge {
  import opened OrderedMaps
  import opened Common
  import opened BestPerKey
  import opened OfferMerge

  datatype Confidence = Full | PartialData | OtherData

  datatype Hotel = Hotel(
    sourceProvider: Option<string>,
    sourceHotelId: Option<string>,
    id: Option<string>,
    name: Option<string>,
    address: Option<string>,
    city: Option<string>,
    country: Option<string>,
    latitude: Numeric,
    longitude: Numeric,
    distance: Numeric,
    distanceSource: Option<string>,
    confidence: Confidence,
    offers: seq<Offer>,
    currency: string,
    price: Numeric,
    totalKnownCost: Numeric)

  /** What the host decides: text normalisation, and which of two equally ranked records has
      the smaller metadata key. */
  datatype Host = Host(normal: Normalizer, first: (Hotel, Hotel) -> bool)

  // ---------------------------------------------------------------------------------
  // Merge keys
  // ---------------------------------------------------------------------------------

  /** The signals a merge key is made of. */
  datatype Identity =
    | SourceId(provider: string, hotelId: string)
    | InternalId(id: string)
    | AddressId(name: string, address: string, city: string, country: string)
    | PlaceId(name: string, latitude: string, longitude: string)
    | NoIdentity

  predicate CleanIdentity(id: Identity) {
    match id
    case SourceId(p, i) => BAR !in p && BAR !in i
    case InternalId(i) => BAR !in i
    case AddressId(n, a, c, co) => BAR !in n && BAR !in a && BAR !in c && BAR !in co
    case PlaceId(n, la, lo) => BAR !in n && BAR !in la && BAR !in lo
    case NoIdentity => true
  }

  function RoundCoordinate(n: Numeric): (t: string)
    ensures BAR !in t
  {
    if n.Num? && -180.0 <= n.value <= 180.0 then Fixed(n.value, 4) else ""
  }

  predicate HasSource(h: Host, x: Hotel) {
    Normal(h.normal, x.sourceProvider) != "" && Normal(h.normal, x.sourceHotelId) != ""
  }

  predicate HasAddress(h: Host, x: Hotel) {
    && Normal(h.normal, x.address) != "" && Normal(h.normal, x.city) != ""
    && Normal(h.normal, x.country) != ""
  }

  function IdentityOf(h: Host, x: Hotel): (r: Identity)
    ensures CleanIdentity(r)
  {
    var name := Normal(h.normal, x.name);
    if HasSource(h, x) then SourceId(Normal(h.normal, x.sourceProvider), Normal(h.normal, x.sourceHotelId))
    else if Normal(h.normal, x.id) != "" then InternalId(Normal(h.normal, x.id))
    else if name != "" && HasAddress(h, x) then
      AddressId(name, Normal(h.normal, x.address), Normal(h.normal, x.city), Normal(h.normal, x.country))
    else if name != "" && RoundCoordinate(x.latitude) != "" && RoundCoordinate(x.longitude) != "" then
      PlaceId(name, RoundCoordinate(x.latitude), RoundCoordinate(x.longitude))
    else NoIdentity
  }

  function Parts(id: Identity): seq<string> {
    match id
    case SourceId(p, i) => ["source", p, i]
    case InternalId(i) => ["internal", i]
    case AddressId(n, a, c, co) => ["address", n, a, c, co]
    case PlaceId(n, la, lo) => ["coordinates", n, la, lo]
    case NoIdentity => []
  }

  /** `createHotelMergeKey`. */
  function MergeKey(h: Host, x: Hotel): Option<string> {
    var id := IdentityOf(h, x);
    if id == NoIdentity then None else Some(Join(Parts(id)))
  }

  /** Where a record goes in the map of `mergeProviderHotelResults`. */
  datatype Slot = Keyed(id: Identity) | Unmatched(index: nat)

  function SlotOf(h: Host, x: Hotel, index: nat): Slot {
    var id := IdentityOf(h, x);
    if id == NoIdentity then Unmatched(index) else Keyed(id)
  }

  function SlotParts(s: Slot): seq<string> {
    match s
    case Keyed(id) => Parts(id)
    case Unmatched(i) => ["unmatched", Decimal(i)]
  }

  function SlotText(s: Slot): string {
    Join(SlotParts(s))
  }

  predicate CleanSlot(s: Slot) {
    SlotParts(s) != [] && NoBars(SlotParts(s))
  }

  lemma CleanIdentityIsCleanSlot(id: Identity)
    requires CleanIdentity(id) && id != NoIdentity
    ensures CleanSlot(Keyed(id))
  {
  }

  lemma SlotIsClean(h: Host, x: Hotel, index: nat)
    ensures CleanSlot(SlotOf(h, x, index))
  {
    if IdentityOf(h, x) != NoIdentity {
      CleanIdentityIsCleanSlot(IdentityOf(h, x));
    }
  }

  lemma {:induction false} DecimalInjective(a: nat, b: nat)
    requires Decimal(a) == Decimal(b)
    ensures a == b
    decreases a
  {
    var s, t := Decimal(a), Decimal(b);
    DigitsAreDistinct(a % 10, b % 10);
    assert s[|s| - 1] == DIGITS[a % 10] && t[|t| - 1] == DIGITS[b % 10];
    if a >= 10 && b >= 10 {
      assert Decimal(a / 10) == s[..|s| - 1] && Decimal(b / 10) == t[..|t| - 1];
      DecimalInjective(a / 10, b / 10);
    }
  }

  lemma DigitsAreDistinct(i: nat, j: nat)
    requires i < 10 && j < 10
    ensures DIGITS[i] == DIGITS[j] <==> i == j
  {
  }

  /** Two records share a slot text exactly when they share all the signals of their key:
      the tags and the separator keep every kind of key apart, and records without identity
      apart from everything. */
  lemma SlotTextsAreExact(a: Slot, b: Slot)
    requires CleanSlot(a) && CleanSlot(b)
    ensures SlotText(a) == SlotText(b) <==> a == b
  {
    if SlotText(a) == SlotText(b) {
      JoinInjective(SlotParts(a), SlotParts(b));
      assert SlotParts(a)[0] == SlotParts(b)[0];
      assert SlotParts(a)[1] == SlotParts(b)[1];
      if a.Unmatched? && b.Unmatched? {
        DecimalInjective(a.index, b.index);
      } else if a.Keyed? && b.Keyed? {
        SamePartsSameIdentity(a.id, b.id);
      }
    }
  }

  lemma SamePartsSameIdentity(a: Identity, b: Identity)
    requires Parts(a) == Parts(b)
    ensures a == b
  {
    if a != NoIdentity && b != NoIdentity {
      var s, t := Parts(a), Parts(b);
      assert s[0] == t[0] && s[1] == t[1];
      if |s| > 2 { assert s[2] == t[2]; }
      if |s| > 3 { assert s[3] == t[3]; }
      if |s| > 4 { assert s[4] == t[4]; }
    }
  }

  // ---------------------------------------------------------------------------------
  // Merging two records
  // ---------------------------------------------------------------------------------

  function Rank(c: Confidence): nat {
    match c case Full => 3 case PartialData => 2 case OtherData => 1
  }

  predicate ValidLatitude(n: Numeric) { n.Num? && -90.0 <= n.value <= 90.0 }
  predicate ValidLongitude(n: Numeric) { n.Num? && -180.0 <= n.value <= 180.0 }
  predicate ValidDistance(n: Numeric) { n.Num? && n.value >= 0.0 }
  predicate ValidPair(x: Hotel) { ValidLatitude(x.latitude) && ValidLongitude(x.longitude) }

  function LocationRank(x: Hotel): (r: seq<nat>)
    ensures |r| == 7
  {
    [if ValidPair(x) then 1 else 0,
     if ValidDistance(x.distance) && x.distanceSource == Some("calculated") then 1 else 0,
     if ValidDistance(x.distance) then 1 else 0,
     Truthy(x.address), Truthy(x.city), Truthy(x.country), Rank(x.confidence)]
  }

  /** `compareRankVectors`: the sign of the first difference. */
  function Compare(a: seq<nat>, b: seq<nat>): int
    requires |a| == |b|
  {
    if a == [] then 0
    else if a[0] > b[0] then 1
    else if a[0] < b[0] then -1
    else Compare(a[1..], b[1..])
  }

  function LocationHotel(h: Host, a: Hotel, b: Hotel): Hotel {
    var c := Compare(LocationRank(a), LocationRank(b));
    if c > 0 then a else if c < 0 then b else if h.first(a, b) then a else b
  }

  function Prefer(a: Option<string>, b: Option<string>): Option<string> {
    if a.Some? && a.value != "" then a else b
  }

  function PreferredCurrency(a: Hotel, b: Hotel): string {
    if Currency(a.currency) != "" then Currency(a.currency)
    else if Currency(b.currency) != "" then Currency(b.currency)
    else
      var va, vb := ValidOffers(a.offers), ValidOffers(b.offers);
      if va != [] && Currency(va[0].currency) != "" then Currency(va[0].currency)
      else if vb != [] then Currency(vb[0].currency)
      else ""
  }

  function MergedOfferList(h: Host, a: Hotel, b: Hotel): seq<Offer> {
    MergeOffers(h.normal, ValidOffers(a.offers), ValidOffers(b.offers))
  }

  function Merge(h: Host, a: Hotel, b: Hotel): Hotel {
    var offers := MergedOfferList(h, a, b);
    var best := BestOffer(offers, PreferredCurrency(a, b));
    var place := LocationHotel(h, a, b);
    var near := ValidDistance(place.distance);
    a.(name := Prefer(a.name, b.name),
       address := place.address,
       city := place.city,
       country := place.country,
       latitude := if ValidLatitude(place.latitude) then place.latitude else Null,
       longitude := if ValidLongitude(place.longitude) then place.longitude else Null,
       distance := if near then place.distance else Null,
       distanceSource := if near then place.distanceSource else None,
       confidence := if Rank(b.confidence) > Rank(a.confidence) then b.confidence else a.confidence,
       offers := offers,
       currency := if best.Some? then best.value.currency else a.currency,
       price := if best.Some? then best.value.price else a.price,
       totalKnownCost := if best.Some? then best.value.totalKnownCost else a.totalKnownCost)
  }

  /** A record that a group with this identity may hold: one with the identity, or one whose
      coordinates were dropped from a coordinate identity. */
  predicate Belongs(h: Host, x: Hotel, id: Identity) {
    || IdentityOf(h, x) == id
    || (id.PlaceId? && Faded(h, x, id.name, id.latitude, id.longitude))
  }

  predicate Faded(h: Host, x: Hotel, name: string, latitude: string, longitude: string) {
    && !HasSource(h, x)
    && Normal(h.normal, x.id) == ""
    && Normal(h.normal, x.name) == name
    && !HasAddress(h, x)
    && RoundCoordinate(x.latitude) in {"", latitude}
    && RoundCoordinate(x.longitude) in {"", longitude}
  }

  lemma BelongsKey(h: Host, x: Hotel, id: Identity)
    requires Belongs(h, x, id)
    ensures IdentityOf(h, x) == id || IdentityOf(h, x) == NoIdentity
    ensures !id.PlaceId? ==> IdentityOf(h, x) == id
  {
  }

  lemma PreferredName(h: Host, a: Hotel, b: Hotel)
    requires Normal(h.normal, a.name) != ""
    ensures Prefer(a.name, b.name) == a.name
  {
  }

  lemma PlaceBelongs(h: Host, x: Hotel)
    requires IdentityOf(h, x).PlaceId?
    ensures var id := IdentityOf(h, x); Faded(h, x, id.name, id.latitude, id.longitude) && id.name != ""
  {
  }

  lemma AddressBelongs(h: Host, x: Hotel)
    requires IdentityOf(h, x).AddressId?
    ensures var id := IdentityOf(h, x);
            && !HasSource(h, x) && Normal(h.normal, x.id) == "" && HasAddress(h, x)
            && id == AddressId(Normal(h.normal, x.name), Normal(h.normal, x.address),
                               Normal(h.normal, x.city), Normal(h.normal, x.country))
            && id.name != ""
  {
  }

  lemma MergeKeepsPlace(h: Host, a: Hotel, b: Hotel, name: string, latitude: string, longitude: string)
    requires name != ""
    requires Faded(h, a, name, latitude, longitude) && Faded(h, b, name, latitude, longitude)
    ensures Faded(h, Merge(h, a, b), name, latitude, longitude)
  {
    var place := LocationHotel(h, a, b);
    assert place == a || place == b;
    PreferredName(h, a, b);
  }

  lemma MergeKeepsAddress(h: Host, a: Hotel, b: Hotel)
    requires IdentityOf(h, a).AddressId? && IdentityOf(h, b) == IdentityOf(h, a)
    ensures IdentityOf(h, Merge(h, a, b)) == IdentityOf(h, a)
  {
    AddressBelongs(h, a);
    AddressBelongs(h, b);
    PreferredName(h, a, b);
    var place := LocationHotel(h, a, b);
    assert place == a || place == b;
  }

  lemma MergeKeepsIds(h: Host, a: Hotel, b: Hotel)
    requires IdentityOf(h, a).SourceId? || IdentityOf(h, a).InternalId?
    ensures IdentityOf(h, Merge(h, a, b)) == IdentityOf(h, a)
  {
    SameIdsSameIdentity(h, a, Merge(h, a, b));
  }

  lemma SameIdsSameIdentity(h: Host, a: Hotel, m: Hotel)
    requires IdentityOf(h, a).SourceId? || IdentityOf(h, a).InternalId?
    requires m.sourceProvider == a.sourceProvider && m.sourceHotelId == a.sourceHotelId && m.id == a.id
    ensures IdentityOf(h, m) == IdentityOf(h, a)
  {
  }

  lemma MergePlaceInGroup(h: Host, a: Hotel, b: Hotel, id: Identity)
    requires id.PlaceId? && Belongs(h, a, id) && IdentityOf(h, b) == id
    ensures Belongs(h, Merge(h, a, b), id)
  {
    PlaceBelongs(h, b);
    if IdentityOf(h, a) == id {
      PlaceBelongs(h, a);
    }
    MergeKeepsPlace(h, a, b, id.name, id.latitude, id.longitude);
  }

  /** Merging a record into its group leaves a record of that group. */
  lemma MergeStaysInGroup(h: Host, a: Hotel, b: Hotel, id: Identity)
    requires id != NoIdentity && Belongs(h, a, id) && IdentityOf(h, b) == id
    ensures Belongs(h, Merge(h, a, b), id)
  {
    match id
    case PlaceId(_, _, _) => MergePlaceInGroup(h, a, b, id);
    case AddressId(_, _, _, _) => MergeKeepsAddress(h, a, b);
    case _ => MergeKeepsIds(h, a, b);
  }

  /** Merging two records of one identity keeps it, except that a coordinate identity is
      lost exactly when the chosen location has a latitude beyond the poles, which the key
      admits and the merged record does not. */
  lemma MergeKeepsKeyIff(h: Host, a: Hotel, b: Hotel)
    requires IdentityOf(h, a) != NoIdentity && IdentityOf(h, b) == IdentityOf(h, a)
    ensures IdentityOf(h, Merge(h, a, b)) ==
              if IdentityOf(h, a).PlaceId? && !ValidLatitude(LocationHotel(h, a, b).latitude) then NoIdentity
              else IdentityOf(h, a)
  {
    var id := IdentityOf(h, a);
    if id.PlaceId? {
      PlaceBelongs(h, a);
      PlaceBelongs(h, b);
      MergeKeepsPlace(h, a, b, id.name, id.latitude, id.longitude);
      CoordinatesAfterMerge(h, a, b);
      FadedIdentity(h, Merge(h, a, b), id.name, id.latitude, id.longitude);
      LocatedCoordinates(h, a, b);
    } else {
      MergeStaysInGroup(h, a, b, id);
      BelongsKey(h, Merge(h, a, b), id);
    }
  }

  lemma LocatedCoordinates(h: Host, a: Hotel, b: Hotel)
    requires IdentityOf(h, a).PlaceId? && IdentityOf(h, b) == IdentityOf(h, a)
    ensures var id, place := IdentityOf(h, a), LocationHotel(h, a, b);
            && RoundCoordinate(place.latitude) == id.latitude != ""
            && RoundCoordinate(place.longitude) == id.longitude != ""
            && ValidLongitude(place.longitude)
  {
    var place := LocationHotel(h, a, b);
    assert place == a || place == b;
  }

  /** What a merge keeps of a located record's coordinates. */
  lemma CoordinatesAfterMerge(h: Host, a: Hotel, b: Hotel)
    ensures var m, place := Merge(h, a, b), LocationHotel(h, a, b);
            && (ValidLatitude(place.latitude) ==> m.latitude == place.latitude)
            && (!ValidLatitude(place.latitude) ==> m.latitude == Null)
            && (ValidLongitude(place.longitude) ==> m.longitude == place.longitude)
  {
  }

  lemma FadedIdentity(h: Host, x: Hotel, name: string, latitude: string, longitude: string)
    requires Faded(h, x, name, latitude, longitude) && name != ""
    ensures IdentityOf(h, x) ==
              if RoundCoordinate(x.latitude) != "" && RoundCoordinate(x.longitude) != "" then
                PlaceId(name, RoundCoordinate(x.latitude), RoundCoordinate(x.longitude))
              else NoIdentity
  {
  }

  lemma {:induction false} CompareFirst(a: seq<nat>, b: seq<nat>)
    requires |a| == |b| > 0
    ensures a[0] > b[0] ==> Compare(a, b) > 0
    ensures a[0] < b[0] ==> Compare(a, b) < 0
  {
  }

  /** A merged record has coordinates whenever one of the two had them, and it takes them,
      the address and the distance from one and the same record, than which neither ranks
      higher. */
  lemma MergedLocation(h: Host, a: Hotel, b: Hotel)
    ensures var m, place := Merge(h, a, b), LocationHotel(h, a, b);
            && (place == a || place == b)
            && (ValidPair(m) <==> ValidPair(a) || ValidPair(b))
            && m.address == place.address && m.city == place.city && m.country == place.country
            && (ValidPair(m) ==> m.latitude == place.latitude && m.longitude == place.longitude)
            && (ValidDistance(place.distance) ==>
                  m.distance == place.distance && m.distanceSource == place.distanceSource)
            && (!ValidDistance(place.distance) ==> !ValidDistance(m.distance) && m.distanceSource.None?)
            && Compare(LocationRank(place), LocationRank(a)) >= 0
            && Compare(LocationRank(place), LocationRank(b)) >= 0
  {
    CompareFirst(LocationRank(a), LocationRank(b));
    CompareIsAntisymmetric(LocationRank(a), LocationRank(b));
    CompareIsAntisymmetric(LocationRank(a), LocationRank(a));
    CompareIsAntisymmetric(LocationRank(b), LocationRank(b));
  }

  lemma {:induction false} CompareIsAntisymmetric(a: seq<nat>, b: seq<nat>)
    requires |a| == |b|
    ensures Compare(a, b) == -Compare(b, a)
    decreases |a|
  {
    if a != [] {
      CompareIsAntisymmetric(a[1..], b[1..]);
    }
  }

  // ---------------------------------------------------------------------------------
  // Offers of merged records
  // ---------------------------------------------------------------------------------

  /** The record has a valid offer with o's key that is at least as complete. */
  ghost predicate Carries(h: Host, o: Offer, x: Hotel) {
    Represented(KeyBy(h.normal), ByCompleteness(), o, ValidOffers(x.offers))
  }

  lemma {:induction false} AllValid(offers: seq<Offer>)
    requires forall o <- offers :: ValidOffer(o)
    ensures ValidOffers(offers) == offers
    decreases |offers|
  {
    if offers != [] {
      AllValid(offers[1..]);
    }
  }

  /** Every offer of the merged list is a valid offer of one of the two records. */
  lemma MergedOffersAreInputs(h: Host, a: Hotel, b: Hotel)
    ensures forall o <- MergedOfferList(h, a, b) :: ValidOffer(o) && (o in a.offers || o in b.offers)
  {
    var va, vb := ValidOffers(a.offers), ValidOffers(b.offers);
    MergedOffers(h.normal, va, vb);
    var r := MergedOfferList(h, a, b);
    forall i | 0 <= i < |r| ensures ValidOffer(r[i]) && (r[i] in a.offers || r[i] in b.offers) {
      assert IsBest(KeyBy(h.normal), ByCompleteness(), va + vb, r[i]);
      assert r[i] in va || r[i] in vb;
    }
  }

  lemma MergeCarries(h: Host, a: Hotel, b: Hotel, o: Offer)
    requires Carries(h, o, a) || (ValidOffer(o) && o in b.offers)
    ensures Carries(h, o, Merge(h, a, b))
  {
    var va, vb := ValidOffers(a.offers), ValidOffers(b.offers);
    var r := MergedOfferList(h, a, b);
    MergedOffers(h.normal, va, vb);
    MergedOffersAreInputs(h, a, b);
    AllValid(r);
    BestRepresents(KeyBy(h.normal), ByCompleteness(), va, vb, r, o);
  }

  /** The price of a merged record is that of a merged offer which no offer of the
      preferred currency undercuts; without a comparable offer it stays the first record's. */
  lemma MergedPrice(h: Host, a: Hotel, b: Hotel)
    ensures var m := Merge(h, a, b);
            var best := BestOffer(m.offers, PreferredCurrency(a, b));
            if best.None? then
              m.price == a.price && m.currency == a.currency && m.totalKnownCost == a.totalKnownCost
            else
              && best.value in m.offers && m.price == best.value.price && m.currency == best.value.currency
              && m.totalKnownCost == best.value.totalKnownCost
              && forall o <- m.offers :: ValidOffer(o)
                   && (Currency(o.currency) == Currency(m.currency) || PreferredCurrency(a, b) == "")
                   ==> !Cheaper(o, best.value)
  {
    BestOfferIsCheapest(Merge(h, a, b).offers, PreferredCurrency(a, b));
  }
}
