// Merging a whole result list: records are gathered by slot in order of first appearance.

module HotelResults {
  import opened OrderedMaps
  import opened Common
  import opened BestPerKey
  import opened OfferMerge
  import opened HotelMerge

  type Groups = seq<Entry<Slot, Hotel>>

  /** Entries that are no objects are skipped. */
  function AddHotel(h: Host, m: Groups, entry: Option<Hotel>, index: nat): Groups {
    if entry.None? then m
    else
      var slot := SlotOf(h, entry.value, index);
      Put(m, slot, if Has(m, slot) then Merge(h, Get(m, slot), entry.value) else entry.value)
  }

  function Group(h: Host, hotels: seq<Option<Hotel>>): Groups {
    if hotels == [] then []
    else
      var n := |hotels| - 1;
      AddHotel(h, Group(h, hotels[..n]), hotels[n], n)
  }

  /** `mergeProviderHotelResults`. */
  function MergeResults(h: Host, hotels: seq<Option<Hotel>>): seq<Hotel> {
    Values(Group(h, hotels))
  }

  // ---------------------------------------------------------------------------------
  // The loop, whose map has the slot texts as keys
  // ---------------------------------------------------------------------------------

  ghost predicate SameGroups(texts: seq<Entry<string, Hotel>>, m: Groups) {
    && |texts| == |m|
    && (forall i :: 0 <= i < |m| ==> CleanSlot(m[i].key))
    && (forall i :: 0 <= i < |m| ==> texts[i].key == SlotText(m[i].key))
    && (forall i :: 0 <= i < |m| ==> texts[i].value == m[i].value)
  }

  lemma SameFind(texts: seq<Entry<string, Hotel>>, m: Groups, s: Slot)
    requires SameGroups(texts, m) && CleanSlot(s)
    ensures Find(texts, SlotText(s)) == Find(m, s)
  {
    var i, j := Find(texts, SlotText(s)), Find(m, s);
    if i < |m| {
      SlotTextsAreExact(m[i].key, s);
    }
    if j < |m| {
      SlotTextsAreExact(m[j].key, s);
    }
  }

  lemma SamePut(texts: seq<Entry<string, Hotel>>, m: Groups, s: Slot, v: Hotel)
    requires SameGroups(texts, m) && CleanSlot(s)
    ensures SameGroups(Put(texts, SlotText(s), v), Put(m, s, v))
    ensures Has(texts, SlotText(s)) == Has(m, s)
    ensures Has(m, s) ==> Get(texts, SlotText(s)) == Get(m, s)
  {
    SameFind(texts, m, s);
    SameSet(texts, m, SlotText(s), s, v, Find(m, s));
  }

  lemma SameSet(texts: seq<Entry<string, Hotel>>, m: Groups, text: string, s: Slot, v: Hotel, i: nat)
    requires SameGroups(texts, m) && CleanSlot(s) && text == SlotText(s) && i <= |m|
    ensures i < |m| ==> SameGroups(texts[i := Entry(text, v)], m[i := Entry(s, v)])
    ensures i == |m| ==> SameGroups(texts + [Entry(text, v)], m + [Entry(s, v)])
  {
  }

  lemma SameAdd(h: Host, texts: seq<Entry<string, Hotel>>, m: Groups, x: Hotel, index: nat)
    requires SameGroups(texts, m)
    ensures var key := SlotText(SlotOf(h, x, index));
            SameGroups(Put(texts, key, if Has(texts, key) then Merge(h, Get(texts, key), x) else x),
                       AddHotel(h, m, Some(x), index))
  {
    var s := SlotOf(h, x, index);
    SlotIsClean(h, x, index);
    SamePut(texts, m, s, if Has(m, s) then Merge(h, Get(m, s), x) else x);
  }

  lemma GroupNext(h: Host, hotels: seq<Option<Hotel>>, index: nat)
    requires index < |hotels|
    ensures Group(h, hotels[..index + 1]) == AddHotel(h, Group(h, hotels[..index]), hotels[index], index)
  {
    assert hotels[..index + 1][..index] == hotels[..index];
  }

  lemma SameValues(texts: seq<Entry<string, Hotel>>, m: Groups)
    requires SameGroups(texts, m)
    ensures Values(texts) == Values(m)
  {
  }

  method MergeProviderHotelResults(h: Host, hotels: seq<Option<Hotel>>) returns (merged: seq<Hotel>)
    ensures merged == MergeResults(h, hotels)
  {
    var hotelMap: seq<Entry<string, Hotel>> := [];
    ghost var m: Groups := [];
    for index := 0 to |hotels|
      invariant m == Group(h, hotels[..index])
      invariant SameGroups(hotelMap, m)
    {
      GroupNext(h, hotels, index);
      if hotels[index].Some? {
        var hotel := hotels[index].value;
        SameAdd(h, hotelMap, m, hotel, index);
        var mergeKey := match MergeKey(h, hotel) case Some(k) => k case None => Join(["unmatched", Decimal(index)]);
        assert mergeKey == SlotText(SlotOf(h, hotel, index));
        hotelMap := Put(hotelMap, mergeKey,
                        if Has(hotelMap, mergeKey) then Merge(h, Get(hotelMap, mergeKey), hotel) else hotel);
      }
      m := AddHotel(h, m, hotels[index], index);
    }
    assert hotels[..|hotels|] == hotels;
    SameValues(hotelMap, m);
    return Values(hotelMap);
  }

  // ---------------------------------------------------------------------------------
  // What the groups hold
  // ---------------------------------------------------------------------------------

  /** The record of a slot is of the slot's group, or the one record without identity. */
  predicate Fits(h: Host, s: Slot, x: Hotel, hotels: seq<Option<Hotel>>) {
    match s
    case Keyed(id) => id != NoIdentity && Belongs(h, x, id)
    case Unmatched(i) => i < |hotels| && hotels[i] == Some(x) && IdentityOf(h, x) == NoIdentity
  }

  ghost predicate Grouped(h: Host, hotels: seq<Option<Hotel>>, m: Groups) {
    && Distinct(m)
    && (forall k :: 0 <= k < |m| ==> Fits(h, m[k].key, m[k].value, hotels))
    && (forall i :: 0 <= i < |hotels| && hotels[i].Some? ==> Has(m, SlotOf(h, hotels[i].value, i)))
  }

  lemma FitsMore(h: Host, s: Slot, x: Hotel, hotels: seq<Option<Hotel>>, entry: Option<Hotel>)
    requires Fits(h, s, x, hotels)
    ensures Fits(h, s, x, hotels + [entry])
  {
  }

  /** The record that an entry leaves in its slot. */
  lemma AddedFits(h: Host, hotels: seq<Option<Hotel>>, m: Groups, x: Hotel)
    requires Grouped(h, hotels, m)
    ensures var s := SlotOf(h, x, |hotels|);
            && Fits(h, s, if Has(m, s) then Merge(h, Get(m, s), x) else x, hotels + [Some(x)])
            && (s.Unmatched? ==> !Has(m, s))
  {
    var s := SlotOf(h, x, |hotels|);
    if Has(m, s) {
      var k := Find(m, s);
      assert Fits(h, m[k].key, m[k].value, hotels);
      if s.Keyed? {
        MergeStaysInGroup(h, Get(m, s), x, s.id);
      }
    } else if s.Unmatched? {
      assert (hotels + [Some(x)])[|hotels|] == Some(x);
    }
  }

  lemma AddGroups(h: Host, hotels: seq<Option<Hotel>>, m: Groups, entry: Option<Hotel>)
    requires Grouped(h, hotels, m)
    ensures Grouped(h, hotels + [entry], AddHotel(h, m, entry, |hotels|))
  {
    var more := hotels + [entry];
    var m' := AddHotel(h, m, entry, |hotels|);
    if entry.Some? {
      var x := entry.value;
      var s := SlotOf(h, x, |hotels|);
      AddedFits(h, hotels, m, x);
      var v := if Has(m, s) then Merge(h, Get(m, s), x) else x;
      PutEffect(m, s, v);
      forall k | 0 <= k < |m'| ensures Fits(h, m'[k].key, m'[k].value, more) {
        if k != Find(m, s) {
          assert m'[k] == m[k];
          FitsMore(h, m[k].key, m[k].value, hotels, entry);
        }
      }
      forall i | 0 <= i < |more| && more[i].Some? ensures Has(m', SlotOf(h, more[i].value, i)) {
        if i < |hotels| {
          assert Has(m, SlotOf(h, hotels[i].value, i));
        }
      }
    } else {
      forall k | 0 <= k < |m| ensures Fits(h, m[k].key, m[k].value, more) {
        FitsMore(h, m[k].key, m[k].value, hotels, entry);
      }
    }
  }

  lemma {:induction false} GroupGroups(h: Host, hotels: seq<Option<Hotel>>)
    ensures Grouped(h, hotels, Group(h, hotels))
    decreases |hotels|
  {
    if hotels != [] {
      var n := |hotels| - 1;
      GroupGroups(h, hotels[..n]);
      AddGroups(h, hotels[..n], Group(h, hotels[..n]), hotels[n]);
      assert hotels == hotels[..n] + [hotels[n]];
    }
  }

  // ---------------------------------------------------------------------------------
  // Main results
  // ---------------------------------------------------------------------------------

  /** Two records of the result never share a merge key. */
  lemma MergedKeysAreDistinct(h: Host, hotels: seq<Option<Hotel>>, i: nat, j: nat)
    requires i < j < |MergeResults(h, hotels)|
    ensures var r := MergeResults(h, hotels);
            MergeKey(h, r[i]).None? || MergeKey(h, r[i]) != MergeKey(h, r[j])
  {
    GroupGroups(h, hotels);
    var m := Group(h, hotels);
    IdentitiesAreDistinct(h, hotels, m, i, j);
    var a, b := m[i].value, m[j].value;
    if IdentityOf(h, a) != NoIdentity && IdentityOf(h, b) != NoIdentity {
      SlotIsClean(h, a, 0);
      SlotIsClean(h, b, 0);
      SlotTextsAreExact(Keyed(IdentityOf(h, a)), Keyed(IdentityOf(h, b)));
    }
  }

  lemma FitsIdentity(h: Host, s: Slot, x: Hotel, hotels: seq<Option<Hotel>>)
    requires Fits(h, s, x, hotels)
    ensures IdentityOf(h, x) == NoIdentity || s == Keyed(IdentityOf(h, x))
  {
    if s.Keyed? {
      BelongsKey(h, x, s.id);
    }
  }

  lemma IdentitiesAreDistinct(h: Host, hotels: seq<Option<Hotel>>, m: Groups, i: nat, j: nat)
    requires Grouped(h, hotels, m) && i < j < |m|
    ensures IdentityOf(h, m[i].value) == NoIdentity
            || IdentityOf(h, m[i].value) != IdentityOf(h, m[j].value)
  {
    FitsIdentity(h, m[i].key, m[i].value, hotels);
    FitsIdentity(h, m[j].key, m[j].value, hotels);
  }

  /** The place of a record's group in the result. */
  function PlaceOfGroup(h: Host, hotels: seq<Option<Hotel>>, i: nat): nat
    requires i < |hotels| && hotels[i].Some?
  {
    Find(Group(h, hotels), SlotOf(h, hotels[i].value, i))
  }

  /** No record is lost: each has a group in the result, records share a group exactly when
      they share a merge key, the group's record keeps that key or has none, and a record
      without a key is passed through unchanged. */
  lemma NoGroupIsLost(h: Host, hotels: seq<Option<Hotel>>, i: nat)
    requires i < |hotels| && hotels[i].Some?
    ensures var r, p := MergeResults(h, hotels), PlaceOfGroup(h, hotels, i);
            && p < |r|
            && MergeKey(h, r[p]) in {MergeKey(h, hotels[i].value), None}
            && (MergeKey(h, hotels[i].value).None? ==> r[p] == hotels[i].value)
  {
    GroupGroups(h, hotels);
    var m := Group(h, hotels);
    var x := hotels[i].value;
    var s := SlotOf(h, x, i);
    assert Has(m, s);
    var p := Find(m, s);
    assert Fits(h, m[p].key, m[p].value, hotels);
    if s.Keyed? {
      BelongsKey(h, m[p].value, s.id);
    }
  }

  lemma GroupsAreByKey(h: Host, hotels: seq<Option<Hotel>>, i: nat, j: nat)
    requires i < j < |hotels| && hotels[i].Some? && hotels[j].Some?
    ensures PlaceOfGroup(h, hotels, i) == PlaceOfGroup(h, hotels, j) <==>
            MergeKey(h, hotels[i].value).Some? && MergeKey(h, hotels[i].value) == MergeKey(h, hotels[j].value)
  {
    GroupGroups(h, hotels);
    var m := Group(h, hotels);
    var a, b := SlotOf(h, hotels[i].value, i), SlotOf(h, hotels[j].value, j);
    assert Has(m, a) && Has(m, b);
    SlotIsClean(h, hotels[i].value, i);
    SlotIsClean(h, hotels[j].value, j);
    SlotTextsAreExact(a, b);
  }

  // Offers

  ghost predicate OffersKept(h: Host, hotels: seq<Option<Hotel>>, m: Groups) {
    forall i :: 0 <= i < |hotels| && hotels[i].Some? ==>
      KeptIn(h, hotels[i].value, m, SlotOf(h, hotels[i].value, i))
  }

  ghost predicate KeptIn(h: Host, x: Hotel, m: Groups, s: Slot) {
    Has(m, s) && forall o <- x.offers :: ValidOffer(o) ==> Carries(h, o, Get(m, s))
  }

  lemma AddKeepsOffers(h: Host, hotels: seq<Option<Hotel>>, m: Groups, x: Hotel)
    requires Distinct(m) && OffersKept(h, hotels, m)
    ensures OffersKept(h, hotels + [Some(x)], AddHotel(h, m, Some(x), |hotels|))
  {
    var more := hotels + [Some(x)];
    var m' := AddHotel(h, m, Some(x), |hotels|);
    var s := SlotOf(h, x, |hotels|);
    forall i | 0 <= i < |more| && more[i].Some? ensures KeptIn(h, more[i].value, m', SlotOf(h, more[i].value, i)) {
      if i < |hotels| {
        assert more[i] == hotels[i];
        KeptAfterAdd(h, hotels[i].value, m, SlotOf(h, hotels[i].value, i), x, s);
      } else {
        AddedIsKept(h, m, x, s);
      }
    }
  }

  lemma AddedIsKept(h: Host, m: Groups, x: Hotel, s: Slot)
    requires Distinct(m)
    ensures KeptIn(h, x, Put(m, s, if Has(m, s) then Merge(h, Get(m, s), x) else x), s)
  {
    var v := if Has(m, s) then Merge(h, Get(m, s), x) else x;
    PutEffect(m, s, v);
    forall o | o in x.offers && ValidOffer(o) ensures Carries(h, o, v) {
      if Has(m, s) {
        MergeCarries(h, Get(m, s), x, o);
      } else {
        MemberIsRepresented(KeyBy(h.normal), ByCompleteness(), o, ValidOffers(x.offers));
      }
    }
  }

  lemma KeptAfterAdd(h: Host, y: Hotel, m: Groups, t: Slot, x: Hotel, s: Slot)
    requires Distinct(m) && KeptIn(h, y, m, t)
    ensures KeptIn(h, y, Put(m, s, if Has(m, s) then Merge(h, Get(m, s), x) else x), t)
  {
    var v := if Has(m, s) then Merge(h, Get(m, s), x) else x;
    PutEffect(m, s, v);
    if t == s {
      forall o | o in y.offers && ValidOffer(o) ensures Carries(h, o, v) {
        MergeCarries(h, Get(m, s), x, o);
      }
    }
  }

  lemma {:induction false} GroupKeepsOffers(h: Host, hotels: seq<Option<Hotel>>)
    ensures OffersKept(h, hotels, Group(h, hotels))
    decreases |hotels|
  {
    if hotels != [] {
      var n := |hotels| - 1;
      GroupKeepsOffers(h, hotels[..n]);
      GroupGroups(h, hotels[..n]);
      assert hotels == hotels[..n] + [hotels[n]];
      if hotels[n].Some? {
        AddKeepsOffers(h, hotels[..n], Group(h, hotels[..n]), hotels[n].value);
      }
    }
  }

  /** The list has a valid offer with o's key that is at least as complete. */
  ghost predicate StandsIn(key: Offer -> string, o: Offer, offers: seq<Offer>) {
    exists w <- offers :: ValidOffer(w) && key(w) == key(o) && Completeness(w) >= Completeness(o)
  }

  lemma RepresentedStandsIn(key: Offer -> string, o: Offer, offers: seq<Offer>)
    requires Represented(key, ByCompleteness(), o, ValidOffers(offers))
    ensures StandsIn(key, o, offers)
  {
    var w := Representative(key, ByCompleteness(), o, ValidOffers(offers));
  }

  /** Every offer with a positive price is represented in the record of its hotel's group by
      an offer with the same key, a positive price and at least its completeness. */
  lemma OffersAreRepresented(h: Host, hotels: seq<Option<Hotel>>, i: nat, o: Offer)
    requires i < |hotels| && hotels[i].Some? && o in hotels[i].value.offers && ValidOffer(o)
    ensures var r, p := MergeResults(h, hotels), PlaceOfGroup(h, hotels, i);
            p < |r| && StandsIn(KeyBy(h.normal), o, r[p].offers)
  {
    GroupKeepsOffers(h, hotels);
    var m := Group(h, hotels);
    var s := SlotOf(h, hotels[i].value, i);
    assert KeptIn(h, hotels[i].value, m, s);
    RepresentedStandsIn(KeyBy(h.normal), o, Get(m, s).offers);
  }

  /** The offer was reported for some record of the list. */
  ghost predicate Reported(hotels: seq<Option<Hotel>>, o: Offer) {
    exists i :: 0 <= i < |hotels| && hotels[i].Some? && o in hotels[i].value.offers
  }

  ghost predicate AllReported(hotels: seq<Option<Hotel>>, m: Groups) {
    forall k :: 0 <= k < |m| ==> forall o <- m[k].value.offers :: Reported(hotels, o)
  }

  lemma ReportedMore(hotels: seq<Option<Hotel>>, entry: Option<Hotel>, o: Offer)
    requires Reported(hotels, o) || (entry.Some? && o in entry.value.offers)
    ensures Reported(hotels + [entry], o)
  {
    var more := hotels + [entry];
    if Reported(hotels, o) {
      var i :| 0 <= i < |hotels| && hotels[i].Some? && o in hotels[i].value.offers;
      assert more[i] == hotels[i];
    } else {
      assert more[|hotels|] == entry;
    }
  }

  /** No offer of the result is invented. */
  lemma {:induction false} NoOfferIsInvented(h: Host, hotels: seq<Option<Hotel>>)
    ensures AllReported(hotels, Group(h, hotels))
    decreases |hotels|
  {
    if hotels != [] {
      var n := |hotels| - 1;
      var m := Group(h, hotels[..n]);
      NoOfferIsInvented(h, hotels[..n]);
      assert hotels == hotels[..n] + [hotels[n]];
      var m' := Group(h, hotels);
      forall k, o | 0 <= k < |m'| && o in m'[k].value.offers ensures Reported(hotels, o) {
        AddedOffer(h, hotels[..n], m, hotels[n], k, o);
      }
    }
  }

  lemma AddedOffer(h: Host, hotels: seq<Option<Hotel>>, m: Groups, entry: Option<Hotel>, k: nat, o: Offer)
    requires AllReported(hotels, m)
    requires k < |AddHotel(h, m, entry, |hotels|)| && o in AddHotel(h, m, entry, |hotels|)[k].value.offers
    ensures Reported(hotels + [entry], o)
  {
    var m' := AddHotel(h, m, entry, |hotels|);
    if entry.Some? && k == Find(m, SlotOf(h, entry.value, |hotels|)) {
      if k < |m| {
        MergedOffersAreInputs(h, m[k].value, entry.value);
        if o !in entry.value.offers {
          assert o in m[k].value.offers;
        }
      }
    } else {
      assert m'[k] == m[k];
    }
    ReportedMore(hotels, entry, o);
  }

  // Idempotence

  function Entries(hotels: seq<Hotel>): (r: seq<Option<Hotel>>)
    ensures |r| == |hotels| && forall i :: 0 <= i < |r| ==> r[i] == Some(hotels[i])
  {
    seq(|hotels|, i requires 0 <= i < |hotels| => Some(hotels[i]))
  }

  ghost predicate Separate(h: Host, hotels: seq<Hotel>) {
    forall i, j :: 0 <= i < j < |hotels| ==>
      IdentityOf(h, hotels[i]) == NoIdentity || IdentityOf(h, hotels[i]) != IdentityOf(h, hotels[j])
  }

  function Alone(h: Host, hotels: seq<Hotel>): (m: Groups)
    ensures |m| == |hotels|
    ensures forall i :: 0 <= i < |m| ==> m[i] == Entry(SlotOf(h, hotels[i], i), hotels[i])
  {
    seq(|hotels|, i requires 0 <= i < |hotels| => Entry(SlotOf(h, hotels[i], i), hotels[i]))
  }

  lemma AloneAppend(h: Host, hotels: seq<Hotel>)
    requires hotels != [] && Separate(h, hotels)
    ensures var n := |hotels| - 1;
            AddHotel(h, Alone(h, hotels[..n]), Some(hotels[n]), n) == Alone(h, hotels)
  {
    var n := |hotels| - 1;
    var m := Alone(h, hotels[..n]);
    forall i | 0 <= i < n ensures m[i].key != SlotOf(h, hotels[n], n) {
      SlotsDiffer(h, hotels[i], hotels[n], i, n);
    }
    AddFresh(h, m, hotels[n], n);
  }

  lemma GroupAppend(h: Host, entries: seq<Option<Hotel>>, entry: Option<Hotel>)
    ensures Group(h, entries + [entry]) == AddHotel(h, Group(h, entries), entry, |entries|)
  {
    assert (entries + [entry])[..|entries|] == entries;
  }

  lemma SeparatePrefix(h: Host, hotels: seq<Hotel>, n: nat)
    requires Separate(h, hotels) && n <= |hotels|
    ensures Separate(h, hotels[..n])
  {
  }

  /** Records that are told apart already are left alone. */
  lemma EntriesAppend(hotels: seq<Hotel>, n: nat)
    requires n == |hotels| - 1
    ensures Entries(hotels) == Entries(hotels[..n]) + [Some(hotels[n])]
  {
  }

  lemma SeparateGrows(h: Host, hotels: seq<Hotel>, n: nat)
    requires n == |hotels| - 1 && Separate(h, hotels)
    requires Group(h, Entries(hotels[..n])) == Alone(h, hotels[..n])
    ensures Group(h, Entries(hotels)) == AddHotel(h, Alone(h, hotels[..n]), Some(hotels[n]), n)
  {
    EntriesAppend(hotels, n);
    GroupAppend(h, Entries(hotels[..n]), Some(hotels[n]));
  }

  lemma {:induction false} SeparateStays(h: Host, hotels: seq<Hotel>)
    requires Separate(h, hotels)
    ensures Group(h, Entries(hotels)) == Alone(h, hotels)
    decreases |hotels|
  {
    if hotels != [] {
      var n := |hotels| - 1;
      SeparatePrefix(h, hotels, n);
      SeparateStays(h, hotels[..n]);
      AloneAppend(h, hotels);
      SeparateGrows(h, hotels, n);
    }
  }

  lemma SlotsDiffer(h: Host, a: Hotel, b: Hotel, i: nat, j: nat)
    requires i != j && (IdentityOf(h, a) == NoIdentity || IdentityOf(h, a) != IdentityOf(h, b))
    ensures SlotOf(h, a, i) != SlotOf(h, b, j)
  {
  }

  lemma AddFresh(h: Host, m: Groups, x: Hotel, index: nat)
    requires forall i :: 0 <= i < |m| ==> m[i].key != SlotOf(h, x, index)
    ensures AddHotel(h, m, Some(x), index) == m + [Entry(SlotOf(h, x, index), x)]
  {
    assert !Has(m, SlotOf(h, x, index));
  }

  /** Merging a merged list changes nothing. */
  lemma MergingIsIdempotent(h: Host, hotels: seq<Option<Hotel>>)
    ensures MergeResults(h, Entries(MergeResults(h, hotels))) == MergeResults(h, hotels)
  {
    GroupGroups(h, hotels);
    var m := Group(h, hotels);
    var r := MergeResults(h, hotels);
    forall i, j | 0 <= i < j < |r|
      ensures IdentityOf(h, r[i]) == NoIdentity || IdentityOf(h, r[i]) != IdentityOf(h, r[j])
    {
      IdentitiesAreDistinct(h, hotels, m, i, j);
    }
    SeparateStays(h, r);
    assert Values(Group(h, Entries(r))) == r;
  }
}
