// Which records the idempotency cache gives up for a new one: as few as will do, the oldest
// completed ones first.

module IdempotencyEviction {
  import opened OrderedMaps
  import opened Common
  import opened IdempotencyCache

  /** The i-th record of c is gone in r. */
  predicate Evicted<F>(c: Cache<F>, r: Cache<F>, i: nat)
    requires i < |c.records|
  {
    !Has(r.records, c.records[i].key)
  }

  /** Whenever a record is evicted, so is every evictable one that is older. */
  ghost predicate OldestFirst<F>(c: Cache<F>, r: Cache<F>, excluded: Option<Key>) {
    forall i, j :: 0 <= i < j < |c.records| && Evictable(c.records[i], excluded) && Evicted(c, r, j) ==> Evicted(c, r, i)
  }

  /** The j-th record is the last evicted one, and with it the response would not have fit. */
  ghost predicate LastNeeded<F>(c: Cache<F>, r: Cache<F>, size: nat, j: nat) {
    && j < |c.records| && Evicted(c, r, j)
    && (forall i :: j < i < |c.records| ==> !Evicted(c, r, i))
    && r.storedBytes + c.records[j].value.bytes + size > MAX_BYTES
  }

  lemma DeletedPlaces<F>(c: Cache<F>, i: nat, j: nat)
    requires i < |c.records| && j < |c.records| && j != i
    ensures DeleteAt(c, i).records[if j < i then j else j - 1] == c.records[j]
  {
  }

  lemma StillEvicted<F>(c: Cache<F>, d: Cache<F>, r: Cache<F>, i: nat)
    requires Valid(c) && i < |c.records| && d == DeleteAt(c, i)
    requires forall k :: Has(r.records, k) ==> Has(d.records, k)
    ensures Evicted(c, r, i)
  {
    DeleteAtEffect(c, i);
  }

  lemma OldestFirstStep<F>(c: Cache<F>, r: Cache<F>, i: nat, excluded: Option<Key>)
    requires Valid(c) && i < |c.records| && OldestFirst(DeleteAt(c, i), r, excluded)
    requires forall j :: 0 <= j < i ==> !Evictable(c.records[j], excluded)
    requires forall k :: Has(r.records, k) ==> Has(DeleteAt(c, i).records, k)
    ensures OldestFirst(c, r, excluded)
  {
    var d := DeleteAt(c, i);
    StillEvicted(c, d, r, i);
    forall a, b | 0 <= a < b < |c.records| && Evictable(c.records[a], excluded) && Evicted(c, r, b)
      ensures Evicted(c, r, a)
    {
      if a != i {
        assert i < a;
        DeletedPlaces(c, i, a);
        DeletedPlaces(c, i, b);
        assert Evicted(d, r, b - 1);
      }
    }
  }

  /** Making room for a response gives up records only if it would not fit otherwise, and then
      oldest first and no more than needed: before the last one went, it did not fit. */
  lemma {:induction false} BytesAreFreedOldestFirst<F>(c: Cache<F>, k: Key, size: nat)
    requires Valid(c) && size <= MAX_BYTES
    requires Has(c.records, k) ==> Get(c.records, k).stage.Pending?
    ensures var r := EvictBytes(c, k, size).0;
            && (c.storedBytes + size <= MAX_BYTES ==> r == c)
            && OldestFirst(c, r, Some(k))
            && (c.storedBytes + size > MAX_BYTES ==> exists j: nat :: LastNeeded(c, r, size, j))
    decreases |c.records|
  {
    EvictBytesSucceeds(c, k, size);
    if c.storedBytes + size > MAX_BYTES {
      var i := OldestFrom(c.records, 0, Some(k));
      assert i < |c.records|;
      var d := DeleteAt(c, i);
      FindAt(c.records, i);
      DeleteAtEffect(c, i);
      EvictBytesSucceeds(d, k, size);
      BytesAreFreedOldestFirst(d, k, size);
      var r := EvictBytes(c, k, size).0;
      OldestFirstStep(c, r, i, Some(k));
      NeededStep(c, r, i, k, size);
    } else {
      NothingEvicted(c);
    }
  }

  lemma NothingEvicted<F>(c: Cache<F>)
    requires Valid(c)
    ensures forall i :: 0 <= i < |c.records| ==> !Evicted(c, c, i)
  {
    forall i | 0 <= i < |c.records| ensures !Evicted(c, c, i) {
      FindAt(c.records, i);
    }
  }

  lemma NotEvictedLater<F>(c: Cache<F>, r: Cache<F>, i: nat, j: nat)
    requires i < |c.records| && i <= j
    requires forall a :: j <= a < |DeleteAt(c, i).records| ==> !Evicted(DeleteAt(c, i), r, a)
    ensures forall a :: j < a < |c.records| ==> !Evicted(c, r, a)
  {
    forall a | j < a < |c.records| ensures !Evicted(c, r, a) {
      DeletedPlaces(c, i, a);
      assert !Evicted(DeleteAt(c, i), r, a - 1);
    }
  }

  lemma LaterNeeded<F>(c: Cache<F>, r: Cache<F>, i: nat, size: nat, j: nat)
    requires i < |c.records| && i <= j && LastNeeded(DeleteAt(c, i), r, size, j)
    ensures LastNeeded(c, r, size, j + 1)
  {
    DeletedPlaces(c, i, j + 1);
    NotEvictedLater(c, r, i, j + 1);
  }

  lemma NeededStep<F>(c: Cache<F>, r: Cache<F>, i: nat, k: Key, size: nat)
    requires Valid(c) && i < |c.records| && c.storedBytes + size > MAX_BYTES
    requires forall j :: 0 <= j < i ==> !Evictable(c.records[j], Some(k))
    requires DropsOnly(DeleteAt(c, i), r, (x: Key, v: Record<F>) => x != k && v.stage.Fulfilled?)
    requires var d := DeleteAt(c, i);
             if d.storedBytes + size <= MAX_BYTES then r == d else exists j: nat :: LastNeeded(d, r, size, j)
    ensures exists j: nat :: LastNeeded(c, r, size, j)
  {
    var d := DeleteAt(c, i);
    DeleteAtEffect(c, i);
    if d.storedBytes + size <= MAX_BYTES {
      StillEvicted(c, d, r, i);
      NothingEvicted(d);
      NotEvictedLater(c, r, i, i);
      assert LastNeeded(c, r, size, i);
    } else {
      var j: nat :| LastNeeded(d, r, size, j);
      EvictedIsEvictable(d, r, k, j);
      if j < i {
        DeletedPlaces(c, i, j);
        assert false;
      }
      LaterNeeded(c, r, i, size, j);
    }
  }

  lemma EvictedIsEvictable<F>(d: Cache<F>, r: Cache<F>, k: Key, j: nat)
    requires Valid(d) && j < |d.records| && Evicted(d, r, j)
    requires DropsOnly(d, r, (x: Key, v: Record<F>) => x != k && v.stage.Fulfilled?)
    ensures Evictable(d.records[j], Some(k))
  {
    FindAt(d.records, j);
    assert Has(d.records, d.records[j].key);
  }

  /** Making room for a record gives up nothing below the cap, and at the cap the one oldest
      completed record, if there is any. */
  lemma OldestIsGivenUpForARecord<F>(c: Cache<F>)
    requires Valid(c)
    ensures var r := EvictCount(c).0;
            if |c.records| < MAX_RECORDS then r == c
            else
              var i := OldestFrom(c.records, 0, None);
              if i == |c.records| then r == c
              else r.records == c.records[..i] + c.records[i + 1..] && c.records[i].value.stage.Fulfilled?
                   && forall j :: 0 <= j < i ==> c.records[j].value.stage.Pending?
  {
    var i := OldestFrom(c.records, 0, None);
    if |c.records| >= MAX_RECORDS && i < |c.records| {
      var d := DeleteAt(c, i);
      assert |d.records| < MAX_RECORDS;
      assert EvictCount(d) == (d, true);
      forall j | 0 <= j < i ensures c.records[j].value.stage.Pending? {
        assert !Evictable(c.records[j], None);
      }
    }
  }
}
