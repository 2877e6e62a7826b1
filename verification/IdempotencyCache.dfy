// The idempotency records of initial searches: an insertion-ordered map with a cap on its
// size and a cap on the bytes of the responses it stores.

module IdempotencyCache {
  import opened OrderedMaps
  import opened Common

  const TTL := 25 * 60 * 1000
  const MAX_RECORDS := 250
  const MAX_BYTES := 64 * 1024 * 1024

  type Key = string

  /** A response as the cache sees it. `size` is the length of its JSON text, absent when it
      has none; `stable` says that it carries a search id. */
  datatype Response = Response(body: nat, size: Option<nat>, stable: bool)

  datatype Stage = Pending | Fulfilled(response: Response)

  /** `exec` is the identity of the record: each execution creates one. */
  datatype Record<F> = Record(fingerprint: F, exec: nat, stage: Stage, expiresAt: int, bytes: nat)

  datatype Cache<F> = Cache(records: seq<Entry<Key, Record<F>>>, storedBytes: nat)

  function Bytes<F>(records: seq<Entry<Key, Record<F>>>): nat {
    if records == [] then 0
    else Bytes(records[..|records| - 1]) + records[|records| - 1].value.bytes
  }

  function Lowered(total: nat, n: nat): nat {
    if total > n then total - n else 0
  }

  function DeleteAt<F>(c: Cache<F>, i: nat): (r: Cache<F>)
    requires i < |c.records|
    ensures |r.records| == |c.records| - 1
  {
    Cache(c.records[..i] + c.records[i + 1..], Lowered(c.storedBytes, c.records[i].value.bytes))
  }

  function DeleteKey<F>(c: Cache<F>, k: Key): Cache<F> {
    var i := Find(c.records, k);
    if i < |c.records| then DeleteAt(c, i) else c
  }

  /** The sweep of expired records, from place i on. */
  function SweepFrom<F>(c: Cache<F>, i: nat, now: int): Cache<F>
    requires i <= |c.records|
    decreases |c.records| - i
  {
    if i == |c.records| then c
    else if c.records[i].value.expiresAt <= now then SweepFrom(DeleteAt(c, i), i, now)
    else SweepFrom(c, i + 1, now)
  }

  predicate Evictable<F>(e: Entry<Key, Record<F>>, excluded: Option<Key>) {
    excluded != Some(e.key) && e.value.stage.Fulfilled?
  }

  function OldestFrom<F>(records: seq<Entry<Key, Record<F>>>, i: nat, excluded: Option<Key>): (r: nat)
    requires i <= |records|
    ensures i <= r <= |records|
    ensures r < |records| ==> Evictable(records[r], excluded)
    ensures forall j :: i <= j < r ==> !Evictable(records[j], excluded)
    decreases |records| - i
  {
    if i == |records| || Evictable(records[i], excluded) then i else OldestFrom(records, i + 1, excluded)
  }

  function EvictBytes<F>(c: Cache<F>, k: Key, size: nat): (Cache<F>, bool)
    decreases |c.records|
  {
    if c.storedBytes + size <= MAX_BYTES then (c, true)
    else
      var i := OldestFrom(c.records, 0, Some(k));
      if i == |c.records| then (c, false) else EvictBytes(DeleteAt(c, i), k, size)
  }

  /** `responseBytes` may be absent or too large; then nothing is evicted. */
  function ReserveBytes<F>(c: Cache<F>, k: Key, size: Option<nat>): (Cache<F>, bool) {
    if size.None? || size.value > MAX_BYTES then (c, false) else EvictBytes(c, k, size.value)
  }

  function EvictCount<F>(c: Cache<F>): (Cache<F>, bool)
    decreases |c.records|
  {
    if |c.records| < MAX_RECORDS then (c, true)
    else
      var i := OldestFrom(c.records, 0, None);
      if i == |c.records| then (c, false) else EvictCount(DeleteAt(c, i))
  }

  datatype Lookup = Conflict | Busy | Replay(exec: nat, response: Response) | Join(exec: nat) | Execute(exec: nat)

  /** A request up to its first suspension; `exec` names the execution it may start. */
  function Admit<F(==)>(c: Cache<F>, k: Key, f: F, exec: nat, now: int): (Cache<F>, Lookup) {
    var swept := SweepFrom(c, 0, now);
    if Has(swept.records, k) then
      var r := Get(swept.records, k);
      (swept,
       if r.fingerprint != f then Conflict
       else if r.stage.Fulfilled? then Replay(r.exec, r.stage.response)
       else Join(r.exec))
    else
      var (room, ok) := EvictCount(SweepFrom(swept, 0, now));
      if !ok then (room, Busy)
      else (room.(records := Put(room.records, k, Record(f, exec, Pending, now + TTL, 0))), Execute(exec))
  }

  /** The record under k is still the one that the execution created. */
  predicate Owns<F>(c: Cache<F>, k: Key, exec: nat) {
    Has(c.records, k) && Get(c.records, k).exec == exec
  }

  function Complete<F>(c: Cache<F>, k: Key, exec: nat, response: Response, now: int): Cache<F> {
    if !Owns(c, k, exec) then c
    else if !response.stable then DeleteKey(c, k)
    else
      var (room, ok) := ReserveBytes(c, k, response.size);
      if ok && response.size.Some? && Has(room.records, k) then
        Cache(Put(room.records, k,
                  Get(room.records, k).(stage := Fulfilled(response), bytes := response.size.value,
                                        expiresAt := now + TTL)),
              room.storedBytes + response.size.value)
      else if Owns(room, k, exec) then DeleteKey(room, k)
      else room
  }

  function Fail<F>(c: Cache<F>, k: Key, exec: nat): Cache<F> {
    if Owns(c, k, exec) then DeleteKey(c, k) else c
  }

  // ---------------------------------------------------------------------------------
  // The invariant
  // ---------------------------------------------------------------------------------

  ghost predicate Valid<F>(c: Cache<F>) {
    && Distinct(c.records)
    && c.storedBytes == Bytes(c.records) <= MAX_BYTES
    && |c.records| <= MAX_RECORDS
    && forall i :: 0 <= i < |c.records| && c.records[i].value.stage.Pending? ==> c.records[i].value.bytes == 0
  }

  /** c' holds some of the records of c, unchanged, and whatever it dropped met P. */
  ghost predicate DropsOnly<F>(c: Cache<F>, c': Cache<F>, P: (Key, Record<F>) -> bool) {
    && (forall k :: Has(c'.records, k) ==> Has(c.records, k) && Get(c'.records, k) == Get(c.records, k))
    && (forall k :: Has(c.records, k) && !Has(c'.records, k) ==> P(k, Get(c.records, k)))
  }

  lemma {:induction false} BytesSplit<F>(a: seq<Entry<Key, Record<F>>>, b: seq<Entry<Key, Record<F>>>)
    ensures Bytes(a + b) == Bytes(a) + Bytes(b)
    decreases |b|
  {
    if b == [] {
      assert a + b == a;
    } else {
      var n := |b| - 1;
      BytesSplit(a, b[..n]);
      assert (a + b)[..|a + b| - 1] == a + b[..n];
    }
  }

  lemma BytesAt<F>(records: seq<Entry<Key, Record<F>>>, i: nat)
    requires i < |records|
    ensures Bytes(records)
              == Bytes(records[..i] + records[i + 1..]) + records[i].value.bytes
  {
    var e := records[i];
    assert records == records[..i] + ([e] + records[i + 1..]);
    BytesSplit(records[..i], [e] + records[i + 1..]);
    BytesSplit([e], records[i + 1..]);
    BytesSplit(records[..i], records[i + 1..]);
    assert Bytes([e]) == e.value.bytes by { assert [e][..0] == []; }
  }

  /** Deleting a record lowers the byte count by that record's bytes: the clamp at zero
      never hides anything. */
  lemma DeleteAtEffect<F>(c: Cache<F>, i: nat)
    requires Valid(c) && i < |c.records|
    ensures Valid(DeleteAt(c, i))
    ensures DeleteAt(c, i) == DeleteKey(c, c.records[i].key)
    ensures DeleteAt(c, i).storedBytes == c.storedBytes - c.records[i].value.bytes
    ensures !Has(DeleteAt(c, i).records, c.records[i].key)
    ensures forall k :: k != c.records[i].key ==> (Has(DeleteAt(c, i).records, k) <==> Has(c.records, k))
    ensures forall k :: k != c.records[i].key && Has(c.records, k) ==>
              Get(DeleteAt(c, i).records, k) == Get(c.records, k)
  {
    FindAt(c.records, i);
    BytesAt(c.records, i);
    DeleteEffect(c.records, c.records[i].key);
    var d := DeleteAt(c, i);
    assert d.records == Delete(c.records, c.records[i].key);
    forall j | 0 <= j < |d.records| && d.records[j].value.stage.Pending?
      ensures d.records[j].value.bytes == 0
    {
      assert d.records[j] == c.records[if j < i then j else j + 1];
    }
  }

  lemma DeleteKeyEffect<F>(c: Cache<F>, k: Key)
    requires Valid(c)
    ensures Valid(DeleteKey(c, k))
    ensures !Has(DeleteKey(c, k).records, k)
    ensures forall x :: x != k ==> (Has(DeleteKey(c, k).records, x) <==> Has(c.records, x))
    ensures forall x :: x != k && Has(c.records, x) ==> Get(DeleteKey(c, k).records, x) == Get(c.records, x)
  {
    var i := Find(c.records, k);
    if i < |c.records| {
      DeleteAtEffect(c, i);
    }
  }

  /** A sweep removes exactly the expired records. */
  lemma {:induction false} SweepEffect<F>(c: Cache<F>, i: nat, now: int)
    requires Valid(c) && i <= |c.records|
    requires forall j :: 0 <= j < i ==> c.records[j].value.expiresAt > now
    ensures Valid(SweepFrom(c, i, now))
    ensures forall k :: Has(SweepFrom(c, i, now).records, k) <==>
                        Has(c.records, k) && Get(c.records, k).expiresAt > now
    ensures forall k :: Has(SweepFrom(c, i, now).records, k) ==>
                        Get(SweepFrom(c, i, now).records, k) == Get(c.records, k)
    decreases |c.records| - i
  {
    if i == |c.records| {
      forall k | Has(c.records, k) ensures Get(c.records, k).expiresAt > now {
        assert Find(c.records, k) < i;
      }
    } else if c.records[i].value.expiresAt <= now {
      FindAt(c.records, i);
      DeleteAtEffect(c, i);
      SweepEffect(DeleteAt(c, i), i, now);
    } else {
      SweepEffect(c, i + 1, now);
    }
  }

  lemma SweepAgain<F>(c: Cache<F>, i: nat, now: int)
    requires i <= |c.records|
    requires forall j :: 0 <= j < |c.records| ==> c.records[j].value.expiresAt > now
    ensures SweepFrom(c, i, now) == c
    decreases |c.records| - i
  {
  }

  lemma {:induction false} PendingBytes<F>(records: seq<Entry<Key, Record<F>>>)
    requires forall j :: 0 <= j < |records| ==> records[j].value.bytes == 0
    ensures Bytes(records) == 0
    decreases |records|
  {
    if records != [] {
      PendingBytes(records[..|records| - 1]);
    }
  }

  /** Making room for a response in the allowed range always succeeds: only fulfilled
      records count bytes, so when none is left to evict nothing is stored. The failure exit
      inside the loop is unreachable, and only fulfilled records of other keys are evicted. */
  lemma {:induction false} EvictBytesSucceeds<F>(c: Cache<F>, k: Key, size: nat)
    requires Valid(c) && size <= MAX_BYTES
    requires Has(c.records, k) ==> Get(c.records, k).stage.Pending?
    ensures var (r, ok) := EvictBytes(c, k, size);
            && ok && Valid(r) && r.storedBytes + size <= MAX_BYTES
            && DropsOnly(c, r, (x: Key, v: Record<F>) => x != k && v.stage.Fulfilled?)
    decreases |c.records|
  {
    if c.storedBytes + size > MAX_BYTES {
      var i := OldestFrom(c.records, 0, Some(k));
      if i == |c.records| {
        forall j | 0 <= j < |c.records| ensures c.records[j].value.bytes == 0 {
          FindAt(c.records, j);
          assert !Evictable(c.records[j], Some(k));
        }
        PendingBytes(c.records);
      } else {
        FindAt(c.records, i);
        DeleteAtEffect(c, i);
        EvictBytesSucceeds(DeleteAt(c, i), k, size);
      }
    }
  }

  lemma ReserveBytesExact<F>(c: Cache<F>, k: Key, size: Option<nat>)
    requires Valid(c)
    requires Has(c.records, k) ==> Get(c.records, k).stage.Pending?
    ensures ReserveBytes(c, k, size).1 <==> size.Some? && size.value <= MAX_BYTES
    ensures !ReserveBytes(c, k, size).1 ==> ReserveBytes(c, k, size).0 == c
    ensures DropsOnly(c, ReserveBytes(c, k, size).0, (x: Key, v: Record<F>) => x != k && v.stage.Fulfilled?)
    ensures Valid(ReserveBytes(c, k, size).0)
    ensures ReserveBytes(c, k, size).1 ==> ReserveBytes(c, k, size).0.storedBytes + size.value <= MAX_BYTES
  {
    if size.Some? && size.value <= MAX_BYTES {
      EvictBytesSucceeds(c, k, size.value);
    }
  }

  /** Making room for a record fails exactly when the cache is full of pending ones, and
      evicts fulfilled records only. */
  lemma {:induction false} EvictCountEffect<F>(c: Cache<F>)
    requires Valid(c)
    ensures var (r, ok) := EvictCount(c);
            && Valid(r)
            && DropsOnly(c, r, (x: Key, v: Record<F>) => v.stage.Fulfilled?)
            && (ok ==> |r.records| < MAX_RECORDS)
            && (!ok <==> |c.records| == MAX_RECORDS
                         && forall j :: 0 <= j < |c.records| ==> c.records[j].value.stage.Pending?)
            && (!ok ==> r == c)
    decreases |c.records|
  {
    if |c.records| >= MAX_RECORDS {
      var i := OldestFrom(c.records, 0, None);
      if i == |c.records| {
        forall j | 0 <= j < |c.records| ensures c.records[j].value.stage.Pending? {
          assert !Evictable(c.records[j], None);
        }
      } else {
        FindAt(c.records, i);
        DeleteAtEffect(c, i);
        EvictCountEffect(DeleteAt(c, i));
      }
    }
  }

  lemma {:induction false} BytesPut<F>(records: seq<Entry<Key, Record<F>>>, k: Key, r: Record<F>)
    ensures Bytes(Put(records, k, r))
              == Bytes(records) + r.bytes - (if Has(records, k) then Get(records, k).bytes else 0)
  {
    var i := Find(records, k);
    if i < |records| {
      BytesSet(records, i, Entry(k, r));
    } else {
      assert (records + [Entry(k, r)])[..|records|] == records;
    }
  }

  lemma BytesSet<F>(records: seq<Entry<Key, Record<F>>>, i: nat, e: Entry<Key, Record<F>>)
    requires i < |records|
    ensures Bytes(records[i := e]) == Bytes(records) + e.value.bytes - records[i].value.bytes
  {
    var p := records[i := e];
    BytesAt(records, i);
    BytesAt(p, i);
    assert p[..i] == records[..i] && p[i + 1..] == records[i + 1..];
  }

  lemma PutKeeps<F>(c: Cache<F>, k: Key, r: Record<F>)
    requires Valid(c) && (r.stage.Pending? ==> r.bytes == 0)
    requires Has(c.records, k) || |c.records| < MAX_RECORDS
    requires Has(c.records, k) ==> Get(c.records, k).bytes == 0
    requires c.storedBytes + r.bytes <= MAX_BYTES
    ensures Valid(Cache(Put(c.records, k, r), c.storedBytes + r.bytes))
  {
    PutEffect(c.records, k, r);
    BytesPut(c.records, k, r);
    var p := Put(c.records, k, r);
    forall j | 0 <= j < |p| && p[j].value.stage.Pending? ensures p[j].value.bytes == 0 {
      if j != Find(c.records, k) {
        assert p[j] == c.records[j];
      }
    }
  }

  lemma PendingAt<F>(c: Cache<F>, k: Key)
    requires Valid(c) && Has(c.records, k) && Get(c.records, k).stage.Pending?
    ensures Get(c.records, k).bytes == 0
  {
    assert c.records[Find(c.records, k)].value.stage.Pending?;
  }

  // ---------------------------------------------------------------------------------
  // The operations
  // ---------------------------------------------------------------------------------

  predicate Live<F>(c: Cache<F>, k: Key, now: int) {
    Has(c.records, k) && Get(c.records, k).expiresAt > now
  }

  /** What each answer means for the records before the request. */
  predicate AdmitAnswer<F(==)>(c: Cache<F>, k: Key, f: F, exec: nat, now: int, r: (Cache<F>, Lookup)) {
    match r.1
    case Execute(e) =>
      && e == exec && !Live(c, k, now)
      && Has(r.0.records, k) && Get(r.0.records, k) == Record(f, exec, Pending, now + TTL, 0)
    case Replay(e, response) =>
      && Live(c, k, now) && Get(c.records, k).fingerprint == f && Get(c.records, k).exec == e
      && Get(c.records, k).stage == Fulfilled(response)
    case Join(e) =>
      && Live(c, k, now) && Get(c.records, k).fingerprint == f && Get(c.records, k).exec == e
      && Get(c.records, k).stage == Pending
    case Conflict => Live(c, k, now) && Get(c.records, k).fingerprint != f
    case Busy => !Live(c, k, now)
  }

  /** Nothing is dropped but expired and fulfilled records, and of the kept ones only the
      admitted key's record is new. */
  lemma AdmitEffect<F>(c: Cache<F>, k: Key, f: F, exec: nat, now: int)
    requires Valid(c)
    ensures Valid(Admit(c, k, f, exec, now).0)
    ensures AdmitAnswer(c, k, f, exec, now, Admit(c, k, f, exec, now))
    ensures AdmitKeeps(c, k, now, Admit(c, k, f, exec, now))
  {
    var swept := SweepFrom(c, 0, now);
    SweepEffect(c, 0, now);
    if !Has(swept.records, k) {
      SweepTwice(c, now);
      AdmitNew(c, swept, k, f, exec, now);
    }
  }

  /** The request's branch that starts an execution. */
  lemma AdmitNew<F>(c: Cache<F>, swept: Cache<F>, k: Key, f: F, exec: nat, now: int)
    requires Valid(swept) && !Has(swept.records, k)
    requires DropsOnly(c, swept, (x: Key, v: Record<F>) => v.expiresAt <= now)
    ensures var (room, ok) := EvictCount(swept);
            var r := room.(records := Put(room.records, k, Record(f, exec, Pending, now + TTL, 0)));
            && Valid(room)
            && (ok ==> Valid(r) && Has(r.records, k) && Get(r.records, k) == Record(f, exec, Pending, now + TTL, 0))
            && (ok ==> AdmitKeeps(c, k, now, (r, Execute(exec))))
            && (!ok ==> AdmitKeeps(c, k, now, (room, Busy)))
  {
    EvictCountEffect(swept);
    var (room, ok) := EvictCount(swept);
    if ok {
      PutEffect(room.records, k, Record(f, exec, Pending, now + TTL, 0));
      PutKeeps(room, k, Record(f, exec, Pending, now + TTL, 0));
    }
  }

  ghost predicate AdmitKeeps<F>(c: Cache<F>, k: Key, now: int, a: (Cache<F>, Lookup)) {
    var (r, l) := a;
    && (forall x :: Has(r.records, x) && !(l.Execute? && x == k) ==>
          Has(c.records, x) && Get(r.records, x) == Get(c.records, x))
    && (forall x :: Has(c.records, x) && !Has(r.records, x) ==>
          Get(c.records, x).expiresAt <= now || Get(c.records, x).stage.Fulfilled?)
  }

  lemma SweepTwice<F>(c: Cache<F>, now: int)
    requires Valid(c)
    ensures SweepFrom(SweepFrom(c, 0, now), 0, now) == SweepFrom(c, 0, now)
  {
    SweepEffect(c, 0, now);
    var s := SweepFrom(c, 0, now);
    forall j | 0 <= j < |s.records| ensures s.records[j].value.expiresAt > now {
      FindAt(s.records, j);
      assert Has(s.records, s.records[j].key);
    }
    SweepAgain(s, 0, now);
  }

  ghost predicate CompleteResult<F>(c: Cache<F>, k: Key, exec: nat, response: Response, now: int, r: Cache<F>) {
    && Valid(r)
    && (forall x :: x != k && Has(r.records, x) ==>
          Has(c.records, x) && Get(r.records, x) == Get(c.records, x))
    && (forall x :: x != k && Has(c.records, x) && !Has(r.records, x) ==> Get(c.records, x).stage.Fulfilled?)
    && (Owns(c, k, exec) ==>
          && (Has(r.records, k) <==> response.stable && response.size.Some? && response.size.value <= MAX_BYTES)
          && (Has(r.records, k) ==>
                Get(r.records, k) == Get(c.records, k).(stage := Fulfilled(response),
                                                        bytes := response.size.value,
                                                        expiresAt := now + TTL)))
    && (!Owns(c, k, exec) ==> r == c)
  }

  /** A completed execution stores its response exactly when the response carries a search
      id and fits; it evicts only fulfilled records of other keys; and it touches no record
      that is not its own. */
  lemma CompleteEffect<F>(c: Cache<F>, k: Key, exec: nat, response: Response, now: int)
    requires Valid(c)
    requires Owns(c, k, exec) ==> Get(c.records, k).stage.Pending?
    ensures CompleteResult(c, k, exec, response, now, Complete(c, k, exec, response, now))
  {
    if Owns(c, k, exec) {
      if !response.stable {
        DeleteKeyEffect(c, k);
      } else {
        ReserveBytesExact(c, k, response.size);
        var (room, ok) := ReserveBytes(c, k, response.size);
        assert Has(room.records, k) && Get(room.records, k) == Get(c.records, k);
        if ok {
          StoreEffect(c, room, k, response, now);
        } else {
          DeleteKeyEffect(c, k);
        }
      }
    }
  }

  lemma StoreEffect<F>(c: Cache<F>, room: Cache<F>, k: Key, response: Response, now: int)
    requires Valid(room) && Has(c.records, k) && Get(c.records, k).stage.Pending?
    requires Has(room.records, k) && Get(room.records, k) == Get(c.records, k)
    requires DropsOnly(c, room, (x: Key, v: Record<F>) => x != k && v.stage.Fulfilled?)
    requires response.size.Some? && room.storedBytes + response.size.value <= MAX_BYTES
    ensures var r := Get(room.records, k).(stage := Fulfilled(response), bytes := response.size.value,
                                           expiresAt := now + TTL);
            var t := Cache(Put(room.records, k, r), room.storedBytes + response.size.value);
            && Valid(t) && Has(t.records, k) && Get(t.records, k) == r
            && (forall x :: x != k && Has(t.records, x) ==>
                  Has(c.records, x) && Get(t.records, x) == Get(c.records, x))
            && (forall x :: x != k && Has(c.records, x) && !Has(t.records, x) ==>
                  Get(c.records, x).stage.Fulfilled?)
  {
    var r := Get(room.records, k).(stage := Fulfilled(response), bytes := response.size.value,
                                   expiresAt := now + TTL);
    PendingAt(room, k);
    PutEffect(room.records, k, r);
    PutKeeps(room, k, r);
  }

  /** A failed execution removes its own record and no other. */
  lemma FailEffect<F>(c: Cache<F>, k: Key, exec: nat)
    requires Valid(c)
    ensures Valid(Fail(c, k, exec))
    ensures Owns(c, k, exec) ==> !Has(Fail(c, k, exec).records, k)
    ensures !Owns(c, k, exec) ==> Fail(c, k, exec) == c
    ensures forall x :: x != k ==> (Has(Fail(c, k, exec).records, x) <==> Has(c.records, x))
    ensures forall x :: x != k && Has(c.records, x) ==> Get(Fail(c, k, exec).records, x) == Get(c.records, x)
  {
    DeleteKeyEffect(c, k);
  }
}
