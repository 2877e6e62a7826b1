// The idempotency records in place: a module-level map and a byte counter, changed by
// sweeps, evictions and the settlement of executions.

module IdempotencyStore {
  import opened OrderedMaps
  import opened Common
  import opened IdempotencyCache

  class RecordStore<F(==)> {
    var records: seq<Entry<Key, Record<F>>>
    var storedBytes: nat

    ghost function State(): Cache<F>
      reads this
    {
      Cache(records, storedBytes)
    }

    constructor ()
      ensures records == [] && storedBytes == 0 && Valid(State())
    {
      records, storedBytes := [], 0;
    }

    method DeleteRecord(k: Key) returns (deleted: bool)
      modifies this
      ensures State() == DeleteKey(old(State()), k)
      ensures deleted == Has(old(records), k)
    {
      var i := Find(records, k);
      if i == |records| {
        return false;
      }
      var bytes := records[i].value.bytes;
      records := records[..i] + records[i + 1..];
      storedBytes := if storedBytes > bytes then storedBytes - bytes else 0;
      return true;
    }

    method RemoveExpired(now: int)
      requires Valid(State())
      modifies this
      ensures State() == SweepFrom(old(State()), 0, now)
    {
      var i := 0;
      while i < |records|
        invariant i <= |records| && Valid(State())
        invariant SweepFrom(State(), i, now) == SweepFrom(old(State()), 0, now)
        decreases |records| - i
      {
        DeleteAtEffect(State(), i);
        if records[i].value.expiresAt <= now {
          var deleted := DeleteRecord(records[i].key);
        } else {
          i := i + 1;
        }
      }
    }

    method RemoveOldestCompleted(excluded: Option<Key>) returns (removed: bool)
      requires Valid(State())
      modifies this
      ensures var i := OldestFrom(old(records), 0, excluded);
              && removed == (i < |old(records)|)
              && State() == (if removed then DeleteAt(old(State()), i) else old(State()))
    {
      var i := 0;
      while i < |records| && !(excluded != Some(records[i].key) && records[i].value.stage.Fulfilled?)
        invariant i <= |records|
        invariant OldestFrom(records, i, excluded) == OldestFrom(records, 0, excluded)
        decreases |records| - i
      {
        i := i + 1;
      }
      if i == |records| {
        return false;
      }
      DeleteAtEffect(State(), i);
      removed := DeleteRecord(records[i].key);
    }

    method ReserveResponseBytes(k: Key, size: Option<nat>) returns (ok: bool)
      requires Valid(State())
      modifies this
      ensures (State(), ok) == ReserveBytes(old(State()), k, size)
    {
      if size.None? || size.value > MAX_BYTES {
        return false;
      }
      while storedBytes + size.value > MAX_BYTES
        invariant Valid(State())
        invariant EvictBytes(State(), k, size.value) == EvictBytes(old(State()), k, size.value)
        decreases |records|
      {
        ghost var i := OldestFrom(records, 0, Some(k));
        if i < |records| {
          DeleteAtEffect(State(), i);
        }
        var removed := RemoveOldestCompleted(Some(k));
        if !removed {
          return false;
        }
      }
      return true;
    }

    /** False where the source throws "capacity reached". */
    method ReserveCapacity(now: int) returns (ok: bool)
      requires Valid(State())
      modifies this
      ensures (State(), ok) == EvictCount(SweepFrom(old(State()), 0, now))
    {
      SweepEffect(State(), 0, now);
      RemoveExpired(now);
      ghost var swept := State();
      while |records| >= MAX_RECORDS
        invariant Valid(State())
        invariant EvictCount(State()) == EvictCount(swept)
        decreases |records|
      {
        ghost var i := OldestFrom(records, 0, None);
        if i < |records| {
          DeleteAtEffect(State(), i);
        }
        var removed := RemoveOldestCompleted(None);
        if !removed {
          return false;
        }
      }
      return true;
    }

    method AdmitSearch(k: Key, f: F, exec: nat, now: int) returns (answer: Lookup)
      requires Valid(State())
      modifies this
      ensures (State(), answer) == Admit(old(State()), k, f, exec, now) && Valid(State())
    {
      AdmitEffect(State(), k, f, exec, now);
      SweepEffect(State(), 0, now);
      RemoveExpired(now);
      if Has(records, k) {
        var existing := Get(records, k);
        if existing.fingerprint != f {
          return Conflict;
        }
        if existing.stage.Fulfilled? {
          return Replay(existing.exec, existing.stage.response);
        }
        return Join(existing.exec);
      }
      var ok := ReserveCapacity(now);
      if !ok {
        return Busy;
      }
      records := Put(records, k, Record(f, exec, Pending, now + TTL, 0));
      return Execute(exec);
    }

    /** The fulfilment handler of the execution that created record `exec`. */
    method Settle(k: Key, exec: nat, response: Response, now: int)
      requires Valid(State())
      requires Owns(State(), k, exec) ==> Get(records, k).stage.Pending?
      modifies this
      ensures State() == Complete(old(State()), k, exec, response, now) && Valid(State())
    {
      CompleteEffect(State(), k, exec, response, now);
      var own := Has(records, k) && Get(records, k).exec == exec;
      if response.stable && own {
        ReserveBytesExact(State(), k, response.size);
        var ok := ReserveResponseBytes(k, response.size);
        if ok {
          records := Put(records, k, Get(records, k).(stage := Fulfilled(response),
                                                      bytes := response.size.value,
                                                      expiresAt := now + TTL));
          storedBytes := storedBytes + response.size.value;
        } else if Has(records, k) && Get(records, k).exec == exec {
          var deleted := DeleteRecord(k);
        }
      } else if own {
        var deleted := DeleteRecord(k);
      }
    }

    /** The rejection handler. */
    method Reject(k: Key, exec: nat)
      requires Valid(State())
      modifies this
      ensures State() == Fail(old(State()), k, exec) && Valid(State())
    {
      FailEffect(State(), k, exec);
      if Has(records, k) && Get(records, k).exec == exec {
        var deleted := DeleteRecord(k);
      }
    }
  }
}
