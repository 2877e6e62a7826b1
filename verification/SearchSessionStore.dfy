// The session store in place: the module-level maps and the fencing counter as fields,
// each exported operation as a method proved to compute the function of the same operation.

module SearchSessionStore {
  import opened Common
  import opened OrderedMaps
  import opened SearchSessions

  // ---------------------------------------------------------------------------------
  // Merging hotels by id
  // ---------------------------------------------------------------------------------

  predicate KeyedById(m: seq<Entry<nat, Hotel>>) {
    Distinct(m) && forall e <- m :: e.key == e.value.id && e.key != 0
  }

  lemma {:induction false} ByIdKeeps(m: seq<Entry<nat, Hotel>>, hotels: seq<Hotel>)
    requires KeyedById(m)
    ensures KeyedById(ById(m, hotels))
    ensures forall k :: Has(ById(m, hotels), k) <==>
              Has(m, k) || (k != 0 && exists h <- hotels :: h.id == k)
    decreases |hotels|
  {
    if hotels != [] {
      var h := hotels[0];
      if h.id != 0 { PutEffect(m, h.id, h); PutKeepsKeys(m, h); }
      var n := if h.id == 0 then m else Put(m, h.id, h);
      ByIdKeeps(n, hotels[1..]);
      assert hotels == [h] + hotels[1..];
    }
  }

  lemma PutKeepsKeys(m: seq<Entry<nat, Hotel>>, h: Hotel)
    requires KeyedById(m) && h.id != 0
    ensures KeyedById(Put(m, h.id, h))
  {
    PutEffect(m, h.id, h);
    var p := Put(m, h.id, h);
    forall e | e in p ensures e.key == e.value.id && e.key != 0 {
      assert e in m || e == Entry(h.id, h);
    }
  }

  lemma {:induction false} ByIdUntouched(m: seq<Entry<nat, Hotel>>, hotels: seq<Hotel>, k: nat)
    requires KeyedById(m) && Has(m, k) && forall h <- hotels :: h.id != k
    ensures Has(ById(m, hotels), k) && Get(ById(m, hotels), k) == Get(m, k)
    decreases |hotels|
  {
    if hotels != [] {
      var h := hotels[0];
      assert h in hotels;
      if h.id != 0 { PutEffect(m, h.id, h); PutKeepsKeys(m, h); }
      ByIdUntouched(if h.id == 0 then m else Put(m, h.id, h), hotels[1..], k);
    }
  }

  /** The newest record of an id wins. */
  lemma {:induction false} ByIdKeepsLatest(m: seq<Entry<nat, Hotel>>, hotels: seq<Hotel>, i: nat)
    requires KeyedById(m) && i < |hotels| && hotels[i].id != 0
    requires forall j :: i < j < |hotels| ==> hotels[j].id != hotels[i].id
    ensures Has(ById(m, hotels), hotels[i].id)
    ensures Get(ById(m, hotels), hotels[i].id) == hotels[i]
    decreases |hotels|
  {
    var h := hotels[0];
    if h.id != 0 { PutEffect(m, h.id, h); PutKeepsKeys(m, h); }
    var n := if h.id == 0 then m else Put(m, h.id, h);
    if i == 0 {
      ByIdUntouched(n, hotels[1..], h.id);
    } else {
      ByIdKeepsLatest(n, hotels[1..], i - 1);
    }
  }

  /** Appending never loses a hotel with an id, never repeats one, and lets the latest
      record of an id replace an earlier one. */
  lemma AppendedHotels(current: seq<Hotel>, added: seq<Hotel>)
    ensures var m := MergedHotels(current, added);
            && (forall i, j :: 0 <= i < j < |m| ==> m[i].id != m[j].id)
            && (forall h <- m :: h.id != 0 && h in current + added)
            && (forall h <- current + added :: h.id != 0 ==> exists g <- m :: g.id == h.id)
            && (forall i | 0 <= i < |added| :: added[i].id != 0
                  && (forall j :: i < j < |added| ==> added[j].id != added[i].id)
                  ==> added[i] in m)
  {
    var a := ById([], current);
    var b := ById(a, added);
    var m := MergedHotels(current, added);
    ByIdKeeps([], current);
    ByIdKeeps(a, added);
    forall h | h in current + added && h.id != 0 ensures exists g <- m :: g.id == h.id {
      assert Has(b, h.id);
      var i := Find(b, h.id);
      assert m[i] == b[i].value && b[i] in b;
    }
    forall i | 0 <= i < |added| && added[i].id != 0
               && (forall j :: i < j < |added| ==> added[j].id != added[i].id)
      ensures added[i] in m
    {
      ByIdKeepsLatest(a, added, i);
      assert m[Find(b, added[i].id)] == added[i];
    }
    ByIdOrigin([], current);
    ByIdOrigin(a, added);
    forall i, j | 0 <= i < j < |m| ensures m[i].id != m[j].id {
      assert b[i] in b && b[j] in b;
    }
    forall h | h in m ensures h.id != 0 && h in current + added {
      var i :| 0 <= i < |m| && m[i] == h;
      assert b[i] in b;
    }
  }

  lemma {:induction false} ByIdOrigin(m: seq<Entry<nat, Hotel>>, hotels: seq<Hotel>)
    ensures forall e <- ById(m, hotels) :: e in m || e.value in hotels
    decreases |hotels|
  {
    if hotels != [] {
      var h := hotels[0];
      var n := if h.id == 0 then m else Put(m, h.id, h);
      ByIdOrigin(n, hotels[1..]);
      forall e | e in ById(m, hotels) ensures e in m || e.value in hotels {
        if e in n && e !in m { assert e == Entry(h.id, h); }
      }
    }
  }

  lemma {:induction false} ByIdAppend(m: seq<Entry<nat, Hotel>>, hotels: seq<Hotel>, h: Hotel)
    ensures ById(m, hotels + [h]) ==
            var n := ById(m, hotels); if h.id == 0 then n else Put(n, h.id, h)
    decreases |hotels|
  {
    if hotels == [] {
      assert hotels + [h] == [h];
    } else {
      assert (hotels + [h])[1..] == hotels[1..] + [h];
      ByIdAppend(if hotels[0].id == 0 then m else Put(m, hotels[0].id, hotels[0]), hotels[1..], h);
    }
  }

  // ---------------------------------------------------------------------------------
  // The store
  // ---------------------------------------------------------------------------------

  class SessionStore {
    var sessions: map<SearchId, Session>
    var tombstones: map<SearchId, int>
    var counter: nat

    function State(): Store
      reads this
    {
      Store(sessions, tombstones, counter)
    }

    constructor ()
      ensures State() == EMPTY
    {
      sessions, tombstones, counter := map[], map[], 0;
    }

    method MarkExpired(now: int)
      modifies this`sessions, this`tombstones
      ensures sessions == old(sessions) - Overdue(old(State()), now)
      ensures tombstones == old(tombstones) +
                map id | id in Overdue(old(State()), now) :: now + TOMBSTONE_TTL
    {
      ghost var was := State();
      ghost var dead := Overdue(was, now);
      var rest := sessions.Keys;
      while rest != {}
        invariant rest <= was.sessions.Keys
        invariant sessions == was.sessions - (dead - rest)
        invariant tombstones == was.tombstones + map id | id in dead - rest :: now + TOMBSTONE_TTL
      {
        var id :| id in rest;
        if sessions[id].expiresAt <= now {
          sessions := sessions - {id};
          tombstones := tombstones[id := now + TOMBSTONE_TTL];
          assert dead - (rest - {id}) == (dead - rest) + {id};
        } else {
          assert dead - (rest - {id}) == dead - rest;
        }
        rest := rest - {id};
      }
      assert dead - rest == dead;
    }

    method ForgetTombstones(now: int)
      modifies this`tombstones
      ensures tombstones == map id | id in old(tombstones) && old(tombstones)[id] > now :: old(tombstones)[id]
    {
      ghost var marked := tombstones;
      var ids := tombstones.Keys;
      while ids != {}
        invariant ids <= marked.Keys
        invariant tombstones == map id | id in marked && (id in ids || marked[id] > now) :: marked[id]
      {
        var id :| id in ids;
        if tombstones[id] <= now {
          tombstones := tombstones - {id};
        }
        ids := ids - {id};
      }
    }

    method RemoveExpired(now: int)
      modifies this`sessions, this`tombstones
      ensures State() == Sweep(old(State()), now)
    {
      MarkExpired(now);
      ForgetTombstones(now);
    }

    method Save(op: Op, now: int) returns (reply: Reply)
      requires op.Save?
      modifies this
      ensures (State(), reply) == Eval(old(State()), op, now)
    {
      RemoveExpired(now);
      if op.id !in sessions && |sessions| >= MAX_SESSIONS {
        return Rejected(CapacityReached);
      }
      tombstones := tombstones - {op.id};
      var saved := NewSession(op.draft, now);
      sessions := sessions[op.id := saved];
      return Accepted(saved);
    }

    /** The session, or the fault that its absence raises; expired sessions go first. */
    method Require(id: SearchId, now: int) returns (reply: Reply)
      modifies this`sessions, this`tombstones
      ensures State() == Sweep(old(State()), now)
      ensures reply == if id in sessions then Accepted(sessions[id]) else Absence(State(), id)
    {
      RemoveExpired(now);
      if id in sessions {
        return Accepted(sessions[id]);
      }
      return Rejected(if id in tombstones then SessionExpired else NotFound);
    }

    method ClaimInitial(op: Op, now: int) returns (reply: Reply)
      requires op.Claim?
      modifies this`sessions, this`tombstones
      ensures (State(), reply) == Eval(old(State()), op, now)
    {
      if op.fence == 0 {
        return Rejected(ExecutionStale);
      }
      reply := Require(op.id, now);
      if !reply.Accepted? {
        return;
      }
      var current := reply.session;
      if Terminal(current.stage) || op.fence <= current.initialFence {
        return Declined(current);
      }
      var claimed := current.(
        stage := Running, executionToken := Some(op.token), initialFence := op.fence,
        status := StatusRunning, incomplete := true, isContinuing := false,
        updatedAt := now, expiresAt := now + SESSION_TTL);
      sessions := sessions[op.id := claimed];
      return Accepted(claimed);
    }

    method UpdateInitialExecution(op: Op, now: int) returns (reply: Reply)
      requires op.UpdateInitial?
      modifies this`sessions, this`tombstones
      ensures (State(), reply) == Eval(old(State()), op, now)
    {
      reply := Require(op.id, now);
      if !reply.Accepted? {
        return;
      }
      var current := reply.session;
      if op.fence == 0 || current.executionToken != Some(op.token)
         || current.initialFence != op.fence {
        return Rejected(ExecutionStale);
      }
      if LeaseActive(current, now) {
        return Rejected(ContinuationInProgress);
      }
      var updated := Apply(current, op.patch).(stage := op.stage);
      if Terminal(op.stage) {
        updated := updated.(executionToken := None);
      }
      updated := updated.(updatedAt := now, expiresAt := now + SESSION_TTL);
      sessions := sessions[op.id := updated];
      return Accepted(updated);
    }

    method TryAcquire(op: Op, now: int) returns (reply: Reply)
      requires op.Acquire?
      modifies this
      ensures (State(), reply) == Eval(old(State()), op, now)
    {
      reply := Require(op.id, now);
      if !reply.Accepted? {
        return;
      }
      var current := reply.session;
      if LeaseActive(current, now) {
        return Declined(current);
      }
      counter := (if counter >= current.fence then counter else current.fence) + 1;
      var locked := current.(
        isContinuing := true, lock := Some(op.token), lockExpiresAt := Some(now + LOCK_TTL),
        fence := counter, updatedAt := now, expiresAt := now + SESSION_TTL);
      sessions := sessions[op.id := locked];
      return Acquired(Lease(op.token, counter), locked);
    }

    method RenewContinuation(op: Op, now: int) returns (reply: Reply)
      requires op.RenewLease?
      modifies this`sessions, this`tombstones
      ensures (State(), reply) == Eval(old(State()), op, now)
    {
      RemoveExpired(now);
      if op.id !in sessions {
        return Gone;
      }
      var current := sessions[op.id];
      if current.lock != Some(op.lease.token) || !LeaseActive(current, now)
         || current.fence != op.lease.fence {
        return Declined(current);
      }
      var renewed := current.(
        isContinuing := true, lockExpiresAt := Some(now + LOCK_TTL),
        updatedAt := now, expiresAt := now + SESSION_TTL);
      sessions := sessions[op.id := renewed];
      return Accepted(renewed);
    }

    method ReleaseContinuation(op: Op, now: int) returns (reply: Reply)
      requires op.ReleaseLease?
      modifies this`sessions, this`tombstones
      ensures (State(), reply) == Eval(old(State()), op, now)
    {
      RemoveExpired(now);
      if op.id !in sessions {
        return Gone;
      }
      var current := sessions[op.id];
      if current.lock != Some(op.lease.token) || !LeaseActive(current, now)
         || current.fence != op.lease.fence {
        return Declined(current);
      }
      var released := Apply(current, op.patch).(
        isContinuing := false, lock := None, lockExpiresAt := None,
        updatedAt := now, expiresAt := now + SESSION_TTL);
      sessions := sessions[op.id := released];
      return Accepted(released);
    }

    method UpdateSession(id: SearchId, patch: Patch, holder: Option<Lease>, now: int)
      returns (reply: Reply)
      modifies this`sessions, this`tombstones
      ensures (State(), reply) == Write(old(State()), id, patch, holder, now)
    {
      RemoveExpired(now);
      if id !in sessions {
        return Gone;
      }
      var current := sessions[id];
      var fault := WriteFault(current, holder, now);
      if fault.Some? {
        return Rejected(fault.value);
      }
      var updated := Apply(current, patch).(updatedAt := now, expiresAt := now + SESSION_TTL);
      sessions := sessions[id := updated];
      return Accepted(updated);
    }

    method AppendHotels(op: Op, now: int) returns (reply: Reply)
      requires op.Append?
      modifies this`sessions, this`tombstones
      ensures (State(), reply) == Eval(old(State()), op, now)
    {
      RemoveExpired(now);
      if op.id !in sessions {
        return Gone;
      }
      var current := sessions[op.id].hotels;
      var byId: seq<Entry<nat, Hotel>> := [];
      for i := 0 to |current|
        modifies {}
        invariant byId == ById([], current[..i])
      {
        ByIdAppend([], current[..i], current[i]);
        assert current[..i] + [current[i]] == current[..i + 1];
        if current[i].id != 0 {
          byId := Put(byId, current[i].id, current[i]);
        }
      }
      assert current[..|current|] == current;
      ghost var base := byId;
      for i := 0 to |op.hotels|
        modifies {}
        invariant byId == ById(base, op.hotels[..i])
      {
        ByIdAppend(base, op.hotels[..i], op.hotels[i]);
        assert op.hotels[..i] + [op.hotels[i]] == op.hotels[..i + 1];
        if op.hotels[i].id != 0 {
          byId := Put(byId, op.hotels[i].id, op.hotels[i]);
        }
      }
      assert op.hotels[..|op.hotels|] == op.hotels;
      assert Values(byId) == MergedHotels(current, op.hotels);
      reply := UpdateSession(op.id, NO_CHANGE.(hotels := Some(Values(byId))), op.holder, now);
    }

    method ClearSession(op: Op)
      requires op.Clear?
      modifies this`sessions, this`tombstones
      ensures State() == AfterClear(old(State()), op).0
    {
      sessions := sessions - {op.id};
      tombstones := tombstones - {op.id};
    }
  }
}
