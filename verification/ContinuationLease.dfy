// Safety of the continuation lease over whole runs of the session store, under a clock
// that does not go back.

module ContinuationLease {
  import opened Common
  import opened SearchSessions

  /** An operation and the time at which it is served. */
  datatype Timed = At(op: Op, now: int)

  function Next(s: Store, t: Timed): Store {
    Eval(s, t.op, t.now).0
  }

  function Run(s: Store, ops: seq<Timed>): Store
    decreases |ops|
  {
    if ops == [] then s else Run(Next(s, ops[0]), ops[1..])
  }

  /** The clock never goes back, from `start` on. */
  predicate Ordered(start: int, ops: seq<Timed>)
    decreases |ops|
  {
    ops != [] ==> start <= ops[0].now && Ordered(ops[0].now, ops[1..])
  }

  // ---------------------------------------------------------------------------------
  // Fencing numbers
  // ---------------------------------------------------------------------------------

  lemma CounterStep(s: Store, op: Op, now: int)
    ensures s.counter <= Eval(s, op, now).0.counter
    ensures Eval(s, op, now).1.Acquired? ==>
              op.Acquire? && s.counter < Eval(s, op, now).1.lease.fence
              && Eval(s, op, now).1.lease.fence == Eval(s, op, now).0.counter
  {
    match op
    case Save(_, _) =>
    case Claim(_, _, _) =>
    case UpdateInitial(_, _, _, _, _) =>
    case Acquire(_, _) =>
    case RenewLease(_, _) =>
    case ReleaseLease(_, _, _) =>
    case Update(_, _, _) =>
    case Append(_, _, _) =>
    case Clear(_) =>
    case Read(_) =>
  }

  lemma {:induction false} CounterGrows(s: Store, ops: seq<Timed>)
    ensures s.counter <= Run(s, ops).counter
    decreases |ops|
  {
    if ops != [] {
      CounterStep(s, ops[0].op, ops[0].now);
      CounterGrows(Next(s, ops[0]), ops[1..]);
    }
  }

  /** Fencing numbers strictly increase over a whole run, across all sessions. */
  lemma FencesIncrease(s: Store, first: Timed, between: seq<Timed>, second: Timed)
    requires Eval(s, first.op, first.now).1.Acquired?
    requires Eval(Run(Next(s, first), between), second.op, second.now).1.Acquired?
    ensures Eval(s, first.op, first.now).1.lease.fence
            < Eval(Run(Next(s, first), between), second.op, second.now).1.lease.fence
  {
    CounterStep(s, first.op, first.now);
    CounterGrows(Next(s, first), between);
    CounterStep(Run(Next(s, first), between), second.op, second.now);
  }

  // ---------------------------------------------------------------------------------
  // No write by an earlier holder
  // ---------------------------------------------------------------------------------

  /** Session id carries no fencing number below n, except none at all. */
  predicate Floor(s: Store, id: SearchId, n: nat) {
    && n <= s.counter
    && (id in s.sessions ==> s.sessions[id].fence == 0 || n <= s.sessions[id].fence)
  }

  lemma FloorLeaseStep(s: Store, op: Op, now: int, id: SearchId, n: nat)
    requires Floor(s, id, n) && (op.Acquire? || op.RenewLease? || op.ReleaseLease?)
    ensures Floor(Eval(s, op, now).0, id, n)
  {
  }

  lemma FloorInitialStep(s: Store, op: Op, now: int, id: SearchId, n: nat)
    requires Floor(s, id, n) && (op.Claim? || op.UpdateInitial?)
    ensures Floor(Eval(s, op, now).0, id, n)
  {
  }

  lemma FloorSaveStep(s: Store, op: Op, now: int, id: SearchId, n: nat)
    requires Floor(s, id, n) && op.Save?
    ensures Floor(AfterSave(s, op, now).0, id, n)
  {
  }

  lemma FloorOtherStep(s: Store, op: Op, now: int, id: SearchId, n: nat)
    requires Floor(s, id, n) && (op.Update? || op.Append? || op.Clear? || op.Read?)
    ensures Floor(Eval(s, op, now).0, id, n)
  {
  }

  lemma FloorStep(s: Store, op: Op, now: int, id: SearchId, n: nat)
    requires Floor(s, id, n)
    ensures Floor(Eval(s, op, now).0, id, n)
  {
    if op.Acquire? || op.RenewLease? || op.ReleaseLease? {
      FloorLeaseStep(s, op, now, id, n);
    } else if op.Claim? || op.UpdateInitial? {
      FloorInitialStep(s, op, now, id, n);
    } else if op.Save? {
      FloorSaveStep(s, op, now, id, n);
    } else {
      FloorOtherStep(s, op, now, id, n);
    }
  }

  lemma {:induction false} FloorRun(s: Store, ops: seq<Timed>, id: SearchId, n: nat)
    requires Floor(s, id, n)
    ensures Floor(Run(s, ops), id, n)
    decreases |ops|
  {
    if ops != [] {
      FloorStep(s, ops[0].op, ops[0].now, id, n);
      FloorRun(Next(s, ops[0]), ops[1..], id, n);
    }
  }

  /** The operation on session id shows this lease. */
  predicate Shows(op: Op, id: SearchId, lease: Lease) {
    match op
    case RenewLease(i, l) => i == id && l == lease
    case ReleaseLease(i, _, l) => i == id && l == lease
    case Update(i, _, holder) => i == id && holder == Some(lease)
    case Append(i, _, holder) => i == id && holder == Some(lease)
    case _ => false
  }

  lemma StaleOpChangesNothing(s: Store, op: Op, now: int, id: SearchId, lease: Lease)
    requires Shows(op, id, lease) && 0 < lease.fence
    requires id in s.sessions ==> s.sessions[id].fence != lease.fence
    ensures !Eval(s, op, now).1.Accepted?
    ensures Eval(s, op, now).0 == Sweep(s, now)
  {
    if op.Append? && id in Sweep(s, now).sessions {
      SweepTwice(s, now);
    }
  }

  lemma SweepTwice(s: Store, now: int)
    ensures Sweep(Sweep(s, now), now) == Sweep(s, now)
  {
    var t := Sweep(s, now);
    assert Overdue(t, now) == {};
    assert Sweep(t, now).tombstones == t.tombstones;
    assert Sweep(t, now).sessions == t.sessions;
  }

  /** After a later acquire on the same session, whatever else happens, nothing shown with
      the earlier lease is accepted: no write, renewal or release, and the store is left as
      the passing of time alone would leave it. */
  lemma EarlierHolderIsFencedOff(
    s: Store, first: Timed, between: seq<Timed>, second: Timed, after: seq<Timed>, late: Timed)
    requires Eval(s, first.op, first.now).1.Acquired?
    requires Eval(Run(Next(s, first), between), second.op, second.now).1.Acquired?
    requires first.op.Acquire? && second.op.Acquire? && first.op.id == second.op.id
    requires Shows(late.op, first.op.id, Eval(s, first.op, first.now).1.lease)
    ensures
      var s2 := Eval(Run(Next(s, first), between), second.op, second.now).0;
      var t := Run(s2, after);
      && !Eval(t, late.op, late.now).1.Accepted?
      && Eval(t, late.op, late.now).0 == Sweep(t, late.now)
  {
    FencesIncrease(s, first, between, second);
    var id := first.op.id;
    var r2 := Eval(Run(Next(s, first), between), second.op, second.now);
    assert Floor(r2.0, id, r2.1.lease.fence);
    FloorRun(r2.0, after, id, r2.1.lease.fence);
    StaleOpChangesNothing(Run(r2.0, after), late.op, late.now, id,
                          Eval(s, first.op, first.now).1.lease);
  }

  // ---------------------------------------------------------------------------------
  // Mutual exclusion
  // ---------------------------------------------------------------------------------

  predicate Holds(s: Store, id: SearchId, lease: Lease) {
    && id in s.sessions
    && s.sessions[id].isContinuing
    && s.sessions[id].lock == Some(lease.token)
    && s.sessions[id].lockExpiresAt.Some?
    && s.sessions[id].fence == lease.fence
    && lease.fence > 0
  }

  predicate LockExpired(s: Store, id: SearchId, now: int) {
    id in s.sessions && s.sessions[id].lockExpiresAt.Some?
    && s.sessions[id].lockExpiresAt.value <= now
  }

  /** The ways in which a lease on id ends before its time: its holder releases it or
      gives up `isContinuing` or the lock in a write of its own, the session is cleared or
      saved anew, or a worker claims the session's initial search. */
  predicate Ends(s: Store, op: Op, now: int, id: SearchId) {
    match op
    case ReleaseLease(i, _, _) => i == id && Eval(s, op, now).1.Accepted?
    case Update(i, p, _) =>
      i == id && Eval(s, op, now).1.Accepted? && (p.isContinuing == Some(false) || p.dropLock)
    case Save(i, _) => i == id && Eval(s, op, now).1.Accepted?
    case Clear(i) => i == id
    case Claim(i, _, _) => i == id && Eval(s, op, now).1.Accepted?
    case _ => false
  }

  /** A write either touches another session, or is the holder's own and keeps the lock. */
  lemma HeldWrite(s: Store, p: Patch, holder: Option<Lease>, now: int,
                  on: SearchId, id: SearchId, lease: Lease)
    requires Valid(s, now) && Holds(s, id, lease) && !LockExpired(s, id, now)
    requires on == id && Write(s, on, p, holder, now).1.Accepted? ==>
               p.isContinuing != Some(false) && !p.dropLock
    ensures Holds(Write(s, on, p, holder, now).0, id, lease)
  {
    ActiveLeaseKeepsSession(s, id, now);
    SweepEffect(s, now);
  }

  lemma HeldClaim(s: Store, op: Op, now: int, id: SearchId, lease: Lease)
    requires Valid(s, now) && Holds(s, id, lease)
    requires !LockExpired(s, id, now) && !Ends(s, op, now, id) && op.Claim?
    ensures Holds(AfterClaim(s, op, now).0, id, lease)
  {
    ActiveLeaseKeepsSession(s, id, now);
    SweepEffect(s, now);
  }

  lemma HeldInitialWrite(s: Store, op: Op, now: int, id: SearchId, lease: Lease)
    requires Valid(s, now) && Holds(s, id, lease) && !LockExpired(s, id, now) && op.UpdateInitial?
    ensures Holds(AfterUpdateInitial(s, op, now).0, id, lease)
  {
    ActiveLeaseKeepsSession(s, id, now);
    SweepEffect(s, now);
  }

  lemma HeldSave(s: Store, op: Op, now: int, id: SearchId, lease: Lease)
    requires Valid(s, now) && Holds(s, id, lease)
    requires !LockExpired(s, id, now) && !Ends(s, op, now, id) && op.Save?
    ensures Holds(AfterSave(s, op, now).0, id, lease)
  {
    ActiveLeaseKeepsSession(s, id, now);
    SweepEffect(s, now);
  }

  lemma HeldRenewal(s: Store, op: Op, now: int, id: SearchId, lease: Lease)
    requires Valid(s, now) && Holds(s, id, lease) && !LockExpired(s, id, now) && op.RenewLease?
    ensures Holds(AfterRenewLease(s, op, now).0, id, lease)
  {
    ActiveLeaseKeepsSession(s, id, now);
    SweepEffect(s, now);
  }

  lemma HeldRelease(s: Store, op: Op, now: int, id: SearchId, lease: Lease)
    requires Valid(s, now) && Holds(s, id, lease)
    requires !LockExpired(s, id, now) && !Ends(s, op, now, id) && op.ReleaseLease?
    ensures Holds(AfterReleaseLease(s, op, now).0, id, lease)
  {
    ActiveLeaseKeepsSession(s, id, now);
    SweepEffect(s, now);
  }

  lemma HeldAcquire(s: Store, op: Op, now: int, id: SearchId, lease: Lease)
    requires Valid(s, now) && Holds(s, id, lease) && !LockExpired(s, id, now) && op.Acquire?
    ensures Holds(AfterAcquire(s, op, now).0, id, lease)
  {
    ActiveLeaseKeepsSession(s, id, now);
    SweepEffect(s, now);
  }

  lemma HeldOtherOp(s: Store, op: Op, now: int, id: SearchId, lease: Lease)
    requires Valid(s, now) && Holds(s, id, lease)
    requires !LockExpired(s, id, now) && !Ends(s, op, now, id)
    requires op.Clear? || op.Read?
    ensures Holds(Eval(s, op, now).0, id, lease)
  {
    ActiveLeaseKeepsSession(s, id, now);
    SweepEffect(s, now);
  }

  lemma HeldAppend(s: Store, op: Op, now: int, id: SearchId, lease: Lease)
    requires Valid(s, now) && Holds(s, id, lease) && !LockExpired(s, id, now) && op.Append?
    ensures Holds(AfterAppend(s, op, now).0, id, lease)
  {
    ActiveLeaseKeepsSession(s, id, now);
    SweepEffect(s, now);
    var t := Sweep(s, now);
    if op.id in t.sessions {
      HeldWrite(t, NO_CHANGE.(hotels := Some(MergedHotels(t.sessions[op.id].hotels, op.hotels))),
                op.holder, now, op.id, id, lease);
    }
  }

  lemma HeldStep(s: Store, op: Op, now: int, id: SearchId, lease: Lease)
    requires Valid(s, now) && Holds(s, id, lease)
    requires !LockExpired(s, id, now) && !Ends(s, op, now, id)
    ensures Holds(Eval(s, op, now).0, id, lease)
  {
    match op
    case Save(_, _) => HeldSave(s, op, now, id, lease);
    case Claim(_, _, _) => HeldClaim(s, op, now, id, lease);
    case UpdateInitial(_, _, _, _, _) => HeldInitialWrite(s, op, now, id, lease);
    case Acquire(_, _) => HeldAcquire(s, op, now, id, lease);
    case RenewLease(_, _) => HeldRenewal(s, op, now, id, lease);
    case ReleaseLease(_, _, _) => HeldRelease(s, op, now, id, lease);
    case Update(on, p, holder) => HeldWrite(s, p, holder, now, on, id, lease);
    case Append(_, _, _) => HeldAppend(s, op, now, id, lease);
    case Clear(_) => HeldOtherOp(s, op, now, id, lease);
    case Read(_) => HeldOtherOp(s, op, now, id, lease);
  }

  lemma HeldRefusesAcquire(s: Store, id: SearchId, token: Token, lease: Lease, now: int)
    requires Valid(s, now) && Holds(s, id, lease) && !LockExpired(s, id, now)
    ensures Eval(s, Acquire(id, token), now).1 == Declined(s.sessions[id])
  {
    ActiveLeaseKeepsSession(s, id, now);
    SweepEffect(s, now);
  }

  /** The lease on id has expired by the time t is served, or t ends it. */
  predicate OverAt(s: Store, t: Timed, id: SearchId) {
    Ends(s, t.op, t.now, id) || LockExpired(s, id, t.now)
  }

  predicate Over(s: Store, ops: seq<Timed>, id: SearchId)
    decreases |ops|
  {
    ops != [] && (OverAt(s, ops[0], id) || Over(Next(s, ops[0]), ops[1..], id))
  }

  lemma HeldAt(s: Store, t: Timed, id: SearchId, lease: Lease)
    requires Valid(s, t.now) && Holds(s, id, lease) && !OverAt(s, t, id)
    ensures Holds(Next(s, t), id, lease) && Valid(Next(s, t), t.now)
  {
    HeldStep(s, t.op, t.now, id, lease);
    StepKeepsValid(s, t.op, t.now);
  }

  lemma {:induction false} HeldLeaseBlocks(
    s: Store, start: int, between: seq<Timed>, second: Timed, id: SearchId, lease: Lease)
    requires Valid(s, start) && Ordered(start, between + [second]) && Holds(s, id, lease)
    requires second.op.Acquire? && second.op.id == id
    requires !Over(s, between + [second], id)
    ensures Eval(Run(s, between), second.op, second.now).1.Declined?
    decreases |between|
  {
    var ops := between + [second];
    ValidLater(s, start, ops[0].now);
    if between == [] {
      HeldRefusesAcquire(s, id, second.op.token, lease, second.now);
    } else {
      HeldAt(s, between[0], id, lease);
      assert ops[1..] == between[1..] + [second];
      HeldLeaseBlocks(Next(s, between[0]), between[0].now, between[1..], second, id, lease);
    }
  }

  /** Of the store alone, whoever calls it: between two successful acquires on one session the
      first lease is over, by expiry or by one of the five endings. The protocol that calls it
      admits two of them, expiry and release (module ContinuationExclusion). */
  lemma AcquiresAreSeparated(
    s: Store, first: Timed, between: seq<Timed>, second: Timed, id: SearchId)
    requires Valid(s, first.now) && Ordered(first.now, between + [second])
    requires first.op.Acquire? && second.op.Acquire? && first.op.id == second.op.id == id
    requires Eval(s, first.op, first.now).1.Acquired?
    requires Eval(Run(Next(s, first), between), second.op, second.now).1.Acquired?
    ensures Over(Next(s, first), between + [second], id)
  {
    var r := Eval(s, first.op, first.now);
    StepKeepsValid(s, first.op, first.now);
    if !Over(r.0, between + [second], id) {
      HeldLeaseBlocks(r.0, first.now, between, second, id, r.1.lease);
    }
  }

  lemma RefusedClaimKeepsLease(s: Store, id: SearchId, execution: Token, fence: nat, later: Token, now: int)
    requires Valid(s, now) && id in s.sessions && LeaseActive(s.sessions[id], now)
    requires Terminal(s.sessions[id].stage) || fence <= s.sessions[id].initialFence
    ensures Eval(Eval(s, Claim(id, execution, fence), now).0, Acquire(id, later), now).1.Declined?
  {
    ActiveLeaseKeepsSession(s, id, now);
    SweepEffect(s, now);
    SweepEffect(Sweep(s, now), now);
  }

  lemma AcceptedClaimEndsLease(s: Store, id: SearchId, execution: Token, fence: nat, later: Token, now: int)
    requires Valid(s, now) && id in s.sessions && LeaseActive(s.sessions[id], now)
    requires !Terminal(s.sessions[id].stage) && s.sessions[id].initialFence < fence
    ensures Eval(AfterClaim(s, Claim(id, execution, fence), now).0, Acquire(id, later), now).1.Acquired?
  {
    ActiveLeaseKeepsSession(s, id, now);
    var c := Claim(id, execution, fence);
    ClaimKeepsValid(s, c, now);
    var s1 := AfterClaim(s, c, now).0;
    assert s1.sessions[id] == Claimed(s.sessions[id], execution, fence, now);
    SweepEffect(s1, now);
  }

  /** The store itself lets a claim of the initial search end an active lease, since the claim
      checks no lease and clears `isContinuing`. It does so exactly when the search is not
      settled and the claim's number is new; then a second acquire succeeds although nothing
      was released and nothing expired. Whether a caller ever holds a lease on such a session
      is a matter of the protocol above the store. */
  lemma ClaimEndsALeaseIff(s: Store, id: SearchId, execution: Token, fence: nat, later: Token, now: int)
    requires Valid(s, now) && id in s.sessions && LeaseActive(s.sessions[id], now)
    ensures Eval(s, Acquire(id, later), now).1.Declined?
    ensures Eval(Eval(s, Claim(id, execution, fence), now).0, Acquire(id, later), now).1.Acquired?
            <==> !Terminal(s.sessions[id].stage) && s.sessions[id].initialFence < fence
  {
    ActiveLeaseKeepsSession(s, id, now);
    if !Terminal(s.sessions[id].stage) && s.sessions[id].initialFence < fence {
      AcceptedClaimEndsLease(s, id, execution, fence, later, now);
    } else {
      RefusedClaimKeepsLease(s, id, execution, fence, later, now);
    }
  }

  lemma EndedWriteDropsLease(s: Store, op: Op, now: int, id: SearchId, lease: Lease)
    requires (op.Update? || op.ReleaseLease?) && Ends(s, op, now, id)
    ensures !Holds(Eval(s, op, now).0, id, lease)
  {
  }

  lemma EndedSessionDropsLease(s: Store, op: Op, now: int, id: SearchId, lease: Lease)
    requires (op.Save? || op.Clear? || op.Claim?) && Ends(s, op, now, id)
    ensures !Holds(Eval(s, op, now).0, id, lease)
  {
  }

  /** While it has not expired, a held lease ends with an operation exactly when that is one
      of the named endings. */
  lemma LeaseEndsExactlyByAnEnding(s: Store, op: Op, now: int, id: SearchId, lease: Lease)
    requires Valid(s, now) && Holds(s, id, lease) && !LockExpired(s, id, now)
    ensures Holds(Eval(s, op, now).0, id, lease) <==> !Ends(s, op, now, id)
  {
    if !Ends(s, op, now, id) {
      HeldStep(s, op, now, id, lease);
    } else if op.Update? || op.ReleaseLease? {
      EndedWriteDropsLease(s, op, now, id, lease);
    } else {
      EndedSessionDropsLease(s, op, now, id, lease);
    }
  }
}
