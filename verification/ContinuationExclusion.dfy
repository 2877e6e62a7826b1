// Exclusion over whole runs of the continuation protocol: two acquires of one search are
// separated by a release or an expiry, and no claim meets an active lease.

module ContinuationExclusion {
  import opened Common
  import opened ProviderExecutions
  import opened ContinuationPass
  import opened ContinuationProtocol
  import S = SearchSessions
  import L = ContinuationLease

  // ---------------------------------------------------------------------------------
  // Two acquires are separated by a release or an expiry
  // ---------------------------------------------------------------------------------

  /** The step acquires the continuation lease of search id. */
  predicate Acquires(s: Sys, st: Step, id: SearchId) {
    && Request(s, st).Some? && Request(s, st).value.Acquire? && Request(s, st).value.id == id
    && Served(s, st).1.Acquired?
  }

  /** The step is an accepted release, which only the holder of the lease can make. */
  predicate Releases(s: Sys, st: Step, id: SearchId) {
    && Request(s, st).Some? && Request(s, st).value.ReleaseLease? && Request(s, st).value.id == id
    && Served(s, st).1.Accepted?
  }

  /** Somewhere along the steps the lease on id is released or found expired. */
  predicate ReleasedOrExpired(s: Sys, steps: seq<Step>, id: SearchId)
    decreases |steps|
  {
    steps != [] && (Releases(s, steps[0], id) || L.LockExpired(s.store, id, s.now)
                    || ReleasedOrExpired(Exec(s, steps[0]), steps[1..], id))
  }

  lemma ExecStore(s: Sys, st: Step)
    ensures Exec(s, st).store == Served(s, st).0
  {
  }

  /** The writes of a request without a lease give up `isContinuing`; those with one do not. */
  lemma UpdateShape(s: Sys, st: Step)
    requires Inv(s) && Request(s, st).Some? && Request(s, st).value.Update?
    ensures var op := Request(s, st).value;
            if op.holder.None? then op.patch.isContinuing == Some(false)
            else op.holder.value.fence > 0 && op.patch.isContinuing != Some(false) && !op.patch.dropLock
  {
    assert st.Advance? && ClientOk(s.clients[st.c], s.store, s.nextId);
  }

  lemma UnfencedIsRefused(s: S.Store, op: S.Op, now: int, id: SearchId, lease: S.Lease)
    requires S.Valid(s, now) && L.Holds(s, id, lease) && !L.LockExpired(s, id, now)
    requires op.Update? && op.id == id && op.holder.None?
    ensures !S.Eval(s, op, now).1.Accepted?
  {
    S.ActiveLeaseKeepsSession(s, id, now);
  }

  lemma ClaimIsDeclined(s: Sys, st: Step, id: SearchId)
    requires Inv(s) && IsPast(s.store, s.nextId, id) && id in s.store.sessions
    requires Request(s, st).Some? && Request(s, st).value.Claim? && Request(s, st).value.id == id
    ensures !Served(s, st).1.Accepted?
  {
    assert st.WorkerOp? && id in s.queued;
    assert SessionOk(s.store.sessions[id], id, s.nextId, s.queued);
  }

  /** No step of the protocol ends an unexpired lease on a past search but its release and
      the removal of the session. */
  lemma OnlyReleaseEnds(s: Sys, st: Step, id: SearchId, lease: S.Lease)
    requires Inv(s) && IsPast(s.store, s.nextId, id) && L.Holds(s.store, id, lease)
    requires !L.LockExpired(s.store, id, s.now) && !Releases(s, st, id)
    requires Request(s, st).Some? && L.Ends(s.store, Request(s, st).value, s.now, id)
    ensures Request(s, st).value == S.Clear(id)
  {
    var op := Request(s, st).value;
    SavesAreNew(s, st);
    match op
    case Update(_, _, _) =>
      UpdateShape(s, st);
      if op.holder.None? {
        UnfencedIsRefused(s.store, op, s.now, id, lease);
      }
    case Claim(_, _, _) => ClaimIsDeclined(s, st, id);
    case _ =>
  }

  lemma HeldStep(s: Sys, st: Step, id: SearchId, lease: S.Lease)
    requires Inv(s) && IsPast(s.store, s.nextId, id) && L.Holds(s.store, id, lease)
    requires !L.LockExpired(s.store, id, s.now) && !Releases(s, st, id)
    ensures L.Holds(Exec(s, st).store, id, lease) || id !in Exec(s, st).store.sessions
  {
    ExecStore(s, st);
    var op := Request(s, st);
    if op.Some? {
      if L.Ends(s.store, op.value, s.now, id) {
        OnlyReleaseEnds(s, st, id, lease);
      } else {
        L.HeldStep(s.store, op.value, s.now, id, lease);
      }
    }
  }

  lemma GoneStaysGone(s: S.Store, op: S.Op, now: int, id: SearchId)
    requires id !in s.sessions && (op.Save? ==> op.id != id)
    ensures id !in S.Eval(s, op, now).0.sessions && !(op.Acquire? && op.id == id && S.Eval(s, op, now).1.Acquired?)
  {
    match op
    case Append(_, _, _) => L.SweepTwice(s, now);
    case Save(_, _) =>
    case Claim(_, _, _) =>
    case UpdateInitial(_, _, _, _, _) =>
    case Acquire(_, _) =>
    case RenewLease(_, _) =>
    case ReleaseLease(_, _, _) =>
    case Update(_, _, _) =>
    case Clear(_) =>
    case Read(_) =>
  }

  lemma GoneStep(s: Sys, st: Step, id: SearchId)
    requires id < s.nextId && id !in s.store.sessions
    ensures id !in Exec(s, st).store.sessions && !Acquires(s, st, id)
  {
    ExecStore(s, st);
    SavesAreNew(s, st);
    if Request(s, st).Some? {
      GoneStaysGone(s.store, Request(s, st).value, s.now, id);
    }
  }

  lemma SavesAreNew(s: Sys, st: Step)
    ensures Request(s, st).Some? && Request(s, st).value.Save? ==> Request(s, st).value.id == s.nextId
  {
    if st.Advance? && st.c in s.clients {
      CommandsSaveNothing(s.clients[st.c], st.input, s.nextToken, s.now);
    }
  }

  lemma CommandsSaveNothing(x: Client, input: Input, token: Token, now: int)
    ensures var op := Command(x, input, token, now);
            op.Some? ==> !op.value.Save? && !op.value.Claim?
  {
  }

  lemma HeldRefuses(s: Sys, st: Step, id: SearchId, lease: S.Lease)
    requires Inv(s) && L.Holds(s.store, id, lease) && !L.LockExpired(s.store, id, s.now)
    ensures !Acquires(s, st, id)
  {
    if Request(s, st).Some? && Request(s, st).value.Acquire? && Request(s, st).value.id == id {
      L.HeldRefusesAcquire(s.store, id, Request(s, st).value.token, lease, s.now);
    }
  }

  lemma PastStays(s: Sys, st: Step, id: SearchId)
    requires Inv(s) && IsPast(s.store, s.nextId, id)
    ensures IsPast(Exec(s, st).store, Exec(s, st).nextId, id)
  {
    ExecStore(s, st);
    ServedKeeps(s, st);
  }

  lemma {:induction false} HeldBlocks(s: Sys, between: seq<Step>, second: Step, id: SearchId, lease: S.Lease)
    requires Inv(s) && IsPast(s.store, s.nextId, id)
    requires L.Holds(s.store, id, lease) || id !in s.store.sessions
    requires !ReleasedOrExpired(s, between + [second], id)
    ensures !Acquires(Run(s, between), second, id)
    decreases |between|
  {
    var steps := between + [second];
    if between == [] {
      if id in s.store.sessions {
        HeldRefuses(s, second, id, lease);
      } else {
        GoneStep(s, second, id);
      }
    } else {
      assert steps[0] == between[0] && steps[1..] == between[1..] + [second];
      StepKeeps(s, between[0]);
      PastStays(s, between[0], id);
      if id in s.store.sessions {
        HeldStep(s, between[0], id, lease);
      } else {
        GoneStep(s, between[0], id);
      }
      HeldBlocks(Exec(s, between[0]), between[1..], second, id, lease);
    }
  }

  /** Only a request that saw executions acquires, so the search is past its initial stage. */
  lemma AcquireIsPast(s: Sys, st: Step, id: SearchId)
    requires Inv(s) && Acquires(s, st, id)
    ensures IsPast(s.store, s.nextId, id)
    ensures L.Holds(Exec(s, st).store, id, Served(s, st).1.lease)
  {
    ExecStore(s, st);
    assert st.Advance? && ClientOk(s.clients[st.c], s.store, s.nextId);
    AcquiredLease(s.store, Request(s, st).value, s.now);
  }

  /** Over every run of the protocol: between two successful acquires of one search's
      continuation lease, the lease was released by its holder or had expired. */
  lemma AcquiresAreSeparatedByReleaseOrExpiry(
    before: seq<Step>, first: Step, between: seq<Step>, second: Step, id: SearchId)
    requires Acquires(Run(Start(), before), first, id)
    requires Acquires(Run(Exec(Run(Start(), before), first), between), second, id)
    ensures ReleasedOrExpired(Exec(Run(Start(), before), first), between + [second], id)
  {
    StartIsSafe();
    RunKeeps(Start(), before);
    var s := Run(Start(), before);
    AcquireIsPast(s, first, id);
    StepKeeps(s, first);
    PastStays(s, first, id);
    if !ReleasedOrExpired(Exec(s, first), between + [second], id) {
      HeldBlocks(Exec(s, first), between, second, id, Served(s, first).1.lease);
    }
  }

  lemma OpenStep(s: Sys, st: Step)
    requires Inv(s) && NoLeaseOnOpen(s.store)
    ensures NoLeaseOnOpen(Exec(s, st).store)
  {
    ExecStore(s, st);
    if Request(s, st).Some? {
      var op := Request(s, st).value;
      if op.Acquire? || op.RenewLease? {
        assert st.Advance? && ClientOk(s.clients[st.c], s.store, s.nextId);
        LeaseOpenStep(s.store, op, s.now, s.nextId);
      } else if op.Update? {
        WriteOpenStep(s.store, op, s.now);
      } else if op.Claim? || op.UpdateInitial? {
        WorkerOpenStep(s.store, op, s.now, s.nextId, s.queued);
      } else {
        OtherOpenStep(s.store, op, s.now);
      }
    }
  }

  /** A search whose initial execution is open has never had a continuation lease. */
  predicate NoLeaseOnOpen(store: S.Store) {
    forall id <- store.sessions :: !Past(store.sessions[id].stage) ==> store.sessions[id].fence == 0
  }

  lemma LeaseOpenStep(s: S.Store, op: S.Op, now: int, nextId: nat)
    requires NoLeaseOnOpen(s) && (op.Acquire? || op.RenewLease?)
    requires op.Acquire? ==> IsPast(s, nextId, op.id)
    ensures NoLeaseOnOpen(S.Eval(s, op, now).0)
  {
  }

  lemma WriteOpenStep(s: S.Store, op: S.Op, now: int)
    requires NoLeaseOnOpen(s) && op.Update?
    ensures NoLeaseOnOpen(S.Eval(s, op, now).0)
  {
  }

  lemma ClaimShape(s: S.Store, op: S.Op, now: int)
    requires op.Claim?
    ensures var t := S.AfterClaim(s, op, now).0;
            forall id <- t.sessions :: id in s.sessions &&
              (t.sessions[id] == s.sessions[id]
               || (id == op.id && !S.Terminal(s.sessions[id].stage) && t.sessions[id].fence == s.sessions[id].fence))
  {
  }

  lemma WorkerOpenStep(s: S.Store, op: S.Op, now: int, nextId: nat, queued: set<SearchId>)
    requires NoLeaseOnOpen(s) && SessionsOk(s, nextId, queued) && S.Valid(s, now) && FromWorker(queued, op)
    ensures NoLeaseOnOpen(S.Eval(s, op, now).0)
  {
    var t := S.Eval(s, op, now).0;
    if op.Claim? {
      ClaimShape(s, op, now);
    } else {
      InitialWriteShape(s, op, now);
    }
    forall id | id in t.sessions && !Past(t.sessions[id].stage) ensures t.sessions[id].fence == 0 {
      assert SessionOk(s.sessions[id], id, nextId, queued);
      assert S.ValidSession(s.sessions[id], s.counter, now);
    }
  }

  lemma SaveOpenStep(s: S.Store, op: S.Op, now: int)
    requires NoLeaseOnOpen(s) && op.Save?
    ensures NoLeaseOnOpen(S.AfterSave(s, op, now).0)
  {
    SaveShape(s, op, now);
  }

  lemma ReleaseOpenStep(s: S.Store, op: S.Op, now: int)
    requires NoLeaseOnOpen(s) && op.ReleaseLease?
    ensures NoLeaseOnOpen(S.AfterReleaseLease(s, op, now).0)
  {
  }

  lemma OtherOpenStep(s: S.Store, op: S.Op, now: int)
    requires NoLeaseOnOpen(s) && (op.Save? || op.ReleaseLease? || op.Append? || op.Clear? || op.Read?)
    ensures NoLeaseOnOpen(S.Eval(s, op, now).0)
  {
    if op.Save? {
      SaveOpenStep(s, op, now);
    } else if op.ReleaseLease? {
      ReleaseOpenStep(s, op, now);
    } else if op.Append? {
      AppendOpenStep(s, op, now);
    }
  }

  lemma AppendOpenStep(s: S.Store, op: S.Op, now: int)
    requires NoLeaseOnOpen(s) && op.Append?
    ensures NoLeaseOnOpen(S.AfterAppend(s, op, now).0)
  {
    var t := S.Sweep(s, now);
    if op.id in t.sessions {
      WriteOpenStep(t, S.Update(op.id, S.NO_CHANGE.(hotels := Some(S.MergedHotels(t.sessions[op.id].hotels, op.hotels))),
                                op.holder), now);
    }
  }

  lemma {:induction false} RunHasNoLeaseOnOpen(s: Sys, steps: seq<Step>)
    requires Inv(s) && NoLeaseOnOpen(s.store)
    ensures Inv(Run(s, steps)) && NoLeaseOnOpen(Run(s, steps).store)
    decreases |steps|
  {
    if steps != [] {
      StepKeeps(s, steps[0]);
      OpenStep(s, steps[0]);
      RunHasNoLeaseOnOpen(Exec(s, steps[0]), steps[1..]);
    }
  }

  lemma ClaimHitsOpen(s: S.Store, op: S.Op, now: int)
    requires op.Claim? && S.Eval(s, op, now).1.Accepted?
    ensures op.id in s.sessions && !S.Terminal(s.sessions[op.id].stage)
  {
  }

  /** Over every run of the protocol, an accepted claim of an initial search never meets an
      active continuation lease: the store-level failure does not arise. */
  lemma ClaimsNeverMeetALease(steps: seq<Step>, claim: Step)
    requires var s := Run(Start(), steps);
             Request(s, claim).Some? && Request(s, claim).value.Claim? && Served(s, claim).1.Accepted?
    ensures var s := Run(Start(), steps);
            var id := Request(s, claim).value.id;
            id in s.store.sessions && s.store.sessions[id].fence == 0
            && !S.LeaseActive(s.store.sessions[id], s.now)
  {
    StartIsSafe();
    RunHasNoLeaseOnOpen(Start(), steps);
    ClaimMeetsNoLease(Run(Start(), steps), claim);
  }

  lemma ClaimMeetsNoLease(s: Sys, claim: Step)
    requires Inv(s) && NoLeaseOnOpen(s.store)
    requires Request(s, claim).Some? && Request(s, claim).value.Claim? && Served(s, claim).1.Accepted?
    ensures var id := Request(s, claim).value.id;
            id in s.store.sessions && s.store.sessions[id].fence == 0
            && !S.LeaseActive(s.store.sessions[id], s.now)
  {
    var op := Request(s, claim).value;
    ClaimHitsOpen(s.store, op, s.now);
    if claim.Advance? {
      CommandsSaveNothing(s.clients[claim.c], claim.input, s.nextToken, s.now);
    }
    assert claim.WorkerOp? && op.id in s.queued;
    assert SessionOk(s.store.sessions[op.id], op.id, s.nextId, s.queued);
  }
}
