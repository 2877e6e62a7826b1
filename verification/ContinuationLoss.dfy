// A request that has lost its continuation lease, and the writes that are made without one.

module ContinuationLoss {
  import opened Common
  import opened ProviderExecutions
  import opened ContinuationPass
  import opened ContinuationProtocol
  import opened ContinuationExclusion
  import S = SearchSessions
  import L = ContinuationLease

  // ---------------------------------------------------------------------------------
  // A lost lease stays lost
  // ---------------------------------------------------------------------------------

  predicate Lost(store: S.Store, now: int, id: SearchId, lease: S.Lease) {
    id in store.sessions ==> !S.HeldBy(store.sessions[id], lease, now)
  }

  /** The shape of the operations of the protocol: a write without a lease gives up
      `isContinuing`. */
  predicate Shaped(op: S.Op) {
    match op
    case Update(_, patch, holder) => S.Context(holder).None? ==> patch.isContinuing == Some(false)
    case Append(_, _, holder) => S.Context(holder).Some?
    case UpdateInitial(_, _, patch, _, _) => patch.isContinuing == Some(false)
    case _ => true
  }

  lemma RequestIsShaped(s: Sys, st: Step)
    requires Inv(s) && Request(s, st).Some?
    ensures Shaped(Request(s, st).value)
  {
    if st.Advance? {
      assert ClientOk(s.clients[st.c], s.store, s.nextId);
    }
  }

  lemma LeaseOpLost(s: S.Store, op: S.Op, now: int, id: SearchId, lease: S.Lease)
    requires Lost(s, now, id, lease) && 0 < lease.fence <= s.counter
    requires op.Acquire? || op.RenewLease? || op.ReleaseLease?
    ensures Lost(S.Eval(s, op, now).0, now, id, lease)
  {
  }

  lemma WriteLost(s: S.Store, op: S.Op, now: int, id: SearchId, lease: S.Lease)
    requires Lost(s, now, id, lease) && op.Update? && Shaped(op)
    ensures Lost(S.Eval(s, op, now).0, now, id, lease)
  {
  }

  lemma AppendLost(s: S.Store, op: S.Op, now: int, id: SearchId, lease: S.Lease)
    requires Lost(s, now, id, lease) && op.Append? && Shaped(op)
    ensures Lost(S.AfterAppend(s, op, now).0, now, id, lease)
  {
    var t := S.Sweep(s, now);
    if op.id in t.sessions {
      WriteLost(t, S.Update(op.id, S.NO_CHANGE.(hotels := Some(S.MergedHotels(t.sessions[op.id].hotels, op.hotels))),
                            op.holder), now, id, lease);
    }
  }

  lemma InitialOpLost(s: S.Store, op: S.Op, now: int, id: SearchId, lease: S.Lease)
    requires Lost(s, now, id, lease) && (op.Claim? || op.UpdateInitial?) && Shaped(op)
    ensures Lost(S.Eval(s, op, now).0, now, id, lease)
  {
  }

  lemma SaveLost(s: S.Store, op: S.Op, now: int, id: SearchId, lease: S.Lease)
    requires Lost(s, now, id, lease) && op.Save?
    ensures Lost(S.AfterSave(s, op, now).0, now, id, lease)
  {
    SaveShape(s, op, now);
  }

  lemma OpLost(s: S.Store, op: S.Op, now: int, id: SearchId, lease: S.Lease)
    requires Lost(s, now, id, lease) && 0 < lease.fence <= s.counter && Shaped(op)
    ensures Lost(S.Eval(s, op, now).0, now, id, lease)
  {
    match op
    case Save(_, _) => SaveLost(s, op, now, id, lease);
    case Claim(_, _, _) => InitialOpLost(s, op, now, id, lease);
    case UpdateInitial(_, _, _, _, _) => InitialOpLost(s, op, now, id, lease);
    case Acquire(_, _) => LeaseOpLost(s, op, now, id, lease);
    case RenewLease(_, _) => LeaseOpLost(s, op, now, id, lease);
    case ReleaseLease(_, _, _) => LeaseOpLost(s, op, now, id, lease);
    case Update(_, _, _) => WriteLost(s, op, now, id, lease);
    case Append(_, _, _) => AppendLost(s, op, now, id, lease);
    case Clear(_) =>
    case Read(_) =>
  }

  lemma LostStep(s: Sys, st: Step, id: SearchId, lease: S.Lease)
    requires Inv(s) && Lost(s.store, s.now, id, lease) && 0 < lease.fence <= s.store.counter
    ensures Lost(Exec(s, st).store, Exec(s, st).now, id, lease)
  {
    ExecStore(s, st);
    if Request(s, st).Some? {
      RequestIsShaped(s, st);
      OpLost(s.store, Request(s, st).value, s.now, id, lease);
    }
  }

  /** A lease is lost once another request acquires the search's lease, or once it expires. */
  lemma LeaseIsLost(s: Sys, st: Step, id: SearchId, lease: S.Lease)
    requires 0 < lease.fence <= s.store.counter
    ensures L.LockExpired(s.store, id, s.now) ==> Lost(s.store, s.now, id, lease)
    ensures Acquires(s, st, id) ==> Lost(Exec(s, st).store, s.now, id, lease)
  {
    ExecStore(s, st);
    if Acquires(s, st, id) {
      L.CounterStep(s.store, Request(s, st).value, s.now);
      AcquiredLease(s.store, Request(s, st).value, s.now);
    }
  }

  // ---------------------------------------------------------------------------------
  // A request without its lease is powerless
  // ---------------------------------------------------------------------------------

  lemma RefusedOp(s: S.Store, op: S.Op, now: int, id: SearchId, lease: S.Lease)
    requires L.Shows(op, id, lease) && 0 < lease.fence && Lost(s, now, id, lease)
    ensures !S.Eval(s, op, now).1.Accepted? && !S.Eval(s, op, now).1.Acquired?
    ensures S.Eval(s, op, now).0 == S.Sweep(s, now)
  {
    if op.Append? && id in S.Sweep(s, now).sessions {
      L.SweepTwice(s, now);
    }
  }

  /** What the request's own step does when its lease is lost: it changes no session, and the
      request ends or only tries to release. */
  lemma LostClientStep(s: Sys, c: nat, input: Input)
    requires Inv(s) && c in s.clients && Holding(s.clients[c].pc)
    requires Lost(s.store, s.now, s.clients[c].id, s.clients[c].lease)
    ensures var t := Exec(s, Advance(c, input));
            && t.store in {s.store, S.Sweep(s.store, s.now)}
            && c in t.clients
            && (t.clients[c].pc in {Aborting, Ended} || (s.clients[c].pc == Calling && t.clients[c].pc in {Calling, Confirming}))
            && t.clients[c].lease == s.clients[c].lease && t.clients[c].id == s.clients[c].id
  {
    var x := s.clients[c];
    assert ClientOk(x, s.store, s.nextId);
    var op := Request(s, Advance(c, input));
    if op.Some? {
      assert L.Shows(op.value, x.id, x.lease);
      RefusedOp(s.store, op.value, s.now, x.id, x.lease);
    }
  }

  predicate Powerless(s: Sys, c: nat, id: SearchId, lease: S.Lease) {
    && c in s.clients && s.clients[c].id == id && s.clients[c].lease == lease
    && (s.clients[c].pc == Ended || (Holding(s.clients[c].pc) && Lost(s.store, s.now, id, lease)))
  }

  lemma PowerlessStep(s: Sys, st: Step, c: nat, id: SearchId, lease: S.Lease)
    requires Inv(s) && Powerless(s, c, id, lease)
    ensures Powerless(Exec(s, st), c, id, lease)
  {
    assert ClientOk(s.clients[c], s.store, s.nextId);
    if s.clients[c].pc != Ended {
      LostStep(s, st, id, lease);
      if st.Advance? && st.c == c {
        LostClientStep(s, c, st.input);
      }
    }
  }

  lemma {:induction false} PowerlessRun(s: Sys, steps: seq<Step>, c: nat, id: SearchId, lease: S.Lease)
    requires Inv(s) && Powerless(s, c, id, lease)
    ensures Inv(Run(s, steps)) && Powerless(Run(s, steps), c, id, lease)
    decreases |steps|
  {
    if steps != [] {
      StepKeeps(s, steps[0]);
      PowerlessStep(s, steps[0], c, id, lease);
      PowerlessRun(Exec(s, steps[0]), steps[1..], c, id, lease);
    }
  }

  /** Once a request has lost its lease, nothing it does in any continuation of the run
      changes a session, and so no execution: the store is left as it is, or as the passing
      of time alone would leave it. */
  lemma LostLeaseChangesNothing(s: Sys, steps: seq<Step>, c: nat, input: Input)
    requires Inv(s) && c in s.clients && Holding(s.clients[c].pc)
    requires Lost(s.store, s.now, s.clients[c].id, s.clients[c].lease)
    ensures var t := Run(s, steps);
            Exec(t, Advance(c, input)).store in {t.store, S.Sweep(t.store, t.now)}
  {
    PowerlessRun(s, steps, c, s.clients[c].id, s.clients[c].lease);
    PowerlessOwnStep(Run(s, steps), c, s.clients[c].id, s.clients[c].lease, input);
  }

  lemma PowerlessOwnStep(t: Sys, c: nat, id: SearchId, lease: S.Lease, input: Input)
    requires Inv(t) && Powerless(t, c, id, lease)
    ensures Exec(t, Advance(c, input)).store in {t.store, S.Sweep(t.store, t.now)}
  {
    ExecStore(t, Advance(c, input));
    if t.clients[c].pc != Ended {
      LostClientStep(t, c, input);
    } else {
      assert Request(t, Advance(c, input)).None?;
    }
  }

  // ---------------------------------------------------------------------------------
  // Writes without a lease
  // ---------------------------------------------------------------------------------

  predicate Unfenced(pc: Pc) {
    pc in {Resetting, Concluding, Waiting}
  }

  /** A request that reads, decides and then writes without a lease overwrites whatever was
      recorded since it read, exactly when the session is still there and no lease is active:
      the stored executions become those it carries, whether or not it hears the reply. It
      carries the list it read in normal form, or the recovery of that when it resets. */
  lemma UnfencedWriteIff(s: Sys, c: nat, input: Input)
    requires c in s.clients && Unfenced(s.clients[c].pc) && input.fate != NotSent
    ensures var x, t := s.clients[c], Exec(s, Advance(c, input)).store;
            var live := S.Sweep(s.store, s.now).sessions;
            if x.id in live && !S.LeaseActive(live[x.id], s.now) then
              x.id in t.sessions && t.sessions[x.id].executions == x.executions
              && t.sessions[x.id].stage == live[x.id].stage
            else t == S.Sweep(s.store, s.now)
  {
    ExecStore(s, Advance(c, input));
  }

  /** The executions recorded for a live session survive such a write exactly when a lease is
      active or the request carries the same ones. */
  lemma RecordedExecutionsSurviveIff(s: Sys, c: nat, input: Input)
    requires c in s.clients && Unfenced(s.clients[c].pc) && input.fate != NotSent
    requires s.clients[c].id in S.Sweep(s.store, s.now).sessions
    ensures var x, t := s.clients[c], Exec(s, Advance(c, input)).store;
            var live := S.Sweep(s.store, s.now).sessions;
            && x.id in t.sessions
            && (t.sessions[x.id].executions == live[x.id].executions <==>
                S.LeaseActive(live[x.id], s.now) || x.executions == live[x.id].executions)
  {
    UnfencedWriteIff(s, c, input);
  }

  const PROMPT := Input(Delivered, map[], [], false)

  /** A run of one poll and one worker in which results are lost: the poll reads the search
      while it is queued, the worker claims it and stores its executions, and the poll then
      writes the empty list that it had read. */
  function LostUpdate(es: seq<Execution>): seq<Step> {
    [SaveQueued, Open(0, 0), WorkerOp(S.Claim(0, 7, 1)),
     WorkerOp(S.UpdateInitial(0, S.Complete, S.NO_CHANGE.(isContinuing := Some(false), executions := Some(es)), 7, 1)),
     Advance(0, PROMPT)]
  }

  lemma RunOne(s: Sys, steps: seq<Step>)
    requires steps != []
    ensures Run(s, steps) == Run(Exec(s, steps[0]), steps[1..])
  {
  }

  lemma Saved()
    ensures var s := Exec(Start(), SaveQueued);
            && s.queued == {0} && s.nextId == 1 && s.clients == map[] && s.now == 0
            && 0 in s.store.sessions && s.store.sessions[0] == S.NewSession(S.QUEUED_DRAFT, 0)
  {
  }

  lemma Polled(s: Sys)
    requires s.clients == map[] && s.now == 0
    requires 0 in s.store.sessions && s.store.sessions[0] == S.NewSession(S.QUEUED_DRAFT, 0)
    ensures var t := Exec(s, Open(0, 0));
            && t.queued == s.queued && t.now == 0
            && 0 in t.store.sessions && t.store.sessions[0] == s.store.sessions[0]
            && 0 in t.clients && t.clients[0].id == 0 && t.clients[0].pc == Concluding && t.clients[0].executions == []
  {
    assert NormalizeList([]) == [];
  }

  lemma WorkerClaims(s: Sys)
    requires 0 in s.queued && s.now == 0
    requires 0 in s.store.sessions && s.store.sessions[0] == S.NewSession(S.QUEUED_DRAFT, 0)
    ensures var t := Exec(s, WorkerOp(S.Claim(0, 7, 1)));
            && t.queued == s.queued && t.now == 0 && t.clients == s.clients
            && 0 in t.store.sessions && t.store.sessions[0] == S.Claimed(s.store.sessions[0], 7, 1, 0)
  {
  }

  lemma WorkerStores(s: Sys, es: seq<Execution>)
    requires 0 in s.queued && s.now == 0
    requires 0 in s.store.sessions
    requires s.store.sessions[0] == S.Claimed(S.NewSession(S.QUEUED_DRAFT, 0), 7, 1, 0)
    ensures var t := Exec(s, WorkerOp(S.UpdateInitial(0, S.Complete,
              S.NO_CHANGE.(isContinuing := Some(false), executions := Some(es)), 7, 1)));
            && t.now == 0 && t.clients == s.clients
            && 0 in t.store.sessions && t.store.sessions[0].stage == S.Complete
            && t.store.sessions[0].executions == es && !t.store.sessions[0].isContinuing
            && t.store.sessions[0].expiresAt > 0
  {
  }

  /** The stored executions of a completed search can be lost to a poll that began while the
      search was queued. */
  lemma StalePollErasesExecutions(es: seq<Execution>)
    ensures var was, t := Run(Start(), LostUpdate(es)[..4]), Run(Start(), LostUpdate(es));
            && 0 in was.store.sessions && was.store.sessions[0].stage == S.Complete
            && was.store.sessions[0].executions == es
            && 0 in t.store.sessions && t.store.sessions[0].stage == S.Complete
            && t.store.sessions[0].executions == []
  {
    var steps := LostUpdate(es);
    var s1 := Exec(Start(), steps[0]);
    Saved();
    var s2 := Exec(s1, steps[1]);
    Polled(s1);
    var s3 := Exec(s2, steps[2]);
    WorkerClaims(s2);
    var s4 := Exec(s3, steps[3]);
    WorkerStores(s3, es);
    var s5 := Exec(s4, steps[4]);
    UnfencedWriteIff(s4, 0, PROMPT);
    RunFour(Start(), steps[..4]);
    RunFour(Start(), steps);
    assert steps[4..] == [steps[4]] && steps[..4][4..] == [];
    RunOne(s4, [steps[4]]);
  }

  lemma RunFour(s: Sys, steps: seq<Step>)
    requires |steps| >= 4
    ensures Run(s, steps) == Run(Exec(Exec(Exec(Exec(s, steps[0]), steps[1]), steps[2]), steps[3]), steps[4..])
  {
    RunOne(s, steps);
    var s1 := Exec(s, steps[0]);
    RunOne(s1, steps[1..]);
    assert steps[1..][1..] == steps[2..];
    var s2 := Exec(s1, steps[1]);
    RunOne(s2, steps[2..]);
    assert steps[2..][1..] == steps[3..];
    var s3 := Exec(s2, steps[2]);
    RunOne(s3, steps[3..]);
    assert steps[3..][1..] == steps[4..];
  }
}
