// When the admission slot of a settled search is given back: exactly by which attempts, and
// how it comes back when an attempt kept it.

module SlotReturns {
  import opened Common
  import opened QueuedSearch
  import opened QueuedSearchSafety
  import A = SearchAdmission
  import S = SearchSessions

  /** Worker w has issued its release of the slot. */
  predicate HasReturned(log: seq<Event>, w: nat) {
    exists e <- log :: e.SlotReturned? && e.worker == w
  }

  /** The worker that a step moves. */
  function WorkerOf(st: Step): Option<nat> {
    match st
    case Deliver(w, _, _) => Some(w)
    case BeginExecution(w, _) => Some(w)
    case ClaimSession(w, _, _) => Some(w)
    case CallProviders(w, _, _, _) => Some(w)
    case Heartbeat(w) => Some(w)
    case ConfirmOwnership(w, _) => Some(w)
    case PersistResults(w, _, _, _) => Some(w)
    case MarkRetry(w, _, _) => Some(w)
    case ConfirmRetry(w, _) => Some(w)
    case MarkFailed(w, _, _) => Some(w)
    case ReturnSlot(w) => Some(w)
    case FaultInSearch(w, _) => Some(w)
    case CrashWorker(w) => Some(w)
    case _ => None
  }

  // ---------------------------------------------------------------------------------
  // A step leaves the other workers alone
  // ---------------------------------------------------------------------------------

  lemma ClientStepKeepsWorkers(s: Sys, st: Step)
    requires st.OpenClient? || st.ReserveSlot? || st.AddJob? || st.ReadJob? || st.ReadState? || st.FailClient?
    ensures Exec(s, st).workers == s.workers
  {
  }

  lemma SagaStepKeepsWorkers(s: Sys, st: Step)
    requires st.AdoptStored? || st.ReleaseFinished? || st.Compensate?
    ensures Exec(s, st).workers == s.workers
  {
    match st
    case AdoptStored(_, _) => AdoptKeepsWorkers(s, st);
    case ReleaseFinished(_, _) =>
    case Compensate(_, _) =>
  }

  lemma AdoptKeepsWorkers(s: Sys, st: Step)
    requires st.AdoptStored?
    ensures DoAdopt(s, st).workers == s.workers
  {
  }

  lemma AttemptKeepsOthers(s: Sys, st: Step, v: nat)
    requires v in s.workers && WorkerOf(st) != Some(v)
    requires st.Deliver? || st.BeginExecution? || st.CallProviders?
    ensures v in Exec(s, st).workers && Exec(s, st).workers[v] == s.workers[v]
  {
  }

  lemma RenewalKeepsOthers(s: Sys, st: Step, v: nat)
    requires v in s.workers && WorkerOf(st) != Some(v)
    requires st.Heartbeat? || st.ConfirmOwnership? || st.ConfirmRetry?
    ensures v in Exec(s, st).workers && Exec(s, st).workers[v] == s.workers[v]
  {
    if st.ConfirmOwnership? {
      ConfirmKeepsOthers(s, st, v);
    }
  }

  lemma ConfirmKeepsOthers(s: Sys, st: Step, v: nat)
    requires v in s.workers && WorkerOf(st) != Some(v) && st.ConfirmOwnership?
    ensures v in DoConfirm(s, st).workers && DoConfirm(s, st).workers[v] == s.workers[v]
  {
  }

  lemma FaultKeepsOthers(s: Sys, st: Step, v: nat)
    requires v in s.workers && WorkerOf(st) != Some(v)
    requires st.FaultInSearch? || st.CrashWorker?
    ensures v in Exec(s, st).workers && Exec(s, st).workers[v] == s.workers[v]
  {
  }

  lemma ClaimKeepsOthers(s: Sys, st: Step, v: nat)
    requires v in s.workers && WorkerOf(st) != Some(v) && st.ClaimSession?
    ensures v in DoClaim(s, st).workers && DoClaim(s, st).workers[v] == s.workers[v]
  {
  }

  lemma WriteKeepsOthers(s: Sys, st: Step, v: nat)
    requires v in s.workers && WorkerOf(st) != Some(v)
    requires st.PersistResults? || st.MarkRetry? || st.MarkFailed? || st.ReturnSlot?
    ensures v in Exec(s, st).workers && Exec(s, st).workers[v] == s.workers[v]
  {
  }

  lemma StepKeepsOthers(s: Sys, st: Step, v: nat)
    requires v in s.workers && WorkerOf(st) != Some(v)
    ensures v in Exec(s, st).workers && Exec(s, st).workers[v] == s.workers[v]
  {
    match st
    case OpenClient(_, _, _) => ClientStepKeepsWorkers(s, st);
    case ReserveSlot(_, _) => ClientStepKeepsWorkers(s, st);
    case AddJob(_, _) => ClientStepKeepsWorkers(s, st);
    case ReadJob(_) => ClientStepKeepsWorkers(s, st);
    case ReadState(_) => ClientStepKeepsWorkers(s, st);
    case FailClient(_) => ClientStepKeepsWorkers(s, st);
    case AdoptStored(_, _) => SagaStepKeepsWorkers(s, st);
    case ReleaseFinished(_, _) => SagaStepKeepsWorkers(s, st);
    case Compensate(_, _) => SagaStepKeepsWorkers(s, st);
    case ClaimSession(_, _, _) => ClaimKeepsOthers(s, st, v);
    case PersistResults(_, _, _, _) => WriteKeepsOthers(s, st, v);
    case MarkRetry(_, _, _) => WriteKeepsOthers(s, st, v);
    case MarkFailed(_, _, _) => WriteKeepsOthers(s, st, v);
    case ReturnSlot(_) => WriteKeepsOthers(s, st, v);
    case Tick(_) =>
    case FinishJob(_) =>
    case RemoveJob(_) =>
    case TakeSnapshot =>
    case OtherSessionOp(_) =>
    case Heartbeat(_) => RenewalKeepsOthers(s, st, v);
    case ConfirmOwnership(_, _) => RenewalKeepsOthers(s, st, v);
    case ConfirmRetry(_, _) => RenewalKeepsOthers(s, st, v);
    case FaultInSearch(_, _) => FaultKeepsOthers(s, st, v);
    case CrashWorker(_) => FaultKeepsOthers(s, st, v);
    case _ => AttemptKeepsOthers(s, st, v);
  }

  // ---------------------------------------------------------------------------------
  // What becomes of a worker that has settled its search
  // ---------------------------------------------------------------------------------

  /** The worker's search is settled, and it is bound to return the slot or not to. */
  predicate BoundTo(s: Sys, w: nat, earns: bool) {
    && w in s.workers && Settled(s.log, s.workers[w].searchId)
    && if earns then
         s.workers[w].pc == Releasing || (s.workers[w].pc == Done(SettledExit) && HasReturned(s.log, w))
       else s.workers[w].pc in {MarkingRetry, MarkingFailed, Done(FaultExit)}
  }

  /** A settled search has given up its execution token for good, so no write of its initial
      search is accepted any more. */
  lemma SettledWritesAreRefused(s: Sys, w: nat, stage: S.Stage, p: S.Patch)
    requires Inv(s) && w in s.workers && Settled(s.log, s.workers[w].searchId)
    ensures !InitialWrite(s, s.workers[w], stage, p).1.Accepted?
    ensures InitialWrite(s, s.workers[w], stage, p).0.log == s.log
  {
    var x := s.workers[w];
    UpdateInitialEffect(s.sessions, x.searchId, stage, p, x.execution, x.fence, s.now);
    if x.searchId in s.sessions.sessions {
      assert Agrees(s.sessions.sessions[x.searchId], s.log, x.searchId);
    }
  }

  lemma LogsGrow(log: seq<Event>, more: seq<Event>, w: nat, id: SearchId)
    requires log <= more
    ensures HasReturned(log, w) ==> HasReturned(more, w)
    ensures Settled(log, id) ==> Settled(more, id)
  {
    assert forall e <- log :: e in more;
  }

  lemma OwnReturnStep(s: Sys, st: Step, w: nat)
    requires Inv(s) && BoundTo(s, w, true) && WorkerOf(st) == Some(w) && st != CrashWorker(w)
    ensures BoundTo(Exec(s, st), w, true)
  {
    if st.ReturnSlot? && s.workers[w].pc == Releasing {
      var t := DoReturnSlot(s, st);
      var e := t.log[|s.log|];
      assert e in t.log;
      LogsGrow(s.log, t.log, w, s.workers[w].searchId);
    }
  }

  lemma OwnMarkStep(s: Sys, st: Step, w: nat)
    requires Inv(s) && BoundTo(s, w, false) && WorkerOf(st) == Some(w)
    requires st.MarkRetry? || st.MarkFailed?
    ensures BoundTo(Exec(s, st), w, false)
  {
    SettledWritesAreRefused(s, w, if st.MarkRetry? then S.Retrying else S.Failed, st.patch);
  }

  lemma OwnOtherStep(s: Sys, st: Step, w: nat)
    requires Inv(s) && BoundTo(s, w, false) && WorkerOf(st) == Some(w)
    requires !st.MarkRetry? && !st.MarkFailed?
    ensures BoundTo(Exec(s, st), w, false)
  {
  }

  lemma BoundStep(s: Sys, st: Step, w: nat, earns: bool)
    requires Inv(s) && BoundTo(s, w, earns) && st != CrashWorker(w)
    ensures BoundTo(Exec(s, st), w, earns)
  {
    if WorkerOf(st) == Some(w) {
      if earns {
        OwnReturnStep(s, st, w);
      } else if st.MarkRetry? || st.MarkFailed? {
        OwnMarkStep(s, st, w);
      } else {
        OwnOtherStep(s, st, w);
      }
    } else {
      StepKeepsOthers(s, st, w);
      LogStep(s, st);
      LogsGrow(s.log, Exec(s, st).log, w, s.workers[w].searchId);
    }
  }

  lemma {:induction false} BoundRun(s: Sys, steps: seq<Step>, w: nat, earns: bool)
    requires Inv(s) && BoundTo(s, w, earns) && CrashWorker(w) !in steps
    ensures Inv(Run(s, steps)) && BoundTo(Run(s, steps), w, earns)
    decreases |steps|
  {
    if steps != [] {
      StepKeeps(s, steps[0]);
      BoundStep(s, steps[0], w, earns);
      BoundRun(Exec(s, steps[0]), steps[1..], w, earns);
    }
  }

  /** Storing the results settles the search and binds the worker: it will return the slot
      exactly if the response was a success and the reply arrived. */
  lemma PersistBinds(s: Sys, w: nat, p: S.Patch, lost: bool, again: bool)
    requires Inv(s) && w in s.workers && s.workers[w].pc.Persisting?
    requires InitialWrite(s, s.workers[w], S.Complete, p).1.Accepted?
    ensures BoundTo(DoPersist(s, PersistResults(w, p, lost, again)), w, s.workers[w].pc.ok && !lost)
  {
    var x := s.workers[w];
    UpdateInitialEffect(s.sessions, x.searchId, S.Complete, p, x.execution, x.fence, s.now);
    SettledExtend(s.log, Wrote(x.searchId, x.execution, x.fence, S.Complete), x.searchId);
  }

  /** Exactly when an attempt gives back the slot of the search whose results it stored: in
      every continuation in which its worker finishes without crashing, the slot has been
      returned by it if and only if the response was a success and the reply of the store
      arrived. */
  lemma SlotIsReturnedIff(s: Sys, w: nat, p: S.Patch, lost: bool, again: bool, steps: seq<Step>)
    requires Inv(s) && w in s.workers && s.workers[w].pc.Persisting?
    requires InitialWrite(s, s.workers[w], S.Complete, p).1.Accepted?
    requires CrashWorker(w) !in steps
    ensures var t := Run(Exec(s, PersistResults(w, p, lost, again)), steps);
            w in t.workers
            && (t.workers[w].pc.Done? ==> (HasReturned(t.log, w) <==> s.workers[w].pc.ok && !lost))
  {
    var st := PersistResults(w, p, lost, again);
    StepKeeps(s, st);
    PersistBinds(s, w, p, lost, again);
    PersistIsExec(s, st);
    BoundRun(Exec(s, st), steps, w, s.workers[w].pc.ok && !lost);
    var t := Run(Exec(s, st), steps);
    if HasReturned(t.log, w) {
      var e :| e in t.log && e.SlotReturned? && e.worker == w;
    }
  }

  /** An accepted failure mark settles the search too, and binds the worker to the return
      exactly if its reply arrived. */
  lemma FailureMarkBinds(s: Sys, w: nat, p: S.Patch, lost: bool)
    requires Inv(s) && At(s, w, MarkingFailed)
    requires InitialWrite(s, s.workers[w], S.Failed, p).1.Accepted?
    ensures BoundTo(DoMarkFailed(s, MarkFailed(w, p, lost)), w, !lost)
  {
    var x := s.workers[w];
    UpdateInitialEffect(s.sessions, x.searchId, S.Failed, p, x.execution, x.fence, s.now);
    SettledExtend(s.log, Wrote(x.searchId, x.execution, x.fence, S.Failed), x.searchId);
  }

  /** The same for an attempt that settles its search by marking it as failed: in every
      continuation in which its worker finishes without crashing, the slot has been returned
      by it if and only if the reply of the store arrived. */
  lemma FailedSlotIsReturnedIff(s: Sys, w: nat, p: S.Patch, lost: bool, steps: seq<Step>)
    requires Inv(s) && At(s, w, MarkingFailed)
    requires InitialWrite(s, s.workers[w], S.Failed, p).1.Accepted?
    requires CrashWorker(w) !in steps
    ensures var t := Run(Exec(s, MarkFailed(w, p, lost)), steps);
            w in t.workers && (t.workers[w].pc.Done? ==> (HasReturned(t.log, w) <==> !lost))
  {
    var st := MarkFailed(w, p, lost);
    StepKeeps(s, st);
    FailureMarkBinds(s, w, p, lost);
    MarkFailedIsExec(s, st);
    BoundRun(Exec(s, st), steps, w, !lost);
    var t := Run(Exec(s, st), steps);
    if HasReturned(t.log, w) {
      var e :| e in t.log && e.SlotReturned? && e.worker == w;
    }
  }

  lemma MarkFailedIsExec(s: Sys, st: Step)
    requires st.MarkFailed?
    ensures Exec(s, st) == DoMarkFailed(s, st)
  {
  }

  /** A release removes the record exactly when it is still owned by the worker: with its
      token and its number. */
  lemma ReleaseRemovesIff(s: Sys, w: nat)
    requires Inv(s) && At(s, w, Releasing)
    ensures var x, t := s.workers[w], Exec(s, ReturnSlot(w));
            && HasReturned(t.log, w)
            && (Owned(s.ledger, x) ==> t.ledger.records == s.ledger.records - {x.job})
            && (!Owned(s.ledger, x) ==> t.ledger == s.ledger)
  {
    var x := s.workers[w];
    A.OwnershipIsChecked(s.ledger, x.job, x.token, x.fence, 0, 0);
    var t := DoReturnSlot(s, ReturnSlot(w));
    assert t.log[|s.log|] in t.log;
  }

  predicate Owned(l: A.Ledger, x: Worker) {
    x.job in l.records && l.records[x.job].token == x.token && A.Fence(l, x.job) == x.fence
  }

  lemma PersistIsExec(s: Sys, st: Step)
    requires st.PersistResults?
    ensures Exec(s, st) == DoPersist(s, st)
  {
  }

  // ---------------------------------------------------------------------------------
  // How a kept slot comes back
  // ---------------------------------------------------------------------------------

  /** A further delivery of the job, undisturbed. */
  function Redelivery(w: nat, j: JobId, again: bool): seq<Step> {
    [Deliver(w, j, true), BeginExecution(w, false), ClaimSession(w, false, again), ReturnSlot(w)]
  }

  lemma RunFour(s: Sys, a: Step, b: Step, c: Step, d: Step)
    ensures Run(s, [a, b, c, d]) == Exec(Exec(Exec(Exec(s, a), b), c), d)
  {
    RunStep(s, [a, b, c, d]);
    var s1 := Exec(s, a);
    assert [a, b, c, d][1..] == [b, c, d];
    RunStep(s1, [b, c, d]);
    var s2 := Exec(s1, b);
    assert [b, c, d][1..] == [c, d];
    RunStep(s2, [c, d]);
    var s3 := Exec(s2, c);
    assert [c, d][1..] == [d];
    RunStep(s3, [d]);
    assert [d][1..] == [];
  }

  lemma RunStep(s: Sys, steps: seq<Step>)
    requires steps != []
    ensures Run(s, steps) == Run(Exec(s, steps[0]), steps[1..])
  {
  }

  lemma Redelivered(s: Sys, w: nat, j: JobId)
    requires w !in s.workers && j in s.jobs
    ensures var t := Exec(s, Deliver(w, j, true));
            && t == s.(nextToken := s.nextToken + 1, workers := t.workers)
            && w in t.workers
            && t.workers[w] == Worker(j, s.jobs[j].searchId, s.jobs[j].token, s.nextToken, 0, false, Delivered)
  {
  }

  lemma BegunAgain(s: Sys, w: nat, j: JobId)
    requires Inv(s) && At(s, w, Delivered) && s.workers[w].job == j
    requires j in s.ledger.records && s.ledger.records[j].token == s.workers[w].token
    ensures var t := Exec(s, BeginExecution(w, false));
            && w in t.workers
            && t.workers[w] == s.workers[w].(fence := A.Fence(s.ledger, j) + 1, pc := Claiming)
            && j in t.ledger.records && t.ledger.records[j].token == s.workers[w].token
            && A.Fence(t.ledger, j) == A.Fence(s.ledger, j) + 1
            && t.sessions == s.sessions && t.log == s.log && t.now == s.now
  {
    assert WorkerOk(s.workers[w], s.log, s.issued);
    A.BeginEffect(s.ledger, A.Begin(j, s.workers[w].token, s.now, s.config.lease));
  }

  /** The claim of a settled search is declined as terminal while the session is there, and
      fails when it has expired. */
  lemma ClaimOnSettled(s: Sys, w: nat, again: bool)
    requires Inv(s) && At(s, w, Claiming) && s.workers[w].fence > 0 && Settled(s.log, s.workers[w].searchId)
    ensures var t := Exec(s, ClaimSession(w, false, again));
            && w in t.workers && t.ledger == s.ledger && t.log == s.log
            && t.workers[w] == s.workers[w].(pc :=
                 if s.workers[w].searchId in S.Sweep(s.sessions, s.now).sessions then Releasing else Caught(again))
  {
    var id := s.workers[w].searchId;
    if id in s.sessions.sessions {
      assert Agrees(s.sessions.sessions[id], s.log, id);
    }
  }

  lemma ReturnsOwned(s: Sys, w: nat, j: JobId)
    requires w in s.workers && s.workers[w].job == j && j in s.ledger.records
    requires s.ledger.records[j].token == s.workers[w].token && A.Fence(s.ledger, j) == s.workers[w].fence
    ensures var t := Exec(s, ReturnSlot(w));
            if s.workers[w].pc == Releasing then j !in t.ledger.records && HasReturned(t.log, w)
            else t == s
  {
    if s.workers[w].pc == Releasing {
      A.OwnershipIsChecked(s.ledger, j, s.workers[w].token, s.workers[w].fence, 0, 0);
      var t := Exec(s, ReturnSlot(w));
      assert t.log[|s.log|] in t.log;
    }
  }

  /** A further delivery of a settled job whose record is still there gives the slot back,
      exactly when the session has not expired by then. */
  lemma RedeliveryReturnsTheSlotIff(s: Sys, w: nat, j: JobId, again: bool)
    requires Inv(s) && w !in s.workers && j in s.jobs && j in s.ledger.records
    requires s.ledger.records[j].token == s.jobs[j].token && Settled(s.log, s.jobs[j].searchId)
    ensures var t := Run(s, Redelivery(w, j, again));
            var live := s.jobs[j].searchId in S.Sweep(s.sessions, s.now).sessions;
            (HasReturned(t.log, w) <==> live) && (j !in t.ledger.records <==> live)
  {
    RunFour(s, Deliver(w, j, true), BeginExecution(w, false), ClaimSession(w, false, again), ReturnSlot(w));
    var s1 := Exec(s, Deliver(w, j, true));
    StepKeeps(s, Deliver(w, j, true));
    Redelivered(s, w, j);
    var s2 := Exec(s1, BeginExecution(w, false));
    StepKeeps(s1, BeginExecution(w, false));
    BegunAgain(s1, w, j);
    var s3 := Exec(s2, ClaimSession(w, false, again));
    ClaimOnSettled(s2, w, again);
    ReturnsOwned(s3, w, j);
    NewWorkerHasNotReturned(s, w);
  }

  lemma NewWorkerHasNotReturned(s: Sys, w: nat)
    requires Inv(s) && w !in s.workers
    ensures !HasReturned(s.log, w)
  {
  }

  /** Failing that, the slot comes back with the first count after its lease ran out. */
  lemma ExpiryReturnsTheSlot(s: Sys, j: JobId)
    requires A.Valid(s.ledger) && j in s.ledger.records && s.ledger.records[j].expiresAt <= s.now
    ensures j !in Exec(s, TakeSnapshot).ledger.records
  {
  }
}
