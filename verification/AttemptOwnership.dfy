// Which attempts may go on: an attempt whose admission was found lost before it confirmed
// never stores results, in any continuation of the run, and each decision of an attempt is
// made exactly on what the ledger and the session store hold.

module AttemptOwnership {
  import opened Common
  import opened QueuedSearch
  import opened QueuedSearchSafety
  import opened SlotReturns
  import A = SearchAdmission
  import S = SearchSessions
  import W = SessionWrites
  import L = AdmissionLeases

  // ---------------------------------------------------------------------------------
  // Each execution token belongs to one attempt
  // ---------------------------------------------------------------------------------

  /** The execution stored results. */
  predicate StoredResults(log: seq<Event>, execution: Token) {
    exists e <- log :: e.Wrote? && e.execution == execution && e.stage == S.Complete
  }

  /** The attempt has yet to try to store its results. */
  predicate Early(pc: WorkerPc) {
    pc in {Delivered, Claiming, Searching} || pc.Confirming? || pc.Persisting?
  }

  predicate Drawn(e: Event, nextToken: nat) {
    e.Claimed? || e.Wrote? ==> e.execution < nextToken
  }

  predicate ExecutionsInv(s: Sys) {
    && (forall w <- s.workers :: s.workers[w].execution < s.nextToken)
    && (forall v, w | v in s.workers && w in s.workers && v != w :: s.workers[v].execution != s.workers[w].execution)
    && (forall e <- s.log :: Drawn(e, s.nextToken))
    && (forall w <- s.workers :: Early(s.workers[w].pc) ==> !StoredResults(s.log, s.workers[w].execution))
  }

  /** What a step may log: a claim or a write of its own worker, and results only from a
      worker that is persisting. */
  predicate LoggedBy(s: Sys, st: Step, e: Event) {
    e.Claimed? || e.Wrote? ==>
      && WorkerOf(st).Some? && WorkerOf(st).value in s.workers
      && e.execution == s.workers[WorkerOf(st).value].execution
      && (e.Wrote? && e.stage == S.Complete ==>
            st.PersistResults? && s.workers[WorkerOf(st).value].pc.Persisting?)
  }

  /** The log stays or gains one event of this kind. */
  predicate LogMoves(s: Sys, st: Step, t: Sys) {
    || t.log == s.log
    || (|t.log| == |s.log| + 1 && t.log[..|s.log|] == s.log && LoggedBy(s, st, t.log[|s.log|]))
  }

  lemma ClientMovesLog(s: Sys, st: Step)
    requires st.OpenClient? || st.ReserveSlot? || st.AddJob? || st.ReadJob? || st.ReadState? || st.FailClient?
    ensures Exec(s, st).log == s.log && s.nextToken <= Exec(s, st).nextToken
  {
  }

  lemma SagaMovesLog(s: Sys, st: Step)
    requires st.AdoptStored? || st.ReleaseFinished? || st.Compensate?
    ensures Exec(s, st).log == s.log && Exec(s, st).nextToken == s.nextToken
  {
    if st.AdoptStored? {
      AdoptMovesLog(s, st);
    }
  }

  lemma AdoptMovesLog(s: Sys, st: Step)
    requires st.AdoptStored?
    ensures DoAdopt(s, st).log == s.log && DoAdopt(s, st).nextToken == s.nextToken
  {
  }

  lemma RenewalMovesLog(s: Sys, st: Step)
    ensures st.Heartbeat? ==> DoHeartbeat(s, st).log == s.log && DoHeartbeat(s, st).nextToken == s.nextToken
    ensures st.ConfirmOwnership? ==> DoConfirm(s, st).log == s.log && DoConfirm(s, st).nextToken == s.nextToken
    ensures st.ConfirmRetry? ==> DoConfirmRetry(s, st).log == s.log && DoConfirmRetry(s, st).nextToken == s.nextToken
  {
  }

  lemma AttemptMovesLog(s: Sys, st: Step)
    requires st.BeginExecution? || st.CallProviders? || st.FaultInSearch? || st.CrashWorker?
    ensures Exec(s, st).log == s.log && Exec(s, st).nextToken == s.nextToken
  {
  }

  lemma DeliverMovesLog(s: Sys, st: Step)
    requires st.Deliver?
    ensures Exec(s, st).log == s.log && s.nextToken <= Exec(s, st).nextToken
  {
  }

  lemma ClaimMovesLog(s: Sys, st: Step)
    requires st.ClaimSession?
    ensures LogMoves(s, st, DoClaim(s, st)) && DoClaim(s, st).nextToken == s.nextToken
  {
  }

  lemma PersistMovesLog(s: Sys, st: Step)
    requires st.PersistResults?
    ensures LogMoves(s, st, DoPersist(s, st)) && DoPersist(s, st).nextToken == s.nextToken
  {
  }

  lemma MarkMovesLog(s: Sys, st: Step)
    requires st.MarkRetry? || st.MarkFailed?
    ensures LogMoves(s, st, Exec(s, st)) && Exec(s, st).nextToken == s.nextToken
  {
  }

  lemma ReturnMovesLog(s: Sys, st: Step)
    requires st.ReturnSlot?
    ensures LogMoves(s, st, DoReturnSlot(s, st)) && DoReturnSlot(s, st).nextToken == s.nextToken
  {
  }

  lemma OtherMovesLog(s: Sys, st: Step)
    requires st.Tick? || st.FinishJob? || st.RemoveJob? || st.TakeSnapshot? || st.OtherSessionOp?
    ensures Exec(s, st).log == s.log && Exec(s, st).nextToken == s.nextToken
  {
  }

  lemma StepMovesLog(s: Sys, st: Step)
    ensures LogMoves(s, st, Exec(s, st)) && s.nextToken <= Exec(s, st).nextToken
  {
    match st
    case OpenClient(_, _, _) => ClientMovesLog(s, st);
    case ReserveSlot(_, _) => ClientMovesLog(s, st);
    case AddJob(_, _) => ClientMovesLog(s, st);
    case ReadJob(_) => ClientMovesLog(s, st);
    case ReadState(_) => ClientMovesLog(s, st);
    case FailClient(_) => ClientMovesLog(s, st);
    case AdoptStored(_, _) => SagaMovesLog(s, st);
    case ReleaseFinished(_, _) => SagaMovesLog(s, st);
    case Compensate(_, _) => SagaMovesLog(s, st);
    case Deliver(_, _, _) => DeliverMovesLog(s, st);
    case ClaimSession(_, _, _) => ClaimMovesLog(s, st);
    case PersistResults(_, _, _, _) => PersistMovesLog(s, st);
    case MarkRetry(_, _, _) => MarkMovesLog(s, st);
    case MarkFailed(_, _, _) => MarkMovesLog(s, st);
    case ReturnSlot(_) => ReturnMovesLog(s, st);
    case Heartbeat(_) => RenewalMovesLog(s, st);
    case ConfirmOwnership(_, _) => RenewalMovesLog(s, st);
    case ConfirmRetry(_, _) => RenewalMovesLog(s, st);
    case Tick(_) => OtherMovesLog(s, st);
    case FinishJob(_) => OtherMovesLog(s, st);
    case RemoveJob(_) => OtherMovesLog(s, st);
    case TakeSnapshot => OtherMovesLog(s, st);
    case OtherSessionOp(_) => OtherMovesLog(s, st);
    case _ => AttemptMovesLog(s, st);
  }

  // ---------------------------------------------------------------------------------
  // The step of the worker itself
  // ---------------------------------------------------------------------------------

  /** What a worker's own step makes of it: the same attempt; and it is early afterwards only
      if it was before, and persists only from a confirmation that was not lost. */
  predicate Continues(x: Worker, y: Worker, st: Step) {
    && y.execution == x.execution && y.searchId == x.searchId && y.job == x.job
    && (Early(y.pc) ==> Early(x.pc))
    && (st.PersistResults? && x.pc.Persisting? ==> !Early(y.pc))
    && (x.lost ==> y.lost)
    && (y.pc.Persisting? && !x.pc.Persisting? ==> x.pc.Confirming? && !x.lost && st.ConfirmOwnership?)
  }

  lemma OwnHeartbeat(s: Sys, st: Step, w: nat)
    requires w in s.workers && WorkerOf(st) == Some(w) && st.Heartbeat?
    ensures w in DoHeartbeat(s, st).workers && Continues(s.workers[w], DoHeartbeat(s, st).workers[w], st)
  {
  }

  lemma OwnConfirm(s: Sys, st: Step, w: nat)
    requires w in s.workers && WorkerOf(st) == Some(w) && st.ConfirmOwnership?
    ensures w in DoConfirm(s, st).workers && Continues(s.workers[w], DoConfirm(s, st).workers[w], st)
  {
  }

  lemma OwnConfirmRetry(s: Sys, st: Step, w: nat)
    requires w in s.workers && WorkerOf(st) == Some(w) && st.ConfirmRetry?
    ensures w in DoConfirmRetry(s, st).workers && Continues(s.workers[w], DoConfirmRetry(s, st).workers[w], st)
  {
  }

  lemma OwnPersist(s: Sys, st: Step, w: nat)
    requires w in s.workers && WorkerOf(st) == Some(w) && st.PersistResults?
    ensures w in DoPersist(s, st).workers && Continues(s.workers[w], DoPersist(s, st).workers[w], st)
  {
  }

  lemma OwnMark(s: Sys, st: Step, w: nat)
    requires w in s.workers && WorkerOf(st) == Some(w) && (st.MarkRetry? || st.MarkFailed?)
    ensures w in Exec(s, st).workers && Continues(s.workers[w], Exec(s, st).workers[w], st)
  {
    if st.MarkRetry? {
      assert Exec(s, st) == DoMarkRetry(s, st);
    } else {
      assert Exec(s, st) == DoMarkFailed(s, st);
    }
  }

  lemma OwnReturn(s: Sys, st: Step, w: nat)
    requires w in s.workers && WorkerOf(st) == Some(w) && st.ReturnSlot?
    ensures w in DoReturnSlot(s, st).workers && Continues(s.workers[w], DoReturnSlot(s, st).workers[w], st)
  {
  }

  lemma OwnClaim(s: Sys, st: Step, w: nat)
    requires w in s.workers && WorkerOf(st) == Some(w) && st.ClaimSession?
    ensures w in DoClaim(s, st).workers && Continues(s.workers[w], DoClaim(s, st).workers[w], st)
  {
  }

  lemma OwnBegin(s: Sys, st: Step, w: nat)
    requires w in s.workers && WorkerOf(st) == Some(w) && st.BeginExecution?
    ensures w in DoBegin(s, st).workers && Continues(s.workers[w], DoBegin(s, st).workers[w], st)
  {
  }

  lemma OwnProgress(s: Sys, st: Step, w: nat)
    requires w in s.workers && WorkerOf(st) == Some(w)
    requires st.Deliver? || st.CallProviders? || st.FaultInSearch? || st.CrashWorker?
    ensures w in Exec(s, st).workers && Continues(s.workers[w], Exec(s, st).workers[w], st)
  {
  }

  lemma OwnOwnershipStep(s: Sys, st: Step, w: nat)
    requires w in s.workers && WorkerOf(st) == Some(w)
    requires st.Heartbeat? || st.ConfirmOwnership? || st.ConfirmRetry? || st.BeginExecution?
    ensures w in Exec(s, st).workers && Continues(s.workers[w], Exec(s, st).workers[w], st)
  {
    match st
    case Heartbeat(_) => OwnHeartbeat(s, st, w);
    case ConfirmOwnership(_, _) => OwnConfirm(s, st, w);
    case ConfirmRetry(_, _) => OwnConfirmRetry(s, st, w);
    case BeginExecution(_, _) => OwnBegin(s, st, w);
  }

  lemma OwnSessionStep(s: Sys, st: Step, w: nat)
    requires w in s.workers && WorkerOf(st) == Some(w)
    requires st.PersistResults? || st.MarkRetry? || st.MarkFailed? || st.ReturnSlot? || st.ClaimSession?
    ensures w in Exec(s, st).workers && Continues(s.workers[w], Exec(s, st).workers[w], st)
  {
    match st
    case PersistResults(_, _, _, _) => OwnPersist(s, st, w);
    case ReturnSlot(_) => OwnReturn(s, st, w);
    case ClaimSession(_, _, _) => OwnClaim(s, st, w);
    case _ => OwnMark(s, st, w);
  }

  lemma OwnContinues(s: Sys, st: Step, w: nat)
    requires w in s.workers && WorkerOf(st) == Some(w)
    ensures w in Exec(s, st).workers && Continues(s.workers[w], Exec(s, st).workers[w], st)
  {
    if st.Heartbeat? || st.ConfirmOwnership? || st.ConfirmRetry? || st.BeginExecution? {
      OwnOwnershipStep(s, st, w);
    } else if st.PersistResults? || st.MarkRetry? || st.MarkFailed? || st.ReturnSlot? || st.ClaimSession? {
      OwnSessionStep(s, st, w);
    } else {
      OwnProgress(s, st, w);
    }
  }

  lemma WritesKeepWorkers(s: Sys, st: Step)
    ensures st.PersistResults? ==> DoPersist(s, st).workers.Keys == s.workers.Keys
    ensures st.MarkRetry? ==> DoMarkRetry(s, st).workers.Keys == s.workers.Keys
    ensures st.MarkFailed? ==> DoMarkFailed(s, st).workers.Keys == s.workers.Keys
    ensures st.ReturnSlot? ==> DoReturnSlot(s, st).workers.Keys == s.workers.Keys
  {
  }

  lemma ClaimKeepsWorkers(s: Sys, st: Step)
    requires st.ClaimSession?
    ensures DoClaim(s, st).workers.Keys == s.workers.Keys
  {
  }

  lemma RenewalsKeepWorkers(s: Sys, st: Step)
    ensures st.Heartbeat? ==> DoHeartbeat(s, st).workers.Keys == s.workers.Keys
    ensures st.ConfirmOwnership? ==> DoConfirm(s, st).workers.Keys == s.workers.Keys
    ensures st.ConfirmRetry? ==> DoConfirmRetry(s, st).workers.Keys == s.workers.Keys
  {
  }

  lemma BeginKeepsWorkers(s: Sys, st: Step)
    requires st.BeginExecution?
    ensures DoBegin(s, st).workers.Keys == s.workers.Keys
  {
  }

  lemma ProgressKeepsWorkers(s: Sys, st: Step)
    requires st.CallProviders? || st.FaultInSearch? || st.CrashWorker?
    ensures Exec(s, st).workers.Keys == s.workers.Keys
  {
  }

  lemma OthersKeepWorkers(s: Sys, st: Step)
    requires st.Tick? || st.FinishJob? || st.RemoveJob? || st.TakeSnapshot? || st.OtherSessionOp?
    ensures Exec(s, st).workers == s.workers
  {
  }

  lemma OnlyDeliveryAdds(s: Sys, st: Step)
    requires !st.Deliver?
    ensures Exec(s, st).workers.Keys == s.workers.Keys
  {
    match st
    case OpenClient(_, _, _) => ClientStepKeepsWorkers(s, st);
    case ReserveSlot(_, _) => ClientStepKeepsWorkers(s, st);
    case AddJob(_, _) => ClientStepKeepsWorkers(s, st);
    case ReadJob(_) => ClientStepKeepsWorkers(s, st);
    case ReadState(_) => ClientStepKeepsWorkers(s, st);
    case FailClient(_) => ClientStepKeepsWorkers(s, st);
    case AdoptStored(_, _) => SagaStepKeepsWorkers(s, st);
    case ReleaseFinished(_, _) => SagaStepKeepsWorkers(s, st);
    case Compensate(_, _) => SagaStepKeepsWorkers(s, st);
    case PersistResults(_, _, _, _) => WritesKeepWorkers(s, st);
    case MarkRetry(_, _, _) => WritesKeepWorkers(s, st);
    case MarkFailed(_, _, _) => WritesKeepWorkers(s, st);
    case ReturnSlot(_) => WritesKeepWorkers(s, st);
    case ClaimSession(_, _, _) => ClaimKeepsWorkers(s, st);
    case Heartbeat(_) => RenewalsKeepWorkers(s, st);
    case ConfirmOwnership(_, _) => RenewalsKeepWorkers(s, st);
    case ConfirmRetry(_, _) => RenewalsKeepWorkers(s, st);
    case BeginExecution(_, _) => BeginKeepsWorkers(s, st);
    case CallProviders(_, _, _, _) => ProgressKeepsWorkers(s, st);
    case FaultInSearch(_, _) => ProgressKeepsWorkers(s, st);
    case CrashWorker(_) => ProgressKeepsWorkers(s, st);
    case Tick(_) => OthersKeepWorkers(s, st);
    case FinishJob(_) => OthersKeepWorkers(s, st);
    case RemoveJob(_) => OthersKeepWorkers(s, st);
    case TakeSnapshot => OthersKeepWorkers(s, st);
    case OtherSessionOp(_) => OthersKeepWorkers(s, st);
  }

  lemma DeliveryAdds(s: Sys, st: Step)
    requires st.Deliver?
    ensures var t := DoDeliver(s, st);
            t.log == s.log
            && forall v <- t.workers :: v !in s.workers ==>
                 v == st.w && t.workers[v].execution == s.nextToken && s.nextToken < t.nextToken
  {
  }

  /** Workers of the new state are those of the old, and possibly one that was just delivered
      with a fresh execution token. */
  lemma WorkersOnly(s: Sys, st: Step, v: nat)
    requires v in Exec(s, st).workers && v !in s.workers
    ensures st.Deliver? && v == st.w
    ensures Exec(s, st).workers[v].execution == s.nextToken && s.nextToken < Exec(s, st).nextToken
    ensures Exec(s, st).log == s.log
  {
    if !st.Deliver? {
      OnlyDeliveryAdds(s, st);
    } else {
      DeliveryAdds(s, st);
    }
  }

  lemma KeptOrDelivered(s: Sys, st: Step, v: nat)
    requires v in s.workers
    ensures v in Exec(s, st).workers && Exec(s, st).workers[v].execution == s.workers[v].execution
    ensures Early(Exec(s, st).workers[v].pc) ==> Early(s.workers[v].pc)
    ensures WorkerOf(st) != Some(v) ==> Exec(s, st).workers[v] == s.workers[v]
  {
    if WorkerOf(st) == Some(v) {
      OwnContinues(s, st, v);
    } else {
      StepKeepsOthers(s, st, v);
    }
  }

  lemma NothingStoredYet(log: seq<Event>, nextToken: nat)
    requires forall e <- log :: Drawn(e, nextToken)
    ensures !StoredResults(log, nextToken)
  {
  }

  /** A step that logs at most this adds no results of execution x, unless its own worker
      persists under x. */
  lemma NoNewResults(s: Sys, st: Step, t: Sys, x: Token)
    requires LogMoves(s, st, t) && !StoredResults(s.log, x)
    requires !(WorkerOf(st).Some? && WorkerOf(st).value in s.workers && st.PersistResults?
               && s.workers[WorkerOf(st).value].execution == x && s.workers[WorkerOf(st).value].pc.Persisting?)
    ensures !StoredResults(t.log, x)
  {
    forall e | e in t.log && e.Wrote? && e.execution == x ensures e.stage != S.Complete {
      var i :| 0 <= i < |t.log| && t.log[i] == e;
      if i < |s.log| {
        assert t.log[..|s.log|][i] == t.log[i];
        assert s.log[i] in s.log;
      }
    }
  }

  lemma EarlyKeeps(s: Sys, st: Step, v: nat)
    requires ExecutionsInv(s) && v in Exec(s, st).workers && Early(Exec(s, st).workers[v].pc)
    ensures !StoredResults(Exec(s, st).log, Exec(s, st).workers[v].execution)
  {
    var t := Exec(s, st);
    StepMovesLog(s, st);
    if v in s.workers {
      KeptOrDelivered(s, st, v);
      if WorkerOf(st) == Some(v) {
        OwnContinues(s, st, v);
      }
      NoNewResults(s, st, t, s.workers[v].execution);
    } else {
      WorkersOnly(s, st, v);
      NothingStoredYet(s.log, s.nextToken);
    }
  }

  lemma DrawnOne(s: Sys, st: Step, e: Event)
    requires ExecutionsInv(s) && LoggedBy(s, st, e)
    ensures Drawn(e, s.nextToken)
  {
  }

  lemma DrawnLater(log: seq<Event>, nextToken: nat, later: nat)
    requires (forall e <- log :: Drawn(e, nextToken)) && nextToken <= later
    ensures forall e <- log :: Drawn(e, later)
  {
  }

  lemma DrawnAppended(log: seq<Event>, e: Event, nextToken: nat)
    requires (forall x <- log :: Drawn(x, nextToken)) && Drawn(e, nextToken)
    ensures forall x <- log + [e] :: Drawn(x, nextToken)
  {
  }

  lemma LogSplits(log: seq<Event>, more: seq<Event>)
    requires |more| == |log| + 1 && more[..|log|] == log
    ensures more == log + [more[|log|]]
  {
  }

  lemma DrawnKeeps(s: Sys, st: Step)
    requires ExecutionsInv(s)
    ensures forall e <- Exec(s, st).log :: Drawn(e, Exec(s, st).nextToken)
  {
    var log, nextToken := Exec(s, st).log, Exec(s, st).nextToken;
    StepMovesLog(s, st);
    DrawnLater(s.log, s.nextToken, nextToken);
    if log != s.log {
      LogSplits(s.log, log);
      DrawnOne(s, st, log[|s.log|]);
      DrawnAppended(s.log, log[|s.log|], nextToken);
    }
  }

  lemma TokensKeep(s: Sys, st: Step, v: nat)
    requires ExecutionsInv(s) && v in Exec(s, st).workers
    ensures Exec(s, st).workers[v].execution < Exec(s, st).nextToken
    ensures v !in s.workers ==> Exec(s, st).workers[v].execution == s.nextToken
    ensures v in s.workers ==> Exec(s, st).workers[v].execution == s.workers[v].execution < s.nextToken
  {
    StepMovesLog(s, st);
    if v in s.workers {
      KeptOrDelivered(s, st, v);
    } else {
      WorkersOnly(s, st, v);
    }
  }

  lemma OnlyOneIsNew(s: Sys, st: Step, v: nat, w: nat)
    requires v in Exec(s, st).workers && w in Exec(s, st).workers && v !in s.workers && w !in s.workers
    ensures v == w
  {
    WorkersOnly(s, st, v);
    WorkersOnly(s, st, w);
  }

  lemma StepKeepsExecutions(s: Sys, st: Step)
    requires ExecutionsInv(s)
    ensures ExecutionsInv(Exec(s, st))
  {
    var t := Exec(s, st);
    DrawnKeeps(s, st);
    forall v | v in t.workers
      ensures t.workers[v].execution < t.nextToken
      ensures Early(t.workers[v].pc) ==> !StoredResults(t.log, t.workers[v].execution)
    {
      TokensKeep(s, st, v);
      if Early(t.workers[v].pc) {
        EarlyKeeps(s, st, v);
      }
    }
    forall v, w | v in t.workers && w in t.workers && v != w
      ensures t.workers[v].execution != t.workers[w].execution
    {
      TokensKeep(s, st, v);
      TokensKeep(s, st, w);
      if v !in s.workers && w !in s.workers {
        OnlyOneIsNew(s, st, v, w);
      }
    }
  }

  lemma {:induction false} RunKeepsExecutions(s: Sys, steps: seq<Step>)
    requires ExecutionsInv(s)
    ensures ExecutionsInv(Run(s, steps))
    decreases |steps|
  {
    if steps != [] {
      StepKeepsExecutions(s, steps[0]);
      RunKeepsExecutions(Exec(s, steps[0]), steps[1..]);
    }
  }

  lemma StartHasNoExecutions(config: Config)
    ensures ExecutionsInv(Start(config))
  {
  }

  // ---------------------------------------------------------------------------------
  // An attempt that found its admission lost stores nothing
  // ---------------------------------------------------------------------------------

  /** The attempt has found its admission lost, or is past storing, and stored nothing. */
  predicate Barred(s: Sys, w: nat, x: Token) {
    && w in s.workers && s.workers[w].execution == x
    && !s.workers[w].pc.Persisting? && (Early(s.workers[w].pc) ==> s.workers[w].lost)
    && !StoredResults(s.log, x)
  }

  lemma BarredStep(s: Sys, st: Step, w: nat, x: Token)
    requires ExecutionsInv(s) && Barred(s, w, x)
    ensures Barred(Exec(s, st), w, x)
  {
    StepMovesLog(s, st);
    KeptOrDelivered(s, st, w);
    if WorkerOf(st) == Some(w) {
      OwnContinues(s, st, w);
    }
    NoNewResults(s, st, Exec(s, st), x);
  }

  lemma {:induction false} BarredRun(s: Sys, steps: seq<Step>, w: nat, x: Token)
    requires ExecutionsInv(s) && Barred(s, w, x)
    ensures Barred(Run(s, steps), w, x)
    decreases |steps|
  {
    if steps != [] {
      StepKeepsExecutions(s, steps[0]);
      BarredStep(s, steps[0], w, x);
      BarredRun(Exec(s, steps[0]), steps[1..], w, x);
    }
  }

  /** A heartbeat of a running attempt is refused exactly when the record of its job is gone
      or has another token or number. */
  lemma HeartbeatFindsLossIff(s: Sys, w: nat)
    requires w in s.workers && !s.workers[w].lost
    requires s.workers[w].pc in {Claiming, Searching} || s.workers[w].pc.Confirming?
    ensures var x, t := s.workers[w], Exec(s, Heartbeat(w));
            && w in t.workers && t.workers[w] == x.(lost := t.workers[w].lost)
            && (t.workers[w].lost <==> !A.Owns(s.ledger, x.job, x.token, x.fence))
            && t.log == s.log
            && (!t.workers[w].lost ==>
                  L.AdmittedAs(t.ledger, x.job,
                    s.ledger.records[x.job].(expiresAt := s.now + s.config.lease), x.fence))
  {
    var x := s.workers[w];
    L.RenewLeaves(s.ledger, RenewCall(s, x));
  }

  /** Once a heartbeat of a running attempt has been refused, the attempt never stores results,
      in any continuation of any run from the start. */
  lemma LostAttemptStoresNothing(config: Config, before: seq<Step>, w: nat, steps: seq<Step>)
    requires w in Run(Start(config), before).workers
    requires var x := Run(Start(config), before).workers[w];
             (x.pc in {Claiming, Searching} || x.pc.Confirming?)
             && (x.lost || !A.Owns(Run(Start(config), before).ledger, x.job, x.token, x.fence))
    ensures var s := Run(Start(config), before);
            !StoredResults(Run(Exec(s, Heartbeat(w)), steps).log, s.workers[w].execution)
  {
    var s := Run(Start(config), before);
    StartHasNoExecutions(config);
    RunKeepsExecutions(Start(config), before);
    StepKeepsExecutions(s, Heartbeat(w));
    if s.workers[w].lost {
      BarredStep(s, Heartbeat(w), w, s.workers[w].execution);
    } else {
      HeartbeatFindsLossIff(s, w);
    }
    BarredRun(Exec(s, Heartbeat(w)), steps, w, s.workers[w].execution);
  }

  lemma ConfirmDecides(s: Sys, w: nat)
    requires w in s.workers && s.workers[w].pc.Confirming?
    ensures var x, t := s.workers[w], Exec(s, ConfirmOwnership(w, false));
            && w in t.workers && t.workers[w].execution == x.execution && t.log == s.log
            && (if !x.lost && A.Owns(s.ledger, x.job, x.token, x.fence) then
                  && t.workers[w].pc == Persisting(x.pc.ok)
                  && L.AdmittedAs(t.ledger, x.job,
                       s.ledger.records[x.job].(expiresAt := s.now + s.config.lease), x.fence)
                else t.workers[w].pc == Done(StaleExit))
  {
    var x := s.workers[w];
    L.RenewLeaves(s.ledger, RenewCall(s, x));
  }

  /** The ownership assertion before storing, by a renewal of its own: the attempt goes on to
      store its results exactly when no heartbeat was refused and the record of its job has
      its token and number, and then for a whole new lease. Otherwise it never stores results,
      in any continuation of the run. */
  lemma StoringNeedsOwnership(config: Config, before: seq<Step>, w: nat, steps: seq<Step>)
    requires w in Run(Start(config), before).workers && Run(Start(config), before).workers[w].pc.Confirming?
    ensures var s := Run(Start(config), before);
            var x, t := s.workers[w], Exec(s, ConfirmOwnership(w, false));
            var owned := !x.lost && A.Owns(s.ledger, x.job, x.token, x.fence);
            && w in t.workers && (t.workers[w].pc.Persisting? <==> owned)
            && (owned ==> L.AdmittedAs(t.ledger, x.job,
                            s.ledger.records[x.job].(expiresAt := s.now + s.config.lease), x.fence))
            && (!owned ==> !StoredResults(Run(t, steps).log, x.execution))
  {
    var s := Run(Start(config), before);
    var st := ConfirmOwnership(w, false);
    StartHasNoExecutions(config);
    RunKeepsExecutions(Start(config), before);
    ConfirmDecides(s, w);
    StepKeepsExecutions(s, st);
    var x := s.workers[w];
    if x.lost || !A.Owns(s.ledger, x.job, x.token, x.fence) {
      BarredRun(Exec(s, st), steps, w, x.execution);
    }
  }

  /** A joined confirmation goes on exactly when no heartbeat was refused. */
  lemma JoinedConfirmIff(s: Sys, w: nat)
    requires w in s.workers && s.workers[w].pc.Confirming?
    ensures var x, t := s.workers[w], Exec(s, ConfirmOwnership(w, true));
            w in t.workers && t.workers[w].pc == if x.lost then Done(StaleExit) else Persisting(x.pc.ok)
  {
  }

  // ---------------------------------------------------------------------------------
  // The other decisions of an attempt
  // ---------------------------------------------------------------------------------

  /** A delivered attempt starts exactly when the record of its job has its token and the reply
      arrives, and then with the next number and for a whole lease. */
  lemma AttemptStartsIff(s: Sys, w: nat, lost: bool)
    requires Inv(s) && At(s, w, Delivered)
    ensures var x, t := s.workers[w], Exec(s, BeginExecution(w, lost));
            var admitted := x.job in s.ledger.records && s.ledger.records[x.job].token == x.token;
            && w in t.workers
            && (t.workers[w].pc == Claiming <==> admitted && !lost)
            && (t.workers[w].pc != Claiming ==> t.workers[w].pc == Done(BeginRefused))
            && (t.workers[w].pc == Claiming ==> t.workers[w].fence == A.Fence(s.ledger, x.job) + 1)
            && (admitted ==> L.AdmittedAs(t.ledger, x.job,
                               s.ledger.records[x.job].(expiresAt := s.now + s.config.lease),
                               A.Fence(s.ledger, x.job) + 1))
  {
    var x := s.workers[w];
    L.BeginLeaves(s.ledger, A.Begin(x.job, x.token, s.now, s.config.lease));
    assert WorkerOk(x, s.log, s.issued);
  }

  /** An attempt with a number searches exactly when its session lives, is not settled, was
      claimed with lower numbers only, and the reply arrives. It gives its slot back without
      searching exactly when the living session is settled. */
  lemma AttemptSearchesIff(s: Sys, w: nat, lost: bool, again: bool)
    requires At(s, w, Claiming)
    ensures var x, t := s.workers[w], Exec(s, ClaimSession(w, lost, again));
            var alive := W.Alive(s.sessions, x.searchId, s.now);
            var settled := alive && S.Terminal(s.sessions.sessions[x.searchId].stage);
            && w in t.workers
            && (t.workers[w].pc == Searching <==>
                  alive && !settled && x.fence > s.sessions.sessions[x.searchId].initialFence && !lost)
            && (t.workers[w].pc == Releasing <==> settled && x.fence > 0)
  {
    var x := s.workers[w];
    W.ClaimStores(s.sessions, x.searchId, x.execution, x.fence, s.now);
    ClaimReply(s.sessions, x.searchId, x.execution, x.fence, s.now);
  }

  lemma ClaimReply(s: S.Store, id: SearchId, token: Token, fence: nat, now: int)
    ensures var r := S.Eval(s, S.Claim(id, token, fence), now).1;
            && (r.Declined? ==> W.Alive(s, id, now) && r.session == s.sessions[id])
            && (fence > 0 && W.Alive(s, id, now) && !r.Accepted? ==> r.Declined?)
            && (fence == 0 ==> r == S.Rejected(S.ExecutionStale))
            && !r.Acquired?
  {
  }

  /** The store accepts the results of an attempt exactly while it is the last that claimed the
      living session and no continuation runs. The session is then settled with the results
      that the attempt delivered, and the attempt gives its slot back exactly when they were
      a success and the reply arrives. */
  lemma ResultsAreStored(s: Sys, w: nat, p: S.Patch, lost: bool, again: bool)
    requires w in s.workers && s.workers[w].pc.Persisting?
    ensures var x, t := s.workers[w], Exec(s, PersistResults(w, p, lost, again));
            var current := W.Alive(s.sessions, x.searchId, s.now) && Current(s.sessions.sessions[x.searchId], x, s.now);
            && w in t.workers
            && (current ==>
                  && x.searchId in t.sessions.sessions && t.sessions.sessions[x.searchId].stage == S.Complete
                  && W.Patched(s.sessions.sessions[x.searchId], t.sessions.sessions[x.searchId], p))
            && (!current ==> W.OnlyTime(s.sessions, t.sessions, s.now))
            && (t.workers[w].pc == Releasing <==> current && x.pc.ok && !lost)
  {
    var x := s.workers[w];
    PersistIsExec(s, PersistResults(w, p, lost, again));
    W.UpdateInitialStores(s.sessions, x.searchId, S.Complete, p, x.execution, x.fence, s.now);
  }

  /** The attempt is the session's current one, and no continuation holds the session. */
  predicate Current(y: S.Session, x: Worker, now: int) {
    x.fence > 0 && y.executionToken == Some(x.execution) && y.initialFence == x.fence && !S.LeaseActive(y, now)
  }

  /** An attempt that has marked its search for a retry asks the queue for one exactly when it
      still owns its admission. */
  lemma RetryNeedsOwnership(s: Sys, w: nat)
    requires At(s, w, Reowning)
    ensures var x, t := s.workers[w], Exec(s, ConfirmRetry(w, false));
            && w in t.workers
            && (t.workers[w].pc == Done(RetryExit) <==> !x.lost && A.Owns(s.ledger, x.job, x.token, x.fence))
            && (t.workers[w].pc != Done(RetryExit) ==> t.workers[w].pc == Done(FaultExit))
  {
    var x := s.workers[w];
    L.RenewLeaves(s.ledger, RenewCall(s, x));
  }
}
