// The queued-search protocol as a step system. Any number of clients run the admission
// saga, any number of workers run the job processor, and the queue may deliver a job at
// any time, again and again. Every awaited command is one step; a step may also take
// effect and lose its reply. Runs are arbitrary sequences of steps, so a statement about
// all runs is a statement about all interleavings.

module QueuedSearch {
  import opened Common
  import A = SearchAdmission
  import S = SearchSessions

  // ---------------------------------------------------------------------------------
  // State
  // ---------------------------------------------------------------------------------

  /** A job in the queue: adding an id that is present is a no-op. */
  datatype Job = Job(searchId: SearchId, token: Token, fingerprint: Fingerprint, finished: bool)

  /** The reservation a client holds; `created` when its own reserve call created it. */
  datatype Held = Held(created: bool, searchId: SearchId, token: Token)

  datatype ClientPc = AtReserve | AtAdd | AtRead | AtState | AtAdopt | AtReleaseTerminal
                    | Catching | Returned | Refused

  /** A call of the admission saga. `last` is what the ledger held for the job right after
      the client's latest script step. */
  datatype Client = Client(
    job: JobId,
    fingerprint: Fingerprint,
    own: SearchId,
    token: Token,
    pc: ClientPc,
    held: Option<Held>,
    stored: Option<Job>,
    sawFinished: bool,
    last: Option<A.Record>)

  datatype Exit = ContractError | BeginRefused | Mismatch | StaleExit | RetryExit | FaultExit
                | SettledExit

  datatype WorkerPc = Delivered | Claiming | Searching | Confirming(ok: bool)
                    | Persisting(ok: bool) | MarkingRetry | MarkingFailed | Reowning
                    | Releasing | Done(exit: Exit)

  /** One run of the job processor. `ok` in its program counter is the success flag of the
      search response; `lost` records a refused heartbeat renewal. */
  datatype Worker = Worker(
    job: JobId,
    searchId: SearchId,
    token: Token,
    execution: Token,
    fence: nat,
    lost: bool,
    pc: WorkerPc)

  datatype Event =
    | Claimed(id: SearchId, execution: Token, fence: nat)
    | Wrote(id: SearchId, execution: Token, fence: nat, stage: S.Stage)
    | SlotReturned(worker: nat, id: SearchId, removed: Option<SearchId>)

  datatype Config = Config(lease: nat, maximum: nat)

  /** `issued` remembers which search each admission token was drawn for. */
  datatype Sys = Sys(
    config: Config,
    now: int,
    ledger: A.Ledger,
    sessions: S.Store,
    jobs: map<JobId, Job>,
    clients: map<nat, Client>,
    workers: map<nat, Worker>,
    nextToken: nat,
    nextSearch: nat,
    issued: map<Token, SearchId>,
    log: seq<Event>)

  function Start(config: Config): Sys {
    Sys(config, 0, A.EMPTY, S.EMPTY, map[], map[], map[], 0, 0, map[], [])
  }

  // ---------------------------------------------------------------------------------
  // Steps
  // ---------------------------------------------------------------------------------

  datatype Step =
    | Tick(elapsed: nat)
    | OpenClient(c: nat, job: JobId, fingerprint: Fingerprint)
    | ReserveSlot(c: nat, lost: bool)
    | AddJob(c: nat, lost: bool)
    | ReadJob(c: nat)
    | ReadState(c: nat)
    | AdoptStored(c: nat, lost: bool)
    | ReleaseFinished(c: nat, lost: bool)
    | FailClient(c: nat)
    | Compensate(c: nat, skipped: bool)
    | Deliver(w: nat, job: JobId, valid: bool)
    | BeginExecution(w: nat, lost: bool)
    | ClaimSession(w: nat, lost: bool, again: bool)
    | CallProviders(w: nat, delivered: bool, ok: bool, again: bool)
    | Heartbeat(w: nat)
    | ConfirmOwnership(w: nat, joined: bool)
    | PersistResults(w: nat, patch: S.Patch, lost: bool, again: bool)
    | MarkRetry(w: nat, patch: S.Patch, lost: bool)
    | ConfirmRetry(w: nat, joined: bool)
    | MarkFailed(w: nat, patch: S.Patch, lost: bool)
    | ReturnSlot(w: nat)
    | FaultInSearch(w: nat, again: bool)
    | CrashWorker(w: nat)
    | FinishJob(job: JobId)
    | RemoveJob(job: JobId)
    | TakeSnapshot
    | OtherSessionOp(op: S.Op)

  function WithClient(s: Sys, c: nat, x: Client): Sys {
    s.(clients := s.clients[c := x])
  }

  function WithWorker(s: Sys, w: nat, x: Worker): Sys {
    s.(workers := s.workers[w := x])
  }

  function RecordOf(l: A.Ledger, j: JobId): Option<A.Record> {
    if j in l.records then Some(l.records[j]) else None
  }

  /** The request handler opens a queued session and enters the saga. */
  function DoOpenClient(s: Sys, st: Step): Sys
    requires st.OpenClient?
  {
    if st.c in s.clients then s
    else
      var saved := S.Eval(s.sessions,
        S.Save(s.nextSearch, S.QUEUED_DRAFT), s.now);
      s.(sessions := saved.0,
         nextSearch := s.nextSearch + 1,
         nextToken := s.nextToken + 1,
         issued := s.issued[s.nextToken := s.nextSearch],
         clients := s.clients[st.c := Client(
           st.job, st.fingerprint, s.nextSearch, s.nextToken,
           if saved.1.Accepted? then AtReserve else Refused, None, None, false, None)])
  }

  function DoReserve(s: Sys, st: Step): Sys
    requires st.ReserveSlot?
  {
    if st.c !in s.clients || s.clients[st.c].pc != AtReserve then s
    else
      var x := s.clients[st.c];
      var r := A.Eval(s.ledger, A.Reserve(x.job, x.own, x.token, x.fingerprint,
                                          s.now, s.config.lease, s.config.maximum));
      var admitted := (r.1.Created? || r.1.Existing?) && !st.lost;
      var y := x.(
        pc := if admitted then AtAdd else Catching,
        held := if admitted then Some(Held(r.1.Created?, r.1.searchId, r.1.token)) else None,
        last := RecordOf(r.0, x.job));
      WithClient(s.(ledger := r.0), st.c, y)
  }

  function DoAddJob(s: Sys, st: Step): Sys
    requires st.AddJob?
  {
    if st.c !in s.clients || s.clients[st.c].pc != AtAdd || s.clients[st.c].held.None? then s
    else
      var x := s.clients[st.c];
      var job := Job(x.held.value.searchId, x.held.value.token, x.fingerprint, false);
      var jobs := if x.job in s.jobs then s.jobs else s.jobs[x.job := job];
      WithClient(s.(jobs := jobs), st.c, x.(pc := if st.lost then Catching else AtRead))
  }

  /** The request handler drops the session it opened when another search is used. */
  function DropOwnSession(s: Sys, x: Client, used: Option<SearchId>): Sys {
    if used == Some(x.own) then s
    else s.(sessions := S.Eval(s.sessions, S.Clear(x.own), s.now).0)
  }

  function DoReadJob(s: Sys, st: Step): Sys
    requires st.ReadJob?
  {
    if st.c !in s.clients || s.clients[st.c].pc != AtRead || s.clients[st.c].held.None? then s
    else
      var x := s.clients[st.c];
      if x.job !in s.jobs then WithClient(s, st.c, x.(pc := Catching))
      else
        var stored := s.jobs[x.job];
        var retained := stored.searchId != x.held.value.searchId
                        || stored.token != x.held.value.token;
        if stored.fingerprint != x.fingerprint then WithClient(s, st.c, x.(pc := Catching))
        else if retained then WithClient(s, st.c, x.(stored := Some(stored), pc := AtState))
        else
          WithClient(DropOwnSession(s, x, Some(stored.searchId)), st.c,
                     x.(stored := Some(stored), pc := Returned))
  }

  function DoReadState(s: Sys, st: Step): Sys
    requires st.ReadState?
  {
    if st.c !in s.clients || s.clients[st.c].pc != AtState then s
    else
      var x := s.clients[st.c];
      var finished := x.job in s.jobs && s.jobs[x.job].finished;
      WithClient(s, st.c, x.(sawFinished := finished, pc :=
        if x.job !in s.jobs then Catching
        else if finished then AtReleaseTerminal else AtAdopt))
  }

  function DoAdopt(s: Sys, st: Step): Sys
    requires st.AdoptStored?
  {
    if st.c !in s.clients || s.clients[st.c].pc != AtAdopt
       || s.clients[st.c].held.None? || s.clients[st.c].stored.None? then s
    else
      var x := s.clients[st.c];
      var stored := x.stored.value;
      var r := A.Eval(s.ledger, A.Adopt(x.job, x.held.value.token, stored.searchId, stored.token,
                                        x.fingerprint, s.now, s.config.lease));
      var y := x.(last := RecordOf(r.0, x.job));
      var t := s.(ledger := r.0);
      if r.1 != A.Answer(true) || st.lost then WithClient(t, st.c, y.(pc := Catching))
      else
        WithClient(DropOwnSession(t, x, Some(stored.searchId)), st.c, y.(
          pc := Returned, held := Some(Held(false, stored.searchId, stored.token))))
  }

  function DoReleaseFinished(s: Sys, st: Step): Sys
    requires st.ReleaseFinished?
  {
    if st.c !in s.clients || s.clients[st.c].pc != AtReleaseTerminal
       || s.clients[st.c].held.None? || s.clients[st.c].stored.None? then s
    else
      var x := s.clients[st.c];
      var r := A.Eval(s.ledger, A.ReleaseTerminal(x.job, x.held.value.token));
      var y := x.(last := RecordOf(r.0, x.job));
      var t := s.(ledger := r.0);
      if r.1 != A.Answer(true) || st.lost then WithClient(t, st.c, y.(pc := Catching))
      else
        WithClient(DropOwnSession(t, x, Some(x.stored.value.searchId)), st.c, y.(
          pc := Returned, held := Some(x.held.value.(created := false))))
  }

  function DoFailClient(s: Sys, st: Step): Sys
    requires st.FailClient?
  {
    if st.c !in s.clients || s.clients[st.c].pc in {Returned, Refused} then s
    else WithClient(s, st.c, s.clients[st.c].(pc := Catching))
  }

  /** The saga's catch block gives back only a reservation the call itself created. */
  function DoCompensate(s: Sys, st: Step): Sys
    requires st.Compensate?
  {
    if st.c !in s.clients || s.clients[st.c].pc != Catching then s
    else
      var x := s.clients[st.c];
      var releases := x.held.Some? && x.held.value.created && !st.skipped;
      var l := if releases then A.Eval(s.ledger, A.Release(x.job, x.held.value.token, 0)).0
               else s.ledger;
      WithClient(DropOwnSession(s.(ledger := l), x, None), st.c, x.(pc := Refused))
  }

  function DoDeliver(s: Sys, st: Step): Sys
    requires st.Deliver?
  {
    if st.w in s.workers || st.job !in s.jobs then s
    else
      var j := s.jobs[st.job];
      WithWorker(s.(nextToken := s.nextToken + 1), st.w, Worker(
        st.job, j.searchId, j.token, s.nextToken, 0, false,
        if st.valid then Delivered else Done(ContractError)))
  }

  predicate At(s: Sys, w: nat, pc: WorkerPc) {
    w in s.workers && s.workers[w].pc == pc
  }

  function DoBegin(s: Sys, st: Step): Sys
    requires st.BeginExecution?
  {
    if !At(s, st.w, Delivered) then s
    else
      var x := s.workers[st.w];
      var r := A.Eval(s.ledger, A.Begin(x.job, x.token, s.now, s.config.lease));
      var t := s.(ledger := r.0);
      if !r.1.Began? || st.lost then WithWorker(t, st.w, x.(pc := Done(BeginRefused)))
      else if r.1.searchId != x.searchId then WithWorker(t, st.w, x.(pc := Done(Mismatch)))
      else WithWorker(t, st.w, x.(fence := r.1.fence, pc := Claiming))
  }

  /** Where the catch block goes for an error that is not a staleness error. */
  function Caught(again: bool): WorkerPc {
    if again then MarkingRetry else MarkingFailed
  }

  /** Where a claim's answer takes the worker. */
  function AfterClaim(reply: S.Reply, lost: bool, again: bool): WorkerPc {
    match reply
    case Accepted(_) => if lost then Caught(again) else Searching
    case Declined(session) => if S.Terminal(session.stage) then Releasing else Done(StaleExit)
    case Rejected(fault) => if fault == S.ExecutionStale then Done(StaleExit) else Caught(again)
    case _ => Caught(again)
  }

  function DoClaim(s: Sys, st: Step): Sys
    requires st.ClaimSession?
  {
    if !At(s, st.w, Claiming) then s
    else
      var x := s.workers[st.w];
      var r := S.Eval(s.sessions, S.Claim(x.searchId, x.execution, x.fence), s.now);
      var log := if r.1.Accepted? then s.log + [Claimed(x.searchId, x.execution, x.fence)] else s.log;
      WithWorker(s.(sessions := r.0, log := log), st.w, x.(pc := AfterClaim(r.1, st.lost, st.again)))
  }

  function DoCallProviders(s: Sys, st: Step): Sys
    requires st.CallProviders?
  {
    if !At(s, st.w, Searching) then s
    else WithWorker(s, st.w, s.workers[st.w].(
      pc := if st.delivered then Confirming(st.ok) else Caught(st.again)))
  }

  function RenewCall(s: Sys, x: Worker): A.Call {
    A.Renew(x.job, x.token, x.fence, s.now, s.config.lease)
  }

  function DoHeartbeat(s: Sys, st: Step): Sys
    requires st.Heartbeat?
  {
    if st.w !in s.workers || s.workers[st.w].lost
       || s.workers[st.w].pc in {Delivered, Releasing} || s.workers[st.w].pc.Done? then s
    else
      var x := s.workers[st.w];
      var r := A.Eval(s.ledger, RenewCall(s, x));
      WithWorker(s.(ledger := r.0), st.w, x.(lost := r.1 != A.Answer(true)))
  }

  /** The ownership assertion: refused once a heartbeat was, otherwise a renewal of its own,
      or the answer of a heartbeat renewal that is still in flight (`joined`). */
  function DoConfirm(s: Sys, st: Step): Sys
    requires st.ConfirmOwnership?
  {
    if st.w !in s.workers || !s.workers[st.w].pc.Confirming? then s
    else
      var x := s.workers[st.w];
      var goOn := x.(pc := Persisting(x.pc.ok));
      if x.lost then WithWorker(s, st.w, x.(pc := Done(StaleExit)))
      else if st.joined then WithWorker(s, st.w, goOn)
      else
        var r := A.Eval(s.ledger, RenewCall(s, x));
        WithWorker(s.(ledger := r.0), st.w,
          if r.1 == A.Answer(true) then goOn else x.(lost := true, pc := Done(StaleExit)))
  }

  /** One write of the initial search: the new system, and whether it was accepted. */
  function InitialWrite(s: Sys, x: Worker, stage: S.Stage, patch: S.Patch): (Sys, S.Reply) {
    var r := S.Eval(s.sessions,
                    S.UpdateInitial(x.searchId, stage, patch, x.execution, x.fence), s.now);
    var log := if r.1.Accepted? then s.log + [Wrote(x.searchId, x.execution, x.fence, stage)]
               else s.log;
    (s.(sessions := r.0, log := log), r.1)
  }

  function DoPersist(s: Sys, st: Step): Sys
    requires st.PersistResults?
  {
    if st.w !in s.workers || !s.workers[st.w].pc.Persisting? then s
    else
      var x := s.workers[st.w];
      var r := InitialWrite(s, x, S.Complete, st.patch);
      WithWorker(r.0, st.w, x.(pc :=
        if r.1.Accepted? then (if x.pc.ok && !st.lost then Releasing else Caught(st.again))
        else if r.1 == S.Rejected(S.ExecutionStale) then Done(StaleExit)
        else Caught(st.again)))
  }

  function DoMarkRetry(s: Sys, st: Step): Sys
    requires st.MarkRetry?
  {
    if !At(s, st.w, MarkingRetry) then s
    else
      var x := s.workers[st.w];
      var r := InitialWrite(s, x, S.Retrying, st.patch);
      WithWorker(r.0, st.w, x.(pc :=
        if r.1.Accepted? && !st.lost then Reowning else Done(FaultExit)))
  }

  function DoConfirmRetry(s: Sys, st: Step): Sys
    requires st.ConfirmRetry?
  {
    if !At(s, st.w, Reowning) then s
    else
      var x := s.workers[st.w];
      if x.lost then WithWorker(s, st.w, x.(pc := Done(FaultExit)))
      else if st.joined then WithWorker(s, st.w, x.(pc := Done(RetryExit)))
      else
        var r := A.Eval(s.ledger, RenewCall(s, x));
        WithWorker(s.(ledger := r.0), st.w, x.(
          pc := Done(if r.1 == A.Answer(true) then RetryExit else FaultExit)))
  }

  function DoMarkFailed(s: Sys, st: Step): Sys
    requires st.MarkFailed?
  {
    if !At(s, st.w, MarkingFailed) then s
    else
      var x := s.workers[st.w];
      var r := InitialWrite(s, x, S.Failed, st.patch);
      WithWorker(r.0, st.w, x.(pc :=
        if r.1.Accepted? && !st.lost then Releasing else Done(FaultExit)))
  }

  /** The `finally` block of a settled attempt. */
  function DoReturnSlot(s: Sys, st: Step): Sys
    requires st.ReturnSlot?
  {
    if !At(s, st.w, Releasing) then s
    else
      var x := s.workers[st.w];
      var r := A.Eval(s.ledger, A.Release(x.job, x.token, x.fence));
      var removed := if r.1 == A.Answer(true) && x.job in s.ledger.records
                     then Some(s.ledger.records[x.job].searchId) else None;
      WithWorker(s.(ledger := r.0, log := s.log + [SlotReturned(st.w, x.searchId, removed)]),
                 st.w, x.(pc := Done(SettledExit)))
  }

  /** A failure of some other awaited call inside the try block. */
  function DoFault(s: Sys, st: Step): Sys
    requires st.FaultInSearch?
  {
    if st.w in s.workers && (s.workers[st.w].pc in {Claiming, Searching}
         || s.workers[st.w].pc.Confirming? || s.workers[st.w].pc.Persisting?) then
      WithWorker(s, st.w, s.workers[st.w].(pc := Caught(st.again)))
    else s
  }

  function DoCrash(s: Sys, st: Step): Sys
    requires st.CrashWorker?
  {
    if st.w in s.workers && !s.workers[st.w].pc.Done? then
      WithWorker(s, st.w, s.workers[st.w].(pc := Done(FaultExit)))
    else s
  }

  /** The operations of continuations, status polls and result appends on the same store. */
  predicate Continuation(op: S.Op) {
    op.Acquire? || op.RenewLease? || op.ReleaseLease? || op.Update? || op.Append? || op.Read?
  }

  function DoOther(s: Sys, st: Step): Sys {
    match st
    case Tick(elapsed) => s.(now := s.now + elapsed)
    case FinishJob(j) => if j in s.jobs then s.(jobs := s.jobs[j := s.jobs[j].(finished := true)]) else s
    case RemoveJob(j) => s.(jobs := s.jobs - {j})
    case TakeSnapshot => s.(ledger := A.Eval(s.ledger, A.Snapshot(s.now)).0)
    case OtherSessionOp(op) =>
      if Continuation(op) then s.(sessions := S.Eval(s.sessions, op, s.now).0) else s
    case _ => s
  }

  function Exec(s: Sys, st: Step): Sys {
    match st
    case OpenClient(_, _, _) => DoOpenClient(s, st)
    case ReserveSlot(_, _) => DoReserve(s, st)
    case AddJob(_, _) => DoAddJob(s, st)
    case ReadJob(_) => DoReadJob(s, st)
    case ReadState(_) => DoReadState(s, st)
    case AdoptStored(_, _) => DoAdopt(s, st)
    case ReleaseFinished(_, _) => DoReleaseFinished(s, st)
    case FailClient(_) => DoFailClient(s, st)
    case Compensate(_, _) => DoCompensate(s, st)
    case Deliver(_, _, _) => DoDeliver(s, st)
    case BeginExecution(_, _) => DoBegin(s, st)
    case ClaimSession(_, _, _) => DoClaim(s, st)
    case CallProviders(_, _, _, _) => DoCallProviders(s, st)
    case Heartbeat(_) => DoHeartbeat(s, st)
    case ConfirmOwnership(_, _) => DoConfirm(s, st)
    case PersistResults(_, _, _, _) => DoPersist(s, st)
    case MarkRetry(_, _, _) => DoMarkRetry(s, st)
    case ConfirmRetry(_, _) => DoConfirmRetry(s, st)
    case MarkFailed(_, _, _) => DoMarkFailed(s, st)
    case ReturnSlot(_) => DoReturnSlot(s, st)
    case FaultInSearch(_, _) => DoFault(s, st)
    case CrashWorker(_) => DoCrash(s, st)
    case _ => DoOther(s, st)
  }

  function Run(s: Sys, steps: seq<Step>): Sys
    decreases |steps|
  {
    if steps == [] then s else Run(Exec(s, steps[0]), steps[1..])
  }
}
