// Concrete runs of the queued-search protocol, from its start, in which it falls short: the
// states that the exact conditions speak of do occur.

module QueuedSearchRuns {
  import opened Common
  import opened QueuedSearch
  import opened QueuedSearchSafety
  import SlotReturns
  import A = SearchAdmission
  import S = SearchSessions

  lemma {:induction false} RunConcat(s: Sys, a: seq<Step>, b: seq<Step>)
    ensures Run(s, a + b) == Run(Run(s, a), b)
    decreases |a|
  {
    if a == [] {
      assert a + b == b;
    } else {
      assert (a + b)[0] == a[0] && (a + b)[1..] == a[1..] + b;
      RunConcat(Exec(s, a[0]), a[1..], b);
    }
  }

  lemma RunLast(s: Sys, steps: seq<Step>, st: Step)
    ensures Run(s, steps + [st]) == Exec(Run(s, steps), st)
  {
    RunConcat(s, steps, [st]);
    assert [st][1..] == [];
    assert Run(Run(s, steps), [st]) == Run(Exec(Run(s, steps), st), []);
  }

  // ---------------------------------------------------------------------------------
  // One client, one job, one worker that has begun
  // ---------------------------------------------------------------------------------

  function Started(j: JobId): seq<Step> {
    [OpenClient(0, j, 9), ReserveSlot(0, false), AddJob(0, false), Deliver(0, j, true), BeginExecution(0, false)]
  }

  function FirstRecord(lease: nat): A.Record {
    A.Record(0, 0, 9, 0, lease)
  }

  function FirstJob(): Job {
    Job(0, 0, 9, false)
  }

  function FirstClient(j: JobId, pc: ClientPc, last: Option<A.Record>): Client {
    Client(j, 9, 0, 0, pc, if pc == AtReserve then None else Some(Held(true, 0, 0)), None, false, last)
  }

  predicate OpenedFirst(s: Sys, config: Config, j: JobId) {
    && s.config == config && s.now == 0 && s.log == [] && s.workers == map[] && s.jobs == map[]
    && s.nextToken == 1 && s.nextSearch == 1 && s.ledger == A.EMPTY
    && s.clients == map[0 := FirstClient(j, AtReserve, None)]
    && s.sessions.sessions == map[0 := S.NewSession(S.QUEUED_DRAFT, 0)]
  }

  lemma Step1(config: Config, j: JobId)
    ensures OpenedFirst(Exec(Start(config), OpenClient(0, j, 9)), config, j)
  {
    assert S.Sweep(S.EMPTY, 0).sessions == map[];
  }

  predicate Reserved(s: Sys, config: Config, j: JobId) {
    && s.config == config && s.now == 0 && s.log == [] && s.workers == map[] && s.jobs == map[]
    && s.nextToken == 1 && s.nextSearch == 1
    && s.ledger == A.Ledger(map[j := config.lease], map[j := FirstRecord(config.lease)], map[])
    && s.clients == map[0 := FirstClient(j, AtAdd, Some(FirstRecord(config.lease)))]
    && s.sessions.sessions == map[0 := S.NewSession(S.QUEUED_DRAFT, 0)]
  }

  lemma FirstReservation(config: Config, j: JobId)
    requires config.maximum > 0
    ensures A.AfterReserve(A.EMPTY, A.Reserve(j, 0, 0, 9, 0, config.lease, config.maximum))
            == (A.Ledger(map[j := config.lease], map[j := FirstRecord(config.lease)], map[]), A.Created(0, 0))
  {
    A.ReserveFirst(j, 0, 0, 0, config.lease, config.maximum);
  }

  lemma Step2(s: Sys, config: Config, j: JobId)
    requires OpenedFirst(s, config, j) && config.maximum > 0
    ensures Reserved(Exec(s, ReserveSlot(0, false)), config, j)
  {
    FirstReservation(config, j);
  }

  predicate Queued1(s: Sys, config: Config, j: JobId) {
    && s.config == config && s.now == 0 && s.log == [] && s.workers == map[] && s.jobs == map[j := FirstJob()]
    && s.nextToken == 1 && s.nextSearch == 1
    && s.ledger == A.Ledger(map[j := config.lease], map[j := FirstRecord(config.lease)], map[])
    && s.clients == map[0 := FirstClient(j, AtRead, Some(FirstRecord(config.lease)))]
    && s.sessions.sessions == map[0 := S.NewSession(S.QUEUED_DRAFT, 0)]
  }

  lemma Step3(s: Sys, config: Config, j: JobId)
    requires Reserved(s, config, j)
    ensures Queued1(Exec(s, AddJob(0, false)), config, j)
  {
  }

  function FirstWorker(j: JobId, fence: nat, pc: WorkerPc): Worker {
    Worker(j, 0, 0, 1, fence, false, pc)
  }

  predicate DeliveredFirst(s: Sys, config: Config, j: JobId) {
    && s.config == config && s.now == 0 && s.log == [] && s.jobs == map[j := FirstJob()]
    && s.workers == map[0 := FirstWorker(j, 0, Delivered)]
    && s.nextToken == 2 && s.nextSearch == 1
    && s.ledger == A.Ledger(map[j := config.lease], map[j := FirstRecord(config.lease)], map[])
    && s.clients == map[0 := FirstClient(j, AtRead, Some(FirstRecord(config.lease)))]
    && s.sessions.sessions == map[0 := S.NewSession(S.QUEUED_DRAFT, 0)]
  }

  lemma Step4(s: Sys, config: Config, j: JobId)
    requires Queued1(s, config, j)
    ensures DeliveredFirst(Exec(s, Deliver(0, j, true)), config, j)
  {
  }

  predicate BegunFirst(s: Sys, config: Config, j: JobId) {
    && s.config == config && s.now == 0 && s.log == [] && s.jobs == map[j := FirstJob()]
    && s.workers == map[0 := FirstWorker(j, 1, Claiming)]
    && s.nextToken == 2 && s.nextSearch == 1
    && s.ledger == A.Ledger(map[j := config.lease], map[j := FirstRecord(config.lease)], map[j := 1])
    && s.clients == map[0 := FirstClient(j, AtRead, Some(FirstRecord(config.lease)))]
    && s.sessions.sessions == map[0 := S.NewSession(S.QUEUED_DRAFT, 0)]
  }

  lemma FirstBegin(config: Config, j: JobId)
    ensures A.Eval(A.Only(j, FirstRecord(config.lease), false), A.Begin(j, 0, 0, config.lease))
            == (A.Only(j, FirstRecord(config.lease), true), A.Began(1, 0))
  {
    A.BeginFirst(j, FirstRecord(config.lease), 0, config.lease);
  }

  lemma FirstRenewal(config: Config, j: JobId)
    ensures A.Eval(A.Only(j, FirstRecord(config.lease), true), A.Renew(j, 0, 1, 0, config.lease))
            == (A.Only(j, FirstRecord(config.lease), true), A.Answer(true))
  {
    A.OnlyPut(j, FirstRecord(config.lease), true, FirstRecord(config.lease));
  }

  lemma Step5(s: Sys, config: Config, j: JobId)
    requires DeliveredFirst(s, config, j)
    ensures BegunFirst(Exec(s, BeginExecution(0, false)), config, j)
  {
    FirstBegin(config, j);
  }

  lemma StartedIsBegun(config: Config, j: JobId)
    requires config.maximum > 0
    ensures BegunFirst(Run(Start(config), Started(j)), config, j)
  {
    StartedSteps(config, j);
    RunFive(Start(config), OpenClient(0, j, 9), ReserveSlot(0, false), AddJob(0, false), Deliver(0, j, true),
            BeginExecution(0, false));
  }

  lemma StartedSteps(config: Config, j: JobId)
    requires config.maximum > 0
    ensures BegunFirst(Exec(Exec(Exec(Exec(Exec(Start(config), OpenClient(0, j, 9)), ReserveSlot(0, false)),
                                      AddJob(0, false)), Deliver(0, j, true)), BeginExecution(0, false)), config, j)
  {
    Step1(config, j);
    var s1 := Exec(Start(config), OpenClient(0, j, 9));
    Step2(s1, config, j);
    var s2 := Exec(s1, ReserveSlot(0, false));
    Step3(s2, config, j);
    var s3 := Exec(s2, AddJob(0, false));
    Step4(s3, config, j);
    Step5(Exec(s3, Deliver(0, j, true)), config, j);
  }

  lemma RunTwo(s: Sys, a: Step, b: Step)
    ensures Run(s, [a, b]) == Exec(Exec(s, a), b)
  {
    RunLast(s, [a], b);
    RunLast(s, [], a);
    assert [] + [a] == [a] && [a] + [b] == [a, b];
  }

  lemma RunFive(s: Sys, a: Step, b: Step, c: Step, d: Step, e: Step)
    ensures Run(s, [a, b, c, d, e]) == Exec(Exec(Exec(Exec(Exec(s, a), b), c), d), e)
  {
    SlotReturns.RunFour(s, a, b, c, d);
    RunLast(s, [a, b, c, d], e);
    assert [a, b, c, d] + [e] == [a, b, c, d, e];
  }

  // ---------------------------------------------------------------------------------
  // A stored but unsuccessful response
  // ---------------------------------------------------------------------------------

  function Persisting1(again: bool): seq<Step> {
    [ClaimSession(0, false, again), CallProviders(0, true, false, again), ConfirmOwnership(0, false)]
  }

  predicate ClaimedFirst(s: Sys, config: Config, j: JobId, pc: WorkerPc) {
    && s.config == config && s.now == 0 && s.log == [Claimed(0, 1, 1)] && s.jobs == map[j := FirstJob()]
    && s.workers == map[0 := FirstWorker(j, 1, pc)]
    && s.ledger == A.Ledger(map[j := config.lease], map[j := FirstRecord(config.lease)], map[j := 1])
    && 0 in s.sessions.sessions
    && s.sessions.sessions[0] == S.Claimed(S.NewSession(S.QUEUED_DRAFT, 0), 1, 1, 0)
  }

  lemma FirstClaim(store: S.Store)
    requires store.sessions == map[0 := S.NewSession(S.QUEUED_DRAFT, 0)]
    ensures var r := S.Eval(store, S.Claim(0, 1, 1), 0);
            && r.1 == S.Accepted(S.Claimed(S.NewSession(S.QUEUED_DRAFT, 0), 1, 1, 0))
            && 0 in r.0.sessions
            && r.0.sessions[0] == S.Claimed(S.NewSession(S.QUEUED_DRAFT, 0), 1, 1, 0)
  {
    assert 0 in S.Sweep(store, 0).sessions;
  }

  lemma Step6(s: Sys, config: Config, j: JobId, again: bool)
    requires BegunFirst(s, config, j)
    ensures ClaimedFirst(Exec(s, ClaimSession(0, false, again)), config, j, Searching)
  {
    FirstClaim(s.sessions);
    ClaimIsExec(s, again);
  }

  lemma ClaimIsExec(s: Sys, again: bool)
    ensures Exec(s, ClaimSession(0, false, again)) == DoClaim(s, ClaimSession(0, false, again))
  {
  }

  lemma Step7(s: Sys, config: Config, j: JobId, again: bool)
    requires ClaimedFirst(s, config, j, Searching)
    ensures ClaimedFirst(Exec(s, CallProviders(0, true, false, again)), config, j, Confirming(false))
  {
  }

  lemma Step8(s: Sys, config: Config, j: JobId)
    requires ClaimedFirst(s, config, j, Confirming(false))
    ensures ClaimedFirst(Exec(s, ConfirmOwnership(0, false)), config, j, Persisting(false))
  {
    FirstRenewal(config, j);
  }

  lemma FirstWriteIsAccepted(s: Sys, config: Config, j: JobId, p: S.Patch)
    requires ClaimedFirst(s, config, j, Persisting(false))
    ensures InitialWrite(s, s.workers[0], S.Complete, p).1.Accepted?
  {
    assert 0 in S.Sweep(s.sessions, 0).sessions;
  }

  function Unsuccessful(j: JobId, p: S.Patch, again: bool, q: S.Patch): seq<Step> {
    Started(j) + Persisting1(again)
    + [PersistResults(0, p, false, again), if again then MarkRetry(0, q, false) else MarkFailed(0, q, false)]
  }

  lemma StartedPersisting(config: Config, j: JobId, again: bool)
    requires config.maximum > 0
    ensures ClaimedFirst(Run(Start(config), Started(j) + Persisting1(again)), config, j, Persisting(false))
  {
    StartedIsBegun(config, j);
    var s5 := Run(Start(config), Started(j));
    Step6(s5, config, j, again);
    var s6 := Exec(s5, ClaimSession(0, false, again));
    Step7(s6, config, j, again);
    var s7 := Exec(s6, CallProviders(0, true, false, again));
    Step8(s7, config, j);
    RunConcat(Start(config), Started(j), Persisting1(again));
    RunTwo(s5, ClaimSession(0, false, again), CallProviders(0, true, false, again));
    RunLast(s5, [ClaimSession(0, false, again), CallProviders(0, true, false, again)], ConfirmOwnership(0, false));
    assert [ClaimSession(0, false, again), CallProviders(0, true, false, again)] + [ConfirmOwnership(0, false)]
           == Persisting1(again);
  }

  lemma StepsAreDo(s: Sys, t: Sys, p: S.Patch, again: bool, q: S.Patch)
    ensures Exec(s, PersistResults(0, p, false, again)) == DoPersist(s, PersistResults(0, p, false, again))
    ensures Exec(t, if again then MarkRetry(0, q, false) else MarkFailed(0, q, false))
            == if again then DoMarkRetry(t, MarkRetry(0, q, false)) else DoMarkFailed(t, MarkFailed(0, q, false))
  {
  }

  lemma UnsuccessfulEnd(config: Config, j: JobId, p: S.Patch, again: bool, q: S.Patch)
    requires config.maximum > 0
    ensures var t := Run(Start(config), Unsuccessful(j, p, again, q));
            && Inv(t) && Settled(t.log, 0) && t.workers.Keys == {0} && t.workers[0].pc == Done(FaultExit)
            && t.ledger == A.Only(j, FirstRecord(config.lease), true)
            && t.jobs == map[j := FirstJob()] && t.now == 0 && 0 in S.Sweep(t.sessions, 0).sessions
  {
    StartedPersisting(config, j, again);
    StartIsSafe(config);
    var s := Run(Start(config), Started(j) + Persisting1(again));
    RunKeeps(Start(config), Started(j) + Persisting1(again));
    FirstWriteIsAccepted(s, config, j, p);
    UnsuccessfulCompletionKeepsItsSlot(s, 0, p, again, q);
    var a := PersistResults(0, p, false, again);
    var b := if again then MarkRetry(0, q, false) else MarkFailed(0, q, false);
    StepsAreDo(s, Exec(s, a), p, again, q);
    RunConcat(Start(config), Started(j) + Persisting1(again), [a, b]);
    RunTwo(s, a, b);
    RunKeeps(Start(config), Unsuccessful(j, p, again, q));
    EndsOfUnsuccessful(s, config, j, p, again, q);
  }

  /** A run from the start after which a search is settled, its only attempt has ended, and
      its slot is still taken: one client, one job, one delivery, and providers of which each
      is done and one has failed. A further delivery then gives the slot back. */
  lemma UnsuccessfulRunKeepsItsSlot(config: Config, j: JobId, p: S.Patch, again: bool, q: S.Patch)
    requires config.maximum > 0
    ensures var t := Run(Start(config), Unsuccessful(j, p, again, q));
            && Settled(t.log, 0) && t.workers.Keys == {0} && t.workers[0].pc == Done(FaultExit)
            && j in t.ledger.records && t.ledger.records[j] == FirstRecord(config.lease)
            && !SlotReturns.HasReturned(t.log, 0)
            && var u := Run(t, SlotReturns.Redelivery(1, j, again));
               j !in u.ledger.records && SlotReturns.HasReturned(u.log, 1)
  {
    UnsuccessfulEnd(config, j, p, again, q);
    var t := Run(Start(config), Unsuccessful(j, p, again, q));
    SlotReturns.RedeliveryReturnsTheSlotIff(t, 1, j, again);
    DoneWorkerKept(t, 0);
  }

  lemma EndsOfUnsuccessful(s: Sys, config: Config, j: JobId, p: S.Patch, again: bool, q: S.Patch)
    requires ClaimedFirst(s, config, j, Persisting(false))
    ensures var t := DoPersist(s, PersistResults(0, p, false, again));
            var u := if again then DoMarkRetry(t, MarkRetry(0, q, false)) else DoMarkFailed(t, MarkFailed(0, q, false));
            && u.workers.Keys == {0} && u.jobs == map[j := FirstJob()] && u.now == 0
            && 0 in S.Sweep(u.sessions, 0).sessions
  {
    var r := S.Eval(s.sessions, S.UpdateInitial(0, S.Complete, p, 1, 1), 0);
    assert 0 in S.Sweep(s.sessions, 0).sessions;
    assert 0 in r.0.sessions && r.0.sessions[0].expiresAt == S.SESSION_TTL;
    var t := DoPersist(s, PersistResults(0, p, false, again));
    assert t.sessions == r.0 && t.workers.Keys == {0};
    MarkKeepsSession(t, again, q);
  }

  lemma InitialWriteKeepsLive(store: S.Store, op: S.Op)
    requires op.UpdateInitial? && 0 in store.sessions && store.sessions[0].expiresAt == S.SESSION_TTL
    ensures 0 in S.Eval(store, op, 0).0.sessions
    ensures S.Eval(store, op, 0).0.sessions[0].expiresAt == S.SESSION_TTL
  {
  }

  lemma MarkKeepsSession(t: Sys, again: bool, q: S.Patch)
    requires t.now == 0 && t.workers.Keys == {0}
    requires 0 in t.sessions.sessions && t.sessions.sessions[0].expiresAt == S.SESSION_TTL
    ensures var u := if again then DoMarkRetry(t, MarkRetry(0, q, false)) else DoMarkFailed(t, MarkFailed(0, q, false));
            && u.workers.Keys == {0} && u.jobs == t.jobs && u.now == 0
            && 0 in S.Sweep(u.sessions, 0).sessions
  {
    var x := t.workers[0];
    InitialWriteKeepsLive(t.sessions, S.UpdateInitial(x.searchId, if again then S.Retrying else S.Failed, q,
                                                      x.execution, x.fence));
  }

  lemma DoneWorkerKept(t: Sys, w: nat)
    requires Inv(t) && w in t.workers && t.workers[w].pc == Done(FaultExit)
    ensures !SlotReturns.HasReturned(t.log, w)
  {
  }

  // ---------------------------------------------------------------------------------
  // A failure mark that is stored but whose reply is lost
  // ---------------------------------------------------------------------------------

  function FailedUnheard(j: JobId, q: S.Patch): seq<Step> {
    Started(j) + [ClaimSession(0, false, false), FaultInSearch(0, false), MarkFailed(0, q, true)]
  }

  lemma Step7Fault(s: Sys, config: Config, j: JobId)
    requires ClaimedFirst(s, config, j, Searching)
    ensures ClaimedFirst(Exec(s, FaultInSearch(0, false)), config, j, MarkingFailed)
  {
  }

  lemma FirstMarkIsAccepted(s: Sys, config: Config, j: JobId, q: S.Patch)
    requires ClaimedFirst(s, config, j, MarkingFailed)
    ensures InitialWrite(s, s.workers[0], S.Failed, q).1.Accepted?
  {
    assert 0 in S.Sweep(s.sessions, 0).sessions;
  }

  lemma FailedUnheardSteps(s: Sys, config: Config, j: JobId)
    requires Inv(s) && BegunFirst(s, config, j)
    ensures var t := Exec(Exec(s, ClaimSession(0, false, false)), FaultInSearch(0, false));
            Inv(t) && ClaimedFirst(t, config, j, MarkingFailed)
  {
    Step6(s, config, j, false);
    StepKeeps(s, ClaimSession(0, false, false));
    var t := Exec(s, ClaimSession(0, false, false));
    Step7Fault(t, config, j);
    StepKeeps(t, FaultInSearch(0, false));
  }

  lemma RunThree(s: Sys, a: Step, b: Step, c: Step)
    ensures Run(s, [a, b, c]) == Exec(Exec(Exec(s, a), b), c)
  {
    RunTwo(s, a, b);
    RunLast(s, [a, b], c);
    assert [a, b] + [c] == [a, b, c];
  }

  lemma FailedUnheardState(config: Config, j: JobId, q: S.Patch) returns (s: Sys)
    requires config.maximum > 0
    ensures Inv(s) && ClaimedFirst(s, config, j, MarkingFailed)
    ensures Run(Start(config), FailedUnheard(j, q)) == Exec(s, MarkFailed(0, q, true))
  {
    StartedIsBegun(config, j);
    StartIsSafe(config);
    RunKeeps(Start(config), Started(j));
    var s5 := Run(Start(config), Started(j));
    FailedUnheardSteps(s5, config, j);
    s := Exec(Exec(s5, ClaimSession(0, false, false)), FaultInSearch(0, false));
    RunConcat(Start(config), Started(j), [ClaimSession(0, false, false), FaultInSearch(0, false), MarkFailed(0, q, true)]);
    RunThree(s5, ClaimSession(0, false, false), FaultInSearch(0, false), MarkFailed(0, q, true));
  }

  lemma MarkedUnheard(s: Sys, config: Config, j: JobId, q: S.Patch)
    requires ClaimedFirst(s, config, j, MarkingFailed)
    ensures var t := DoMarkFailed(s, MarkFailed(0, q, true));
            && t.ledger == s.ledger && t.jobs == s.jobs && t.now == 0
            && t.workers.Keys == {0} && t.workers[0].pc == Done(FaultExit)
            && 0 in S.Sweep(t.sessions, 0).sessions
  {
    InitialWriteKeepsLive(s.sessions, S.UpdateInitial(0, S.Failed, q, 1, 1));
  }

  lemma FailedUnheardEnd(config: Config, j: JobId, q: S.Patch)
    requires config.maximum > 0
    ensures var t := Run(Start(config), FailedUnheard(j, q));
            && Inv(t) && Settled(t.log, 0) && t.workers.Keys == {0} && t.workers[0].pc == Done(FaultExit)
            && t.ledger == A.Only(j, FirstRecord(config.lease), true)
            && t.jobs == map[j := FirstJob()] && t.now == 0 && 0 in S.Sweep(t.sessions, 0).sessions
  {
    var s := FailedUnheardState(config, j, q);
    FirstMarkIsAccepted(s, config, j, q);
    MarkedUnheard(s, config, j, q);
    SlotReturns.FailureMarkBinds(s, 0, q, true);
    SlotReturns.MarkFailedIsExec(s, MarkFailed(0, q, true));
    StepKeeps(s, MarkFailed(0, q, true));
  }

  /** A run from the start in which the only attempt fails, marks the search as failed and
      does not hear the reply: the search is settled, the attempt has ended, and the slot is
      still taken. A further delivery gives it back. */
  lemma FailedRunKeepsItsSlot(config: Config, j: JobId, q: S.Patch, again: bool)
    requires config.maximum > 0
    ensures var t := Run(Start(config), FailedUnheard(j, q));
            && Settled(t.log, 0) && t.workers.Keys == {0} && t.workers[0].pc == Done(FaultExit)
            && j in t.ledger.records && t.ledger.records[j] == FirstRecord(config.lease)
            && !SlotReturns.HasReturned(t.log, 0)
            && var u := Run(t, SlotReturns.Redelivery(1, j, again));
               j !in u.ledger.records && SlotReturns.HasReturned(u.log, 1)
  {
    FailedUnheardEnd(config, j, q);
    var t := Run(Start(config), FailedUnheard(j, q));
    SlotReturns.RedeliveryReturnsTheSlotIff(t, 1, j, again);
    DoneWorkerKept(t, 0);
  }

  // ---------------------------------------------------------------------------------
  // A compensation that removes a record on which a worker has begun
  // ---------------------------------------------------------------------------------

  function TakenOver(j: JobId, lease: nat): seq<Step> {
    [Tick(lease), OpenClient(1, j, 9), ReserveSlot(1, false), AddJob(1, false), ReadJob(1)]
  }

  function Readopted(): seq<Step> {
    [ReadState(1), AdoptStored(1, false), FailClient(0)]
  }

  function SecondRecord(lease: nat): A.Record {
    A.Record(1, 2, 9, lease, lease + lease)
  }

  function AdoptedRecord(lease: nat): A.Record {
    A.Record(0, 0, 9, lease, lease + lease)
  }

  function SecondClient(j: JobId, pc: ClientPc, held: Option<Held>, stored: Option<Job>, last: Option<A.Record>): Client {
    Client(j, 9, 1, 2, pc, held, stored, false, last)
  }

  /** What the first client and the first worker look like while the second client acts. */
  predicate FirstStays(s: Sys, config: Config, j: JobId, pc: ClientPc) {
    && s.config == config && s.now == config.lease && s.jobs == map[j := FirstJob()]
    && s.workers == map[0 := FirstWorker(j, 1, Claiming)]
    && 0 in s.clients && s.clients[0] == FirstClient(j, pc, Some(FirstRecord(config.lease)))
  }

  lemma OpenSecond(s: Sys, config: Config, j: JobId)
    requires BegunFirst(s, config, j)
    ensures var t := Exec(Exec(s, Tick(config.lease)), OpenClient(1, j, 9));
            && FirstStays(t, config, j, AtRead) && t.ledger == s.ledger
            && 1 in t.clients && t.clients[1] == SecondClient(j, AtReserve, None, None, None)
  {
    SecondSaveIsAccepted(s.sessions, config.lease);
    OpenAfterTick(Exec(s, Tick(config.lease)), config, j);
  }

  lemma SecondSaveIsAccepted(store: S.Store, now: int)
    requires store.sessions.Keys == {0}
    ensures S.Eval(store, S.Save(1, S.QUEUED_DRAFT), now).1.Accepted?
  {
    var swept := S.Sweep(store, now).sessions;
    assert swept.Keys <= {0};
    SubsetCount(swept.Keys, {0});
    assert |swept| == |swept.Keys| <= 1;
  }

  lemma OpenAfterTick(u: Sys, config: Config, j: JobId)
    requires FirstStays(u, config, j, AtRead) && 1 !in u.clients && u.nextToken == 2 && u.nextSearch == 1
    requires S.Eval(u.sessions, S.Save(1, S.QUEUED_DRAFT), u.now).1.Accepted?
    ensures var t := Exec(u, OpenClient(1, j, 9));
            && FirstStays(t, config, j, AtRead) && t.ledger == u.ledger
            && 1 in t.clients && t.clients[1] == SecondClient(j, AtReserve, None, None, None)
  {
  }

  lemma SecondReservation(config: Config, j: JobId)
    requires config.maximum > 0
    ensures var l := A.Ledger(map[j := config.lease], map[j := FirstRecord(config.lease)], map[j := 1]);
            A.AfterReserve(l, A.Reserve(j, 1, 2, 9, config.lease, config.lease, config.maximum))
            == (A.Ledger(map[j := config.lease + config.lease], map[j := SecondRecord(config.lease)], map[]), A.Created(1, 2))
  {
    A.ReserveOver(j, FirstRecord(config.lease), 1, 2, config.lease, config.lease, config.maximum);
  }

  lemma ReserveSecond(s: Sys, config: Config, j: JobId)
    requires config.maximum > 0 && FirstStays(s, config, j, AtRead)
    requires s.ledger == A.Ledger(map[j := config.lease], map[j := FirstRecord(config.lease)], map[j := 1])
    requires 1 in s.clients && s.clients[1] == SecondClient(j, AtReserve, None, None, None)
    ensures var t := Exec(s, ReserveSlot(1, false));
            && FirstStays(t, config, j, AtRead)
            && t.ledger == A.Ledger(map[j := config.lease + config.lease], map[j := SecondRecord(config.lease)], map[])
            && 1 in t.clients
            && t.clients[1] == SecondClient(j, AtAdd, Some(Held(true, 1, 2)), None, Some(SecondRecord(config.lease)))
  {
    SecondReservation(config, j);
  }

  lemma AddAndRead(s: Sys, config: Config, j: JobId)
    requires FirstStays(s, config, j, AtRead)
    requires 1 in s.clients
    requires s.clients[1] == SecondClient(j, AtAdd, Some(Held(true, 1, 2)), None, Some(SecondRecord(config.lease)))
    ensures var t := Exec(Exec(s, AddJob(1, false)), ReadJob(1));
            && FirstStays(t, config, j, AtRead) && t.ledger == s.ledger
            && 1 in t.clients
            && t.clients[1] == SecondClient(j, AtState, Some(Held(true, 1, 2)), Some(FirstJob()), Some(SecondRecord(config.lease)))
  {
    var u := Exec(s, AddJob(1, false));
    assert u.clients[1].pc == AtRead && u.jobs == s.jobs;
  }

  lemma ReadSecond(s: Sys, config: Config, j: JobId)
    requires FirstStays(s, config, j, AtRead)
    requires 1 in s.clients
    requires s.clients[1] == SecondClient(j, AtState, Some(Held(true, 1, 2)), Some(FirstJob()), Some(SecondRecord(config.lease)))
    ensures var t := Exec(s, ReadState(1));
            && FirstStays(t, config, j, AtRead) && t.ledger == s.ledger
            && 1 in t.clients
            && t.clients[1] == SecondClient(j, AtAdopt, Some(Held(true, 1, 2)), Some(FirstJob()), Some(SecondRecord(config.lease)))
  {
  }

  lemma SecondAdoption(config: Config, j: JobId)
    ensures var l := A.Ledger(map[j := config.lease + config.lease], map[j := SecondRecord(config.lease)], map[]);
            A.AfterAdopt(l, A.Adopt(j, 2, 0, 0, 9, config.lease, config.lease))
            == (A.Ledger(map[j := config.lease + config.lease], map[j := AdoptedRecord(config.lease)], map[]), A.Answer(true))
  {
    A.AdoptOver(j, SecondRecord(config.lease), config.lease, config.lease);
  }

  lemma AdoptFirst(s: Sys, config: Config, j: JobId)
    requires FirstStays(s, config, j, AtRead)
    requires s.ledger == A.Ledger(map[j := config.lease + config.lease], map[j := SecondRecord(config.lease)], map[])
    requires 1 in s.clients
    requires s.clients[1] == SecondClient(j, AtAdopt, Some(Held(true, 1, 2)), Some(FirstJob()), Some(SecondRecord(config.lease)))
    ensures var t := Exec(s, AdoptStored(1, false));
            && FirstStays(t, config, j, AtRead)
            && t.ledger == A.Ledger(map[j := config.lease + config.lease], map[j := AdoptedRecord(config.lease)], map[])
            && 1 in t.clients && t.clients[1].pc == Returned
  {
    SecondAdoption(config, j);
    DropShrinks(s, s.clients[1], Some(0));
  }

  /** The first client's queue command fails late. */
  lemma FirstFails(s: Sys, config: Config, j: JobId)
    requires FirstStays(s, config, j, AtRead) && 1 in s.clients && s.clients[1].pc == Returned
    ensures var t := Exec(s, FailClient(0));
            && FirstStays(t, config, j, Catching) && t.ledger == s.ledger
            && 1 in t.clients && t.clients[1].pc == Returned
  {
  }

  function Compensated(j: JobId, lease: nat): seq<Step> {
    Started(j) + TakenOver(j, lease) + Readopted()
  }

  predicate HasTakenOver(t: Sys, config: Config, j: JobId) {
    && FirstStays(t, config, j, AtRead)
    && t.ledger == A.Ledger(map[j := config.lease + config.lease], map[j := SecondRecord(config.lease)], map[])
    && 1 in t.clients
    && t.clients[1] == SecondClient(j, AtState, Some(Held(true, 1, 2)), Some(FirstJob()), Some(SecondRecord(config.lease)))
  }

  lemma TakenOverRun(config: Config, j: JobId)
    requires config.maximum > 0
    ensures HasTakenOver(Run(Start(config), Started(j) + TakenOver(j, config.lease)), config, j)
  {
    StartedIsBegun(config, j);
    var s := Run(Start(config), Started(j));
    TakeOver(s, config, j);
    RunConcat(Start(config), Started(j), TakenOver(j, config.lease));
  }

  lemma TakeOver(s: Sys, config: Config, j: JobId)
    requires config.maximum > 0 && BegunFirst(s, config, j)
    ensures HasTakenOver(Run(s, TakenOver(j, config.lease)), config, j)
  {
    TakeOverSteps(s, config, j);
    RunFive(s, Tick(config.lease), OpenClient(1, j, 9), ReserveSlot(1, false), AddJob(1, false), ReadJob(1));
  }

  lemma TakeOverSteps(s: Sys, config: Config, j: JobId)
    requires config.maximum > 0 && BegunFirst(s, config, j)
    ensures HasTakenOver(Exec(Exec(Exec(Exec(Exec(s, Tick(config.lease)), OpenClient(1, j, 9)), ReserveSlot(1, false)),
                                   AddJob(1, false)), ReadJob(1)), config, j)
  {
    OpenSecond(s, config, j);
    var s2 := Exec(Exec(s, Tick(config.lease)), OpenClient(1, j, 9));
    ReserveSecond(s2, config, j);
    AddAndRead(Exec(s2, ReserveSlot(1, false)), config, j);
  }

  /** A run from the start in which a compensating release removes a record on which a worker
      has begun: the first client stalls after its job was delivered and begun, its lease runs
      out, a second client takes the job id over and adopts the stored job, and the first
      client then fails and compensates. The worker holds number 1 and the second client has
      been told that its search is admitted. */
  lemma CompensationRemovesABegunRecord(config: Config, j: JobId)
    requires config.maximum > 0
    ensures var s := Run(Start(config), Compensated(j, config.lease));
            && s.clients.Keys >= {0, 1} && s.clients[0].pc == Catching && s.clients[1].pc == Returned
            && s.workers.Keys == {0} && s.workers[0].fence == 1 && s.workers[0].token == 0
            && j in s.ledger.records && s.ledger.records[j] == AdoptedRecord(config.lease)
            && j !in Exec(s, Compensate(0, false)).ledger.records
  {
    TakenOverRun(config, j);
    var s := Run(Start(config), Started(j) + TakenOver(j, config.lease));
    ReadSecond(s, config, j);
    var s1 := Exec(s, ReadState(1));
    AdoptFirst(s1, config, j);
    var s2 := Exec(s1, AdoptStored(1, false));
    FirstFails(s2, config, j);
    RunTwo(s, ReadState(1), AdoptStored(1, false));
    RunLast(s, [ReadState(1), AdoptStored(1, false)], FailClient(0));
    assert [ReadState(1), AdoptStored(1, false)] + [FailClient(0)] == Readopted();
    RunConcat(Start(config), Started(j) + TakenOver(j, config.lease), Readopted());
    RemovesAdopted(Exec(s2, FailClient(0)), config, j);
  }

  lemma RemovesAdopted(s: Sys, config: Config, j: JobId)
    requires FirstStays(s, config, j, Catching)
    requires s.ledger == A.Ledger(map[j := config.lease + config.lease], map[j := AdoptedRecord(config.lease)], map[])
    ensures j !in Exec(s, Compensate(0, false)).ledger.records
  {
    assert A.Owns(s.ledger, j, 0, 0);
    assert j !in A.AfterRelease(s.ledger, A.Release(j, 0, 0)).0.records;
  }
}
