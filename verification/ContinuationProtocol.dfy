// Continued searches as a step system over the session store. Any number of requests run
// the continuation of a search while searches are saved, queued workers claim and write
// their sessions, and sessions are dropped. Every awaited command of a request is one step;
// a command may be lost before it is served, or its reply after.

module ContinuationProtocol {
  import opened Common
  import opened ProviderExecutions
  import opened ContinuationPass
  import S = SearchSessions
  import L = ContinuationLease

  /** Up to `Acquiring` a request holds no lease and works on what it read; `Resetting`,
      `Concluding` and `Waiting` write without a lease. */
  datatype Pc =
    | Resetting | Concluding | Waiting | Acquiring
    | Beginning | Renewing | Calling | Confirming | Appending | Refreshing | Recording
    | Releasing | Aborting
    | Ended

  datatype Client = Client(
    id: SearchId,
    pc: Pc,
    lease: S.Lease,
    executions: seq<Execution>,
    runnable: seq<Execution>,
    results: map<ProviderId, Result>,
    next: nat,
    since: int)                       // when the lease was acquired

  /** `queued` remembers the searches that were saved for the queue; only those have jobs. */
  datatype Sys = Sys(
    store: S.Store,
    now: int,
    nextId: nat,
    nextToken: nat,
    queued: set<SearchId>,
    clients: map<nat, Client>)

  datatype Fate = Delivered | ReplyLost | NotSent

  /** What the outside contributes to a step of a request. */
  datatype Input = Input(fate: Fate, results: map<ProviderId, Result>, hotels: seq<S.Hotel>, refresh: bool)

  datatype Step =
    | Tick(elapsed: nat)
    | SaveQueued
    | SaveDirect(draft: S.Draft)
    | WorkerOp(op: S.Op)
    | Drop(id: SearchId)
    | Open(c: nat, id: SearchId)
    | Advance(c: nat, input: Input)

  function Start(): Sys {
    Sys(S.EMPTY, 0, 0, 0, {}, map[])
  }

  // ---------------------------------------------------------------------------------
  // What a request computes between its commands
  // ---------------------------------------------------------------------------------

  function RecoverAll(es: seq<Execution>): (r: seq<Execution>)
    ensures |r| == |NormalizeList(es)|
  {
    var normal := NormalizeList(es);
    seq(|normal|, i requires 0 <= i < |normal| => RecoverOne(normal[i]))
  }

  predicate SomeWaiting(es: seq<Execution>, now: int) {
    exists i :: 0 <= i < |es| && RetryDelay(es[i], now) > 0
  }

  /** The branch before the lock: conclude, wait, or continue. */
  function Decide(es: seq<Execution>, now: int): Pc {
    if !SomeActive(NormalizeList(es)) then Concluding
    else if RunnableIn(NormalizeList(es), now) == [] && SomeWaiting(NormalizeList(es), now) then Waiting
    else Acquiring
  }

  function BeginIn(es: seq<Execution>, p: ProviderId, now: int): seq<Execution> {
    var normal := NormalizeList(es);
    var i := Position(normal, p);
    if i < |normal| && Runnable(normal[i], now) then Replace(es, BeginOne(normal[i], now)) else es
  }

  function BeginEach(es: seq<Execution>, runnable: seq<Execution>, now: int): seq<Execution>
    decreases |runnable|
  {
    if runnable == [] then es
    else BeginEach(BeginIn(es, runnable[0].providerId, now), runnable[1..], now)
  }

  function ApplyIn(es: seq<Execution>, p: ProviderId, r: Result, now: int): seq<Execution> {
    var normal := NormalizeList(es);
    var i := Position(normal, p);
    if i < |normal| then Replace(es, ApplyOne(normal[i], r, now)) else es
  }

  predicate Covers(results: map<ProviderId, Result>, runnable: seq<Execution>) {
    forall i :: 0 <= i < |runnable| ==> runnable[i].providerId in results
  }

  /** The executions after the next result is applied. */
  function Applied(x: Client, now: int): seq<Execution> {
    if x.next < |x.runnable| && x.runnable[x.next].providerId in x.results then
      ApplyIn(x.executions, x.runnable[x.next].providerId, x.results[x.runnable[x.next].providerId], now)
    else x.executions
  }

  function NextResult(x: Client): Client {
    x.(pc :=
      if x.next >= |x.runnable| then Releasing
      else if x.runnable[x.next].providerId in x.results && x.results[x.runnable[x.next].providerId].Page? then
        Appending
      else Recording)
  }

  function FinalStatus(es: seq<Execution>): S.Status {
    if SomeActive(NormalizeList(es)) then S.InProgress
    else if exists i :: 0 <= i < |NormalizeList(es)| && NormalizeList(es)[i].state == TerminalFailure then
      S.StatusFailed
    else S.Completed
  }

  // ---------------------------------------------------------------------------------
  // The command of a step
  // ---------------------------------------------------------------------------------

  const RESET := S.NO_CHANGE.(isContinuing := Some(false), dropLock := true)
  const IDLE := S.NO_CHANGE.(isContinuing := Some(false))
  const BUSY := S.NO_CHANGE.(isContinuing := Some(true))

  function Command(x: Client, input: Input, token: Token, now: int): Option<S.Op> {
    match x.pc
    case Resetting => Some(S.Update(x.id, RESET.(executions := Some(x.executions)), None))
    case Concluding =>
      Some(S.Update(x.id, IDLE.(executions := Some(x.executions), incomplete := Some(false),
                                status := Some(FinalStatus(x.executions))), None))
    case Waiting =>
      Some(S.Update(x.id, IDLE.(executions := Some(x.executions), incomplete := Some(true),
                                status := Some(S.InProgress)), None))
    case Acquiring => Some(S.Acquire(x.id, token))
    case Beginning =>
      Some(S.Update(x.id, BUSY.(executions := Some(x.executions), incomplete := Some(true),
                                status := Some(S.InProgress)), Some(x.lease)))
    case Renewing => Some(S.RenewLease(x.id, x.lease))
    case Calling => None
    case Confirming => Some(S.RenewLease(x.id, x.lease))
    case Appending => Some(S.Append(x.id, input.hotels, Some(x.lease)))
    case Refreshing => Some(S.Update(x.id, S.NO_CHANGE, Some(x.lease)))
    case Recording => Some(S.Update(x.id, BUSY.(executions := Some(Applied(x, now))), Some(x.lease)))
    case Releasing =>
      Some(S.ReleaseLease(x.id, S.NO_CHANGE.(executions := Some(x.executions),
                                             incomplete := Some(SomeActive(NormalizeList(x.executions))),
                                             status := Some(FinalStatus(x.executions))), x.lease))
    case Aborting => Some(S.ReleaseLease(x.id, S.NO_CHANGE, x.lease))
    case Ended => None
  }

  /** The operations of queued workers: claims and writes of queued searches. A write settles
      the search with the executions of its results, or marks a retry or a failure. */
  predicate FromWorker(queued: set<SearchId>, op: S.Op) {
    match op
    case Claim(id, _, _) => id in queued
    case UpdateInitial(id, stage, patch, _, _) =>
      && id in queued && patch.isContinuing == Some(false)
      && (stage == S.Complete || ((stage == S.Retrying || stage == S.Failed) && patch.executions.None?))
    case _ => false
  }

  function Request(s: Sys, st: Step): Option<S.Op> {
    match st
    case Tick(_) => None
    case SaveQueued => Some(S.Save(s.nextId, S.QUEUED_DRAFT))
    case SaveDirect(draft) => Some(S.Save(s.nextId, draft.(stage := S.Direct)))
    case WorkerOp(op) => if FromWorker(s.queued, op) then Some(op) else None
    case Drop(id) => Some(S.Clear(id))
    case Open(c, id) => if c in s.clients then None else Some(S.Read(id))
    case Advance(c, input) =>
      if c !in s.clients || input.fate == NotSent then None
      else Command(s.clients[c], input, s.nextToken, s.now)
  }

  function Served(s: Sys, st: Step): (S.Store, S.Reply) {
    var op := Request(s, st);
    if op.None? then (s.store, S.Done) else S.Eval(s.store, op.value, s.now)
  }

  // ---------------------------------------------------------------------------------
  // What a step does to its request
  // ---------------------------------------------------------------------------------

  predicate Holding(pc: Pc) {
    pc in {Beginning, Renewing, Calling, Confirming, Appending, Refreshing, Recording, Releasing, Aborting}
  }

  /** `catch`: a request with a lease tries to release it. */
  function Caught(x: Client): Client {
    x.(pc := if Holding(x.pc) && x.pc != Aborting then Aborting else Ended)
  }

  const NO_LEASE := S.Lease(0, 0)

  function Opened(id: SearchId, session: S.Session, now: int): Client {
    var es := NormalizeList(session.executions);
    var active := session.isContinuing && session.lock.Some? && session.lockExpiresAt.Some?
                  && session.lockExpiresAt.value > now;
    var stale := session.isContinuing;
    var known := if stale then RecoverAll(es) else es;
    Client(id, if active then Ended else if stale then Resetting else Decide(es, now),
           NO_LEASE, known, [], map[], 0, 0)
  }

  function Locked(x: Client, lease: S.Lease, session: S.Session, now: int): Client {
    var es := NormalizeList(session.executions);
    var runnable := RunnableIn(es, now);
    x.(pc := Beginning, lease := lease, runnable := runnable,
       executions := BeginEach(es, runnable, now), next := 0, since := now)
  }

  function Answered(x: Client, input: Input, reply: S.Reply, now: int): Client {
    match x.pc
    case Resetting => if reply.Accepted? then x.(pc := Decide(x.executions, now)) else Caught(x)
    case Acquiring => if reply.Acquired? then Locked(x, reply.lease, reply.session, now) else Caught(x)
    case Beginning => if reply.Accepted? then x.(pc := Renewing) else Caught(x)
    case Renewing => if reply.Accepted? then x.(pc := Calling) else Caught(x)
    case Calling => if Covers(input.results, x.runnable) then x.(pc := Confirming, results := input.results) else x
    case Confirming => if reply.Accepted? then NextResult(x) else Caught(x)
    case Appending =>
      if reply.Accepted? then x.(pc := if input.refresh then Refreshing else Recording) else Caught(x)
    case Refreshing => if reply.Accepted? then x.(pc := Recording) else Caught(x)
    case Recording =>
      if reply.Accepted? then NextResult(x.(executions := Applied(x, now), next := x.next + 1)) else Caught(x)
    case Releasing => if reply.Accepted? then x.(pc := Ended) else Caught(x)
    case _ => x.(pc := Ended)
  }

  function Moved(x: Client, input: Input, reply: S.Reply, now: int): Client {
    if input.fate == Delivered then Answered(x, input, reply, now) else Caught(x)
  }

  function Settle(s: Sys, st: Step, reply: S.Reply): Sys {
    match st
    case Tick(d) => s.(now := s.now + d)
    case SaveQueued => s.(nextId := s.nextId + 1, queued := s.queued + {s.nextId})
    case SaveDirect(_) => s.(nextId := s.nextId + 1)
    case WorkerOp(_) => s
    case Drop(_) => s
    case Open(c, id) =>
      if c in s.clients || !reply.Accepted? then s
      else s.(clients := s.clients[c := Opened(id, reply.session, s.now)])
    case Advance(c, input) =>
      if c !in s.clients then s
      else s.(clients := s.clients[c := Moved(s.clients[c], input, reply, s.now)], nextToken := s.nextToken + 1)
  }

  function Exec(s: Sys, st: Step): Sys {
    var r := Served(s, st);
    Settle(s.(store := r.0), st, r.1)
  }

  function Run(s: Sys, steps: seq<Step>): Sys
    decreases |steps|
  {
    if steps == [] then s else Run(Exec(s, steps[0]), steps[1..])
  }

  // ---------------------------------------------------------------------------------
  // The invariant: only settled or direct searches have provider executions
  // ---------------------------------------------------------------------------------

  predicate Past(stage: S.Stage) {
    stage == S.Direct || S.Terminal(stage)
  }

  predicate SessionOk(x: S.Session, id: SearchId, nextId: nat, queued: set<SearchId>) {
    && id < nextId
    && (x.stage == S.Direct <==> id !in queued)
    && (x.executions != [] ==> Past(x.stage))
  }

  predicate SessionsOk(store: S.Store, nextId: nat, queued: set<SearchId>) {
    forall id <- store.sessions :: SessionOk(store.sessions[id], id, nextId, queued)
  }

  /** The search will never again be waiting for its initial execution. */
  predicate IsPast(store: S.Store, nextId: nat, id: SearchId) {
    id < nextId && (id in store.sessions ==> Past(store.sessions[id].stage))
  }

  predicate ClientOk(x: Client, store: S.Store, nextId: nat) {
    && (x.executions != [] ==> IsPast(store, nextId, x.id))
    && (x.pc == Acquiring ==> x.executions != [])
    && (Holding(x.pc) ==> IsPast(store, nextId, x.id) && 0 < x.lease.fence <= store.counter)
  }

  predicate Inv(s: Sys) {
    && S.Valid(s.store, s.now)
    && SessionsOk(s.store, s.nextId, s.queued)
    && (forall id <- s.queued :: id < s.nextId)
    && (forall c <- s.clients :: ClientOk(s.clients[c], s.store, s.nextId))
  }

  /** What the store step of an operation keeps. */
  ghost predicate Keeps(s: S.Store, t: S.Store, nextId: nat, queued: set<SearchId>, nextId': nat, queued': set<SearchId>) {
    && nextId <= nextId' && s.counter <= t.counter
    && SessionsOk(t, nextId', queued')
    && forall id :: IsPast(s, nextId, id) ==> IsPast(t, nextId', id)
  }

  /** An operation never writes executions into a search that is not past. */
  predicate Fits(s: S.Store, nextId: nat, op: S.Op) {
    match op
    case Update(id, patch, _) => patch.executions.Some? && patch.executions.value != [] ==> IsPast(s, nextId, id)
    case ReleaseLease(id, patch, _) => patch.executions.Some? && patch.executions.value != [] ==> IsPast(s, nextId, id)
    case _ => true
  }

  /** t holds sessions of s only, in the same stage, and new executions only where patched. */
  predicate SameStages(s: S.Store, t: S.Store, patched: Option<SearchId>, es: seq<Execution>) {
    && s.counter <= t.counter
    && forall id <- t.sessions ::
         && id in s.sessions && t.sessions[id].stage == s.sessions[id].stage
         && (t.sessions[id].executions == s.sessions[id].executions
             || (patched == Some(id) && t.sessions[id].executions == es))
  }

  lemma SameStagesKeeps(s: S.Store, t: S.Store, nextId: nat, queued: set<SearchId>,
                        patched: Option<SearchId>, es: seq<Execution>)
    requires SessionsOk(s, nextId, queued) && SameStages(s, t, patched, es)
    requires patched.Some? && es != [] ==> IsPast(s, nextId, patched.value)
    ensures Keeps(s, t, nextId, queued, nextId, queued)
  {
  }

  lemma WriteStages(s: S.Store, id: SearchId, p: S.Patch, holder: Option<S.Lease>, now: int)
    ensures SameStages(s, S.Write(s, id, p, holder, now).0,
                       if p.executions.Some? then Some(id) else None,
                       if p.executions.Some? then p.executions.value else [])
  {
  }

  lemma LeaseStages(s: S.Store, op: S.Op, now: int)
    requires op.Acquire? || op.RenewLease? || op.Clear? || op.Read?
    ensures SameStages(s, S.Eval(s, op, now).0, None, [])
  {
  }

  lemma ReleaseStages(s: S.Store, op: S.Op, now: int)
    requires op.ReleaseLease?
    ensures SameStages(s, S.Eval(s, op, now).0,
                       if op.patch.executions.Some? then Some(op.id) else None,
                       if op.patch.executions.Some? then op.patch.executions.value else [])
  {
  }

  lemma AppendStages(s: S.Store, op: S.Op, now: int)
    requires op.Append?
    ensures SameStages(s, S.AfterAppend(s, op, now).0, None, [])
  {
    var t := S.Sweep(s, now);
    if op.id in t.sessions {
      WriteStages(t, op.id, S.NO_CHANGE.(hotels := Some(S.MergedHotels(t.sessions[op.id].hotels, op.hotels))),
                  op.holder, now);
    }
  }

  /** Every operation of a request keeps what the invariant says of the store. */
  lemma RequestKeeps(s: S.Store, op: S.Op, now: int, nextId: nat, queued: set<SearchId>)
    requires SessionsOk(s, nextId, queued) && Fits(s, nextId, op)
    requires !op.Save? && !op.Claim? && !op.UpdateInitial?
    ensures Keeps(s, S.Eval(s, op, now).0, nextId, queued, nextId, queued)
  {
    var t := S.Eval(s, op, now).0;
    if op.Update? {
      WriteStages(s, op.id, op.patch, op.holder, now);
      SameStagesKeeps(s, t, nextId, queued, if op.patch.executions.Some? then Some(op.id) else None,
                      if op.patch.executions.Some? then op.patch.executions.value else []);
    } else if op.ReleaseLease? {
      ReleaseStages(s, op, now);
      SameStagesKeeps(s, t, nextId, queued, if op.patch.executions.Some? then Some(op.id) else None,
                      if op.patch.executions.Some? then op.patch.executions.value else []);
    } else if op.Append? {
      AppendStages(s, op, now);
      SameStagesKeeps(s, t, nextId, queued, None, []);
    } else {
      LeaseStages(s, op, now);
      SameStagesKeeps(s, t, nextId, queued, None, []);
    }
  }

  lemma SaveShape(s: S.Store, op: S.Op, now: int)
    requires op.Save?
    ensures var t := S.AfterSave(s, op, now).0;
            && t.counter == s.counter
            && forall id <- t.sessions ::
                 if id in s.sessions && t.sessions[id] == s.sessions[id] then true
                 else id == op.id && t.sessions[id] == S.NewSession(op.draft, now)
  {
  }

  lemma SaveKeeps(s: S.Store, op: S.Op, now: int, nextId: nat, queued: set<SearchId>, queued': set<SearchId>)
    requires SessionsOk(s, nextId, queued) && op.Save? && op.id == nextId
    requires forall id <- queued :: id < nextId
    requires (op.draft == S.QUEUED_DRAFT && queued' == queued + {nextId})
             || (op.draft.stage == S.Direct && queued' == queued)
    ensures Keeps(s, S.AfterSave(s, op, now).0, nextId, queued, nextId + 1, queued')
  {
    SaveShape(s, op, now);
    var t := S.AfterSave(s, op, now).0;
    assert nextId !in queued;
    forall id | id in t.sessions ensures SessionOk(t.sessions[id], id, nextId + 1, queued') {
      if id in s.sessions && t.sessions[id] == s.sessions[id] {
        assert SessionOk(s.sessions[id], id, nextId, queued);
      }
    }
    forall id | IsPast(s, nextId, id) ensures IsPast(t, nextId + 1, id) {
    }
  }

  lemma ClaimKeeps(s: S.Store, op: S.Op, now: int, nextId: nat, queued: set<SearchId>)
    requires SessionsOk(s, nextId, queued) && op.Claim? && FromWorker(queued, op)
    ensures Keeps(s, S.AfterClaim(s, op, now).0, nextId, queued, nextId, queued)
  {
    var t := S.AfterClaim(s, op, now).0;
    assert forall id <- t.sessions :: id in s.sessions && (id != op.id ==> t.sessions[id] == s.sessions[id]);
    if op.id in s.sessions {
      assert SessionOk(s.sessions[op.id], op.id, nextId, queued);
    }
  }

  lemma InitialWriteShape(s: S.Store, op: S.Op, now: int)
    requires op.UpdateInitial?
    ensures var t := S.AfterUpdateInitial(s, op, now).0;
            && t.counter == s.counter
            && forall id <- t.sessions :: id in s.sessions &&
                 (t.sessions[id] == s.sessions[id]
                  || (id == op.id && s.sessions[id].executionToken.Some? && t.sessions[id].stage == op.stage
                      && t.sessions[id].fence == s.sessions[id].fence
                      && (op.patch.executions.None? ==> t.sessions[id].executions == s.sessions[id].executions)))
  {
  }

  lemma InitialWriteKeeps(s: S.Store, op: S.Op, now: int, nextId: nat, queued: set<SearchId>)
    requires S.Valid(s, now) && SessionsOk(s, nextId, queued) && op.UpdateInitial? && FromWorker(queued, op)
    ensures Keeps(s, S.AfterUpdateInitial(s, op, now).0, nextId, queued, nextId, queued)
  {
    InitialWriteShape(s, op, now);
    var t := S.AfterUpdateInitial(s, op, now).0;
    forall id | id in t.sessions
      ensures SessionOk(t.sessions[id], id, nextId, queued) && (IsPast(s, nextId, id) ==> IsPast(t, nextId, id))
    {
      assert SessionOk(s.sessions[id], id, nextId, queued);
      assert S.ValidSession(s.sessions[id], s.counter, now);
      InitialWriteOne(s.sessions[id], t.sessions[id], op, id, nextId, queued);
    }
    forall id | IsPast(s, nextId, id) ensures IsPast(t, nextId, id) {
    }
  }

  lemma InitialWriteOne(x: S.Session, y: S.Session, op: S.Op, id: SearchId, nextId: nat, queued: set<SearchId>)
    requires SessionOk(x, id, nextId, queued) && (x.executionToken.Some? ==> !S.Terminal(x.stage))
    requires op.UpdateInitial? && FromWorker(queued, op)
    requires y == x || (id == op.id && x.executionToken.Some? && y.stage == op.stage
                        && (op.patch.executions.None? ==> y.executions == x.executions))
    ensures SessionOk(y, id, nextId, queued) && (Past(x.stage) ==> Past(y.stage))
  {
  }

  lemma CommandFits(s: Sys, c: nat, input: Input)
    requires Inv(s) && c in s.clients
    ensures var op := Command(s.clients[c], input, s.nextToken, s.now);
            op.Some? ==> Fits(s.store, s.nextId, op.value)
                         && !op.value.Save? && !op.value.Claim? && !op.value.UpdateInitial?
  {
    assert ClientOk(s.clients[c], s.store, s.nextId);
  }

  lemma ServedKeeps(s: Sys, st: Step)
    requires Inv(s)
    ensures Keeps(s.store, Served(s, st).0, s.nextId, s.queued, Exec(s, st).nextId, Exec(s, st).queued)
    ensures S.Valid(Served(s, st).0, s.now)
  {
    var op := Request(s, st);
    if op.Some? {
      S.StepKeepsValid(s.store, op.value, s.now);
      match st
      case Tick(_) =>
      case SaveQueued => SaveKeeps(s.store, op.value, s.now, s.nextId, s.queued, s.queued + {s.nextId});
      case SaveDirect(_) => SaveKeeps(s.store, op.value, s.now, s.nextId, s.queued, s.queued);
      case WorkerOp(_) =>
        if op.value.Claim? {
          ClaimKeeps(s.store, op.value, s.now, s.nextId, s.queued);
        } else {
          InitialWriteKeeps(s.store, op.value, s.now, s.nextId, s.queued);
        }
      case Drop(_) => RequestKeeps(s.store, op.value, s.now, s.nextId, s.queued);
      case Open(_, _) => RequestKeeps(s.store, op.value, s.now, s.nextId, s.queued);
      case Advance(c, input) =>
        CommandFits(s, c, input);
        RequestKeeps(s.store, op.value, s.now, s.nextId, s.queued);
    }
  }

  // ---------------------------------------------------------------------------------
  // Preservation
  // ---------------------------------------------------------------------------------

  lemma ClientStays(x: Client, s: S.Store, t: S.Store, nextId: nat, queued: set<SearchId>, nextId': nat, queued': set<SearchId>)
    requires ClientOk(x, s, nextId) && Keeps(s, t, nextId, queued, nextId', queued')
    ensures ClientOk(x, t, nextId')
  {
  }

  lemma RecoverNothing(es: seq<Execution>)
    requires es == []
    ensures NormalizeList(es) == [] && RecoverAll(NormalizeList(es)) == []
  {
  }

  /** A request that goes on to acquire has seen executions. */
  lemma DecideSeesExecutions(es: seq<Execution>, now: int)
    ensures Decide(es, now) in {Concluding, Waiting, Acquiring}
    ensures Decide(es, now) == Acquiring ==> es != []
  {
    if es == [] {
      RecoverNothing(es);
    }
  }

  lemma OpenedOk(id: SearchId, session: S.Session, now: int, store: S.Store, nextId: nat)
    requires session.executions != [] ==> IsPast(store, nextId, id)
    ensures ClientOk(Opened(id, session, now), store, nextId)
  {
    var es := NormalizeList(session.executions);
    DecideSeesExecutions(es, now);
    if session.executions == [] {
      RecoverNothing(session.executions);
      RecoverNothing(es);
    }
  }

  lemma LockedOk(x: Client, lease: S.Lease, session: S.Session, now: int, store: S.Store, nextId: nat)
    requires IsPast(store, nextId, x.id) && 0 < lease.fence <= store.counter
    ensures ClientOk(Locked(x, lease, session, now), store, nextId)
  {
  }

  lemma NextResultOk(x: Client, store: S.Store, nextId: nat)
    requires IsPast(store, nextId, x.id) && 0 < x.lease.fence <= store.counter
    ensures ClientOk(NextResult(x), store, nextId) && ClientOk(Caught(x), store, nextId)
  {
  }

  lemma AcquiredLease(s: S.Store, op: S.Op, now: int)
    requires op.Acquire?
    ensures var r := S.Eval(s, op, now);
            r.1.Acquired? ==> 0 < r.1.lease.fence <= r.0.counter && op.id in s.sessions
                              && op.id in r.0.sessions && L.Holds(r.0, op.id, r.1.lease)
  {
  }

  lemma MovedOk(x: Client, input: Input, reply: S.Reply, now: int, store: S.Store, nextId: nat)
    requires ClientOk(x, store, nextId)
    requires x.pc == Acquiring && reply.Acquired? ==> 0 < reply.lease.fence <= store.counter
    ensures ClientOk(Moved(x, input, reply, now), store, nextId)
  {
    if input.fate == Delivered {
      if x.pc == Acquiring && reply.Acquired? {
        LockedOk(x, reply.lease, reply.session, now, store, nextId);
      } else if x.pc == Resetting {
        DecideSeesExecutions(x.executions, now);
      } else if Holding(x.pc) {
        NextResultOk(x, store, nextId);
        NextResultOk(x.(executions := Applied(x, now), next := x.next + 1), store, nextId);
      }
    }
  }

  lemma AdvanceKeeps(s: Sys, c: nat, input: Input)
    requires Inv(s) && c in s.clients
    ensures var r := Served(s, Advance(c, input));
            ClientOk(Moved(s.clients[c], input, r.1, s.now), r.0, s.nextId)
  {
    var st := Advance(c, input);
    var r := Served(s, st);
    ServedKeeps(s, st);
    ClientStays(s.clients[c], s.store, r.0, s.nextId, s.queued, s.nextId, s.queued);
    AcquireReply(s, c, input);
    MovedOk(s.clients[c], input, r.1, s.now, r.0, s.nextId);
  }

  lemma AcquireReply(s: Sys, c: nat, input: Input)
    requires c in s.clients
    ensures var r := Served(s, Advance(c, input));
            s.clients[c].pc == Acquiring && r.1.Acquired? ==> 0 < r.1.lease.fence <= r.0.counter
  {
    if s.clients[c].pc == Acquiring && input.fate != NotSent {
      AcquiredLease(s.store, S.Acquire(s.clients[c].id, s.nextToken), s.now);
    }
  }

  lemma OpenKeeps(s: Sys, c: nat, id: SearchId)
    requires Inv(s) && c !in s.clients
    ensures var r := Served(s, Open(c, id));
            r.1.Accepted? ==> ClientOk(Opened(id, r.1.session, s.now), r.0, s.nextId)
  {
    var r := Served(s, Open(c, id));
    ServedKeeps(s, Open(c, id));
    if r.1.Accepted? {
      assert SessionOk(r.0.sessions[id], id, s.nextId, s.queued);
      OpenedOk(id, r.1.session, s.now, r.0, s.nextId);
    }
  }

  lemma StepKeeps(s: Sys, st: Step)
    requires Inv(s)
    ensures Inv(Exec(s, st))
  {
    var r := Served(s, st);
    var t := Exec(s, st);
    ServedKeeps(s, st);
    if st.Tick? {
      S.ValidLater(s.store, s.now, t.now);
    }
    forall c | c in t.clients ensures ClientOk(t.clients[c], t.store, t.nextId) {
      if c in s.clients {
        ClientStays(s.clients[c], s.store, r.0, s.nextId, s.queued, t.nextId, t.queued);
      }
      if st.Advance? && st.c == c {
        AdvanceKeeps(s, c, st.input);
      } else if st.Open? && st.c == c && c !in s.clients {
        OpenKeeps(s, c, st.id);
      }
    }
  }

  lemma {:induction false} RunKeeps(s: Sys, steps: seq<Step>)
    requires Inv(s)
    ensures Inv(Run(s, steps))
    decreases |steps|
  {
    if steps != [] {
      StepKeeps(s, steps[0]);
      RunKeeps(Exec(s, steps[0]), steps[1..]);
    }
  }

  lemma StartIsSafe()
    ensures Inv(Start())
  {
  }

  // ---------------------------------------------------------------------------------
  // The lists that a request writes are those of the pass
  // ---------------------------------------------------------------------------------

  /** The k-th runnable execution is still where it was, untouched. */
  lemma StillThere(was: seq<Execution>, es: seq<Execution>, runnable: seq<Execution>, k: nat, step: Execution -> Execution)
    requires DistinctProviders(was) && k < |runnable| && DistinctProviders(runnable) && runnable[k] in was
    requires MovedOn(was, es, runnable[..k], step) && FixedList(es) && SameProviders(was, es)
    ensures var i := Position(es, runnable[k].providerId);
            i < |es| && es[i] == was[i] == runnable[k]
  {
    var j :| 0 <= j < |was| && was[j] == runnable[k];
    PositionAt(es, j);
    assert !Names(runnable[..k], was[j].providerId);
  }

  lemma {:induction false} BeginFrom(was: seq<Execution>, es: seq<Execution>, runnable: seq<Execution>, k: nat, now: int)
    requires FixedList(was) && FixedList(es) && SameProviders(was, es) && k <= |runnable|
    requires runnable == RunnableIn(was, now)
    requires MovedOn(was, es, runnable[..k], e => BeginOne(e, now))
    ensures var r := BeginEach(es, runnable[k..], now);
            FixedList(r) && SameProviders(was, r) && MovedOn(was, r, runnable, e => BeginOne(e, now))
    decreases |runnable| - k
  {
    if k == |runnable| {
      assert runnable[k..] == [] && runnable[..k] == runnable;
    } else {
      RunnableInEffect(was, now);
      assert runnable[k] in runnable;
      StillThere(was, es, runnable, k, e => BeginOne(e, now));
      var i := Position(es, runnable[k].providerId);
      FixedListStays(es);
      BeginKeepsFixed(es[i], now);
      MoveNext(was, es, runnable, k, e => BeginOne(e, now), i, BeginOne(es[i], now));
      assert runnable[k..][1..] == runnable[k + 1..];
      BeginFrom(was, es[i := BeginOne(es[i], now)], runnable, k + 1, now);
    }
  }

  /** After the acquire every runnable execution is begun, as in a pass, and the others are
      as they were. */
  lemma BegunList(es: seq<Execution>, now: int)
    requires FixedList(es)
    ensures var r := BeginEach(es, RunnableIn(es, now), now);
            && FixedList(r) && |r| == |es|
            && forall i :: 0 <= i < |es| ==> r[i] == if Runnable(es[i], now) then BeginOne(es[i], now) else es[i]
  {
    var runnable := RunnableIn(es, now);
    BeginFrom(es, es, runnable, 0, now);
    assert runnable[0..] == runnable;
    MovedAll(es, es, BeginEach(es, runnable, now), runnable, e => BeginOne(e, now), now);
  }

  /** Recording a result changes the execution that it is for, and no other. */
  lemma AppliedList(es: seq<Execution>, i: nat, r: Result, now: int)
    requires FixedList(es) && i < |es| && es[i].state == Running
    ensures ApplyIn(es, es[i].providerId, r, now) == es[i := ApplyOne(es[i], r, now)]
    ensures FixedList(ApplyIn(es, es[i].providerId, r, now))
  {
    FixedListStays(es);
    PositionAt(es, i);
    ApplyKeepsFixed(es[i], r, now);
    ReplaceInFixed(es, i, ApplyOne(es[i], r, now));
  }
}
