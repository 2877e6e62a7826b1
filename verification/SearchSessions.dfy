// The search-session store: a bounded map of sessions with a time to live, tombstones for
// expired ids, a continuation lease with fencing numbers, and a second fence for the
// initial, queued execution of a search. Each operation is a function on the store value
// and, in module SearchSessionStore, a method of class `SessionStore` that updates the
// fields in place.

module SearchSessions {
  import opened Common
  import opened OrderedMaps
  import E = ProviderExecutions

  const SESSION_TTL: nat := 1_800_000
  const TOMBSTONE_TTL: nat := SESSION_TTL
  const LOCK_TTL: nat := 300_000
  const MAX_SESSIONS: nat := 500

  /** The stage of the initial search; `Direct` when the search was never queued. */
  datatype Stage = Direct | Queued | Running | Retrying | Complete | Failed

  predicate Terminal(stage: Stage) {
    stage == Complete || stage == Failed
  }

  datatype Status = StatusQueued | StatusRunning | InProgress | Completed | StatusFailed

  /** A hotel record; id 0 stands for a record without a usable id. */
  datatype Hotel = Hotel(id: nat, details: nat)

  datatype Session = Session(
    createdAt: int,
    updatedAt: int,
    expiresAt: int,
    isContinuing: bool,
    lock: Option<Token>,
    lockExpiresAt: Option<int>,
    fence: nat,                       // continuation fencing number, 0 when none
    stage: Stage,
    executionToken: Option<Token>,
    initialFence: nat,
    status: Status,
    incomplete: bool,
    hotels: seq<Hotel>,
    executions: seq<E.Execution>)     // the provider executions, none while it is queued

  datatype Store = Store(
    sessions: map<SearchId, Session>,
    tombstones: map<SearchId, int>,
    counter: nat)

  const EMPTY := Store(map[], map[], 0)

  /** The fields a caller supplies when it saves a new session. */
  datatype Draft = Draft(stage: Stage, status: Status, incomplete: bool, hotels: seq<Hotel>,
                         executions: seq<E.Execution>)

  /** What `createQueuedHotelSearch` saves: no provider has been called yet. */
  const QUEUED_DRAFT := Draft(Queued, StatusQueued, true, [], [])

  /** The fields a caller may change through an update; None leaves a field as it is. */
  datatype Patch = Patch(
    status: Option<Status>,
    incomplete: Option<bool>,
    isContinuing: Option<bool>,
    dropLock: bool,
    hotels: Option<seq<Hotel>>,
    executions: Option<seq<E.Execution>>)

  const NO_CHANGE := Patch(None, None, None, false, None, None)

  datatype Lease = Lease(token: Token, fence: nat)

  datatype Op =
    | Save(id: SearchId, draft: Draft)
    | Claim(id: SearchId, token: Token, fence: nat)
    | UpdateInitial(id: SearchId, stage: Stage, patch: Patch, token: Token, fence: nat)
    | Acquire(id: SearchId, token: Token)
    | RenewLease(id: SearchId, lease: Lease)
    | ReleaseLease(id: SearchId, patch: Patch, lease: Lease)
    | Update(id: SearchId, patch: Patch, holder: Option<Lease>)
    | Append(id: SearchId, hotels: seq<Hotel>, holder: Option<Lease>)
    | Clear(id: SearchId)
    | Read(id: SearchId)

  datatype Fault = CapacityReached | NotFound | SessionExpired | ContinuationInProgress
                 | LeaseStale | ExecutionStale

  datatype Reply =
    | Accepted(session: Session)        // the write, claim, renewal or release took place
    | Acquired(lease: Lease, session: Session)
    | Declined(session: Session)        // claim, acquire, renew or release refused, no error
    | Rejected(fault: Fault)
    | Gone                              // null: no such session
    | Done

  // ---------------------------------------------------------------------------------
  // The operations as functions
  // ---------------------------------------------------------------------------------

  function Overdue(s: Store, now: int): set<SearchId> {
    set id | id in s.sessions && s.sessions[id].expiresAt <= now
  }

  /** Expired sessions become tombstones; tombstones past their retention are forgotten. */
  function Sweep(s: Store, now: int): Store {
    var dead := Overdue(s, now);
    var marked := s.tombstones + map id | id in dead :: now + TOMBSTONE_TTL;
    s.(sessions := s.sessions - dead,
       tombstones := map id | id in marked && marked[id] > now :: marked[id])
  }

  predicate LeaseActive(x: Session, now: int) {
    && x.isContinuing
    && x.lock.Some?
    && x.lockExpiresAt.Some? && x.lockExpiresAt.value > now
    && x.fence > 0
  }

  predicate HeldBy(x: Session, lease: Lease, now: int) {
    LeaseActive(x, now) && x.lock == Some(lease.token) && x.fence == lease.fence
  }

  /** A lease context without a positive fencing number counts as no context. */
  function Context(lease: Option<Lease>): Option<Lease> {
    if lease.Some? && lease.value.fence > 0 then lease else None
  }

  function WriteFault(x: Session, lease: Option<Lease>, now: int): Option<Fault> {
    match Context(lease)
    case None => if LeaseActive(x, now) then Some(ContinuationInProgress) else None
    case Some(l) => if HeldBy(x, l, now) then None else Some(LeaseStale)
  }

  function Touch(x: Session, now: int): Session {
    x.(updatedAt := now, expiresAt := now + SESSION_TTL)
  }

  function Apply(x: Session, p: Patch): Session {
    x.(status := if p.status.Some? then p.status.value else x.status,
       incomplete := if p.incomplete.Some? then p.incomplete.value else x.incomplete,
       isContinuing := if p.isContinuing.Some? then p.isContinuing.value else x.isContinuing,
       lock := if p.dropLock then None else x.lock,
       lockExpiresAt := if p.dropLock then None else x.lockExpiresAt,
       hotels := if p.hotels.Some? then p.hotels.value else x.hotels,
       executions := if p.executions.Some? then p.executions.value else x.executions)
  }

  function Store1(s: Store, id: SearchId, x: Session): Store {
    s.(sessions := s.sessions[id := x])
  }

  function Absence(s: Store, id: SearchId): Reply {
    Rejected(if id in s.tombstones then SessionExpired else NotFound)
  }

  function NewSession(d: Draft, now: int): Session {
    Session(now, now, now + SESSION_TTL, false, None, None, 0,
            d.stage, None, 0, d.status, d.incomplete, d.hotels, d.executions)
  }

  function AfterSave(s0: Store, op: Op, now: int): (Store, Reply)
    requires op.Save?
  {
    var s := Sweep(s0, now);
    if op.id !in s.sessions && |s.sessions| >= MAX_SESSIONS then (s, Rejected(CapacityReached))
    else
      var x := NewSession(op.draft, now);
      (Store1(s, op.id, x).(tombstones := s.tombstones - {op.id}), Accepted(x))
  }

  function Claimed(x: Session, token: Token, fence: nat, now: int): Session {
    Touch(x, now).(stage := Running, executionToken := Some(token), initialFence := fence,
      status := StatusRunning, incomplete := true, isContinuing := false)
  }

  function AfterClaim(s0: Store, op: Op, now: int): (Store, Reply)
    requires op.Claim?
  {
    if op.fence == 0 then (s0, Rejected(ExecutionStale))
    else
      var s := Sweep(s0, now);
      if op.id !in s.sessions then (s, Absence(s, op.id))
      else
        var x := s.sessions[op.id];
        if Terminal(x.stage) || op.fence <= x.initialFence then (s, Declined(x))
        else
          var y := Claimed(x, op.token, op.fence, now);
          (Store1(s, op.id, y), Accepted(y))
  }

  function AfterUpdateInitial(s0: Store, op: Op, now: int): (Store, Reply)
    requires op.UpdateInitial?
  {
    var s := Sweep(s0, now);
    if op.id !in s.sessions then (s, Absence(s, op.id))
    else
      var x := s.sessions[op.id];
      if op.fence == 0 || x.executionToken != Some(op.token) || x.initialFence != op.fence then
        (s, Rejected(ExecutionStale))
      else if LeaseActive(x, now) then (s, Rejected(ContinuationInProgress))
      else
        var y := Touch(Apply(x, op.patch), now).(
          stage := op.stage,
          executionToken := if Terminal(op.stage) then None else x.executionToken);
        (Store1(s, op.id, y), Accepted(y))
  }

  function Locked(x: Session, token: Token, fence: nat, now: int): Session {
    Touch(x, now).(isContinuing := true, lock := Some(token),
      lockExpiresAt := Some(now + LOCK_TTL), fence := fence)
  }

  function AfterAcquire(s0: Store, op: Op, now: int): (Store, Reply)
    requires op.Acquire?
  {
    var s := Sweep(s0, now);
    if op.id !in s.sessions then (s, Absence(s, op.id))
    else
      var x := s.sessions[op.id];
      if LeaseActive(x, now) then (s, Declined(x))
      else
        var fence := (if s.counter >= x.fence then s.counter else x.fence) + 1;
        var y := Locked(x, op.token, fence, now);
        (Store1(s, op.id, y).(counter := fence), Acquired(Lease(op.token, fence), y))
  }

  function AfterRenewLease(s0: Store, op: Op, now: int): (Store, Reply)
    requires op.RenewLease?
  {
    var s := Sweep(s0, now);
    if op.id !in s.sessions then (s, Gone)
    else
      var x := s.sessions[op.id];
      if !HeldBy(x, op.lease, now) then (s, Declined(x))
      else
        var y := Touch(x, now).(isContinuing := true, lockExpiresAt := Some(now + LOCK_TTL));
        (Store1(s, op.id, y), Accepted(y))
  }

  function AfterReleaseLease(s0: Store, op: Op, now: int): (Store, Reply)
    requires op.ReleaseLease?
  {
    var s := Sweep(s0, now);
    if op.id !in s.sessions then (s, Gone)
    else
      var x := s.sessions[op.id];
      if !HeldBy(x, op.lease, now) then (s, Declined(x))
      else
        var y := Touch(Apply(x, op.patch), now).(
          isContinuing := false, lock := None, lockExpiresAt := None);
        (Store1(s, op.id, y), Accepted(y))
  }

  function Write(s0: Store, id: SearchId, p: Patch, lease: Option<Lease>, now: int): (Store, Reply) {
    var s := Sweep(s0, now);
    if id !in s.sessions then (s, Gone)
    else
      var x := s.sessions[id];
      match WriteFault(x, lease, now)
      case Some(f) => (s, Rejected(f))
      case None =>
        var y := Touch(Apply(x, p), now);
        (Store1(s, id, y), Accepted(y))
  }

  /** Hotels with an id, one entry per id in order of first appearance, the latest record. */
  function ById(m: seq<Entry<nat, Hotel>>, hotels: seq<Hotel>): seq<Entry<nat, Hotel>>
    decreases |hotels|
  {
    if hotels == [] then m
    else ById(if hotels[0].id == 0 then m else Put(m, hotels[0].id, hotels[0]), hotels[1..])
  }

  function MergedHotels(current: seq<Hotel>, added: seq<Hotel>): seq<Hotel> {
    Values(ById(ById([], current), added))
  }

  function AfterAppend(s0: Store, op: Op, now: int): (Store, Reply)
    requires op.Append?
  {
    var s := Sweep(s0, now);
    if op.id !in s.sessions then (s, Gone)
    else
      var merged := MergedHotels(s.sessions[op.id].hotels, op.hotels);
      Write(s, op.id, NO_CHANGE.(hotels := Some(merged)), op.holder, now)
  }

  function AfterClear(s: Store, op: Op): (Store, Reply)
    requires op.Clear?
  {
    (s.(sessions := s.sessions - {op.id}, tombstones := s.tombstones - {op.id}), Done)
  }

  function AfterRead(s0: Store, op: Op, now: int): (Store, Reply)
    requires op.Read?
  {
    var s := Sweep(s0, now);
    (s, if op.id in s.sessions then Accepted(s.sessions[op.id]) else Absence(s, op.id))
  }

  function Eval(s: Store, op: Op, now: int): (Store, Reply) {
    match op
    case Save(_, _) => AfterSave(s, op, now)
    case Claim(_, _, _) => AfterClaim(s, op, now)
    case UpdateInitial(_, _, _, _, _) => AfterUpdateInitial(s, op, now)
    case Acquire(_, _) => AfterAcquire(s, op, now)
    case RenewLease(_, _) => AfterRenewLease(s, op, now)
    case ReleaseLease(_, _, _) => AfterReleaseLease(s, op, now)
    case Update(id, patch, lease) => Write(s, id, patch, lease, now)
    case Append(_, _, _) => AfterAppend(s, op, now)
    case Clear(_) => AfterClear(s, op)
    case Read(_) => AfterRead(s, op, now)
  }

  // ---------------------------------------------------------------------------------
  // The store invariant
  // ---------------------------------------------------------------------------------

  predicate ValidSession(x: Session, counter: nat, now: int) {
    && x.updatedAt <= now
    && x.expiresAt == x.updatedAt + SESSION_TTL
    && (x.lockExpiresAt.Some? ==> x.lockExpiresAt.value <= x.updatedAt + LOCK_TTL)
    && x.fence <= counter
    && (x.executionToken.Some? ==> x.initialFence > 0 && !Terminal(x.stage))
  }

  predicate Valid(s: Store, now: int) {
    && |s.sessions.Keys| <= MAX_SESSIONS
    && forall id <- s.sessions :: ValidSession(s.sessions[id], s.counter, now)
  }

  lemma ValidLater(s: Store, now: int, later: int)
    requires Valid(s, now) && now <= later
    ensures Valid(s, later)
  {
  }

  lemma SweepEffect(s: Store, now: int)
    requires Valid(s, now)
    ensures Valid(Sweep(s, now), now)
    ensures Sweep(s, now).counter == s.counter
    ensures forall id :: id in Sweep(s, now).sessions <==>
              id in s.sessions && s.sessions[id].expiresAt > now
    ensures forall id <- Sweep(s, now).sessions :: Sweep(s, now).sessions[id] == s.sessions[id]
  {
    SubsetCount(Sweep(s, now).sessions.Keys, s.sessions.Keys);
  }

  /** A session whose lease is still active is never swept away: the lock cannot outlive
      the session that carries it. */
  lemma ActiveLeaseKeepsSession(s: Store, id: SearchId, now: int)
    requires Valid(s, now) && id in s.sessions && LeaseActive(s.sessions[id], now)
    ensures id in Sweep(s, now).sessions
  {
    assert ValidSession(s.sessions[id], s.counter, now);
  }

  lemma PutSession(s: Store, id: SearchId, x: Session, counter: nat, now: int)
    requires Valid(s, now) && s.counter <= counter && ValidSession(x, counter, now)
    requires id in s.sessions || |s.sessions.Keys| < MAX_SESSIONS
    ensures Valid(Store1(s, id, x).(counter := counter), now)
  {
    assert Store1(s, id, x).sessions.Keys == s.sessions.Keys + {id};
    if id in s.sessions { assert s.sessions.Keys + {id} == s.sessions.Keys; }
  }

  lemma WriteKeepsValid(s: Store, id: SearchId, p: Patch, lease: Option<Lease>, now: int)
    requires Valid(s, now)
    ensures Valid(Write(s, id, p, lease, now).0, now)
  {
    SweepEffect(s, now);
    var t := Sweep(s, now);
    if id in t.sessions {
      assert ValidSession(t.sessions[id], t.counter, now);
      PutSession(t, id, Touch(Apply(t.sessions[id], p), now), t.counter, now);
    }
  }

  lemma SaveKeepsValid(s: Store, op: Op, now: int)
    requires Valid(s, now) && op.Save?
    ensures Valid(AfterSave(s, op, now).0, now)
  {
    SweepEffect(s, now);
    var t := Sweep(s, now);
    assert |t.sessions| == |t.sessions.Keys|;
    if op.id in t.sessions || |t.sessions| < MAX_SESSIONS {
      PutSession(t, op.id, NewSession(op.draft, now), t.counter, now);
    }
  }

  lemma ClaimKeepsValid(s: Store, op: Op, now: int)
    requires Valid(s, now) && op.Claim?
    ensures Valid(AfterClaim(s, op, now).0, now)
  {
    SweepEffect(s, now);
    var t := Sweep(s, now);
    if op.id in t.sessions && op.fence > 0 && !Terminal(t.sessions[op.id].stage) {
      assert ValidSession(t.sessions[op.id], t.counter, now);
      PutSession(t, op.id, Claimed(t.sessions[op.id], op.token, op.fence, now), t.counter, now);
    }
  }

  lemma UpdateInitialKeepsValid(s: Store, op: Op, now: int)
    requires Valid(s, now) && op.UpdateInitial?
    ensures Valid(AfterUpdateInitial(s, op, now).0, now)
  {
    SweepEffect(s, now);
    var t := Sweep(s, now);
    if op.id in t.sessions {
      var x := t.sessions[op.id];
      assert ValidSession(x, t.counter, now);
      PutSession(t, op.id, Touch(Apply(x, op.patch), now).(stage := op.stage,
        executionToken := if Terminal(op.stage) then None else x.executionToken), t.counter, now);
    }
  }

  lemma AcquireKeepsValid(s: Store, op: Op, now: int)
    requires Valid(s, now) && op.Acquire?
    ensures Valid(AfterAcquire(s, op, now).0, now)
  {
    SweepEffect(s, now);
    var t := Sweep(s, now);
    if op.id in t.sessions {
      assert ValidSession(t.sessions[op.id], t.counter, now);
      PutSession(t, op.id, Locked(t.sessions[op.id], op.token, t.counter + 1, now), t.counter + 1, now);
    }
  }

  lemma RenewKeepsValid(s: Store, op: Op, now: int)
    requires Valid(s, now) && op.RenewLease?
    ensures Valid(AfterRenewLease(s, op, now).0, now)
  {
    SweepEffect(s, now);
    var t := Sweep(s, now);
    if op.id in t.sessions {
      assert ValidSession(t.sessions[op.id], t.counter, now);
      PutSession(t, op.id, Touch(t.sessions[op.id], now).(
        isContinuing := true, lockExpiresAt := Some(now + LOCK_TTL)), t.counter, now);
    }
  }

  lemma ReleaseKeepsValid(s: Store, op: Op, now: int)
    requires Valid(s, now) && op.ReleaseLease?
    ensures Valid(AfterReleaseLease(s, op, now).0, now)
  {
    SweepEffect(s, now);
    var t := Sweep(s, now);
    if op.id in t.sessions {
      assert ValidSession(t.sessions[op.id], t.counter, now);
      PutSession(t, op.id, Touch(Apply(t.sessions[op.id], op.patch), now).(
        isContinuing := false, lock := None, lockExpiresAt := None), t.counter, now);
    }
  }

  /** Every operation, accepted or refused, keeps the store valid: at most the configured
      number of sessions, every lock within its session's life, no fencing number above
      the counter, and no execution token on a session whose initial search has ended. */
  lemma StepKeepsValid(s: Store, op: Op, now: int)
    requires Valid(s, now)
    ensures Valid(Eval(s, op, now).0, now)
  {
    match op
    case Save(_, _) => SaveKeepsValid(s, op, now);
    case Claim(_, _, _) => ClaimKeepsValid(s, op, now);
    case UpdateInitial(_, _, _, _, _) => UpdateInitialKeepsValid(s, op, now);
    case Acquire(_, _) => AcquireKeepsValid(s, op, now);
    case RenewLease(_, _) => RenewKeepsValid(s, op, now);
    case ReleaseLease(_, _, _) => ReleaseKeepsValid(s, op, now);
    case Update(id, patch, holder) => WriteKeepsValid(s, id, patch, holder, now);
    case Append(id, hotels, holder) =>
      SweepEffect(s, now);
      var t := Sweep(s, now);
      if id in t.sessions {
        WriteKeepsValid(t, id,
          NO_CHANGE.(hotels := Some(MergedHotels(t.sessions[id].hotels, hotels))), holder, now);
      }
    case Clear(id) => SubsetCount(s.sessions.Keys - {id}, s.sessions.Keys);
    case Read(_) => SweepEffect(s, now);
  }
}
