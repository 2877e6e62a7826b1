// What the operations of the session store do to the session they name: when they are
// accepted, which fields they write, and which they leave.

module SessionWrites {
  import opened Common
  import opened SearchSessions
  import Stored = SearchSessionStore

  // ---------------------------------------------------------------------------------
  // Parts of a session
  // ---------------------------------------------------------------------------------

  /** The session is there and has not expired. */
  predicate Alive(s: Store, id: SearchId, now: int) {
    id in s.sessions && s.sessions[id].expiresAt > now
  }

  /** The contents of the session after a patch: supplied values are stored, others stay. */
  predicate Patched(x: Session, y: Session, p: Patch) {
    && (p.status.Some? ==> y.status == p.status.value) && (p.status.None? ==> y.status == x.status)
    && (p.incomplete.Some? ==> y.incomplete == p.incomplete.value)
    && (p.incomplete.None? ==> y.incomplete == x.incomplete)
    && (p.hotels.Some? ==> y.hotels == p.hotels.value) && (p.hotels.None? ==> y.hotels == x.hotels)
    && (p.executions.Some? ==> y.executions == p.executions.value)
    && (p.executions.None? ==> y.executions == x.executions)
  }

  predicate SameContents(x: Session, y: Session) {
    x.status == y.status && x.incomplete == y.incomplete && x.hotels == y.hotels && x.executions == y.executions
  }

  predicate SameLock(x: Session, y: Session) {
    x.lock == y.lock && x.lockExpiresAt == y.lockExpiresAt && x.fence == y.fence
  }

  predicate SameInitialSearch(x: Session, y: Session) {
    x.stage == y.stage && x.executionToken == y.executionToken && x.initialFence == y.initialFence
  }

  /** The session was written now and lives for its full time again. */
  predicate Refreshed(x: Session, y: Session, now: int) {
    y.createdAt == x.createdAt && y.updatedAt == now && y.expiresAt == now + 1_800_000
  }

  /** t holds the living sessions of s, apart from what it says about session id. */
  ghost predicate OthersLive(s: Store, t: Store, id: SearchId, now: int) {
    forall i :: i != id ==> (i in t.sessions <==> Alive(s, i, now)) && (i in t.sessions ==> t.sessions[i] == s.sessions[i])
  }

  /** The whole store is as the passing of time leaves it. */
  ghost predicate OnlyTime(s: Store, t: Store, now: int) {
    && t.counter == s.counter
    && forall i :: (i in t.sessions <==> Alive(s, i, now)) && (i in t.sessions ==> t.sessions[i] == s.sessions[i])
  }

  lemma SweepIsTime(s: Store, now: int)
    ensures OnlyTime(s, Sweep(s, now), now)
  {
  }

  lemma StoredOne(s: Store, id: SearchId, x: Session, now: int)
    ensures var t := Store1(Sweep(s, now), id, x);
            OthersLive(s, t, id, now) && id in t.sessions && t.sessions[id] == x && t.counter == s.counter
  {
  }

  // ---------------------------------------------------------------------------------
  // Writes
  // ---------------------------------------------------------------------------------

  /** Who may write: without a lease while none is active, with the lease that is active. */
  predicate MayWrite(x: Session, holder: Option<Lease>, now: int) {
    if holder.Some? && holder.value.fence > 0 then HeldBy(x, holder.value, now) else !LeaseActive(x, now)
  }

  /** A write is accepted exactly from those who may write a living session. It stores what
      its patch supplies and nothing else, and touches no other session; a refused one
      changes nothing. */
  lemma UpdateStores(s: Store, id: SearchId, p: Patch, holder: Option<Lease>, now: int)
    ensures var (t, reply) := Eval(s, Update(id, p, holder), now);
            if Alive(s, id, now) && MayWrite(s.sessions[id], holder, now) then
              && reply.Accepted? && OthersLive(s, t, id, now) && t.counter == s.counter
              && id in t.sessions && reply.session == t.sessions[id]
              && WrittenBy(s.sessions[id], t.sessions[id], p, now)
              && SameInitialSearch(s.sessions[id], t.sessions[id])
            else !reply.Accepted? && OnlyTime(s, t, now)
  {
    SweepIsTime(s, now);
    if Alive(s, id, now) {
      StoredOne(s, id, Touch(Apply(s.sessions[id], p), now), now);
    }
  }

  /** A write of this patch: contents, the flag and the lock. */
  predicate WrittenBy(x: Session, y: Session, p: Patch, now: int) {
    && Patched(x, y, p) && Refreshed(x, y, now) && y.fence == x.fence
    && y.isContinuing == (if p.isContinuing.Some? then p.isContinuing.value else x.isContinuing)
    && (if p.dropLock then y.lock.None? && y.lockExpiresAt.None? else SameLock(x, y))
  }

  /** A write of the initial search is accepted exactly from the execution that claimed the
      living session, while no continuation lease is active. It stores its patch and stage,
      and gives up the execution token exactly when the stage is terminal. */
  lemma UpdateInitialStores(s: Store, id: SearchId, stage: Stage, p: Patch, token: Token, fence: nat, now: int)
    ensures var (t, reply) := Eval(s, UpdateInitial(id, stage, p, token, fence), now);
            if Alive(s, id, now) && fence > 0 && s.sessions[id].executionToken == Some(token)
               && s.sessions[id].initialFence == fence && !LeaseActive(s.sessions[id], now) then
              && reply.Accepted? && OthersLive(s, t, id, now) && t.counter == s.counter
              && id in t.sessions && WrittenBy(s.sessions[id], t.sessions[id], p, now)
              && t.sessions[id].stage == stage && t.sessions[id].initialFence == fence
              && t.sessions[id].executionToken == (if stage == Complete || stage == Failed then None else Some(token))
            else !reply.Accepted? && OnlyTime(s, t, now)
  {
    SweepIsTime(s, now);
    if Alive(s, id, now) {
      var x := s.sessions[id];
      StoredOne(s, id, Touch(Apply(x, p), now).(
        stage := stage, executionToken := if Terminal(stage) then None else x.executionToken), now);
    }
  }

  /** A release is accepted exactly from the holder. It stores its patch and frees the lock. */
  lemma ReleaseStores(s: Store, id: SearchId, p: Patch, lease: Lease, now: int)
    ensures var (t, reply) := Eval(s, ReleaseLease(id, p, lease), now);
            if Alive(s, id, now) && HeldBy(s.sessions[id], lease, now) then
              && reply.Accepted? && OthersLive(s, t, id, now) && t.counter == s.counter && id in t.sessions
              && Patched(s.sessions[id], t.sessions[id], p) && Refreshed(s.sessions[id], t.sessions[id], now)
              && SameInitialSearch(s.sessions[id], t.sessions[id]) && t.sessions[id].fence == s.sessions[id].fence
              && !t.sessions[id].isContinuing && t.sessions[id].lock.None? && t.sessions[id].lockExpiresAt.None?
            else !reply.Accepted? && OnlyTime(s, t, now)
  {
    SweepIsTime(s, now);
    if Alive(s, id, now) {
      StoredOne(s, id, Touch(Apply(s.sessions[id], p), now).(
        isContinuing := false, lock := None, lockExpiresAt := None), now);
    }
  }

  // ---------------------------------------------------------------------------------
  // Appending hotels
  // ---------------------------------------------------------------------------------

  predicate NoneRepeated(hotels: seq<Hotel>) {
    forall i, j :: 0 <= i < j < |hotels| ==> hotels[i].id != hotels[j].id
  }

  predicate Lists(hotels: seq<Hotel>, id: nat) {
    exists h <- hotels :: h.id == id
  }

  /** The i-th added hotel is the last one with its id. */
  predicate LatestAt(added: seq<Hotel>, i: nat)
    requires i < |added|
  {
    added[i].id != 0 && forall j :: i < j < |added| ==> added[j].id != added[i].id
  }

  /** The stored hotels after an append to what was stored before. */
  predicate Appended(before: seq<Hotel>, added: seq<Hotel>, after: seq<Hotel>) {
    && NoneRepeated(after)
    && (forall h <- after :: h.id != 0 && (h in before || h in added))
    && (forall h <- before :: h.id != 0 ==> Lists(after, h.id))
    && (forall h <- added :: h.id != 0 ==> Lists(after, h.id))
    && (forall i | 0 <= i < |added| && LatestAt(added, i) :: added[i] in after)
  }

  /** An append is accepted exactly from those who may write. The session then holds every
      hotel that it held or was given, by id and once each, with the latest record of each
      id that was given; nothing else of its contents changes. */
  lemma AppendStores(s: Store, id: SearchId, hotels: seq<Hotel>, holder: Option<Lease>, now: int)
    ensures var (t, reply) := Eval(s, Append(id, hotels, holder), now);
            if Alive(s, id, now) && MayWrite(s.sessions[id], holder, now) then
              && reply.Accepted? && OthersLive(s, t, id, now) && t.counter == s.counter && id in t.sessions
              && Appended(s.sessions[id].hotels, hotels, t.sessions[id].hotels)
              && SameContents(s.sessions[id].(hotels := []), t.sessions[id].(hotels := []))
              && SameLock(s.sessions[id], t.sessions[id])
              && t.sessions[id].isContinuing == s.sessions[id].isContinuing
              && SameInitialSearch(s.sessions[id], t.sessions[id])
              && Refreshed(s.sessions[id], t.sessions[id], now)
            else !reply.Accepted? && OnlyTime(s, t, now)
  {
    SweepIsTime(s, now);
    AppendIsWrite(s, id, hotels, holder, now);
    if Alive(s, id, now) {
      var merged := MergedHotels(s.sessions[id].hotels, hotels);
      UpdateStores(s, id, NO_CHANGE.(hotels := Some(merged)), holder, now);
      MergedIsAppended(s.sessions[id].hotels, hotels);
    }
  }

  lemma AppendIsWrite(s: Store, id: SearchId, hotels: seq<Hotel>, holder: Option<Lease>, now: int)
    ensures var r := Eval(s, Append(id, hotels, holder), now);
            if Alive(s, id, now) then
              r == Eval(s, Update(id, NO_CHANGE.(hotels := Some(MergedHotels(s.sessions[id].hotels, hotels))), holder), now)
            else r == (Sweep(s, now), Gone)
  {
    SweepTwice(s, now);
  }

  lemma SweepTwice(s: Store, now: int)
    ensures Sweep(Sweep(s, now), now) == Sweep(s, now)
  {
    var t := Sweep(s, now);
    assert Overdue(t, now) == {};
    assert Sweep(t, now).sessions == t.sessions;
    assert Sweep(t, now).tombstones == t.tombstones;
  }

  lemma ListsAll(all: seq<Hotel>, part: seq<Hotel>, m: seq<Hotel>)
    requires forall h <- all :: h.id != 0 ==> exists g <- m :: g.id == h.id
    requires forall h <- part :: h in all
    ensures forall h <- part :: h.id != 0 ==> Lists(m, h.id)
  {
  }

  lemma MergedIsAppended(before: seq<Hotel>, added: seq<Hotel>)
    ensures Appended(before, added, MergedHotels(before, added))
  {
    var m := MergedHotels(before, added);
    Stored.AppendedHotels(before, added);
    ListsAll(before + added, before, m);
    ListsAll(before + added, added, m);
    forall i | 0 <= i < |added| && LatestAt(added, i) ensures added[i] in m {
    }
  }

  // ---------------------------------------------------------------------------------
  // Claims and leases
  // ---------------------------------------------------------------------------------

  /** A claim is accepted exactly with a new number on a living search that is not settled. It
      shows the search as running, and leaves its results and its lock. */
  lemma ClaimStores(s: Store, id: SearchId, token: Token, fence: nat, now: int)
    ensures var (t, reply) := Eval(s, Claim(id, token, fence), now);
            if Alive(s, id, now) && s.sessions[id].stage !in {Complete, Failed} && fence > s.sessions[id].initialFence then
              && reply.Accepted? && OthersLive(s, t, id, now) && t.counter == s.counter && id in t.sessions
              && t.sessions[id].stage == Running && t.sessions[id].executionToken == Some(token)
              && t.sessions[id].initialFence == fence
              && t.sessions[id].status == StatusRunning && t.sessions[id].incomplete && !t.sessions[id].isContinuing
              && t.sessions[id].hotels == s.sessions[id].hotels
              && t.sessions[id].executions == s.sessions[id].executions
              && SameLock(s.sessions[id], t.sessions[id]) && Refreshed(s.sessions[id], t.sessions[id], now)
            else !reply.Accepted? && (t == s || OnlyTime(s, t, now))
  {
    SweepIsTime(s, now);
    if Alive(s, id, now) {
      StoredOne(s, id, Claimed(s.sessions[id], token, fence, now), now);
    }
  }

  /** The lease is the session's until this time, and not longer. */
  ghost predicate HeldUntil(x: Session, lease: Lease, now: int, until: int) {
    forall t: int :: t >= now ==> (HeldBy(x, lease, t) <==> t < until)
  }

  /** The session after an acquire under a new number. */
  predicate LockedBy(x: Session, y: Session, lease: Lease, now: int) {
    && y.isContinuing && y.lock == Some(lease.token) && y.lockExpiresAt == Some(now + 300_000) && y.fence == lease.fence
    && SameContents(x, y) && SameInitialSearch(x, y) && Refreshed(x, y, now)
  }

  lemma LockedIsHeld(x: Session, y: Session, lease: Lease, now: int)
    requires LockedBy(x, y, lease, now) && lease.fence > 0
    ensures HeldUntil(y, lease, now, now + 300_000)
  {
  }

  lemma AcquireReplies(s: Store, id: SearchId, token: Token, now: int)
    requires id in s.sessions ==> s.sessions[id].fence <= s.counter
    ensures var r := Eval(s, Acquire(id, token), now);
            if Alive(s, id, now) && !LeaseActive(s.sessions[id], now) then
              && r.1.Acquired? && r.1.lease == Lease(token, s.counter + 1)
              && LockedBy(s.sessions[id], r.1.session, r.1.lease, now)
              && r.0 == Store1(Sweep(s, now), id, r.1.session).(counter := s.counter + 1)
            else !r.1.Acquired? && r.0 == Sweep(s, now)
  {
  }

  /** The lease is acquired exactly when the session lives and none is active. It gets a number
      above all earlier ones, lasts five minutes, and leaves contents and initial search. */
  lemma AcquireStores(s: Store, id: SearchId, token: Token, now: int)
    requires Valid(s, now)
    ensures var (t, reply) := Eval(s, Acquire(id, token), now);
            if Alive(s, id, now) && !LeaseActive(s.sessions[id], now) then
              && reply.Acquired? && OthersLive(s, t, id, now) && id in t.sessions
              && reply.lease == Lease(token, s.counter + 1) && t.counter == s.counter + 1
              && reply.session == t.sessions[id]
              && HeldUntil(t.sessions[id], reply.lease, now, now + 300_000)
              && SameContents(s.sessions[id], t.sessions[id]) && SameInitialSearch(s.sessions[id], t.sessions[id])
              && Refreshed(s.sessions[id], t.sessions[id], now)
            else !reply.Acquired? && OnlyTime(s, t, now)
  {
    SweepIsTime(s, now);
    assert id in s.sessions ==> ValidSession(s.sessions[id], s.counter, now);
    AcquireReplies(s, id, token, now);
    if Alive(s, id, now) && !LeaseActive(s.sessions[id], now) {
      var y := Eval(s, Acquire(id, token), now).1.session;
      StoredOne(s, id, y, now);
      LockedIsHeld(s.sessions[id], y, Lease(token, s.counter + 1), now);
    }
  }

  /** A renewal is accepted exactly from the holder, and gives five minutes more. */
  lemma RenewStores(s: Store, id: SearchId, lease: Lease, now: int)
    ensures var (t, reply) := Eval(s, RenewLease(id, lease), now);
            if Alive(s, id, now) && HeldBy(s.sessions[id], lease, now) then
              && reply.Accepted? && OthersLive(s, t, id, now) && t.counter == s.counter && id in t.sessions
              && HeldUntil(t.sessions[id], lease, now, now + 300_000)
              && SameContents(s.sessions[id], t.sessions[id]) && SameInitialSearch(s.sessions[id], t.sessions[id])
              && Refreshed(s.sessions[id], t.sessions[id], now)
            else !reply.Accepted? && OnlyTime(s, t, now)
  {
    SweepIsTime(s, now);
    if Alive(s, id, now) {
      StoredOne(s, id, Touch(s.sessions[id], now).(
        isContinuing := true, lockExpiresAt := Some(now + LOCK_TTL)), now);
    }
  }

  /** A save is accepted exactly when the session lives already or fewer than 500 live. It
      stores the draft without a lease or a claim. */
  lemma SaveStores(s: Store, id: SearchId, d: Draft, now: int)
    ensures var (t, reply) := Eval(s, Save(id, d), now);
            if Alive(s, id, now) || |set i | i in s.sessions && s.sessions[i].expiresAt > now| < 500 then
              && reply.Accepted? && OthersLive(s, t, id, now) && t.counter == s.counter && id in t.sessions
              && Drafted(t.sessions[id], d, now) && id !in t.tombstones
            else !reply.Accepted? && OnlyTime(s, t, now)
  {
    SweepIsTime(s, now);
    var live := set i | i in s.sessions && s.sessions[i].expiresAt > now;
    var z := Sweep(s, now);
    assert z.sessions.Keys == live;
    assert |z.sessions| == |z.sessions.Keys|;
    StoredOne(s, id, NewSession(d, now), now);
  }

  predicate Drafted(y: Session, d: Draft, now: int) {
    && y.stage == d.stage && y.status == d.status && y.incomplete == d.incomplete
    && y.hotels == d.hotels && y.executions == d.executions
    && y.createdAt == now && y.updatedAt == now && y.expiresAt == now + 1_800_000
    && !y.isContinuing && y.lock.None? && y.lockExpiresAt.None? && y.fence == 0
    && y.executionToken.None? && y.initialFence == 0
  }

  // ---------------------------------------------------------------------------------
  // Refusals and expired sessions
  // ---------------------------------------------------------------------------------

  /** It is remembered at this time that the session expired: it is found expired now, or was
      found so less than half an hour ago. */
  predicate KnownExpired(s: Store, id: SearchId, now: int) {
    || (id in s.sessions && s.sessions[id].expiresAt <= now)
    || (id in s.tombstones && s.tombstones[id] > now)
  }

  lemma SweptTombstones(s: Store, id: SearchId, now: int)
    ensures var t := Sweep(s, now);
            && (id in t.tombstones <==> KnownExpired(s, id, now))
            && (id in s.sessions && s.sessions[id].expiresAt <= now ==> t.tombstones[id] == now + 1_800_000)
            && (id in t.tombstones && !(id in s.sessions && s.sessions[id].expiresAt <= now) ==>
                  t.tombstones[id] == s.tombstones[id])
  {
  }

  /** Reading a session returns it exactly while it lives, reports it as expired exactly when
      that is remembered, and as unknown otherwise. */
  lemma ReadAnswers(s: Store, id: SearchId, now: int)
    ensures var (t, reply) := Eval(s, Read(id), now);
            && OnlyTime(s, t, now)
            && reply == if Alive(s, id, now) then Accepted(s.sessions[id])
                        else if KnownExpired(s, id, now) then Rejected(SessionExpired)
                        else Rejected(NotFound)
  {
    SweepIsTime(s, now);
    SweptTombstones(s, id, now);
  }

  /** A session that is found expired is reported so for the half hour after that, and no
      longer, while it is not saved or cleared. */
  lemma ExpiryIsRemembered(s: Store, id: SearchId, now: int, later: int)
    requires id in s.sessions && s.sessions[id].expiresAt <= now <= later
    ensures Eval(Sweep(s, now), Read(id), later).1
            == Rejected(if later < now + 1_800_000 then SessionExpired else NotFound)
  {
    SweptTombstones(s, id, now);
    ReadAnswers(Sweep(s, now), id, later);
  }

  /** Why a write of a living session is refused: without a lease because one is active, and
      with a lease because it is not the session's any more. */
  lemma RefusedWrites(s: Store, id: SearchId, p: Patch, holder: Option<Lease>, now: int)
    requires !Eval(s, Update(id, p, holder), now).1.Accepted?
    ensures Eval(s, Update(id, p, holder), now).1 ==
            if !Alive(s, id, now) then Gone
            else if holder.Some? && holder.value.fence > 0 then Rejected(LeaseStale)
            else Rejected(ContinuationInProgress)
  {
  }

  /** Why a write of an initial search is refused. */
  lemma RefusedInitialWrites(s: Store, id: SearchId, stage: Stage, p: Patch, token: Token, fence: nat, now: int)
    requires !Eval(s, UpdateInitial(id, stage, p, token, fence), now).1.Accepted?
    ensures Eval(s, UpdateInitial(id, stage, p, token, fence), now).1 == Rejected(
              if !Alive(s, id, now) then (if KnownExpired(s, id, now) then SessionExpired else NotFound)
              else if fence == 0 || s.sessions[id].executionToken != Some(token) || s.sessions[id].initialFence != fence
              then ExecutionStale
              else ContinuationInProgress)
  {
    SweptTombstones(s, id, now);
  }
}
