// The admission ledger of the search queue: three keys in the queue store (an expiry
// sorted set, a records hash and a fences hash) changed only by seven atomic scripts.
// Each script is a function on the ledger value, and a method of `AdmissionLedger`
// that changes the three keys in place and is proved to compute that function.

module SearchAdmission {
  import opened Common

  datatype Record = Record(
    searchId: SearchId,
    token: Token,
    fingerprint: Fingerprint,
    admittedAt: int,
    expiresAt: int)

  datatype Ledger = Ledger(
    expiry: map<JobId, int>,
    records: map<JobId, Record>,
    fences: map<JobId, nat>)

  const EMPTY := Ledger(map[], map[], map[])

  /** One call of one script, with its arguments. */
  datatype Call =
    | Reserve(job: JobId, searchId: SearchId, token: Token, fingerprint: Fingerprint,
              now: int, lease: nat, maximum: nat)
    | Begin(job: JobId, token: Token, now: int, lease: nat)
    | Renew(job: JobId, token: Token, fence: nat, now: int, lease: nat)
    | Release(job: JobId, token: Token, fence: nat)
    | Adopt(job: JobId, token: Token, storedSearchId: SearchId, storedToken: Token,
            fingerprint: Fingerprint, now: int, lease: nat)
    | ReleaseTerminal(job: JobId, token: Token)
    | Snapshot(now: int)

  datatype Reply =
    | Conflict
    | Full
    | Created(searchId: SearchId, token: Token)
    | Existing(searchId: SearchId, token: Token)
    | Missing
    | Stale
    | Began(fence: nat, searchId: SearchId)
    | Answer(ok: bool)
    | Admitted(count: nat)

  // ---------------------------------------------------------------------------------
  // The scripts as functions
  // ---------------------------------------------------------------------------------

  function Expired(s: Ledger, now: int): set<JobId> {
    set j | j in s.expiry && s.expiry[j] <= now
  }

  function Drop(s: Ledger, jobs: set<JobId>): Ledger {
    Ledger(s.expiry - jobs, s.records - jobs, s.fences - jobs)
  }

  function Expire(s: Ledger, now: int): Ledger {
    Drop(s, Expired(s, now))
  }

  function Fence(s: Ledger, j: JobId): nat {
    if j in s.fences then s.fences[j] else 0
  }

  /** The record of a job and its score are written together. */
  function Put(s: Ledger, j: JobId, r: Record): Ledger {
    s.(expiry := s.expiry[j := r.expiresAt], records := s.records[j := r])
  }

  /** Does the caller's token and fence name the current attempt on this job? */
  predicate Owns(s: Ledger, j: JobId, token: Token, fence: nat) {
    j in s.records && s.records[j].token == token && Fence(s, j) == fence
  }

  function AfterReserve(s0: Ledger, c: Call): (Ledger, Reply)
    requires c.Reserve?
  {
    var s := Expire(s0, c.now);
    if c.job in s.records then
      var r := s.records[c.job];
      if r.fingerprint != c.fingerprint then (s, Conflict)
      else (Put(s, c.job, r.(expiresAt := c.now + c.lease)), Existing(r.searchId, r.token))
    else if |s.expiry| >= c.maximum then (s, Full)
    else
      (Put(s, c.job, Record(c.searchId, c.token, c.fingerprint, c.now, c.now + c.lease)),
       Created(c.searchId, c.token))
  }

  function AfterBegin(s: Ledger, c: Call): (Ledger, Reply)
    requires c.Begin?
  {
    if c.job !in s.records then (s, Missing)
    else if s.records[c.job].token != c.token then (s, Stale)
    else
      var r := s.records[c.job];
      var fence := Fence(s, c.job) + 1;
      (Put(s, c.job, r.(expiresAt := c.now + c.lease)).(fences := s.fences[c.job := fence]),
       Began(fence, r.searchId))
  }

  function AfterRenew(s: Ledger, c: Call): (Ledger, Reply)
    requires c.Renew?
  {
    if !Owns(s, c.job, c.token, c.fence) then (s, Answer(false))
    else (Put(s, c.job, s.records[c.job].(expiresAt := c.now + c.lease)), Answer(true))
  }

  function AfterRelease(s: Ledger, c: Call): (Ledger, Reply)
    requires c.Release?
  {
    if !Owns(s, c.job, c.token, c.fence) then (s, Answer(false))
    else (Drop(s, {c.job}), Answer(true))
  }

  function AfterAdopt(s: Ledger, c: Call): (Ledger, Reply)
    requires c.Adopt?
  {
    if !Owns(s, c.job, c.token, 0) || s.records[c.job].fingerprint != c.fingerprint then
      (s, Answer(false))
    else
      var r := s.records[c.job].(
        searchId := c.storedSearchId, token := c.storedToken, expiresAt := c.now + c.lease);
      (Put(s, c.job, r).(fences := s.fences - {c.job}), Answer(true))
  }

  function AfterReleaseTerminal(s: Ledger, c: Call): (Ledger, Reply)
    requires c.ReleaseTerminal?
  {
    if c.job !in s.records then (s, Answer(true))
    else if s.records[c.job].token != c.token then (s, Answer(false))
    else (Drop(s, {c.job}), Answer(true))
  }

  function AfterSnapshot(s: Ledger, c: Call): (Ledger, Reply)
    requires c.Snapshot?
  {
    var t := Expire(s, c.now);
    (t, Admitted(|t.expiry|))
  }

  function Eval(s: Ledger, c: Call): (Ledger, Reply) {
    match c
    case Reserve(_, _, _, _, _, _, _) => AfterReserve(s, c)
    case Begin(_, _, _, _) => AfterBegin(s, c)
    case Renew(_, _, _, _, _) => AfterRenew(s, c)
    case Release(_, _, _) => AfterRelease(s, c)
    case Adopt(_, _, _, _, _, _, _) => AfterAdopt(s, c)
    case ReleaseTerminal(_, _) => AfterReleaseTerminal(s, c)
    case Snapshot(_) => AfterSnapshot(s, c)
  }

  function Run(s: Ledger, calls: seq<Call>): Ledger {
    if calls == [] then s else Eval(Run(s, calls[..|calls| - 1]), calls[|calls| - 1]).0
  }

  // ---------------------------------------------------------------------------------
  // The ledger invariant, over every run
  // ---------------------------------------------------------------------------------

  predicate Valid(s: Ledger) {
    && s.expiry.Keys == s.records.Keys
    && (forall j <- s.records :: s.expiry[j] == s.records[j].expiresAt)
    && s.fences.Keys <= s.records.Keys
    && (forall j <- s.fences :: s.fences[j] > 0)
  }

  lemma DropKeeps(s: Ledger, jobs: set<JobId>)
    requires Valid(s)
    ensures Valid(Drop(s, jobs))
    ensures Drop(s, jobs).records.Keys == s.records.Keys - jobs
    ensures |Drop(s, jobs).records.Keys| <= |s.records.Keys|
  {
    SubsetCount(s.records.Keys - jobs, s.records.Keys);
  }

  lemma PutKeeps(s: Ledger, j: JobId, r: Record)
    requires Valid(s)
    ensures Valid(Put(s, j, r))
    ensures Put(s, j, r).records.Keys == s.records.Keys + {j}
  {
  }

  /** A reservation leaves the unexpired ledger as it is or writes one record into it. */
  lemma ReserveWrites(s: Ledger, c: Call)
    requires c.Reserve?
    ensures var e, t := Expire(s, c.now), AfterReserve(s, c).0;
            || t == e
            || (c.job in t.records && t == Put(e, c.job, t.records[c.job]))
    ensures AfterReserve(s, c).0.fences == Expire(s, c.now).fences
  {
  }

  lemma ReserveKeeps(s: Ledger, c: Call)
    requires Valid(s) && c.Reserve?
    ensures Valid(AfterReserve(s, c).0)
  {
    DropKeeps(s, Expired(s, c.now));
    ReserveWrites(s, c);
    var e, t := Expire(s, c.now), AfterReserve(s, c).0;
    if t != e {
      PutKeeps(e, c.job, t.records[c.job]);
    }
  }

  lemma BeginKeeps(s: Ledger, c: Call)
    requires Valid(s) && c.Begin?
    ensures Valid(AfterBegin(s, c).0)
    ensures AfterBegin(s, c).0.records.Keys == s.records.Keys
  {
    if c.job in s.records {
      PutKeeps(s, c.job, s.records[c.job].(expiresAt := c.now + c.lease));
    }
  }

  lemma RenewKeeps(s: Ledger, c: Call)
    requires Valid(s) && c.Renew?
    ensures Valid(AfterRenew(s, c).0)
    ensures AfterRenew(s, c).0.records.Keys == s.records.Keys
  {
    if c.job in s.records {
      PutKeeps(s, c.job, s.records[c.job].(expiresAt := c.now + c.lease));
    }
  }

  lemma AdoptKeeps(s: Ledger, c: Call)
    requires Valid(s) && c.Adopt?
    ensures Valid(AfterAdopt(s, c).0)
    ensures AfterAdopt(s, c).0.records.Keys == s.records.Keys
  {
    if c.job in s.records {
      PutKeeps(s, c.job, s.records[c.job].(
        searchId := c.storedSearchId, token := c.storedToken, expiresAt := c.now + c.lease));
    }
  }

  lemma RemovalKeeps(s: Ledger, c: Call)
    requires Valid(s) && (c.Release? || c.ReleaseTerminal? || c.Snapshot?)
    ensures Valid(Eval(s, c).0)
    ensures Eval(s, c).0.records.Keys <= s.records.Keys
  {
    match c
    case Release(job, _, _) =>
      DropKeeps(s, {job});
      assert Eval(s, c) == AfterRelease(s, c);
    case ReleaseTerminal(job, _) =>
      DropKeeps(s, {job});
      assert Eval(s, c) == AfterReleaseTerminal(s, c);
    case Snapshot(now) =>
      DropKeeps(s, Expired(s, now));
      assert Eval(s, c) == AfterSnapshot(s, c);
  }

  lemma StepKeepsValid(s: Ledger, c: Call)
    requires Valid(s)
    ensures Valid(Eval(s, c).0)
    ensures !c.Reserve? ==> Eval(s, c).0.records.Keys <= s.records.Keys
  {
    match c
    case Reserve(_, _, _, _, _, _, _) => ReserveKeeps(s, c);
    case Begin(_, _, _, _) => BeginKeeps(s, c);
    case Renew(_, _, _, _, _) => RenewKeeps(s, c);
    case Adopt(_, _, _, _, _, _, _) => AdoptKeeps(s, c);
    case Release(_, _, _) => RemovalKeeps(s, c);
    case ReleaseTerminal(_, _) => RemovalKeeps(s, c);
    case Snapshot(_) => RemovalKeeps(s, c);
  }

  lemma ReserveKeepsCapacity(s: Ledger, c: Call)
    requires Valid(s) && c.Reserve? && |s.records.Keys| <= c.maximum
    ensures |Eval(s, c).0.records.Keys| <= c.maximum
  {
    DropKeeps(s, Expired(s, c.now));
    var e := Expire(s, c.now);
    assert |e.expiry| == |e.records.Keys|;
    var t := Eval(s, c).0;
    assert t == e || t.records.Keys == e.records.Keys + {c.job};
  }

  lemma StepKeepsCapacity(s: Ledger, c: Call, maximum: nat)
    requires Valid(s) && |s.records.Keys| <= maximum
    requires c.Reserve? ==> c.maximum == maximum
    ensures |Eval(s, c).0.records.Keys| <= maximum
  {
    if c.Reserve? {
      ReserveKeepsCapacity(s, c);
    } else {
      StepKeepsValid(s, c);
      SubsetCount(Eval(s, c).0.records.Keys, s.records.Keys);
    }
  }

  /** Whatever scripts run in whatever order, the three keys agree and the configured
      maximum is never exceeded. */
  lemma {:induction false} RunsStayWithinCapacity(calls: seq<Call>, maximum: nat)
    requires forall c <- calls :: c.Reserve? ==> c.maximum == maximum
    ensures Valid(Run(EMPTY, calls))
    ensures |Run(EMPTY, calls).records.Keys| <= maximum
  {
    if calls != [] {
      var init := calls[..|calls| - 1];
      RunsStayWithinCapacity(init, maximum);
      StepKeepsValid(Run(EMPTY, init), calls[|calls| - 1]);
      StepKeepsCapacity(Run(EMPTY, init), calls[|calls| - 1], maximum);
    }
  }

  // ---------------------------------------------------------------------------------
  // Fences between two resets
  // ---------------------------------------------------------------------------------

  /** The call creates, re-targets or removes the record of job j, and with it j's fence. */
  predicate Resets(s: Ledger, c: Call, j: JobId) {
    match c
    case Reserve(job, _, _, _, now, _, _) =>
      j in Expired(s, now) || (job == j && AfterReserve(s, c).1.Created?)
    case Snapshot(now) => j in Expired(s, now)
    case Adopt(job, _, _, _, _, _, _) => job == j && AfterAdopt(s, c).1 == Answer(true)
    case Release(job, _, _) => job == j && AfterRelease(s, c).1 == Answer(true)
    case ReleaseTerminal(job, token) => job == j && j in s.records && s.records[j].token == token
    case Begin(_, _, _, _) => false
    case Renew(_, _, _, _, _) => false
  }

  predicate BeginsOn(s: Ledger, c: Call, j: JobId) {
    c.Begin? && c.job == j && AfterBegin(s, c).1.Began?
  }

  lemma ReserveFence(s: Ledger, c: Call, j: JobId)
    requires Valid(s) && c.Reserve?
    ensures !Resets(s, c, j) ==> Fence(AfterReserve(s, c).0, j) == Fence(s, j)
    ensures Resets(s, c, j) ==> Fence(AfterReserve(s, c).0, j) == 0
  {
    var e := Expire(s, c.now);
    ReserveWrites(s, c);
    assert Fence(e, j) == if j in Expired(s, c.now) then 0 else Fence(s, j);
    if Resets(s, c, j) && j !in Expired(s, c.now) {
      assert j !in e.records && j !in s.records;
    }
  }

  lemma FenceStep(s: Ledger, c: Call, j: JobId)
    requires Valid(s)
    ensures !Resets(s, c, j) ==>
              Fence(Eval(s, c).0, j) == Fence(s, j) + (if BeginsOn(s, c, j) then 1 else 0)
    ensures Resets(s, c, j) ==> Fence(Eval(s, c).0, j) == 0
    ensures BeginsOn(s, c, j) ==> Eval(s, c).1.fence == Fence(s, j) + 1
  {
    match c
    case Reserve(_, _, _, _, _, _, _) => ReserveFence(s, c, j);
    case Snapshot(_) => assert Eval(s, c) == AfterSnapshot(s, c);
    case Begin(_, _, _, _) => assert Eval(s, c) == AfterBegin(s, c);
    case Renew(_, _, _, _, _) => assert Eval(s, c) == AfterRenew(s, c);
    case Adopt(_, _, _, _, _, _, _) => assert Eval(s, c) == AfterAdopt(s, c);
    case Release(_, _, _) => assert Eval(s, c) == AfterRelease(s, c);
    case ReleaseTerminal(_, _) => assert Eval(s, c) == AfterReleaseTerminal(s, c);
  }

  predicate QuietRun(s: Ledger, calls: seq<Call>, j: JobId) {
    calls != [] ==>
      && QuietRun(s, calls[..|calls| - 1], j)
      && !Resets(Run(s, calls[..|calls| - 1]), calls[|calls| - 1], j)
  }

  function Begins(s: Ledger, calls: seq<Call>, j: JobId): nat {
    if calls == [] then 0
    else
      Begins(s, calls[..|calls| - 1], j) +
      (if BeginsOn(Run(s, calls[..|calls| - 1]), calls[|calls| - 1], j) then 1 else 0)
  }

  lemma {:induction false} FenceCountsBegins(s: Ledger, calls: seq<Call>, j: JobId)
    requires Valid(s) && QuietRun(s, calls, j)
    ensures Valid(Run(s, calls))
    ensures Fence(Run(s, calls), j) == Fence(s, j) + Begins(s, calls, j)
  {
    if calls != [] {
      var init := calls[..|calls| - 1];
      FenceCountsBegins(s, init, j);
      StepKeepsValid(Run(s, init), calls[|calls| - 1]);
      FenceStep(Run(s, init), calls[|calls| - 1], j);
    }
  }

  /** Two attempts begin on one job with no reset from the first on. The second gets a
      strictly larger number, and from then on the first can neither renew nor release,
      whatever token it shows: only the number of the latest begin can. */
  lemma OlderAttemptIsPowerless(
    s: Ledger, first: Call, between: seq<Call>, second: Call, after: seq<Call>, j: JobId)
    requires Valid(s)
    requires BeginsOn(s, first, j)
    requires QuietRun(Eval(s, first).0, between, j)
    requires BeginsOn(Run(Eval(s, first).0, between), second, j)
    requires QuietRun(Eval(Run(Eval(s, first).0, between), second).0, after, j)
    ensures
      var older := Eval(s, first).1.fence;
      var mid := Run(Eval(s, first).0, between);
      var newer := Eval(mid, second).1.fence;
      var t0 := Eval(mid, second).0;
      var t := Run(t0, after);
      && older < newer
      && (forall token, now, lease ::
            Eval(t, Renew(j, token, older, now, lease)) == (t, Answer(false)))
      && (forall token :: Eval(t, Release(j, token, older)) == (t, Answer(false)))
      && (forall token, fence, now, lease ::
            Eval(t, Renew(j, token, fence, now, lease)).1 == Answer(true) ==>
            fence == newer + Begins(t0, after, j))
      && (forall token, fence :: Eval(t, Release(j, token, fence)).1 == Answer(true) ==>
            fence == newer + Begins(t0, after, j))
  {
    StepKeepsValid(s, first);
    FenceStep(s, first, j);
    var s1 := Eval(s, first).0;
    FenceCountsBegins(s1, between, j);
    var mid := Run(s1, between);
    StepKeepsValid(mid, second);
    FenceStep(mid, second, j);
    FenceCountsBegins(Eval(mid, second).0, after, j);
    OnlyTheFenceOwns(Run(Eval(mid, second).0, after), j);
  }

  /** A renewal or release with any number but the current one is refused. */
  lemma OnlyTheFenceOwns(s: Ledger, j: JobId)
    ensures forall token, fence, now, lease :: fence != Fence(s, j) ==>
              Eval(s, Renew(j, token, fence, now, lease)) == (s, Answer(false))
    ensures forall token, fence :: fence != Fence(s, j) ==>
              Eval(s, Release(j, token, fence)) == (s, Answer(false))
  {
  }

  /** A renewal or release is accepted exactly from the holder of the record's token and
      of the current number; a refused one changes nothing. */
  lemma OwnershipIsChecked(s: Ledger, j: JobId, token: Token, fence: nat, now: int, lease: nat)
    ensures Eval(s, Renew(j, token, fence, now, lease)).1 == Answer(true) <==>
            j in s.records && s.records[j].token == token && Fence(s, j) == fence
    ensures Eval(s, Release(j, token, fence)).1 == Answer(true) <==>
            j in s.records && s.records[j].token == token && Fence(s, j) == fence
    ensures Eval(s, Renew(j, token, fence, now, lease)).1 != Answer(true) ==>
            Eval(s, Renew(j, token, fence, now, lease)).0 == s
    ensures Eval(s, Release(j, token, fence)).1 != Answer(true) ==>
            Eval(s, Release(j, token, fence)).0 == s
    ensures Eval(s, Release(j, token, fence)).1 == Answer(true) ==>
            var t := Eval(s, Release(j, token, fence)).0;
            && t.records == s.records - {j} && t.expiry == s.expiry - {j} && t.fences == s.fences - {j}
  {
  }

  /** The whole effect of a successful begin, of taking over an expired job id, and of an
      adoption, on the record and the fence of the job concerned. */
  lemma BeginEffect(s: Ledger, c: Call)
    requires c.Begin? && c.job in s.records && s.records[c.job].token == c.token
    ensures AfterBegin(s, c).1 == Began(Fence(s, c.job) + 1, s.records[c.job].searchId)
    ensures AfterBegin(s, c).0.records[c.job] == s.records[c.job].(expiresAt := c.now + c.lease)
    ensures Fence(AfterBegin(s, c).0, c.job) == Fence(s, c.job) + 1
  {
  }

  lemma TakeOverEffect(s: Ledger, c: Call)
    requires Valid(s) && c.Reserve? && c.job in s.records && s.records[c.job].expiresAt <= c.now
    requires |Expire(s, c.now).expiry| < c.maximum
    ensures AfterReserve(s, c).1 == Created(c.searchId, c.token)
    ensures AfterReserve(s, c).0.records.Keys >= {c.job}
    ensures AfterReserve(s, c).0.records[c.job] ==
              Record(c.searchId, c.token, c.fingerprint, c.now, c.now + c.lease)
    ensures Fence(AfterReserve(s, c).0, c.job) == 0
  {
    assert c.job in Expired(s, c.now);
    var e := Expire(s, c.now);
    assert c.job !in e.records && c.job !in e.fences;
  }

  lemma AdoptEffect(s: Ledger, c: Call)
    requires c.Adopt? && Owns(s, c.job, c.token, 0) && s.records[c.job].fingerprint == c.fingerprint
    ensures AfterAdopt(s, c).1 == Answer(true)
    ensures c.job in AfterAdopt(s, c).0.records
    ensures AfterAdopt(s, c).0.records[c.job] == s.records[c.job].(
              searchId := c.storedSearchId, token := c.storedToken, expiresAt := c.now + c.lease)
    ensures Fence(AfterAdopt(s, c).0, c.job) == 0
  {
  }

  /** Across a reset the numbers start again. A job has been begun once, as (token, 1), and
      its lease has run out; another client's reservation takes the job id and then adopts
      the stored job's older token: that token is handed the number 1 a second time. The
      ledger alone therefore does not separate attempts; the session's own claim has to. */
  lemma FenceIsReissuedAfterAdoption(s: Ledger, take: Call, adopt: Call, begin: Call)
    requires take.Reserve? && adopt.Adopt? && begin.Begin?
    requires take.job == adopt.job == begin.job
    requires Valid(s) && take.job in s.records && Fence(s, take.job) == 1
    requires s.records[take.job].expiresAt <= take.now
    requires |Expire(s, take.now).expiry| < take.maximum
    requires adopt.token == take.token && adopt.fingerprint == take.fingerprint
    requires adopt.storedToken == s.records[take.job].token
    requires begin.token == adopt.storedToken
    ensures AfterBegin(AfterAdopt(AfterReserve(s, take).0, adopt).0, begin).1
            == Began(1, adopt.storedSearchId)
  {
    TakeOverEffect(s, take);
    var s1 := AfterReserve(s, take).0;
    AdoptEffect(s1, adopt);
    var s2 := AfterAdopt(s1, adopt).0;
    BeginEffect(s2, begin);
  }

  // ---------------------------------------------------------------------------------
  // Compensation: a client whose request failed gives back the reservation it created,
  // with the number zero
  // ---------------------------------------------------------------------------------

  /** How often the job was begun since its record was last created, adopted or removed. */
  function BeginsSinceReset(calls: seq<Call>, j: JobId): nat {
    if calls == [] then 0
    else
      var init, last := calls[..|calls| - 1], calls[|calls| - 1];
      if Resets(Run(EMPTY, init), last, j) then 0
      else BeginsSinceReset(init, j) + (if BeginsOn(Run(EMPTY, init), last, j) then 1 else 0)
  }

  lemma {:induction false} FenceIsBeginsSinceReset(calls: seq<Call>, j: JobId)
    ensures Valid(Run(EMPTY, calls))
    ensures Fence(Run(EMPTY, calls), j) == BeginsSinceReset(calls, j)
  {
    if calls != [] {
      var init := calls[..|calls| - 1];
      FenceIsBeginsSinceReset(init, j);
      StepKeepsValid(Run(EMPTY, init), calls[|calls| - 1]);
      FenceStep(Run(EMPTY, init), calls[|calls| - 1], j);
    }
  }

  /** After any history, beginning hands out number n exactly when the record carries the
      caller's token and n - 1 attempts were begun since its last reset. So a pair of token
      and number is issued again exactly when a reset let the same token start over. */
  lemma BeginHandsOutIff(calls: seq<Call>, j: JobId, token: Token, now: int, lease: nat, n: nat)
    ensures var s := Run(EMPTY, calls);
            Eval(s, Begin(j, token, now, lease)).1.Began? && Eval(s, Begin(j, token, now, lease)).1.fence == n
            <==> j in s.records && s.records[j].token == token && n == BeginsSinceReset(calls, j) + 1
  {
    FenceIsBeginsSinceReset(calls, j);
  }

  /** After any history, a compensating release removes the record exactly when the record
      carries the client's token and nobody has begun on it since it was last created or
      adopted; otherwise it changes nothing. */
  lemma CompensationSparesBegunRecords(calls: seq<Call>, j: JobId, token: Token)
    ensures var s := Run(EMPTY, calls);
            var r := Eval(s, Release(j, token, 0));
            if j in s.records && s.records[j].token == token && BeginsSinceReset(calls, j) == 0 then
              r == (Drop(s, {j}), Answer(true))
            else r == (s, Answer(false))
  {
    FenceIsBeginsSinceReset(calls, j);
  }

  /** "Since it was adopted" cannot be dropped from that: a worker has begun a job and its
      lease has run out; another client takes the job id and adopts the stored job's token;
      the first client's compensation now removes the adopted record. */
  lemma CompensationReachesAdoptedRecord(s: Ledger, take: Call, adopt: Call)
    requires take.Reserve? && adopt.Adopt? && take.job == adopt.job
    requires Valid(s) && take.job in s.records && Fence(s, take.job) > 0
    requires s.records[take.job].expiresAt <= take.now
    requires |Expire(s, take.now).expiry| < take.maximum
    requires adopt.token == take.token && adopt.fingerprint == take.fingerprint
    requires adopt.storedToken == s.records[take.job].token
    ensures var t := AfterAdopt(AfterReserve(s, take).0, adopt).0;
            var compensation := Release(take.job, s.records[take.job].token, 0);
            && AfterRelease(t, compensation) == (Drop(t, {take.job}), Answer(true))
            && AfterRelease(s, compensation) == (s, Answer(false))
  {
    TakeOverEffect(s, take);
    var s1 := AfterReserve(s, take).0;
    AdoptEffect(s1, adopt);
    var t := AfterAdopt(s1, adopt).0;
    assert Owns(t, take.job, s.records[take.job].token, 0);
    assert !Owns(s, take.job, s.records[take.job].token, 0);
  }

  // ---------------------------------------------------------------------------------
  // Both from an empty ledger
  // ---------------------------------------------------------------------------------

  /** One client reserves, a worker begins, the lease runs out, a second client reserves the
      same job and adopts the stored one. */
  function Readoption(j: JobId, lease: nat, maximum: nat): seq<Call> {
    [Reserve(j, 0, 0, 9, 0, lease, maximum), Begin(j, 0, 0, lease),
     Reserve(j, 1, 1, 9, lease, lease, maximum), Adopt(j, 1, 0, 0, 9, lease, lease)]
  }

  /** The ledger in which only this job is admitted. */
  function Only(j: JobId, r: Record, begun: bool): Ledger {
    Ledger(map[j := r.expiresAt], map[j := r], if begun then map[j := 1] else map[])
  }

  lemma OnlyPut(j: JobId, r: Record, begun: bool, r': Record)
    ensures Put(Only(j, r, begun), j, r') == Only(j, r', begun)
  {
    assert map[j := r.expiresAt][j := r'.expiresAt] == map[j := r'.expiresAt];
    assert map[j := r][j := r'] == map[j := r'];
  }

  lemma ReserveFirst(j: JobId, id: SearchId, token: Token, now: int, lease: nat, maximum: nat)
    requires maximum > 0
    ensures Eval(EMPTY, Reserve(j, id, token, 9, now, lease, maximum))
            == (Only(j, Record(id, token, 9, now, now + lease), false), Created(id, token))
  {
    assert Expire(EMPTY, now) == EMPTY;
  }

  lemma BeginFirst(j: JobId, r: Record, now: int, lease: nat)
    ensures Eval(Only(j, r, false), Begin(j, r.token, now, lease))
            == (Only(j, r.(expiresAt := now + lease), true), Began(1, r.searchId))
  {
    OnlyPut(j, r, false, r.(expiresAt := now + lease));
    var none: map<JobId, nat> := map[];
    assert none[j := 1] == map[j := 1];
  }

  lemma ReserveOver(j: JobId, r: Record, id: SearchId, token: Token, now: int, lease: nat, maximum: nat)
    requires maximum > 0 && r.expiresAt <= now
    ensures Eval(Only(j, r, true), Reserve(j, id, token, 9, now, lease, maximum))
            == (Only(j, Record(id, token, 9, now, now + lease), false), Created(id, token))
  {
    assert Expired(Only(j, r, true), now) == {j};
    assert Expire(Only(j, r, true), now) == EMPTY;
    ReserveFirst(j, id, token, now, lease, maximum);
    assert Expire(EMPTY, now) == EMPTY;
  }

  lemma AdoptOver(j: JobId, r: Record, now: int, lease: nat)
    requires r.fingerprint == 9
    ensures Eval(Only(j, r, false), Adopt(j, r.token, 0, 0, 9, now, lease))
            == (Only(j, r.(searchId := 0, token := 0, expiresAt := now + lease), false), Answer(true))
  {
    OnlyPut(j, r, false, r.(searchId := 0, token := 0, expiresAt := now + lease));
    var none: map<JobId, nat> := map[];
    assert none - {j} == none;
  }

  lemma RunLast(s: Ledger, calls: seq<Call>, c: Call)
    ensures Run(s, calls + [c]) == Eval(Run(s, calls), c).0
  {
    assert (calls + [c])[..|calls|] == calls;
  }

  lemma RunsOfFour(a: Call, b: Call, c: Call, d: Call)
    ensures Run(EMPTY, [a]) == Eval(EMPTY, a).0
    ensures Run(EMPTY, [a, b]) == Eval(Run(EMPTY, [a]), b).0
    ensures Run(EMPTY, [a, b, c, d]) == Eval(Eval(Run(EMPTY, [a, b]), c).0, d).0
  {
    RunLast(EMPTY, [], a);
    assert [] + [a] == [a];
    RunLast(EMPTY, [a], b);
    assert [a] + [b] == [a, b];
    RunLast(EMPTY, [a, b], c);
    assert [a, b] + [c] == [a, b, c];
    RunLast(EMPTY, [a, b, c], d);
    assert [a, b, c] + [d] == [a, b, c, d];
  }

  lemma ReadoptionRun(j: JobId, lease: nat, maximum: nat)
    requires maximum > 0
    ensures var calls := Readoption(j, lease, maximum);
            && Run(EMPTY, calls[..1]) == Only(j, Record(0, 0, 9, 0, lease), false)
            && Run(EMPTY, calls[..2]) == Only(j, Record(0, 0, 9, 0, lease), true)
            && Run(EMPTY, calls) == Only(j, Record(0, 0, 9, lease, lease + lease), false)
  {
    var calls := Readoption(j, lease, maximum);
    RunsOfFour(calls[0], calls[1], calls[2], calls[3]);
    assert calls[..1] == [calls[0]] && calls[..2] == [calls[0], calls[1]];
    assert calls == [calls[0], calls[1], calls[2], calls[3]];
    ReserveFirst(j, 0, 0, 0, lease, maximum);
    BeginFirst(j, Record(0, 0, 9, 0, lease), 0, lease);
    ReserveOver(j, Record(0, 0, 9, 0, lease), 1, 1, lease, lease, maximum);
    AdoptOver(j, Record(1, 1, 9, lease, lease + lease), lease, lease);
  }

  /** From an empty ledger the same token is handed number 1 twice, first to the worker that
      begins before the take-over and again to one that begins after the adoption. */
  lemma SamePairIsIssuedTwice(j: JobId, lease: nat, maximum: nat)
    requires maximum > 0
    ensures var calls := Readoption(j, lease, maximum);
            && calls[1] == Begin(j, 0, 0, lease)
            && Eval(Run(EMPTY, calls[..1]), calls[1]).1 == Began(1, 0)
            && Eval(Run(EMPTY, calls), Begin(j, 0, lease, lease)).1 == Began(1, 0)
  {
    ReadoptionRun(j, lease, maximum);
    BeginFirst(j, Record(0, 0, 9, 0, lease), 0, lease);
    BeginFirst(j, Record(0, 0, 9, lease, lease + lease), lease, lease);
  }

  /** From an empty ledger the first client's compensation is refused once a worker has begun,
      and removes the record after the take-over and the adoption. */
  lemma CompensationIsAcceptedAfterAdoption(j: JobId, lease: nat, maximum: nat)
    requires maximum > 0
    ensures var calls := Readoption(j, lease, maximum);
            && Eval(Run(EMPTY, calls[..2]), Release(j, 0, 0)) == (Run(EMPTY, calls[..2]), Answer(false))
            && Eval(Run(EMPTY, calls), Release(j, 0, 0)) == (Drop(Run(EMPTY, calls), {j}), Answer(true))
            && j in Run(EMPTY, calls).records
  {
    ReadoptionRun(j, lease, maximum);
  }

  // ---------------------------------------------------------------------------------
  // The ledger in place
  // ---------------------------------------------------------------------------------

  class AdmissionLedger {
    var expiry: map<JobId, int>
    var records: map<JobId, Record>
    var fences: map<JobId, nat>

    function State(): Ledger
      reads this
    {
      Ledger(expiry, records, fences)
    }

    constructor ()
      ensures State() == EMPTY
    {
      expiry, records, fences := map[], map[], map[];
    }

    /** The loop shared by the reserve and snapshot scripts. */
    method PurgeExpired(now: int)
      modifies this
      ensures State() == Expire(old(State()), now)
    {
      ghost var was := State();
      var expired := set j | j in expiry && expiry[j] <= now;
      var rest := expired;
      while rest != {}
        invariant rest <= expired
        invariant expiry == was.expiry
        invariant records == was.records - (expired - rest)
        invariant fences == was.fences - (expired - rest)
      {
        var j :| j in rest;
        records := records - {j};
        fences := fences - {j};
        assert expired - (rest - {j}) == (expired - rest) + {j};
        rest := rest - {j};
      }
      assert expired - rest == expired;
      expiry := expiry - expired;
    }

    method ReserveAdmission(c: Call) returns (reply: Reply)
      requires c.Reserve?
      modifies this
      ensures (State(), reply) == Eval(old(State()), c)
    {
      var expiresAt := c.now + c.lease;
      PurgeExpired(c.now);
      if c.job in records {
        var record := records[c.job];
        if record.fingerprint != c.fingerprint {
          return Conflict;
        }
        record := record.(expiresAt := expiresAt);
        records := records[c.job := record];
        expiry := expiry[c.job := expiresAt];
        return Existing(record.searchId, record.token);
      }
      if |expiry| >= c.maximum {
        return Full;
      }
      records := records[c.job :=
        Record(c.searchId, c.token, c.fingerprint, c.now, expiresAt)];
      expiry := expiry[c.job := expiresAt];
      return Created(c.searchId, c.token);
    }

    method BeginExecution(c: Call) returns (reply: Reply)
      requires c.Begin?
      modifies this
      ensures (State(), reply) == Eval(old(State()), c)
    {
      if c.job !in records {
        return Missing;
      }
      var record := records[c.job];
      if record.token != c.token {
        return Stale;
      }
      var expiresAt := c.now + c.lease;
      var fence := (if c.job in fences then fences[c.job] else 0) + 1;
      fences := fences[c.job := fence];
      record := record.(expiresAt := expiresAt);
      records := records[c.job := record];
      expiry := expiry[c.job := expiresAt];
      return Began(fence, record.searchId);
    }

    method RenewAdmission(c: Call) returns (reply: Reply)
      requires c.Renew?
      modifies this
      ensures (State(), reply) == Eval(old(State()), c)
    {
      if c.job !in records || records[c.job].token != c.token {
        return Answer(false);
      }
      var current := if c.job in fences then fences[c.job] else 0;
      if current != c.fence {
        return Answer(false);
      }
      var expiresAt := c.now + c.lease;
      records := records[c.job := records[c.job].(expiresAt := expiresAt)];
      expiry := expiry[c.job := expiresAt];
      return Answer(true);
    }

    method ReleaseAdmission(c: Call) returns (reply: Reply)
      requires c.Release?
      modifies this
      ensures (State(), reply) == Eval(old(State()), c)
    {
      if c.job !in records || records[c.job].token != c.token {
        return Answer(false);
      }
      var current := if c.job in fences then fences[c.job] else 0;
      if current != c.fence {
        return Answer(false);
      }
      records := records - {c.job};
      fences := fences - {c.job};
      expiry := expiry - {c.job};
      return Answer(true);
    }

    method AdoptStoredReservation(c: Call) returns (reply: Reply)
      requires c.Adopt?
      modifies this
      ensures (State(), reply) == Eval(old(State()), c)
    {
      if c.job !in records || records[c.job].token != c.token {
        return Answer(false);
      }
      var current := if c.job in fences then fences[c.job] else 0;
      if current != 0 {
        return Answer(false);
      }
      var record := records[c.job];
      if record.fingerprint != c.fingerprint {
        return Answer(false);
      }
      var expiresAt := c.now + c.lease;
      record := record.(
        searchId := c.storedSearchId, token := c.storedToken, expiresAt := expiresAt);
      records := records[c.job := record];
      fences := fences - {c.job};
      expiry := expiry[c.job := expiresAt];
      return Answer(true);
    }

    method ReleaseTerminalReservation(c: Call) returns (reply: Reply)
      requires c.ReleaseTerminal?
      modifies this
      ensures (State(), reply) == Eval(old(State()), c)
    {
      if c.job !in records {
        return Answer(true);
      }
      if records[c.job].token != c.token {
        return Answer(false);
      }
      records := records - {c.job};
      fences := fences - {c.job};
      expiry := expiry - {c.job};
      return Answer(true);
    }

    method CountAdmitted(c: Call) returns (reply: Reply)
      requires c.Snapshot?
      modifies this
      ensures (State(), reply) == Eval(old(State()), c)
    {
      PurgeExpired(c.now);
      return Admitted(|expiry|);
    }
  }
}
