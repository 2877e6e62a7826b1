// How long an admission lasts: what each script answers and writes, for every ledger, and
// for how long the record that it wrote stays whatever is called for other jobs.

module AdmissionLeases {
  import opened Common
  import opened SearchAdmission

  // ---------------------------------------------------------------------------------
  // Reading a ledger
  // ---------------------------------------------------------------------------------

  /** The job is admitted by this record, with its number, until the record expires. */
  predicate AdmittedAs(s: Ledger, j: JobId, r: Record, fence: nat) {
    && j in s.records && s.records[j] == r
    && j in s.expiry && s.expiry[j] == r.expiresAt
    && Fence(s, j) == fence
  }

  /** The two ledgers say the same about job i. */
  predicate SameJob(s: Ledger, t: Ledger, i: JobId) {
    && (i in s.records <==> i in t.records) && (i in s.records ==> s.records[i] == t.records[i])
    && (i in s.expiry <==> i in t.expiry) && (i in s.expiry ==> s.expiry[i] == t.expiry[i])
    && Fence(s, i) == Fence(t, i)
  }

  ghost predicate SameElsewhere(s: Ledger, t: Ledger, j: JobId) {
    forall i :: i != j ==> SameJob(s, t, i)
  }

  predicate Absent(s: Ledger, j: JobId) {
    j !in s.records && j !in s.expiry && Fence(s, j) == 0
  }

  /** The jobs whose records have not expired. */
  function Live(s: Ledger, now: int): set<JobId> {
    set j | j in s.records && s.records[j].expiresAt > now
  }

  /** t holds the live part of s, apart from what it says about the jobs named. */
  ghost predicate LiveElsewhere(s: Ledger, t: Ledger, now: int, named: set<JobId>) {
    forall i :: i !in named ==> if i in Live(s, now) then SameJob(s, t, i) else Absent(t, i)
  }

  lemma ExpireLive(s: Ledger, now: int)
    requires Valid(s)
    ensures Expire(s, now).records.Keys == Live(s, now) == Expire(s, now).expiry.Keys
    ensures LiveElsewhere(s, Expire(s, now), now, {})
  {
    assert forall j :: j in s.records ==> (j in Expired(s, now) <==> s.records[j].expiresAt <= now);
    assert forall j <- s.fences :: j in s.records;
  }

  // ---------------------------------------------------------------------------------
  // What each script answers and writes
  // ---------------------------------------------------------------------------------

  /** What a reservation answers: exactly from the live record of the job, and from the number
      of live records when there is none. */
  lemma ReserveAnswers(s: Ledger, c: Call)
    requires Valid(s) && c.Reserve?
    ensures var live := Live(s, c.now);
            Eval(s, c).1 ==
              if c.job in live then
                if s.records[c.job].fingerprint == c.fingerprint then
                  Existing(s.records[c.job].searchId, s.records[c.job].token)
                else Conflict
              else if |live| < c.maximum then Created(c.searchId, c.token)
              else Full
  {
    ExpireLive(s, c.now);
    assert |Expire(s, c.now).expiry| == |Expire(s, c.now).expiry.Keys|;
  }

  lemma PutLeaves(s: Ledger, j: JobId, r: Record)
    ensures AdmittedAs(Put(s, j, r), j, r, Fence(s, j)) && SameElsewhere(s, Put(s, j, r), j)
  {
  }

  lemma LiveElsewhereTrans(s: Ledger, e: Ledger, t: Ledger, now: int, j: JobId)
    requires LiveElsewhere(s, e, now, {}) && SameElsewhere(e, t, j)
    ensures LiveElsewhere(s, t, now, {j})
  {
    forall i | i !in {j} ensures if i in Live(s, now) then SameJob(s, t, i) else Absent(t, i) {
      assert i !in {};
      assert SameJob(e, t, i);
    }
  }

  lemma ReserveOnLive(s: Ledger, c: Call)
    requires c.Reserve?
    ensures var e := Expire(s, c.now);
            var (t, reply) := Eval(s, c);
            && (reply.Existing? ==>
                  c.job in e.records && t == Put(e, c.job, e.records[c.job].(expiresAt := c.now + c.lease)))
            && (reply.Created? ==>
                  c.job !in e.records
                  && t == Put(e, c.job, Record(c.searchId, c.token, c.fingerprint, c.now, c.now + c.lease)))
            && (reply.Conflict? ==> t == e && c.job in e.records)
            && (reply.Full? ==> t == e && c.job !in e.records)
            && (reply.Existing? || reply.Created? || reply.Conflict? || reply.Full?)
  {
  }

  lemma LiveJob(s: Ledger, now: int, j: JobId)
    requires Valid(s)
    ensures var e := Expire(s, now);
            if j in e.records then j in Live(s, now) && SameJob(s, e, j) else j !in Live(s, now) && Absent(e, j)
  {
    ExpireLive(s, now);
    assert j !in {};
  }

  /** What a reservation leaves behind: the live records, of which only its own job's is
      written: extended when it exists, new when it does not and there is room. */
  lemma ReserveLeaves(s: Ledger, c: Call)
    requires Valid(s) && c.Reserve?
    ensures var (t, reply) := Eval(s, c);
            && LiveElsewhere(s, t, c.now, {c.job})
            && (reply.Existing? ==>
                  && c.job in s.records
                  && AdmittedAs(t, c.job, s.records[c.job].(expiresAt := c.now + c.lease), Fence(s, c.job)))
            && (reply.Created? ==>
                  AdmittedAs(t, c.job, Record(c.searchId, c.token, c.fingerprint, c.now, c.now + c.lease), 0))
            && (reply.Conflict? ==> SameJob(s, t, c.job))
            && (reply.Full? ==> Absent(t, c.job))
  {
    var e := Expire(s, c.now);
    var (t, reply) := Eval(s, c);
    ExpireLive(s, c.now);
    LiveJob(s, c.now, c.job);
    ReserveOnLive(s, c);
    if reply.Existing? || reply.Created? {
      PutLeaves(e, c.job, t.records[c.job]);
    }
    LiveElsewhereTrans(s, e, t, c.now, c.job);
  }

  /** A begin by the record's token starts a new lease and raises the number; any other is
      refused and changes nothing. */
  lemma BeginLeaves(s: Ledger, c: Call)
    requires c.Begin?
    ensures var (t, reply) := Eval(s, c);
            if c.job in s.records && s.records[c.job].token == c.token then
              && reply == Began(Fence(s, c.job) + 1, s.records[c.job].searchId)
              && AdmittedAs(t, c.job, s.records[c.job].(expiresAt := c.now + c.lease), Fence(s, c.job) + 1)
              && SameElsewhere(s, t, c.job)
            else t == s && reply == if c.job in s.records then Stale else Missing
  {
  }

  /** An accepted renewal starts a new lease and changes nothing else. */
  lemma RenewLeaves(s: Ledger, c: Call)
    requires c.Renew?
    ensures var (t, reply) := Eval(s, c);
            if Owns(s, c.job, c.token, c.fence) then
              && reply == Answer(true)
              && AdmittedAs(t, c.job, s.records[c.job].(expiresAt := c.now + c.lease), c.fence)
              && SameElsewhere(s, t, c.job)
            else t == s && reply == Answer(false)
  {
  }

  /** An accepted adoption re-targets the record, starts a new lease and the numbers anew. */
  lemma AdoptLeaves(s: Ledger, c: Call)
    requires c.Adopt?
    ensures var (t, reply) := Eval(s, c);
            if Owns(s, c.job, c.token, 0) && s.records[c.job].fingerprint == c.fingerprint then
              && reply == Answer(true)
              && AdmittedAs(t, c.job, Record(c.storedSearchId, c.storedToken, c.fingerprint,
                                             s.records[c.job].admittedAt, c.now + c.lease), 0)
              && SameElsewhere(s, t, c.job)
            else t == s && reply == Answer(false)
  {
  }

  /** A terminal release removes the job of its token, and reports success without a record. */
  lemma ReleaseTerminalLeaves(s: Ledger, c: Call)
    requires Valid(s) && c.ReleaseTerminal?
    ensures var (t, reply) := Eval(s, c);
            && SameElsewhere(s, t, c.job)
            && (reply == Answer(true) <==> Absent(t, c.job)) && (reply != Answer(true) ==> t == s)
            && (reply == Answer(true) <==> c.job in s.records ==> s.records[c.job].token == c.token)
  {
  }

  /** A count removes what has expired, and counts and leaves the rest. */
  lemma SnapshotLeaves(s: Ledger, c: Call)
    requires Valid(s) && c.Snapshot?
    ensures var (t, reply) := Eval(s, c);
            LiveElsewhere(s, t, c.now, {}) && reply == Admitted(|Live(s, c.now)|)
  {
    ExpireLive(s, c.now);
    assert |Expire(s, c.now).expiry| == |Expire(s, c.now).expiry.Keys|;
  }

  // ---------------------------------------------------------------------------------
  // An admission lasts for its lease
  // ---------------------------------------------------------------------------------

  /** The call is for another job or for none, and does not sweep from this time on. */
  predicate Elsewhere(c: Call, j: JobId, until: int) {
    match c
    case Reserve(job, _, _, _, now, _, _) => job != j && now < until
    case Snapshot(now) => now < until
    case _ => c.job != j
  }

  lemma ElsewhereKeeps(s: Ledger, c: Call, j: JobId, r: Record, fence: nat)
    requires Valid(s) && AdmittedAs(s, j, r, fence) && Elsewhere(c, j, r.expiresAt)
    ensures AdmittedAs(Eval(s, c).0, j, r, fence)
  {
    match c
    case Reserve(_, _, _, _, _, _, _) =>
      ReserveLeaves(s, c);
      assert j in Live(s, c.now) && SameJob(s, Eval(s, c).0, j);
    case Begin(_, _, _, _) => assert Eval(s, c) == AfterBegin(s, c);
    case Renew(_, _, _, _, _) => assert Eval(s, c) == AfterRenew(s, c);
    case Release(_, _, _) => assert Eval(s, c) == AfterRelease(s, c);
    case Adopt(_, _, _, _, _, _, _) => assert Eval(s, c) == AfterAdopt(s, c);
    case ReleaseTerminal(_, _) => assert Eval(s, c) == AfterReleaseTerminal(s, c);
    case Snapshot(_) =>
      SnapshotLeaves(s, c);
      assert j in Live(s, c.now) && SameJob(s, Eval(s, c).0, j);
  }

  lemma {:induction false} ElsewhereRunKeeps(s: Ledger, calls: seq<Call>, j: JobId, r: Record, fence: nat)
    requires Valid(s) && AdmittedAs(s, j, r, fence)
    requires forall c <- calls :: Elsewhere(c, j, r.expiresAt)
    ensures Valid(Run(s, calls)) && AdmittedAs(Run(s, calls), j, r, fence)
  {
    if calls != [] {
      var init, last := calls[..|calls| - 1], calls[|calls| - 1];
      ElsewhereRunKeeps(s, init, j, r, fence);
      StepKeepsValid(Run(s, init), last);
      ElsewhereKeeps(Run(s, init), last, j, r, fence);
    }
  }

  /** The call wins a lease on its job. */
  predicate Wins(s: Ledger, c: Call) {
    match c
    case Reserve(_, _, _, _, _, _, _) => Eval(s, c).1.Created? || Eval(s, c).1.Existing?
    case Begin(_, _, _, _) => Eval(s, c).1.Began?
    case Renew(_, _, _, _, _) => Eval(s, c).1 == Answer(true)
    case Adopt(_, _, _, _, _, _, _) => Eval(s, c).1 == Answer(true)
    case _ => false
  }

  lemma WinnerIsAdmitted(s: Ledger, c: Call)
    requires Valid(s) && Wins(s, c)
    ensures var t := Eval(s, c).0;
            && c.job in t.records && t.records[c.job].expiresAt == c.now + c.lease
            && AdmittedAs(t, c.job, t.records[c.job], Fence(t, c.job))
  {
    match c
    case Reserve(_, _, _, _, _, _, _) => ReserveLeaves(s, c);
    case Begin(_, _, _, _) => BeginLeaves(s, c);
    case Renew(_, _, _, _, _) => RenewLeaves(s, c);
    case Adopt(_, _, _, _, _, _, _) => AdoptLeaves(s, c);
  }

  /** Whoever wins a lease of length L at a time, by reserving, beginning, renewing or adopting,
      keeps the admission unchanged until that time plus L, whatever is called before then for
      other jobs. */
  lemma AdmissionLastsItsLease(s: Ledger, c: Call, calls: seq<Call>)
    requires Valid(s) && Wins(s, c)
    requires forall d <- calls :: Elsewhere(d, c.job, c.now + c.lease)
    ensures var t := Eval(s, c).0;
            && c.job in t.records && t.records[c.job].expiresAt == c.now + c.lease
            && AdmittedAs(Run(t, calls), c.job, t.records[c.job], Fence(t, c.job))
  {
    var t := Eval(s, c).0;
    WinnerIsAdmitted(s, c);
    StepKeepsValid(s, c);
    ElsewhereRunKeeps(t, calls, c.job, t.records[c.job], Fence(t, c.job));
  }

  // ---------------------------------------------------------------------------------
  // Heartbeats keep an admission for as long as they go on
  // ---------------------------------------------------------------------------------

  /** Every call is a renewal by the holder or is for another job, and the lease has not run
      out at any of them. */
  predicate HeartbeatRun(s: Ledger, calls: seq<Call>, j: JobId, token: Token, fence: nat) {
    calls != [] ==>
      && HeartbeatRun(s, calls[..|calls| - 1], j, token, fence)
      && j in Run(s, calls[..|calls| - 1]).records
      && Beats(calls[|calls| - 1], j, token, fence, Run(s, calls[..|calls| - 1]).records[j].expiresAt)
  }

  predicate Beats(c: Call, j: JobId, token: Token, fence: nat, until: int) {
    Elsewhere(c, j, until) || (c.Renew? && c.job == j && c.token == token && c.fence == fence)
  }

  /** As long as a holder renews before each lease runs out, its admission stays: it owns the
      record of the same search all along, so every one of its renewals is accepted. */
  lemma {:induction false} HeartbeatsKeepAdmission(s: Ledger, calls: seq<Call>, j: JobId, token: Token, fence: nat)
    requires Valid(s) && Owns(s, j, token, fence) && HeartbeatRun(s, calls, j, token, fence)
    ensures var t := Run(s, calls);
            && Valid(t) && Owns(t, j, token, fence) && t.records[j].searchId == s.records[j].searchId
            && forall now, lease :: Eval(t, Renew(j, token, fence, now, lease)).1 == Answer(true)
  {
    if calls != [] {
      var init, last := calls[..|calls| - 1], calls[|calls| - 1];
      HeartbeatsKeepAdmission(s, init, j, token, fence);
      var t := Run(s, init);
      StepKeepsValid(t, last);
      BeatKeeps(t, last, j, token, fence);
    }
  }

  lemma BeatKeeps(t: Ledger, c: Call, j: JobId, token: Token, fence: nat)
    requires Valid(t) && Owns(t, j, token, fence) && Beats(c, j, token, fence, t.records[j].expiresAt)
    ensures var u := Eval(t, c).0; Owns(u, j, token, fence) && u.records[j].searchId == t.records[j].searchId
  {
    if Elsewhere(c, j, t.records[j].expiresAt) {
      ElsewhereKeeps(t, c, j, t.records[j], fence);
    } else {
      RenewLeaves(t, c);
    }
  }
}
