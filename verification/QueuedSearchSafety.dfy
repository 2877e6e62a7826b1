// Safety of the queued-search protocol over every interleaving.

module QueuedSearchSafety {
  import opened Common
  import opened QueuedSearch
  import A = SearchAdmission
  import S = SearchSessions

  // ---------------------------------------------------------------------------------
  // Histories
  // ---------------------------------------------------------------------------------

  /** The most recent accepted claim of session id. */
  function LastClaim(log: seq<Event>, id: SearchId): Option<(Token, nat)>
    decreases |log|
  {
    if log == [] then None
    else
      var e := log[|log| - 1];
      if e.Claimed? && e.id == id then Some((e.execution, e.fence))
      else LastClaim(log[..|log| - 1], id)
  }

  /** Some accepted write put session id into a terminal stage. */
  predicate Settled(log: seq<Event>, id: SearchId) {
    exists e <- log :: e.Wrote? && e.id == id && S.Terminal(e.stage)
  }

  /** What each event must find in the history before it. */
  predicate GoodEvent(log: seq<Event>, e: Event) {
    match e
    case Claimed(id, _, fence) =>
      !Settled(log, id) && (LastClaim(log, id).Some? ==> LastClaim(log, id).value.1 < fence)
    case Wrote(id, execution, fence, _) =>
      !Settled(log, id) && LastClaim(log, id) == Some((execution, fence))
    case SlotReturned(_, id, removed) =>
      Settled(log, id) && (removed.Some? ==> removed.value == id)
  }

  predicate Good(log: seq<Event>)
    decreases |log|
  {
    log != [] ==> Good(log[..|log| - 1]) && GoodEvent(log[..|log| - 1], log[|log| - 1])
  }

  lemma GoodExtend(log: seq<Event>, e: Event)
    requires Good(log) && GoodEvent(log, e)
    ensures Good(log + [e])
  {
    assert (log + [e])[..|log|] == log;
  }

  lemma LastClaimExtend(log: seq<Event>, e: Event, id: SearchId)
    ensures LastClaim(log + [e], id) ==
            if e.Claimed? && e.id == id then Some((e.execution, e.fence)) else LastClaim(log, id)
  {
    assert (log + [e])[..|log|] == log;
  }

  lemma SettledExtend(log: seq<Event>, e: Event, id: SearchId)
    ensures Settled(log + [e], id) <==>
            Settled(log, id) || (e.Wrote? && e.id == id && S.Terminal(e.stage))
  {
    assert forall x <- log :: x in log + [e];
    assert e in log + [e];
  }

  // ---------------------------------------------------------------------------------
  // What the session store does to the fields of the initial search
  // ---------------------------------------------------------------------------------

  predicate SameInitial(x: S.Session, y: S.Session) {
    x.stage == y.stage && x.executionToken == y.executionToken && x.initialFence == y.initialFence
  }

  /** t holds no session that s did not hold, and the same initial fields. */
  predicate Shrunk(s: S.Store, t: S.Store) {
    forall id <- t.sessions :: id in s.sessions && SameInitial(s.sessions[id], t.sessions[id])
  }

  lemma LeasesKeepInitial(s: S.Store, op: S.Op, now: int)
    requires op.Acquire? || op.RenewLease? || op.ReleaseLease?
    ensures Shrunk(s, S.Eval(s, op, now).0)
  {
  }

  lemma ContinuationsKeepInitial(s: S.Store, op: S.Op, now: int)
    requires Continuation(op)
    ensures Shrunk(s, S.Eval(s, op, now).0)
  {
    if op.Acquire? || op.RenewLease? || op.ReleaseLease? {
      LeasesKeepInitial(s, op, now);
    }
  }

  lemma SaveEffect(s: S.Store, id: SearchId, d: S.Draft, now: int)
    ensures var t := S.Eval(s, S.Save(id, d), now).0;
            forall i <- t.sessions ::
              if i == id && S.Eval(s, S.Save(id, d), now).1.Accepted? then t.sessions[i] == S.NewSession(d, now)
              else i in s.sessions && t.sessions[i] == s.sessions[i]
  {
  }

  lemma ClaimEffect(s: S.Store, id: SearchId, token: Token, fence: nat, now: int)
    ensures var r := S.Eval(s, S.Claim(id, token, fence), now);
            && (!r.1.Accepted? ==> Shrunk(s, r.0))
            && (r.1.Declined? ==> id in s.sessions && r.1.session == s.sessions[id])
            && (r.1.Accepted? ==>
                  && id in s.sessions && !S.Terminal(s.sessions[id].stage)
                  && s.sessions[id].initialFence < fence
                  && id in r.0.sessions && r.0.sessions[id].stage == S.Running
                  && r.0.sessions[id].executionToken == Some(token)
                  && r.0.sessions[id].initialFence == fence
                  && Shrunk(s.(sessions := s.sessions - {id}), r.0.(sessions := r.0.sessions - {id})))
  {
  }

  lemma UpdateInitialEffect(s: S.Store, id: SearchId, stage: S.Stage, p: S.Patch,
                            token: Token, fence: nat, now: int)
    ensures var r := S.Eval(s, S.UpdateInitial(id, stage, p, token, fence), now);
            && (!r.1.Accepted? ==> Shrunk(s, r.0))
            && (r.1.Accepted? ==>
                  && id in s.sessions
                  && s.sessions[id].executionToken == Some(token)
                  && s.sessions[id].initialFence == fence
                  && id in r.0.sessions && r.0.sessions[id].stage == stage
                  && r.0.sessions[id].executionToken == (if S.Terminal(stage) then None else Some(token))
                  && r.0.sessions[id].initialFence == fence
                  && Shrunk(s.(sessions := s.sessions - {id}), r.0.(sessions := r.0.sessions - {id})))
  {
  }

  // ---------------------------------------------------------------------------------
  // The invariant
  // ---------------------------------------------------------------------------------

  function FenceOf(claim: Option<(Token, nat)>): nat {
    if claim.None? then 0 else claim.value.1
  }

  /** The session's own fields are what its history says. */
  predicate Agrees(x: S.Session, log: seq<Event>, id: SearchId) {
    && x.initialFence == FenceOf(LastClaim(log, id))
    && (x.executionToken.Some? ==>
          !S.Terminal(x.stage) && LastClaim(log, id) == Some((x.executionToken.value, x.initialFence)))
    && (S.Terminal(x.stage) <==> Settled(log, id))
  }

  predicate HistoryInv(s: Sys) {
    && Good(s.log)
    && (forall e <- s.log :: e.id < s.nextSearch)
    && (forall id <- s.sessions.sessions ::
          id < s.nextSearch && Agrees(s.sessions.sessions[id], s.log, id))
  }

  /** A token and the search it was drawn for. */
  predicate Pair(issued: map<Token, SearchId>, id: SearchId, token: Token) {
    token in issued && issued[token] == id
  }

  predicate LedgerPairs(l: A.Ledger, issued: map<Token, SearchId>) {
    forall j <- l.records :: Pair(issued, l.records[j].searchId, l.records[j].token)
  }

  predicate JobPairs(jobs: map<JobId, Job>, issued: map<Token, SearchId>) {
    forall j <- jobs :: Pair(issued, jobs[j].searchId, jobs[j].token)
  }

  predicate ClientOk(x: Client, issued: map<Token, SearchId>) {
    && Pair(issued, x.own, x.token)
    && (x.held.Some? ==> Pair(issued, x.held.value.searchId, x.held.value.token))
    && (x.stored.Some? ==> Pair(issued, x.stored.value.searchId, x.stored.value.token))
    && (x.pc in {AtAdd, AtRead} ==> x.held.Some? && LastIs(x, x.held.value.searchId, x.held.value.token))
    && (x.pc == AtReleaseTerminal ==> x.sawFinished)
    && (x.pc == Returned ==> x.stored.Some? && (x.last.Some? || x.sawFinished))
    && (x.pc == Returned && x.last.Some? ==>
          LastIs(x, x.stored.value.searchId, x.stored.value.token))
  }

  predicate LastIs(x: Client, id: SearchId, token: Token) {
    x.last.Some? && x.last.value.searchId == id && x.last.value.token == token
  }

  predicate WorkerOk(x: Worker, log: seq<Event>, issued: map<Token, SearchId>) {
    && Pair(issued, x.searchId, x.token)
    && x.pc != Done(Mismatch)
    && (x.pc == Releasing || x.pc == Done(SettledExit) ==> Settled(log, x.searchId))
  }

  /** Only settled workers have returned a slot. */
  predicate ReturnsInv(s: Sys) {
    forall e <- s.log :: e.SlotReturned? ==>
      e.worker in s.workers && s.workers[e.worker].pc == Done(SettledExit)
      && s.workers[e.worker].searchId == e.id
  }

  predicate TokensFresh(s: Sys) {
    forall token <- s.issued :: token < s.nextToken
  }

  predicate Inv(s: Sys) {
    && HistoryInv(s)
    && LedgerPairs(s.ledger, s.issued)
    && JobPairs(s.jobs, s.issued)
    && (forall c <- s.clients :: ClientOk(s.clients[c], s.issued))
    && (forall w <- s.workers :: WorkerOk(s.workers[w], s.log, s.issued))
    && ReturnsInv(s)
    && TokensFresh(s)
  }

  // ---------------------------------------------------------------------------------
  // Preservation: the ledger and the shared shapes of a step
  // ---------------------------------------------------------------------------------

  lemma PutKeepsPairs(l: A.Ledger, j: JobId, r: A.Record, issued: map<Token, SearchId>)
    requires LedgerPairs(l, issued) && Pair(issued, r.searchId, r.token)
    ensures LedgerPairs(A.Put(l, j, r), issued)
  {
  }

  lemma ExpireKeepsPairs(l: A.Ledger, now: int, issued: map<Token, SearchId>)
    requires LedgerPairs(l, issued)
    ensures LedgerPairs(A.Expire(l, now), issued)
  {
  }

  lemma ReserveKeepsPairs(l: A.Ledger, c: A.Call, issued: map<Token, SearchId>)
    requires LedgerPairs(l, issued) && c.Reserve? && Pair(issued, c.searchId, c.token)
    ensures LedgerPairs(A.AfterReserve(l, c).0, issued)
  {
    var e, t := A.Expire(l, c.now), A.AfterReserve(l, c).0;
    ExpireKeepsPairs(l, c.now, issued);
    A.ReserveWrites(l, c);
    if t != e {
      ReservedPair(l, c);
      PutKeepsPairs(e, c.job, t.records[c.job], issued);
    }
  }

  lemma ReservedPair(l: A.Ledger, c: A.Call)
    requires c.Reserve? && A.AfterReserve(l, c).0 != A.Expire(l, c.now)
    ensures var e, t := A.Expire(l, c.now), A.AfterReserve(l, c).0;
            && c.job in t.records
            && (if c.job in e.records then
                  t.records[c.job].searchId == e.records[c.job].searchId
                  && t.records[c.job].token == e.records[c.job].token
                else t.records[c.job].searchId == c.searchId && t.records[c.job].token == c.token)
  {
  }

  lemma AttemptKeepsPairs(l: A.Ledger, c: A.Call, issued: map<Token, SearchId>)
    requires LedgerPairs(l, issued)
    ensures c.Begin? ==> LedgerPairs(A.AfterBegin(l, c).0, issued)
    ensures c.Renew? ==> LedgerPairs(A.AfterRenew(l, c).0, issued)
  {
  }

  lemma AdoptKeepsPairs(l: A.Ledger, c: A.Call, issued: map<Token, SearchId>)
    requires LedgerPairs(l, issued) && c.Adopt? && Pair(issued, c.storedSearchId, c.storedToken)
    ensures LedgerPairs(A.AfterAdopt(l, c).0, issued)
  {
  }

  lemma RemovalKeepsPairs(l: A.Ledger, c: A.Call, issued: map<Token, SearchId>)
    requires LedgerPairs(l, issued)
    ensures c.Release? ==> LedgerPairs(A.AfterRelease(l, c).0, issued)
    ensures c.ReleaseTerminal? ==> LedgerPairs(A.AfterReleaseTerminal(l, c).0, issued)
    ensures c.Snapshot? ==> LedgerPairs(A.AfterSnapshot(l, c).0, issued)
  {
  }

  lemma LedgerKeepsPairs(l: A.Ledger, c: A.Call, issued: map<Token, SearchId>)
    requires LedgerPairs(l, issued)
    requires c.Reserve? ==> Pair(issued, c.searchId, c.token)
    requires c.Adopt? ==> Pair(issued, c.storedSearchId, c.storedToken)
    ensures LedgerPairs(A.Eval(l, c).0, issued)
  {
    match c
    case Reserve(_, _, _, _, _, _, _) => ReserveKeepsPairs(l, c, issued);
    case Begin(_, _, _, _) => AttemptKeepsPairs(l, c, issued);
    case Renew(_, _, _, _, _) => AttemptKeepsPairs(l, c, issued);
    case Adopt(_, _, _, _, _, _, _) => AdoptKeepsPairs(l, c, issued);
    case Release(_, _, _) => RemovalKeepsPairs(l, c, issued);
    case ReleaseTerminal(_, _) => RemovalKeepsPairs(l, c, issued);
    case Snapshot(_) => RemovalKeepsPairs(l, c, issued);
  }

  lemma ShrunkKeepsHistory(s: Sys, t: Sys)
    requires HistoryInv(s) && Shrunk(s.sessions, t.sessions)
    requires t.log == s.log && s.nextSearch <= t.nextSearch
    ensures HistoryInv(t)
  {
  }

  /** A step that moves one worker and may change the ledger. */
  lemma WorkerMoves(s: Sys, l: A.Ledger, w: nat, x: Worker)
    requires Inv(s) && LedgerPairs(l, s.issued) && WorkerOk(x, s.log, s.issued)
    requires w in s.workers && !s.workers[w].pc.Done?
    ensures Inv(WithWorker(s.(ledger := l), w, x))
  {
    var t := WithWorker(s.(ledger := l), w, x);
    ShrunkKeepsHistory(s, t);
  }

  /** A step that moves one client and may change the ledger, the jobs and shrink the store. */
  lemma ClientMoves(s: Sys, l: A.Ledger, z: S.Store, jobs: map<JobId, Job>, c: nat, x: Client)
    requires Inv(s) && LedgerPairs(l, s.issued) && Shrunk(s.sessions, z)
    requires JobPairs(jobs, s.issued) && ClientOk(x, s.issued)
    ensures Inv(WithClient(s.(ledger := l, sessions := z, jobs := jobs), c, x))
  {
    var t := WithClient(s.(ledger := l, sessions := z, jobs := jobs), c, x);
    ShrunkKeepsHistory(s, t);
  }

  // ---------------------------------------------------------------------------------
  // Preservation: clients
  // ---------------------------------------------------------------------------------

  /** Drawing a fresh token leaves every pair in place. */
  lemma IssueKeeps(s: Sys, t: Sys)
    requires Inv(s) && t == Issued(s)
    ensures Inv(t)
  {
    assert s.nextToken !in s.issued;
    assert forall id, token :: Pair(s.issued, id, token) ==> Pair(t.issued, id, token);
  }

  lemma SaveKeepsHistory(s: Sys, z: S.Store)
    requires HistoryInv(s)
    requires z == S.Eval(s.sessions,
                         S.Save(s.nextSearch, S.QUEUED_DRAFT), s.now).0
    ensures HistoryInv(s.(sessions := z, nextSearch := s.nextSearch + 1))
  {
    SaveEffect(s.sessions, s.nextSearch, S.QUEUED_DRAFT, s.now);
    NoHistory(s.log, s.nextSearch);
  }

  lemma NewClient(s: Sys, z: S.Store, c: nat, x: Client)
    requires Inv(s) && HistoryInv(s.(sessions := z, nextSearch := s.nextSearch + 1))
    requires ClientOk(x, s.issued)
    ensures Inv(WithClient(s.(sessions := z, nextSearch := s.nextSearch + 1), c, x))
  {
  }

  lemma OpenKeeps(s: Sys, st: Step)
    requires Inv(s) && st.OpenClient?
    ensures Inv(Exec(s, st))
  {
    if st.c !in s.clients {
      var u := Issued(s);
      IssueKeeps(s, u);
      OpenedShape(s, st, u);
      OpenedClient(s, st, u);
      OpenedKeeps(u, DoOpenClient(s, st).sessions, st.c, DoOpenClient(s, st).clients[st.c]);
      assert Exec(s, st) == DoOpenClient(s, st);
    }
  }

  /** A fresh token is drawn for the next search. */
  function Issued(s: Sys): Sys {
    s.(issued := s.issued[s.nextToken := s.nextSearch], nextToken := s.nextToken + 1)
  }

  lemma OpenedKeeps(u: Sys, z: S.Store, c: nat, x: Client)
    requires Inv(u) && ClientOk(x, u.issued)
    requires z == S.Eval(u.sessions,
                         S.Save(u.nextSearch, S.QUEUED_DRAFT), u.now).0
    ensures Inv(WithClient(u.(sessions := z, nextSearch := u.nextSearch + 1), c, x))
  {
    SaveKeepsHistory(u, z);
    NewClient(u, z, c, x);
  }

  lemma OpenedClient(s: Sys, st: Step, u: Sys)
    requires st.OpenClient? && st.c !in s.clients
    requires u == Issued(s)
    ensures ClientOk(DoOpenClient(s, st).clients[st.c], u.issued)
  {
    OpenedShape(s, st, u);
  }

  lemma OpenedShape(s: Sys, st: Step, u: Sys)
    requires st.OpenClient? && st.c !in s.clients
    requires u == Issued(s)
    ensures DoOpenClient(s, st).sessions ==
            S.Eval(u.sessions,
                   S.Save(u.nextSearch, S.QUEUED_DRAFT), u.now).0
    ensures DoOpenClient(s, st) ==
            WithClient(u.(sessions := DoOpenClient(s, st).sessions, nextSearch := u.nextSearch + 1),
                       st.c, DoOpenClient(s, st).clients[st.c])
    ensures Pair(u.issued, s.nextSearch, s.nextToken)
    ensures var x := DoOpenClient(s, st).clients[st.c];
            && x.own == s.nextSearch && x.token == s.nextToken && x.held.None? && x.stored.None?
            && x.pc in {AtReserve, Refused}
  {
  }

  /** A search id that was never used has no history. */
  lemma {:induction false} NoHistory(log: seq<Event>, id: SearchId)
    requires forall e <- log :: e.id < id
    ensures LastClaim(log, id).None? && !Settled(log, id)
    decreases |log|
  {
    if log != [] {
      assert log[|log| - 1] in log;
      NoHistory(log[..|log| - 1], id);
    }
  }

  lemma ReserveKeeps(s: Sys, st: Step)
    requires Inv(s) && st.ReserveSlot?
    ensures Inv(Exec(s, st))
  {
    if st.c in s.clients && s.clients[st.c].pc == AtReserve {
      var x := s.clients[st.c];
      var call := A.Reserve(x.job, x.own, x.token, x.fingerprint, s.now, s.config.lease, s.config.maximum);
      LedgerKeepsPairs(s.ledger, call, s.issued);
      ReserveReply(s.ledger, call);
      var t := DoReserve(s, st);
      ClientMoves(s, t.ledger, s.sessions, s.jobs, st.c, t.clients[st.c]);
      assert t == WithClient(s.(ledger := t.ledger, sessions := s.sessions, jobs := s.jobs), st.c, t.clients[st.c]);
    }
  }

  lemma ReserveReply(l: A.Ledger, c: A.Call)
    requires c.Reserve?
    ensures var r := A.Eval(l, c);
            r.1.Created? || r.1.Existing? ==>
              c.job in r.0.records && r.0.records[c.job].searchId == r.1.searchId
              && r.0.records[c.job].token == r.1.token
  {
  }

  lemma AddKeeps(s: Sys, st: Step)
    requires Inv(s) && st.AddJob?
    ensures Inv(Exec(s, st))
  {
    if st.c in s.clients && s.clients[st.c].pc == AtAdd && s.clients[st.c].held.Some? {
      var t := DoAddJob(s, st);
      ClientMoves(s, s.ledger, s.sessions, t.jobs, st.c, t.clients[st.c]);
      assert t == WithClient(s.(ledger := s.ledger, sessions := s.sessions, jobs := t.jobs), st.c, t.clients[st.c]);
    }
  }

  lemma DropShrinks(s: Sys, x: Client, used: Option<SearchId>)
    ensures Shrunk(s.sessions, DropOwnSession(s, x, used).sessions)
    ensures DropOwnSession(s, x, used) == s.(sessions := DropOwnSession(s, x, used).sessions)
  {
  }

  lemma ReadJobKeeps(s: Sys, st: Step)
    requires Inv(s) && st.ReadJob?
    ensures Inv(Exec(s, st))
  {
    if st.c in s.clients && s.clients[st.c].pc == AtRead && s.clients[st.c].held.Some? {
      var x := s.clients[st.c];
      var t := DoReadJob(s, st);
      if x.job in s.jobs { DropShrinks(s, x, Some(s.jobs[x.job].searchId)); }
      ReadClient(s, st);
      ClientMoves(s, s.ledger, t.sessions, s.jobs, st.c, t.clients[st.c]);
      assert t == WithClient(s.(ledger := s.ledger, sessions := t.sessions, jobs := s.jobs), st.c, t.clients[st.c]);
    }
  }

  lemma ReadClient(s: Sys, st: Step)
    requires st.ReadJob? && st.c in s.clients && ClientOk(s.clients[st.c], s.issued)
    requires JobPairs(s.jobs, s.issued)
    ensures ClientOk(DoReadJob(s, st).clients[st.c], s.issued)
  {
  }

  lemma AdoptKeeps(s: Sys, st: Step)
    requires Inv(s) && st.AdoptStored?
    ensures Inv(Exec(s, st))
  {
    if st.c in s.clients && s.clients[st.c].pc == AtAdopt
       && s.clients[st.c].held.Some? && s.clients[st.c].stored.Some? {
      var x := s.clients[st.c];
      var stored := x.stored.value;
      var call := A.Adopt(x.job, x.held.value.token, stored.searchId, stored.token,
                          x.fingerprint, s.now, s.config.lease);
      LedgerKeepsPairs(s.ledger, call, s.issued);
      var t := DoAdopt(s, st);
      var l := A.Eval(s.ledger, call).0;
      AdoptedClient(s, st);
      DropShrinks(s.(ledger := l), x, Some(stored.searchId));
      ClientMoves(s, l, t.sessions, s.jobs, st.c, t.clients[st.c]);
      assert t == WithClient(s.(ledger := l, sessions := t.sessions, jobs := s.jobs), st.c, t.clients[st.c]);
    }
  }

  lemma AdoptedClient(s: Sys, st: Step)
    requires st.AdoptStored? && st.c in s.clients && ClientOk(s.clients[st.c], s.issued)
    requires s.clients[st.c].pc == AtAdopt
    ensures ClientOk(DoAdopt(s, st).clients[st.c], s.issued)
  {
    var x := s.clients[st.c];
    if x.held.Some? && x.stored.Some? {
      var call := A.Adopt(x.job, x.held.value.token, x.stored.value.searchId, x.stored.value.token,
                          x.fingerprint, s.now, s.config.lease);
      if A.Eval(s.ledger, call).1 == A.Answer(true) { A.AdoptEffect(s.ledger, call); }
    }
  }

  lemma ReleaseFinishedKeeps(s: Sys, st: Step)
    requires Inv(s) && st.ReleaseFinished?
    ensures Inv(Exec(s, st))
  {
    if st.c in s.clients && s.clients[st.c].pc == AtReleaseTerminal
       && s.clients[st.c].held.Some? && s.clients[st.c].stored.Some? {
      var x := s.clients[st.c];
      var call := A.ReleaseTerminal(x.job, x.held.value.token);
      LedgerKeepsPairs(s.ledger, call, s.issued);
      var t := DoReleaseFinished(s, st);
      FinishedShape(s, st);
      FinishedClient(s, st);
      ClientMoves(s, t.ledger, t.sessions, s.jobs, st.c, t.clients[st.c]);
    }
  }

  lemma FinishedShape(s: Sys, st: Step)
    requires st.ReleaseFinished? && st.c in s.clients && s.clients[st.c].pc == AtReleaseTerminal
    requires s.clients[st.c].held.Some? && s.clients[st.c].stored.Some?
    ensures var x, t := s.clients[st.c], DoReleaseFinished(s, st);
            && st.c in t.clients && Shrunk(s.sessions, t.sessions)
            && t.ledger == A.Eval(s.ledger, A.ReleaseTerminal(x.job, x.held.value.token)).0
            && t == WithClient(s.(ledger := t.ledger, sessions := t.sessions, jobs := s.jobs), st.c, t.clients[st.c])
  {
    var x := s.clients[st.c];
    var l := A.Eval(s.ledger, A.ReleaseTerminal(x.job, x.held.value.token)).0;
    DropShrinks(s.(ledger := l), x, Some(x.stored.value.searchId));
  }

  lemma FinishedClient(s: Sys, st: Step)
    requires st.ReleaseFinished? && st.c in s.clients && ClientOk(s.clients[st.c], s.issued)
    requires s.clients[st.c].pc == AtReleaseTerminal
    ensures ClientOk(DoReleaseFinished(s, st).clients[st.c], s.issued)
  {
  }

  lemma CompensateKeeps(s: Sys, st: Step)
    requires Inv(s) && st.Compensate?
    ensures Inv(Exec(s, st))
  {
    if st.c in s.clients && s.clients[st.c].pc == Catching {
      var x := s.clients[st.c];
      if x.held.Some? { LedgerKeepsPairs(s.ledger, A.Release(x.job, x.held.value.token, 0), s.issued); }
      var t := DoCompensate(s, st);
      DropShrinks(s.(ledger := t.ledger), x, None);
      ClientMoves(s, t.ledger, t.sessions, s.jobs, st.c, t.clients[st.c]);
      assert t == WithClient(s.(ledger := t.ledger, sessions := t.sessions, jobs := s.jobs), st.c, t.clients[st.c]);
    }
  }

  lemma QuietClientKeeps(s: Sys, st: Step)
    requires Inv(s) && (st.ReadState? || st.FailClient?)
    ensures Inv(Exec(s, st))
  {
    var t := Exec(s, st);
    if t != s {
      ClientMoves(s, s.ledger, s.sessions, s.jobs, st.c, t.clients[st.c]);
      assert t == WithClient(s.(ledger := s.ledger, sessions := s.sessions, jobs := s.jobs), st.c, t.clients[st.c]);
    }
  }

  // ---------------------------------------------------------------------------------
  // Preservation: workers
  // ---------------------------------------------------------------------------------

  lemma DeliverKeeps(s: Sys, st: Step)
    requires Inv(s) && st.Deliver?
    ensures Inv(Exec(s, st))
  {
    if st.w !in s.workers && st.job in s.jobs {
      var t := DoDeliver(s, st);
      ShrunkKeepsHistory(s, t);
      assert forall e <- s.log :: e.SlotReturned? ==> e.worker != st.w;
    }
  }

  /** The admission a worker begins on belongs to its own search, so the mismatch exit of
      the processor is never taken. */
  lemma BeginKeeps(s: Sys, st: Step)
    requires Inv(s) && st.BeginExecution?
    ensures Inv(Exec(s, st))
  {
    if At(s, st.w, Delivered) {
      var x := s.workers[st.w];
      var call := A.Begin(x.job, x.token, s.now, s.config.lease);
      LedgerKeepsPairs(s.ledger, call, s.issued);
      BegunShape(s, st);
      var t := DoBegin(s, st);
      WorkerMoves(s, t.ledger, st.w, t.workers[st.w]);
    }
  }

  lemma BegunShape(s: Sys, st: Step)
    requires LedgerPairs(s.ledger, s.issued) && st.BeginExecution? && At(s, st.w, Delivered)
    requires WorkerOk(s.workers[st.w], s.log, s.issued)
    ensures var t := DoBegin(s, st);
            && st.w in t.workers && WorkerOk(t.workers[st.w], s.log, s.issued)
            && t == WithWorker(s.(ledger := t.ledger), st.w, t.workers[st.w])
            && t.ledger == A.Eval(s.ledger, A.Begin(s.workers[st.w].job, s.workers[st.w].token, s.now, s.config.lease)).0
  {
  }

  lemma QuietWorkerKeeps(s: Sys, st: Step)
    requires Inv(s)
    requires st.CallProviders? || st.FaultInSearch? || st.CrashWorker?
    ensures Inv(Exec(s, st))
  {
    var t := Exec(s, st);
    if t != s {
      WorkerMoves(s, s.ledger, st.w, t.workers[st.w]);
      assert t == WithWorker(s.(ledger := s.ledger), st.w, t.workers[st.w]);
    }
  }

  lemma HeartbeatKeeps(s: Sys, st: Step)
    requires Inv(s) && st.Heartbeat?
    ensures Inv(Exec(s, st))
  {
    var t := DoHeartbeat(s, st);
    if st.w in s.workers && t != s {
      LedgerKeepsPairs(s.ledger, RenewCall(s, s.workers[st.w]), s.issued);
      WorkerMoves(s, t.ledger, st.w, t.workers[st.w]);
      assert t == WithWorker(s.(ledger := t.ledger), st.w, t.workers[st.w]);
    }
  }

  lemma ConfirmKeeps(s: Sys, st: Step)
    requires Inv(s) && st.ConfirmOwnership?
    ensures Inv(Exec(s, st))
  {
    var t := DoConfirm(s, st);
    if st.w in s.workers && t != s {
      LedgerKeepsPairs(s.ledger, RenewCall(s, s.workers[st.w]), s.issued);
      WorkerMoves(s, t.ledger, st.w, t.workers[st.w]);
      assert t == WithWorker(s.(ledger := t.ledger), st.w, t.workers[st.w]);
    }
  }

  lemma ConfirmRetryKeeps(s: Sys, st: Step)
    requires Inv(s) && st.ConfirmRetry?
    ensures Inv(Exec(s, st))
  {
    if At(s, st.w, Reowning) {
      var t := DoConfirmRetry(s, st);
      ReownedShape(s, st);
      LedgerKeepsPairs(s.ledger, RenewCall(s, s.workers[st.w]), s.issued);
      WorkerMoves(s, t.ledger, st.w, t.workers[st.w]);
    }
  }

  lemma ReownedShape(s: Sys, st: Step)
    requires st.ConfirmRetry? && At(s, st.w, Reowning) && WorkerOk(s.workers[st.w], s.log, s.issued)
    ensures var t := DoConfirmRetry(s, st);
            && st.w in t.workers && WorkerOk(t.workers[st.w], s.log, s.issued)
            && t == WithWorker(s.(ledger := t.ledger), st.w, t.workers[st.w])
            && t.ledger in {s.ledger, A.Eval(s.ledger, RenewCall(s, s.workers[st.w])).0}
  {
  }

  /** A log that grows by one good event about worker w's own search keeps every worker. */
  lemma LogGrows(s: Sys, z: S.Store, e: Event, w: nat, x: Worker)
    requires Inv(s) && w in s.workers && !s.workers[w].pc.Done? && !e.SlotReturned?
    requires GoodEvent(s.log, e) && e.id < s.nextSearch
    requires WorkerOk(x, s.log + [e], s.issued)
    requires HistoryInv(s.(sessions := z, log := s.log + [e]))
    ensures Inv(WithWorker(s.(sessions := z, log := s.log + [e]), w, x))
  {
    var t := WithWorker(s.(sessions := z, log := s.log + [e]), w, x);
    forall v | v in t.workers ensures WorkerOk(t.workers[v], t.log, t.issued) {
      SettledExtend(s.log, e, t.workers[v].searchId);
    }
  }

  lemma ClaimKeepsHistory(s: Sys, id: SearchId, token: Token, fence: nat)
    requires Inv(s)
    requires S.Eval(s.sessions, S.Claim(id, token, fence), s.now).1.Accepted?
    ensures var z := S.Eval(s.sessions, S.Claim(id, token, fence), s.now).0;
            var e := Claimed(id, token, fence);
            && id < s.nextSearch && GoodEvent(s.log, e)
            && HistoryInv(s.(sessions := z, log := s.log + [e]))
  {
    ClaimEffect(s.sessions, id, token, fence, s.now);
    var z := S.Eval(s.sessions, S.Claim(id, token, fence), s.now).0;
    var e := Claimed(id, token, fence);
    assert Agrees(s.sessions.sessions[id], s.log, id);
    GoodExtend(s.log, e);
    forall i | i in z.sessions ensures i < s.nextSearch && Agrees(z.sessions[i], s.log + [e], i) {
      LastClaimExtend(s.log, e, i);
      SettledExtend(s.log, e, i);
      if i != id { assert i in (z.(sessions := z.sessions - {id})).sessions; }
    }
  }

  /** A step that moves one worker and shrinks the store. */
  lemma WorkerMovesOnShrunk(s: Sys, z: S.Store, w: nat, x: Worker)
    requires Inv(s) && Shrunk(s.sessions, z) && WorkerOk(x, s.log, s.issued)
    requires w in s.workers && !s.workers[w].pc.Done?
    ensures Inv(WithWorker(s.(sessions := z), w, x))
  {
    ShrunkKeepsHistory(s, WithWorker(s.(sessions := z), w, x));
  }

  lemma ClaimKeeps(s: Sys, st: Step)
    requires Inv(s) && st.ClaimSession?
    ensures Inv(Exec(s, st))
  {
    if At(s, st.w, Claiming) {
      var x := s.workers[st.w];
      var r := S.Eval(s.sessions, S.Claim(x.searchId, x.execution, x.fence), s.now);
      if r.1.Accepted? {
        ClaimKeepsHistory(s, x.searchId, x.execution, x.fence);
        LogGrows(s, r.0, Claimed(x.searchId, x.execution, x.fence), st.w, DoClaim(s, st).workers[st.w]);
      } else {
        RefusedClaimKeeps(s, st);
      }
    }
  }

  lemma RefusedClaimKeeps(s: Sys, st: Step)
    requires Inv(s) && st.ClaimSession? && At(s, st.w, Claiming)
    requires var x := s.workers[st.w];
             !S.Eval(s.sessions, S.Claim(x.searchId, x.execution, x.fence), s.now).1.Accepted?
    ensures Inv(DoClaim(s, st))
  {
    var x := s.workers[st.w];
    var r := S.Eval(s.sessions, S.Claim(x.searchId, x.execution, x.fence), s.now);
    ClaimEffect(s.sessions, x.searchId, x.execution, x.fence, s.now);
    if r.1.Declined? {
      assert Agrees(s.sessions.sessions[x.searchId], s.log, x.searchId);
    }
    WorkerMovesOnShrunk(s, r.0, st.w, x.(pc := AfterClaim(r.1, st.lost, st.again)));
  }

  lemma WriteKeepsHistory(s: Sys, id: SearchId, stage: S.Stage, p: S.Patch, token: Token, fence: nat)
    requires Inv(s)
    requires S.Eval(s.sessions, S.UpdateInitial(id, stage, p, token, fence), s.now).1.Accepted?
    ensures var z := S.Eval(s.sessions, S.UpdateInitial(id, stage, p, token, fence), s.now).0;
            var e := Wrote(id, token, fence, stage);
            && id < s.nextSearch && GoodEvent(s.log, e)
            && HistoryInv(s.(sessions := z, log := s.log + [e]))
  {
    UpdateInitialEffect(s.sessions, id, stage, p, token, fence, s.now);
    var z := S.Eval(s.sessions, S.UpdateInitial(id, stage, p, token, fence), s.now).0;
    var e := Wrote(id, token, fence, stage);
    assert Agrees(s.sessions.sessions[id], s.log, id);
    GoodExtend(s.log, e);
    forall i | i in z.sessions ensures i < s.nextSearch && Agrees(z.sessions[i], s.log + [e], i) {
      LastClaimExtend(s.log, e, i);
      SettledExtend(s.log, e, i);
      if i != id { assert i in (z.(sessions := z.sessions - {id})).sessions; }
    }
  }

  /** A worker's accepted write is logged, and moves the worker to `after`; a refused one
      moves it to a program counter that claims nothing. */
  lemma WritingKeeps(s: Sys, w: nat, stage: S.Stage, p: S.Patch, pc: WorkerPc)
    requires Inv(s) && w in s.workers && !s.workers[w].pc.Done?
    requires pc != Done(Mismatch) && pc != Done(SettledExit)
    requires pc == Releasing ==>
               InitialWrite(s, s.workers[w], stage, p).1.Accepted? && S.Terminal(stage)
    ensures Inv(WithWorker(InitialWrite(s, s.workers[w], stage, p).0, w, s.workers[w].(pc := pc)))
  {
    var x := s.workers[w];
    var r := S.Eval(s.sessions, S.UpdateInitial(x.searchId, stage, p, x.execution, x.fence), s.now);
    UpdateInitialEffect(s.sessions, x.searchId, stage, p, x.execution, x.fence, s.now);
    if r.1.Accepted? {
      WriteKeepsHistory(s, x.searchId, stage, p, x.execution, x.fence);
      var e := Wrote(x.searchId, x.execution, x.fence, stage);
      SettledExtend(s.log, e, x.searchId);
      LogGrows(s, r.0, e, w, x.(pc := pc));
    } else {
      WorkerMovesOnShrunk(s, r.0, w, x.(pc := pc));
    }
  }

  lemma PersistKeeps(s: Sys, st: Step)
    requires Inv(s) && st.PersistResults?
    ensures Inv(Exec(s, st))
  {
    if st.w in s.workers && s.workers[st.w].pc.Persisting? {
      WritingKeeps(s, st.w, S.Complete, st.patch, DoPersist(s, st).workers[st.w].pc);
    }
  }

  lemma MarkRetryKeeps(s: Sys, st: Step)
    requires Inv(s) && st.MarkRetry?
    ensures Inv(Exec(s, st))
  {
    if At(s, st.w, MarkingRetry) {
      WritingKeeps(s, st.w, S.Retrying, st.patch, DoMarkRetry(s, st).workers[st.w].pc);
    }
  }

  lemma MarkFailedKeeps(s: Sys, st: Step)
    requires Inv(s) && st.MarkFailed?
    ensures Inv(Exec(s, st))
  {
    if At(s, st.w, MarkingFailed) {
      WritingKeeps(s, st.w, S.Failed, st.patch, DoMarkFailed(s, st).workers[st.w].pc);
    }
  }

  lemma ReturnIsGood(s: Sys, w: nat, e: Event)
    requires HistoryInv(s) && e.SlotReturned? && Settled(s.log, e.id)
    requires e.removed.Some? ==> e.removed.value == e.id
    ensures HistoryInv(s.(log := s.log + [e]))
  {
    GoodExtend(s.log, e);
    HasBound(s, e.id);
    forall id | id in s.sessions.sessions ensures Agrees(s.sessions.sessions[id], s.log + [e], id) {
      LastClaimExtend(s.log, e, id);
      SettledExtend(s.log, e, id);
    }
  }

  lemma ReturnMoves(s: Sys, l: A.Ledger, w: nat, e: Event)
    requires Inv(s) && LedgerPairs(l, s.issued) && At(s, w, Releasing)
    requires e.SlotReturned? && e.worker == w && e.id == s.workers[w].searchId
    requires e.removed.Some? ==> e.removed.value == e.id
    ensures Inv(WithWorker(s.(ledger := l, log := s.log + [e]), w,
                           s.workers[w].(pc := Done(SettledExit))))
  {
    ReturnIsGood(s, w, e);
    ReturnIsKnown(s, w, e);
    var t := WithWorker(s.(ledger := l, log := s.log + [e]), w, s.workers[w].(pc := Done(SettledExit)));
    ShrunkKeepsHistory(s.(log := t.log), t);
    forall v | v in t.workers ensures WorkerOk(t.workers[v], t.log, t.issued) {
      WorkerOkExtend(s.workers[v], s.log, s.issued, e);
    }
  }

  lemma ReturnIsKnown(s: Sys, w: nat, e: Event)
    requires ReturnsInv(s) && At(s, w, Releasing)
    requires e.SlotReturned? && e.worker == w && e.id == s.workers[w].searchId
    ensures ReturnsInv(s.(log := s.log + [e],
                          workers := s.workers[w := s.workers[w].(pc := Done(SettledExit))]))
  {
  }

  lemma WorkerOkExtend(x: Worker, log: seq<Event>, issued: map<Token, SearchId>, e: Event)
    requires WorkerOk(x, log, issued)
    ensures WorkerOk(x, log + [e], issued)
    ensures Settled(log, x.searchId) ==> Settled(log + [e], x.searchId)
  {
    SettledExtend(log, e, x.searchId);
  }

  lemma ReturnKeeps(s: Sys, st: Step)
    requires Inv(s) && st.ReturnSlot?
    ensures Inv(Exec(s, st))
  {
    if At(s, st.w, Releasing) {
      var x := s.workers[st.w];
      var call := A.Release(x.job, x.token, x.fence);
      LedgerKeepsPairs(s.ledger, call, s.issued);
      A.OwnershipIsChecked(s.ledger, x.job, x.token, x.fence, 0, 0);
      var t := DoReturnSlot(s, st);
      ReturnMoves(s, t.ledger, st.w, t.log[|s.log|]);
    }
  }

  lemma HasBound(s: Sys, id: SearchId)
    requires HistoryInv(s) && Settled(s.log, id)
    ensures id < s.nextSearch
  {
  }

  lemma Shrinks(s: Sys, z: S.Store)
    requires Inv(s) && Shrunk(s.sessions, z)
    ensures Inv(s.(sessions := z))
  {
    ShrunkKeepsHistory(s, s.(sessions := z));
  }

  lemma OtherKeeps(s: Sys, st: Step)
    requires Inv(s)
    requires st.Tick? || st.FinishJob? || st.RemoveJob? || st.TakeSnapshot? || st.OtherSessionOp?
    ensures Inv(Exec(s, st))
  {
    if st.TakeSnapshot? {
      SnapshotKeeps(s);
    } else if st.OtherSessionOp? {
      if Continuation(st.op) { SessionOpKeeps(s, st.op); }
    } else {
      JobStepKeeps(s, st);
    }
  }

  lemma JobStepKeeps(s: Sys, st: Step)
    requires Inv(s) && (st.Tick? || st.FinishJob? || st.RemoveJob?)
    ensures Inv(Exec(s, st))
  {
    match st
    case Tick(elapsed) => ClockKeeps(s, elapsed);
    case FinishJob(_) => JobsKeep(s, Exec(s, st).jobs);
    case RemoveJob(_) => JobsKeep(s, Exec(s, st).jobs);
  }

  lemma ClockKeeps(s: Sys, elapsed: nat)
    requires Inv(s)
    ensures Inv(s.(now := s.now + elapsed))
  {
  }

  lemma JobsKeep(s: Sys, jobs: map<JobId, Job>)
    requires Inv(s) && JobPairs(jobs, s.issued)
    ensures Inv(s.(jobs := jobs))
  {
  }

  lemma SnapshotKeeps(s: Sys)
    requires Inv(s)
    ensures Inv(s.(ledger := A.Eval(s.ledger, A.Snapshot(s.now)).0))
  {
    LedgerKeepsPairs(s.ledger, A.Snapshot(s.now), s.issued);
  }

  lemma SessionOpKeeps(s: Sys, op: S.Op)
    requires Inv(s) && Continuation(op)
    ensures Inv(s.(sessions := S.Eval(s.sessions, op, s.now).0))
  {
    ContinuationsKeepInitial(s.sessions, op, s.now);
    Shrinks(s, S.Eval(s.sessions, op, s.now).0);
  }

  lemma StepKeeps(s: Sys, st: Step)
    requires Inv(s)
    ensures Inv(Exec(s, st))
  {
    match st
    case OpenClient(_, _, _) => OpenKeeps(s, st);
    case ReserveSlot(_, _) => ReserveKeeps(s, st);
    case AddJob(_, _) => AddKeeps(s, st);
    case ReadJob(_) => ReadJobKeeps(s, st);
    case ReadState(_) => QuietClientKeeps(s, st);
    case AdoptStored(_, _) => AdoptKeeps(s, st);
    case ReleaseFinished(_, _) => ReleaseFinishedKeeps(s, st);
    case FailClient(_) => QuietClientKeeps(s, st);
    case Compensate(_, _) => CompensateKeeps(s, st);
    case Deliver(_, _, _) => DeliverKeeps(s, st);
    case BeginExecution(_, _) => BeginKeeps(s, st);
    case ClaimSession(_, _, _) => ClaimKeeps(s, st);
    case CallProviders(_, _, _, _) => QuietWorkerKeeps(s, st);
    case Heartbeat(_) => HeartbeatKeeps(s, st);
    case ConfirmOwnership(_, _) => ConfirmKeeps(s, st);
    case PersistResults(_, _, _, _) => PersistKeeps(s, st);
    case MarkRetry(_, _, _) => MarkRetryKeeps(s, st);
    case ConfirmRetry(_, _) => ConfirmRetryKeeps(s, st);
    case MarkFailed(_, _, _) => MarkFailedKeeps(s, st);
    case ReturnSlot(_) => ReturnKeeps(s, st);
    case FaultInSearch(_, _) => QuietWorkerKeeps(s, st);
    case CrashWorker(_) => QuietWorkerKeeps(s, st);
    case _ => OtherKeeps(s, st);
  }

  lemma {:induction false} RunKeeps(s: Sys, steps: seq<Step>)
    requires Inv(s)
    ensures Inv(Run(s, steps))
    decreases |steps|
  {
    if steps != [] {
      StepKeeps(s, steps[0]);
      RunKeeps(Exec(s, steps[0]), steps[1..]);
    }
  }

  // ---------------------------------------------------------------------------------
  // Reading histories by position
  // ---------------------------------------------------------------------------------

  lemma {:induction false} GoodPrefix(log: seq<Event>, k: nat)
    requires Good(log) && k < |log|
    ensures Good(log[..k]) && GoodEvent(log[..k], log[k])
    decreases |log|
  {
    if k < |log| - 1 {
      GoodPrefix(log[..|log| - 1], k);
      assert log[..|log| - 1][..k] == log[..k];
    }
  }

  predicate ClaimsAt(log: seq<Event>, i: nat, id: SearchId)
    requires i < |log|
  {
    log[i].Claimed? && log[i].id == id
  }

  /** The last claim before position k, by position. */
  lemma {:induction false} LastClaimAt(log: seq<Event>, id: SearchId) returns (i: nat)
    requires LastClaim(log, id).Some?
    ensures i < |log| && ClaimsAt(log, i, id)
    ensures LastClaim(log, id) == Some((log[i].execution, log[i].fence))
    ensures forall k :: i < k < |log| ==> !ClaimsAt(log, k, id)
    decreases |log|
  {
    var n := |log| - 1;
    if ClaimsAt(log, n, id) {
      i := n;
    } else {
      i := LastClaimAt(log[..n], id);
      assert forall k :: i < k < n ==> log[k] == log[..n][k];
      forall k | i < k < |log| ensures !ClaimsAt(log, k, id) {
        if k < n { assert !ClaimsAt(log[..n], k, id); }
      }
    }
  }

  lemma {:induction false} ClaimBound(log: seq<Event>, id: SearchId, i: nat)
    requires Good(log) && i < |log| && ClaimsAt(log, i, id)
    ensures LastClaim(log, id).Some? && log[i].fence <= LastClaim(log, id).value.1
    decreases |log|
  {
    var n := |log| - 1;
    if i < n {
      assert log[..n][i] == log[i];
      ClaimBound(log[..n], id, i);
    }
  }

  // ---------------------------------------------------------------------------------
  // Main results
  // ---------------------------------------------------------------------------------

  lemma StartIsSafe(config: Config)
    ensures Inv(Start(config))
  {
  }

  predicate TerminalWriteAt(log: seq<Event>, i: nat, id: SearchId)
    requires i < |log|
  {
    log[i].Wrote? && log[i].id == id && S.Terminal(log[i].stage)
  }

  lemma SettledAt(log: seq<Event>, id: SearchId) returns (i: nat)
    requires Settled(log, id)
    ensures i < |log| && TerminalWriteAt(log, i, id)
  {
    var e :| e in log && e.Wrote? && e.id == id && S.Terminal(e.stage);
    i :| 0 <= i < |log| && log[i] == e;
  }

  /** In any history the protocol can produce, the claims on a session carry strictly
      increasing fences. */
  lemma ClaimsIncrease(log: seq<Event>, id: SearchId, i: nat, k: nat)
    requires Good(log) && i < k < |log| && ClaimsAt(log, i, id) && ClaimsAt(log, k, id)
    ensures log[i].fence < log[k].fence
  {
    GoodPrefix(log, k);
    assert log[..k][i] == log[i];
    ClaimBound(log[..k], id, i);
  }

  /** Over every interleaving of clients, workers, lease expiry, adoption, duplicate
      deliveries, lost replies and crashes:
      claims on one session carry strictly increasing fences;
      every accepted initial-search write comes from the most recently claimed execution;
      and once a write has completed or failed the search, no claim and no further write on
      that session is ever accepted, so this happens at most once. */
  lemma InitialSearchIsFenced(config: Config, steps: seq<Step>)
    ensures
      var log := Run(Start(config), steps).log;
      && (forall id, i, k | 0 <= i < k < |log| && ClaimsAt(log, i, id) && ClaimsAt(log, k, id) ::
            log[i].fence < log[k].fence)
      && (forall k | 0 <= k < |log| && log[k].Wrote? ::
            exists i | 0 <= i < k :: ClaimsAt(log, i, log[k].id)
              && log[i].execution == log[k].execution && log[i].fence == log[k].fence
              && forall j :: i < j < k ==> !ClaimsAt(log, j, log[k].id))
      && (forall id, i, k | 0 <= i < k < |log| && TerminalWriteAt(log, i, id) ::
            log[k].id == id ==> log[k].SlotReturned?)
  {
    StartIsSafe(config);
    RunKeeps(Start(config), steps);
    var log := Run(Start(config), steps).log;
    forall id, i, k | 0 <= i < k < |log| && ClaimsAt(log, i, id) && ClaimsAt(log, k, id)
      ensures log[i].fence < log[k].fence
    {
      ClaimsIncrease(log, id, i, k);
    }
    forall k | 0 <= k < |log| && log[k].Wrote?
      ensures exists i | 0 <= i < k :: ClaimsAt(log, i, log[k].id)
                && log[i].execution == log[k].execution && log[i].fence == log[k].fence
                && forall j :: i < j < k ==> !ClaimsAt(log, j, log[k].id)
    {
      var id := log[k].id;
      GoodPrefix(log, k);
      var i := LastClaimAt(log[..k], id);
      assert ClaimsAt(log, i, id);
      forall j | i < j < k ensures !ClaimsAt(log, j, id) {
        assert !ClaimsAt(log[..k], j, id);
      }
    }
    forall id, i, k | 0 <= i < k < |log| && TerminalWriteAt(log, i, id)
      ensures log[k].id == id ==> log[k].SlotReturned?
    {
      GoodPrefix(log, k);
      assert log[..k][i] == log[i] && log[i] in log[..k];
    }
  }

  /** A worker gives an admission slot back only after a write has completed or failed its
      job's session, and what it removes is the record of that session's search. The
      retry, stale-ownership, contract-error, refused-begin and fault exits never give
      a slot back; the mismatch exit is never taken at all. */
  lemma SlotsAreReturnedAfterSettlement(config: Config, steps: seq<Step>)
    ensures
      var s := Run(Start(config), steps);
      && (forall k | 0 <= k < |s.log| && s.log[k].SlotReturned? ::
            && (exists i | 0 <= i < k :: TerminalWriteAt(s.log, i, s.log[k].id))
            && (s.log[k].removed.Some? ==> s.log[k].removed.value == s.log[k].id)
            && s.log[k].worker in s.workers
            && s.workers[s.log[k].worker].pc == Done(SettledExit))
      && (forall w <- s.workers :: s.workers[w].pc != Done(Mismatch))
  {
    StartIsSafe(config);
    RunKeeps(Start(config), steps);
    var s := Run(Start(config), steps);
    forall k | 0 <= k < |s.log| && s.log[k].SlotReturned?
      ensures exists i | 0 <= i < k :: TerminalWriteAt(s.log, i, s.log[k].id)
      ensures s.log[k].removed.Some? ==> s.log[k].removed.value == s.log[k].id
      ensures s.log[k].worker in s.workers && s.workers[s.log[k].worker].pc == Done(SettledExit)
    {
      GoodPrefix(s.log, k);
      var i := SettledAt(s.log[..k], s.log[k].id);
      assert TerminalWriteAt(s.log, i, s.log[k].id);
      assert s.log[k] in s.log;
    }
  }

  /** Every admission the saga returns names the stored job, and its last script step left
      the ledger's record for the job equal to the stored job's search and token; only for
      a job it had seen finished is there no record left. */
  lemma AdmissionsMatchTheStoredJob(config: Config, steps: seq<Step>, c: nat)
    requires c in Run(Start(config), steps).clients
    requires Run(Start(config), steps).clients[c].pc == Returned
    ensures
      var x := Run(Start(config), steps).clients[c];
      x.stored.Some? &&
      match x.last
      case Some(r) => r.searchId == x.stored.value.searchId && r.token == x.stored.value.token
      case None => x.sawFinished
  {
    StartIsSafe(config);
    RunKeeps(Start(config), steps);
    assert ClientOk(Run(Start(config), steps).clients[c], Run(Start(config), steps).issued);
  }

  lemma ClientLog(s: Sys, st: Step)
    requires st.OpenClient? || st.ReserveSlot? || st.AddJob? || st.ReadJob? || st.ReadState? || st.FailClient?
    ensures s.log <= Exec(s, st).log
  {
  }

  lemma AdoptLog(s: Sys, st: Step)
    requires st.AdoptStored?
    ensures s.log <= Exec(s, st).log
  {
  }

  lemma SagaLog(s: Sys, st: Step)
    requires st.AdoptStored? || st.ReleaseFinished? || st.Compensate?
    ensures s.log <= Exec(s, st).log
  {
    if st.AdoptStored? {
      AdoptLog(s, st);
    }
  }

  lemma ClaimLog(s: Sys, st: Step)
    requires st.ClaimSession?
    ensures s.log <= Exec(s, st).log
  {
  }

  lemma AttemptLog(s: Sys, st: Step)
    requires st.Deliver? || st.BeginExecution? || st.ClaimSession? || st.CallProviders? || st.FaultInSearch? || st.CrashWorker?
    ensures s.log <= Exec(s, st).log
  {
    if st.ClaimSession? {
      ClaimLog(s, st);
    }
  }

  lemma RenewalLog(s: Sys, st: Step)
    requires st.Heartbeat? || st.ConfirmOwnership? || st.ConfirmRetry?
    ensures s.log <= Exec(s, st).log
  {
  }

  lemma SettlingLog(s: Sys, st: Step)
    requires st.PersistResults? || st.MarkRetry? || st.MarkFailed? || st.ReturnSlot?
    ensures s.log <= Exec(s, st).log
  {
  }

  lemma OtherLog(s: Sys, st: Step)
    requires st.Tick? || st.FinishJob? || st.RemoveJob? || st.TakeSnapshot? || st.OtherSessionOp?
    ensures s.log <= Exec(s, st).log
  {
  }

  lemma LogStep(s: Sys, st: Step)
    ensures s.log <= Exec(s, st).log
  {
    match st
    case OpenClient(_, _, _) => ClientLog(s, st);
    case ReserveSlot(_, _) => ClientLog(s, st);
    case AddJob(_, _) => ClientLog(s, st);
    case ReadJob(_) => ClientLog(s, st);
    case ReadState(_) => ClientLog(s, st);
    case FailClient(_) => ClientLog(s, st);
    case AdoptStored(_, _) => SagaLog(s, st);
    case ReleaseFinished(_, _) => SagaLog(s, st);
    case Compensate(_, _) => SagaLog(s, st);
    case Deliver(_, _, _) => AttemptLog(s, st);
    case BeginExecution(_, _) => AttemptLog(s, st);
    case ClaimSession(_, _, _) => AttemptLog(s, st);
    case CallProviders(_, _, _, _) => AttemptLog(s, st);
    case FaultInSearch(_, _) => AttemptLog(s, st);
    case CrashWorker(_) => AttemptLog(s, st);
    case Heartbeat(_) => RenewalLog(s, st);
    case ConfirmOwnership(_, _) => RenewalLog(s, st);
    case ConfirmRetry(_, _) => RenewalLog(s, st);
    case PersistResults(_, _, _, _) => SettlingLog(s, st);
    case MarkRetry(_, _, _) => SettlingLog(s, st);
    case MarkFailed(_, _, _) => SettlingLog(s, st);
    case ReturnSlot(_) => SettlingLog(s, st);
    case _ => OtherLog(s, st);
  }

  lemma {:induction false} LogPrefix(s: Sys, steps: seq<Step>)
    ensures s.log <= Run(s, steps).log
    decreases |steps|
  {
    if steps != [] {
      LogStep(s, steps[0]);
      LogPrefix(Exec(s, steps[0]), steps[1..]);
    }
  }

  /** Adoption may hand out an admission pair a second time, but a fence that has claimed a
      session claims it only once: any later worker that begins with the same or a lower
      number is turned away by the session, whatever token it holds, and writes nothing. */
  lemma ReissuedFenceCannotClaimAgain(s: Sys, steps: seq<Step>, k: nat, st: Step)
    requires Inv(s) && k < |s.log| && s.log[k].Claimed?
    requires st.ClaimSession? && At(Run(s, steps), st.w, Claiming)
    requires Run(s, steps).workers[st.w].searchId == s.log[k].id
    requires Run(s, steps).workers[st.w].fence <= s.log[k].fence
    ensures Exec(Run(s, steps), st).log == Run(s, steps).log
    ensures Shrunk(Run(s, steps).sessions, Exec(Run(s, steps), st).sessions)
  {
    var t := Run(s, steps);
    var x := t.workers[st.w];
    RunKeeps(s, steps);
    LogPrefix(s, steps);
    assert t.log[k] == s.log[k];
    ClaimBound(t.log, x.searchId, k);
    ClaimEffect(t.sessions, x.searchId, x.execution, x.fence, t.now);
    if x.searchId in t.sessions.sessions {
      assert Agrees(t.sessions.sessions[x.searchId], t.log, x.searchId);
    }
  }

  /** An accepted completion of an unsuccessful response: the catch block is next, and the
      session no longer carries the execution token. */
  lemma CompletionDropsToken(s: Sys, w: nat, p: S.Patch, again: bool)
    requires Inv(s) && w in s.workers && s.workers[w].pc == Persisting(false)
    requires InitialWrite(s, s.workers[w], S.Complete, p).1.Accepted?
    ensures
      var x := s.workers[w];
      var t := DoPersist(s, PersistResults(w, p, false, again));
      && w in t.workers && t.workers[w] == x.(pc := Caught(again))
      && x.searchId in t.sessions.sessions
      && t.sessions.sessions[x.searchId].executionToken.None?
      && Settled(t.log, x.searchId) && t.ledger == s.ledger
  {
    var x := s.workers[w];
    UpdateInitialEffect(s.sessions, x.searchId, S.Complete, p, x.execution, x.fence, s.now);
    SettledExtend(s.log, Wrote(x.searchId, x.execution, x.fence, S.Complete), x.searchId);
  }

  lemma MarkIsRefused(t: Sys, w: nat, again: bool, q: S.Patch)
    requires w in t.workers && t.workers[w].pc == Caught(again)
    requires t.workers[w].searchId in t.sessions.sessions
    requires t.sessions.sessions[t.workers[w].searchId].executionToken.None?
    ensures
      var u := if again then DoMarkRetry(t, MarkRetry(w, q, false)) else DoMarkFailed(t, MarkFailed(w, q, false));
      && w in u.workers && u.workers[w].pc == Done(FaultExit)
      && u.ledger == t.ledger && u.log == t.log
  {
    var x := t.workers[w];
    UpdateInitialEffect(t.sessions, x.searchId,
      if again then S.Retrying else S.Failed, q, x.execution, x.fence, t.now);
  }

  /** The converse of returning slots fails. A search whose results are stored but whose
      response is not a success (every provider is done and one of them failed for good)
      has cleared the execution token it would need to mark the retry or the failure: that
      write is refused, the attempt ends in a fault, and the slot is not given back although
      the session is settled. When it is given back is the matter of module SlotReturns. */
  lemma UnsuccessfulCompletionKeepsItsSlot(s: Sys, w: nat, p: S.Patch, again: bool, q: S.Patch)
    requires Inv(s) && w in s.workers && s.workers[w].pc == Persisting(false)
    requires InitialWrite(s, s.workers[w], S.Complete, p).1.Accepted?
    ensures
      var t := DoPersist(s, PersistResults(w, p, false, again));
      var u := if again then DoMarkRetry(t, MarkRetry(w, q, false)) else DoMarkFailed(t, MarkFailed(w, q, false));
      && w in u.workers && u.workers[w].pc == Done(FaultExit)
      && Settled(u.log, s.workers[w].searchId)
      && u.ledger == s.ledger && u.log == t.log
  {
    CompletionDropsToken(s, w, p, again);
    MarkIsRefused(DoPersist(s, PersistResults(w, p, false, again)), w, again, q);
  }
}
