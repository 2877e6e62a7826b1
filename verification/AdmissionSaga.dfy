// What a client's call of the admission saga decides at each step, told from what the ledger,
// the queue and the session store hold.

module AdmissionSaga {
  import opened Common
  import opened QueuedSearch
  import A = SearchAdmission
  import S = SearchSessions
  import L = AdmissionLeases

  predicate AtClient(s: Sys, c: nat, pc: ClientPc) {
    c in s.clients && s.clients[c].pc == pc
  }

  /** The job has a live record, and it is for the same payload. */
  predicate Joins(s: Sys, x: Client) {
    x.job in L.Live(s.ledger, s.now) && s.ledger.records[x.job].fingerprint == x.fingerprint
  }

  /** The job has no live record and there is room for another. */
  predicate Fits(s: Sys, x: Client) {
    x.job !in L.Live(s.ledger, s.now) && |L.Live(s.ledger, s.now)| < s.config.maximum
  }

  /** A client goes on with a reservation exactly when its job is live for the same payload or
      there is room, and the reply arrives. It then holds its own search if it created the
      record, and otherwise the search and the token that are live; either way for a whole
      lease. Else it fails and holds nothing. */
  lemma ReserveDecides(s: Sys, c: nat, lost: bool)
    requires A.Valid(s.ledger) && AtClient(s, c, AtReserve)
    ensures var x, t := s.clients[c], Exec(s, ReserveSlot(c, lost));
            && c in t.clients
            && (t.clients[c].pc == AtAdd <==> !lost && (Joins(s, x) || Fits(s, x)))
            && (t.clients[c].pc == AtAdd ==> t.clients[c].held == Some(
                  if Joins(s, x) then Held(false, s.ledger.records[x.job].searchId, s.ledger.records[x.job].token)
                  else Held(true, x.own, x.token)))
            && (t.clients[c].pc != AtAdd ==> t.clients[c].pc == Catching && t.clients[c].held.None?)
            && (Joins(s, x) || Fits(s, x) ==>
                  x.job in t.ledger.records && t.ledger.records[x.job].expiresAt == s.now + s.config.lease)
  {
    var x := s.clients[c];
    var call := A.Reserve(x.job, x.own, x.token, x.fingerprint, s.now, s.config.lease, s.config.maximum);
    L.ReserveAnswers(s.ledger, call);
    L.ReserveLeaves(s.ledger, call);
  }

  /** Adding the job stores what the client holds, unless the queue has the job already. */
  lemma AddedJobIsHeld(s: Sys, c: nat, lost: bool)
    requires AtClient(s, c, AtAdd) && s.clients[c].held.Some?
    ensures var x, t := s.clients[c], Exec(s, AddJob(c, lost));
            && x.job in t.jobs && t.jobs - {x.job} == s.jobs - {x.job}
            && t.jobs[x.job] == (if x.job in s.jobs then s.jobs[x.job]
                                 else Job(x.held.value.searchId, x.held.value.token, x.fingerprint, false))
            && AtClient(t, c, if lost then Catching else AtRead)
            && t.clients[c].held == x.held
  {
  }

  /** Reading the stored job: the client returns at once exactly when the job is the one it
      holds; it goes on to the job's state exactly when the job is another for the same
      payload; and it fails when there is none or the payload differs. A client that returns
      keeps its session exactly when its own search is used. */
  lemma ReadJobDecides(s: Sys, c: nat)
    requires AtClient(s, c, AtRead) && s.clients[c].held.Some?
    ensures var x, t := s.clients[c], Exec(s, ReadJob(c));
            var usable := x.job in s.jobs && s.jobs[x.job].fingerprint == x.fingerprint;
            var own := usable && s.jobs[x.job].searchId == x.held.value.searchId
                       && s.jobs[x.job].token == x.held.value.token;
            && AtClient(t, c, if own then Returned else if usable then AtState else Catching)
            && (usable ==> t.clients[c].stored == Some(s.jobs[x.job]))
            && (own && x.own != x.held.value.searchId ==> x.own !in t.sessions.sessions)
            && (!own || x.own == x.held.value.searchId ==> t.sessions == s.sessions)
            && t.ledger == s.ledger && t.jobs == s.jobs
  {
  }

  /** The stored job's state sends the client to release its reservation exactly when the job
      has finished, and to adopt the job exactly when it is still there and has not. */
  lemma ReadStateDecides(s: Sys, c: nat)
    requires AtClient(s, c, AtState)
    ensures var x, t := s.clients[c], Exec(s, ReadState(c));
            AtClient(t, c, if x.job !in s.jobs then Catching
                           else if s.jobs[x.job].finished then AtReleaseTerminal else AtAdopt)
  {
  }

  /** A client adopts the stored job exactly when its own record is still there unbegun, for
      the same payload, and the reply arrives; the record then has the job's search and token
      for a whole lease. */
  lemma AdoptDecides(s: Sys, c: nat, lost: bool)
    requires AtClient(s, c, AtAdopt) && s.clients[c].held.Some? && s.clients[c].stored.Some?
    ensures var x, t := s.clients[c], Exec(s, AdoptStored(c, lost));
            var adopts := A.Owns(s.ledger, x.job, x.held.value.token, 0)
                          && s.ledger.records[x.job].fingerprint == x.fingerprint;
            && AtClient(t, c, if adopts && !lost then Returned else Catching)
            && (adopts ==>
                  L.AdmittedAs(t.ledger, x.job,
                    A.Record(x.stored.value.searchId, x.stored.value.token, x.fingerprint,
                             s.ledger.records[x.job].admittedAt, s.now + s.config.lease), 0))
            && (!adopts ==> t.ledger == s.ledger)
  {
    var x := s.clients[c];
    L.AdoptLeaves(s.ledger, A.Adopt(x.job, x.held.value.token, x.stored.value.searchId, x.stored.value.token,
                                    x.fingerprint, s.now, s.config.lease));
  }

  /** A client gives its reservation for a finished job back exactly when nobody else has the
      record, and the reply arrives. */
  lemma ReleaseFinishedDecides(s: Sys, c: nat, lost: bool)
    requires A.Valid(s.ledger) && AtClient(s, c, AtReleaseTerminal)
    requires s.clients[c].held.Some? && s.clients[c].stored.Some?
    ensures var x, t := s.clients[c], Exec(s, ReleaseFinished(c, lost));
            var free := x.job in s.ledger.records ==> s.ledger.records[x.job].token == x.held.value.token;
            && AtClient(t, c, if free && !lost then Returned else Catching)
            && (if free then L.Absent(t.ledger, x.job) else t.ledger == s.ledger)
  {
    var x := s.clients[c];
    L.ReleaseTerminalLeaves(s.ledger, A.ReleaseTerminal(x.job, x.held.value.token));
  }

  /** A failing client gives back exactly a reservation that it created itself, if its record
      is still there unbegun; its session is cleared. */
  lemma CompensationDecides(s: Sys, c: nat, skipped: bool)
    requires AtClient(s, c, Catching)
    ensures var x, t := s.clients[c], Exec(s, Compensate(c, skipped));
            var gives := x.held.Some? && x.held.value.created && !skipped
                         && A.Owns(s.ledger, x.job, x.held.value.token, 0);
            && AtClient(t, c, Refused) && x.own !in t.sessions.sessions
            && (if gives then t.ledger.records == s.ledger.records - {x.job} && x.job !in t.ledger.expiry
                else t.ledger == s.ledger)
  {
    var x := s.clients[c];
    if x.held.Some? {
      A.OwnershipIsChecked(s.ledger, x.job, x.held.value.token, 0, 0, 0);
    }
  }
}
