// A request that holds its lease and the stored list of its search agree, step by step, so
// that each of its writes is the begin or the result that it stands for.

module LeaseCoupling {
  import opened Common
  import opened ProviderExecutions
  import opened ContinuationPass
  import opened ContinuationProtocol
  import opened ContinuationExclusion
  import opened ContinuationLoss
  import opened StoredExecutions
  import S = SearchSessions
  import L = ContinuationLease

  /** The results still to be recorded are those of running executions. */
  predicate Ready(x: Client) {
    && DistinctProviders(x.runnable)
    && (x.runnable != [] ==> FixedList(x.executions))
    && forall k :: x.next <= k < |x.runnable| ==> RunningAt(x.executions, x.runnable[k].providerId)
  }

  /** How a request that holds the lease stands to the stored list: before its first write it
      has begun what can run in it, and after that it has the very list. */
  predicate Coupled(x: Client, stored: seq<Execution>) {
    match x.pc
    case Beginning =>
      && x.since >= 0 && x.next == 0
      && x.runnable == RunnableIn(NormalizeList(stored), x.since)
      && x.executions == BeginEach(NormalizeList(stored), x.runnable, x.since)
    case Renewing => stored == x.executions && Ready(x) && x.next == 0
    case Calling => stored == x.executions && Ready(x) && x.next == 0
    case Confirming => stored == x.executions && Ready(x) && x.next == 0
    case Appending => stored == x.executions && Ready(x)
    case Refreshing => stored == x.executions && Ready(x)
    case Recording => stored == x.executions && Ready(x)
    case Releasing => stored == x.executions
    case _ => true
  }

  predicate HoldsLease(s: Sys, c: nat)
    requires c in s.clients
  {
    && Holding(s.clients[c].pc) && s.clients[c].id in s.store.sessions
    && S.HeldBy(s.store.sessions[s.clients[c].id], s.clients[c].lease, s.now)
  }

  predicate ClientCoupled(s: Sys, c: nat)
    requires c in s.clients
  {
    HoldsLease(s, c) ==> Coupled(s.clients[c], s.store.sessions[s.clients[c].id].executions)
  }

  /** No two requests hold the same fencing number. */
  predicate UniqueFences(clients: map<nat, Client>) {
    forall c, d | c in clients && d in clients && c != d && Holding(clients[c].pc) && Holding(clients[d].pc) ::
      clients[c].lease.fence != clients[d].lease.fence
  }

  predicate Inv2(s: Sys) {
    && Inv(s) && s.now >= 0 && UniqueFences(s.clients)
    && forall c <- s.clients :: ClientCoupled(s, c)
  }

  // ---------------------------------------------------------------------------------
  // Others leave the list of a held session alone
  // ---------------------------------------------------------------------------------

  /** The operation does not show the lease that is held on the session. */
  predicate Foreign(op: S.Op, id: SearchId, lease: S.Lease) {
    match op
    case Update(i, _, holder) => i == id ==> holder.None? || holder.value.fence != lease.fence
    case ReleaseLease(i, _, l) => i == id ==> l.fence != lease.fence
    case Append(_, _, _) => true
    case _ => true
  }

  /** t has the session only with the executions that it has in s. */
  predicate SameList(s: S.Store, t: S.Store, id: SearchId) {
    id in t.sessions ==> id in s.sessions && t.sessions[id].executions == s.sessions[id].executions
  }

  lemma ForeignWrite(s: S.Store, op: S.Op, now: int, id: SearchId, lease: S.Lease)
    requires S.Valid(s, now) && id in s.sessions && S.HeldBy(s.sessions[id], lease, now)
    requires op.Update? && Foreign(op, id, lease) && (op.holder.Some? ==> op.holder.value.fence > 0)
    ensures SameList(s, S.Eval(s, op, now).0, id)
  {
  }

  lemma ForeignRelease(s: S.Store, op: S.Op, now: int, id: SearchId, lease: S.Lease)
    requires id in s.sessions && S.HeldBy(s.sessions[id], lease, now)
    requires op.ReleaseLease? && Foreign(op, id, lease)
    ensures SameList(s, S.Eval(s, op, now).0, id)
  {
  }

  lemma LeaseOpList(s: S.Store, op: S.Op, now: int, id: SearchId)
    requires op.Acquire? || op.RenewLease? || op.Clear? || op.Read?
    ensures SameList(s, S.Eval(s, op, now).0, id)
  {
    LeaseStages(s, op, now);
  }

  lemma AppendList(s: S.Store, op: S.Op, now: int, id: SearchId)
    requires op.Append?
    ensures SameList(s, S.Eval(s, op, now).0, id)
  {
    AppendStages(s, op, now);
  }

  lemma NewSaveList(s: S.Store, op: S.Op, now: int, id: SearchId)
    requires op.Save? && op.id != id
    ensures SameList(s, S.Eval(s, op, now).0, id)
  {
    SaveShape(s, op, now);
  }

  lemma ClaimList(s: S.Store, op: S.Op, now: int, id: SearchId)
    requires op.Claim?
    ensures SameList(s, S.AfterClaim(s, op, now).0, id)
  {
  }

  /** A worker does not write a search that is past. */
  lemma WorkerList(s: S.Store, op: S.Op, now: int, nextId: nat, queued: set<SearchId>, id: SearchId)
    requires S.Valid(s, now) && SessionsOk(s, nextId, queued) && IsPast(s, nextId, id) && FromWorker(queued, op)
    ensures SameList(s, S.Eval(s, op, now).0, id)
  {
    if op.Claim? {
      ClaimList(s, op, now, id);
    } else {
      InitialWriteShape(s, op, now);
      if id in s.sessions {
        assert SessionOk(s.sessions[id], id, nextId, queued);
        assert S.ValidSession(s.sessions[id], s.counter, now);
      }
    }
  }

  lemma ForeignList(s: S.Store, op: S.Op, now: int, nextId: nat, queued: set<SearchId>, id: SearchId, lease: S.Lease)
    requires S.Valid(s, now) && SessionsOk(s, nextId, queued) && IsPast(s, nextId, id)
    requires id in s.sessions && S.HeldBy(s.sessions[id], lease, now) && Foreign(op, id, lease)
    requires op.Save? ==> op.id != id
    requires op.Claim? || op.UpdateInitial? ==> FromWorker(queued, op)
    requires op.Update? && op.holder.Some? ==> op.holder.value.fence > 0
    ensures SameList(s, S.Eval(s, op, now).0, id)
  {
    if op.Update? {
      ForeignWrite(s, op, now, id, lease);
    } else if op.ReleaseLease? {
      ForeignRelease(s, op, now, id, lease);
    } else if op.Append? {
      AppendList(s, op, now, id);
    } else if op.Save? {
      NewSaveList(s, op, now, id);
    } else if op.Claim? || op.UpdateInitial? {
      WorkerList(s, op, now, nextId, queued, id);
    } else {
      LeaseOpList(s, op, now, id);
    }
  }

  /** What the request of a step may be. */
  lemma RequestShape(s: Sys, st: Step)
    requires Inv(s) && Request(s, st).Some?
    ensures var op := Request(s, st).value;
            && (op.Save? ==> op.id == s.nextId)
            && (op.Claim? || op.UpdateInitial? ==> FromWorker(s.queued, op))
            && (op.Update? && op.holder.Some? ==> op.holder.value.fence > 0)
            && (op.Update? || op.ReleaseLease? ==> st.Advance? && st.c in s.clients)
  {
    SavesAreNew(s, st);
    if st.Advance? {
      CommandsAreOwn(s.clients[st.c], st.input, s.nextToken, s.now);
      assert ClientOk(s.clients[st.c], s.store, s.nextId);
    }
  }

  /** The commands of a request name its session, and carry its lease or none. */
  lemma CommandsAreOwn(x: Client, input: Input, token: Token, now: int)
    ensures var op := Command(x, input, token, now);
            op.Some? ==>
              && !op.value.Save? && !op.value.Claim? && !op.value.UpdateInitial?
              && (op.value.Update? ==> op.value.id == x.id && (op.value.holder == None || op.value.holder == Some(x.lease)))
              && (op.value.Update? && op.value.holder.Some? ==> Holding(x.pc))
              && (op.value.ReleaseLease? ==> op.value.id == x.id && op.value.lease == x.lease && Holding(x.pc))
  {
  }

  /** While a request holds the lease of a session, no step of another changes its list. */
  lemma OthersLeaveTheList(s: Sys, st: Step, c: nat)
    requires Inv(s) && UniqueFences(s.clients) && c in s.clients && HoldsLease(s, c)
    requires !(st.Advance? && st.c == c)
    ensures SameList(s.store, Exec(s, st).store, s.clients[c].id)
  {
    var x := s.clients[c];
    ExecStore(s, st);
    assert ClientOk(x, s.store, s.nextId);
    if Request(s, st).Some? {
      var op := Request(s, st).value;
      RequestShape(s, st);
      if st.Advance? {
        CommandsAreOwn(s.clients[st.c], st.input, s.nextToken, s.now);
      }
      assert Foreign(op, x.id, x.lease);
      ForeignList(s.store, op, s.now, s.nextId, s.queued, x.id, x.lease);
    }
  }

  // ---------------------------------------------------------------------------------
  // The request's own steps
  // ---------------------------------------------------------------------------------

  lemma PositionByPlaces(a: seq<Execution>, b: seq<Execution>, p: ProviderId)
    requires SamePlaces(a, b)
    ensures Position(a, p) == Position(b, p)
  {
    var i, j := Position(a, p), Position(b, p);
    assert i < |a| ==> b[i].providerId == a[i].providerId;
    assert j < |b| ==> a[j].providerId == b[j].providerId;
  }

  /** Recording the next result keeps the later ones running. */
  lemma AppliedReady(x: Client, now: int)
    requires Ready(x)
    ensures Ready(x.(executions := Applied(x, now), next := x.next + 1))
  {
    if x.next < |x.runnable| && x.runnable[x.next].providerId in x.results {
      var p := x.runnable[x.next].providerId;
      var r := x.results[p];
      var i := Position(x.executions, p);
      assert RunningAt(x.executions, p);
      AppliedList(x.executions, i, r, now);
      ApplyKeepsFixed(x.executions[i], r, now);
      var es := x.executions[i := ApplyOne(x.executions[i], r, now)];
      forall k | x.next + 1 <= k < |x.runnable| ensures RunningAt(es, x.runnable[k].providerId) {
        PositionByPlaces(x.executions, es, x.runnable[k].providerId);
        assert RunningAt(x.executions, x.runnable[k].providerId);
      }
    }
  }

  lemma BegunReady(x: Client, stored: seq<Execution>)
    requires x.pc == Beginning && Coupled(x, stored)
    ensures Ready(x)
  {
    BegunView(stored, x.since);
    RunnableAreDistinct(stored, x.since);
    forall k | 0 <= k < |x.runnable| ensures RunningAt(x.executions, x.runnable[k].providerId) {
      BegunRuns(stored, x.since, k);
    }
  }

  lemma NextResultCoupled(x: Client, stored: seq<Execution>)
    requires stored == x.executions && Ready(x)
    ensures Coupled(NextResult(x), stored)
  {
  }

  /** How a request's lease can come about in one of its steps. */
  lemma MovedLease(x: Client, input: Input, reply: S.Reply, now: int)
    ensures var y := Moved(x, input, reply, now);
            && y.id == x.id
            && (Holding(y.pc) ==>
                  if x.pc == Acquiring then
                    input.fate == Delivered && reply.Acquired? && y == Locked(x, reply.lease, reply.session, now)
                  else Holding(x.pc) && y.lease == x.lease)
  {
  }

  lemma LockedCoupled(x: Client, lease: S.Lease, session: S.Session, now: int)
    requires now >= 0
    ensures Coupled(Locked(x, lease, session, now), session.executions)
  {
  }

  lemma AcquiredSession(s: S.Store, op: S.Op, now: int)
    requires op.Acquire? && S.Eval(s, op, now).1.Acquired?
    ensures op.id in S.Eval(s, op, now).0.sessions
    ensures S.Eval(s, op, now).0.sessions[op.id].executions == S.Eval(s, op, now).1.session.executions
  {
  }

  /** An accepted fenced write stores what it carries. */
  lemma WriteStores(s: S.Store, op: S.Op, now: int)
    requires op.Update? && S.Eval(s, op, now).1.Accepted?
    ensures var t := S.Eval(s, op, now).0;
            && op.id in s.sessions && op.id in t.sessions
            && t.sessions[op.id].executions ==
                 (if op.patch.executions.Some? then op.patch.executions.value else s.sessions[op.id].executions)
  {
  }

  lemma AcquiringCoupled(s: Sys, c: nat, input: Input)
    requires Inv2(s) && c in s.clients && s.clients[c].pc == Acquiring
    ensures ClientCoupled(Exec(s, Advance(c, input)), c)
  {
    var st := Advance(c, input);
    var x := s.clients[c];
    ExecStore(s, st);
    MovedLease(x, input, Served(s, st).1, s.now);
    if input.fate == Delivered && Served(s, st).1.Acquired? {
      AcquiredSession(s.store, S.Acquire(x.id, s.nextToken), s.now);
      LockedCoupled(x, Served(s, st).1.lease, Served(s, st).1.session, s.now);
    }
  }

  lemma OwnStep(s: Sys, c: nat, input: Input)
    requires c in s.clients
    ensures var t := Exec(s, Advance(c, input));
            && c in t.clients && t.clients[c] == Moved(s.clients[c], input, Served(s, Advance(c, input)).1, s.now)
            && t.store == Served(s, Advance(c, input)).0 && t.clients[c].id == s.clients[c].id
  {
    ExecStore(s, Advance(c, input));
    MovedLease(s.clients[c], input, Served(s, Advance(c, input)).1, s.now);
  }

  /** An accepted write of begins or of a result stores what the request carries then. */
  lemma OwnWriteStores(s: Sys, c: nat, input: Input)
    requires c in s.clients && s.clients[c].pc in {Beginning, Recording} && input.fate == Delivered
    requires Served(s, Advance(c, input)).1.Accepted?
    ensures var x, t := s.clients[c], Served(s, Advance(c, input)).0;
            && x.id in t.sessions
            && t.sessions[x.id].executions == if x.pc == Beginning then x.executions else Applied(x, s.now)
  {
    WriteStores(s.store, Request(s, Advance(c, input)).value, s.now);
  }

  lemma BegunAnswer(x: Client, input: Input, reply: S.Reply, now: int, stored: seq<Execution>)
    requires x.pc == Beginning && Coupled(x, stored)
    ensures var y := Moved(x, input, reply, now);
            if input.fate == Delivered && reply.Accepted? then Coupled(y, x.executions) else y.pc == Aborting
  {
    BegunReady(x, stored);
  }

  lemma BeginningCoupled(s: Sys, c: nat, input: Input)
    requires Inv2(s) && c in s.clients && s.clients[c].pc == Beginning && HoldsLease(s, c)
    ensures ClientCoupled(Exec(s, Advance(c, input)), c)
  {
    var st := Advance(c, input);
    var x := s.clients[c];
    OwnStep(s, c, input);
    assert ClientCoupled(s, c);
    BegunAnswer(x, input, Served(s, st).1, s.now, s.store.sessions[x.id].executions);
    if input.fate == Delivered && Served(s, st).1.Accepted? {
      OwnWriteStores(s, c, input);
    }
  }

  lemma RecordedAnswer(x: Client, input: Input, reply: S.Reply, now: int)
    requires x.pc == Recording && Ready(x)
    ensures var y := Moved(x, input, reply, now);
            if input.fate == Delivered && reply.Accepted? then Coupled(y, Applied(x, now)) else y.pc == Aborting
  {
    if input.fate == Delivered && reply.Accepted? {
      AppliedReady(x, now);
      NextResultCoupled(x.(executions := Applied(x, now), next := x.next + 1), Applied(x, now));
    }
  }

  lemma RecordingCoupled(s: Sys, c: nat, input: Input)
    requires Inv2(s) && c in s.clients && s.clients[c].pc == Recording && HoldsLease(s, c)
    ensures ClientCoupled(Exec(s, Advance(c, input)), c)
  {
    var st := Advance(c, input);
    var x := s.clients[c];
    OwnStep(s, c, input);
    assert ClientCoupled(s, c);
    RecordedAnswer(x, input, Served(s, st).1, s.now);
    if input.fate == Delivered && Served(s, st).1.Accepted? {
      OwnWriteStores(s, c, input);
    }
  }

  lemma RenewalOwnStep(s: Sys, c: nat, input: Input)
    requires c in s.clients && s.clients[c].pc in {Renewing, Confirming}
    ensures SameList(s.store, Served(s, Advance(c, input)).0, s.clients[c].id)
  {
    if Request(s, Advance(c, input)).Some? {
      LeaseOpList(s.store, Request(s, Advance(c, input)).value, s.now, s.clients[c].id);
    }
  }

  lemma AppendOwnStep(s: Sys, c: nat, input: Input)
    requires c in s.clients && s.clients[c].pc == Appending
    ensures SameList(s.store, Served(s, Advance(c, input)).0, s.clients[c].id)
  {
    if Request(s, Advance(c, input)).Some? {
      AppendList(s.store, Request(s, Advance(c, input)).value, s.now, s.clients[c].id);
    }
  }

  lemma RefreshOwnStep(s: Sys, c: nat, input: Input)
    requires c in s.clients && s.clients[c].pc in {Refreshing, Calling}
    ensures SameList(s.store, Served(s, Advance(c, input)).0, s.clients[c].id)
  {
    if Request(s, Advance(c, input)).Some? {
      var op := Request(s, Advance(c, input)).value;
      WriteStages(s.store, op.id, op.patch, op.holder, s.now);
    }
  }

  /** The commands that change no list. */
  lemma QuietOwnStep(s: Sys, c: nat, input: Input)
    requires c in s.clients && s.clients[c].pc in {Renewing, Calling, Confirming, Appending, Refreshing}
    ensures SameList(s.store, Exec(s, Advance(c, input)).store, s.clients[c].id)
  {
    OwnStep(s, c, input);
    if s.clients[c].pc in {Renewing, Confirming} {
      RenewalOwnStep(s, c, input);
    } else if s.clients[c].pc == Appending {
      AppendOwnStep(s, c, input);
    } else {
      RefreshOwnStep(s, c, input);
    }
  }

  /** A list that stays keeps a request coupled whose answer does. */
  lemma StaysCoupled(s: Sys, t: Sys, c: nat)
    requires c in s.clients && HoldsLease(s, c) && c in t.clients && t.clients[c].id == s.clients[c].id
    requires SameList(s.store, t.store, s.clients[c].id)
    requires Coupled(t.clients[c], s.store.sessions[s.clients[c].id].executions)
    ensures ClientCoupled(t, c)
  {
  }

  lemma QuietCoupled(s: Sys, c: nat, input: Input)
    requires Inv2(s) && c in s.clients && HoldsLease(s, c)
    requires s.clients[c].pc in {Renewing, Calling, Confirming, Appending, Refreshing}
    ensures ClientCoupled(Exec(s, Advance(c, input)), c)
  {
    var x := s.clients[c];
    assert ClientCoupled(s, c);
    OwnStep(s, c, input);
    QuietOwnStep(s, c, input);
    QuietAnswer(x, input, Served(s, Advance(c, input)).1, s.now, s.store.sessions[x.id].executions);
    StaysCoupled(s, Exec(s, Advance(c, input)), c);
  }

  lemma QuietAnswer(x: Client, input: Input, reply: S.Reply, now: int, stored: seq<Execution>)
    requires x.pc in {Renewing, Calling, Confirming, Appending, Refreshing} && Coupled(x, stored)
    ensures Coupled(Moved(x, input, reply, now), stored)
  {
    if x.pc == Confirming {
      ConfirmedAnswer(x, input, reply, now, stored);
    } else if x.pc == Calling {
      CalledAnswer(x, input, reply, now, stored);
    }
  }

  lemma ConfirmedAnswer(x: Client, input: Input, reply: S.Reply, now: int, stored: seq<Execution>)
    requires x.pc == Confirming && Coupled(x, stored)
    ensures Coupled(Moved(x, input, reply, now), stored)
  {
    NextResultCoupled(x, stored);
  }

  lemma CalledAnswer(x: Client, input: Input, reply: S.Reply, now: int, stored: seq<Execution>)
    requires x.pc == Calling && Coupled(x, stored)
    ensures Coupled(Moved(x, input, reply, now), stored)
  {
    var y := x.(pc := Confirming, results := input.results);
    assert Ready(y);
  }

  lemma OwnStepCoupled(s: Sys, c: nat, input: Input)
    requires Inv2(s) && c in s.clients
    ensures ClientCoupled(Exec(s, Advance(c, input)), c)
  {
    var st := Advance(c, input);
    var x := s.clients[c];
    var t := Exec(s, st);
    MovedLease(x, input, Served(s, st).1, s.now);
    assert ClientOk(x, s.store, s.nextId);
    if x.pc == Acquiring {
      AcquiringCoupled(s, c, input);
    } else if Holding(x.pc) {
      if HoldsLease(s, c) {
        match x.pc
        case Beginning => BeginningCoupled(s, c, input);
        case Recording => RecordingCoupled(s, c, input);
        case Releasing =>
        case Aborting =>
        case _ => QuietCoupled(s, c, input);
      } else {
        LostStep(s, st, x.id, x.lease);
      }
    }
  }

  lemma OtherCoupled(s: Sys, st: Step, c: nat)
    requires Inv2(s) && c in s.clients && !(st.Advance? && st.c == c)
    ensures c in Exec(s, st).clients && Exec(s, st).clients[c] == s.clients[c]
    ensures ClientCoupled(Exec(s, st), c)
  {
    var x := s.clients[c];
    assert ClientOk(x, s.store, s.nextId) && ClientCoupled(s, c);
    if Holding(x.pc) {
      if HoldsLease(s, c) {
        OthersLeaveTheList(s, st, c);
      } else {
        LostStep(s, st, x.id, x.lease);
      }
    }
  }

  lemma NewFence(s: Sys, c: nat, input: Input)
    requires Inv(s) && c in s.clients && s.clients[c].pc == Acquiring && input.fate != NotSent
    ensures Served(s, Advance(c, input)).1.Acquired? ==>
              s.store.counter < Served(s, Advance(c, input)).1.lease.fence
  {
    L.CounterStep(s.store, S.Acquire(s.clients[c].id, s.nextToken), s.now);
  }

  lemma StepKeepsFences(s: Sys, st: Step)
    requires Inv(s) && UniqueFences(s.clients)
    ensures UniqueFences(Exec(s, st).clients)
  {
    var t := Exec(s, st);
    if st.Advance? && st.c in s.clients {
      var c := st.c;
      MovedLease(s.clients[c], st.input, Served(s, st).1, s.now);
      if s.clients[c].pc == Acquiring && st.input.fate != NotSent {
        NewFence(s, c, st.input);
      }
      forall d | d in t.clients && d != c && Holding(t.clients[c].pc) && Holding(t.clients[d].pc)
        ensures t.clients[c].lease.fence != t.clients[d].lease.fence
      {
        assert ClientOk(s.clients[d], s.store, s.nextId);
      }
    }
  }

  lemma StepKeeps2(s: Sys, st: Step)
    requires Inv2(s)
    ensures Inv2(Exec(s, st))
  {
    var t := Exec(s, st);
    StepKeeps(s, st);
    StepKeepsFences(s, st);
    forall c | c in t.clients ensures ClientCoupled(t, c) {
      if c in s.clients {
        if st.Advance? && st.c == c {
          OwnStepCoupled(s, c, st.input);
        } else {
          OtherCoupled(s, st, c);
        }
      }
    }
  }

  lemma {:induction false} RunKeeps2(s: Sys, steps: seq<Step>)
    requires Inv2(s)
    ensures Inv2(Run(s, steps))
    decreases |steps|
  {
    if steps != [] {
      StepKeeps2(s, steps[0]);
      RunKeeps2(Exec(s, steps[0]), steps[1..]);
    }
  }

  lemma StartIsSafe2()
    ensures Inv2(Start())
  {
    StartIsSafe();
  }
}
