// What each step of the continuation protocol does to the stored executions of a search, and
// exactly which steps do something else than they stand for.

module ExecutionSteps {
  import opened Common
  import opened ProviderExecutions
  import opened ContinuationPass
  import opened ContinuationProtocol
  import opened ContinuationExclusion
  import opened ContinuationLoss
  import opened StoredExecutions
  import opened LeaseCoupling
  import S = SearchSessions
  import L = ContinuationLease
  import R = RetryBounds

  /** The stored executions of a search, as their readers see them. */
  function Stored(s: Sys, id: SearchId): seq<Execution>
    requires id in s.store.sessions
  {
    View(s.store.sessions[id].executions)
  }

  /** The step is a write of a request on this search, and the store accepts it. */
  predicate TakesEffect(s: Sys, st: Step, id: SearchId) {
    && st.Advance? && st.c in s.clients && s.clients[st.c].id == id
    && Request(s, st).Some? && (Request(s, st).value.Update? || Request(s, st).value.ReleaseLease?)
    && Served(s, st).1.Accepted?
  }

  /** What the step stands for: a request begins what could run when it acquired the lease,
      records one result, or, without a lease, recovers the list or leaves it. */
  function Own(s: Sys, st: Step, id: SearchId): ListMove
    requires id in s.store.sessions
  {
    if !TakesEffect(s, st, id) then Stay
    else
      var x := s.clients[st.c];
      match x.pc
      case Beginning => BeginAll(x.since)
      case Recording =>
        if x.next < |x.runnable| && x.runnable[x.next].providerId in x.results then
          FinishOne(x.runnable[x.next].providerId, x.results[x.runnable[x.next].providerId], s.now)
        else Stay
      case Resetting => if View(x.executions) == Stored(s, id) then Stay else RecoverEach
      case Concluding => if View(x.executions) == Stored(s, id) then Stay else RecoverEach
      case Waiting => if View(x.executions) == Stored(s, id) then Stay else RecoverEach
      case _ => Stay
  }

  /** A write without a lease, if the step is one and is accepted, carries the stored list or
      its recovery. */
  predicate Orderly(s: Sys, st: Step, id: SearchId)
    requires id in s.store.sessions
  {
    TakesEffect(s, st, id) && Unfenced(s.clients[st.c].pc) ==>
      View(s.clients[st.c].executions) in {Stored(s, id), Recovered(Stored(s, id))}
  }

  predicate Follows(s: Sys, st: Step, id: SearchId)
    requires id in s.store.sessions && id in Exec(s, st).store.sessions
  {
    Stored(Exec(s, st), id) == MovedList(Stored(s, id), Own(s, st, id))
  }

  lemma StaysPut(es: seq<Execution>)
    ensures MovedList(es, Stay) == es
  {
  }

  lemma QuietFollows(s: Sys, st: Step, id: SearchId)
    requires id in s.store.sessions && id in Exec(s, st).store.sessions
    requires SameList(s.store, Exec(s, st).store, id) && Own(s, st, id) == Stay
    ensures Follows(s, st, id)
  {
    StaysPut(Stored(s, id));
  }

  // ---------------------------------------------------------------------------------
  // Steps of requests on the search
  // ---------------------------------------------------------------------------------

  lemma RefusedWrite(s: S.Store, op: S.Op, now: int, id: SearchId)
    requires (op.Update? || op.ReleaseLease?) && !S.Eval(s, op, now).1.Accepted?
    ensures SameList(s, S.Eval(s, op, now).0, id)
  {
  }

  lemma ReleaseStores(s: S.Store, op: S.Op, now: int)
    requires op.ReleaseLease? && S.Eval(s, op, now).1.Accepted?
    ensures var t := S.Eval(s, op, now).0;
            && op.id in s.sessions && S.HeldBy(s.sessions[op.id], op.lease, now) && op.id in t.sessions
            && t.sessions[op.id].executions ==
                 (if op.patch.executions.Some? then op.patch.executions.value else s.sessions[op.id].executions)
  {
  }

  lemma FencedIsHeld(s: S.Store, op: S.Op, now: int)
    requires op.Update? && op.holder.Some? && op.holder.value.fence > 0 && S.Eval(s, op, now).1.Accepted?
    ensures op.id in s.sessions && S.HeldBy(s.sessions[op.id], op.holder.value, now)
  {
  }

  lemma UnfencedFollowsIff(s: Sys, c: nat, input: Input)
    requires c in s.clients && Unfenced(s.clients[c].pc)
    requires var id := s.clients[c].id;
             id in s.store.sessions && id in Exec(s, Advance(c, input)).store.sessions
    ensures Follows(s, Advance(c, input), s.clients[c].id) <==> Orderly(s, Advance(c, input), s.clients[c].id)
  {
    var st := Advance(c, input);
    var x := s.clients[c];
    ExecStore(s, st);
    StaysPut(Stored(s, x.id));
    if TakesEffect(s, st, x.id) {
      WriteStores(s.store, Request(s, st).value, s.now);
    } else if Request(s, st).Some? {
      RefusedWrite(s.store, Request(s, st).value, s.now, x.id);
    }
  }

  lemma BeginningFollows(s: Sys, c: nat, input: Input)
    requires Inv2(s) && c in s.clients && s.clients[c].pc == Beginning
    requires s.clients[c].id in s.store.sessions && TakesEffect(s, Advance(c, input), s.clients[c].id)
    ensures s.clients[c].id in Exec(s, Advance(c, input)).store.sessions
    ensures HoldsLease(s, c) && Follows(s, Advance(c, input), s.clients[c].id)
  {
    var st := Advance(c, input);
    var x := s.clients[c];
    ExecStore(s, st);
    assert ClientOk(x, s.store, s.nextId);
    FencedIsHeld(s.store, Request(s, st).value, s.now);
    assert ClientCoupled(s, c);
    WriteStores(s.store, Request(s, st).value, s.now);
    BegunView(s.store.sessions[x.id].executions, x.since);
  }

  /** Recording a result is, in the list, the finish of the one provider. */
  lemma AppliedIsMoved(x: Client, now: int)
    requires Ready(x) && x.next < |x.runnable| && x.runnable[x.next].providerId in x.results
    ensures var p := x.runnable[x.next].providerId;
            View(Applied(x, now)) == MovedList(View(x.executions), FinishOne(p, x.results[p], now))
  {
    var p := x.runnable[x.next].providerId;
    var r := x.results[p];
    var es := x.executions;
    assert RunningAt(es, p);
    var i := Position(es, p);
    AppliedList(es, i, r, now);
    FixedView(es);
    FixedView(Applied(x, now));
    var m := MovedList(es, FinishOne(p, r, now));
    forall j | 0 <= j < |es| ensures m[j] == es[i := ApplyOne(es[i], r, now)][j] {
      if j != i {
        assert es[j].providerId != es[i].providerId;
      }
    }
    assert m == es[i := ApplyOne(es[i], r, now)];
  }

  lemma RecordingFollows(s: Sys, c: nat, input: Input)
    requires Inv2(s) && c in s.clients && s.clients[c].pc == Recording
    requires s.clients[c].id in s.store.sessions && TakesEffect(s, Advance(c, input), s.clients[c].id)
    ensures s.clients[c].id in Exec(s, Advance(c, input)).store.sessions
    ensures Follows(s, Advance(c, input), s.clients[c].id)
  {
    var st := Advance(c, input);
    var x := s.clients[c];
    ExecStore(s, st);
    assert ClientOk(x, s.store, s.nextId);
    FencedIsHeld(s.store, Request(s, st).value, s.now);
    assert ClientCoupled(s, c);
    WriteStores(s.store, Request(s, st).value, s.now);
    if x.next < |x.runnable| && x.runnable[x.next].providerId in x.results {
      AppliedIsMoved(x, s.now);
    } else {
      StaysPut(Stored(s, x.id));
    }
  }

  lemma ReleasingStores(s: Sys, c: nat, input: Input)
    requires c in s.clients && s.clients[c].pc in {Releasing, Aborting}
    requires TakesEffect(s, Advance(c, input), s.clients[c].id)
    ensures var x, t := s.clients[c], Exec(s, Advance(c, input)).store;
            && HoldsLease(s, c) && x.id in t.sessions
            && t.sessions[x.id].executions ==
                 (if x.pc == Releasing then x.executions else s.store.sessions[x.id].executions)
  {
    ExecStore(s, Advance(c, input));
    ReleaseStores(s.store, Request(s, Advance(c, input)).value, s.now);
  }

  lemma EndingFollows(s: Sys, c: nat, input: Input)
    requires Inv2(s) && c in s.clients && s.clients[c].pc in {Releasing, Aborting}
    requires s.clients[c].id in s.store.sessions && TakesEffect(s, Advance(c, input), s.clients[c].id)
    ensures s.clients[c].id in Exec(s, Advance(c, input)).store.sessions
    ensures Follows(s, Advance(c, input), s.clients[c].id)
  {
    ReleasingStores(s, c, input);
    assert ClientCoupled(s, c);
    QuietFollows(s, Advance(c, input), s.clients[c].id);
  }

  lemma AcquiringList(s: Sys, c: nat, input: Input)
    requires c in s.clients && s.clients[c].pc == Acquiring
    ensures SameList(s.store, Served(s, Advance(c, input)).0, s.clients[c].id)
  {
    if Request(s, Advance(c, input)).Some? {
      LeaseOpList(s.store, Request(s, Advance(c, input)).value, s.now, s.clients[c].id);
    }
  }

  lemma EndedList(s: Sys, c: nat, input: Input)
    requires c in s.clients && s.clients[c].pc == Ended
    ensures Served(s, Advance(c, input)).0 == s.store
  {
  }

  lemma QuietRequestList(s: Sys, c: nat, input: Input)
    requires c in s.clients && s.clients[c].pc in {Acquiring, Renewing, Calling, Confirming, Appending, Refreshing, Ended}
    ensures SameList(s.store, Exec(s, Advance(c, input)).store, s.clients[c].id)
  {
    OwnStep(s, c, input);
    if s.clients[c].pc == Acquiring {
      AcquiringList(s, c, input);
    } else if s.clients[c].pc == Ended {
      EndedList(s, c, input);
    } else {
      QuietOwnStep(s, c, input);
    }
  }

  lemma QuietRequestFollows(s: Sys, c: nat, input: Input)
    requires c in s.clients && s.clients[c].pc in {Acquiring, Renewing, Calling, Confirming, Appending, Refreshing, Ended}
    requires s.clients[c].id in s.store.sessions && s.clients[c].id in Exec(s, Advance(c, input)).store.sessions
    ensures Follows(s, Advance(c, input), s.clients[c].id)
  {
    QuietRequestList(s, c, input);
    QuietFollows(s, Advance(c, input), s.clients[c].id);
  }

  lemma RefusedRequestFollows(s: Sys, c: nat, input: Input)
    requires c in s.clients && s.clients[c].pc in {Beginning, Recording, Releasing, Aborting}
    requires s.clients[c].id in s.store.sessions && s.clients[c].id in Exec(s, Advance(c, input)).store.sessions
    requires !TakesEffect(s, Advance(c, input), s.clients[c].id)
    ensures Follows(s, Advance(c, input), s.clients[c].id)
  {
    RefusedRequestList(s, c, input);
    QuietFollows(s, Advance(c, input), s.clients[c].id);
  }

  lemma RefusedRequestList(s: Sys, c: nat, input: Input)
    requires c in s.clients && s.clients[c].pc in {Beginning, Recording, Releasing, Aborting}
    requires !TakesEffect(s, Advance(c, input), s.clients[c].id)
    ensures SameList(s.store, Exec(s, Advance(c, input)).store, s.clients[c].id)
  {
    var st := Advance(c, input);
    OwnStep(s, c, input);
    if Request(s, st).Some? {
      RefusedWrite(s.store, Request(s, st).value, s.now, s.clients[c].id);
    }
  }

  lemma OwnRequestFollowsIff(s: Sys, c: nat, input: Input)
    requires Inv2(s) && c in s.clients
    requires s.clients[c].id in s.store.sessions && s.clients[c].id in Exec(s, Advance(c, input)).store.sessions
    ensures Follows(s, Advance(c, input), s.clients[c].id) <==> Orderly(s, Advance(c, input), s.clients[c].id)
  {
    var st := Advance(c, input);
    var x := s.clients[c];
    if Unfenced(x.pc) {
      UnfencedFollowsIff(s, c, input);
    } else if x.pc in {Beginning, Recording, Releasing, Aborting} {
      if !TakesEffect(s, st, x.id) {
        RefusedRequestFollows(s, c, input);
      } else if x.pc == Beginning {
        BeginningFollows(s, c, input);
      } else if x.pc == Recording {
        RecordingFollows(s, c, input);
      } else {
        EndingFollows(s, c, input);
      }
    } else {
      QuietRequestFollows(s, c, input);
    }
  }

  // ---------------------------------------------------------------------------------
  // All other steps
  // ---------------------------------------------------------------------------------

  lemma ElsewhereList(s: S.Store, op: S.Op, now: int, id: SearchId)
    requires (op.Update? || op.ReleaseLease?) && op.id != id
    ensures SameList(s, S.Eval(s, op, now).0, id)
  {
    if op.Update? {
      WriteStages(s, op.id, op.patch, op.holder, now);
    } else {
      ReleaseStages(s, op, now);
    }
  }

  lemma OtherStepList(s: Sys, st: Step, id: SearchId)
    requires Inv(s) && IsPast(s.store, s.nextId, id)
    requires st.Advance? && st.c in s.clients ==> s.clients[st.c].id != id
    ensures SameList(s.store, Exec(s, st).store, id)
  {
    ExecStore(s, st);
    if Request(s, st).Some? {
      var op := Request(s, st).value;
      RequestShape(s, st);
      if op.Update? || op.ReleaseLease? {
        CommandsAreOwn(s.clients[st.c], st.input, s.nextToken, s.now);
        ElsewhereList(s.store, op, s.now, id);
      } else if op.Append? {
        AppendList(s.store, op, s.now, id);
      } else if op.Save? {
        NewSaveList(s.store, op, s.now, id);
      } else if op.Claim? || op.UpdateInitial? {
        WorkerList(s.store, op, s.now, s.nextId, s.queued, id);
      } else {
        LeaseOpList(s.store, op, s.now, id);
      }
    }
  }

  /** In every reachable state and for every step: the stored executions of a live search move
      as the step stands for, by the begin of what could run, by one result, by recovery or
      not at all, if and only if the step is not an accepted write without a lease on a list
      that is neither the one it carries nor one of which it carries the recovery. */
  lemma ListMovesIff(s: Sys, st: Step, id: SearchId)
    requires Inv2(s) && IsPast(s.store, s.nextId, id)
    requires id in s.store.sessions && id in Exec(s, st).store.sessions
    ensures Follows(s, st, id) <==> Orderly(s, st, id)
  {
    if st.Advance? && st.c in s.clients && s.clients[st.c].id == id {
      OwnRequestFollowsIff(s, st.c, st.input);
    } else {
      OtherStepList(s, st, id);
      QuietFollows(s, st, id);
    }
  }
}
