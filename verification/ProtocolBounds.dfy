// The retry bounds in the continuation protocol's own runs: along a run whose writes without
// a lease are orderly, every provider's stored execution makes a run of begins, results and
// recoveries, and each provider call belongs to one of its begins.

module ProtocolBounds {
  import opened Common
  import opened ProviderExecutions
  import opened ContinuationPass
  import opened ContinuationProtocol
  import opened ContinuationExclusion
  import opened StoredExecutions
  import opened LeaseCoupling
  import opened ExecutionSteps
  import S = SearchSessions
  import E = ProviderExecutions
  import Pass = ContinuationPass
  import R = RetryBounds

  // ---------------------------------------------------------------------------------
  // Orderly runs are runs of moves
  // ---------------------------------------------------------------------------------

  /** The search stays live, and every write without a lease carries the stored list or its
      recovery. */
  predicate OrderlyRun(s: Sys, steps: seq<Step>, id: SearchId)
    decreases |steps|
  {
    && id in s.store.sessions
    && (steps != [] ==> Orderly(s, steps[0], id) && OrderlyRun(Exec(s, steps[0]), steps[1..], id))
  }

  /** The moves of one provider's execution along the run. */
  function MovesOf(s: Sys, steps: seq<Step>, id: SearchId, p: ProviderId): seq<Move>
    requires OrderlyRun(s, steps, id)
    decreases |steps|
  {
    if steps == [] then []
    else
      var rest := MovesOf(Exec(s, steps[0]), steps[1..], id, p);
      match MoveOf(Own(s, steps[0], id), p)
      case None => rest
      case Some(m) => [m] + rest
  }

  lemma MoveKeepsProvider(e: Execution, m: Move)
    ensures R.Move1(e, m).providerId == e.providerId
  {
  }

  lemma AdvanceMoves(e: Execution, t: Tally, m: Move, rest: seq<Move>)
    ensures Pass.Advance(e, t, m).0 == R.Move1(e, m)
    ensures Advances(e, t, [m] + rest) == Advances(R.Move1(e, m), Pass.Advance(e, t, m).1, rest)
  {
    assert ([m] + rest)[1..] == rest;
  }

  /** One step, seen from the i-th execution. */
  lemma StepMoves(s: Sys, st: Step, id: SearchId, i: nat)
    requires Inv2(s) && IsPast(s.store, s.nextId, id)
    requires id in s.store.sessions && id in Exec(s, st).store.sessions && Orderly(s, st, id)
    requires i < |Stored(s, id)|
    ensures |Stored(Exec(s, st), id)| == |Stored(s, id)|
    ensures Stored(Exec(s, st), id)[i] == MovedOne(Stored(s, id)[i], Own(s, st, id))
    ensures Stored(Exec(s, st), id)[i].providerId == Stored(s, id)[i].providerId
  {
    ListMovesIff(s, st, id);
    var e := Stored(s, id)[i];
    var m := MoveOf(Own(s, st, id), e.providerId);
    if m.Some? {
      MoveKeepsProvider(e, m.value);
    }
  }

  lemma NextStep(s: Sys, st: Step, id: SearchId)
    requires Inv2(s) && IsPast(s.store, s.nextId, id)
    ensures Inv2(Exec(s, st)) && IsPast(Exec(s, st).store, Exec(s, st).nextId, id)
  {
    StepKeeps2(s, st);
    PastStays(s, st, id);
  }

  lemma {:induction false} RunIsMoves(s: Sys, steps: seq<Step>, id: SearchId, i: nat, t: Tally)
    requires Inv2(s) && IsPast(s.store, s.nextId, id) && OrderlyRun(s, steps, id)
    requires i < |Stored(s, id)|
    ensures id in Run(s, steps).store.sessions
    ensures |Stored(Run(s, steps), id)| == |Stored(s, id)|
    ensures Stored(Run(s, steps), id)[i]
            == Advances(Stored(s, id)[i], t, MovesOf(s, steps, id, Stored(s, id)[i].providerId)).0
    decreases |steps|
  {
    if steps != [] {
      var e := Stored(s, id)[i];
      var u := Exec(s, steps[0]);
      StepMoves(s, steps[0], id, i);
      NextStep(s, steps[0], id);
      var rest := MovesOf(u, steps[1..], id, e.providerId);
      match MoveOf(Own(s, steps[0], id), e.providerId)
      case None => RunIsMoves(u, steps[1..], id, i, t);
      case Some(m) =>
        AdvanceMoves(e, t, m, rest);
        RunIsMoves(u, steps[1..], id, i, Pass.Advance(e, t, m).1);
    }
  }

  // ---------------------------------------------------------------------------------
  // Calls
  // ---------------------------------------------------------------------------------

  predicate Made(x: Client, input: Input) {
    input.fate == ReplyLost || (input.fate == Delivered && Covers(input.results, x.runnable))
  }

  /** The step makes the provider calls of a request on this search, and p is among them. A
      request whose calls are made and then lost has made them all the same. */
  predicate CallsProvider(s: Sys, st: Step, id: SearchId, p: ProviderId) {
    && st.Advance? && st.c in s.clients && s.clients[st.c].id == id && s.clients[st.c].pc == Calling
    && Made(s.clients[st.c], st.input) && Names(s.clients[st.c].runnable, p)
  }

  function CallsIn(s: Sys, steps: seq<Step>, id: SearchId, p: ProviderId): nat
    decreases |steps|
  {
    if steps == [] then 0
    else (if CallsProvider(s, steps[0], id, p) then 1 else 0) + CallsIn(Exec(s, steps[0]), steps[1..], id, p)
  }

  predicate Owes(x: Client, id: SearchId, p: ProviderId) {
    x.id == id && x.pc in {Renewing, Calling} && Names(x.runnable, p)
  }

  /** The requests that have begun p on this search and have not called it yet. */
  function Pending1(s: Sys, id: SearchId, p: ProviderId): set<nat> {
    set c | c in s.clients && Owes(s.clients[c], id, p)
  }

  /** What a step of a request does to its own outstanding call. */
  lemma OwedByMover(x: Client, input: Input, reply: S.Reply, now: int, id: SearchId, p: ProviderId)
    ensures Owes(Moved(x, input, reply, now), id, p) ==>
              Owes(x, id, p)
              || (x.pc == Beginning && input.fate == Delivered && reply.Accepted? && x.id == id && Names(x.runnable, p))
    ensures x.pc == Calling && Made(x, input) ==> !Owes(Moved(x, input, reply, now), id, p)
  {
  }

  lemma OthersOwe(s: Sys, st: Step, id: SearchId, p: ProviderId, c: nat)
    requires !(st.Advance? && st.c == c)
    ensures c in Pending1(Exec(s, st), id, p) <==> c in Pending1(s, id, p)
  {
  }

  /** The step begins the i-th execution. */
  predicate BeginsAt(s: Sys, st: Step, id: SearchId, i: nat)
    requires id in s.store.sessions && i < |Stored(s, id)|
  {
    Own(s, st, id).BeginAll? && Runnable(Stored(s, id)[i], Own(s, st, id).since)
  }

  lemma BeginnerTakesEffect(s: Sys, c: nat, input: Input)
    requires c in s.clients && s.clients[c].pc == Beginning && input.fate == Delivered
    requires Served(s, Advance(c, input)).1.Accepted? && s.clients[c].id in s.store.sessions
    ensures TakesEffect(s, Advance(c, input), s.clients[c].id)
    ensures Own(s, Advance(c, input), s.clients[c].id) == BeginAll(s.clients[c].since)
  {
  }

  /** What a request that holds the lease has set out to begin could run in the stored list. */
  lemma BeginnerNames(s: Sys, c: nat, i: nat)
    requires Inv2(s) && c in s.clients && s.clients[c].pc == Beginning && HoldsLease(s, c)
    requires i < |Stored(s, s.clients[c].id)|
    requires Names(s.clients[c].runnable, Stored(s, s.clients[c].id)[i].providerId)
    ensures Runnable(Stored(s, s.clients[c].id)[i], s.clients[c].since)
  {
    assert ClientCoupled(s, c);
    NamedRuns(s.store.sessions[s.clients[c].id].executions, s.clients[c].since, i);
  }

  lemma BeginnerBegins(s: Sys, c: nat, input: Input, i: nat)
    requires Inv2(s) && c in s.clients && s.clients[c].pc == Beginning && input.fate == Delivered
    requires Served(s, Advance(c, input)).1.Accepted? && s.clients[c].id in s.store.sessions
    requires i < |Stored(s, s.clients[c].id)|
    requires Names(s.clients[c].runnable, Stored(s, s.clients[c].id)[i].providerId)
    ensures BeginsAt(s, Advance(c, input), s.clients[c].id, i)
  {
    BeginnerTakesEffect(s, c, input);
    BeginningFollows(s, c, input);
    BeginnerNames(s, c, i);
  }

  lemma SetAtMost(a: set<nat>, b: set<nat>, c: nat)
    requires forall d :: d != c ==> (d in a <==> d in b)
    ensures c in a && c !in b ==> |a| == |b| + 1
    ensures (c in a <==> c in b) ==> a == b
    ensures c !in a && c in b ==> |b| == |a| + 1
  {
    if c in a && c !in b {
      assert a == b + {c};
    } else if c !in a && c in b {
      assert b == a + {c};
    } else {
      assert c in a <==> c in b;
    }
  }

  /** Each call of a provider pays for one of its begins. */
  lemma CallStep(s: Sys, st: Step, id: SearchId, i: nat)
    requires Inv2(s) && id in s.store.sessions && i < |Stored(s, id)|
    ensures var p := Stored(s, id)[i].providerId;
            (if CallsProvider(s, st, id, p) then 1 else 0) + |Pending1(Exec(s, st), id, p)|
            <= |Pending1(s, id, p)| + (if BeginsAt(s, st, id, i) then 1 else 0)
  {
    var p := Stored(s, id)[i].providerId;
    var a, b := Pending1(Exec(s, st), id, p), Pending1(s, id, p);
    if st.Advance? && st.c in s.clients {
      var c := st.c;
      var x := s.clients[c];
      forall d | d != c ensures d in a <==> d in b {
        OthersOwe(s, st, id, p, d);
      }
      SetAtMost(a, b, c);
      OwedByMover(x, st.input, Served(s, st).1, s.now, id, p);
      if c in a && c !in b {
        BeginnerBegins(s, c, st.input, i);
      }
    } else {
      forall d ensures d in a <==> d in b {
        OthersOweStill(s, st, id, p, d);
      }
      assert a == b;
    }
  }

  lemma OthersOweStill(s: Sys, st: Step, id: SearchId, p: ProviderId, c: nat)
    requires !(st.Advance? && st.c in s.clients)
    ensures c in Pending1(Exec(s, st), id, p) <==> c in Pending1(s, id, p)
  {
  }

  lemma TallyOfStep(s: Sys, st: Step, id: SearchId, i: nat, t: Tally)
    requires id in s.store.sessions && i < |Stored(s, id)|
    ensures match MoveOf(Own(s, st, id), Stored(s, id)[i].providerId)
            case None => !BeginsAt(s, st, id, i)
            case Some(m) =>
              Pass.Advance(Stored(s, id)[i], t, m).1.begins == t.begins + (if BeginsAt(s, st, id, i) then 1 else 0)
  {
  }

  lemma {:induction false} CallsWithinBegins(s: Sys, steps: seq<Step>, id: SearchId, i: nat, t: Tally)
    requires Inv2(s) && IsPast(s.store, s.nextId, id) && OrderlyRun(s, steps, id)
    requires i < |Stored(s, id)|
    ensures var e := Stored(s, id)[i];
            t.begins + CallsIn(s, steps, id, e.providerId)
            <= |Pending1(s, id, e.providerId)| + Advances(e, t, MovesOf(s, steps, id, e.providerId)).1.begins
    decreases |steps|
  {
    if steps != [] {
      var e := Stored(s, id)[i];
      var u := Exec(s, steps[0]);
      StepMoves(s, steps[0], id, i);
      NextStep(s, steps[0], id);
      CallStep(s, steps[0], id, i);
      TallyOfStep(s, steps[0], id, i, t);
      var rest := MovesOf(u, steps[1..], id, e.providerId);
      match MoveOf(Own(s, steps[0], id), e.providerId)
      case None => CallsWithinBegins(u, steps[1..], id, i, t);
      case Some(m) =>
        AdvanceMoves(e, t, m, rest);
        CallsWithinBegins(u, steps[1..], id, i, Pass.Advance(e, t, m).1);
    }
  }

  // ---------------------------------------------------------------------------------
  // Main results, from the start
  // ---------------------------------------------------------------------------------

  /** After these steps the search is live and past its initial stage. */
  predicate Settled(before: seq<Step>, id: SearchId) {
    var s := Run(Start(), before);
    id in s.store.sessions && Past(s.store.sessions[id].stage)
  }

  lemma SettledState(before: seq<Step>, id: SearchId)
    requires Settled(before, id)
    ensures var s := Run(Start(), before);
            Inv2(s) && IsPast(s.store, s.nextId, id) && FixedList(Stored(s, id))
  {
    StartIsSafe2();
    RunKeeps2(Start(), before);
    var s := Run(Start(), before);
    assert SessionOk(s.store.sessions[id], id, s.nextId, s.queued);
    ViewIsFixed(s.store.sessions[id].executions);
  }

  /** Along an orderly run of the protocol, from wherever the start has led: the stored
      attempts on a cursor never exceed the limit plus the recoveries since it was adopted, and
      the calls of a provider never exceed limit times cursors plus recoveries, beyond those
      that were already begun when the run began. */
  lemma ProtocolRetryBound(before: seq<Step>, steps: seq<Step>, id: SearchId, i: nat)
    requires Settled(before, id) && OrderlyRun(Run(Start(), before), steps, id)
    requires i < |Stored(Run(Start(), before), id)|
    requires var e := Stored(Run(Start(), before), id)[i]; e.attemptCount == 0 && e.attemptsForCursor == 0
    ensures var s := Run(Start(), before);
            var e := Stored(s, id)[i];
            var r := Advances(e, Tally(0, 1, 0, 0), MovesOf(s, steps, id, e.providerId));
            && id in Run(s, steps).store.sessions && |Stored(Run(s, steps), id)| == |Stored(s, id)|
            && Stored(Run(s, steps), id)[i] == r.0
            && r.0.attemptsForCursor <= e.maxAttempts + r.1.here
            && CallsIn(s, steps, id, e.providerId)
                 <= |Pending1(s, id, e.providerId)| + e.maxAttempts * r.1.cursors + r.1.recoveries
  {
    var s := Run(Start(), before);
    SettledState(before, id);
    var e := Stored(s, id)[i];
    RunIsMoves(s, steps, id, i, Tally(0, 1, 0, 0));
    CallsWithinBegins(s, steps, id, i, Tally(0, 1, 0, 0));
    RetryBound(e, MovesOf(s, steps, id, e.providerId));
  }

  /** Somewhere along the run the stored attempts of the i-th execution exceed its limit. */
  predicate ExceedsIn(s: Sys, steps: seq<Step>, id: SearchId, i: nat)
    decreases |steps|
  {
    && id in s.store.sessions && i < |Stored(s, id)|
    && (Stored(s, id)[i].attemptsForCursor > Stored(s, id)[i].maxAttempts
        || (steps != [] && ExceedsIn(Exec(s, steps[0]), steps[1..], id, i)))
  }

  lemma {:induction false} ExceedsInMoves(s: Sys, steps: seq<Step>, id: SearchId, i: nat)
    requires Inv2(s) && IsPast(s.store, s.nextId, id) && OrderlyRun(s, steps, id)
    requires i < |Stored(s, id)|
    ensures ExceedsIn(s, steps, id, i)
            <==> R.Exceeds(Stored(s, id)[i], MovesOf(s, steps, id, Stored(s, id)[i].providerId))
    decreases |steps|
  {
    if steps != [] {
      var e := Stored(s, id)[i];
      var u := Exec(s, steps[0]);
      StepMoves(s, steps[0], id, i);
      NextStep(s, steps[0], id);
      ExceedsInMoves(u, steps[1..], id, i);
      var rest := MovesOf(u, steps[1..], id, e.providerId);
      ExceedsAfter(e, MoveOf(Own(s, steps[0], id), e.providerId), rest);
    }
  }

  /** Exceeding along a run of moves, one move or none at a time. */
  lemma ExceedsAfter(e: Execution, m: Option<Move>, rest: seq<Move>)
    ensures match m
            case None => e.attemptsForCursor > e.maxAttempts ==> R.Exceeds(e, rest)
            case Some(move) =>
              R.Exceeds(e, [move] + rest) <==> e.attemptsForCursor > e.maxAttempts || R.Exceeds(R.Move1(e, move), rest)
  {
    if m.Some? {
      assert ([m.value] + rest)[0] == m.value && ([m.value] + rest)[1..] == rest;
    }
  }

  /** Along an orderly run that starts within the limit, the stored attempts on a cursor exceed
      it if and only if an attempt is recovered after the limit was used up and another is
      begun after that. */
  lemma ProtocolLimitIff(before: seq<Step>, steps: seq<Step>, id: SearchId, i: nat)
    requires Settled(before, id) && OrderlyRun(Run(Start(), before), steps, id)
    requires i < |Stored(Run(Start(), before), id)| && R.WithinLimit(Stored(Run(Start(), before), id)[i])
    ensures var s := Run(Start(), before);
            ExceedsIn(s, steps, id, i) <==>
            R.RecoveredAtLimit(Stored(s, id)[i], MovesOf(s, steps, id, Stored(s, id)[i].providerId))
  {
    var s := Run(Start(), before);
    SettledState(before, id);
    ExceedsInMoves(s, steps, id, i);
    R.LimitIsExceededIff(Stored(s, id)[i], MovesOf(s, steps, id, Stored(s, id)[i].providerId));
  }

  /** Along an orderly run a completed or terminal execution never changes again. */
  lemma ProtocolEndedForGood(before: seq<Step>, steps: seq<Step>, id: SearchId, i: nat)
    requires Settled(before, id) && OrderlyRun(Run(Start(), before), steps, id)
    requires i < |Stored(Run(Start(), before), id)| && E.Ended(Stored(Run(Start(), before), id)[i].state)
    ensures var s := Run(Start(), before);
            && id in Run(s, steps).store.sessions && |Stored(Run(s, steps), id)| == |Stored(s, id)|
            && Stored(Run(s, steps), id)[i] == Stored(s, id)[i]
  {
    var s := Run(Start(), before);
    SettledState(before, id);
    var e := Stored(s, id)[i];
    RunIsMoves(s, steps, id, i, Tally(0, 1, 0, 0));
    EndedForGood(e, Tally(0, 1, 0, 0), MovesOf(s, steps, id, e.providerId));
  }

  // The whole list

  function ListCalls(s: Sys, steps: seq<Step>, id: SearchId, es: seq<Execution>): nat {
    if es == [] then 0 else CallsIn(s, steps, id, es[0].providerId) + ListCalls(s, steps, id, es[1..])
  }

  function ListPending(s: Sys, id: SearchId, es: seq<Execution>): nat {
    if es == [] then 0 else |Pending1(s, id, es[0].providerId)| + ListPending(s, id, es[1..])
  }

  /** What limits, cursors and recoveries allow along the run, over all providers. */
  function ListBudget(s: Sys, steps: seq<Step>, id: SearchId, es: seq<Execution>): int
    requires OrderlyRun(s, steps, id)
  {
    if es == [] then 0
    else
      var t := Advances(es[0], Tally(0, 1, 0, 0), MovesOf(s, steps, id, es[0].providerId)).1;
      es[0].maxAttempts * t.cursors + t.recoveries + ListBudget(s, steps, id, es[1..])
  }

  lemma {:induction false} ListWithinBudget(s: Sys, steps: seq<Step>, id: SearchId, k: nat)
    requires Inv2(s) && IsPast(s.store, s.nextId, id) && OrderlyRun(s, steps, id) && k <= |Stored(s, id)|
    requires FixedList(Stored(s, id))
    requires forall i :: 0 <= i < |Stored(s, id)| ==>
               Stored(s, id)[i].attemptCount == 0 && Stored(s, id)[i].attemptsForCursor == 0
    ensures ListCalls(s, steps, id, Stored(s, id)[k..])
            <= ListPending(s, id, Stored(s, id)[k..]) + ListBudget(s, steps, id, Stored(s, id)[k..])
    decreases |Stored(s, id)| - k
  {
    var es := Stored(s, id);
    if k < |es| {
      CallsWithinBegins(s, steps, id, k, Tally(0, 1, 0, 0));
      RetryBound(es[k], MovesOf(s, steps, id, es[k].providerId));
      ListWithinBudget(s, steps, id, k + 1);
      assert es[k..][0] == es[k] && es[k..][1..] == es[k + 1..];
    }
  }

  /** Along an orderly run on a fresh list, the calls of all its providers together are within
      the sum of limit times cursors plus recoveries, beyond those already begun. */
  lemma ProtocolListBound(before: seq<Step>, steps: seq<Step>, id: SearchId)
    requires Settled(before, id) && OrderlyRun(Run(Start(), before), steps, id)
    requires forall i :: 0 <= i < |Stored(Run(Start(), before), id)| ==>
               Stored(Run(Start(), before), id)[i].attemptCount == 0
               && Stored(Run(Start(), before), id)[i].attemptsForCursor == 0
    ensures var s := Run(Start(), before);
            var es := Stored(s, id);
            ListCalls(s, steps, id, es) <= ListPending(s, id, es) + ListBudget(s, steps, id, es)
  {
    var s := Run(Start(), before);
    SettledState(before, id);
    ListWithinBudget(s, steps, id, 0);
    assert Stored(s, id)[0..] == Stored(s, id);
  }

  /** Nothing is begun on a search that is not past, so none of its calls is outstanding when
      it is saved as a direct search or settled by its worker. */
  lemma NothingIsOutstanding(s: Sys, st: Step, id: SearchId, p: ProviderId)
    requires Inv(s) && !IsPast(s.store, s.nextId, id) && (st.SaveDirect? || st.WorkerOp?)
    ensures Pending1(Exec(s, st), id, p) == {}
  {
    assert Exec(s, st).clients == s.clients;
    forall c | c in s.clients ensures !Owes(s.clients[c], id, p) {
      assert ClientOk(s.clients[c], s.store, s.nextId);
    }
  }
}
