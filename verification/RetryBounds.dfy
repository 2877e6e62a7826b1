// How often providers are called: exactly when a cursor gets more attempts than its limit,
// and a bound on the calls of whole lists over runs of continuation requests.

module RetryBounds {
  import opened Common
  import opened ProviderExecutions
  import opened ContinuationPass

  // ---------------------------------------------------------------------------------
  // When the attempt limit of a cursor is exceeded
  // ---------------------------------------------------------------------------------

  function Move1(e: Execution, m: Move): Execution {
    Advance(e, Tally(0, 1, 0, 0), m).0
  }

  /** Somewhere along the run a cursor has had more attempts than its limit. */
  predicate Exceeds(e: Execution, moves: seq<Move>)
    decreases |moves|
  {
    e.attemptsForCursor > e.maxAttempts || (moves != [] && Exceeds(Move1(e, moves[0]), moves[1..]))
  }

  predicate Begins(moves: seq<Move>) {
    moves != [] && (moves[0].Begin? || Begins(moves[1..]))
  }

  /** Somewhere along the run an attempt is recovered while its cursor has used up the limit,
      and an attempt is begun after that. */
  predicate RecoveredAtLimit(e: Execution, moves: seq<Move>)
    decreases |moves|
  {
    moves != [] &&
      ((moves[0].Recover? && e.state == Running && e.attemptsForCursor >= e.maxAttempts && Begins(moves[1..]))
       || RecoveredAtLimit(Move1(e, moves[0]), moves[1..]))
  }

  /** Attempts remain for whatever waits to be attempted. */
  predicate WithinLimit(e: Execution) {
    && Fixed(e) && e.attemptsForCursor <= e.maxAttempts
    && (e.state == Pending || e.state == RetryableFailure ==> e.attemptsForCursor < e.maxAttempts)
  }

  lemma BeginWithinLimit(e: Execution, now: int)
    requires WithinLimit(e)
    ensures WithinLimit(Move1(e, Begin(now)))
  {
    if Runnable(e, now) {
      BeginKeepsFixed(e, now);
    }
  }

  lemma FinishWithinLimit(e: Execution, r: Result, now: int)
    requires WithinLimit(e)
    ensures WithinLimit(Move1(e, Finish(r, now)))
  {
    if e.state == Running {
      ApplyKeepsFixed(e, r, now);
    }
  }

  lemma RecoverWithinLimit(e: Execution)
    requires WithinLimit(e) && (e.state == Running ==> e.attemptsForCursor < e.maxAttempts)
    ensures WithinLimit(Move1(e, Recover))
  {
  }

  /** A recovered attempt whose cursor has used up its limit. */
  predicate Spent(e: Execution) {
    Fixed(e) && e.state == Pending && e.attemptsForCursor == e.maxAttempts
  }

  lemma RecoverAtLimit(e: Execution)
    requires WithinLimit(e) && e.state == Running && e.attemptsForCursor == e.maxAttempts
    ensures Spent(Move1(e, Recover))
  {
  }

  lemma SpentStep(e: Execution, m: Move)
    requires Spent(e)
    ensures m.Begin? ==> Move1(e, m).attemptsForCursor > Move1(e, m).maxAttempts
    ensures !m.Begin? ==> Move1(e, m) == e
  {
    if m.Begin? {
      BeginKeepsFixed(e, m.now);
    }
  }

  lemma {:induction false} SpentExceeds(e: Execution, moves: seq<Move>)
    requires Spent(e)
    ensures Exceeds(e, moves) <==> Begins(moves)
    decreases |moves|
  {
    if moves != [] {
      SpentStep(e, moves[0]);
      if !moves[0].Begin? {
        SpentExceeds(e, moves[1..]);
      }
    }
  }

  lemma {:induction false} RecoveredBegins(e: Execution, moves: seq<Move>)
    requires RecoveredAtLimit(e, moves)
    ensures Begins(moves)
    decreases |moves|
  {
    if !(moves[0].Recover? && e.state == Running && e.attemptsForCursor >= e.maxAttempts && Begins(moves[1..])) {
      RecoveredBegins(Move1(e, moves[0]), moves[1..]);
    }
  }

  /** Along any run that starts within the limit, some cursor gets more attempts than its
      limit if and only if an attempt was recovered when its cursor had used up the limit,
      and an attempt was begun after that. */
  lemma {:induction false} LimitIsExceededIff(e: Execution, moves: seq<Move>)
    requires WithinLimit(e)
    ensures Exceeds(e, moves) <==> RecoveredAtLimit(e, moves)
    decreases |moves|
  {
    if moves != [] {
      var m, rest := moves[0], moves[1..];
      if m.Recover? && e.state == Running && e.attemptsForCursor == e.maxAttempts {
        RecoverAtLimit(e);
        SpentExceeds(Move1(e, m), rest);
        if RecoveredAtLimit(Move1(e, m), rest) {
          RecoveredBegins(Move1(e, m), rest);
        }
      } else {
        match m {
          case Begin(now) => BeginWithinLimit(e, now);
          case Finish(r, now) => FinishWithinLimit(e, r, now);
          case Recover => RecoverWithinLimit(e);
        }
        LimitIsExceededIff(Move1(e, m), rest);
      }
    }
  }

  /** Attempts that are each begun and lost, n times over. */
  function LostAttempts(n: nat): (moves: seq<Move>)
    ensures |moves| == 2 * n
  {
    if n == 0 then [] else [Begin(0), Recover] + LostAttempts(n - 1)
  }

  lemma LoseOne(e: Execution, t: Tally)
    requires Fixed(e) && e.state == Pending
    ensures var x := Advances(e, t, [Begin(0), Recover]).0;
            && Fixed(x) && x.state == Pending && x.maxAttempts == e.maxAttempts
            && x.attemptsForCursor == e.attemptsForCursor + 1
  {
    BeginKeepsFixed(e, 0);
    var n := Advance(e, t, Begin(0));
    assert [Begin(0), Recover][1..] == [Recover] && [Recover][1..] == [];
    assert Advances(e, t, [Begin(0), Recover]) == Advances(n.0, n.1, [Recover]);
    assert Advances(n.0, n.1, [Recover]) == Advance(n.0, n.1, Recover);
  }

  lemma {:induction false} AdvancesConcat(e: Execution, t: Tally, a: seq<Move>, b: seq<Move>)
    ensures Advances(e, t, a + b) == Advances(Advances(e, t, a).0, Advances(e, t, a).1, b)
    decreases |a|
  {
    if a == [] {
      assert a + b == b;
    } else {
      assert (a + b)[0] == a[0] && (a + b)[1..] == a[1..] + b;
      var n := Advance(e, t, a[0]);
      AdvancesConcat(n.0, n.1, a[1..], b);
    }
  }

  lemma {:induction false} LoseMany(e: Execution, t: Tally, n: nat)
    requires Fixed(e) && e.state == Pending
    ensures var x := Advances(e, t, LostAttempts(n)).0;
            && Fixed(x) && x.state == Pending && x.maxAttempts == e.maxAttempts
            && x.attemptsForCursor == e.attemptsForCursor + n
    decreases n
  {
    if n > 0 {
      LoseOne(e, t);
      AdvancesConcat(e, t, [Begin(0), Recover], LostAttempts(n - 1));
      var r := Advances(e, t, [Begin(0), Recover]);
      LoseMany(r.0, r.1, n - 1);
    }
  }

  /** A run from a fresh execution that exceeds its limit: as many attempts as the limit
      allows are begun and lost, each is recovered, and one more is begun. */
  lemma FreshRunExceedsTheLimit(e: Execution)
    requires Fixed(e) && e.state == Pending && e.attemptCount == 0 && e.attemptsForCursor == 0
    ensures Advances(e, Tally(0, 1, 0, 0), LostAttempts(e.maxAttempts) + [Begin(0)]).0.attemptsForCursor
            == e.maxAttempts + 1
  {
    var t := Tally(0, 1, 0, 0);
    LoseMany(e, t, e.maxAttempts);
    AdvancesConcat(e, t, LostAttempts(e.maxAttempts), [Begin(0)]);
    var r := Advances(e, t, LostAttempts(e.maxAttempts));
    BeginKeepsFixed(r.0, 0);
    assert [Begin(0)][1..] == [];
    assert Advances(r.0, r.1, [Begin(0)]) == Advance(r.0, r.1, Begin(0));
  }

  // ---------------------------------------------------------------------------------
  // Whole lists, request by request
  // ---------------------------------------------------------------------------------

  /** An execution with the tally of its run. */
  datatype Tracked = Tracked(e: Execution, t: Tally)

  /** A continuation request, or the recovery of a request that was lost. */
  datatype Turn =
    | Request(results: map<ProviderId, Result>, t0: int, t1: int, t2: int)
    | Recovery

  function Executions(ls: seq<Tracked>): (es: seq<Execution>)
    ensures |es| == |ls| && forall i :: 0 <= i < |ls| ==> es[i] == ls[i].e
  {
    seq(|ls|, i requires 0 <= i < |ls| => ls[i].e)
  }

  /** The request has a result for every provider that it calls. */
  predicate Complete(ls: seq<Tracked>, turn: Turn) {
    turn.Request? ==>
      && turn.t0 <= turn.t1
      && forall i :: 0 <= i < |ls| && Runnable(ls[i].e, turn.t0) ==> ls[i].e.providerId in turn.results
  }

  function TurnOne(x: Tracked, turn: Turn): Tracked {
    match turn
    case Recovery => var r := Advance(x.e, x.t, Recover); Tracked(r.0, r.1)
    case Request(results, t0, t1, t2) =>
      if Runnable(x.e, t0) && x.e.providerId in results then
        var b := Advance(x.e, x.t, Begin(t1));
        var r := Advance(b.0, b.1, Finish(results[x.e.providerId], t2));
        Tracked(r.0, r.1)
      else x
  }

  function TurnAll(ls: seq<Tracked>, turn: Turn): (r: seq<Tracked>)
    ensures |r| == |ls| && forall i :: 0 <= i < |ls| ==> r[i] == TurnOne(ls[i], turn)
  {
    seq(|ls|, i requires 0 <= i < |ls| => TurnOne(ls[i], turn))
  }

  /** How many providers a turn calls. */
  function Calls(es: seq<Execution>, turn: Turn): nat {
    if turn.Recovery? then 0 else |RunnableIn(es, turn.t0)|
  }

  predicate AllComplete(ls: seq<Tracked>, turns: seq<Turn>)
    decreases |turns|
  {
    turns != [] ==> Complete(ls, turns[0]) && AllComplete(TurnAll(ls, turns[0]), turns[1..])
  }

  function Turns(ls: seq<Tracked>, turns: seq<Turn>): seq<Tracked>
    decreases |turns|
  {
    if turns == [] then ls else Turns(TurnAll(ls, turns[0]), turns[1..])
  }

  function AllCalls(ls: seq<Tracked>, turns: seq<Turn>): nat
    decreases |turns|
  {
    if turns == [] then 0
    else Calls(Executions(ls), turns[0]) + AllCalls(TurnAll(ls, turns[0]), turns[1..])
  }

  predicate AllBounded(ls: seq<Tracked>) {
    forall i :: 0 <= i < |ls| ==> Bounded(ls[i].e, ls[i].t)
  }

  function Begun(ls: seq<Tracked>): nat {
    if ls == [] then 0 else ls[0].t.begins + Begun(ls[1..])
  }

  /** What the limits, cursors and recoveries of a list allow. */
  function Budget(ls: seq<Tracked>): int {
    if ls == [] then 0
    else ls[0].e.maxAttempts * ls[0].t.cursors + ls[0].t.recoveries + Budget(ls[1..])
  }

  lemma TurnBound(x: Tracked, turn: Turn)
    requires Bounded(x.e, x.t) && (turn.Request? ==> turn.t0 <= turn.t1)
    ensures Bounded(TurnOne(x, turn).e, TurnOne(x, turn).t)
    ensures TurnOne(x, turn).e.maxAttempts == x.e.maxAttempts
    ensures TurnOne(x, turn).t.begins
              == x.t.begins + (if turn.Request? && Runnable(x.e, turn.t0) && x.e.providerId in turn.results then 1 else 0)
  {
    match turn
    case Recovery => if x.e.state == Running { RecoverBound(x.e, x.t); }
    case Request(results, t0, t1, t2) =>
      if Runnable(x.e, t0) && x.e.providerId in results {
        RunnableLater(x.e, t0, t1);
        BeginBound(x.e, x.t, t1);
        BeginKeepsFixed(x.e, t1);
        FinishBound(BeginOne(x.e, t1), x.t.(begins := x.t.begins + 1), results[x.e.providerId], t2);
      }
  }

  /** A request on a list does to each execution what `RunPass` does. */
  lemma TurnIsThePass(ls: seq<Tracked>, turn: Turn, i: nat)
    requires i < |ls| && Complete(ls, turn) && turn.Request?
    ensures TurnAll(ls, turn)[i].e == PassOne(ls[i].e, turn.results, turn.t0, turn.t1, turn.t2)
  {
    if Runnable(ls[i].e, turn.t0) {
      RunnableLater(ls[i].e, turn.t0, turn.t1);
      BeginRuns(ls[i].e, turn.t1);
    }
  }

  lemma BeginRuns(e: Execution, now: int)
    requires Runnable(e, now)
    ensures BeginOne(e, now).state == Running
  {
  }

  lemma {:induction false} TurnCalls(ls: seq<Tracked>, turn: Turn)
    requires AllBounded(ls) && Complete(ls, turn)
    ensures Begun(TurnAll(ls, turn)) == Begun(ls) + Calls(Executions(ls), turn)
    decreases |ls|
  {
    if ls != [] {
      TurnBound(ls[0], turn);
      assert Complete(ls[1..], turn);
      TurnCalls(ls[1..], turn);
      assert TurnAll(ls, turn)[1..] == TurnAll(ls[1..], turn);
      assert Executions(ls)[1..] == Executions(ls[1..]);
    }
  }

  lemma TurnKeepsBounds(ls: seq<Tracked>, turn: Turn)
    requires AllBounded(ls) && Complete(ls, turn)
    ensures AllBounded(TurnAll(ls, turn))
  {
    forall i | 0 <= i < |ls| ensures Bounded(TurnAll(ls, turn)[i].e, TurnAll(ls, turn)[i].t) {
      TurnBound(ls[i], turn);
    }
  }

  lemma {:induction false} TurnsCount(ls: seq<Tracked>, turns: seq<Turn>)
    requires AllBounded(ls) && AllComplete(ls, turns)
    ensures AllBounded(Turns(ls, turns))
    ensures Begun(Turns(ls, turns)) == Begun(ls) + AllCalls(ls, turns)
    decreases |turns|
  {
    if turns != [] {
      TurnKeepsBounds(ls, turns[0]);
      TurnCalls(ls, turns[0]);
      TurnsCount(TurnAll(ls, turns[0]), turns[1..]);
    }
  }

  lemma {:induction false} BegunWithinBudget(ls: seq<Tracked>)
    requires AllBounded(ls)
    ensures Begun(ls) <= Budget(ls)
    decreases |ls|
  {
    if ls != [] {
      BoundedBegins(ls[0].e, ls[0].t);
      BegunWithinBudget(ls[1..]);
    }
  }

  lemma BoundedBegins(e: Execution, t: Tally)
    requires Bounded(e, t)
    ensures t.begins <= e.maxAttempts * t.cursors + t.recoveries
  {
    assert e.maxAttempts * t.cursors == e.maxAttempts * (t.cursors - 1) + e.maxAttempts;
  }

  function Fresh(es: seq<Execution>): (ls: seq<Tracked>)
    ensures |ls| == |es| && forall i :: 0 <= i < |ls| ==> ls[i] == Tracked(es[i], Tally(0, 1, 0, 0))
  {
    seq(|es|, i requires 0 <= i < |es| => Tracked(es[i], Tally(0, 1, 0, 0)))
  }

  lemma {:induction false} FreshBegun(es: seq<Execution>)
    ensures Begun(Fresh(es)) == 0
    decreases |es|
  {
    if es != [] {
      assert Fresh(es)[1..] == Fresh(es[1..]);
      FreshBegun(es[1..]);
    }
  }

  lemma FreshIsBounded(e: Execution)
    requires Fixed(e) && e.attemptCount == 0 && e.attemptsForCursor == 0
    ensures Bounded(e, Tally(0, 1, 0, 0))
  {
  }

  /** Over any sequence of requests and recoveries on a fresh list, all provider calls that
      the requests make are within the sum, over the providers, of limit times cursors plus
      recoveries. */
  lemma ListCallsAreBounded(es: seq<Execution>, turns: seq<Turn>)
    requires FixedList(es)
    requires forall i :: 0 <= i < |es| ==> es[i].attemptCount == 0 && es[i].attemptsForCursor == 0
    requires AllComplete(Fresh(es), turns)
    ensures AllCalls(Fresh(es), turns) <= Budget(Turns(Fresh(es), turns))
  {
    var ls := Fresh(es);
    forall i | 0 <= i < |ls| ensures Bounded(ls[i].e, ls[i].t) {
      FreshIsBounded(es[i]);
    }
    FreshBegun(es);
    TurnsCount(ls, turns);
    BegunWithinBudget(Turns(ls, turns));
  }
}
