// One continuation request over the list of provider executions, its summary, and the
// bound on provider calls over whole runs.

module ContinuationPass {
  import opened Common
  import opened ProviderExecutions

  // ---------------------------------------------------------------------------------
  // Lists
  // ---------------------------------------------------------------------------------

  /** The place of a provider in the list, or its length. */
  function Position(es: seq<Execution>, p: ProviderId): (i: nat)
    ensures i <= |es|
    ensures i < |es| ==> es[i].providerId == p
    ensures forall j :: 0 <= j < i ==> es[j].providerId != p
  {
    if es == [] then 0
    else if es[0].providerId == p then 0
    else
      var i := Position(es[1..], p);
      assert forall j :: 1 <= j < i + 1 ==> es[j] == es[1..][j - 1];
      i + 1
  }

  lemma PositionAt(es: seq<Execution>, i: nat)
    requires DistinctProviders(es) && i < |es|
    ensures Position(es, es[i].providerId) == i
  {
    assert es[Position(es, es[i].providerId)].providerId == es[i].providerId;
  }

  /** `replaceProviderExecution`: everything is normalised, the entry is replaced or added. */
  function Replace(es: seq<Execution>, x: Execution): seq<Execution> {
    var normal := NormalizeList(es);
    var i := Position(normal, x.providerId);
    if i < |normal| then normal[i := Normalize(x)] else normal + [Normalize(x)]
  }

  lemma ReplaceInFixed(es: seq<Execution>, i: nat, x: Execution)
    requires FixedList(es) && i < |es| && x.providerId == es[i].providerId && Fixed(x)
    ensures Replace(es, x) == es[i := x] && FixedList(es[i := x])
  {
    FixedListStays(es);
    PositionAt(es, i);
    NormalizeEffect(x);
  }

  // ---------------------------------------------------------------------------------
  // The transitions keep normal form
  // ---------------------------------------------------------------------------------

  lemma BeginKeepsFixed(e: Execution, now: int)
    requires Fixed(e) && Active(e.state)
    ensures Fixed(BeginOne(e, now)) && BeginOne(e, now).state == Running
    ensures BeginOne(e, now).providerId == e.providerId
    ensures BeginOne(e, now).continuation == e.continuation
    ensures BeginOne(e, now).attemptCount == e.attemptCount + 1
    ensures BeginOne(e, now).attemptsForCursor == e.attemptsForCursor + 1
    ensures BeginOne(e, now).maxAttempts == e.maxAttempts
  {
  }

  /** How one provider call ended. */
  datatype Result =
    | Raised(retryable: bool, retryAfter: Option<int>)
    | Refused(retryable: bool, retryAfter: Option<int>)
    | NoResults
    | Page(continuation: Option<Continuation>, context: nat)

  function ApplyOne(e: Execution, r: Result, now: int): Execution {
    match r
    case Raised(retryable, after) => FailOne(e, retryable, after, "error", now)
    case Refused(retryable, after) => FailOne(e, retryable, after, "failed", now)
    case NoResults => SucceedOne(e, None, e.context, "no_results", now)
    case Page(continuation, context) => SucceedOne(e, continuation, context, "success", now)
  }

  lemma SucceedKeepsFixed(e: Execution, continuation: Option<Continuation>, context: nat, outcome: string, now: int)
    requires Fixed(e) && e.state == Running
    ensures var x := SucceedOne(e, continuation, context, outcome, now);
            && Fixed(x) && x.providerId == e.providerId && x.state != Running
            && x.attemptCount == e.attemptCount && x.maxAttempts == e.maxAttempts
  {
  }

  lemma FailKeepsFixed(e: Execution, retryable: bool, after: Option<int>, outcome: string, now: int)
    requires Fixed(e) && e.state == Running
    ensures var x := FailOne(e, retryable, after, outcome, now);
            && Fixed(x) && x.providerId == e.providerId && x.state != Running
            && x.attemptCount == e.attemptCount && x.maxAttempts == e.maxAttempts
  {
  }

  lemma ApplyKeepsFixed(e: Execution, r: Result, now: int)
    requires Fixed(e) && e.state == Running
    ensures Fixed(ApplyOne(e, r, now))
    ensures ApplyOne(e, r, now).providerId == e.providerId
    ensures ApplyOne(e, r, now).state != Running
    ensures ApplyOne(e, r, now).attemptCount == e.attemptCount
    ensures ApplyOne(e, r, now).maxAttempts == e.maxAttempts
  {
    match r
    case Raised(retryable, after) => FailKeepsFixed(e, retryable, after, "error", now);
    case Refused(retryable, after) => FailKeepsFixed(e, retryable, after, "failed", now);
    case NoResults => SucceedKeepsFixed(e, None, e.context, "no_results", now);
    case Page(continuation, context) => SucceedKeepsFixed(e, continuation, context, "success", now);
  }

  // ---------------------------------------------------------------------------------
  // The pass
  // ---------------------------------------------------------------------------------

  /** What a pass does to one execution: a runnable one is begun and its result applied,
      any other is left exactly as it was. */
  function PassOne(e: Execution, results: map<ProviderId, Result>, t0: int, t1: int, t2: int): Execution
    requires Runnable(e, t0) ==> e.providerId in results
  {
    if Runnable(e, t0) then ApplyOne(BeginOne(e, t1), results[e.providerId], t2) else e
  }

  predicate Names(runnable: seq<Execution>, p: ProviderId) {
    exists r <- runnable :: r.providerId == p
  }

  lemma {:induction false} RunnableInEffect(es: seq<Execution>, now: int)
    requires DistinctProviders(es)
    ensures DistinctProviders(RunnableIn(es, now))
    ensures forall e :: e in RunnableIn(es, now) <==> e in es && Runnable(e, now)
  {
    if es != [] {
      assert DistinctProviders(es[1..]);
      RunnableInEffect(es[1..], now);
      assert es == [es[0]] + es[1..];
      forall e | e in es[1..] ensures e.providerId != es[0].providerId {
        var i :| 0 <= i < |es[1..]| && es[1..][i] == e;
        assert es[i + 1] == e;
      }
    }
  }

  /** The list while the first k runnable executions have been moved on by step. */
  predicate MovedOn(was: seq<Execution>, es: seq<Execution>, done: seq<Execution>,
                    step: Execution -> Execution) {
    && |es| == |was|
    && forall i :: 0 <= i < |es| ==>
         es[i] == if Names(done, was[i].providerId) then step(was[i]) else was[i]
  }

  lemma MoveOn(was: seq<Execution>, es: seq<Execution>, done: seq<Execution>, last: Execution,
               step: Execution -> Execution, i: nat)
    requires MovedOn(was, es, done, step) && i < |was| && last.providerId == was[i].providerId
    requires DistinctProviders(was)
    ensures MovedOn(was, es[i := step(was[i])], done + [last], step)
  {
    forall j | 0 <= j < |was|
      ensures es[i := step(was[i])][j] ==
              if Names(done + [last], was[j].providerId) then step(was[j]) else was[j]
    {
      assert last in done + [last];
      assert forall x <- done :: x in done + [last];
      if j != i { assert was[j].providerId != was[i].providerId; }
    }
  }

  predicate SameProviders(a: seq<Execution>, b: seq<Execution>) {
    |a| == |b| && forall i :: 0 <= i < |a| ==> a[i].providerId == b[i].providerId
  }

  /** Moving the k-th runnable execution on keeps what the loops keep. */
  lemma MoveNext(was: seq<Execution>, r: seq<Execution>, runnable: seq<Execution>, k: nat,
                 step: Execution -> Execution, i: nat, x: Execution)
    requires k < |runnable| && DistinctProviders(was) && FixedList(r) && SameProviders(was, r)
    requires MovedOn(was, r, runnable[..k], step)
    requires i < |was| && was[i].providerId == runnable[k].providerId
    requires x == step(was[i]) && Fixed(x) && x.providerId == was[i].providerId
    ensures Replace(r, x) == r[i := x] && FixedList(r[i := x]) && SameProviders(was, r[i := x])
    ensures MovedOn(was, r[i := x], runnable[..k + 1], step)
  {
    ReplaceInFixed(r, i, x);
    MoveOn(was, r, runnable[..k], runnable[k], step, i);
    assert runnable[..k] + [runnable[k]] == runnable[..k + 1];
  }

  /** When all are moved on, exactly the runnable executions are. */
  lemma MovedAll(es: seq<Execution>, was: seq<Execution>, r: seq<Execution>,
                 runnable: seq<Execution>, step: Execution -> Execution, t0: int)
    requires DistinctProviders(es) && SameProviders(es, was) && runnable == RunnableIn(es, t0)
    requires MovedOn(was, r, runnable, step)
    ensures |r| == |es|
    ensures forall i :: 0 <= i < |es| ==>
              r[i] == if Runnable(es[i], t0) then step(was[i]) else was[i]
  {
    forall i | 0 <= i < |es|
      ensures r[i] == if Runnable(es[i], t0) then step(was[i]) else was[i]
    {
      NamedIsRunnable(es, runnable, i, t0);
    }
  }

  /** Every runnable execution is begun. */
  method BeginAll(es: seq<Execution>, runnable: seq<Execution>, t0: int, t1: int)
    returns (r: seq<Execution>)
    requires FixedList(es) && t0 <= t1 && runnable == RunnableIn(es, t0)
    ensures |r| == |es| && FixedList(r)
    ensures forall i :: 0 <= i < |es| ==>
              r[i] == if Runnable(es[i], t0) then BeginOne(es[i], t1) else es[i]
  {
    RunnableInEffect(es, t0);
    r := es;
    ghost var begin := (e: Execution) => BeginOne(e, t1);
    for k := 0 to |runnable|
      invariant FixedList(r) && SameProviders(es, r) && MovedOn(es, r, runnable[..k], begin)
    {
      assert runnable[k] in es;
      PlaceOf(es, es, runnable[k]);
      var i := FindProvider(es, r, runnable, k, begin);
      SameProviderRunnable(es, runnable[k], i, t0);
      RunnableLater(r[i], t0, t1);
      BeginKeepsFixed(r[i], t1);
      var x := BeginOne(r[i], t1);
      MoveNext(es, r, runnable, k, begin, i, x);
      r := Replace(r, x);
    }
    assert runnable[..|runnable|] == runnable;
    MovedAll(es, es, r, runnable, begin, t0);
  }

  lemma SameProviderRunnable(es: seq<Execution>, x: Execution, i: nat, now: int)
    requires DistinctProviders(es) && i < |es| && x in es && Runnable(x, now)
    requires es[i].providerId == x.providerId
    ensures es[i] == x && Runnable(es[i], now)
  {
    var j :| 0 <= j < |es| && es[j] == x;
    PositionAt(es, i);
    PositionAt(es, j);
  }

  lemma NamedIsRunnable(es: seq<Execution>, runnable: seq<Execution>, i: nat, now: int)
    requires DistinctProviders(es) && i < |es| && runnable == RunnableIn(es, now)
    ensures Names(runnable, es[i].providerId) <==> Runnable(es[i], now)
  {
    RunnableInEffect(es, now);
    assert es[i] in es;
    if Names(runnable, es[i].providerId) {
      var x :| x in runnable && x.providerId == es[i].providerId;
      SameProviderRunnable(es, x, i, now);
    }
  }

  /** Every result is applied to the execution that was begun for it. */
  method ApplyAll(es: seq<Execution>, begun: seq<Execution>, runnable: seq<Execution>,
                  results: map<ProviderId, Result>, t0: int, t2: int)
    returns (r: seq<Execution>)
    requires DistinctProviders(es) && runnable == RunnableIn(es, t0) && FixedList(begun)
    requires |begun| == |es|
    requires forall i :: 0 <= i < |es| ==> begun[i].providerId == es[i].providerId
    requires forall i :: 0 <= i < |es| && Runnable(es[i], t0) ==> begun[i].state == Running
    requires forall x <- runnable :: x.providerId in results
    ensures |r| == |es| && FixedList(r)
    ensures forall i :: 0 <= i < |es| ==>
              r[i] == if Runnable(es[i], t0) && es[i].providerId in results
                      then ApplyOne(begun[i], results[es[i].providerId], t2) else begun[i]
  {
    RunnableInEffect(es, t0);
    r := begun;
    ghost var apply := (e: Execution) =>
      if e.providerId in results then ApplyOne(e, results[e.providerId], t2) else e;
    for k := 0 to |runnable|
      invariant FixedList(r) && SameProviders(begun, r) && MovedOn(begun, r, runnable[..k], apply)
    {
      var p := runnable[k].providerId;
      assert runnable[k] in es && runnable[k] in runnable;
      PlaceOf(es, begun, runnable[k]);
      var i := FindProvider(begun, r, runnable, k, apply);
      SameProviderRunnable(es, runnable[k], i, t0);
      ApplyKeepsFixed(r[i], results[p], t2);
      var x := ApplyOne(r[i], results[p], t2);
      MoveNext(begun, r, runnable, k, apply, i, x);
      r := Replace(r, x);
    }
    assert runnable[..|runnable|] == runnable;
    MovedAll(es, begun, r, runnable, apply, t0);
  }

  lemma PlaceOf(es: seq<Execution>, begun: seq<Execution>, x: Execution)
    requires |es| == |begun| && x in es
    requires forall i :: 0 <= i < |es| ==> begun[i].providerId == es[i].providerId
    ensures exists j :: 0 <= j < |begun| && begun[j].providerId == x.providerId
  {
    var j :| 0 <= j < |es| && es[j] == x;
    assert begun[j].providerId == x.providerId;
  }

  /** A continuation request under its lease. The runnable executions are snapshotted once;
      each is begun, called once, and its result applied; all others are left unchanged. */
  method RunPass(es: seq<Execution>, results: map<ProviderId, Result>, t0: int, t1: int, t2: int)
    returns (r: seq<Execution>)
    requires FixedList(es) && t0 <= t1
    requires forall e <- es :: Runnable(e, t0) ==> e.providerId in results
    ensures |r| == |es| && FixedList(r)
    ensures forall i :: 0 <= i < |es| ==> es[i] in es && r[i] == PassOne(es[i], results, t0, t1, t2)
  {
    var runnable := RunnableIn(es, t0);
    RunnableInEffect(es, t0);
    var begun := BeginAll(es, runnable, t0, t1);
    forall i | 0 <= i < |es|
      ensures begun[i].providerId == es[i].providerId
      ensures Runnable(es[i], t0) ==> begun[i].state == Running
    {
      if Runnable(es[i], t0) { BeginKeepsFixed(es[i], t1); }
    }
    r := ApplyAll(es, begun, runnable, results, t0, t2);
  }

  /** `providerExecutions.find`: the k-th runnable execution is still where it was, untouched. */
  method FindProvider(ghost was: seq<Execution>, es: seq<Execution>, runnable: seq<Execution>,
                      k: nat, ghost step: Execution -> Execution) returns (i: nat)
    requires k < |runnable| && DistinctProviders(runnable) && DistinctProviders(was)
    requires MovedOn(was, es, runnable[..k], step) && FixedList(es)
    requires forall j :: 0 <= j < |was| ==> es[j].providerId == was[j].providerId
    requires exists j :: 0 <= j < |was| && was[j].providerId == runnable[k].providerId
    ensures i < |es| && es[i] == was[i] && was[i].providerId == runnable[k].providerId
  {
    i := Position(es, runnable[k].providerId);
    ghost var j :| 0 <= j < |was| && was[j].providerId == runnable[k].providerId;
    assert es[j].providerId == runnable[k].providerId;
    assert i < |es|;
    assert !Names(runnable[..k], was[i].providerId);
  }

  /** What a pass does to each execution: a runnable one is attempted exactly once and does
      not stay running; whatever is completed, terminal, running or waiting keeps its state,
      its cursor and its attempts. */
  lemma PassEffect(e: Execution, results: map<ProviderId, Result>, t0: int, t1: int, t2: int)
    requires Fixed(e) && t0 <= t1 && (Runnable(e, t0) ==> e.providerId in results)
    ensures var x := PassOne(e, results, t0, t1, t2);
            && x.providerId == e.providerId
            && (Runnable(e, t0) ==> x.attemptCount == e.attemptCount + 1 && x.state != Running)
            && (!Runnable(e, t0) ==> x == e)
            && (Ended(e.state) || e.state == Running ==> x == e)
            && (x.state == RetryableFailure && Runnable(e, t0) ==>
                  x.continuation == e.continuation && x.attemptsForCursor < x.maxAttempts)
  {
    if Runnable(e, t0) {
      BeginKeepsFixed(e, t1);
      ApplyKeepsFixed(BeginOne(e, t1), results[e.providerId], t2);
    }
  }

  // ---------------------------------------------------------------------------------
  // The summary of a list
  // ---------------------------------------------------------------------------------

  datatype Summary = Summary(
    pending: nat, running: nat, completed: nat, retryable: nat, terminal: nat,
    waiting: nat, retryAfter: Option<nat>, runnable: nat)

  function Count(es: seq<Execution>, state: State): nat {
    if es == [] then 0
    else Count(es[..|es| - 1], state) + (if es[|es| - 1].state == state then 1 else 0)
  }

  lemma {:induction false} CountPositive(es: seq<Execution>, state: State)
    ensures Count(es, state) > 0 <==> exists i :: 0 <= i < |es| && es[i].state == state
  {
    if es != [] {
      var n := |es| - 1;
      CountPositive(es[..n], state);
      assert forall i :: 0 <= i < n ==> es[..n][i] == es[i];
    }
  }

  /** The session outcome that is written after a pass. */
  datatype Outcome = InProgress | AllCompleted | SomeFailed

  predicate Incomplete(s: Summary) {
    s.runnable > 0 || s.running > 0 || s.waiting > 0
  }

  function OutcomeOf(s: Summary): Outcome {
    if Incomplete(s) then InProgress else if s.terminal > 0 then SomeFailed else AllCompleted
  }

  /** An active execution is running, or can run now, or has a wait that a clock reading
      taken before still shows. */
  lemma ActiveIsCounted(e: Execution, first: int, second: int)
    requires Normal(e) && 0 <= first <= second
    ensures Active(e.state) <==>
            e.state == Running || Runnable(e, second)
            || (e.state == RetryableFailure && RetryDelay(e, first) > 0)
  {
  }

  predicate SomeActive(es: seq<Execution>) {
    exists i :: 0 <= i < |es| && Active(es[i].state)
  }

  lemma SomeActiveStep(es: seq<Execution>, k: nat)
    requires k < |es|
    ensures SomeActive(es[..k + 1]) <==> SomeActive(es[..k]) || Active(es[k].state)
  {
    var more := es[..k + 1];
    assert more[k] == es[k] && forall i :: 0 <= i < k ==> more[i] == es[..k][i];
  }

  predicate Tallied(s: Summary, es: seq<Execution>) {
    && s.pending == Count(es, Pending)
    && s.running == Count(es, Running)
    && s.completed == Count(es, Completed)
    && s.retryable == Count(es, RetryableFailure)
    && s.terminal == Count(es, TerminalFailure)
  }

  lemma TalliedStep(s: Summary, t: Summary, es: seq<Execution>, k: nat)
    requires k < |es| && Tallied(s, es[..k])
    requires t.pending == s.pending + (if es[k].state == Pending then 1 else 0)
    requires t.running == s.running + (if es[k].state == Running then 1 else 0)
    requires t.completed == s.completed + (if es[k].state == Completed then 1 else 0)
    requires t.retryable == s.retryable + (if es[k].state == RetryableFailure then 1 else 0)
    requires t.terminal == s.terminal + (if es[k].state == TerminalFailure then 1 else 0)
    ensures Tallied(t, es[..k + 1])
  {
    assert es[..k + 1][..k] == es[..k];
  }

  /** The wait of the k-th execution, by the clock reading that the loop takes for it. */
  function WaitAt(es: seq<Execution>, clock: nat -> nat, k: nat): nat
    requires k < |es|
  {
    RetryDelay(es[k], clock(2 * k))
  }

  predicate RunsAt(es: seq<Execution>, clock: nat -> nat, k: nat)
    requires k < |es|
  {
    Runnable(es[k], clock(2 * k + 1))
  }

  /** The number of the first n executions that wait. */
  function Waits(es: seq<Execution>, clock: nat -> nat, n: nat): nat
    requires n <= |es|
  {
    if n == 0 then 0 else Waits(es, clock, n - 1) + (if WaitAt(es, clock, n - 1) > 0 then 1 else 0)
  }

  /** The number of the first n executions that can run. */
  function Runs(es: seq<Execution>, clock: nat -> nat, n: nat): nat
    requires n <= |es|
  {
    if n == 0 then 0 else Runs(es, clock, n - 1) + (if RunsAt(es, clock, n - 1) then 1 else 0)
  }

  /** The wait is the least positive one of the first n executions, absent when none waits. */
  predicate LeastWait(wait: Option<nat>, es: seq<Execution>, clock: nat -> nat, n: nat)
    requires n <= |es|
  {
    && (forall k :: 0 <= k < n ==> WaitAt(es, clock, k) == 0 || (wait.Some? && wait.value <= WaitAt(es, clock, k)))
    && (wait.Some? ==> exists k :: 0 <= k < n && WaitAt(es, clock, k) == wait.value)
    && (wait.Some? ==> wait.value > 0)
  }

  function Shorter(wait: Option<nat>, delay: nat): Option<nat> {
    if delay > 0 && (wait.None? || delay < wait.value) then Some(delay) else wait
  }

  lemma LeastWaitStep(wait: Option<nat>, es: seq<Execution>, clock: nat -> nat, n: nat)
    requires n < |es| && LeastWait(wait, es, clock, n)
    ensures LeastWait(Shorter(wait, WaitAt(es, clock, n)), es, clock, n + 1)
  {
    if Shorter(wait, WaitAt(es, clock, n)) == wait && wait.Some? {
      var k :| 0 <= k < n && WaitAt(es, clock, k) == wait.value;
      assert 0 <= k < n + 1;
    } else {
      assert WaitAt(es, clock, n) == WaitAt(es, clock, n);
    }
  }

  /** A summary after one more execution, which has this wait and can run or not. */
  function Counted(s: Summary, state: State, wait: nat, runs: bool): Summary {
    s.(pending := s.pending + (if state == Pending then 1 else 0),
       running := s.running + (if state == Running then 1 else 0),
       completed := s.completed + (if state == Completed then 1 else 0),
       retryable := s.retryable + (if state == RetryableFailure then 1 else 0),
       terminal := s.terminal + (if state == TerminalFailure then 1 else 0),
       waiting := s.waiting + (if wait > 0 then 1 else 0),
       retryAfter := Shorter(s.retryAfter, wait),
       runnable := s.runnable + (if runs then 1 else 0))
  }

  /** The summary is that of the first n executions. */
  predicate Summed(s: Summary, es: seq<Execution>, clock: nat -> nat, n: nat)
    requires n <= |es|
  {
    && Tallied(s, es[..n])
    && s.waiting == Waits(es, clock, n) && s.runnable == Runs(es, clock, n)
    && s.waiting <= s.retryable && (s.retryAfter.Some? <==> s.waiting > 0)
    && LeastWait(s.retryAfter, es, clock, n)
    && (Incomplete(s) <==> SomeActive(es[..n]))
  }

  lemma CountedStep(s: Summary, es: seq<Execution>, clock: nat -> nat, n: nat)
    requires n < |es| && Normal(es[n]) && clock(2 * n) <= clock(2 * n + 1) && Summed(s, es, clock, n)
    ensures Summed(Counted(s, es[n].state, WaitAt(es, clock, n), RunsAt(es, clock, n)), es, clock, n + 1)
  {
    var t := Counted(s, es[n].state, WaitAt(es, clock, n), RunsAt(es, clock, n));
    TalliedStep(s, t, es, n);
    LeastWaitStep(s.retryAfter, es, clock, n);
    SomeActiveStep(es, n);
    ActiveIsCounted(es[n], clock(2 * n), clock(2 * n + 1));
    WaitsOnRetry(es[n], clock(2 * n));
  }

  lemma WaitsOnRetry(e: Execution, now: int)
    requires Normal(e)
    ensures RetryDelay(e, now) > 0 ==> e.state == RetryableFailure
  {
  }

  /** The summary loop, with a clock that may advance between any two readings. The wait that
      it reports is the least of those that it read. */
  method Summarize(raw: seq<Execution>, clock: nat -> nat) returns (s: Summary)
    requires forall k: nat :: clock(k) <= clock(k + 1)
    ensures Tallied(s, NormalizeList(raw))
    ensures s.waiting <= s.retryable && (s.retryAfter.Some? <==> s.waiting > 0)
    ensures s.waiting == Waits(NormalizeList(raw), clock, |NormalizeList(raw)|)
    ensures s.runnable == Runs(NormalizeList(raw), clock, |NormalizeList(raw)|)
    ensures LeastWait(s.retryAfter, NormalizeList(raw), clock, |NormalizeList(raw)|)
    ensures Incomplete(s) <==> SomeActive(NormalizeList(raw))
  {
    var es := NormalizeExecutions(raw);
    NormalizedListIsNormal(raw);
    s := Summary(0, 0, 0, 0, 0, 0, None, 0);
    for k := 0 to |es|
      invariant Summed(s, es, clock, k)
    {
      var e := es[k];
      ghost var was := s;
      CountedStep(s, es, clock, k);
      WaitsOnRetry(e, clock(2 * k));
      match e.state {
        case Pending => s := s.(pending := s.pending + 1);
        case Running => s := s.(running := s.running + 1);
        case Completed => s := s.(completed := s.completed + 1);
        case TerminalFailure => s := s.(terminal := s.terminal + 1);
        case RetryableFailure =>
          s := s.(retryable := s.retryable + 1);
          var delay := RetryDelay(e, clock(2 * k));
          if delay > 0 {
            s := s.(waiting := s.waiting + 1, retryAfter := Some(
              if s.retryAfter.None? || delay < s.retryAfter.value then delay
              else s.retryAfter.value));
          }
        case Unrecognised =>
      }
      if Runnable(e, clock(2 * k + 1)) {
        s := s.(runnable := s.runnable + 1);
      }
      assert s == Counted(was, e.state, WaitAt(es, clock, k), RunsAt(es, clock, k));
    }
    assert es[..|es|] == es;
  }

  /** The search is over exactly when every execution is completed or terminal, and then it
      has failed exactly when one of them is terminal. An empty list, as a search that is
      still queued has, counts as completed. */
  method Conclude(raw: seq<Execution>, clock: nat -> nat) returns (o: Outcome)
    requires forall k: nat :: clock(k) <= clock(k + 1)
    ensures o != InProgress <==>
            forall i :: 0 <= i < |NormalizeList(raw)| ==> Ended(NormalizeList(raw)[i].state)
    ensures o == SomeFailed <==>
            && (forall i :: 0 <= i < |NormalizeList(raw)| ==> Ended(NormalizeList(raw)[i].state))
            && exists i :: 0 <= i < |NormalizeList(raw)| && NormalizeList(raw)[i].state == TerminalFailure
    ensures raw == [] ==> o == AllCompleted
  {
    var s := Summarize(raw, clock);
    NormalizedListIsNormal(raw);
    CountPositive(NormalizeList(raw), TerminalFailure);
    o := OutcomeOf(s);
  }

  // ---------------------------------------------------------------------------------
  // The retry bound over whole runs
  // ---------------------------------------------------------------------------------

  /** What can happen to one execution: an attempt, its result, or stale recovery. */
  datatype Move = Begin(now: int) | Finish(result: Result, now: int) | Recover

  /** Attempts made, cursors adopted (the first included), recoveries in all, and recoveries
      since the current cursor was adopted. */
  datatype Tally = Tally(begins: nat, cursors: nat, recoveries: nat, here: nat)

  function Advance(e: Execution, t: Tally, m: Move): (Execution, Tally) {
    match m
    case Begin(now) =>
      if Runnable(e, now) then (BeginOne(e, now), t.(begins := t.begins + 1)) else (e, t)
    case Finish(result, now) =>
      if e.state != Running then (e, t)
      else
        var x := ApplyOne(e, result, now);
        (x, if x.state == Pending then t.(cursors := t.cursors + 1, here := 0) else t)
    case Recover =>
      if e.state != Running then (e, t)
      else
        (Normalize(RecoverOne(e)), t.(recoveries := t.recoveries + 1, here := t.here + 1))
  }

  function Advances(e: Execution, t: Tally, moves: seq<Move>): (Execution, Tally)
    decreases |moves|
  {
    if moves == [] then (e, t)
    else
      var n := Advance(e, t, moves[0]);
      Advances(n.0, n.1, moves[1..])
  }

  predicate Bounded(e: Execution, t: Tally) {
    && Fixed(e)
    && e.attemptCount == t.begins && t.cursors > 0 && t.here <= t.recoveries
    && e.attemptsForCursor <= e.maxAttempts + t.here
         - (if e.state == Pending || e.state == RetryableFailure then 1 else 0)
    && e.attemptCount - e.attemptsForCursor
         <= e.maxAttempts * (t.cursors - 1) + (t.recoveries - t.here)
  }

  lemma BeginBound(e: Execution, t: Tally, now: int)
    requires Bounded(e, t) && Runnable(e, now)
    ensures Bounded(BeginOne(e, now), t.(begins := t.begins + 1))
    ensures BeginOne(e, now).maxAttempts == e.maxAttempts
  {
    BeginKeepsFixed(e, now);
  }

  lemma FinishBound(e: Execution, t: Tally, r: Result, now: int)
    requires Bounded(e, t) && e.state == Running
    ensures
      var x := ApplyOne(e, r, now);
      && Bounded(x, if x.state == Pending then t.(cursors := t.cursors + 1, here := 0) else t)
      && x.maxAttempts == e.maxAttempts
  {
    ApplyKeepsFixed(e, r, now);
    var x := ApplyOne(e, r, now);
    assert e.maxAttempts * t.cursors == e.maxAttempts * (t.cursors - 1) + e.maxAttempts;
    if x.state == Pending {
      assert x.attemptsForCursor == 0;
    } else {
      assert x.attemptsForCursor == e.attemptsForCursor;
      assert x.state == RetryableFailure ==> e.attemptsForCursor < e.maxAttempts;
    }
  }

  lemma RecoverBound(e: Execution, t: Tally)
    requires Bounded(e, t) && e.state == Running
    ensures Bounded(Normalize(RecoverOne(e)), t.(recoveries := t.recoveries + 1, here := t.here + 1))
    ensures Normalize(RecoverOne(e)).maxAttempts == e.maxAttempts
  {
  }

  lemma {:induction false} RunsAreBounded(e: Execution, t: Tally, moves: seq<Move>)
    requires Bounded(e, t)
    ensures Bounded(Advances(e, t, moves).0, Advances(e, t, moves).1)
    ensures Advances(e, t, moves).0.maxAttempts == e.maxAttempts
    decreases |moves|
  {
    if moves != [] {
      match moves[0] {
        case Begin(now) => if Runnable(e, now) { BeginBound(e, t, now); }
        case Finish(r, now) => if e.state == Running { FinishBound(e, t, r, now); }
        case Recover => if e.state == Running { RecoverBound(e, t); }
      }
      var n := Advance(e, t, moves[0]);
      RunsAreBounded(n.0, n.1, moves[1..]);
    }
  }

  /** Over any run of attempts, results and stale recoveries: the attempts on the current
      cursor never exceed the limit plus the recoveries since it was adopted, and all
      attempts together never exceed limit times cursors plus recoveries. */
  lemma RetryBound(e: Execution, moves: seq<Move>)
    requires Fixed(e) && e.attemptCount == 0 && e.attemptsForCursor == 0
    ensures
      var r := Advances(e, Tally(0, 1, 0, 0), moves);
      && r.0.attemptCount == r.1.begins
      && r.0.attemptsForCursor <= e.maxAttempts + r.1.here
      && r.1.begins <= e.maxAttempts * r.1.cursors + r.1.recoveries
  {
    RunsAreBounded(e, Tally(0, 1, 0, 0), moves);
    var r := Advances(e, Tally(0, 1, 0, 0), moves);
    assert e.maxAttempts * r.1.cursors == e.maxAttempts * (r.1.cursors - 1) + e.maxAttempts;
  }

  /** The limit alone is not a bound: recovering a stale attempt puts it back with its
      attempts counted, and one more is made, so `limit + 1` attempts on one cursor happen. */
  lemma RecoveryExceedsTheLimit(e: Execution, now: int)
    requires Fixed(e) && e.state == Running && e.attemptsForCursor == e.maxAttempts
    ensures Advances(e, Tally(0, 1, 0, 0), [Recover, Begin(now)]).0.attemptsForCursor
            == e.maxAttempts + 1
  {
    var x := Normalize(RecoverOne(e));
    assert Runnable(x, now);
    assert [Recover, Begin(now)][1..] == [Begin(now)];
    BeginKeepsFixed(x, now);
    var t := Tally(0, 1, 1, 1);
    assert Advances(x, t, [Begin(now)]) == Advance(x, t, Begin(now)) by {
      assert [Begin(now)][1..] == [];
    }
  }

  /** No move touches a completed or terminal execution again. */
  lemma {:induction false} EndedForGood(e: Execution, t: Tally, moves: seq<Move>)
    requires Fixed(e) && Ended(e.state)
    ensures Advances(e, t, moves) == (e, t)
    decreases |moves|
  {
    if moves != [] { EndedForGood(e, t, moves[1..]); }
  }
}
