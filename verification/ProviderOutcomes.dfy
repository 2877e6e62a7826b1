// Where the result of a provider call takes its execution, exactly, and what a whole
// continuation request comes to.

module ProviderOutcomes {
  import opened Common
  import opened ProviderExecutions
  import opened ContinuationPass

  // ---------------------------------------------------------------------------------
  // Kinds of results
  // ---------------------------------------------------------------------------------

  predicate Failure(r: Result) {
    r.Raised? || r.Refused?
  }

  /** A page whose continuation can be used. */
  predicate HasNext(r: Result) {
    r.Page? && r.continuation.Some? && Usable(r.continuation.value.cursor)
  }

  /** The provider has no more: no results, or a page without a usable continuation. */
  predicate LastPage(r: Result) {
    r.NoResults? || (r.Page? && !HasNext(r))
  }

  /** The page names the continuation that was just followed. */
  predicate Repeats(e: Execution, r: Result) {
    HasNext(r) && SameContinuation(e.continuation, r.continuation)
  }

  /** The wait that a failure asks for: what it gives, or two and a half seconds. */
  function Wait(r: Result): nat
    requires Failure(r)
  {
    if r.retryAfter.Some? && r.retryAfter.value >= 0 then r.retryAfter.value else 2500
  }

  /** A failure that may be tried again: it is retryable, within a minute, and attempts on the
      cursor are left. */
  predicate MayRetry(e: Execution, r: Result) {
    Failure(r) && r.retryable && Wait(r) <= 60_000 && e.attemptsForCursor < e.maxAttempts
  }

  // ---------------------------------------------------------------------------------
  // One execution
  // ---------------------------------------------------------------------------------

  /** A call that found the last page completes its execution. */
  lemma LastPageCompletes(e: Execution, r: Result, now: int)
    requires Fixed(e) && e.state == Running && LastPage(r)
    ensures var x := ApplyOne(e, r, now);
            && x.state == Completed && x.continuation.None?
            && x.context == (if r.Page? then r.context else e.context)
            && x.lastOutcome == (if r.Page? then "success" else "no_results")
            && x.completedAt == At(if now < 0 then 0 else now)
            && !x.retryable && x.retryAfter.None? && x.attemptsForCursor == e.attemptsForCursor
  {
  }

  /** A call that found another page leaves its execution pending at that page, with all its
      attempts. */
  lemma NextPagePends(e: Execution, r: Result, now: int)
    requires Fixed(e) && e.state == Running && HasNext(r) && !Repeats(e, r)
    ensures var x := ApplyOne(e, r, now);
            && x.state == Pending && x.continuation == r.continuation && x.context == r.context
            && x.lastOutcome == "success" && x.attemptsForCursor == 0
            && !x.retryable && x.retryAfter.None? && (x.supports ==> forall t: int :: t >= 0 ==> Runnable(x, t))
  {
  }

  /** A call that found the page it came from ends its execution as stalled. */
  lemma RepeatedPageStalls(e: Execution, r: Result, now: int)
    requires Fixed(e) && e.state == Running && Repeats(e, r)
    ensures var x := ApplyOne(e, r, now);
            && x.state == TerminalFailure && x.continuation.None? && x.context == e.context
            && x.lastOutcome == "stalled" && !x.retryable && x.retryAfter.None?
            && x.completedAt == At(if now < 0 then 0 else now)
  {
  }

  /** A failure that may be tried again keeps its page, and can run again exactly from the end
      of the wait on. */
  lemma FailureWaits(e: Execution, r: Result, now: int)
    requires Fixed(e) && e.state == Running && MayRetry(e, r) && now >= 0
    ensures var x := ApplyOne(e, r, now);
            && x.state == RetryableFailure && x.continuation == e.continuation && x.context == e.context
            && x.attemptsForCursor == e.attemptsForCursor
            && x.retryable && x.retryAfter == Some(Wait(r)) && x.nextAttemptAt == At(now + Wait(r))
            && x.lastOutcome == (if r.Raised? then "error" else "failed")
            && forall t: int :: t >= 0 ==> (Runnable(x, t) <==> now + Wait(r) <= t)
  {
  }

  /** Any other failure ends its execution. */
  lemma FailureEnds(e: Execution, r: Result, now: int)
    requires Fixed(e) && e.state == Running && Failure(r) && !MayRetry(e, r)
    ensures var x := ApplyOne(e, r, now);
            && x.state == TerminalFailure && x.continuation.None? && x.context == e.context
            && !x.retryable && x.completedAt == At(if now < 0 then 0 else now)
            && x.lastOutcome == (if r.Raised? then "error" else "failed")
  {
  }

  /** The state that a result leads to, exactly. */
  lemma ResultDecides(e: Execution, r: Result, now: int)
    requires Fixed(e) && e.state == Running
    ensures var x := ApplyOne(e, r, now);
            && (x.state == Completed <==> LastPage(r))
            && (x.state == Pending <==> HasNext(r) && !Repeats(e, r))
            && (x.state == RetryableFailure <==> MayRetry(e, r))
            && (x.state == TerminalFailure <==> Repeats(e, r) || (Failure(r) && !MayRetry(e, r)))
  {
    if LastPage(r) {
      LastPageCompletes(e, r, now);
    } else if Repeats(e, r) {
      RepeatedPageStalls(e, r, now);
    } else if HasNext(r) {
      NextPagePends(e, r, now);
    } else if MayRetry(e, r) {
      RetriedState(e, r, now);
    } else {
      FailureEnds(e, r, now);
    }
  }

  lemma RetriedState(e: Execution, r: Result, now: int)
    requires Fixed(e) && e.state == Running && MayRetry(e, r)
    ensures ApplyOne(e, r, now).state == RetryableFailure
  {
  }

  /** A begin counts one attempt on the same page. */
  lemma BeginCounts(e: Execution, now: int)
    requires Fixed(e) && Active(e.state)
    ensures var x := BeginOne(e, now);
            && x.state == Running && x.continuation == e.continuation && x.context == e.context
            && x.attemptCount == e.attemptCount + 1 && x.attemptsForCursor == e.attemptsForCursor + 1
            && x.lastAttemptAt == At(if now < 0 then 0 else now) && x.maxAttempts == e.maxAttempts
            && x.completedAt == e.completedAt && x.lastOutcome == e.lastOutcome
  {
  }

  /** A recovery makes a running execution pending at its page, with its attempts counted. */
  lemma RecoveryReopens(e: Execution)
    requires Fixed(e) && e.state == Running
    ensures var x := Normalize(RecoverOne(e));
            && x.state == Pending && x.continuation == e.continuation && x.context == e.context
            && x.attemptCount == e.attemptCount && x.attemptsForCursor == e.attemptsForCursor
            && x.maxAttempts == e.maxAttempts && forall t: int :: t >= 0 ==> Runnable(x, t)
  {
  }

  // ---------------------------------------------------------------------------------
  // A whole request
  // ---------------------------------------------------------------------------------

  /** The execution was completed before the request, or is by it. */
  predicate EndsCompleted(e: Execution, results: map<ProviderId, Result>, t0: int) {
    e.state == Completed || (Runnable(e, t0) && e.providerId in results && LastPage(results[e.providerId]))
  }

  /** The execution had failed before the request, or does so in it: it repeats its page, or
      fails and may not be tried again after this attempt. */
  predicate EndsFailed(e: Execution, results: map<ProviderId, Result>, t0: int) {
    || e.state == TerminalFailure
    || (Runnable(e, t0) && e.providerId in results
        && (Repeats(e, results[e.providerId])
            || (Failure(results[e.providerId])
                && !MayRetry(e.(attemptsForCursor := e.attemptsForCursor + 1), results[e.providerId]))))
  }

  lemma PassEnds(e: Execution, results: map<ProviderId, Result>, t0: int, t1: int, t2: int)
    requires Fixed(e) && t0 <= t1 && (Runnable(e, t0) ==> e.providerId in results)
    ensures var x := PassOne(e, results, t0, t1, t2);
            && (x.state == Completed <==> EndsCompleted(e, results, t0))
            && (x.state == TerminalFailure <==> EndsFailed(e, results, t0))
  {
    if Runnable(e, t0) {
      BeginKeepsFixed(e, t1);
      ResultDecides(BeginOne(e, t1), results[e.providerId], t2);
    }
  }

  /** A continuation request and the outcome that it writes. The search is completed exactly
      when every provider was completed before or found its last page now, and has failed
      exactly when every provider came to an end and one of them to a failure. */
  method ContinueOnce(es: seq<Execution>, results: map<ProviderId, Result>, t0: int, t1: int, t2: int,
                      clock: nat -> nat)
    returns (r: seq<Execution>, o: Outcome)
    requires FixedList(es) && t0 <= t1
    requires forall e <- es :: Runnable(e, t0) ==> e.providerId in results
    requires forall k: nat :: clock(k) <= clock(k + 1)
    ensures o == AllCompleted <==> forall e <- es :: EndsCompleted(e, results, t0)
    ensures o == SomeFailed <==>
            && (forall e <- es :: EndsCompleted(e, results, t0) || EndsFailed(e, results, t0))
            && exists e <- es :: EndsFailed(e, results, t0)
  {
    r := RunPass(es, results, t0, t1, t2);
    o := Conclude(r, clock);
    FixedListStays(r);
    OutcomeByStates(es, r, results, t0, t1, t2);
  }

  predicate AllEnded(r: seq<Execution>) {
    forall i :: 0 <= i < |r| ==> Ended(r[i].state)
  }

  predicate SomeTerminal(r: seq<Execution>) {
    exists i :: 0 <= i < |r| && r[i].state == TerminalFailure
  }

  lemma OutcomeByStates(es: seq<Execution>, r: seq<Execution>, results: map<ProviderId, Result>, t0: int, t1: int, t2: int)
    requires FixedList(es) && t0 <= t1 && |r| == |es|
    requires forall e <- es :: Runnable(e, t0) ==> e.providerId in results
    requires forall i :: 0 <= i < |es| ==> es[i] in es && r[i] == PassOne(es[i], results, t0, t1, t2)
    ensures AllEnded(r) && !SomeTerminal(r) <==> forall e <- es :: EndsCompleted(e, results, t0)
    ensures AllEnded(r) <==> forall e <- es :: EndsCompleted(e, results, t0) || EndsFailed(e, results, t0)
    ensures SomeTerminal(r) <==> exists e <- es :: EndsFailed(e, results, t0)
  {
    forall i | 0 <= i < |es|
      ensures r[i].state == Completed <==> EndsCompleted(es[i], results, t0)
      ensures r[i].state == TerminalFailure <==> EndsFailed(es[i], results, t0)
    {
      assert es[i] in es;
      PassEnds(es[i], results, t0, t1, t2);
    }
  }
}
