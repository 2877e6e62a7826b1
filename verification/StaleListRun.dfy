// A run of the continuation protocol, from its start, in which an older list of executions
// comes back: an ended execution runs again, and a provider is called more often than its
// limit allows although nothing was recovered.

module StaleListRun {
  import opened Common
  import opened ProviderExecutions
  import opened ContinuationPass
  import opened ContinuationProtocol
  import opened ContinuationExclusion
  import opened ContinuationLoss
  import opened ProtocolBounds
  import S = SearchSessions

  // ---------------------------------------------------------------------------------
  // One undisturbed request on a list of one execution
  // ---------------------------------------------------------------------------------

  /** The search is there, with this list and without a lease. */
  predicate Idle(s: Sys, es: seq<Execution>) {
    && s.now >= 0 && 0 in s.store.sessions
    && s.store.sessions[0].executions == es && !s.store.sessions[0].isContinuing
    && s.store.sessions[0].expiresAt > s.now
  }

  function Calling1(e: Execution, r: Result): Input {
    Input(Delivered, map[e.providerId := r], [], false)
  }

  /** A request up to its provider call, and from there on. */
  function UpToCall(c: nat): seq<Step> {
    [Open(c, 0), Advance(c, PROMPT), Advance(c, PROMPT), Advance(c, PROMPT)]
  }

  function FromCall(c: nat, e: Execution, r: Result): seq<Step> {
    [Advance(c, Calling1(e, r)), Advance(c, PROMPT), Advance(c, PROMPT), Advance(c, PROMPT)]
  }

  function Request8(c: nat, e: Execution, r: Result): seq<Step> {
    UpToCall(c) + FromCall(c, e, r)
  }

  /** The clients but c are those of s. */
  predicate OthersSame(s: Sys, t: Sys, c: nat) {
    && t.now == s.now && t.clients.Keys <= s.clients.Keys + {c}
    && forall d <- s.clients :: d != c ==> d in t.clients && t.clients[d] == s.clients[d]
  }

  lemma OneIsFixed(e: Execution)
    requires Fixed(e)
    ensures FixedList([e]) && NormalizeList([e]) == [e]
  {
    FixedListStays([e]);
  }

  lemma OneRuns(e: Execution, now: int)
    requires Fixed(e) && Runnable(e, now)
    ensures RunnableIn([e], now) == [e] && SomeActive([e]) && Decide([e], now) == Acquiring
  {
    OneIsFixed(e);
    assert [e][1..] == [];
    assert Active([e][0].state);
  }

  predicate Opened1(s: Sys, c: nat, e: Execution) {
    && Idle(s, [e]) && c in s.clients && s.clients[c].id == 0 && s.clients[c].pc == Acquiring
  }

  lemma StepOpen(s: Sys, c: nat, e: Execution)
    requires Idle(s, [e]) && Fixed(e) && Runnable(e, s.now) && c !in s.clients
    ensures var t := Exec(s, Open(c, 0)); Opened1(t, c, e) && OthersSame(s, t, c)
  {
    OneIsFixed(e);
    OneRuns(e, s.now);
  }

  /** The request holds the lease, and the session has this list. */
  predicate Mid(s: Sys, c: nat, pc: Pc, stored: seq<Execution>, own: seq<Execution>, e: Execution, next: nat) {
    && s.now >= 0 && 0 in s.store.sessions && s.store.sessions[0].executions == stored
    && s.store.sessions[0].expiresAt > s.now
    && c in s.clients && s.clients[c].id == 0 && s.clients[c].pc == pc && s.clients[c].lease.fence > 0
    && s.clients[c].executions == own && s.clients[c].runnable == [e] && s.clients[c].next == next
    && S.HeldBy(s.store.sessions[0], s.clients[c].lease, s.now)
  }

  lemma OneBegins(e: Execution, now: int)
    requires Fixed(e) && Runnable(e, now)
    ensures BeginEach([e], [e], now) == [BeginOne(e, now)]
  {
    OneIsFixed(e);
    OneRuns(e, now);
    BegunList([e], now);
  }

  lemma StepAcquire(s: Sys, c: nat, e: Execution)
    requires Opened1(s, c, e) && Fixed(e) && Runnable(e, s.now)
    ensures var t := Exec(s, Advance(c, PROMPT));
            Mid(t, c, Beginning, [e], [BeginOne(e, s.now)], e, 0) && OthersSame(s, t, c)
  {
    OneIsFixed(e);
    OneRuns(e, s.now);
    OneBegins(e, s.now);
  }

  lemma StepBegin(s: Sys, c: nat, e: Execution, b: Execution)
    requires Mid(s, c, Beginning, [e], [b], e, 0)
    ensures var t := Exec(s, Advance(c, PROMPT)); Mid(t, c, Renewing, [b], [b], e, 0) && OthersSame(s, t, c)
  {
  }

  lemma StepRenew(s: Sys, c: nat, e: Execution, b: Execution)
    requires Mid(s, c, Renewing, [b], [b], e, 0)
    ensures var t := Exec(s, Advance(c, PROMPT)); Mid(t, c, Calling, [b], [b], e, 0) && OthersSame(s, t, c)
  {
  }

  lemma StepCall(s: Sys, c: nat, e: Execution, b: Execution, r: Result)
    requires Mid(s, c, Calling, [b], [b], e, 0)
    ensures var t := Exec(s, Advance(c, Calling1(e, r)));
            && Mid(t, c, Confirming, [b], [b], e, 0) && OthersSame(s, t, c)
            && t.clients[c].results == map[e.providerId := r]
            && CallsProvider(s, Advance(c, Calling1(e, r)), 0, e.providerId)
  {
    assert e in [e];
  }

  lemma StepConfirm(s: Sys, c: nat, e: Execution, b: Execution, r: Result)
    requires Mid(s, c, Confirming, [b], [b], e, 0) && s.clients[c].results == map[e.providerId := r] && !r.Page?
    ensures var t := Exec(s, Advance(c, PROMPT));
            && Mid(t, c, Recording, [b], [b], e, 0) && OthersSame(s, t, c)
            && t.clients[c].results == map[e.providerId := r]
  {
  }

  lemma OneApplies(e: Execution, b: Execution, r: Result, now: int)
    requires Fixed(b) && b.state == Running && b.providerId == e.providerId
    ensures ApplyIn([b], e.providerId, r, now) == [ApplyOne(b, r, now)]
  {
    OneIsFixed(b);
    AppliedList([b], 0, r, now);
  }

  /** What recording the only result of a request writes and leads to. */
  lemma OneRecorded(x: Client, e: Execution, b: Execution, r: Result, now: int)
    requires x.pc == Recording && x.executions == [b] && x.runnable == [e] && x.next == 0
    requires x.results == map[e.providerId := r]
    requires Fixed(b) && b.state == Running && b.providerId == e.providerId
    ensures Applied(x, now) == [ApplyOne(b, r, now)]
    ensures NextResult(x.(executions := Applied(x, now), next := 1))
            == x.(executions := [ApplyOne(b, r, now)], next := 1, pc := Releasing)
  {
    OneApplies(e, b, r, now);
  }

  /** The holder's write is stored and leaves its lease as it was. */
  lemma HeldWriteStores(store: S.Store, p: S.Patch, lease: S.Lease, now: int)
    requires 0 in store.sessions && store.sessions[0].expiresAt > now
    requires S.HeldBy(store.sessions[0], lease, now) && lease.fence > 0
    ensures var r := S.Eval(store, S.Update(0, p, Some(lease)), now);
            && r.1.Accepted? && 0 in r.0.sessions
            && r.0.sessions[0] == S.Touch(S.Apply(store.sessions[0], p), now)
  {
  }

  lemma StepRecord(s: Sys, c: nat, e: Execution, b: Execution, r: Result)
    requires Mid(s, c, Recording, [b], [b], e, 0) && s.clients[c].results == map[e.providerId := r]
    requires Fixed(b) && b.state == Running && b.providerId == e.providerId
    ensures var t := Exec(s, Advance(c, PROMPT));
            && Mid(t, c, Releasing, [ApplyOne(b, r, s.now)], [ApplyOne(b, r, s.now)], e, 1) && OthersSame(s, t, c)
  {
    OneRecorded(s.clients[c], e, b, r, s.now);
    HeldWriteStores(s.store, BUSY.(executions := Some([ApplyOne(b, r, s.now)])), s.clients[c].lease, s.now);
  }

  lemma StepRelease(s: Sys, c: nat, e: Execution, x: Execution)
    requires Mid(s, c, Releasing, [x], [x], e, 1)
    ensures var t := Exec(s, Advance(c, PROMPT));
            && Idle(t, [x]) && OthersSame(s, t, c)
            && t.store.sessions[0].expiresAt == s.now + S.SESSION_TTL
  {
  }

  lemma {:induction false} RunConcat(s: Sys, a: seq<Step>, b: seq<Step>)
    ensures Run(s, a + b) == Run(Run(s, a), b)
    decreases |a|
  {
    if a == [] {
      assert a + b == b;
    } else {
      assert (a + b)[0] == a[0] && (a + b)[1..] == a[1..] + b;
      RunConcat(Exec(s, a[0]), a[1..], b);
    }
  }

  lemma {:induction false} CallsConcat(s: Sys, a: seq<Step>, b: seq<Step>, p: ProviderId)
    ensures CallsIn(s, a + b, 0, p) == CallsIn(s, a, 0, p) + CallsIn(Run(s, a), b, 0, p)
    decreases |a|
  {
    if a == [] {
      assert a + b == b;
    } else {
      assert (a + b)[0] == a[0] && (a + b)[1..] == a[1..] + b;
      CallsConcat(Exec(s, a[0]), a[1..], b, p);
    }
  }

  lemma RunTwo(s: Sys, a: Step, b: Step, p: ProviderId)
    ensures Run(s, [a]) == Exec(s, a) && Run(s, [a, b]) == Exec(Exec(s, a), b)
    ensures CallsIn(s, [a], 0, p) == if CallsProvider(s, a, 0, p) then 1 else 0
    ensures CallsIn(s, [a, b], 0, p) == CallsIn(s, [a], 0, p) + CallsIn(Exec(s, a), [b], 0, p)
  {
    assert [a, b][1..] == [b] && [a][1..] == [] && [b][1..] == [];
    assert Run(Exec(s, a), [b]) == Exec(Exec(s, a), b);
  }

  lemma RunFour(s: Sys, a: Step, b: Step, c: Step, d: Step, p: ProviderId)
    ensures Run(s, [a, b, c, d]) == Exec(Exec(Exec(Exec(s, a), b), c), d)
    ensures CallsIn(s, [a, b, c, d], 0, p) == CallsIn(s, [a, b], 0, p) + CallsIn(Exec(Exec(s, a), b), [c, d], 0, p)
  {
    RunTwo(s, a, b, p);
    RunTwo(Exec(Exec(s, a), b), c, d, p);
    assert [a, b] + [c, d] == [a, b, c, d];
    RunConcat(s, [a, b], [c, d]);
    CallsConcat(s, [a, b], [c, d], p);
  }

  lemma FirstHalf(s: Sys, c: nat, e: Execution)
    requires Idle(s, [e]) && Fixed(e) && Runnable(e, s.now) && c !in s.clients
    ensures var steps := UpToCall(c);
            var b := BeginOne(e, s.now);
            && Mid(Run(s, steps), c, Calling, [b], [b], e, 0) && OthersSame(s, Run(s, steps), c)
            && CallsIn(s, steps, 0, e.providerId) == 0
  {
    var b := BeginOne(e, s.now);
    StepOpen(s, c, e);
    var s1 := Exec(s, Open(c, 0));
    StepAcquire(s1, c, e);
    var s2 := Exec(s1, Advance(c, PROMPT));
    StepBegin(s2, c, e, b);
    var s3 := Exec(s2, Advance(c, PROMPT));
    StepRenew(s3, c, e, b);
    RunFour(s, Open(c, 0), Advance(c, PROMPT), Advance(c, PROMPT), Advance(c, PROMPT), e.providerId);
    RunTwo(s, Open(c, 0), Advance(c, PROMPT), e.providerId);
    RunTwo(s1, Advance(c, PROMPT), Advance(c, PROMPT), e.providerId);
    RunTwo(s2, Advance(c, PROMPT), Advance(c, PROMPT), e.providerId);
    RunTwo(s3, Advance(c, PROMPT), Advance(c, PROMPT), e.providerId);
  }

  lemma SecondHalf(s: Sys, c: nat, e: Execution, b: Execution, r: Result)
    requires Mid(s, c, Calling, [b], [b], e, 0) && !r.Page?
    requires Fixed(b) && b.state == Running && b.providerId == e.providerId
    ensures var steps := FromCall(c, e, r);
            && Idle(Run(s, steps), [ApplyOne(b, r, s.now)]) && OthersSame(s, Run(s, steps), c)
            && Run(s, steps).store.sessions[0].expiresAt == s.now + S.SESSION_TTL
            && CallsIn(s, steps, 0, e.providerId) == 1
  {
    StepCall(s, c, e, b, r);
    var s1 := Exec(s, Advance(c, Calling1(e, r)));
    StepConfirm(s1, c, e, b, r);
    var s2 := Exec(s1, Advance(c, PROMPT));
    StepRecord(s2, c, e, b, r);
    var s3 := Exec(s2, Advance(c, PROMPT));
    StepRelease(s3, c, e, ApplyOne(b, r, s.now));
    RunFour(s, Advance(c, Calling1(e, r)), Advance(c, PROMPT), Advance(c, PROMPT), Advance(c, PROMPT), e.providerId);
    RunTwo(s, Advance(c, Calling1(e, r)), Advance(c, PROMPT), e.providerId);
    RunTwo(s1, Advance(c, PROMPT), Advance(c, PROMPT), e.providerId);
    RunTwo(s2, Advance(c, PROMPT), Advance(c, PROMPT), e.providerId);
    RunTwo(s3, Advance(c, PROMPT), Advance(c, PROMPT), e.providerId);
  }

  /** An undisturbed request calls the provider once and records the result. */
  lemma RequestRuns(s: Sys, c: nat, e: Execution, r: Result)
    requires Idle(s, [e]) && Fixed(e) && Runnable(e, s.now) && c !in s.clients && !r.Page?
    ensures var t := Run(s, Request8(c, e, r));
            && Idle(t, [ApplyOne(BeginOne(e, s.now), r, s.now)]) && OthersSame(s, t, c)
            && t.store.sessions[0].expiresAt == s.now + S.SESSION_TTL
            && CallsIn(s, Request8(c, e, r), 0, e.providerId) == 1
  {
    FirstHalf(s, c, e);
    BeginKeepsFixed(e, s.now);
    SecondHalf(Run(s, UpToCall(c)), c, e, BeginOne(e, s.now), r);
    RunConcat(s, UpToCall(c), FromCall(c, e, r));
    CallsConcat(s, UpToCall(c), FromCall(c, e, r), e.providerId);
    OthersTrans(s, Run(s, UpToCall(c)), Run(s, Request8(c, e, r)), c);
  }

  lemma OthersTrans(s: Sys, t: Sys, u: Sys, c: nat)
    requires OthersSame(s, t, c) && OthersSame(t, u, c)
    ensures OthersSame(s, u, c)
  {
  }

  // ---------------------------------------------------------------------------------
  // The run
  // ---------------------------------------------------------------------------------

  const FAILURE := Refused(true, None)

  /** The execution after a failed attempt at this time. */
  function After(e: Execution, now: int): Execution {
    ApplyOne(BeginOne(e, now), FAILURE, now)
  }

  function Draft1(e: Execution): S.Draft {
    S.Draft(S.Direct, S.InProgress, true, [], [e])
  }

  /** A first request fails and the provider has to be waited for; a second one reads that. */
  function Failed1(e: Execution): seq<Step> {
    [SaveDirect(Draft1(e))] + Request8(0, e, FAILURE)
  }

  function Wait1(e: Execution): seq<Step> {
    Failed1(e) + [Open(1, 0), Tick(2500)]
  }

  /** A third request makes the last attempt that the limit allows. */
  function Last1(e: Execution): seq<Step> {
    Wait1(e) + Request8(2, After(e, 0), FAILURE)
  }

  /** The second request writes the list that it read, and a fourth runs it. */
  function Stale1(e: Execution): seq<Step> {
    Last1(e) + [Advance(1, PROMPT)]
  }

  function Again1(e: Execution): seq<Step> {
    Stale1(e) + Request8(3, After(e, 0), FAILURE)
  }

  predicate FreshWithLimitTwo(e: Execution) {
    Fixed(e) && e.state == Pending && e.attemptCount == 0 && e.attemptsForCursor == 0 && e.maxAttempts == 2
  }

  lemma FirstFailure(e: Execution)
    requires FreshWithLimitTwo(e)
    ensures var x := After(e, 0);
            && Fixed(x) && x.state == RetryableFailure && x.attemptsForCursor == 1 && x.maxAttempts == 2
            && x.providerId == e.providerId && x.nextAttemptAt == At(2500)
            && !Runnable(x, 0) && RetryDelay(x, 0) > 0 && Runnable(x, 2500)
  {
    BeginKeepsFixed(e, 0);
    ApplyKeepsFixed(BeginOne(e, 0), FAILURE, 0);
  }

  lemma SecondFailure(x: Execution)
    requires Fixed(x) && x.state == RetryableFailure && x.attemptsForCursor == 1 && x.maxAttempts == 2
    requires Runnable(x, 2500)
    ensures After(x, 2500).state == TerminalFailure && After(x, 2500).providerId == x.providerId
  {
    BeginKeepsFixed(x, 2500);
    ApplyKeepsFixed(BeginOne(x, 2500), FAILURE, 2500);
  }

  lemma SavedDirect(e: Execution)
    ensures var s := Exec(Start(), SaveDirect(Draft1(e)));
            Idle(s, [e]) && s.now == 0 && s.clients == map[]
  {
  }

  /** A request that finds only a provider to wait for. */
  lemma OpensWaiting(s: Sys, x: Execution)
    requires Idle(s, [x]) && s.now == 0 && Fixed(x) && 1 !in s.clients
    requires x.state == RetryableFailure && !Runnable(x, 0) && RetryDelay(x, 0) > 0
    requires s.store.sessions[0].expiresAt > 2500
    ensures var t := Exec(Exec(s, Open(1, 0)), Tick(2500));
            && Idle(t, [x]) && t.now == 2500 && t.clients.Keys <= s.clients.Keys + {1}
            && 1 in t.clients && t.clients[1].id == 0 && t.clients[1].pc == Waiting && t.clients[1].executions == [x]
  {
    OneIsFixed(x);
    assert [x][1..] == [] && RunnableIn([x], 0) == [];
    assert Active([x][0].state) && RetryDelay([x][0], 0) > 0;
    assert Decide([x], 0) == Waiting;
  }

  lemma WritesBack(s: Sys, x: Execution, es: seq<Execution>)
    requires Idle(s, es)
    requires 1 in s.clients && s.clients[1].id == 0 && s.clients[1].pc == Waiting && s.clients[1].executions == [x]
    ensures var t := Exec(s, Advance(1, PROMPT));
            Idle(t, [x]) && t.now == s.now && t.clients.Keys == s.clients.Keys
  {
  }

  lemma NoCalls(s: Sys, a: Step, b: Step, p: ProviderId)
    requires !a.Advance? && !b.Advance?
    ensures CallsIn(s, [a], 0, p) == 0 && CallsIn(s, [a, b], 0, p) == 0
  {
    RunTwo(s, a, b, p);
    RunTwo(Exec(s, a), b, b, p);
  }

  predicate WaitingState(s: Sys, e: Execution) {
    && Idle(s, [After(e, 0)]) && s.now == 2500 && s.clients.Keys <= {0, 1}
    && 1 in s.clients && s.clients[1].id == 0 && s.clients[1].pc == Waiting && s.clients[1].executions == [After(e, 0)]
  }

  lemma WaitRun(e: Execution)
    requires FreshWithLimitTwo(e)
    ensures WaitingState(Run(Start(), Wait1(e)), e)
    ensures CallsIn(Start(), Wait1(e), 0, e.providerId) == 1
  {
    var p := e.providerId;
    FailedRun(e);
    FirstFailure(e);
    var s := Run(Start(), Failed1(e));
    OpensWaiting(s, After(e, 0));
    RunTwo(s, Open(1, 0), Tick(2500), p);
    NoCalls(s, Open(1, 0), Tick(2500), p);
    RunConcat(Start(), Failed1(e), [Open(1, 0), Tick(2500)]);
    CallsConcat(Start(), Failed1(e), [Open(1, 0), Tick(2500)], p);
  }

  lemma FailedRun(e: Execution)
    requires FreshWithLimitTwo(e)
    ensures var s := Run(Start(), Failed1(e));
            && Idle(s, [After(e, 0)]) && s.now == 0 && s.clients.Keys <= {0}
            && s.store.sessions[0].expiresAt == S.SESSION_TTL
    ensures CallsIn(Start(), Failed1(e), 0, e.providerId) == 1
  {
    var a := [SaveDirect(Draft1(e))];
    SavedDirect(e);
    RunTwo(Start(), a[0], a[0], e.providerId);
    NoCalls(Start(), a[0], a[0], e.providerId);
    PendingRuns(e);
    RequestRuns(Run(Start(), a), 0, e, FAILURE);
    RunConcat(Start(), a, Request8(0, e, FAILURE));
    CallsConcat(Start(), a, Request8(0, e, FAILURE), e.providerId);
  }

  lemma PendingRuns(e: Execution)
    requires Fixed(e) && e.state == Pending
    ensures Runnable(e, 0)
  {
  }

  predicate LastState(s: Sys, e: Execution) {
    && Idle(s, [After(After(e, 0), 2500)]) && s.now == 2500 && s.clients.Keys <= {0, 1, 2}
    && 1 in s.clients && s.clients[1].id == 0 && s.clients[1].pc == Waiting && s.clients[1].executions == [After(e, 0)]
  }

  lemma LastRun(e: Execution)
    requires FreshWithLimitTwo(e)
    ensures LastState(Run(Start(), Last1(e)), e)
    ensures CallsIn(Start(), Last1(e), 0, e.providerId) == 2
  {
    WaitRun(e);
    FirstFailure(e);
    var s := Run(Start(), Wait1(e));
    RequestRuns(s, 2, After(e, 0), FAILURE);
    RunConcat(Start(), Wait1(e), Request8(2, After(e, 0), FAILURE));
    CallsConcat(Start(), Wait1(e), Request8(2, After(e, 0), FAILURE), e.providerId);
  }

  lemma StaleRun(e: Execution)
    requires FreshWithLimitTwo(e)
    ensures var s := Run(Start(), Stale1(e)); Idle(s, [After(e, 0)]) && s.now == 2500 && s.clients.Keys <= {0, 1, 2}
    ensures CallsIn(Start(), Stale1(e), 0, e.providerId) == 2
  {
    LastRun(e);
    var s := Run(Start(), Last1(e));
    WritesBack(s, After(e, 0), [After(After(e, 0), 2500)]);
    RunTwo(s, Advance(1, PROMPT), Advance(1, PROMPT), e.providerId);
    RunConcat(Start(), Last1(e), [Advance(1, PROMPT)]);
    CallsConcat(Start(), Last1(e), [Advance(1, PROMPT)], e.providerId);
  }

  /** For every fresh execution with a limit of two there is a run of the protocol, from its
      start, with one cursor and no recovery, in which a poll that waited writes back the list
      that it had read: the execution had ended and can run again, and the provider is called a
      third time on that cursor. */
  lemma StaleListAllowsAnotherCall(e: Execution)
    requires FreshWithLimitTwo(e)
    ensures var ended, back := Run(Start(), Last1(e)), Run(Start(), Stale1(e));
            && 0 in ended.store.sessions && |ended.store.sessions[0].executions| == 1
            && ended.store.sessions[0].executions[0].state == TerminalFailure
            && 0 in back.store.sessions && |back.store.sessions[0].executions| == 1
            && back.store.sessions[0].executions[0].continuation == e.continuation
            && Runnable(back.store.sessions[0].executions[0], back.now)
    ensures CallsIn(Start(), Again1(e), 0, e.providerId) == 3 > e.maxAttempts
  {
    FirstFailure(e);
    SecondFailure(After(e, 0));
    LastRun(e);
    StaleRun(e);
    SameCursor(e);
    var s := Run(Start(), Stale1(e));
    RequestRuns(s, 3, After(e, 0), FAILURE);
    CallsConcat(Start(), Stale1(e), Request8(3, After(e, 0), FAILURE), e.providerId);
  }

  lemma SameCursor(e: Execution)
    requires FreshWithLimitTwo(e)
    ensures After(e, 0).continuation == e.continuation
  {
    BeginKeepsFixed(e, 0);
  }
}
