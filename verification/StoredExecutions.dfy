// How the stored executions of a search move under the continuation protocol: by the begins
// and results of requests that hold the lease, by recovery, and otherwise only when a write
// without a lease brings back an older list.

module StoredExecutions {
  import opened Common
  import opened ProviderExecutions
  import opened ContinuationPass
  import opened ContinuationProtocol
  import opened ContinuationExclusion
  import opened ContinuationLoss
  import S = SearchSessions
  import L = ContinuationLease
  import R = RetryBounds

  // ---------------------------------------------------------------------------------
  // Lists as their readers see them
  // ---------------------------------------------------------------------------------

  /** A stored list in the normal form in which every reader's computation leaves it. */
  function View(raw: seq<Execution>): seq<Execution> {
    NormalizeList(NormalizeList(raw))
  }

  lemma ViewIsFixed(raw: seq<Execution>)
    ensures FixedList(View(raw)) && NormalizeList(View(raw)) == View(raw)
    ensures View(NormalizeList(raw)) == View(raw) && View(View(raw)) == View(raw)
  {
    TwiceNormalizedIsFixed(raw);
  }

  lemma FixedView(es: seq<Execution>)
    requires FixedList(es)
    ensures View(es) == es
  {
    FixedListStays(es);
  }

  lemma ViewAt(raw: seq<Execution>, i: nat)
    requires i < |NormalizeList(raw)|
    ensures |View(raw)| == |NormalizeList(raw)| && View(raw)[i] == Normalize(NormalizeList(raw)[i])
    ensures View(raw)[i].providerId == NormalizeList(raw)[i].providerId
  {
    NormalizedListIsNormal(raw);
    DistinctEntries(NormalizeList(raw));
  }

  lemma ViewIsEach(raw: seq<Execution>)
    ensures View(raw) == NormalizeEach(NormalizeList(raw))
  {
    NormalizedListIsNormal(raw);
    DistinctEntries(NormalizeList(raw));
    assert View(raw) == NormalizeEach(NormalizeList(raw));
  }

  /** Whether an execution can run does not depend on how often it was normalised. */
  lemma RunnableNormal(e: Execution, now: int)
    requires now >= 0
    ensures Runnable(Normalize(e), now) <==> Runnable(e, now)
  {
  }

  // ---------------------------------------------------------------------------------
  // Moves of a list
  // ---------------------------------------------------------------------------------

  /** What one step does to a stored list as a whole. */
  datatype ListMove =
    | Stay
    | BeginAll(since: int)
    | FinishOne(provider: ProviderId, result: Result, now: int)
    | RecoverEach

  /** The move of one provider's execution within it. */
  function MoveOf(m: ListMove, p: ProviderId): Option<Move> {
    match m
    case Stay => None
    case BeginAll(since) => Some(Begin(since))
    case FinishOne(provider, result, now) => if provider == p then Some(Finish(result, now)) else None
    case RecoverEach => Some(Recover)
  }

  function MovedOne(e: Execution, m: ListMove): Execution {
    match MoveOf(m, e.providerId)
    case None => e
    case Some(move) => R.Move1(e, move)
  }

  function MovedList(es: seq<Execution>, m: ListMove): (r: seq<Execution>)
    ensures |r| == |es| && forall i :: 0 <= i < |es| ==> r[i] == MovedOne(es[i], m)
  {
    seq(|es|, i requires 0 <= i < |es| => MovedOne(es[i], m))
  }

  function Recovered(es: seq<Execution>): seq<Execution> {
    MovedList(es, RecoverEach)
  }

  lemma RecoverKeepsFixed(e: Execution)
    requires Fixed(e)
    ensures Fixed(Normalize(RecoverOne(e))) && Normalize(RecoverOne(e)).providerId == e.providerId
    ensures Normalize(RecoverOne(e)) == R.Move1(e, Recover)
  {
    NormalizeEffect(e);
  }

  lemma RecoveredAt(raw: seq<Execution>, i: nat)
    requires i < |View(raw)|
    ensures |RecoverAll(NormalizeList(raw))| == |View(raw)|
    ensures RecoverAll(NormalizeList(raw))[i] == RecoverOne(View(raw)[i])
    ensures RecoverAll(NormalizeList(raw))[i].providerId == View(raw)[i].providerId
  {
  }

  lemma RecoveredIsDistinct(raw: seq<Execution>)
    ensures DistinctProviders(RecoverAll(NormalizeList(raw)))
  {
    ViewIsFixed(raw);
    var w := RecoverAll(NormalizeList(raw));
    forall i, j | 0 <= i < j < |w| ensures w[i].providerId != w[j].providerId {
      RecoveredAt(raw, i);
      RecoveredAt(raw, j);
    }
  }

  lemma RecoveredEach(raw: seq<Execution>)
    ensures var v, r := View(raw), NormalizeEach(RecoverAll(NormalizeList(raw)));
            r == Recovered(v) && forall i :: 0 <= i < |r| ==> Fixed(r[i]) && r[i].providerId == v[i].providerId
  {
    ViewIsFixed(raw);
    var v, r := View(raw), NormalizeEach(RecoverAll(NormalizeList(raw)));
    forall i | 0 <= i < |v| ensures r[i] == Recovered(v)[i] && Fixed(r[i]) && r[i].providerId == v[i].providerId {
      RecoveredAt(raw, i);
      RecoverKeepsFixed(v[i]);
    }
    assert r == Recovered(v);
  }

  /** The list that a request recovers is seen as the recovery of the list that it read. */
  lemma RecoveredView(raw: seq<Execution>)
    ensures View(RecoverAll(NormalizeList(raw))) == Recovered(View(raw))
  {
    ViewIsFixed(raw);
    RecoveredIsDistinct(raw);
    RecoveredEach(raw);
    DistinctEntries(RecoverAll(NormalizeList(raw)));
    assert NormalizeList(RecoverAll(NormalizeList(raw))) == Recovered(View(raw));
    FixedListStays(Recovered(View(raw)));
  }

  // ---------------------------------------------------------------------------------
  // Beginning
  // ---------------------------------------------------------------------------------

  predicate SamePlaces(a: seq<Execution>, b: seq<Execution>) {
    |a| == |b| && forall k :: 0 <= k < |a| ==> a[k].providerId == b[k].providerId
  }

  lemma {:induction false} BeginsByProvider(es: seq<Execution>, a: seq<Execution>, b: seq<Execution>, now: int)
    requires SamePlaces(a, b)
    ensures BeginEach(es, a, now) == BeginEach(es, b, now)
    decreases |a|
  {
    if a != [] {
      assert SamePlaces(a[1..], b[1..]);
      BeginsByProvider(BeginIn(es, a[0].providerId, now), a[1..], b[1..], now);
    }
  }

  lemma {:induction false} SameRunnable(a: seq<Execution>, now: int)
    requires now >= 0
    ensures SamePlaces(RunnableIn(a, now), RunnableIn(NormalizeEach(a), now))
    decreases |a|
  {
    if a != [] {
      SameRunnable(a[1..], now);
      RunnableNormal(a[0], now);
      assert NormalizeEach(a)[1..] == NormalizeEach(a[1..]);
    }
  }

  lemma ViewRunnable(raw: seq<Execution>, now: int)
    requires now >= 0
    ensures SamePlaces(RunnableIn(NormalizeList(raw), now), RunnableIn(View(raw), now))
  {
    ViewIsEach(raw);
    SameRunnable(NormalizeList(raw), now);
  }

  lemma FirstBeginIsOnView(raw: seq<Execution>, p: ProviderId, now: int)
    requires Position(View(raw), p) < |View(raw)| && Runnable(View(raw)[Position(View(raw), p)], now)
    ensures BeginIn(NormalizeList(raw), p, now) == BeginIn(View(raw), p, now)
  {
    ViewIsFixed(raw);
  }

  /** What a request begins is, to every reader, the begin of each runnable execution of the
      list it read under its lease. */
  lemma BegunView(raw: seq<Execution>, now: int)
    requires now >= 0
    ensures var b := BeginEach(NormalizeList(raw), RunnableIn(NormalizeList(raw), now), now);
            && View(b) == MovedList(View(raw), BeginAll(now))
            && (RunnableIn(NormalizeList(raw), now) != [] ==> FixedList(b) && b == MovedList(View(raw), BeginAll(now)))
  {
    if RunnableIn(NormalizeList(raw), now) == [] {
      NothingBegins(raw, now);
    } else {
      SomethingBegins(raw, now);
      ViewIsFixed(raw);
      BegunList(View(raw), now);
      BegunIsMoved(View(raw), now);
      FixedView(MovedList(View(raw), BeginAll(now)));
    }
  }

  lemma NothingBegins(raw: seq<Execution>, now: int)
    requires now >= 0 && RunnableIn(NormalizeList(raw), now) == []
    ensures MovedList(View(raw), BeginAll(now)) == View(raw) == View(NormalizeList(raw))
  {
    var v := View(raw);
    ViewIsFixed(raw);
    ViewRunnable(raw, now);
    RunnableInEffect(v, now);
    forall i | 0 <= i < |v| ensures MovedOne(v[i], BeginAll(now)) == v[i] {
      assert v[i] in v;
    }
  }

  lemma SomethingBegins(raw: seq<Execution>, now: int)
    requires now >= 0 && RunnableIn(NormalizeList(raw), now) != []
    ensures BeginEach(NormalizeList(raw), RunnableIn(NormalizeList(raw), now), now)
            == BeginEach(View(raw), RunnableIn(View(raw), now), now)
  {
    var v := View(raw);
    var a, r := RunnableIn(NormalizeList(raw), now), RunnableIn(v, now);
    ViewIsFixed(raw);
    ViewRunnable(raw, now);
    RunnableInEffect(v, now);
    assert r[0] in r;
    var j :| 0 <= j < |v| && v[j] == r[0];
    PositionAt(v, j);
    FirstBeginIsOnView(raw, a[0].providerId, now);
    BeginsByProvider(v, a, r, now);
  }

  lemma BegunIsMoved(v: seq<Execution>, now: int)
    requires FixedList(v)
    ensures BeginEach(v, RunnableIn(v, now), now) == MovedList(v, BeginAll(now))
  {
    BegunList(v, now);
  }

  /** Every execution that was begun is running. */
  predicate RunningAt(es: seq<Execution>, p: ProviderId) {
    Position(es, p) < |es| && es[Position(es, p)].state == Running
  }

  lemma BegunRuns(raw: seq<Execution>, now: int, k: nat)
    requires now >= 0 && k < |RunnableIn(NormalizeList(raw), now)|
    ensures var a := RunnableIn(NormalizeList(raw), now);
            RunningAt(BeginEach(NormalizeList(raw), a, now), a[k].providerId)
  {
    var v := View(raw);
    var a, r := RunnableIn(NormalizeList(raw), now), RunnableIn(v, now);
    ViewIsFixed(raw);
    ViewRunnable(raw, now);
    BegunView(raw, now);
    RunnableInEffect(v, now);
    assert r[k] in r;
    var j :| 0 <= j < |v| && v[j] == r[k];
    var b := MovedList(v, BeginAll(now));
    BeginKeepsFixed(v[j], now);
    PositionAt(b, j);
  }

  lemma RunnableAreDistinct(raw: seq<Execution>, now: int)
    ensures DistinctProviders(RunnableIn(NormalizeList(raw), now))
  {
    NormalizedListIsNormal(raw);
    RunnableInEffect(NormalizeList(raw), now);
  }

  /** A begun provider could run when its request acquired the lease. */
  lemma NamedRuns(raw: seq<Execution>, now: int, i: nat)
    requires now >= 0 && i < |View(raw)|
    ensures Names(RunnableIn(NormalizeList(raw), now), View(raw)[i].providerId) <==> Runnable(View(raw)[i], now)
  {
    var v := View(raw);
    ViewIsFixed(raw);
    ViewRunnable(raw, now);
    var a, r := RunnableIn(NormalizeList(raw), now), RunnableIn(v, now);
    NamedIsRunnable(v, r, i, now);
    if Names(a, v[i].providerId) {
      var k :| 0 <= k < |a| && a[k].providerId == v[i].providerId;
      assert r[k] in r;
    }
    if Names(r, v[i].providerId) {
      var k :| 0 <= k < |r| && r[k].providerId == v[i].providerId;
      assert a[k] in a;
    }
  }
}
