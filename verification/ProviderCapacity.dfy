// The in-process capacity coordinator for provider operations: a two-level semaphore
// (global and per provider) in front of a bounded queue whose waiters can be aborted.

module ProviderCapacity {

  type CallId = nat
  type ProviderId = nat

  datatype Limits = Limits(active: nat, perProvider: nat, queued: nat, queuedPerProvider: nat)

  datatype Waiter = Waiter(id: CallId, provider: ProviderId)

  /** `active`, `counts` and `queue` are the coordinator's own variables. `held` lists the
      granted operations that have not been released, `granted` all that ever were, in
      order, and `aborted` the calls whose signal has fired. */
  datatype Pool = Pool(
    limits: Limits,
    active: nat,
    counts: map<ProviderId, nat>,
    queue: seq<Waiter>,
    held: seq<Waiter>,
    granted: seq<Waiter>,
    aborted: set<CallId>)

  function Empty(limits: Limits): Pool {
    Pool(limits, 0, map[], [], [], [], {})
  }

  function ActiveFor(counts: map<ProviderId, nat>, p: ProviderId): nat {
    if p in counts then counts[p] else 0
  }

  predicate CanStart(s: Pool, p: ProviderId) {
    s.active < s.limits.active && ActiveFor(s.counts, p) < s.limits.perProvider
  }

  /** How many of these operations are the provider's. */
  function Tally(ws: seq<Waiter>, p: ProviderId): nat {
    if ws == [] then 0
    else Tally(ws[..|ws| - 1], p) + (if ws[|ws| - 1].provider == p then 1 else 0)
  }

  function Without(ws: seq<Waiter>, i: nat): seq<Waiter>
    requires i < |ws|
  {
    ws[..i] + ws[i + 1..]
  }

  /** The place of a call in a list, or the list's length. */
  function PlaceOf(ws: seq<Waiter>, id: CallId): (i: nat)
    ensures i <= |ws|
    ensures i < |ws| ==> ws[i].id == id
    ensures forall j :: 0 <= j < i ==> ws[j].id != id
  {
    if ws == [] then 0
    else if ws[0].id == id then 0
    else
      var i := PlaceOf(ws[1..], id);
      assert forall j :: 1 <= j < i + 1 ==> ws[j] == ws[1..][j - 1];
      i + 1
  }

  // ---------------------------------------------------------------------------------
  // The operations as functions
  // ---------------------------------------------------------------------------------

  function Grant(s: Pool, w: Waiter): Pool {
    s.(active := s.active + 1,
       counts := s.counts[w.provider := ActiveFor(s.counts, w.provider) + 1],
       held := s.held + [w],
       granted := s.granted + [w])
  }

  /** The first waiter, in queue order, whose provider may start an operation. */
  function FirstStartable(s: Pool, from: nat): (i: nat)
    requires from <= |s.queue|
    ensures from <= i <= |s.queue|
    ensures i < |s.queue| ==> CanStart(s, s.queue[i].provider)
    ensures forall j :: from <= j < i ==> !CanStart(s, s.queue[j].provider)
    decreases |s.queue| - from
  {
    if from == |s.queue| || CanStart(s, s.queue[from].provider) then from
    else FirstStartable(s, from + 1)
  }

  function Drain(s: Pool): Pool
    decreases |s.queue|
  {
    if s.active >= s.limits.active || s.queue == [] then s
    else
      var i := FirstStartable(s, 0);
      if i == |s.queue| then s
      else
        var w := s.queue[i];
        var t := s.(queue := Without(s.queue, i));
        Drain(if w.id in s.aborted then t else Grant(t, w))
  }

  datatype Answer = AlreadyAborted | Granted | CapacityExceeded | Enqueued

  function Acquire(s: Pool, w: Waiter): (Pool, Answer) {
    if w.id in s.aborted then (s, AlreadyAborted)
    else if CanStart(s, w.provider) then (Grant(s, w), Granted)
    else if |s.queue| >= s.limits.queued || Tally(s.queue, w.provider) >= s.limits.queuedPerProvider then
      (s, CapacityExceeded)
    else (Drain(s.(queue := s.queue + [w])), Enqueued)
  }

  /** `Math.max(0, n - 1)`. */
  function Lower(n: nat): nat {
    if n > 0 then n - 1 else 0
  }

  function Lowered(counts: map<ProviderId, nat>, p: ProviderId): map<ProviderId, nat> {
    var n := Lower(ActiveFor(counts, p));
    if n > 0 then counts[p := n] else counts - {p}
  }

  /** The release function of a grant works once. */
  function Release(s: Pool, id: CallId): (Pool, bool) {
    var i := PlaceOf(s.held, id);
    if i == |s.held| then (s, false)
    else
      (Drain(s.(active := Lower(s.active),
                counts := Lowered(s.counts, s.held[i].provider),
                held := Without(s.held, i))), true)
  }

  /** The signal of a call fires; a waiter leaves the queue at once. */
  function Abort(s: Pool, id: CallId): Pool {
    var i := PlaceOf(s.queue, id);
    s.(aborted := s.aborted + {id},
       queue := if i < |s.queue| then Without(s.queue, i) else s.queue)
  }

  // ---------------------------------------------------------------------------------
  // The invariant
  // ---------------------------------------------------------------------------------

  ghost predicate Counted(s: Pool) {
    && s.active == |s.held|
    && (forall p :: ActiveFor(s.counts, p) == Tally(s.held, p))
    && (forall p <- s.counts :: s.counts[p] > 0)
  }

  ghost predicate Bounded(s: Pool) {
    && s.active <= s.limits.active
    && (forall p :: Tally(s.held, p) <= s.limits.perProvider)
    && |s.queue| <= s.limits.queued
    && (forall p :: Tally(s.queue, p) <= s.limits.queuedPerProvider)
  }

  /** Waiters queue in order of arrival; each provider's grants are in order of arrival and
      before everything of that provider that still waits. */
  ghost predicate InOrder(s: Pool) {
    && (forall i, j :: 0 <= i < j < |s.queue| ==> s.queue[i].id < s.queue[j].id)
    && (forall i, j :: 0 <= i < j < |s.granted| && s.granted[i].provider == s.granted[j].provider
          ==> s.granted[i].id < s.granted[j].id)
    && (forall i, j :: 0 <= i < |s.granted| && 0 <= j < |s.queue|
          ==> s.granted[i].provider != s.queue[j].provider || s.granted[i].id < s.queue[j].id)
  }

  ghost predicate HeldOnce(s: Pool) {
    && (forall i, j :: 0 <= i < j < |s.held| ==> s.held[i].id != s.held[j].id)
    && (forall i, j :: 0 <= i < |s.held| && 0 <= j < |s.queue| ==> s.held[i].id != s.queue[j].id)
    && (forall i :: 0 <= i < |s.queue| ==> s.queue[i].id !in s.aborted)
  }

  /** All of the invariant but work conservation: what holds inside an operation. */
  ghost predicate Sound(s: Pool) {
    Counted(s) && Bounded(s) && InOrder(s) && HeldOnce(s)
  }

  /** No queued waiter could start. */
  ghost predicate WorkConserving(s: Pool) {
    forall i :: 0 <= i < |s.queue| ==> !CanStart(s, s.queue[i].provider)
  }

  ghost predicate Valid(s: Pool) {
    Sound(s) && WorkConserving(s)
  }

  // ---------------------------------------------------------------------------------
  // Counting lemmas
  // ---------------------------------------------------------------------------------

  lemma TallyAppend(ws: seq<Waiter>, w: Waiter, p: ProviderId)
    ensures Tally(ws + [w], p) == Tally(ws, p) + (if w.provider == p then 1 else 0)
  {
    assert (ws + [w])[..|ws|] == ws;
  }

  lemma {:induction false} TallyWithout(ws: seq<Waiter>, i: nat, p: ProviderId)
    requires i < |ws|
    ensures Tally(Without(ws, i), p) == Tally(ws, p) - (if ws[i].provider == p then 1 else 0)
    ensures ws[i].provider == p ==> Tally(ws, p) > 0
    decreases |ws|
  {
    var n := |ws| - 1;
    if i == n {
      assert Without(ws, i) == ws[..n];
    } else {
      TallyWithout(ws[..n], i, p);
      assert Without(ws, i) == Without(ws[..n], i) + [ws[n]];
      TallyAppend(Without(ws[..n], i), ws[n], p);
    }
  }

  lemma WithoutElements(ws: seq<Waiter>, i: nat)
    requires i < |ws|
    ensures |Without(ws, i)| == |ws| - 1
    ensures forall j :: 0 <= j < |ws| - 1 ==>
              Without(ws, i)[j] == ws[if j < i then j else j + 1]
  {
  }

  // ---------------------------------------------------------------------------------
  // Preservation
  // ---------------------------------------------------------------------------------

  lemma GrantKeeps(s: Pool, w: Waiter)
    requires Sound(s) && CanStart(s, w.provider)
    requires forall i :: 0 <= i < |s.held| ==> s.held[i].id != w.id
    requires forall j :: 0 <= j < |s.queue| ==> s.queue[j].id != w.id
    requires forall i :: 0 <= i < |s.granted| && s.granted[i].provider == w.provider ==>
               s.granted[i].id < w.id
    requires forall j :: 0 <= j < |s.queue| && s.queue[j].provider == w.provider ==>
               w.id < s.queue[j].id
    ensures Sound(Grant(s, w))
  {
    var t := Grant(s, w);
    forall p
      ensures ActiveFor(t.counts, p) == Tally(t.held, p) && Tally(t.held, p) <= s.limits.perProvider
    {
      TallyAppend(s.held, w, p);
      assert ActiveFor(s.counts, p) == Tally(s.held, p);
    }
  }

  lemma UnqueueKeeps(s: Pool, i: nat)
    requires Sound(s) && i < |s.queue|
    ensures Sound(s.(queue := Without(s.queue, i)))
  {
    WithoutElements(s.queue, i);
    forall p ensures Tally(Without(s.queue, i), p) <= s.limits.queuedPerProvider {
      TallyWithout(s.queue, i, p);
      assert Tally(s.queue, p) <= s.limits.queuedPerProvider;
    }
  }

  /** Granting the first startable waiter overtakes nobody of its provider: an earlier
      waiter of the same provider would have been startable too. */
  lemma GrantFirstKeeps(s: Pool, i: nat)
    requires Sound(s) && i < |s.queue| && CanStart(s, s.queue[i].provider)
    requires forall j :: 0 <= j < i ==> !CanStart(s, s.queue[j].provider)
    ensures Sound(Grant(s.(queue := Without(s.queue, i)), s.queue[i]))
  {
    UnqueueKeeps(s, i);
    WithoutElements(s.queue, i);
    var t := s.(queue := Without(s.queue, i));
    var w := s.queue[i];
    forall j | 0 <= j < |t.queue|
      ensures t.queue[j].id != w.id
      ensures t.queue[j].provider == w.provider ==> w.id < t.queue[j].id
    {
      assert t.queue[j] == s.queue[if j < i then j else j + 1];
    }
    GrantKeeps(t, w);
  }

  lemma {:induction false} DrainKeeps(s: Pool)
    requires Sound(s)
    ensures Valid(Drain(s))
    ensures Drain(s).limits == s.limits && Drain(s).aborted == s.aborted
    decreases |s.queue|
  {
    if s.active < s.limits.active && s.queue != [] {
      var i := FirstStartable(s, 0);
      if i < |s.queue| {
        GrantFirstKeeps(s, i);
        DrainKeeps(Grant(s.(queue := Without(s.queue, i)), s.queue[i]));
      }
    }
  }

  lemma DrainAtRest(s: Pool)
    requires WorkConserving(s)
    ensures Drain(s) == s
  {
  }

  lemma EnqueueKeeps(s: Pool, w: Waiter)
    requires Valid(s) && w.id !in s.aborted
    requires |s.queue| < s.limits.queued && Tally(s.queue, w.provider) < s.limits.queuedPerProvider
    requires NewId(s, w.id)
    ensures Sound(s.(queue := s.queue + [w]))
  {
    forall p ensures Tally(s.queue + [w], p) <= s.limits.queuedPerProvider {
      TallyAppend(s.queue, w, p);
      assert Tally(s.queue, p) <= s.limits.queuedPerProvider;
    }
  }

  /** Call ids are drawn in order of arrival. */
  ghost predicate NewId(s: Pool, id: CallId) {
    && (forall i :: 0 <= i < |s.granted| ==> s.granted[i].id < id)
    && (forall i :: 0 <= i < |s.held| ==> s.held[i].id < id)
    && (forall i :: 0 <= i < |s.queue| ==> s.queue[i].id < id)
  }

  /** An arriving operation keeps the pool valid. It is granted at once only if nobody of
      its provider waits, and queued only if it cannot start, so queuing it starts nobody. */
  lemma AcquireKeeps(s: Pool, w: Waiter)
    requires Valid(s) && NewId(s, w.id)
    ensures Valid(Acquire(s, w).0)
    ensures Acquire(s, w).1 == Granted ==>
              && Acquire(s, w).0 == Grant(s, w)
              && forall i :: 0 <= i < |s.queue| ==> s.queue[i].provider != w.provider
    ensures Acquire(s, w).1 == Enqueued ==> Acquire(s, w).0 == s.(queue := s.queue + [w])
    ensures Acquire(s, w).1 == CapacityExceeded || Acquire(s, w).1 == AlreadyAborted ==>
              Acquire(s, w).0 == s
  {
    var r := Acquire(s, w);
    if r.1 == Granted {
      GrantKeeps(s, w);
    } else if r.1 == Enqueued {
      EnqueueKeeps(s, w);
      var q := s.(queue := s.queue + [w]);
      assert WorkConserving(q);
      DrainAtRest(q);
    }
  }

  lemma LoweredTallies(s: Pool, i: nat)
    requires Counted(s) && i < |s.held|
    ensures s.active > 0 && ActiveFor(s.counts, s.held[i].provider) > 0
    ensures Counted(s.(active := Lower(s.active), counts := Lowered(s.counts, s.held[i].provider),
                       held := Without(s.held, i)))
  {
    var p := s.held[i].provider;
    TallyWithout(s.held, i, p);
    assert ActiveFor(s.counts, p) == Tally(s.held, p);
    var c := Lowered(s.counts, p);
    forall q ensures ActiveFor(c, q) == Tally(Without(s.held, i), q) {
      TallyWithout(s.held, i, q);
      assert ActiveFor(s.counts, q) == Tally(s.held, q);
    }
  }

  /** Releasing a held operation never meets the zero clamps, and releasing it again, or
      one that was never granted, changes nothing. */
  lemma ReleaseKeeps(s: Pool, id: CallId)
    requires Valid(s)
    ensures Valid(Release(s, id).0)
    ensures Release(s, id).1 <==> exists i :: 0 <= i < |s.held| && s.held[i].id == id
    ensures !Release(s, id).1 ==> Release(s, id).0 == s
    ensures Release(s, id).1 ==>
              s.active > 0 && ActiveFor(s.counts, s.held[PlaceOf(s.held, id)].provider) > 0
  {
    var i := PlaceOf(s.held, id);
    if i < |s.held| {
      LoweredTallies(s, i);
      WithoutElements(s.held, i);
      var t := s.(active := Lower(s.active), counts := Lowered(s.counts, s.held[i].provider),
                  held := Without(s.held, i));
      forall p ensures Tally(t.held, p) <= s.limits.perProvider {
        TallyWithout(s.held, i, p);
        assert Tally(s.held, p) <= s.limits.perProvider;
      }
      DrainKeeps(t);
    }
  }

  lemma RemainingWaiters(s: Pool, i: nat, j: nat)
    requires Valid(s) && i < |s.queue| && j < |Without(s.queue, i)|
    ensures var w := Without(s.queue, i)[j];
            w.id != s.queue[i].id && w.id !in s.aborted && !CanStart(s, w.provider)
  {
    WithoutElements(s.queue, i);
    var k := if j < i then j else j + 1;
    assert Without(s.queue, i)[j] == s.queue[k];
    assert !CanStart(s, s.queue[k].provider);
  }

  lemma AbortWaiterKeeps(s: Pool, i: nat)
    requires Valid(s) && i < |s.queue|
    ensures Valid(s.(aborted := s.aborted + {s.queue[i].id}, queue := Without(s.queue, i)))
  {
    UnqueueKeeps(s, i);
    var t := s.(aborted := s.aborted + {s.queue[i].id}, queue := Without(s.queue, i));
    forall j | 0 <= j < |t.queue|
      ensures t.queue[j].id !in t.aborted && !CanStart(t, t.queue[j].provider)
    {
      RemainingWaiters(s, i, j);
    }
  }

  lemma AbortKeeps(s: Pool, id: CallId)
    requires Valid(s)
    ensures Valid(Abort(s, id))
    ensures Abort(s, id).held == s.held && Abort(s, id).granted == s.granted
  {
    var i := PlaceOf(s.queue, id);
    if i < |s.queue| {
      AbortWaiterKeeps(s, i);
    }
  }

  // ---------------------------------------------------------------------------------
  // The sum of the per-provider counts
  // ---------------------------------------------------------------------------------

  ghost function Sum(m: map<ProviderId, nat>): nat {
    if m == map[] then 0
    else
      var p :| p in m;
      m[p] + Sum(m - {p})
  }

  lemma {:induction false} SumRemove(m: map<ProviderId, nat>, p: ProviderId)
    requires p in m
    ensures Sum(m) == m[p] + Sum(m - {p})
    decreases m
  {
    var q :| q in m && Sum(m) == m[q] + Sum(m - {q});
    if q != p {
      SumRemove(m - {q}, p);
      SumRemove(m - {p}, q);
      assert (m - {q}) - {p} == (m - {p}) - {q};
    }
  }

  lemma {:induction false} SumIsTotal(m: map<ProviderId, nat>, ws: seq<Waiter>)
    requires forall p :: ActiveFor(m, p) == Tally(ws, p)
    ensures Sum(m) == |ws|
    decreases |ws|, |m|
  {
    if ws == [] {
      if m != map[] {
        var p :| p in m && Sum(m) == m[p] + Sum(m - {p});
        assert m[p] == ActiveFor(m, p) == 0;
        assert forall q :: ActiveFor(m - {p}, q) == if q == p then 0 else ActiveFor(m, q);
        SumIsTotal(m - {p}, ws);
      }
    } else {
      var n := |ws| - 1;
      var p := ws[n].provider;
      assert ActiveFor(m, p) == Tally(ws, p) > 0;
      var m' := m[p := m[p] - 1];
      forall q ensures ActiveFor(m', q) == Tally(ws[..n], q) {
        assert ActiveFor(m, q) == Tally(ws, q);
      }
      SumIsTotal(m', ws[..n]);
      SumRemove(m, p);
      SumRemove(m', p);
      assert m - {p} == m' - {p};
    }
  }

  /** The global count is the sum of the per-provider counts. */
  lemma ActiveIsSum(s: Pool)
    requires Valid(s)
    ensures s.active == Sum(s.counts)
  {
    SumIsTotal(s.counts, s.held);
  }
}
