// The capacity coordinator in place: a global count, a map of per-provider counts and a
// queue, changed by acquire, release, abort and the drain loop.

module CapacityCoordinator {
  import opened ProviderCapacity

  /** Which grants were released: none that is held, none that still waits, and every grant
      that is no longer held. */
  ghost predicate Linked(s: Pool, released: set<CallId>) {
    && (forall i :: 0 <= i < |s.held| ==> s.held[i].id !in released)
    && (forall i :: 0 <= i < |s.queue| ==> s.queue[i].id !in released)
    && (forall g <- s.granted :: g.id in released || g in s.held)
  }

  lemma {:induction false} DrainLinks(s: Pool, released: set<CallId>)
    requires Linked(s, released)
    ensures Linked(Drain(s), released)
    ensures forall g <- s.granted :: g in Drain(s).granted
    decreases |s.queue|
  {
    if s.active < s.limits.active && s.queue != [] {
      var i := FirstStartable(s, 0);
      if i < |s.queue| {
        WithoutElements(s.queue, i);
        var t := s.(queue := Without(s.queue, i));
        DrainLinks(if s.queue[i].id in s.aborted then t else Grant(t, s.queue[i]), released);
      }
    }
  }

  class Coordinator {
    const limits: Limits
    var active: nat
    var counts: map<ProviderId, nat>
    var queue: seq<Waiter>
    var aborted: set<CallId>
    var released: set<CallId>
    ghost var held: seq<Waiter>
    ghost var granted: seq<Waiter>

    ghost function State(): Pool
      reads this
    {
      Pool(limits, active, counts, queue, held, granted, aborted)
    }

    ghost predicate Consistent()
      reads this
    {
      Valid(State()) && Linked(State(), released)
    }

    constructor (limits: Limits)
      ensures State() == Empty(limits) && Consistent()
    {
      this.limits := limits;
      active, counts, queue, aborted, released := 0, map[], [], {}, {};
      held, granted := [], [];
    }

    /** `findIndex` over the queue. */
    method FindStartable() returns (index: nat)
      ensures index == FirstStartable(State(), 0)
    {
      index := 0;
      ghost var s := State();
      while index < |queue|
              && !(active < limits.active && ActiveFor(counts, queue[index].provider) < limits.perProvider)
        invariant index <= |queue|
        invariant FirstStartable(s, 0) == FirstStartable(s, index)
      {
        index := index + 1;
      }
    }

    method CountStart(w: Waiter)
      modifies this`active, this`counts, this`held, this`granted
      ensures State() == Grant(old(State()), w)
    {
      active := active + 1;
      counts := counts[w.provider := ActiveFor(counts, w.provider) + 1];
      held, granted := held + [w], granted + [w];
    }

    method DrainQueue()
      modifies this`active, this`counts, this`queue, this`held, this`granted
      ensures State() == Drain(old(State()))
    {
      ghost var s := State();
      while active < limits.active && |queue| > 0
        invariant limits == s.limits && Drain(State()) == Drain(s)
        decreases |queue|
      {
        ghost var now := State();
        var index := FindStartable();
        if index == |queue| {
          assert Drain(now) == now;
          return;
        }
        var waiter := queue[index];
        queue := Without(queue, index);
        assert State() == now.(queue := Without(now.queue, index));
        if waiter.id !in aborted {
          CountStart(waiter);
        }
      }
      assert Drain(State()) == State();
    }

    method CountQueued(p: ProviderId) returns (n: nat)
      ensures n == Tally(queue, p)
    {
      n := 0;
      var q := queue;
      for i := 0 to |q|
        invariant n == Tally(q[..i], p)
      {
        TallyAppend(q[..i], q[i], p);
        assert q[..i] + [q[i]] == q[..i + 1];
        if q[i].provider == p {
          n := n + 1;
        }
      }
      assert q[..|q|] == q;
    }

    method AcquireCapacity(w: Waiter) returns (answer: Answer)
      requires Consistent() && NewId(State(), w.id) && w.id !in released
      modifies this`active, this`counts, this`queue, this`held, this`granted
      ensures Consistent() && (State(), answer) == Acquire(old(State()), w)
    {
      ghost var s := State();
      AcquireKeeps(s, w);
      AcquireLinks(s, w, released);
      if w.id in aborted {
        return AlreadyAborted;
      }
      if active < limits.active && ActiveFor(counts, w.provider) < limits.perProvider {
        CountStart(w);
        return Granted;
      }
      var queuedForProvider := CountQueued(w.provider);
      if |queue| >= limits.queued || queuedForProvider >= limits.queuedPerProvider {
        return CapacityExceeded;
      }
      queue := queue + [w];
      assert State() == s.(queue := s.queue + [w]);
      DrainQueue();
      return Enqueued;
    }

    method CountEnd(w: Waiter)
      requires PlaceOf(held, w.id) < |held| && held[PlaceOf(held, w.id)] == w
      modifies this`active, this`counts, this`held, this`released
      ensures State() == old(State()).(active := Lower(old(active)),
                                       counts := Lowered(old(counts), w.provider),
                                       held := Without(old(held), PlaceOf(old(held), w.id)))
      ensures released == old(released) + {w.id}
    {
      released := released + {w.id};
      active := if active > 0 then active - 1 else 0;
      var providerCount := if ActiveFor(counts, w.provider) > 0 then ActiveFor(counts, w.provider) - 1 else 0;
      if providerCount > 0 {
        counts := counts[w.provider := providerCount];
      } else {
        counts := counts - {w.provider};
      }
      held := Without(held, PlaceOf(held, w.id));
    }

    /** The release function handed out with a grant. */
    method ReleaseCapacity(w: Waiter) returns (first: bool)
      requires Consistent() && w in granted
      modifies this`active, this`counts, this`queue, this`held, this`granted, this`released
      ensures Consistent() && (State(), first) == Release(old(State()), w.id)
      ensures released == old(released) + {w.id}
    {
      ghost var s := State();
      ReleaseKeeps(s, w.id);
      HeldUnlessReleased(s, w, released);
      ReleaseLinks(s, w.id, released);
      if w.id in released {
        assert released + {w.id} == released;
        return false;
      }
      CountEnd(w);
      DrainQueue();
      return true;
    }

    /** The abort listener of a call's signal. */
    method SignalAborted(id: CallId)
      requires Consistent()
      modifies this`aborted, this`queue
      ensures Consistent() && State() == Abort(old(State()), id)
    {
      AbortKeeps(State(), id);
      aborted := aborted + {id};
      var index := PlaceOf(queue, id);
      if index < |queue| {
        WithoutElements(queue, index);
        queue := queue[..index] + queue[index + 1..];
      }
    }
  }

  lemma AcquireLinks(s: Pool, w: Waiter, released: set<CallId>)
    requires Valid(s) && NewId(s, w.id) && Linked(s, released) && w.id !in released
    ensures Linked(Acquire(s, w).0, released)
  {
    AcquireKeeps(s, w);
    if Acquire(s, w).1 == Granted {
      GrantLinks(s, w, released);
    }
  }

  lemma GrantLinks(s: Pool, w: Waiter, released: set<CallId>)
    requires Linked(s, released) && w.id !in released
    ensures Linked(Grant(s, w), released)
  {
    assert w in s.held + [w];
    forall g | g in Grant(s, w).granted ensures g.id in released || g in Grant(s, w).held {
    }
  }

  /** The `released` flag of a grant and its place among the held operations agree. */
  lemma HeldUnlessReleased(s: Pool, w: Waiter, released: set<CallId>)
    requires Sound(s) && Linked(s, released) && w in s.granted
    ensures w.id in released <==> PlaceOf(s.held, w.id) == |s.held|
    ensures w.id !in released ==> s.held[PlaceOf(s.held, w.id)] == w
  {
    var i := PlaceOf(s.held, w.id);
    if w.id !in released {
      var j :| 0 <= j < |s.held| && s.held[j] == w;
      assert i == j;
    }
  }

  lemma ReleaseLinks(s: Pool, id: CallId, released: set<CallId>)
    requires Sound(s) && Linked(s, released)
    ensures Release(s, id).1 ==> Linked(Release(s, id).0, released + {id})
  {
    var i := PlaceOf(s.held, id);
    if i < |s.held| {
      WithoutElements(s.held, i);
      var t := s.(active := Lower(s.active), counts := Lowered(s.counts, s.held[i].provider),
                  held := Without(s.held, i));
      forall g | g in t.granted ensures g.id in released + {id} || g in t.held {
        if g.id !in released + {id} {
          var j :| 0 <= j < |s.held| && s.held[j] == g;
          assert t.held[if j < i then j else j - 1] == g;
        }
      }
      DrainLinks(t, released + {id});
    }
  }
}
