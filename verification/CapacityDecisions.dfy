// When a call of a provider gets a slot, waits or is refused, exactly, and what that makes of
// its outcome over whole runs.

module CapacityDecisions {
  import opened ProviderCapacity
  import opened ProviderCalls

  /** Both limits leave room for another operation of the provider. */
  predicate HasRoom(s: Pool, p: ProviderId) {
    |s.held| < s.limits.active && Tally(s.held, p) < s.limits.perProvider
  }

  /** The queue has all the waiters that it may hold, or all that it may hold of the provider. */
  predicate QueueFull(s: Pool, p: ProviderId) {
    |s.queue| == s.limits.queued || Tally(s.queue, p) == s.limits.queuedPerProvider
  }

  lemma RoomIsCounted(s: Pool, p: ProviderId)
    requires Valid(s)
    ensures CanStart(s, p) <==> HasRoom(s, p)
    ensures QueueFull(s, p) <==> |s.queue| >= s.limits.queued || Tally(s.queue, p) >= s.limits.queuedPerProvider
  {
    assert ActiveFor(s.counts, p) == Tally(s.held, p);
    assert Tally(s.queue, p) <= s.limits.queuedPerProvider;
  }

  /** What an arriving call is told, exactly: it gets a slot if and only if there is room; it
      is refused for capacity if and only if there is no room and the queue is full for it; it
      waits otherwise. */
  lemma AcquireAnswersIff(s: Pool, w: Waiter)
    requires Valid(s)
    ensures var answer := Acquire(s, w).1;
            && (answer == AlreadyAborted <==> w.id in s.aborted)
            && (answer == Granted <==> w.id !in s.aborted && HasRoom(s, w.provider))
            && (answer == CapacityExceeded <==>
                  w.id !in s.aborted && !HasRoom(s, w.provider) && QueueFull(s, w.provider))
            && (answer == Enqueued <==>
                  w.id !in s.aborted && !HasRoom(s, w.provider) && !QueueFull(s, w.provider))
  {
    RoomIsCounted(s, w.provider);
  }

  // ---------------------------------------------------------------------------------
  // Who may overtake whom
  // ---------------------------------------------------------------------------------

  lemma {:induction false} DrainCountsGrow(s: Pool, p: ProviderId)
    requires Sound(s)
    ensures ActiveFor(s.counts, p) <= ActiveFor(Drain(s).counts, p)
    ensures Drain(s).limits == s.limits
    decreases |s.queue|
  {
    if s.active < s.limits.active && s.queue != [] {
      var i := FirstStartable(s, 0);
      if i < |s.queue| {
        GrantFirstKeeps(s, i);
        DrainCountsGrow(Grant(s.(queue := Without(s.queue, i)), s.queue[i]), p);
      }
    }
  }

  /** A waiter is overtaken in a drain only while its provider runs all the operations that it
      may: if a later waiter was granted a slot and an earlier one still waits, the earlier
      one's provider is at its limit. */
  lemma {:induction false} OvertakenOnlyAtProviderLimit(s: Pool, i: nat, j: nat)
    requires Sound(s) && i < j < |s.queue|
    requires s.queue[i].id in Ids(Drain(s).queue) && s.queue[j].id !in Ids(Drain(s).queue)
    ensures ActiveFor(Drain(s).counts, s.queue[i].provider) >= s.limits.perProvider
    decreases |s.queue|
  {
    assert s.queue[j].id in Ids(s.queue);
    var k := FirstStartable(s, 0);
    if s.active < s.limits.active && k < |s.queue| {
      var t := Grant(s.(queue := Without(s.queue, k)), s.queue[k]);
      DrainedOnce(s, k);
      if j == k {
        assert !CanStart(s, s.queue[i].provider);
        DrainCountsGrow(t, s.queue[i].provider);
      } else {
        QueueAfter(s, k, i);
        QueueAfter(s, k, j);
        OvertakenOnlyAtProviderLimit(t, if i < k then i else i - 1, if j < k then j else j - 1);
      }
    }
  }

  /** The first step of a drain: the granted waiter does not come back. */
  lemma DrainedOnce(s: Pool, k: nat)
    requires Sound(s) && s.active < s.limits.active && k == FirstStartable(s, 0) && k < |s.queue|
    ensures var t := Grant(s.(queue := Without(s.queue, k)), s.queue[k]);
            && Sound(t) && Drain(s) == Drain(t) && t.limits == s.limits
            && s.queue[k].id !in Ids(Drain(s).queue)
            && forall p :: ActiveFor(s.counts, p) <= ActiveFor(t.counts, p)
  {
    var t := Grant(s.(queue := Without(s.queue, k)), s.queue[k]);
    assert s.queue[k].id !in s.aborted;
    GrantFirstKeeps(s, k);
    DrainMoves(t);
    IdsWithout(s.queue, k);
  }

  lemma QueueAfter(s: Pool, k: nat, i: nat)
    requires k < |s.queue| && i < |s.queue| && i != k
    ensures |Without(s.queue, k)| == |s.queue| - 1
    ensures Without(s.queue, k)[if i < k then i else i - 1] == s.queue[i]
  {
    WithoutElements(s.queue, k);
  }

  // ---------------------------------------------------------------------------------
  // Refusals over whole runs
  // ---------------------------------------------------------------------------------

  predicate Ends(c: Call, outcome: Outcome) {
    (c.phase.Closing? || c.phase.Settled?) && c.phase.outcome == outcome
  }

  /** There was neither room nor a place in the queue for the call when it started. */
  predicate StartedWithoutRoom(s: World, steps: seq<Step>, id: CallId)
    decreases |steps|
  {
    && steps != []
    && if steps[0].Start? && |s.calls| == id then
         !HasRoom(s.pool, steps[0].provider) && QueueFull(s.pool, steps[0].provider)
       else StartedWithoutRoom(Exec(s, steps[0]), steps[1..], id)
  }

  lemma StartedCall(s: World, p: ProviderId)
    requires Inv(s)
    ensures var t := DoStart(s, p);
            && |t.calls| == |s.calls| + 1
            && (Ends(t.calls[|s.calls|], Refused) <==> !HasRoom(s.pool, p) && QueueFull(s.pool, p))
  {
    StartIsNew(s);
    AcquireAnswersIff(s.pool, Waiter(|s.calls|, p));
    assert |s.calls| !in s.pool.aborted;
  }

  lemma OldCallsAfterStart(s: World, p: ProviderId, id: CallId)
    requires id < |s.calls|
    ensures var t := DoStart(s, p);
            id < |t.calls| && forall o :: Ends(t.calls[id], o) <==> Ends(s.calls[id], o)
  {
  }

  lemma RefusalStays(s: World, step: Step, id: CallId)
    requires id < |s.calls|
    ensures id < |Exec(s, step).calls|
    ensures Ends(Exec(s, step).calls[id], Refused) <==> Ends(s.calls[id], Refused)
    ensures !step.Start? ==> |Exec(s, step).calls| == |s.calls|
  {
    if step.Start? {
      OldCallsAfterStart(s, step.provider, id);
    }
  }

  lemma {:induction false} RefusalStaysOverRun(s: World, steps: seq<Step>, id: CallId)
    requires id < |s.calls|
    ensures id < |Run(s, steps).calls|
    ensures Ends(Run(s, steps).calls[id], Refused) <==> Ends(s.calls[id], Refused)
    decreases |steps|
  {
    if steps != [] {
      RefusalStays(s, steps[0], id);
      RefusalStaysOverRun(Exec(s, steps[0]), steps[1..], id);
    }
  }

  lemma {:induction false} RefusedIffWithoutRoom(s: World, steps: seq<Step>, id: CallId)
    requires Inv(s) && |s.calls| <= id < |Run(s, steps).calls|
    ensures Ends(Run(s, steps).calls[id], Refused) <==> StartedWithoutRoom(s, steps, id)
    decreases |steps|
  {
    if steps != [] {
      var t := Exec(s, steps[0]);
      StepKeeps(s, steps[0]);
      if steps[0].Start? && |s.calls| == id {
        StartedCall(s, steps[0].provider);
        RefusalStaysOverRun(t, steps[1..], id);
      } else {
        CallsGrow(s, steps[0]);
        RefusedIffWithoutRoom(t, steps[1..], id);
      }
    }
  }

  lemma CallsGrow(s: World, step: Step)
    ensures |Exec(s, step).calls| == |s.calls| + (if step.Start? then 1 else 0)
  {
  }

  /** Over whole runs a call ends as refused if and only if, when it started, there was no room
      for it and the queue was full for it. */
  lemma CallsAreRefusedIff(limits: Limits, steps: seq<Step>, id: CallId)
    requires id < |Run(Initial(limits), steps).calls|
    ensures Ends(Run(Initial(limits), steps).calls[id], Refused)
            <==> StartedWithoutRoom(Initial(limits), steps, id)
  {
    InitialInv(limits);
    RefusedIffWithoutRoom(Initial(limits), steps, id);
  }

  // ---------------------------------------------------------------------------------
  // The other outcomes
  // ---------------------------------------------------------------------------------

  /** While a call waits or runs its timer has not fired; it ends as timed out only by its
      timer, and as returned or thrown only with a slot. */
  predicate OutcomeOk(c: Call) {
    && (c.phase.Waiting? || c.phase.Running? ==> !c.fired)
    && (Ends(c, TimedOut) ==> c.fired)
    && (Ends(c, Returned) || Ends(c, Threw) ==> c.phase.slot)
    && (Ends(c, Refused) ==> !c.phase.slot)
  }

  predicate OutcomesOk(s: World) {
    forall i :: 0 <= i < |s.calls| ==> OutcomeOk(s.calls[i])
  }

  lemma WakeKeepsOutcomes(calls: seq<Call>, granted: set<CallId>)
    requires forall i :: 0 <= i < |calls| ==> OutcomeOk(calls[i])
    ensures forall i :: 0 <= i < |calls| ==> OutcomeOk(Wake(calls, granted)[i])
  {
  }

  lemma StartKeepsOutcomes(s: World, p: ProviderId)
    requires Inv(s) && OutcomesOk(s)
    ensures OutcomesOk(DoStart(s, p))
  {
    var id := |s.calls|;
    AcquireAnswersIff(s.pool, Waiter(id, p));
    assert id !in s.pool.aborted;
    var (pool, answer) := Acquire(s.pool, Waiter(id, p));
    WakeKeepsOutcomes(s.calls + [Call(p, StartPhase(answer), false, 0)], Ids(pool.granted));
  }

  lemma StepKeepsOutcomes(s: World, step: Step)
    requires Inv(s) && OutcomesOk(s)
    ensures OutcomesOk(Exec(s, step))
  {
    if step.Start? {
      StartKeepsOutcomes(s, step.provider);
    } else if step.id < |s.calls| {
      assert OutcomeOk(s.calls[step.id]);
      LocalOutcomes(s, step);
    }
  }

  lemma LocalOutcomes(s: World, step: Step)
    requires OutcomesOk(s) && !step.Start? && step.id < |s.calls|
    ensures OutcomesOk(Exec(s, step))
  {
    if step.Finish? && s.calls[step.id].phase.Closing? && s.calls[step.id].phase.slot {
      var c := s.calls[step.id];
      var (pool, first) := Release(s.pool, step.id);
      var c' := c.(phase := Settled(c.phase.outcome, true), releases := c.releases + if first then 1 else 0);
      assert OutcomeOk(c) && OutcomeOk(c');
      WakeKeepsOutcomes(s.calls[step.id := c'], Ids(pool.granted));
    }
  }

  lemma {:induction false} RunKeepsOutcomes(s: World, steps: seq<Step>)
    requires Inv(s) && OutcomesOk(s)
    ensures OutcomesOk(Run(s, steps))
    decreases |steps|
  {
    if steps != [] {
      StepKeeps(s, steps[0]);
      StepKeepsOutcomes(s, steps[0]);
      RunKeepsOutcomes(Exec(s, steps[0]), steps[1..]);
    }
  }

  /** Over whole runs: a call ends as timed out only when its timer has fired, and as returned
      or thrown only with a slot; nobody waits or runs whose timer has fired. */
  lemma OutcomesHaveCauses(limits: Limits, steps: seq<Step>)
    ensures OutcomesOk(Run(Initial(limits), steps))
  {
    InitialInv(limits);
    RunKeepsOutcomes(Initial(limits), steps);
  }

  /** What ends the race of a running call: its operation, with the outcome of that, or its
      timer; a waiting call is ended by its timer alone. */
  lemma RaceIsDecided(s: World, id: CallId, ok: bool)
    requires id < |s.calls| && !s.calls[id].fired
    requires s.calls[id].phase.Running? || s.calls[id].phase.Waiting?
    ensures var c := s.calls[id];
            && Exec(s, Fire(id)).calls[id].phase == Closing(TimedOut, c.phase.Running?)
            && Exec(s, Fire(id)).calls[id].fired
            && Exec(s, Done(id, ok)).calls[id].phase
                 == if c.phase.Running? then Closing(if ok then Returned else Threw, true) else Waiting
  {
  }
}
