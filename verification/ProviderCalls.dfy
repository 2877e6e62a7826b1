// Provider calls over the capacity coordinator: each call starts a timer, waits for a
// slot, races its operation against the timer and gives the slot back in its `finally`.
// The steps are the points at which the event loop may switch between calls.

module ProviderCalls {
  import opened ProviderCapacity

  datatype Outcome = Returned | Threw | TimedOut | Refused

  /** `Resuming`: the acquire has resolved and the call has not continued yet. `Closing`:
      the outcome is decided and `finally` has not run. `slot` says whether the call got
      its release function. */
  datatype Phase =
    | Waiting
    | Resuming
    | Running
    | Closing(outcome: Outcome, slot: bool)
    | Settled(outcome: Outcome, slot: bool)

  /** `fired` is the state of the call's signal; `releases` counts the successful runs of
      its release function. */
  datatype Call = Call(provider: ProviderId, phase: Phase, fired: bool, releases: nat)

  datatype World = World(pool: Pool, calls: seq<Call>)

  datatype Step =
    | Start(provider: ProviderId)
    | Fire(id: CallId)
    | Resume(id: CallId)
    | Done(id: CallId, ok: bool)
    | Finish(id: CallId)

  function Ids(ws: seq<Waiter>): (r: set<CallId>) {
    set i | 0 <= i < |ws| :: ws[i].id
  }

  /** The promises of the granted waiters resolve. */
  function Wake(calls: seq<Call>, granted: set<CallId>): (r: seq<Call>)
    ensures |r| == |calls|
  {
    seq(|calls|, i requires 0 <= i < |calls| =>
      if calls[i].phase.Waiting? && i in granted then calls[i].(phase := Resuming) else calls[i])
  }

  function StartPhase(answer: Answer): Phase {
    match answer
    case Granted => Resuming
    case Enqueued => Waiting
    case CapacityExceeded => Closing(Refused, false)
    case AlreadyAborted => Closing(TimedOut, false)
  }

  function DoStart(s: World, p: ProviderId): World {
    var id := |s.calls|;
    var (pool, answer) := Acquire(s.pool, Waiter(id, p));
    World(pool, Wake(s.calls + [Call(p, StartPhase(answer), false, 0)], Ids(pool.granted)))
  }

  /** The timer aborts the signal: a waiter is rejected, a race is lost, and a call that is
      about to continue sees the signal when it does. */
  function DoFire(s: World, id: CallId): World
    requires id < |s.calls|
  {
    var c := s.calls[id];
    if c.phase.Settled? || c.fired then s
    else
      var phase := match c.phase
        case Waiting => Closing(TimedOut, false)
        case Running => Closing(TimedOut, true)
        case _ => c.phase;
      World(Abort(s.pool, id), s.calls[id := c.(phase := phase, fired := true)])
  }

  function DoResume(s: World, id: CallId): World
    requires id < |s.calls|
  {
    var c := s.calls[id];
    if !c.phase.Resuming? then s
    else s.(calls := s.calls[id := c.(phase := if c.fired then Closing(TimedOut, true) else Running)])
  }

  function DoDone(s: World, id: CallId, ok: bool): World
    requires id < |s.calls|
  {
    var c := s.calls[id];
    if !c.phase.Running? then s
    else s.(calls := s.calls[id := c.(phase := Closing(if ok then Returned else Threw, true))])
  }

  function DoFinish(s: World, id: CallId): World
    requires id < |s.calls|
  {
    var c := s.calls[id];
    if !c.phase.Closing? then s
    else if !c.phase.slot then
      s.(calls := s.calls[id := c.(phase := Settled(c.phase.outcome, false))])
    else
      var (pool, first) := Release(s.pool, id);
      var c' := c.(phase := Settled(c.phase.outcome, true),
                   releases := c.releases + if first then 1 else 0);
      World(pool, Wake(s.calls[id := c'], Ids(pool.granted)))
  }

  function Exec(s: World, step: Step): World {
    if step.Start? then DoStart(s, step.provider)
    else if step.id >= |s.calls| then s
    else match step
      case Fire(id) => DoFire(s, id)
      case Resume(id) => DoResume(s, id)
      case Done(id, ok) => DoDone(s, id, ok)
      case Finish(id) => DoFinish(s, id)
  }

  function Run(s: World, steps: seq<Step>): World
    decreases |steps|
  {
    if steps == [] then s else Run(Exec(s, steps[0]), steps[1..])
  }

  function Initial(limits: Limits): World {
    World(Empty(limits), [])
  }

  // ---------------------------------------------------------------------------------
  // Slots and phases agree
  // ---------------------------------------------------------------------------------

  predicate Holding(phase: Phase) {
    phase.Resuming? || phase.Running? || (phase.Closing? && phase.slot)
  }

  predicate GotSlot(phase: Phase) {
    Holding(phase) || (phase.Settled? && phase.slot)
  }

  ghost predicate PhaseAgrees(s: World, i: CallId)
    requires i < |s.calls|
  {
    var c := s.calls[i];
    && (c.phase.Waiting? <==> i in Ids(s.pool.queue))
    && (Holding(c.phase) <==> i in Ids(s.pool.held))
    && (GotSlot(c.phase) <==> i in Ids(s.pool.granted))
    && (c.fired <==> i in s.pool.aborted)
    && c.releases == (if c.phase.Settled? && c.phase.slot then 1 else 0)
  }

  ghost predicate Known(calls: seq<Call>, ws: seq<Waiter>) {
    forall k :: 0 <= k < |ws| ==> ws[k].id < |calls| && ws[k].provider == calls[ws[k].id].provider
  }

  ghost predicate Inv(s: World) {
    && Valid(s.pool)
    && Known(s.calls, s.pool.queue) && Known(s.calls, s.pool.held) && Known(s.calls, s.pool.granted)
    && (forall i :: 0 <= i < |s.calls| ==> PhaseAgrees(s, i))
    && (forall i <- s.pool.aborted :: i < |s.calls|)
  }

  // ---------------------------------------------------------------------------------
  // What the pool operations move
  // ---------------------------------------------------------------------------------

  lemma IdsAppend(ws: seq<Waiter>, w: Waiter)
    ensures Ids(ws + [w]) == Ids(ws) + {w.id}
  {
    var r := ws + [w];
    assert r[|ws|] == w;
    forall id | id in Ids(ws) ensures id in Ids(r) {
      var i :| 0 <= i < |ws| && ws[i].id == id;
      assert r[i].id == id;
    }
  }

  lemma IdsWithout(ws: seq<Waiter>, i: nat)
    requires i < |ws|
    requires forall a, b :: 0 <= a < b < |ws| ==> ws[a].id != ws[b].id
    ensures Ids(Without(ws, i)) == Ids(ws) - {ws[i].id}
  {
    WithoutElements(ws, i);
    var r := Without(ws, i);
    forall id | id in Ids(ws) - {ws[i].id} ensures id in Ids(r) {
      var j :| 0 <= j < |ws| && ws[j].id == id;
      assert r[if j < i then j else j - 1].id == id;
    }
    forall id | id in Ids(r) ensures id in Ids(ws) - {ws[i].id} {
      var j :| 0 <= j < |r| && r[j].id == id;
      assert ws[if j < i then j else j + 1].id == id;
    }
  }

  lemma PlaceOfMember(ws: seq<Waiter>, id: CallId)
    ensures id in Ids(ws) <==> PlaceOf(ws, id) < |ws|
  {
  }

  /** What leaves the queue in a drain holds a slot afterwards. */
  ghost predicate Moved(s: Pool, t: Pool) {
    && Ids(t.queue) <= Ids(s.queue)
    && Ids(t.held) == Ids(s.held) + (Ids(s.queue) - Ids(t.queue))
    && Ids(t.granted) == Ids(s.granted) + (Ids(s.queue) - Ids(t.queue))
    && t.aborted == s.aborted
  }

  lemma GrantFirstMoves(s: Pool, i: nat)
    requires Sound(s) && i < |s.queue|
    ensures Moved(s, Grant(s.(queue := Without(s.queue, i)), s.queue[i]))
  {
    IdsWithout(s.queue, i);
    IdsAppend(s.held, s.queue[i]);
    IdsAppend(s.granted, s.queue[i]);
    assert s.queue[i].id in Ids(s.queue);
  }

  lemma {:induction false} DrainMoves(s: Pool)
    requires Sound(s)
    ensures Moved(s, Drain(s))
    decreases |s.queue|
  {
    if s.active < s.limits.active && s.queue != [] {
      var i := FirstStartable(s, 0);
      if i < |s.queue| {
        GrantFirstKeeps(s, i);
        GrantFirstMoves(s, i);
        DrainMoves(Grant(s.(queue := Without(s.queue, i)), s.queue[i]));
      }
    }
  }

  lemma GrantFirstKnown(s: Pool, i: nat, calls: seq<Call>)
    requires i < |s.queue|
    requires Known(calls, s.queue) && Known(calls, s.held) && Known(calls, s.granted)
    ensures var t := Grant(s.(queue := Without(s.queue, i)), s.queue[i]);
            Known(calls, t.queue) && Known(calls, t.held) && Known(calls, t.granted)
  {
    WithoutElements(s.queue, i);
  }

  lemma {:induction false} DrainKnown(s: Pool, calls: seq<Call>)
    requires Sound(s) && Known(calls, s.queue) && Known(calls, s.held) && Known(calls, s.granted)
    ensures var t := Drain(s);
            Known(calls, t.queue) && Known(calls, t.held) && Known(calls, t.granted)
    decreases |s.queue|
  {
    if s.active < s.limits.active && s.queue != [] {
      var i := FirstStartable(s, 0);
      if i < |s.queue| {
        GrantFirstKeeps(s, i);
        GrantFirstKnown(s, i, calls);
        DrainKnown(Grant(s.(queue := Without(s.queue, i)), s.queue[i]), calls);
      }
    }
  }

  lemma KnownWithout(calls: seq<Call>, ws: seq<Waiter>, i: nat)
    requires Known(calls, ws) && i < |ws|
    ensures Known(calls, Without(ws, i))
  {
    WithoutElements(ws, i);
  }

  /** The pool between giving the slot back and draining the queue. */
  function GivenBack(s: Pool, i: nat): Pool
    requires i < |s.held|
  {
    s.(active := Lower(s.active), counts := Lowered(s.counts, s.held[i].provider),
       held := Without(s.held, i))
  }

  lemma GivenBackIsSound(s: Pool, i: nat)
    requires Valid(s) && i < |s.held|
    ensures Sound(GivenBack(s, i))
  {
    LoweredTallies(s, i);
    WithoutElements(s.held, i);
    var t := GivenBack(s, i);
    forall p ensures Tally(t.held, p) <= s.limits.perProvider {
      TallyWithout(s.held, i, p);
      assert Tally(s.held, p) <= s.limits.perProvider;
    }
  }

  /** A release takes the call out of the held operations and moves waiters in. */
  lemma ReleaseMoves(s: Pool, id: CallId)
    requires Valid(s) && id in Ids(s.held)
    ensures Release(s, id).1
    ensures var t := Release(s, id).0;
            && Ids(t.queue) <= Ids(s.queue)
            && Ids(t.held) == (Ids(s.held) - {id}) + (Ids(s.queue) - Ids(t.queue))
            && Ids(t.granted) == Ids(s.granted) + (Ids(s.queue) - Ids(t.queue))
            && t.aborted == s.aborted
  {
    PlaceOfMember(s.held, id);
    var i := PlaceOf(s.held, id);
    IdsWithout(s.held, i);
    GivenBackIsSound(s, i);
    DrainMoves(GivenBack(s, i));
  }

  lemma ReleaseKnown(s: Pool, id: CallId, calls: seq<Call>)
    requires Valid(s) && id in Ids(s.held)
    requires Known(calls, s.queue) && Known(calls, s.held) && Known(calls, s.granted)
    ensures var t := Release(s, id).0;
            Known(calls, t.queue) && Known(calls, t.held) && Known(calls, t.granted)
  {
    PlaceOfMember(s.held, id);
    var i := PlaceOf(s.held, id);
    GivenBackIsSound(s, i);
    KnownWithout(calls, s.held, i);
    DrainKnown(GivenBack(s, i), calls);
  }

  lemma AbortMoves(s: Pool, id: CallId)
    requires Valid(s)
    ensures Ids(Abort(s, id).queue) == Ids(s.queue) - {id}
  {
    PlaceOfMember(s.queue, id);
    var i := PlaceOf(s.queue, id);
    if i < |s.queue| {
      IdsWithout(s.queue, i);
    }
  }

  // ---------------------------------------------------------------------------------
  // Every step keeps the agreement
  // ---------------------------------------------------------------------------------

  /** Ids in a pool of known calls are ids of calls. */
  lemma KnownIds(calls: seq<Call>, ws: seq<Waiter>)
    requires Known(calls, ws)
    ensures forall id <- Ids(ws) :: id < |calls|
  {
  }

  lemma KnownSame(calls: seq<Call>, calls': seq<Call>, ws: seq<Waiter>)
    requires Known(calls, ws) && |calls'| == |calls|
    requires forall i :: 0 <= i < |calls| ==> calls'[i].provider == calls[i].provider
    ensures Known(calls', ws)
  {
  }

  lemma StartIsNew(s: World)
    requires Inv(s)
    ensures NewId(s.pool, |s.calls|) && |s.calls| !in s.pool.aborted
  {
  }

  lemma StartMoves(s: World, p: ProviderId)
    requires Inv(s)
    ensures var id := |s.calls|; var w := Waiter(id, p);
            var (t, answer) := Acquire(s.pool, w);
            && Valid(t) && t.aborted == s.pool.aborted
            && answer != AlreadyAborted
            && t.held == (if answer == Granted then s.pool.held + [w] else s.pool.held)
            && t.granted == (if answer == Granted then s.pool.granted + [w] else s.pool.granted)
            && t.queue == (if answer == Enqueued then s.pool.queue + [w] else s.pool.queue)
  {
    StartIsNew(s);
    AcquireKeeps(s.pool, Waiter(|s.calls|, p));
  }

  lemma IdsMaybeAppend(ws: seq<Waiter>, w: Waiter, b: bool)
    ensures Ids(if b then ws + [w] else ws) == Ids(ws) + (if b then {w.id} else {})
  {
    IdsAppend(ws, w);
  }

  lemma KnownMaybeAppend(calls: seq<Call>, c: Call, ws: seq<Waiter>, b: bool)
    requires Known(calls, ws)
    ensures Known(calls + [c], if b then ws + [Waiter(|calls|, c.provider)] else ws)
  {
  }

  lemma StartIds(s: World, p: ProviderId)
    requires Inv(s)
    ensures var id := |s.calls|; var (t, answer) := Acquire(s.pool, Waiter(id, p));
            && Ids(t.held) == Ids(s.pool.held) + (if answer == Granted then {id} else {})
            && Ids(t.granted) == Ids(s.pool.granted) + (if answer == Granted then {id} else {})
            && Ids(t.queue) == Ids(s.pool.queue) + (if answer == Enqueued then {id} else {})
            && id !in Ids(s.pool.held) && id !in Ids(s.pool.granted) && id !in Ids(s.pool.queue)
  {
    var w := Waiter(|s.calls|, p);
    var (t, answer) := Acquire(s.pool, w);
    StartMoves(s, p);
    IdsMaybeAppend(s.pool.held, w, answer == Granted);
    IdsMaybeAppend(s.pool.granted, w, answer == Granted);
    IdsMaybeAppend(s.pool.queue, w, answer == Enqueued);
    KnownIds(s.calls, s.pool.queue);
    KnownIds(s.calls, s.pool.held);
    KnownIds(s.calls, s.pool.granted);
  }

  lemma StartCalls(s: World, p: ProviderId)
    requires Inv(s)
    ensures DoStart(s, p).calls
              == s.calls + [Call(p, StartPhase(Acquire(s.pool, Waiter(|s.calls|, p)).1), false, 0)]
  {
    StartIds(s, p);
    var r := DoStart(s, p);
    forall i | 0 <= i < |s.calls| ensures r.calls[i] == s.calls[i] {
      assert PhaseAgrees(s, i);
    }
  }

  lemma StartKnown(s: World, p: ProviderId)
    requires Inv(s)
    ensures var r := DoStart(s, p);
            Known(r.calls, r.pool.queue) && Known(r.calls, r.pool.held) && Known(r.calls, r.pool.granted)
  {
    var r := DoStart(s, p);
    var c := Call(p, StartPhase(Acquire(s.pool, Waiter(|s.calls|, p)).1), false, 0);
    StartMoves(s, p);
    StartCalls(s, p);
    var answer := Acquire(s.pool, Waiter(|s.calls|, p)).1;
    KnownMaybeAppend(s.calls, c, s.pool.held, answer == Granted);
    KnownMaybeAppend(s.calls, c, s.pool.granted, answer == Granted);
    KnownMaybeAppend(s.calls, c, s.pool.queue, answer == Enqueued);
  }

  lemma AgreesStill(s: World, r: World, i: CallId)
    requires i < |s.calls| && i < |r.calls| && r.calls[i] == s.calls[i] && PhaseAgrees(s, i)
    requires i in Ids(s.pool.queue) <==> i in Ids(r.pool.queue)
    requires i in Ids(s.pool.held) <==> i in Ids(r.pool.held)
    requires i in Ids(s.pool.granted) <==> i in Ids(r.pool.granted)
    requires i in s.pool.aborted <==> i in r.pool.aborted
    ensures PhaseAgrees(r, i)
  {
  }

  lemma NewAgrees(r: World, i: CallId, answer: Answer)
    requires i < |r.calls| && answer != AlreadyAborted
    requires r.calls[i].phase == StartPhase(answer) && !r.calls[i].fired && r.calls[i].releases == 0
    requires i in Ids(r.pool.queue) <==> answer == Enqueued
    requires i in Ids(r.pool.held) <==> answer == Granted
    requires i in Ids(r.pool.granted) <==> answer == Granted
    requires i !in r.pool.aborted
    ensures PhaseAgrees(r, i)
  {
  }

  lemma StartAgrees(s: World, p: ProviderId, i: CallId)
    requires Inv(s) && i <= |s.calls|
    ensures |DoStart(s, p).calls| == |s.calls| + 1 && PhaseAgrees(DoStart(s, p), i)
  {
    StartIds(s, p);
    StartCalls(s, p);
    StartMoves(s, p);
    StartIsNew(s);
    if i < |s.calls| {
      AgreesStill(s, DoStart(s, p), i);
    } else {
      NewAgrees(DoStart(s, p), i, Acquire(s.pool, Waiter(|s.calls|, p)).1);
    }
  }

  lemma StartKeeps(s: World, p: ProviderId)
    requires Inv(s)
    ensures Inv(DoStart(s, p))
  {
    var r := DoStart(s, p);
    StartMoves(s, p);
    StartKnown(s, p);
    forall i | 0 <= i < |r.calls| ensures PhaseAgrees(r, i) {
      StartAgrees(s, p, i);
    }
  }

  lemma FireKeeps(s: World, id: CallId)
    requires Inv(s) && id < |s.calls|
    ensures Inv(DoFire(s, id))
  {
    var r := DoFire(s, id);
    AbortKeeps(s.pool, id);
    AbortMoves(s.pool, id);
    assert PhaseAgrees(s, id);
    KnownSame(s.calls, r.calls, s.pool.held);
    KnownSame(s.calls, r.calls, s.pool.granted);
    KnownSame(s.calls, r.calls, s.pool.queue);
    var i := PlaceOf(s.pool.queue, id);
    if i < |s.pool.queue| {
      KnownWithout(r.calls, s.pool.queue, i);
    }
    forall j | 0 <= j < |r.calls| ensures PhaseAgrees(r, j) {
      assert PhaseAgrees(s, j);
    }
  }

  lemma LocalKeeps(s: World, id: CallId, phase: Phase)
    requires Inv(s) && id < |s.calls|
    requires !s.calls[id].phase.Waiting? && !phase.Waiting?
    requires Holding(phase) == Holding(s.calls[id].phase)
    requires GotSlot(phase) == GotSlot(s.calls[id].phase)
    requires (phase.Settled? && phase.slot)
               == (s.calls[id].phase.Settled? && s.calls[id].phase.slot)
    ensures Inv(s.(calls := s.calls[id := s.calls[id].(phase := phase)]))
  {
    var r := s.(calls := s.calls[id := s.calls[id].(phase := phase)]);
    KnownSame(s.calls, r.calls, s.pool.held);
    KnownSame(s.calls, r.calls, s.pool.granted);
    KnownSame(s.calls, r.calls, s.pool.queue);
    assert PhaseAgrees(s, id);
    forall j | 0 <= j < |r.calls| ensures PhaseAgrees(r, j) {
      assert PhaseAgrees(s, j);
    }
  }

  lemma FinishKeeps(s: World, id: CallId)
    requires Inv(s) && id < |s.calls|
    ensures Inv(DoFinish(s, id))
  {
    var c := s.calls[id];
    if c.phase.Closing? {
      if c.phase.slot {
        FinishWithSlotKeeps(s, id);
      } else {
        LocalKeeps(s, id, Settled(c.phase.outcome, false));
      }
    }
  }

  lemma FinishWithSlotKeeps(s: World, id: CallId)
    requires Inv(s) && id < |s.calls| && s.calls[id].phase.Closing? && s.calls[id].phase.slot
    ensures Inv(DoFinish(s, id))
  {
    var r := DoFinish(s, id);
    assert PhaseAgrees(s, id);
    ReleaseMoves(s.pool, id);
    ReleaseKeeps(s.pool, id);
    ReleaseKnown(s.pool, id, s.calls);
    KnownSame(s.calls, r.calls, r.pool.held);
    KnownSame(s.calls, r.calls, r.pool.granted);
    KnownSame(s.calls, r.calls, r.pool.queue);
    forall j | 0 <= j < |r.calls| ensures PhaseAgrees(r, j) {
      assert PhaseAgrees(s, j);
    }
  }

  lemma StepKeeps(s: World, step: Step)
    requires Inv(s)
    ensures Inv(Exec(s, step))
  {
    match step
    case Start(p) => StartKeeps(s, p);
    case Fire(id) => if id < |s.calls| { FireKeeps(s, id); }
    case Resume(id) =>
      if id < |s.calls| && s.calls[id].phase.Resuming? {
        LocalKeeps(s, id, if s.calls[id].fired then Closing(TimedOut, true) else Running);
      }
    case Done(id, ok) =>
      if id < |s.calls| && s.calls[id].phase.Running? {
        LocalKeeps(s, id, Closing(if ok then Returned else Threw, true));
      }
    case Finish(id) => if id < |s.calls| { FinishKeeps(s, id); }
  }

  lemma {:induction false} RunKeeps(s: World, steps: seq<Step>)
    requires Inv(s)
    ensures Inv(Run(s, steps))
    decreases |steps|
  {
    if steps != [] {
      StepKeeps(s, steps[0]);
      RunKeeps(Exec(s, steps[0]), steps[1..]);
    }
  }

  lemma InitialInv(limits: Limits)
    ensures Inv(Initial(limits))
  {
  }

  // ---------------------------------------------------------------------------------
  // Whole runs
  // ---------------------------------------------------------------------------------

  /** Whatever the order of grants, timers, results and cleanups, a settled call gave its
      slot back exactly once if it ever had one, and never if it had none; and no other
      call's release ran on its behalf. */
  lemma SlotsAreReleasedExactlyOnce(limits: Limits, steps: seq<Step>, id: CallId)
    requires id < |Run(Initial(limits), steps).calls|
    ensures var s := Run(Initial(limits), steps);
            var c := s.calls[id];
            && (c.phase.Settled? ==>
                  && id !in Ids(s.pool.held) && id !in Ids(s.pool.queue)
                  && c.releases == (if id in Ids(s.pool.granted) then 1 else 0))
            && (!c.phase.Settled? ==> c.releases == 0)
            && (Holding(c.phase) <==> id in Ids(s.pool.held))
  {
    InitialInv(limits);
    RunKeeps(Initial(limits), steps);
    assert PhaseAgrees(Run(Initial(limits), steps), id);
  }

  /** When every call has settled no slot is counted anywhere and nobody waits. */
  lemma AllSettledFreesEverySlot(limits: Limits, steps: seq<Step>)
    requires forall c <- Run(Initial(limits), steps).calls :: c.phase.Settled?
    ensures var pool := Run(Initial(limits), steps).pool;
            pool.active == 0 && pool.counts == map[] && pool.queue == [] && pool.held == []
  {
    InitialInv(limits);
    RunKeeps(Initial(limits), steps);
    var s := Run(Initial(limits), steps);
    if s.pool.held != [] {
      HolderIsHolding(s, 0);
    }
    if s.pool.queue != [] {
      QueuedIsWaiting(s, 0);
    }
    forall p ensures p !in s.pool.counts {
      assert ActiveFor(s.pool.counts, p) == Tally(s.pool.held, p);
    }
  }

  lemma HolderIsHolding(s: World, k: nat)
    requires Inv(s) && k < |s.pool.held|
    ensures s.pool.held[k].id < |s.calls| && s.calls[s.pool.held[k].id] in s.calls
    ensures Holding(s.calls[s.pool.held[k].id].phase)
  {
    assert s.pool.held[k].id in Ids(s.pool.held);
    assert PhaseAgrees(s, s.pool.held[k].id);
  }

  lemma QueuedIsWaiting(s: World, k: nat)
    requires Inv(s) && k < |s.pool.queue|
    ensures s.pool.queue[k].id < |s.calls| && s.calls[s.pool.queue[k].id] in s.calls
    ensures s.calls[s.pool.queue[k].id].phase.Waiting?
  {
    assert s.pool.queue[k].id in Ids(s.pool.queue);
    assert PhaseAgrees(s, s.pool.queue[k].id);
  }

  /** The limits hold in every reachable state, the global count is the sum of the
      per-provider counts, and a call waits only while a limit it falls under is reached. */
  lemma PoolStaysWithinLimits(limits: Limits, steps: seq<Step>)
    ensures var s := Run(Initial(limits), steps);
            && s.pool.limits == limits
            && s.pool.active == |s.pool.held| == Sum(s.pool.counts)
            && s.pool.active <= limits.active && |s.pool.queue| <= limits.queued
            && (forall p :: ActiveFor(s.pool.counts, p) == Tally(s.pool.held, p) <= limits.perProvider)
            && (forall p :: Tally(s.pool.queue, p) <= limits.queuedPerProvider)
            && (forall i :: 0 <= i < |s.calls| && s.calls[i].phase.Waiting? ==>
                  s.pool.active == limits.active
                  || ActiveFor(s.pool.counts, s.calls[i].provider) == limits.perProvider)
  {
    InitialInv(limits);
    RunKeeps(Initial(limits), steps);
    RunKeepsLimits(Initial(limits), steps);
    var s := Run(Initial(limits), steps);
    ActiveIsSum(s.pool);
    forall i | 0 <= i < |s.calls| && s.calls[i].phase.Waiting?
      ensures s.pool.active == limits.active
              || ActiveFor(s.pool.counts, s.calls[i].provider) == limits.perProvider
    {
      assert PhaseAgrees(s, i);
      var k :| 0 <= k < |s.pool.queue| && s.pool.queue[k].id == i;
      assert !CanStart(s.pool, s.pool.queue[k].provider);
    }
  }

  lemma {:induction false} DrainKeepsLimits(s: Pool)
    ensures Drain(s).limits == s.limits
    decreases |s.queue|
  {
    if s.active < s.limits.active && s.queue != [] {
      var i := FirstStartable(s, 0);
      if i < |s.queue| {
        var t := s.(queue := Without(s.queue, i));
        DrainKeepsLimits(if s.queue[i].id in s.aborted then t else Grant(t, s.queue[i]));
      }
    }
  }

  lemma ExecKeepsLimits(s: World, step: Step)
    ensures Exec(s, step).pool.limits == s.pool.limits
  {
    match step
    case Start(p) =>
      DrainKeepsLimits(s.pool.(queue := s.pool.queue + [Waiter(|s.calls|, p)]));
    case Finish(id) =>
      var i := PlaceOf(s.pool.held, id);
      if i < |s.pool.held| {
        DrainKeepsLimits(GivenBack(s.pool, i));
      }
    case _ =>
  }

  lemma {:induction false} RunKeepsLimits(s: World, steps: seq<Step>)
    ensures Run(s, steps).pool.limits == s.pool.limits
    decreases |steps|
  {
    if steps != [] {
      ExecKeepsLimits(s, steps[0]);
      RunKeepsLimits(Exec(s, steps[0]), steps[1..]);
    }
  }

  lemma WaitersComeAfterGrants(s: World, i: CallId, j: CallId)
    requires Inv(s) && i < |s.calls| && j < |s.calls| && s.calls[i].provider == s.calls[j].provider
    requires s.calls[i].phase.Waiting? && GotSlot(s.calls[j].phase)
    ensures j < i
  {
    assert PhaseAgrees(s, i) && PhaseAgrees(s, j);
    PlaceOfMember(s.pool.granted, j);
    PlaceOfMember(s.pool.queue, i);
    var a := PlaceOf(s.pool.queue, i);
    var b := PlaceOf(s.pool.granted, j);
    assert s.pool.queue[a].provider == s.calls[i].provider;
    assert s.pool.granted[b].provider == s.calls[j].provider;
  }

  /** First come, first served, provider by provider: when a later call of a provider has
      been granted a slot no earlier one still waits, and two granted calls of a provider
      were granted in the order in which they came. */
  lemma ProvidersAreServedInOrder(limits: Limits, steps: seq<Step>, i: CallId, j: CallId)
    requires i < j < |Run(Initial(limits), steps).calls|
    requires Run(Initial(limits), steps).calls[i].provider == Run(Initial(limits), steps).calls[j].provider
    requires GotSlot(Run(Initial(limits), steps).calls[j].phase)
    ensures var s := Run(Initial(limits), steps);
            && !s.calls[i].phase.Waiting?
            && (GotSlot(s.calls[i].phase) ==>
                  PlaceOf(s.pool.granted, i) < PlaceOf(s.pool.granted, j) < |s.pool.granted|)
  {
    InitialInv(limits);
    RunKeeps(Initial(limits), steps);
    var s := Run(Initial(limits), steps);
    assert PhaseAgrees(s, i) && PhaseAgrees(s, j);
    PlaceOfMember(s.pool.granted, j);
    PlaceOfMember(s.pool.granted, i);
    var b := PlaceOf(s.pool.granted, j);
    assert s.pool.granted[b].provider == s.calls[j].provider;
    if s.calls[i].phase.Waiting? {
      WaitersComeAfterGrants(s, i, j);
    }
    if GotSlot(s.calls[i].phase) {
      var a := PlaceOf(s.pool.granted, i);
      assert s.pool.granted[a].provider == s.calls[i].provider;
      assert a != b;
    }
  }

  predicate Decided(c: Call) {
    c.phase.Closing? || c.phase.Settled?
  }

  lemma DecisionStaysOneStep(s: World, step: Step, id: CallId)
    requires id < |s.calls| && Decided(s.calls[id])
    ensures var t := Exec(s, step);
            && id < |t.calls| && Decided(t.calls[id])
            && t.calls[id].phase.outcome == s.calls[id].phase.outcome
            && t.calls[id].phase.slot == s.calls[id].phase.slot
  {
  }

  /** The race is decided once: what comes later, the timer or the operation, changes
      neither the outcome nor whether the call had a slot. In particular a waiter that
      timed out in the queue is never granted one. */
  lemma {:induction false} DecisionIsFinal(s: World, steps: seq<Step>, id: CallId)
    requires id < |s.calls| && Decided(s.calls[id])
    ensures var t := Run(s, steps);
            && id < |t.calls| && Decided(t.calls[id])
            && t.calls[id].phase.outcome == s.calls[id].phase.outcome
            && t.calls[id].phase.slot == s.calls[id].phase.slot
    decreases |steps|
  {
    if steps != [] {
      DecisionStaysOneStep(s, steps[0], id);
      DecisionIsFinal(Exec(s, steps[0]), steps[1..], id);
    }
  }
}
