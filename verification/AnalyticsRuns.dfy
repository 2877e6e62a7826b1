// Journey accounting over whole runs: events in any order of their timestamps, a clock,
// retention sweeps, and journey states forgotten while their counts stay.

module AnalyticsRuns {
  import opened OrderedMaps
  import opened Common
  import opened AnalyticsJourneys

  datatype Retention = Retention(aggregates: nat, journeys: nat)

  /** `cutoff` is the first day that the latest sweep kept. `retired` lists the journeys
      whose state was forgotten; the source keeps neither. */
  datatype Sys = Sys(state: State, clock: int, cutoff: Day, retired: seq<Journey>)

  datatype Step =
    | Tick(elapsed: nat)
    | Observe(event: Event)
    | Sweep
    | ForgetJourneys
    | Clear

  function Exec(r: Retention, s: Sys, step: Step): Sys {
    match step
    case Tick(d) => s.(clock := s.clock + d)
    case Observe(e) => s.(state := Record(s.state, e))
    case Sweep =>
      var cutoff := UtcDay(s.clock - r.aggregates);
      s.(state := Prune(s.state, cutoff, s.clock - r.journeys), cutoff := cutoff,
         retired := s.retired + LostJourneys(s.state.journeys, s.clock - r.journeys))
    case ForgetJourneys =>
      s.(state := s.state.(journeys := []), retired := s.retired + Values(s.state.journeys))
    case Clear => s.(state := State(map[], []), retired := [])
  }

  function Run(r: Retention, s: Sys, steps: seq<Step>): Sys
    decreases |steps|
  {
    if steps == [] then s else Run(r, Exec(r, s, steps[0]), steps[1..])
  }

  function Initial(r: Retention, clock: int): Sys {
    Sys(State(map[], []), clock, UtcDay(clock - r.aggregates), [])
  }

  /** The journeys, live and retired, that bear the mark on the day. */
  function Total(s: Sys, d: Day, m: Mark): nat {
    Bearing(Values(s.state.journeys), d, m) + Bearing(s.retired, d, m)
  }

  ghost predicate Counted(s: Sys) {
    forall d: Day, m: Mark :: d >= s.cutoff ==> Count(s.state.buckets, d, m) == Total(s, d, m)
  }

  predicate AllGood(js: seq<Journey>) {
    forall i :: 0 <= i < |js| ==> Good(js[i])
  }

  ghost predicate Inv(r: Retention, s: Sys) {
    && Distinct(s.state.journeys)
    && AllGood(Values(s.state.journeys)) && AllGood(s.retired)
    && s.cutoff <= UtcDay(s.clock - r.aggregates)
    && Counted(s)
  }

  // ---------------------------------------------------------------------------------
  // Events
  // ---------------------------------------------------------------------------------

  lemma OpenedCounts(b: Buckets, day: Day, d: Day, m: Mark)
    ensures Count(Opened(b, day), d, m) == Count(b, d, m)
  {
  }

  lemma StateForEffect(s: Sys, id: JourneyId, at: int)
    requires Distinct(s.state.journeys) && AllGood(Values(s.state.journeys))
    ensures Good(StateFor(s.state, id, at))
    ensures forall d, m :: Bears(StateFor(s.state, id, at), d, m) ==
              Bears(if Has(s.state.journeys, id) then Get(s.state.journeys, id) else NewJourney(at), d, m)
  {
    if Has(s.state.journeys, id) {
      assert Good(Values(s.state.journeys)[Find(s.state.journeys, id)]);
    }
  }

  /** On a day that no sweep has dropped, an event changes the counts as it changes the
      marks of its journey, and nothing is hidden by a clamp. */
  lemma ObserveCounts(r: Retention, s: Sys, e: Event, d: Day, m: Mark)
    requires Inv(r, s) && e.journey.Some? && d >= s.cutoff
    ensures var t := Exec(r, s, Observe(e));
            Count(t.state.buckets, d, m) == Total(t, d, m)
  {
    var id := e.journey.value;
    var js := s.state.journeys;
    var b := Opened(s.state.buckets, UtcDay(e.at));
    var was := if Has(js, id) then Get(js, id) else NewJourney(e.at);
    var j := StateFor(s.state, id, e.at);
    StateForEffect(s, id, e.at);
    var (b', j') := Apply(b, j, e);
    forall x: Mark ensures Count(b, d, x) >= Unit(Bears(j, d, x)) {
      OpenedCounts(s.state.buckets, UtcDay(e.at), d, x);
      assert Count(s.state.buckets, d, x) == Total(s, d, x);
      PutBearing(js, id, j', was, d, x);
    }
    ApplyFollows(b, j, e, d);
    assert Count(b', d, m) + Unit(Bears(j, d, m)) == Count(b, d, m) + Unit(Bears(j', d, m));
    OpenedCounts(s.state.buckets, UtcDay(e.at), d, m);
    assert Count(s.state.buckets, d, m) == Total(s, d, m);
    PutBearing(js, id, j', was, d, m);
  }

  lemma ApplyGood(b: Buckets, j: Journey, e: Event)
    requires UtcDay(e.at) in b && Good(j)
    ensures Good(Apply(b, j, e).1)
  {
    if e.kind.Ended? {
      EndKeysAreGood(e.kind.completed, e.kind.outcome);
    }
  }

  lemma ObserveShape(r: Retention, s: Sys, e: Event)
    requires Inv(r, s) && e.journey.Some?
    ensures var t := Exec(r, s, Observe(e));
            Distinct(t.state.journeys) && AllGood(Values(t.state.journeys))
  {
    var id := e.journey.value;
    var js := s.state.journeys;
    var b := Opened(s.state.buckets, UtcDay(e.at));
    var j := StateFor(s.state, id, e.at);
    StateForEffect(s, id, e.at);
    var j' := Apply(b, j, e).1;
    ApplyGood(b, j, e);
    PutEffect(js, id, j');
    var p := Put(js, id, j');
    forall i | 0 <= i < |p| ensures Good(Values(p)[i]) {
      if i != Find(js, id) {
        assert Good(Values(js)[i]);
      }
    }
  }

  lemma ObserveKeeps(r: Retention, s: Sys, e: Event)
    requires Inv(r, s)
    ensures Inv(r, Exec(r, s, Observe(e)))
  {
    var t := Exec(r, s, Observe(e));
    if e.journey.Some? {
      ObserveShape(r, s, e);
      forall d: Day, m: Mark | d >= s.cutoff ensures Count(t.state.buckets, d, m) == Total(t, d, m) {
        ObserveCounts(r, s, e, d, m);
      }
    } else {
      forall d: Day, m: Mark | d >= s.cutoff ensures Count(t.state.buckets, d, m) == Total(t, d, m) {
        OpenedCounts(s.state.buckets, UtcDay(e.at), d, m);
        assert Count(s.state.buckets, d, m) == Total(s, d, m);
      }
    }
  }

  // ---------------------------------------------------------------------------------
  // Sweeps
  // ---------------------------------------------------------------------------------

  lemma KeptGood(js: seq<Entry<JourneyId, Journey>>, cutoff: int)
    requires AllGood(Values(js))
    ensures AllGood(Values(KeptJourneys(js, cutoff))) && AllGood(LostJourneys(js, cutoff))
  {
    KeptIsSubset(js, cutoff);
    var kept := KeptJourneys(js, cutoff);
    forall i | 0 <= i < |kept| ensures Good(Values(kept)[i]) {
      assert kept[i] in js;
      var k :| 0 <= k < |js| && js[k] == kept[i];
      assert Good(Values(js)[k]);
    }
    var lost := LostJourneys(js, cutoff);
    forall i | 0 <= i < |lost| ensures Good(lost[i]) {
      assert lost[i] in Values(js);
    }
  }

  lemma SweepKeeps(r: Retention, s: Sys)
    requires Inv(r, s)
    ensures Inv(r, Exec(r, s, Sweep))
  {
    var t := Exec(r, s, Sweep);
    var cutoff := s.clock - r.journeys;
    KeptIsDistinct(s.state.journeys, cutoff);
    KeptGood(s.state.journeys, cutoff);
    forall d: Day, m: Mark | d >= t.cutoff ensures Count(t.state.buckets, d, m) == Total(t, d, m) {
      SweepCounts(r, s, d, m);
    }
  }

  lemma SweepCounts(r: Retention, s: Sys, d: Day, m: Mark)
    requires d >= s.cutoff && Count(s.state.buckets, d, m) == Total(s, d, m)
    requires d >= UtcDay(s.clock - r.aggregates)
    ensures var t := Exec(r, s, Sweep); Count(t.state.buckets, d, m) == Total(t, d, m)
  {
    var cutoff := s.clock - r.journeys;
    PruneBearing(s.state.journeys, cutoff, d, m);
    BearingSplit(s.retired, LostJourneys(s.state.journeys, cutoff), d, m);
  }

  lemma ForgetKeeps(r: Retention, s: Sys)
    requires Inv(r, s)
    ensures Inv(r, Exec(r, s, ForgetJourneys))
  {
    var t := Exec(r, s, ForgetJourneys);
    forall d: Day, m: Mark | d >= t.cutoff ensures Count(t.state.buckets, d, m) == Total(t, d, m) {
      assert Count(s.state.buckets, d, m) == Total(s, d, m);
      BearingSplit(s.retired, Values(s.state.journeys), d, m);
    }
  }

  lemma TickKeeps(r: Retention, s: Sys, d: nat)
    requires Inv(r, s)
    ensures Inv(r, Exec(r, s, Tick(d)))
  {
    var t := Exec(r, s, Tick(d));
    forall x: Day, m: Mark | x >= t.cutoff ensures Count(t.state.buckets, x, m) == Total(t, x, m) {
      assert Count(s.state.buckets, x, m) == Total(s, x, m);
    }
  }

  lemma StepKeeps(r: Retention, s: Sys, step: Step)
    requires Inv(r, s)
    ensures Inv(r, Exec(r, s, step))
  {
    match step
    case Tick(d) => TickKeeps(r, s, d);
    case Observe(e) => ObserveKeeps(r, s, e);
    case Sweep => SweepKeeps(r, s);
    case ForgetJourneys => ForgetKeeps(r, s);
    case Clear =>
  }

  lemma {:induction false} RunKeeps(r: Retention, s: Sys, steps: seq<Step>)
    requires Inv(r, s)
    ensures Inv(r, Run(r, s, steps))
    decreases |steps|
  {
    if steps != [] {
      StepKeeps(r, s, steps[0]);
      RunKeeps(r, Exec(r, s, steps[0]), steps[1..]);
    }
  }

  // ---------------------------------------------------------------------------------
  // Whole runs
  // ---------------------------------------------------------------------------------

  /** In every reachable state, on every day that is not older than the retention, each
      count equals the number of journeys that bear the mark on that day: each journey
      counts once under its current outcome, once per flag and once for its first choice,
      and a forgotten journey keeps what it had. */
  lemma EveryJourneyCountsOnce(r: Retention, clock: int, steps: seq<Step>, d: Day, m: Mark)
    requires var s := Run(r, Initial(r, clock), steps); d >= UtcDay(s.clock - r.aggregates)
    ensures var s := Run(r, Initial(r, clock), steps);
            Count(s.state.buckets, d, m) == Total(s, d, m)
  {
    RunKeeps(r, Initial(r, clock), steps);
    var s := Run(r, Initial(r, clock), steps);
    assert d >= s.cutoff;
  }

  /** How many of the journeys ended on the day. */
  function EndedOn(js: seq<Journey>, d: Day): nat {
    if js == [] then 0
    else
      var j := js[|js| - 1];
      EndedOn(js[..|js| - 1], d) + Unit(j.terminal.Some? && j.terminal.value.day == d)
  }

  lemma {:induction false} EndingsBalance(js: seq<Journey>, d: Day)
    requires AllGood(js)
    ensures Bearing(js, d, Ending(SearchesCompleted)) + Bearing(js, d, Ending(SearchesFailed)) == EndedOn(js, d)
    ensures Bearing(js, d, Ending(PartialResults)) <= Bearing(js, d, Ending(VisibleResults))
    ensures Bearing(js, d, Ending(VisibleResults)) + Bearing(js, d, Ending(NoResults))
              + Bearing(js, d, Ending(ProviderErrors)) <= EndedOn(js, d)
    decreases |js|
  {
    if js != [] {
      EndingsBalance(js[..|js| - 1], d);
      assert Good(js[|js| - 1]);
    }
  }

  /** A day's completed and failed counts add up to the journeys whose outcome lies on it;
      partial results are visible results; visible, none and provider error exclude each
      other. */
  lemma OutcomesAddUp(r: Retention, clock: int, steps: seq<Step>, d: Day)
    requires var s := Run(r, Initial(r, clock), steps); d >= UtcDay(s.clock - r.aggregates)
    ensures var s := Run(r, Initial(r, clock), steps);
            var b := s.state.buckets;
            var ended := EndedOn(Values(s.state.journeys), d) + EndedOn(s.retired, d);
            && Count(b, d, Ending(SearchesCompleted)) + Count(b, d, Ending(SearchesFailed)) == ended
            && Count(b, d, Ending(PartialResults)) <= Count(b, d, Ending(VisibleResults))
            && Count(b, d, Ending(VisibleResults)) + Count(b, d, Ending(NoResults))
                 + Count(b, d, Ending(ProviderErrors)) <= ended
  {
    RunKeeps(r, Initial(r, clock), steps);
    var s := Run(r, Initial(r, clock), steps);
    assert forall k: EndKey :: Count(s.state.buckets, d, Ending(k)) == Total(s, d, Ending(k));
    EndingsBalance(Values(s.state.journeys), d);
    EndingsBalance(s.retired, d);
  }

  // ---------------------------------------------------------------------------------
  // What a journey's state says about its events
  // ---------------------------------------------------------------------------------

  function RecordAll(events: seq<Event>): State {
    if events == [] then State(map[], [])
    else Record(RecordAll(events[..|events| - 1]), events[|events| - 1])
  }

  predicate EndsJourney(e: Event, id: JourneyId) {
    e.journey == Some(id) && e.kind.Ended?
  }

  predicate StartsJourney(e: Event, id: JourneyId) {
    e.journey == Some(id) && e.kind.Started?
  }

  predicate Chooses(e: Event, id: JourneyId) {
    e.journey == Some(id) && IsFirstChoice(e.kind)
  }

  function JourneyOf(s: State, id: JourneyId): Journey {
    if Has(s.journeys, id) then Get(s.journeys, id) else NewJourney(0)
  }

  lemma {:induction false} RecordAllDistinct(events: seq<Event>)
    ensures Distinct(RecordAll(events).journeys)
    decreases |events|
  {
    if events != [] {
      var n := |events| - 1;
      RecordAllDistinct(events[..n]);
      var s := RecordAll(events[..n]);
      var e := events[n];
      if e.journey.Some? {
        PutEffect(s.journeys, e.journey.value,
                  Apply(Opened(s.buckets, UtcDay(e.at)), StateFor(s, e.journey.value, e.at), e).1);
      }
    }
  }

  lemma RecordOther(s: State, e: Event, id: JourneyId)
    requires Distinct(s.journeys) && e.journey != Some(id)
    ensures JourneyOf(Record(s, e), id) == JourneyOf(s, id)
  {
    if e.journey.Some? {
      PutEffect(s.journeys, e.journey.value,
                Apply(Opened(s.buckets, UtcDay(e.at)), StateFor(s, e.journey.value, e.at), e).1);
    }
  }

  lemma RecordOwn(s: State, e: Event, id: JourneyId)
    requires Distinct(s.journeys) && e.journey == Some(id)
    ensures JourneyOf(Record(s, e), id)
              == Apply(Opened(s.buckets, UtcDay(e.at)), StateFor(s, id, e.at), e).1
  {
    PutEffect(s.journeys, id, Apply(Opened(s.buckets, UtcDay(e.at)), StateFor(s, id, e.at), e).1);
  }

  lemma ApplyTimes(b: Buckets, j: Journey, e: Event)
    requires UtcDay(e.at) in b
    ensures var j' := Apply(b, j, e).1;
            && j'.terminal == (if e.kind.Ended? then
                                 Some(Terminal(UtcDay(e.at), EndKeys(e.kind.completed, e.kind.outcome)))
                               else j.terminal)
            && j'.startedAt == (if e.kind.Started? then Earlier(j.startedAt, e.at) else j.startedAt)
            && j'.firstChoiceAt ==
                 (if IsFirstChoice(e.kind) then Earlier(j.firstChoiceAt, e.at) else j.firstChoiceAt)
  {
  }

  lemma RecordTimes(s: State, e: Event, id: JourneyId)
    requires Distinct(s.journeys)
    ensures var j, j' := JourneyOf(s, id), JourneyOf(Record(s, e), id);
            && j'.terminal == (if EndsJourney(e, id) then
                                 Some(Terminal(UtcDay(e.at), EndKeys(e.kind.completed, e.kind.outcome)))
                               else j.terminal)
            && j'.startedAt == (if StartsJourney(e, id) then Earlier(j.startedAt, e.at) else j.startedAt)
            && j'.firstChoiceAt ==
                 (if Chooses(e, id) then Earlier(j.firstChoiceAt, e.at) else j.firstChoiceAt)
  {
    if e.journey == Some(id) {
      RecordOwn(s, e, id);
      ApplyTimes(Opened(s.buckets, UtcDay(e.at)), StateFor(s, id, e.at), e);
    } else {
      RecordOther(s, e, id);
    }
  }

  lemma RecordTerminal(s: State, e: Event, id: JourneyId)
    requires Distinct(s.journeys)
    ensures JourneyOf(Record(s, e), id).terminal ==
              if EndsJourney(e, id) then Some(Terminal(UtcDay(e.at), EndKeys(e.kind.completed, e.kind.outcome)))
              else JourneyOf(s, id).terminal
  {
    RecordTimes(s, e, id);
  }

  /** The outcome that counts is that of the last ending event, on that event's own day. */
  lemma {:induction false} LastOutcomeCounts(events: seq<Event>, id: JourneyId, k: nat)
    requires k < |events| && EndsJourney(events[k], id)
    requires forall i :: k < i < |events| ==> !EndsJourney(events[i], id)
    ensures JourneyOf(RecordAll(events), id).terminal
              == Some(Terminal(UtcDay(events[k].at), EndKeys(events[k].kind.completed, events[k].kind.outcome)))
    decreases |events|
  {
    var n := |events| - 1;
    RecordAllDistinct(events[..n]);
    if k < n {
      LastOutcomeCounts(events[..n], id, k);
    }
    RecordTerminal(RecordAll(events[..n]), events[n], id);
  }

  lemma {:induction false} NoOutcomeYet(events: seq<Event>, id: JourneyId)
    requires forall i :: 0 <= i < |events| ==> !EndsJourney(events[i], id)
    ensures JourneyOf(RecordAll(events), id).terminal.None?
    decreases |events|
  {
    if events != [] {
      var n := |events| - 1;
      RecordAllDistinct(events[..n]);
      NoOutcomeYet(events[..n], id);
      RecordTerminal(RecordAll(events[..n]), events[n], id);
    }
  }

  /** t is the least timestamp of the events that satisfy P, absent when none does. */
  ghost predicate LeastAt(t: Option<int>, events: seq<Event>, P: Event -> bool) {
    && (t.None? <==> forall i :: 0 <= i < |events| ==> !P(events[i]))
    && (t.Some? ==>
          && (exists i :: 0 <= i < |events| && P(events[i]) && events[i].at == t.value)
          && (forall i :: 0 <= i < |events| && P(events[i]) ==> t.value <= events[i].at))
  }

  lemma LeastStep(t: Option<int>, events: seq<Event>, e: Event, P: Event -> bool)
    requires LeastAt(t, events, P)
    ensures LeastAt(if P(e) then Earlier(t, e.at) else t, events + [e], P)
  {
    var more := events + [e];
    assert more[|events|] == e;
    assert forall i :: 0 <= i < |events| ==> more[i] == events[i];
    if t.Some? {
      var i :| 0 <= i < |events| && P(events[i]) && events[i].at == t.value;
      assert P(more[i]);
    }
  }

  /** A journey starts at its earliest start event and chooses at its earliest choice, in
      whatever order the events arrive. */
  lemma {:induction false} EarliestTimesAreKept(events: seq<Event>, id: JourneyId)
    ensures LeastAt(JourneyOf(RecordAll(events), id).startedAt, events, e => StartsJourney(e, id))
    ensures LeastAt(JourneyOf(RecordAll(events), id).firstChoiceAt, events, e => Chooses(e, id))
    decreases |events|
  {
    if events != [] {
      var n := |events| - 1;
      var e := events[n];
      var s := RecordAll(events[..n]);
      RecordAllDistinct(events[..n]);
      EarliestTimesAreKept(events[..n], id);
      assert events == events[..n] + [e];
      LeastStep(JourneyOf(s, id).startedAt, events[..n], e, x => StartsJourney(x, id));
      LeastStep(JourneyOf(s, id).firstChoiceAt, events[..n], e, x => Chooses(x, id));
      RecordTimes(s, e, id);
    }
  }

  /** The first choice can be measured: it did not precede the start. */
  predicate Measurable(j: Journey) {
    j.startedAt.Some? && j.firstChoiceAt.Some? && j.firstChoiceAt.value >= j.startedAt.value
  }

  /** What a measurable journey's first choice is counted as. */
  function Measured(j: Journey): (Day, Duration)
    requires Measurable(j)
  {
    (UtcDay(j.firstChoiceAt.value), DurationBucket(j.firstChoiceAt.value - j.startedAt.value))
  }

  lemma ApplyRecords(b: Buckets, j: Journey, e: Event)
    requires UtcDay(e.at) in b && (j.recorded.None? ==> !Measurable(j))
    ensures var j' := Apply(b, j, e).1;
            && (j.recorded.Some? ==> j'.recorded == j.recorded)
            && (j.recorded.None? ==>
                  if Measurable(j') then j'.recorded == Some(Measured(j')) else j'.recorded.None?)
  {
  }

  lemma RecordRecords(s: State, e: Event, id: JourneyId)
    requires Distinct(s.journeys)
    requires JourneyOf(s, id).recorded.None? ==> !Measurable(JourneyOf(s, id))
    ensures var j, j' := JourneyOf(s, id), JourneyOf(Record(s, e), id);
            && (j.recorded.Some? ==> j'.recorded == j.recorded)
            && (j.recorded.None? ==>
                  if Measurable(j') then j'.recorded == Some(Measured(j')) else j'.recorded.None?)
  {
    if e.journey == Some(id) {
      RecordOwn(s, e, id);
      ApplyRecords(Opened(s.buckets, UtcDay(e.at)), StateFor(s, id, e.at), e);
    } else {
      RecordOther(s, e, id);
    }
  }

  /** The journey after the first k events. */
  function JourneyAfter(events: seq<Event>, id: JourneyId, k: nat): Journey
    requires k <= |events|
  {
    JourneyOf(RecordAll(events[..k]), id)
  }

  /** The first k events make the journey measurable, no fewer do, and what is recorded was
      measured then. */
  ghost predicate RecordedAt(events: seq<Event>, id: JourneyId, recorded: (Day, Duration), k: nat) {
    && k <= |events| && Measurable(JourneyAfter(events, id, k))
    && (forall i :: 0 <= i < k ==> !Measurable(JourneyAfter(events, id, i)))
    && recorded == Measured(JourneyAfter(events, id, k))
  }

  ghost predicate NeverMeasurable(events: seq<Event>, id: JourneyId) {
    forall k :: 0 <= k <= |events| ==> !Measurable(JourneyAfter(events, id, k))
  }

  lemma PrefixJourney(events: seq<Event>, id: JourneyId, n: nat, k: nat)
    requires k <= n <= |events|
    ensures JourneyAfter(events[..n], id, k) == JourneyAfter(events, id, k)
  {
    assert events[..n][..k] == events[..k];
  }

  lemma LastJourney(events: seq<Event>, id: JourneyId)
    ensures JourneyAfter(events, id, |events|) == JourneyOf(RecordAll(events), id)
  {
    assert events[..|events|] == events;
  }

  ghost predicate CountedWhenMeasurable(events: seq<Event>, id: JourneyId, recorded: Option<(Day, Duration)>) {
    match recorded
    case None => NeverMeasurable(events, id)
    case Some(r) => exists k: nat :: RecordedAt(events, id, r, k)
  }

  /** A first choice is counted as soon as it can be measured, with the start and the choice
      known at that point, and never again: no measurable choice is left uncounted. */
  lemma {:induction false} ChoiceIsCountedWhenMeasurable(events: seq<Event>, id: JourneyId)
    ensures CountedWhenMeasurable(events, id, JourneyOf(RecordAll(events), id).recorded)
    decreases |events|
  {
    LastJourney(events, id);
    if events != [] {
      var n := |events| - 1;
      ChoiceIsCountedWhenMeasurable(events[..n], id);
      RecordAllDistinct(events[..n]);
      LastJourney(events[..n], id);
      RecordRecords(RecordAll(events[..n]), events[n], id);
      ChoiceStep(events, id, JourneyOf(RecordAll(events[..n]), id).recorded);
    }
  }

  lemma ChoiceStep(events: seq<Event>, id: JourneyId, was: Option<(Day, Duration)>)
    requires events != [] && CountedWhenMeasurable(events[..|events| - 1], id, was)
    requires var now := JourneyAfter(events, id, |events|);
             if was.Some? then now.recorded == was
             else if Measurable(now) then now.recorded == Some(Measured(now))
             else now.recorded.None?
    ensures CountedWhenMeasurable(events, id, JourneyAfter(events, id, |events|).recorded)
  {
    var n := |events| - 1;
    forall k | 0 <= k <= n ensures JourneyAfter(events[..n], id, k) == JourneyAfter(events, id, k) {
      PrefixJourney(events, id, n, k);
    }
    if was.Some? {
      var k: nat :| RecordedAt(events[..n], id, was.value, k);
      assert RecordedAt(events, id, was.value, k);
    } else if Measurable(JourneyAfter(events, id, |events|)) {
      assert RecordedAt(events, id, Measured(JourneyAfter(events, id, |events|)), |events|);
    }
  }
}
