// What a journey is counted under, told from its events alone: its flags, its outcome, the
// bucket of its first choice, and how long it is remembered.

module JourneyMarks {
  import opened OrderedMaps
  import opened Common
  import opened AnalyticsJourneys
  import opened AnalyticsRuns

  // ---------------------------------------------------------------------------------
  // Flags
  // ---------------------------------------------------------------------------------

  /** The event raises the flag for the journey. */
  predicate Raises(e: Event, id: JourneyId, f: Flag) {
    e.journey == Some(id) && (e.kind == Flagged(f) || (e.kind.Started? && f == SearchesStarted))
  }

  predicate FirstRaisedAt(events: seq<Event>, id: JourneyId, f: Flag, k: nat) {
    k < |events| && Raises(events[k], id, f) && forall i :: 0 <= i < k ==> !Raises(events[i], id, f)
  }

  lemma NoteChoiceFlags(b: Buckets, j: Journey, at: int)
    ensures NoteChoice(b, j, at).1.flags == j.flags
  {
  }

  lemma ApplyFlags(b: Buckets, j: Journey, e: Event, id: JourneyId, f: Flag)
    requires UtcDay(e.at) in b && e.journey == Some(id)
    ensures var j' := Apply(b, j, e).1;
            && (f in j'.flags <==> f in j.flags || Raises(e, id, f))
            && (f in j'.flags ==> j'.flags[f] == if f in j.flags then j.flags[f] else UtcDay(e.at))
  {
  }

  lemma RecordFlags(s: State, e: Event, id: JourneyId, f: Flag)
    requires Distinct(s.journeys)
    ensures var j, j' := JourneyOf(s, id), JourneyOf(Record(s, e), id);
            && (f in j'.flags <==> f in j.flags || Raises(e, id, f))
            && (f in j'.flags ==> j'.flags[f] == if f in j.flags then j.flags[f] else UtcDay(e.at))
  {
    if e.journey == Some(id) {
      RecordOwn(s, e, id);
      ApplyFlags(Opened(s.buckets, UtcDay(e.at)), StateFor(s, id, e.at), e, id, f);
    } else {
      RecordOther(s, e, id);
    }
  }

  /** A journey bears a flag exactly when one of its events raised it, on the day of the first
      of them to arrive. */
  lemma {:induction false} FlagsAreRaisedByEvents(events: seq<Event>, id: JourneyId, f: Flag)
    ensures var j := JourneyOf(RecordAll(events), id);
            if f in j.flags then exists k: nat :: FirstRaisedAt(events, id, f, k) && j.flags[f] == UtcDay(events[k].at)
            else forall i :: 0 <= i < |events| ==> !Raises(events[i], id, f)
    decreases |events|
  {
    if events != [] {
      var n := |events| - 1;
      var s := RecordAll(events[..n]);
      RecordAllDistinct(events[..n]);
      FlagsAreRaisedByEvents(events[..n], id, f);
      RecordFlags(s, events[n], id, f);
      if f in JourneyOf(s, id).flags {
        var k: nat :| FirstRaisedAt(events[..n], id, f, k) && JourneyOf(s, id).flags[f] == UtcDay(events[..n][k].at);
        FirstStays(events, id, f, n, k);
      } else {
        NoneBefore(events, id, f, n);
      }
    }
  }

  lemma FirstStays(events: seq<Event>, id: JourneyId, f: Flag, n: nat, k: nat)
    requires n <= |events| && FirstRaisedAt(events[..n], id, f, k)
    ensures FirstRaisedAt(events, id, f, k) && events[..n][k] == events[k]
  {
    forall i | 0 <= i < k ensures !Raises(events[i], id, f) {
      assert events[..n][i] == events[i];
    }
  }

  lemma NoneBefore(events: seq<Event>, id: JourneyId, f: Flag, n: nat)
    requires n == |events| - 1
    requires forall i :: 0 <= i < n ==> !Raises(events[..n][i], id, f)
    ensures if Raises(events[n], id, f) then FirstRaisedAt(events, id, f, n)
            else forall i :: 0 <= i < |events| ==> !Raises(events[i], id, f)
  {
    forall i | 0 <= i < n ensures !Raises(events[i], id, f) {
      assert events[..n][i] == events[i];
    }
  }

  // ---------------------------------------------------------------------------------
  // Outcomes
  // ---------------------------------------------------------------------------------

  /** The counts that an outcome belongs to. */
  predicate CountsUnder(k: EndKey, completed: bool, outcome: Outcome) {
    match k
    case SearchesCompleted => completed
    case SearchesFailed => !completed
    case VisibleResults => outcome in {Results, Partial}
    case NoResults => outcome == Nothing
    case PartialResults => outcome == Partial
    case ProviderErrors => outcome == ProviderError
  }

  lemma EndKeysAre(k: EndKey, completed: bool, outcome: Outcome)
    ensures k in EndKeys(completed, outcome) <==> CountsUnder(k, completed, outcome)
  {
  }

  /** A journey whose last ending event completed is counted under completed and not under
      failed, and under what that event found, on its day and on no other. */
  lemma LastEndingIsCounted(events: seq<Event>, id: JourneyId, k: nat, d: Day, key: EndKey)
    requires k < |events| && EndsJourney(events[k], id)
    requires forall i :: k < i < |events| ==> !EndsJourney(events[i], id)
    ensures Bears(JourneyOf(RecordAll(events), id), d, Ending(key))
            <==> d == UtcDay(events[k].at) && CountsUnder(key, events[k].kind.completed, events[k].kind.outcome)
  {
    LastOutcomeCounts(events, id, k);
    EndKeysAre(key, events[k].kind.completed, events[k].kind.outcome);
  }

  // ---------------------------------------------------------------------------------
  // The bucket of a first choice
  // ---------------------------------------------------------------------------------

  /** From when on a duration falls into a bucket, in milliseconds. */
  function From(x: Duration): int {
    match x
    case Under2s => 0
    case To5s => 2_000
    case To15s => 5_000
    case To30s => 15_000
    case To60s => 30_000
    case To3m => 60_000
    case Over3m => 180_000
  }

  function Next(x: Duration): Option<Duration> {
    match x
    case Under2s => Some(To5s)
    case To5s => Some(To15s)
    case To15s => Some(To30s)
    case To30s => Some(To60s)
    case To60s => Some(To3m)
    case To3m => Some(Over3m)
    case Over3m => None
  }

  /** Every duration falls into the one bucket whose range holds it. */
  lemma DurationsAreBucketed(ms: int, x: Duration)
    requires ms >= 0
    ensures DurationBucket(ms) == x <==> From(x) <= ms && (Next(x).Some? ==> ms < From(Next(x).value))
  {
  }

  // ---------------------------------------------------------------------------------
  // How long a journey is remembered
  // ---------------------------------------------------------------------------------

  lemma RecordSeen(s: State, e: Event, id: JourneyId)
    requires Distinct(s.journeys)
    ensures e.journey != Some(id) ==> (Has(Record(s, e).journeys, id) <==> Has(s.journeys, id))
    ensures e.journey != Some(id) && Has(s.journeys, id) ==> Get(Record(s, e).journeys, id) == Get(s.journeys, id)
    ensures e.journey == Some(id) ==>
              && Has(Record(s, e).journeys, id)
              && Get(Record(s, e).journeys, id).lastSeenAt ==
                   if Has(s.journeys, id) && Get(s.journeys, id).lastSeenAt > e.at then Get(s.journeys, id).lastSeenAt
                   else e.at
  {
    if e.journey.Some? {
      var x := e.journey.value;
      PutEffect(s.journeys, x, Apply(Opened(s.buckets, UtcDay(e.at)), StateFor(s, x, e.at), e).1);
      ApplySeen(Opened(s.buckets, UtcDay(e.at)), StateFor(s, x, e.at), e);
    }
  }

  lemma ApplySeen(b: Buckets, j: Journey, e: Event)
    requires UtcDay(e.at) in b
    ensures Apply(b, j, e).1.lastSeenAt == j.lastSeenAt
  {
  }

  /** The journey was last seen at the latest of its events, whatever their order. */
  ghost predicate SeenAt(events: seq<Event>, id: JourneyId, t: int) {
    && (exists i :: 0 <= i < |events| && events[i].journey == Some(id) && events[i].at == t)
    && (forall i :: 0 <= i < |events| && events[i].journey == Some(id) ==> events[i].at <= t)
  }

  lemma SeenStep(events: seq<Event>, e: Event, id: JourneyId, t: int)
    requires SeenAt(events, id, t)
    ensures SeenAt(events + [e], id, if e.journey == Some(id) && e.at > t then e.at else t)
  {
    var more := events + [e];
    assert more[|events|] == e;
    assert forall i :: 0 <= i < |events| ==> more[i] == events[i];
    var i :| 0 <= i < |events| && events[i].journey == Some(id) && events[i].at == t;
    assert more[i].at == t;
  }

  lemma SeenFirst(events: seq<Event>, e: Event, id: JourneyId)
    requires e.journey == Some(id) && forall i :: 0 <= i < |events| ==> events[i].journey != Some(id)
    ensures SeenAt(events + [e], id, e.at)
  {
    var more := events + [e];
    assert more[|events|] == e;
    assert forall i :: 0 <= i < |events| ==> more[i] == events[i];
  }

  /** A journey is known exactly when it has an event, and was last seen at its latest one. */
  lemma {:induction false} LastSeenIsLatest(events: seq<Event>, id: JourneyId)
    ensures Has(RecordAll(events).journeys, id) <==> exists i :: 0 <= i < |events| && events[i].journey == Some(id)
    ensures Has(RecordAll(events).journeys, id) ==> SeenAt(events, id, Get(RecordAll(events).journeys, id).lastSeenAt)
    decreases |events|
  {
    if events != [] {
      var n := |events| - 1;
      var s, e := RecordAll(events[..n]), events[n];
      assert events == events[..n] + [e];
      RecordAllDistinct(events[..n]);
      LastSeenIsLatest(events[..n], id);
      RecordSeen(s, e, id);
      if Has(s.journeys, id) {
        SeenStep(events[..n], e, id, Get(s.journeys, id).lastSeenAt);
      } else if e.journey == Some(id) {
        SeenFirst(events[..n], e, id);
      }
    }
  }

  /** Pruning forgets exactly the journeys last seen before the cutoff. */
  lemma {:induction false} PruneForgetsIff(js: seq<Entry<JourneyId, Journey>>, cutoff: int, x: Entry<JourneyId, Journey>)
    ensures x in KeptJourneys(js, cutoff) <==> x in js && x.value.lastSeenAt >= cutoff
    decreases |js|
  {
    if js != [] {
      var n := |js| - 1;
      PruneForgetsIff(js[..n], cutoff, x);
      assert js == js[..n] + [js[n]];
    }
  }
}
