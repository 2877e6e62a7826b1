// Journey accounting: per-day counters that follow each journey's flags, its current
// terminal outcome (which a later event may move to another day) and its first choice.

module AnalyticsJourneys {
  import opened OrderedMaps
  import opened Common

  const DAY_MS := 24 * 60 * 60 * 1000

  type Day = int
  type JourneyId = string

  datatype Flag =
    | SearchesStarted | ResultsViewed | RecommendationsSelected | DetailsOpened
    | RechecksStarted | HandoffsOpened | RecoveriesUsed | JourneysAbandoned

  datatype EndKey =
    | SearchesCompleted | SearchesFailed | VisibleResults | NoResults | PartialResults | ProviderErrors

  datatype Outcome = Results | Partial | Nothing | ProviderError | OtherOutcome

  datatype Duration = Under2s | To5s | To15s | To30s | To60s | To3m | Over3m

  /** What a bucket counts: its `journeyCounts` and its `firstChoiceDurationBuckets`. */
  datatype Mark = Once(flag: Flag) | Ending(key: EndKey) | Choice(bucket: Duration)

  type Buckets = map<Day, map<Mark, nat>>

  datatype Terminal = Terminal(day: Day, keys: seq<EndKey>)

  /** `flags` and `recorded` also say on which day the flag and the first choice were
      counted; the source keeps a set of flags and a boolean. */
  datatype Journey = Journey(
    startedAt: Option<int>,
    firstChoiceAt: Option<int>,
    recorded: Option<(Day, Duration)>,
    lastSeenAt: int,
    flags: map<Flag, Day>,
    terminal: Option<Terminal>)

  datatype Kind =
    | Started
    | Ended(completed: bool, outcome: Outcome)
    | Flagged(flag: Flag)
    | Other

  datatype Event = Event(journey: Option<JourneyId>, at: int, kind: Kind)

  datatype State = State(buckets: Buckets, journeys: seq<Entry<JourneyId, Journey>>)

  function UtcDay(t: int): Day { t / DAY_MS }

  function DurationBucket(ms: int): Duration {
    if ms < 2_000 then Under2s
    else if ms < 5_000 then To5s
    else if ms < 15_000 then To15s
    else if ms < 30_000 then To30s
    else if ms < 60_000 then To60s
    else if ms < 180_000 then To3m
    else Over3m
  }

  predicate IsFirstChoice(kind: Kind) {
    kind in {Flagged(RecommendationsSelected), Flagged(DetailsOpened), Flagged(RechecksStarted),
             Flagged(HandoffsOpened)}
  }

  // ---------------------------------------------------------------------------------
  // Buckets
  // ---------------------------------------------------------------------------------

  function Count(b: Buckets, d: Day, m: Mark): nat {
    if d in b && m in b[d] then b[d][m] else 0
  }

  function Opened(b: Buckets, d: Day): Buckets {
    if d in b then b else b[d := map[]]
  }

  function Set(b: Buckets, d: Day, m: Mark, n: nat): Buckets
    requires d in b
  {
    var bucket: map<Mark, nat> := b[d][m := n];
    b[d := bucket]
  }

  function Bump(b: Buckets, d: Day, m: Mark): Buckets
    requires d in b
  {
    Set(b, d, m, Count(b, d, m) + 1)
  }

  /** `adjustJourneyCount` with -1. */
  function Lower(b: Buckets, d: Day, m: Mark): Buckets {
    if d !in b then b else Set(b, d, m, if Count(b, d, m) > 0 then Count(b, d, m) - 1 else 0)
  }

  function BumpAll(b: Buckets, d: Day, keys: seq<EndKey>): (r: Buckets)
    requires d in b
    ensures r.Keys == b.Keys
  {
    if keys == [] then b else Bump(BumpAll(b, d, keys[..|keys| - 1]), d, Ending(keys[|keys| - 1]))
  }

  function LowerAll(b: Buckets, d: Day, keys: seq<EndKey>): (r: Buckets)
    ensures r.Keys == b.Keys
  {
    if keys == [] then b else Lower(LowerAll(b, d, keys[..|keys| - 1]), d, Ending(keys[|keys| - 1]))
  }

  // ---------------------------------------------------------------------------------
  // One event
  // ---------------------------------------------------------------------------------

  function EndKeys(completed: bool, outcome: Outcome): seq<EndKey> {
    [if completed then SearchesCompleted else SearchesFailed]
    + (if outcome == Results || outcome == Partial then [VisibleResults] else [])
    + (if outcome == Nothing then [NoResults] else [])
    + (if outcome == Partial then [PartialResults] else [])
    + (if outcome == ProviderError then [ProviderErrors] else [])
  }

  function MarkOnce(b: Buckets, j: Journey, d: Day, f: Flag): (Buckets, Journey)
    requires d in b
  {
    if f in j.flags then (b, j) else (Bump(b, d, Once(f)), j.(flags := j.flags[f := d]))
  }

  function RemoveEnding(b: Buckets, j: Journey): (Buckets, Journey) {
    if j.terminal.None? then (b, j)
    else (LowerAll(b, j.terminal.value.day, j.terminal.value.keys), j.(terminal := None))
  }

  function SetEnding(b: Buckets, j: Journey, d: Day, completed: bool, outcome: Outcome): (Buckets, Journey)
    requires d in b
  {
    var (b', j') := RemoveEnding(b, j);
    assert d in b' by { assert b'.Keys == b.Keys; }
    (BumpAll(b', d, EndKeys(completed, outcome)),
     j'.(terminal := Some(Terminal(d, EndKeys(completed, outcome)))))
  }

  function Earlier(a: Option<int>, t: int): Option<int> {
    if a.None? || t < a.value then Some(t) else a
  }

  function NoteChoice(b: Buckets, j: Journey, at: int): (Buckets, Journey) {
    var j' := j.(firstChoiceAt := Earlier(j.firstChoiceAt, at));
    var first := j'.firstChoiceAt.value;
    if j.recorded.Some? || j.startedAt.None? || first < j.startedAt.value then (b, j')
    else
      var d := UtcDay(first);
      var bucket := DurationBucket(first - j.startedAt.value);
      (Bump(Opened(b, d), d, Choice(bucket)), j'.(recorded := Some((d, bucket))))
  }

  function NewJourney(at: int): Journey {
    Journey(None, None, None, at, map[], None)
  }

  function Seen(j: Journey, at: int): Journey {
    j.(lastSeenAt := if at > j.lastSeenAt then at else j.lastSeenAt)
  }

  function Apply(b: Buckets, j: Journey, e: Event): (Buckets, Journey)
    requires UtcDay(e.at) in b
  {
    var d := UtcDay(e.at);
    match e.kind
    case Started =>
      var (b1, j1) := MarkOnce(b, j.(startedAt := Earlier(j.startedAt, e.at)), d, SearchesStarted);
      if j1.firstChoiceAt.Some? then NoteChoice(b1, j1, j1.firstChoiceAt.value) else (b1, j1)
    case Ended(completed, outcome) => SetEnding(b, j, d, completed, outcome)
    case Flagged(f) =>
      var (b1, j1) := MarkOnce(b, j, d, f);
      if IsFirstChoice(e.kind) then NoteChoice(b1, j1, e.at) else (b1, j1)
    case Other => (b, j)
  }

  function StateFor(s: State, id: JourneyId, at: int): Journey {
    Seen(if Has(s.journeys, id) then Get(s.journeys, id) else NewJourney(at), at)
  }

  function Record(s: State, e: Event): State {
    var b := Opened(s.buckets, UtcDay(e.at));
    if e.journey.None? then s.(buckets := b)
    else
      var (b', j') := Apply(b, StateFor(s, e.journey.value, e.at), e);
      State(b', Put(s.journeys, e.journey.value, j'))
  }

  // ---------------------------------------------------------------------------------
  // Retention
  // ---------------------------------------------------------------------------------

  function KeptDays(b: Buckets, cutoff: Day): Buckets {
    map d | d in b && d >= cutoff :: b[d]
  }

  function KeptJourneys(js: seq<Entry<JourneyId, Journey>>, cutoff: int): seq<Entry<JourneyId, Journey>> {
    if js == [] then []
    else
      var n := |js| - 1;
      KeptJourneys(js[..n], cutoff) + (if js[n].value.lastSeenAt < cutoff then [] else [js[n]])
  }

  function LostJourneys(js: seq<Entry<JourneyId, Journey>>, cutoff: int): seq<Journey> {
    if js == [] then []
    else
      var n := |js| - 1;
      LostJourneys(js[..n], cutoff) + (if js[n].value.lastSeenAt < cutoff then [js[n].value] else [])
  }

  function Prune(s: State, cutoffDay: Day, journeyCutoff: int): State {
    State(KeptDays(s.buckets, cutoffDay), KeptJourneys(s.journeys, journeyCutoff))
  }

  // ---------------------------------------------------------------------------------
  // What is counted
  // ---------------------------------------------------------------------------------

  /** Whether a journey bears a mark on a day. */
  predicate Bears(j: Journey, d: Day, m: Mark) {
    match m
    case Once(f) => f in j.flags && j.flags[f] == d
    case Ending(k) => j.terminal.Some? && j.terminal.value.day == d && k in j.terminal.value.keys
    case Choice(x) => j.recorded == Some((d, x))
  }

  function Unit(c: bool): nat { if c then 1 else 0 }

  /** How many of the journeys bear the mark on the day. */
  function Bearing(js: seq<Journey>, d: Day, m: Mark): nat {
    if js == [] then 0 else Bearing(js[..|js| - 1], d, m) + Unit(Bears(js[|js| - 1], d, m))
  }

  predicate NoDuplicates(keys: seq<EndKey>) {
    forall i, j :: 0 <= i < j < |keys| ==> keys[i] != keys[j]
  }

  /** The key lists that a terminal outcome can have. */
  predicate GoodKeys(keys: seq<EndKey>) {
    && NoDuplicates(keys)
    && (SearchesCompleted in keys <==> SearchesFailed !in keys)
    && (PartialResults in keys ==> VisibleResults in keys)
    && Unit(VisibleResults in keys) + Unit(NoResults in keys) + Unit(ProviderErrors in keys) <= 1
  }

  predicate Good(j: Journey) {
    j.terminal.Some? ==> GoodKeys(j.terminal.value.keys)
  }

  /** On day d the buckets count at least this journey's marks. */
  ghost predicate Covers(b: Buckets, j: Journey, d: Day) {
    forall m: Mark :: Count(b, d, m) >= Unit(Bears(j, d, m))
  }

  /** The counts of day d changed exactly as the journey's marks of that day did. */
  ghost predicate Follows(b: Buckets, j: Journey, b': Buckets, j': Journey, d: Day) {
    forall m: Mark :: Count(b', d, m) + Unit(Bears(j, d, m)) == Count(b, d, m) + Unit(Bears(j', d, m))
  }

  lemma FollowsTrans(b: Buckets, j: Journey, b1: Buckets, j1: Journey, b2: Buckets, j2: Journey, d: Day)
    requires Covers(b, j, d) && Follows(b, j, b1, j1, d) && Follows(b1, j1, b2, j2, d)
    ensures Follows(b, j, b2, j2, d)
  {
    forall m: Mark
      ensures Count(b2, d, m) + Unit(Bears(j, d, m)) == Count(b, d, m) + Unit(Bears(j2, d, m))
    {
      assert Count(b1, d, m) + Unit(Bears(j, d, m)) == Count(b, d, m) + Unit(Bears(j1, d, m));
      assert Count(b2, d, m) + Unit(Bears(j1, d, m)) == Count(b1, d, m) + Unit(Bears(j2, d, m));
    }
  }

  lemma {:induction false} BumpAllCounts(b: Buckets, day: Day, keys: seq<EndKey>, d: Day, m: Mark)
    requires day in b && NoDuplicates(keys)
    ensures Count(BumpAll(b, day, keys), d, m)
              == Count(b, d, m) + Unit(d == day && m.Ending? && m.key in keys)
    decreases |keys|
  {
    if keys != [] {
      var n := |keys| - 1;
      BumpAllCounts(b, day, keys[..n], d, m);
      assert keys == keys[..n] + [keys[n]];
    }
  }

  /** Lowering the keys of a counted outcome never meets the clamp at zero. */
  lemma {:induction false} LowerAllCounts(b: Buckets, day: Day, keys: seq<EndKey>, d: Day, m: Mark)
    requires NoDuplicates(keys)
    requires d == day ==> forall i :: 0 <= i < |keys| ==> Count(b, day, Ending(keys[i])) > 0
    ensures Count(LowerAll(b, day, keys), d, m) + Unit(d == day && m.Ending? && m.key in keys)
              == Count(b, d, m)
    decreases |keys|
  {
    if keys != [] {
      var n := |keys| - 1;
      LowerAllCounts(b, day, keys[..n], d, m);
      if d == day {
        LowerAllCounts(b, day, keys[..n], d, Ending(keys[n]));
        assert Count(b, day, Ending(keys[n])) > 0;
      }
      assert keys == keys[..n] + [keys[n]];
    }
  }

  lemma EndKeysAreGood(completed: bool, outcome: Outcome)
    ensures GoodKeys(EndKeys(completed, outcome))
  {
    match outcome
    case Results => assert EndKeys(completed, outcome)[1] == VisibleResults;
    case Partial =>
      assert EndKeys(completed, outcome)[1] == VisibleResults;
      assert EndKeys(completed, outcome)[2] == PartialResults;
    case Nothing => assert EndKeys(completed, outcome)[1] == NoResults;
    case ProviderError => assert EndKeys(completed, outcome)[1] == ProviderErrors;
    case OtherOutcome =>
  }

  lemma MarkOnceFollows(b: Buckets, j: Journey, day: Day, f: Flag, d: Day)
    requires day in b
    ensures var r := MarkOnce(b, j, day, f); Follows(b, j, r.0, r.1, d)
  {
  }

  lemma RemoveEndingFollows(b: Buckets, j: Journey, d: Day)
    requires Good(j) && Covers(b, j, d)
    ensures var r := RemoveEnding(b, j); Follows(b, j, r.0, r.1, d)
  {
    if j.terminal.Some? {
      var t := j.terminal.value;
      if t.day == d {
        forall i | 0 <= i < |t.keys| ensures Count(b, d, Ending(t.keys[i])) > 0 {
          assert Bears(j, d, Ending(t.keys[i]));
          assert Count(b, d, Ending(t.keys[i])) >= Unit(Bears(j, d, Ending(t.keys[i])));
        }
      }
      var r := RemoveEnding(b, j);
      forall m: Mark
        ensures Count(r.0, d, m) + Unit(Bears(j, d, m)) == Count(b, d, m) + Unit(Bears(r.1, d, m))
      {
        LowerAllCounts(b, t.day, t.keys, d, m);
      }
    }
  }

  lemma AddEndingFollows(b: Buckets, j: Journey, day: Day, keys: seq<EndKey>, d: Day)
    requires day in b && j.terminal.None? && NoDuplicates(keys)
    ensures Follows(b, j, BumpAll(b, day, keys), j.(terminal := Some(Terminal(day, keys))), d)
  {
    var j' := j.(terminal := Some(Terminal(day, keys)));
    forall m: Mark
      ensures Count(BumpAll(b, day, keys), d, m) + Unit(Bears(j, d, m)) == Count(b, d, m) + Unit(Bears(j', d, m))
    {
      BumpAllCounts(b, day, keys, d, m);
    }
  }

  lemma SetEndingFollows(b: Buckets, j: Journey, day: Day, completed: bool, outcome: Outcome, d: Day)
    requires day in b && Good(j) && Covers(b, j, d)
    ensures var r := SetEnding(b, j, day, completed, outcome);
            Good(r.1) && Follows(b, j, r.0, r.1, d)
  {
    EndKeysAreGood(completed, outcome);
    RemoveEndingFollows(b, j, d);
    var r := RemoveEnding(b, j);
    AddEndingFollows(r.0, r.1, day, EndKeys(completed, outcome), d);
    var t := SetEnding(b, j, day, completed, outcome);
    FollowsTrans(b, j, r.0, r.1, t.0, t.1, d);
  }

  lemma NoteChoiceFollows(b: Buckets, j: Journey, at: int, d: Day)
    ensures var r := NoteChoice(b, j, at); Follows(b, j, r.0, r.1, d)
  {
  }

  lemma MarkThenChoice(b: Buckets, j: Journey, day: Day, f: Flag, at: int, d: Day)
    requires day in b && Covers(b, j, d)
    ensures var (b1, j1) := MarkOnce(b, j, day, f);
            && Follows(b, j, b1, j1, d)
            && var (b2, j2) := NoteChoice(b1, j1, at); Follows(b, j, b2, j2, d)
  {
    MarkOnceFollows(b, j, day, f, d);
    var (b1, j1) := MarkOnce(b, j, day, f);
    NoteChoiceFollows(b1, j1, at, d);
    var (b2, j2) := NoteChoice(b1, j1, at);
    FollowsTrans(b, j, b1, j1, b2, j2, d);
  }

  lemma ApplyFollows(b: Buckets, j: Journey, e: Event, d: Day)
    requires UtcDay(e.at) in b && Good(j) && Covers(b, j, d)
    ensures var r := Apply(b, j, e); Good(r.1) && Follows(b, j, r.0, r.1, d)
  {
    var day := UtcDay(e.at);
    match e.kind
    case Started =>
      var j0 := j.(startedAt := Earlier(j.startedAt, e.at));
      StartTimeBearsNothing(b, j, j0, d);
      var r := MarkOnce(b, j0, day, SearchesStarted);
      MarkThenChoice(b, j0, day, SearchesStarted,
                     if r.1.firstChoiceAt.Some? then r.1.firstChoiceAt.value else 0, d);
      var t := Apply(b, j, e);
      FollowsTrans(b, j, b, j0, t.0, t.1, d);
    case Ended(completed, outcome) => SetEndingFollows(b, j, day, completed, outcome, d);
    case Flagged(f) => MarkThenChoice(b, j, day, f, e.at, d);
    case Other =>
  }

  lemma StartTimeBearsNothing(b: Buckets, j: Journey, j0: Journey, d: Day)
    requires Covers(b, j, d)
    requires j0.flags == j.flags && j0.terminal == j.terminal && j0.recorded == j.recorded
    ensures Covers(b, j0, d) && Follows(b, j, b, j0, d)
  {
    forall m: Mark ensures Bears(j0, d, m) == Bears(j, d, m) {
    }
  }

  // ---------------------------------------------------------------------------------
  // All journeys
  // ---------------------------------------------------------------------------------

  lemma {:induction false} BearingSplit(a: seq<Journey>, b: seq<Journey>, d: Day, m: Mark)
    ensures Bearing(a + b, d, m) == Bearing(a, d, m) + Bearing(b, d, m)
    decreases |b|
  {
    if b == [] {
      assert a + b == a;
    } else {
      var n := |b| - 1;
      BearingSplit(a, b[..n], d, m);
      assert (a + b)[..|a + b| - 1] == a + b[..n];
    }
  }

  lemma BearingAt(js: seq<Journey>, i: nat, j: Journey, d: Day, m: Mark)
    requires i < |js|
    ensures Bearing(js[i := j], d, m) + Unit(Bears(js[i], d, m)) == Bearing(js, d, m) + Unit(Bears(j, d, m))
    ensures Bearing(js, d, m) >= Unit(Bears(js[i], d, m))
  {
    var pre, post := js[..i], js[i + 1..];
    assert js == pre + ([js[i]] + post) && js[i := j] == pre + ([j] + post);
    BearingSplit(pre, [js[i]] + post, d, m);
    BearingSplit(pre, [j] + post, d, m);
    BearingSplit([js[i]], post, d, m);
    BearingSplit([j], post, d, m);
    assert [js[i]][..0] == [] && [j][..0] == [];
  }

  lemma BearingAppend(js: seq<Journey>, j: Journey, d: Day, m: Mark)
    ensures Bearing(js + [j], d, m) == Bearing(js, d, m) + Unit(Bears(j, d, m))
  {
    assert (js + [j])[..|js|] == js;
  }

  /** Putting a journey back changes the totals by that journey's marks. */
  lemma PutBearing(js: seq<Entry<JourneyId, Journey>>, id: JourneyId, j: Journey, old': Journey, d: Day, m: Mark)
    requires old' == if Has(js, id) then Get(js, id) else NewJourney(old'.lastSeenAt)
    ensures Bearing(Values(Put(js, id, j)), d, m) + Unit(Bears(old', d, m))
              == Bearing(Values(js), d, m) + Unit(Bears(j, d, m))
    ensures Bearing(Values(js), d, m) >= Unit(Bears(old', d, m))
  {
    var i := Find(js, id);
    if i < |js| {
      assert Values(Put(js, id, j)) == Values(js)[i := j];
      BearingAt(Values(js), i, j, d, m);
    } else {
      assert Values(Put(js, id, j)) == Values(js) + [j];
      BearingAppend(Values(js), j, d, m);
    }
  }

  lemma {:induction false} PruneBearing(js: seq<Entry<JourneyId, Journey>>, cutoff: int, d: Day, m: Mark)
    ensures Bearing(Values(KeptJourneys(js, cutoff)), d, m) + Bearing(LostJourneys(js, cutoff), d, m)
              == Bearing(Values(js), d, m)
    decreases |js|
  {
    if js != [] {
      var n := |js| - 1;
      PruneBearing(js[..n], cutoff, d, m);
      assert Values(js)[..n] == Values(js[..n]);
      var kept := KeptJourneys(js[..n], cutoff);
      if js[n].value.lastSeenAt < cutoff {
        BearingAppend(LostJourneys(js[..n], cutoff), js[n].value, d, m);
        assert kept + [] == kept;
      } else {
        assert Values(kept + [js[n]]) == Values(kept) + [js[n].value];
        BearingAppend(Values(kept), js[n].value, d, m);
        assert LostJourneys(js[..n], cutoff) + [] == LostJourneys(js[..n], cutoff);
      }
    }
  }

  lemma {:induction false} KeptIsSubset(js: seq<Entry<JourneyId, Journey>>, cutoff: int)
    ensures forall e <- KeptJourneys(js, cutoff) :: e in js
    ensures forall j <- LostJourneys(js, cutoff) :: j in Values(js)
    decreases |js|
  {
    if js != [] {
      KeptIsSubset(js[..|js| - 1], cutoff);
      forall j | j in LostJourneys(js, cutoff) ensures j in Values(js) {
        if j in Values(js[..|js| - 1]) {
          var i :| 0 <= i < |js| - 1 && Values(js[..|js| - 1])[i] == j;
          assert Values(js)[i] == j;
        } else {
          assert Values(js)[|js| - 1] == j;
        }
      }
    }
  }

  lemma {:induction false} KeptIsDistinct(js: seq<Entry<JourneyId, Journey>>, cutoff: int)
    requires Distinct(js)
    ensures Distinct(KeptJourneys(js, cutoff))
    decreases |js|
  {
    if js != [] {
      var n := |js| - 1;
      KeptIsDistinct(js[..n], cutoff);
      KeptIsSubset(js[..n], cutoff);
      var kept := KeptJourneys(js[..n], cutoff);
      forall i | 0 <= i < |kept| ensures kept[i].key != js[n].key {
        assert kept[i] in js[..n];
      }
    }
  }
}
