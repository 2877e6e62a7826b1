// The aggregate state in place: day buckets and journey states, changed per event.

module AnalyticsAggregates {
  import opened OrderedMaps
  import opened Common
  import opened AnalyticsJourneys

  class AggregateState {
    var dailyBuckets: Buckets
    var journeyStates: seq<Entry<JourneyId, Journey>>

    function Contents(): State
      reads this
    {
      State(dailyBuckets, journeyStates)
    }

    constructor ()
      ensures Contents() == State(map[], [])
    {
      dailyBuckets, journeyStates := map[], [];
    }

    method OpenBucket(day: Day)
      modifies this`dailyBuckets
      ensures dailyBuckets == Opened(old(dailyBuckets), day)
    {
      if day !in dailyBuckets {
        dailyBuckets := dailyBuckets[day := map[]];
      }
    }

    method IncrementJourneyOnce(state: Journey, day: Day, flag: Flag) returns (changed: Journey)
      requires day in dailyBuckets
      modifies this`dailyBuckets
      ensures (dailyBuckets, changed) == MarkOnce(old(dailyBuckets), state, day, flag)
    {
      if flag in state.flags {
        return state;
      }
      dailyBuckets := Bump(dailyBuckets, day, Once(flag));
      return state.(flags := state.flags[flag := day]);
    }

    method RemoveTerminalOutcome(state: Journey) returns (changed: Journey)
      modifies this`dailyBuckets
      ensures (dailyBuckets, changed) == RemoveEnding(old(dailyBuckets), state)
    {
      if state.terminal.None? {
        return state;
      }
      var Terminal(day, keys) := state.terminal.value;
      for i := 0 to |keys|
        invariant dailyBuckets == LowerAll(old(dailyBuckets), day, keys[..i])
      {
        assert keys[..i + 1][..i] == keys[..i];
        dailyBuckets := Lower(dailyBuckets, day, Ending(keys[i]));
      }
      assert keys[..|keys|] == keys;
      return state.(terminal := None);
    }

    method CountAll(day: Day, countKeys: seq<EndKey>)
      requires day in dailyBuckets
      modifies this`dailyBuckets
      ensures dailyBuckets == BumpAll(old(dailyBuckets), day, countKeys)
    {
      for i := 0 to |countKeys|
        invariant day in dailyBuckets
        invariant dailyBuckets == BumpAll(old(dailyBuckets), day, countKeys[..i])
      {
        assert countKeys[..i + 1][..i] == countKeys[..i];
        dailyBuckets := Bump(dailyBuckets, day, Ending(countKeys[i]));
      }
      assert countKeys[..|countKeys|] == countKeys;
    }

    method RecordTerminalOutcome(state: Journey, day: Day, completed: bool, outcome: Outcome)
      returns (changed: Journey)
      requires day in dailyBuckets
      modifies this`dailyBuckets
      ensures (dailyBuckets, changed) == SetEnding(old(dailyBuckets), state, day, completed, outcome)
    {
      var cleared := RemoveTerminalOutcome(state);
      var countKeys := [if completed then SearchesCompleted else SearchesFailed];
      if outcome == Results || outcome == Partial {
        countKeys := countKeys + [VisibleResults];
      }
      if outcome == Nothing {
        countKeys := countKeys + [NoResults];
      }
      if outcome == Partial {
        countKeys := countKeys + [PartialResults];
      }
      if outcome == ProviderError {
        countKeys := countKeys + [ProviderErrors];
      }
      assert countKeys == EndKeys(completed, outcome);
      assert dailyBuckets.Keys == old(dailyBuckets).Keys;
      CountAll(day, countKeys);
      return cleared.(terminal := Some(Terminal(day, countKeys)));
    }

    method RecordFirstChoice(state: Journey, at: int) returns (changed: Journey)
      modifies this`dailyBuckets
      ensures (dailyBuckets, changed) == NoteChoice(old(dailyBuckets), state, at)
    {
      changed := state;
      if changed.firstChoiceAt.None? || at < changed.firstChoiceAt.value {
        changed := changed.(firstChoiceAt := Some(at));
      }
      if changed.recorded.Some? || changed.startedAt.None?
         || changed.firstChoiceAt.value < changed.startedAt.value {
        return;
      }
      var day := UtcDay(changed.firstChoiceAt.value);
      var bucket := DurationBucket(changed.firstChoiceAt.value - changed.startedAt.value);
      OpenBucket(day);
      dailyBuckets := Bump(dailyBuckets, day, Choice(bucket));
      changed := changed.(recorded := Some((day, bucket)));
    }

    method ApplyEvent(state: Journey, e: Event) returns (changed: Journey)
      requires UtcDay(e.at) in dailyBuckets
      modifies this`dailyBuckets
      ensures (dailyBuckets, changed) == Apply(old(dailyBuckets), state, e)
    {
      var day := UtcDay(e.at);
      changed := state;
      match e.kind
      case Started =>
        changed := changed.(startedAt := Earlier(changed.startedAt, e.at));
        changed := IncrementJourneyOnce(changed, day, SearchesStarted);
        if changed.firstChoiceAt.Some? {
          changed := RecordFirstChoice(changed, changed.firstChoiceAt.value);
        }
      case Ended(completed, outcome) =>
        changed := RecordTerminalOutcome(changed, day, completed, outcome);
      case Flagged(flag) =>
        changed := IncrementJourneyOnce(changed, day, flag);
        if IsFirstChoice(e.kind) {
          changed := RecordFirstChoice(changed, e.at);
        }
      case Other =>
    }

    method RecordEvent(e: Event)
      modifies this
      ensures Contents() == Record(old(Contents()), e)
    {
      OpenBucket(UtcDay(e.at));
      if e.journey.Some? {
        var state := StateFor(Contents(), e.journey.value, e.at);
        var changed := ApplyEvent(state, e);
        journeyStates := Put(journeyStates, e.journey.value, changed);
      }
    }

    method PruneOld(cutoffDay: Day, journeyCutoff: int)
      modifies this
      ensures Contents() == Prune(old(Contents()), cutoffDay, journeyCutoff)
    {
      dailyBuckets := map d | d in dailyBuckets && d >= cutoffDay :: dailyBuckets[d];
      var kept := [];
      for i := 0 to |journeyStates|
        modifies {}
        invariant kept == KeptJourneys(journeyStates[..i], journeyCutoff)
      {
        assert journeyStates[..i + 1][..i] == journeyStates[..i];
        if journeyStates[i].value.lastSeenAt >= journeyCutoff {
          kept := kept + [journeyStates[i]];
        }
      }
      assert journeyStates[..|journeyStates|] == journeyStates;
      journeyStates := kept;
    }
  }
}
