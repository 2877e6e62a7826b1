// The state machine of a provider's part in a continued search: pending, running,
// retryable, terminal and completed, with bounded attempts per cursor, stall detection
// and recovery of attempts whose lease was lost.

module ProviderExecutions {
  import opened Common
  import opened OrderedMaps
  import J = JsonText
  import JsonEquality

  const DEFAULT_ATTEMPTS: nat := 2
  const MAX_RETRY_WAIT: nat := 60_000
  const DEFAULT_RETRY_AFTER: nat := 2_500

  type ProviderId = nat

  /** `Unrecognised` stands for any state name outside the five. */
  datatype State = Pending | Running | Completed | RetryableFailure | TerminalFailure
                 | Unrecognised

  /** A timestamp field as stored: absent, null, or a number. */
  datatype Stamp = Missing | NullStamp | At(time: int)

  datatype Continuation = Continuation(providerId: ProviderId, cursor: J.Value)

  datatype Execution = Execution(
    providerId: ProviderId,
    supports: bool,
    state: State,
    continuation: Option<Continuation>,
    context: nat,
    attemptCount: int,
    attemptsForCursor: int,
    maxAttempts: int,
    lastAttemptAt: Stamp,
    completedAt: Stamp,
    lastOutcome: string,
    retryable: bool,
    retryAfter: Option<int>,
    nextAttemptAt: Stamp)

  predicate Active(state: State) {
    state == Pending || state == Running || state == RetryableFailure
  }

  predicate Ended(state: State) {
    state == Completed || state == TerminalFailure
  }

  // ---------------------------------------------------------------------------------
  // Normalisation
  // ---------------------------------------------------------------------------------

  /** Null is the number 0; an absent or negative stamp becomes null. */
  function NormalStamp(t: Stamp): Stamp {
    match t
    case Missing => NullStamp
    case NullStamp => At(0)
    case At(n) => if n >= 0 then t else NullStamp
  }

  function NormalRetryAfter(r: Option<int>): Option<int> {
    if r.Some? && r.value >= 0 then r else None
  }

  predicate Space(c: J.Unit) {
    9 <= c <= 13 || c == 32 || c == 160 || c == 0x1680 || 0x2000 <= c <= 0x200a
    || c == 0x2028 || c == 0x2029 || c == 0x202f || c == 0x205f || c == 0x3000 || c == 0xfeff
  }

  /** A usable cursor is neither null nor undefined nor a blank string. */
  predicate Usable(cursor: J.Value) {
    match cursor
    case Null => false
    case Undefined => false
    case Str(s) => exists i :: 0 <= i < |s| && !Space(s[i])
    case _ => true
  }

  function NormalContinuation(c: Option<Continuation>): Option<Continuation> {
    if c.Some? && Usable(c.value.cursor) then c else None
  }

  function Natural(n: int): nat {
    if n < 0 then 0 else n
  }

  function NormalState(state: State, supports: bool, continues: bool): State {
    var known := if state != Unrecognised then state
                 else if supports && continues then Pending else Completed;
    if (!supports || !continues) && Active(known) then Completed else known
  }

  function Normalize(e: Execution): Execution {
    var continuation := NormalContinuation(e.continuation);
    e.(state := NormalState(e.state, e.supports, continuation.Some?),
       continuation := continuation,
       attemptCount := Natural(e.attemptCount),
       attemptsForCursor := Natural(e.attemptsForCursor),
       maxAttempts := if e.maxAttempts > 0 then e.maxAttempts else DEFAULT_ATTEMPTS,
       lastAttemptAt := NormalStamp(e.lastAttemptAt),
       completedAt := NormalStamp(e.completedAt),
       retryAfter := NormalRetryAfter(e.retryAfter),
       nextAttemptAt := NormalStamp(e.nextAttemptAt))
  }

  /** One entry per provider, in order of first appearance, the last one given winning. */
  function ByProvider(m: seq<Entry<ProviderId, Execution>>, es: seq<Execution>)
    : seq<Entry<ProviderId, Execution>>
    decreases |es|
  {
    if es == [] then m else ByProvider(Put(m, es[0].providerId, Normalize(es[0])), es[1..])
  }

  function NormalizeList(es: seq<Execution>): seq<Execution> {
    Values(ByProvider([], es))
  }

  method NormalizeExecutions(es: seq<Execution>) returns (r: seq<Execution>)
    ensures r == NormalizeList(es)
  {
    var byProvider: seq<Entry<ProviderId, Execution>> := [];
    for i := 0 to |es|
      invariant byProvider == ByProvider([], es[..i])
    {
      ByProviderAppend([], es[..i], es[i]);
      assert es[..i] + [es[i]] == es[..i + 1];
      var normalized := Normalize(es[i]);
      byProvider := Put(byProvider, normalized.providerId, normalized);
    }
    assert es[..|es|] == es;
    r := Values(byProvider);
  }

  lemma {:induction false} ByProviderAppend(
    m: seq<Entry<ProviderId, Execution>>, es: seq<Execution>, e: Execution)
    ensures ByProvider(m, es + [e]) == Put(ByProvider(m, es), e.providerId, Normalize(e))
    decreases |es|
  {
    if es == [] {
      assert es + [e] == [e];
    } else {
      assert (es + [e])[1..] == es[1..] + [e];
      ByProviderAppend(Put(m, es[0].providerId, Normalize(es[0])), es[1..], e);
    }
  }

  /** What normalisation establishes: an active execution can be continued. */
  predicate Normal(e: Execution) {
    && e.state != Unrecognised
    && (Active(e.state) ==> e.supports && e.continuation.Some?)
    && (e.continuation.Some? ==> Usable(e.continuation.value.cursor))
    && e.attemptCount >= 0 && e.attemptsForCursor >= 0 && e.maxAttempts > 0
    && (e.retryAfter.Some? ==> e.retryAfter.value >= 0)
    && !e.lastAttemptAt.Missing? && !e.completedAt.Missing? && !e.nextAttemptAt.Missing?
  }

  predicate NumberStamp(t: Stamp) {
    t.At? && t.time >= 0
  }

  /** The executions that a further normalisation leaves as they are. */
  predicate Fixed(e: Execution) {
    && Normal(e) && NumberStamp(e.lastAttemptAt) && NumberStamp(e.completedAt)
    && NumberStamp(e.nextAttemptAt)
  }

  /** Normalising once makes an execution normal; it is a fixed point exactly when it is
      normal and each of its stamps is a number. A null stamp is not: it becomes 0. */
  lemma NormalizeEffect(e: Execution)
    ensures Normal(Normalize(e))
    ensures Normalize(e) == e <==> Fixed(e)
    ensures Fixed(Normalize(Normalize(e))) || e.lastAttemptAt.Missing? || e.completedAt.Missing?
            || e.nextAttemptAt.Missing? || NegativeStamp(e)
  {
  }

  predicate NegativeStamp(e: Execution) {
    (e.lastAttemptAt.At? && e.lastAttemptAt.time < 0) || (e.completedAt.At? && e.completedAt.time < 0)
    || (e.nextAttemptAt.At? && e.nextAttemptAt.time < 0)
  }

  predicate DistinctProviders(es: seq<Execution>) {
    forall i, j :: 0 <= i < j < |es| ==> es[i].providerId != es[j].providerId
  }

  /** A list in normal form: one fixed execution per provider. */
  predicate FixedList(es: seq<Execution>) {
    DistinctProviders(es) && forall i :: 0 <= i < |es| ==> Fixed(es[i])
  }

  predicate Keyed(m: seq<Entry<ProviderId, Execution>>) {
    Distinct(m) && forall i :: 0 <= i < |m| ==> m[i].key == m[i].value.providerId && Normal(m[i].value)
  }

  lemma {:induction false} ByProviderKeeps(m: seq<Entry<ProviderId, Execution>>, es: seq<Execution>)
    requires Keyed(m)
    ensures Keyed(ByProvider(m, es))
    decreases |es|
  {
    if es != [] {
      NormalizeEffect(es[0]);
      PutEffect(m, es[0].providerId, Normalize(es[0]));
      ByProviderKeeps(Put(m, es[0].providerId, Normalize(es[0])), es[1..]);
    }
  }

  /** Any stored list normalises to one normal execution per provider. */
  lemma NormalizedListIsNormal(es: seq<Execution>)
    ensures DistinctProviders(NormalizeList(es))
    ensures forall i :: 0 <= i < |NormalizeList(es)| ==> Normal(NormalizeList(es)[i])
  {
    ByProviderKeeps([], es);
    var m := ByProvider([], es);
    forall i, j | 0 <= i < j < |m| ensures m[i].value.providerId != m[j].value.providerId {
      assert m[i].key != m[j].key;
    }
  }

  function Entries(es: seq<Execution>): (m: seq<Entry<ProviderId, Execution>>)
    ensures |m| == |es| && forall i :: 0 <= i < |es| ==> m[i] == Entry(es[i].providerId, es[i])
  {
    seq(|es|, i requires 0 <= i < |es| => Entry(es[i].providerId, es[i]))
  }

  lemma {:induction false} FixedEntries(done: seq<Execution>, es: seq<Execution>)
    requires FixedList(done + es)
    ensures ByProvider(Entries(done), es) == Entries(done + es)
    decreases |es|
  {
    if es == [] {
      assert done + es == done;
    } else {
      assert (done + es)[|done|] == es[0];
      NormalizeEffect(es[0]);
      forall i | 0 <= i < |done| ensures Entries(done)[i].key != es[0].providerId {
        assert (done + es)[i] == done[i];
      }
      assert Put(Entries(done), es[0].providerId, es[0]) == Entries(done + [es[0]]);
      assert done + es == (done + [es[0]]) + es[1..];
      FixedEntries(done + [es[0]], es[1..]);
    }
  }

  lemma FixedListStays(es: seq<Execution>)
    requires FixedList(es)
    ensures NormalizeList(es) == es
  {
    assert [] + es == es;
    FixedEntries([], es);
    assert Entries([]) == [];
  }

  function NormalizeEach(es: seq<Execution>): (r: seq<Execution>)
    ensures |r| == |es| && forall i :: 0 <= i < |es| ==> r[i] == Normalize(es[i])
  {
    seq(|es|, i requires 0 <= i < |es| => Normalize(es[i]))
  }

  lemma {:induction false} DistinctEntries(es: seq<Execution>)
    requires DistinctProviders(es)
    ensures ByProvider([], es) == Entries(NormalizeEach(es))
    decreases |es|
  {
    if es == [] {
      assert Entries(NormalizeEach(es)) == [];
    } else {
      var n := |es| - 1;
      DistinctEntries(es[..n]);
      ByProviderAppend([], es[..n], es[n]);
      assert es == es[..n] + [es[n]];
      PutNewProvider(NormalizeEach(es[..n]), Normalize(es[n]));
      assert NormalizeEach(es) == NormalizeEach(es[..n]) + [Normalize(es[n])];
    }
  }

  lemma PutNewProvider(es: seq<Execution>, x: Execution)
    requires forall i :: 0 <= i < |es| ==> es[i].providerId != x.providerId
    ensures Put(Entries(es), x.providerId, x) == Entries(es + [x])
  {
    assert forall i :: 0 <= i < |es| ==> Entries(es)[i].key != x.providerId;
  }

  /** Whatever was stored, reading a list that was once normalised puts it into normal form,
      in which it stays. */
  lemma TwiceNormalizedIsFixed(raw: seq<Execution>)
    ensures FixedList(NormalizeList(NormalizeList(raw)))
    ensures NormalizeList(NormalizeList(NormalizeList(raw))) == NormalizeList(NormalizeList(raw))
  {
    var es := NormalizeList(raw);
    NormalizedListIsNormal(raw);
    NormalizedStamps(raw);
    DistinctEntries(es);
    var r := NormalizeEach(es);
    assert NormalizeList(es) == r;
    forall i | 0 <= i < |r| ensures Fixed(r[i]) {
      NormalizeEffect(es[i]);
    }
    FixedListStays(r);
  }

  predicate NoNegativeStamps(m: seq<Entry<ProviderId, Execution>>) {
    forall i :: 0 <= i < |m| ==> !NegativeStamp(m[i].value)
  }

  lemma {:induction false} ByProviderStamps(m: seq<Entry<ProviderId, Execution>>, es: seq<Execution>)
    requires NoNegativeStamps(m)
    ensures NoNegativeStamps(ByProvider(m, es))
    decreases |es|
  {
    if es != [] {
      ByProviderStamps(Put(m, es[0].providerId, Normalize(es[0])), es[1..]);
    }
  }

  lemma NormalizedStamps(raw: seq<Execution>)
    ensures forall i :: 0 <= i < |NormalizeList(raw)| ==> !NegativeStamp(NormalizeList(raw)[i])
  {
    ByProviderStamps([], raw);
    var m := ByProvider([], raw);
    assert forall i :: 0 <= i < |m| ==> NormalizeList(raw)[i] == m[i].value;
  }

  // ---------------------------------------------------------------------------------
  // Runnable executions
  // ---------------------------------------------------------------------------------

  function RetryDelay(raw: Execution, now: int): nat {
    var e := Normalize(raw);
    if e.state != RetryableFailure || !e.nextAttemptAt.At? then 0
    else Natural(e.nextAttemptAt.time - now)
  }

  predicate Runnable(raw: Execution, now: int) {
    var e := Normalize(raw);
    && e.supports && e.continuation.Some?
    && (e.state == Pending || e.state == RetryableFailure)
    && RetryDelay(e, now) == 0
  }

  function RunnableIn(es: seq<Execution>, now: int): seq<Execution> {
    if es == [] then []
    else (if Runnable(es[0], now) then [es[0]] else []) + RunnableIn(es[1..], now)
  }

  lemma RunnableLater(e: Execution, now: int, later: int)
    requires Runnable(e, now) && now <= later
    ensures Runnable(e, later)
  {
  }

  // ---------------------------------------------------------------------------------
  // Transitions of one execution
  // ---------------------------------------------------------------------------------

  /** `normalizeNullableTimestamp(now) ?? Date.now()` for a clock that shows no negative time. */
  function Clock(now: int): Stamp {
    At(Natural(now))
  }

  function BeginOne(e: Execution, now: int): Execution {
    Normalize(e.(
      state := Running,
      attemptCount := e.attemptCount + 1,
      attemptsForCursor := e.attemptsForCursor + 1,
      lastAttemptAt := Clock(now),
      retryable := false,
      retryAfter := None,
      nextAttemptAt := NullStamp))
  }

  /** Two normalised continuations are the same when their provider and the stable text of
      their cursors are. */
  predicate SameContinuation(a: Option<Continuation>, b: Option<Continuation>) {
    if a.None? || b.None? then a == b
    else a.value.providerId == b.value.providerId
         && J.StableSerialize(a.value.cursor) == J.StableSerialize(b.value.cursor)
  }

  predicate Stalled(e: Execution, continuation: Option<Continuation>) {
    NormalContinuation(continuation).Some?
    && SameContinuation(NormalContinuation(e.continuation), NormalContinuation(continuation))
  }

  function SucceedOne(e: Execution, continuation: Option<Continuation>, context: nat,
                      outcome: string, now: int): Execution {
    var next := NormalContinuation(continuation);
    Normalize(
      if Stalled(e, continuation) then
        e.(state := TerminalFailure, continuation := None, completedAt := Clock(now),
           lastOutcome := "stalled", retryable := false, retryAfter := None,
           nextAttemptAt := NullStamp)
      else
        e.(state := if next.Some? then Pending else Completed,
           continuation := next,
           context := context,
           attemptsForCursor := if next.Some? then 0 else e.attemptsForCursor,
           completedAt := if next.Some? then NullStamp else Clock(now),
           lastOutcome := outcome, retryable := false, retryAfter := None,
           nextAttemptAt := NullStamp))
  }

  /** The wait before a retry: the given one, or the default when the failure is retryable. */
  function EffectiveRetryAfter(retryable: bool, retryAfter: Option<int>): Option<int> {
    var given := NormalRetryAfter(retryAfter);
    if retryable && given.None? then Some(DEFAULT_RETRY_AFTER) else given
  }

  predicate CanRetry(e: Execution, retryable: bool, retryAfter: Option<int>) {
    var wait := EffectiveRetryAfter(retryable, retryAfter);
    && retryable
    && (wait.None? || wait.value <= MAX_RETRY_WAIT)
    && e.continuation.Some?
    && e.attemptsForCursor < e.maxAttempts
  }

  function FailOne(e: Execution, retryable: bool, retryAfter: Option<int>,
                   outcome: string, now: int): Execution {
    var wait := EffectiveRetryAfter(retryable, retryAfter);
    var again := CanRetry(e, retryable, retryAfter);
    Normalize(e.(
      state := if again then RetryableFailure else TerminalFailure,
      continuation := if again then e.continuation else None,
      completedAt := if again then NullStamp else Clock(now),
      lastOutcome := outcome,
      retryable := again,
      retryAfter := wait,
      nextAttemptAt := if again && wait.Some? then At(Natural(now) + wait.value) else NullStamp))
  }

  /** Stale recovery puts a running execution back without resetting its attempts. */
  function RecoverOne(e: Execution): Execution {
    if e.state != Running then e
    else e.(state := Pending, retryable := false, retryAfter := None, nextAttemptAt := NullStamp)
  }

  /** A returned continuation ends the execution as stalled exactly when it names the same
      provider and an equal cursor, as JSON values. */
  lemma StallsOnEqualCursor(e: Execution, c: Continuation, context: nat, outcome: string, now: int)
    requires Fixed(e) && e.state == Running && Usable(c.cursor)
    requires J.IsJson(c.cursor) && J.IsJson(e.continuation.value.cursor)
    ensures
      var r := SucceedOne(e, Some(c), context, outcome, now);
      var same := c.providerId == e.continuation.value.providerId
                  && J.Same(J.Stable, e.continuation.value.cursor, c.cursor);
      && (r.state == TerminalFailure <==> same)
      && (r.state == Pending <==> !same)
      && (same ==> r.continuation.None? && r.lastOutcome == "stalled")
      && (!same ==> r.continuation == Some(c) && r.attemptsForCursor == 0)
  {
    JsonEquality.StableTextsAreEqualIffSame(e.continuation.value.cursor, c.cursor);
  }
}
