// Searches with idempotency keys, over whole runs: many clients, executions that finish in
// any order or never, a clock, and the records of IdempotencyCache. The digest of a
// payload's canonical text is taken to be injective, so the text stands for it.

module SearchIdempotency {
  import opened OrderedMaps
  import opened Common
  import opened JsonText
  import JsonEquality
  import opened IdempotencyCache

  datatype Outcome = Open | Returned(response: Response, at: nat) | Threw(at: nat)

  datatype Execution = Execution(key: Key, payload: Value, startedAt: nat, outcome: Outcome)

  /** `FromRecord` is a replay; `FromPromise` awaits the execution, whose own client is the
      one with `coalesced` false. */
  datatype Answer =
    | InvalidPayload
    | KeyConflict
    | CapacityReached
    | FromRecord(exec: nat, response: Response)
    | FromPromise(exec: nat, coalesced: bool)

  datatype Client = Client(key: Key, payload: Value, askedAt: nat, answer: Answer)

  datatype Sys = Sys(clock: nat, cache: Cache<Text>, execs: seq<Execution>, clients: seq<Client>)

  datatype Step =
    | Tick(elapsed: nat)
    | Call(key: Key, payload: Value)
    | Finish(exec: nat, response: Response)
    | Break(exec: nat)

  function AnswerOf(l: Lookup): Answer {
    match l
    case Conflict => KeyConflict
    case Busy => CapacityReached
    case Replay(e, response) => FromRecord(e, response)
    case Join(e) => FromPromise(e, true)
    case Execute(e) => FromPromise(e, false)
  }

  function DoCall(s: Sys, k: Key, payload: Value): Sys {
    if !IsJson(payload) then
      s.(clients := s.clients + [Client(k, payload, s.clock, InvalidPayload)])
    else
      var (cache, l) := Admit(s.cache, k, FingerprintText(payload), |s.execs|, s.clock);
      s.(cache := cache,
         execs := if l.Execute? then s.execs + [Execution(k, payload, s.clock, Open)] else s.execs,
         clients := s.clients + [Client(k, payload, s.clock, AnswerOf(l))])
  }

  function DoFinish(s: Sys, e: nat, response: Response): Sys
    requires e < |s.execs| && s.execs[e].outcome.Open?
  {
    s.(cache := Complete(s.cache, s.execs[e].key, e, response, s.clock),
       execs := s.execs[e := s.execs[e].(outcome := Returned(response, s.clock))])
  }

  function DoBreak(s: Sys, e: nat): Sys
    requires e < |s.execs| && s.execs[e].outcome.Open?
  {
    s.(cache := Fail(s.cache, s.execs[e].key, e),
       execs := s.execs[e := s.execs[e].(outcome := Threw(s.clock))])
  }

  function Exec(s: Sys, step: Step): Sys {
    match step
    case Tick(d) => s.(clock := s.clock + d)
    case Call(k, payload) => DoCall(s, k, payload)
    case Finish(e, response) => if e < |s.execs| && s.execs[e].outcome.Open? then DoFinish(s, e, response) else s
    case Break(e) => if e < |s.execs| && s.execs[e].outcome.Open? then DoBreak(s, e) else s
  }

  function Run(s: Sys, steps: seq<Step>): Sys
    decreases |steps|
  {
    if steps == [] then s else Run(Exec(s, steps[0]), steps[1..])
  }

  function Initial(): Sys {
    Sys(0, Cache([], 0), [], [])
  }

  // ---------------------------------------------------------------------------------
  // The invariant
  // ---------------------------------------------------------------------------------

  predicate FinishedBy(e: Execution, t: nat) {
    !e.outcome.Open? && e.outcome.at <= t
  }

  predicate RecordAgrees(k: Key, r: Record<Text>, execs: seq<Execution>) {
    && r.exec < |execs|
    && execs[r.exec].key == k
    && IsJson(execs[r.exec].payload) && r.fingerprint == FingerprintText(execs[r.exec].payload)
    && match r.stage
       case Pending => execs[r.exec].outcome.Open? && r.expiresAt == execs[r.exec].startedAt + TTL
       case Fulfilled(response) =>
         && execs[r.exec].outcome.Returned? && execs[r.exec].outcome.response == response
         && r.expiresAt == execs[r.exec].outcome.at + TTL
         && response.size == Some(r.bytes)
  }

  ghost predicate RecordsAgree(cache: Cache<Text>, execs: seq<Execution>) {
    forall k :: Has(cache.records, k) ==> RecordAgrees(k, Get(cache.records, k), execs)
  }

  /** An open execution has its record until it is a time to live old. */
  predicate Kept(s: Sys, i: nat)
    requires i < |s.execs|
  {
    s.execs[i].outcome.Open? ==>
      Owns(s.cache, s.execs[i].key, i) || s.clock >= s.execs[i].startedAt + TTL
  }

  predicate Timed(e: Execution, clock: nat) {
    e.startedAt <= clock && (e.outcome.Open? || e.outcome.at <= clock)
  }

  predicate Apart(a: Execution, b: Execution) {
    a.key == b.key ==> FinishedBy(a, b.startedAt) || a.startedAt + TTL <= b.startedAt
  }

  predicate Equivalent(a: Value, b: Value) {
    IsJson(a) && IsJson(b) && Same(Canonical, a, b)
  }

  predicate ClientAgrees(c: Client, execs: seq<Execution>) {
    match c.answer
    case FromRecord(e, response) =>
      && e < |execs| && execs[e].key == c.key && Equivalent(c.payload, execs[e].payload)
      && execs[e].outcome.Returned? && execs[e].outcome.response == response
      && c.askedAt < execs[e].outcome.at + TTL
    case FromPromise(e, coalesced) =>
      && e < |execs| && execs[e].key == c.key && Equivalent(c.payload, execs[e].payload)
      && (if coalesced then c.askedAt < execs[e].startedAt + TTL else c.askedAt == execs[e].startedAt)
    case _ => true
  }

  ghost predicate Inv(s: Sys) {
    && Valid(s.cache)
    && RecordsAgree(s.cache, s.execs)
    && (forall i :: 0 <= i < |s.execs| ==> Timed(s.execs[i], s.clock))
    && (forall i :: 0 <= i < |s.execs| ==> Kept(s, i))
    && (forall i, j :: 0 <= i < j < |s.execs| ==> Apart(s.execs[i], s.execs[j]))
    && (forall i :: 0 <= i < |s.clients| ==> ClientAgrees(s.clients[i], s.execs))
  }

  // ---------------------------------------------------------------------------------
  // A request
  // ---------------------------------------------------------------------------------

  lemma AgreesMore(k: Key, r: Record<Text>, execs: seq<Execution>, e: Execution)
    requires RecordAgrees(k, r, execs)
    ensures RecordAgrees(k, r, execs + [e])
  {
    assert (execs + [e])[r.exec] == execs[r.exec];
  }

  lemma ClientAgreesMore(c: Client, execs: seq<Execution>, e: Execution)
    requires ClientAgrees(c, execs)
    ensures ClientAgrees(c, execs + [e])
  {
    if c.answer.FromRecord? || c.answer.FromPromise? {
      assert (execs + [e])[c.answer.exec] == execs[c.answer.exec];
    }
  }

  lemma CallRecords(s: Sys, k: Key, payload: Value)
    requires Inv(s) && IsJson(payload)
    ensures Valid(DoCall(s, k, payload).cache)
    ensures RecordsAgree(DoCall(s, k, payload).cache, DoCall(s, k, payload).execs)
  {
    var t := DoCall(s, k, payload);
    var n := |s.execs|;
    AdmitEffect(s.cache, k, FingerprintText(payload), n, s.clock);
    var (cache, l) := Admit(s.cache, k, FingerprintText(payload), n, s.clock);
    forall x | Has(cache.records, x) ensures RecordAgrees(x, Get(cache.records, x), t.execs) {
      if !(l.Execute? && x == k) {
        assert RecordAgrees(x, Get(s.cache.records, x), s.execs);
        AgreesMore(x, Get(s.cache.records, x), s.execs, Execution(k, payload, s.clock, Open));
      }
    }
  }

  lemma CallKeepsOpen(s: Sys, k: Key, payload: Value, i: nat)
    requires Inv(s) && IsJson(payload) && i < |DoCall(s, k, payload).execs|
    ensures Kept(DoCall(s, k, payload), i)
  {
    var n := |s.execs|;
    AdmitEffect(s.cache, k, FingerprintText(payload), n, s.clock);
    var (cache, l) := Admit(s.cache, k, FingerprintText(payload), n, s.clock);
    if i < n {
      assert Kept(s, i);
      var x := s.execs[i].key;
      if s.execs[i].outcome.Open? && Owns(s.cache, x, i) {
        assert RecordAgrees(x, Get(s.cache.records, x), s.execs);
      }
    }
  }

  /** A request that starts an execution finds every earlier one of its key finished or a
      time to live old. */
  lemma CallStaysApart(s: Sys, k: Key, payload: Value, i: nat)
    requires Inv(s) && IsJson(payload) && i < |s.execs|
    requires Admit(s.cache, k, FingerprintText(payload), |s.execs|, s.clock).1.Execute?
    ensures Apart(s.execs[i], Execution(k, payload, s.clock, Open))
  {
    AdmitEffect(s.cache, k, FingerprintText(payload), |s.execs|, s.clock);
    assert Kept(s, i);
    assert Timed(s.execs[i], s.clock);
    var x := s.execs[i].key;
    if s.execs[i].outcome.Open? && Owns(s.cache, x, i) {
      assert RecordAgrees(x, Get(s.cache.records, x), s.execs);
    }
  }

  /** A record with the fingerprint of a payload belongs to an execution of an equal one. */
  lemma RecordServes(s: Sys, k: Key, payload: Value)
    requires Inv(s) && IsJson(payload) && Has(s.cache.records, k)
    requires Get(s.cache.records, k).fingerprint == FingerprintText(payload)
    ensures var r := Get(s.cache.records, k);
            && RecordAgrees(k, r, s.execs)
            && Equivalent(payload, s.execs[r.exec].payload)
  {
    var r := Get(s.cache.records, k);
    assert RecordAgrees(k, r, s.execs);
    JsonEquality.FingerprintsAreEqualIffSame(payload, s.execs[r.exec].payload);
  }

  lemma CallClient(s: Sys, k: Key, payload: Value)
    requires Inv(s) && IsJson(payload)
    ensures var t := DoCall(s, k, payload);
            ClientAgrees(t.clients[|s.clients|], t.execs)
  {
    AdmitEffect(s.cache, k, FingerprintText(payload), |s.execs|, s.clock);
    var l := Admit(s.cache, k, FingerprintText(payload), |s.execs|, s.clock).1;
    if l.Replay? || l.Join? {
      RecordServes(s, k, payload);
    } else if l.Execute? {
      JsonEquality.FingerprintsAreEqualIffSame(payload, payload);
    }
  }

  lemma CallExecs(s: Sys, k: Key, payload: Value)
    requires Inv(s) && IsJson(payload)
    ensures var t := DoCall(s, k, payload);
            && (forall i :: 0 <= i < |t.execs| ==> Timed(t.execs[i], t.clock))
            && (forall i, j :: 0 <= i < j < |t.execs| ==> Apart(t.execs[i], t.execs[j]))
  {
    var l := Admit(s.cache, k, FingerprintText(payload), |s.execs|, s.clock).1;
    var e := Execution(k, payload, s.clock, Open);
    if l.Execute? {
      forall i | 0 <= i < |s.execs| ensures Apart(s.execs[i], e) {
        CallStaysApart(s, k, payload, i);
      }
      var execs := s.execs + [e];
      forall i, j | 0 <= i < j < |execs| ensures Apart(execs[i], execs[j]) {
        if j < |s.execs| {
          assert Apart(s.execs[i], s.execs[j]);
        }
      }
    }
  }

  lemma CallClients(s: Sys, k: Key, payload: Value)
    requires Inv(s) && IsJson(payload)
    ensures var t := DoCall(s, k, payload);
            forall i :: 0 <= i < |t.clients| ==> ClientAgrees(t.clients[i], t.execs)
  {
    var t := DoCall(s, k, payload);
    CallClient(s, k, payload);
    forall i | 0 <= i < |t.clients| ensures ClientAgrees(t.clients[i], t.execs) {
      if i < |s.clients| {
        ClientAgreesMore(s.clients[i], s.execs, Execution(k, payload, s.clock, Open));
      }
    }
  }

  lemma CallKeeps(s: Sys, k: Key, payload: Value)
    requires Inv(s) && IsJson(payload)
    ensures Inv(DoCall(s, k, payload))
  {
    var t := DoCall(s, k, payload);
    CallRecords(s, k, payload);
    CallExecs(s, k, payload);
    CallClients(s, k, payload);
    forall i | 0 <= i < |t.execs| ensures Kept(t, i) {
      CallKeepsOpen(s, k, payload, i);
    }
  }

  lemma InvalidCallKeeps(s: Sys, k: Key, payload: Value)
    requires Inv(s) && !IsJson(payload)
    ensures Inv(DoCall(s, k, payload))
  {
    var t := DoCall(s, k, payload);
    forall i | 0 <= i < |t.execs| ensures Kept(t, i) {
      assert Kept(s, i);
    }
  }

  // ---------------------------------------------------------------------------------
  // An execution ends
  // ---------------------------------------------------------------------------------

  /** The execs after e has ended with this outcome. */
  function Ended(execs: seq<Execution>, e: nat, outcome: Outcome): seq<Execution>
    requires e < |execs|
  {
    execs[e := execs[e].(outcome := outcome)]
  }

  lemma EndKeepsClient(c: Client, execs: seq<Execution>, e: nat, outcome: Outcome)
    requires e < |execs| && execs[e].outcome.Open? && ClientAgrees(c, execs)
    ensures ClientAgrees(c, Ended(execs, e, outcome))
  {
  }

  lemma EndKeepsApart(a: Execution, b: Execution, outcome: Outcome, clock: nat)
    requires Apart(a, b) && Timed(a, clock) && Timed(b, clock)
    ensures Apart(a, b.(outcome := outcome))
    ensures a.outcome.Open? ==> Apart(a.(outcome := outcome), b)
  {
  }

  /** The records of the other open executions are still theirs. */
  ghost predicate OthersKept(s: Sys, e: nat, cache: Cache<Text>) {
    forall i | 0 <= i < |s.execs| && i != e && s.execs[i].outcome.Open? :: (
      Owns(s.cache, s.execs[i].key, i) ==> Owns(cache, s.execs[i].key, i))
  }

  /** What an ending needs of the new cache. */
  lemma EndKeeps(s: Sys, e: nat, outcome: Outcome, cache: Cache<Text>)
    requires Inv(s) && e < |s.execs| && s.execs[e].outcome.Open?
    requires !outcome.Open? && outcome.at == s.clock
    requires Valid(cache) && RecordsAgree(cache, Ended(s.execs, e, outcome))
    requires OthersKept(s, e, cache)
    ensures Inv(s.(cache := cache, execs := Ended(s.execs, e, outcome)))
  {
    var t := s.(cache := cache, execs := Ended(s.execs, e, outcome));
    forall i | 0 <= i < |t.execs| ensures Kept(t, i) && Timed(t.execs[i], t.clock) {
      assert Kept(s, i) && Timed(s.execs[i], s.clock);
    }
    forall i, j | 0 <= i < j < |t.execs| ensures Apart(t.execs[i], t.execs[j]) {
      EndKeepsApart(s.execs[i], s.execs[j], outcome, s.clock);
    }
    forall i | 0 <= i < |t.clients| ensures ClientAgrees(t.clients[i], t.execs) {
      EndKeepsClient(s.clients[i], s.execs, e, outcome);
    }
  }

  lemma RecordStands(s: Sys, x: Key, e: nat, outcome: Outcome)
    requires Inv(s) && e < |s.execs| && Has(s.cache.records, x)
    requires Get(s.cache.records, x).exec != e
    ensures RecordAgrees(x, Get(s.cache.records, x), Ended(s.execs, e, outcome))
  {
    assert RecordAgrees(x, Get(s.cache.records, x), s.execs);
  }

  /** Only the key of an execution can hold its record. */
  lemma RecordOfKey(s: Sys, x: Key)
    requires Inv(s) && Has(s.cache.records, x)
    ensures Get(s.cache.records, x).exec < |s.execs|
    ensures s.execs[Get(s.cache.records, x).exec].key == x
    ensures s.execs[Get(s.cache.records, x).exec].outcome.Open? <==> Get(s.cache.records, x).stage.Pending?
  {
    assert RecordAgrees(x, Get(s.cache.records, x), s.execs);
  }

  lemma FinishRecords(s: Sys, e: nat, response: Response)
    requires Inv(s) && e < |s.execs| && s.execs[e].outcome.Open?
    ensures Valid(DoFinish(s, e, response).cache)
    ensures RecordsAgree(DoFinish(s, e, response).cache, DoFinish(s, e, response).execs)
    ensures OthersKept(s, e, DoFinish(s, e, response).cache)
  {
    var k := s.execs[e].key;
    if Owns(s.cache, k, e) {
      RecordOfKey(s, k);
    }
    CompleteEffect(s.cache, k, e, response, s.clock);
    var t := DoFinish(s, e, response);
    forall x | Has(t.cache.records, x) ensures RecordAgrees(x, Get(t.cache.records, x), t.execs) {
      FinishRecord(s, e, response, x);
    }
    forall i | 0 <= i < |s.execs| && i != e && s.execs[i].outcome.Open? && Owns(s.cache, s.execs[i].key, i)
      ensures Owns(t.cache, s.execs[i].key, i)
    {
      RecordOfKey(s, s.execs[i].key);
    }
  }

  lemma FinishRecord(s: Sys, e: nat, response: Response, x: Key)
    requires Inv(s) && e < |s.execs| && s.execs[e].outcome.Open?
    requires CompleteResult(s.cache, s.execs[e].key, e, response, s.clock, DoFinish(s, e, response).cache)
    requires Has(DoFinish(s, e, response).cache.records, x)
    ensures RecordAgrees(x, Get(DoFinish(s, e, response).cache.records, x), DoFinish(s, e, response).execs)
  {
    assert Has(s.cache.records, x);
    RecordOfKey(s, x);
    assert RecordAgrees(x, Get(s.cache.records, x), s.execs);
    if Get(s.cache.records, x).exec != e {
      RecordStands(s, x, e, Returned(response, s.clock));
    }
  }

  lemma FinishKeeps(s: Sys, e: nat, response: Response)
    requires Inv(s) && e < |s.execs| && s.execs[e].outcome.Open?
    ensures Inv(DoFinish(s, e, response))
  {
    FinishRecords(s, e, response);
    EndKeeps(s, e, Returned(response, s.clock), DoFinish(s, e, response).cache);
  }

  lemma BreakKeeps(s: Sys, e: nat)
    requires Inv(s) && e < |s.execs| && s.execs[e].outcome.Open?
    ensures Inv(DoBreak(s, e))
  {
    var k := s.execs[e].key;
    FailEffect(s.cache, k, e);
    var t := DoBreak(s, e);
    forall x | Has(t.cache.records, x) ensures RecordAgrees(x, Get(t.cache.records, x), t.execs) {
      RecordOfKey(s, x);
      RecordStands(s, x, e, Threw(s.clock));
    }
    EndKeeps(s, e, Threw(s.clock), t.cache);
  }

  lemma TickKeeps(s: Sys, d: nat)
    requires Inv(s)
    ensures Inv(s.(clock := s.clock + d))
  {
    var t := s.(clock := s.clock + d);
    forall i | 0 <= i < |t.execs| ensures Kept(t, i) && Timed(t.execs[i], t.clock) {
      assert Kept(s, i) && Timed(s.execs[i], s.clock);
    }
  }

  lemma StepKeeps(s: Sys, step: Step)
    requires Inv(s)
    ensures Inv(Exec(s, step))
  {
    match step
    case Tick(d) => TickKeeps(s, d);
    case Call(k, payload) =>
      if IsJson(payload) { CallKeeps(s, k, payload); } else { InvalidCallKeeps(s, k, payload); }
    case Finish(e, response) =>
      if e < |s.execs| && s.execs[e].outcome.Open? { FinishKeeps(s, e, response); }
    case Break(e) =>
      if e < |s.execs| && s.execs[e].outcome.Open? { BreakKeeps(s, e); }
  }

  lemma {:induction false} RunKeeps(s: Sys, steps: seq<Step>)
    requires Inv(s)
    ensures Inv(Run(s, steps))
    decreases |steps|
  {
    if steps != [] {
      StepKeeps(s, steps[0]);
      RunKeeps(Exec(s, steps[0]), steps[1..]);
    }
  }

  lemma InitialInv()
    ensures Inv(Initial())
  {
  }

  // ---------------------------------------------------------------------------------
  // Whole runs
  // ---------------------------------------------------------------------------------

  /** The response a client has received, if any. */
  function Received(s: Sys, i: nat): Option<Response>
    requires i < |s.clients|
  {
    match s.clients[i].answer
    case FromRecord(_, response) => Some(response)
    case FromPromise(e, _) =>
      if e < |s.execs| && s.execs[e].outcome.Returned? then Some(s.execs[e].outcome.response) else None
    case _ => None
  }

  /** Every response a client ever receives, by replay or by waiting, is what one execution
      of the same key returned, and that execution ran on the same payload up to the order
      of object members. */
  lemma EveryReplyComesFromOneExecution(steps: seq<Step>, i: nat)
    requires i < |Run(Initial(), steps).clients|
    requires Received(Run(Initial(), steps), i).Some?
    ensures var s := Run(Initial(), steps);
            var c := s.clients[i];
            && c.answer.exec < |s.execs|
            && var e := s.execs[c.answer.exec];
               && e.key == c.key && Equivalent(c.payload, e.payload)
               && e.outcome.Returned? && Received(s, i) == Some(e.outcome.response)
  {
    InitialInv();
    RunKeeps(Initial(), steps);
    assert ClientAgrees(Run(Initial(), steps).clients[i], Run(Initial(), steps).execs);
  }

  /** A replay is never older than the time to live, and a request joins only an execution
      that started less than a time to live before it. */
  lemma RepliesAreRecent(steps: seq<Step>, i: nat)
    requires i < |Run(Initial(), steps).clients|
    ensures var s := Run(Initial(), steps);
            var c := s.clients[i];
            && (c.answer.FromRecord? ==>
                  c.answer.exec < |s.execs| && s.execs[c.answer.exec].outcome.Returned?
                  && c.askedAt < s.execs[c.answer.exec].outcome.at + TTL)
            && (c.answer.FromPromise? ==>
                  c.answer.exec < |s.execs| && c.askedAt < s.execs[c.answer.exec].startedAt + TTL)
  {
    InitialInv();
    RunKeeps(Initial(), steps);
    assert ClientAgrees(Run(Initial(), steps).clients[i], Run(Initial(), steps).execs);
  }

  /** Two executions of one key never overlap, unless the earlier one is still running a
      time to live after it started. */
  lemma ExecutionsOfAKeyDoNotOverlap(steps: seq<Step>, i: nat, j: nat)
    requires i < j < |Run(Initial(), steps).execs|
    requires Run(Initial(), steps).execs[i].key == Run(Initial(), steps).execs[j].key
    ensures var s := Run(Initial(), steps);
            FinishedBy(s.execs[i], s.execs[j].startedAt)
            || s.execs[i].startedAt + TTL <= s.execs[j].startedAt
  {
    InitialInv();
    RunKeeps(Initial(), steps);
    var s := Run(Initial(), steps);
    assert Apart(s.execs[i], s.execs[j]);
  }

  predicate StoredSize(r: Record<Text>) {
    r.stage.Fulfilled? ==> r.stage.response.size == Some(r.bytes)
  }

  /** The byte counter is the sum over the live records, and both caps hold, in every
      reachable state; a record counts the size of the response it stores. */
  lemma CacheStaysWithinItsCaps(steps: seq<Step>)
    ensures var c := Run(Initial(), steps).cache;
            && c.storedBytes == Bytes(c.records) <= MAX_BYTES
            && |c.records| <= MAX_RECORDS
            && Distinct(c.records)
            && (forall i :: 0 <= i < |c.records| ==> StoredSize(c.records[i].value))
  {
    InitialInv();
    RunKeeps(Initial(), steps);
    var s := Run(Initial(), steps);
    forall i | 0 <= i < |s.cache.records| ensures StoredSize(s.cache.records[i].value) {
      FindAt(s.cache.records, i);
      assert RecordAgrees(s.cache.records[i].key, s.cache.records[i].value, s.execs);
    }
  }

  /** When an execution ends, in any reachable state, the records of all other executions
      that still run stay as they are: a late result never touches its successor. */
  lemma LateResultLeavesSuccessor(steps: seq<Step>, e: nat, response: Response, k: Key)
    requires e < |Run(Initial(), steps).execs| && Run(Initial(), steps).execs[e].outcome.Open?
    requires Has(Run(Initial(), steps).cache.records, k)
    requires Get(Run(Initial(), steps).cache.records, k).exec != e
    requires Get(Run(Initial(), steps).cache.records, k).stage.Pending?
    ensures var s := Run(Initial(), steps);
            var t := Run(Initial(), steps + [Finish(e, response)]);
            Has(t.cache.records, k) && Get(t.cache.records, k) == Get(s.cache.records, k)
    ensures var s := Run(Initial(), steps);
            k == s.execs[e].key ==> Run(Initial(), steps + [Finish(e, response)]).cache == s.cache
  {
    InitialInv();
    RunKeeps(Initial(), steps);
    var s := Run(Initial(), steps);
    RunMore(Initial(), steps, Finish(e, response));
    RecordOfKey(s, k);
    if Owns(s.cache, s.execs[e].key, e) {
      RecordOfKey(s, s.execs[e].key);
    }
    CompleteEffect(s.cache, s.execs[e].key, e, response, s.clock);
  }

  lemma {:induction false} RunMore(s: Sys, steps: seq<Step>, step: Step)
    ensures Run(s, steps + [step]) == Exec(Run(s, steps), step)
    decreases |steps|
  {
    if steps == [] {
      assert steps + [step] == [step];
      assert [step][1..] == [];
    } else {
      assert (steps + [step])[1..] == steps[1..] + [step];
      RunMore(Exec(s, steps[0]), steps[1..], step);
    }
  }

  /** The response of an execution is stored exactly when it carries a search id and fits,
      provided the execution's record is still its own. */
  lemma StoredExactlyWhenStableAndFits(steps: seq<Step>, e: nat, response: Response)
    requires e < |Run(Initial(), steps).execs| && Run(Initial(), steps).execs[e].outcome.Open?
    requires Owns(Run(Initial(), steps).cache, Run(Initial(), steps).execs[e].key, e)
    ensures var k := Run(Initial(), steps).execs[e].key;
            var c := Run(Initial(), steps + [Finish(e, response)]).cache;
            && (Has(c.records, k) <==>
                  response.stable && response.size.Some? && response.size.value <= MAX_BYTES)
            && (Has(c.records, k) ==> Get(c.records, k).stage == Fulfilled(response))
  {
    InitialInv();
    RunKeeps(Initial(), steps);
    var s := Run(Initial(), steps);
    RunMore(Initial(), steps, Finish(e, response));
    RecordOfKey(s, s.execs[e].key);
    CompleteEffect(s.cache, s.execs[e].key, e, response, s.clock);
  }
}
