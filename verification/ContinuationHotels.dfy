// What becomes of the hotels of a continued search: a page is recorded only after its hotels
// were appended under the lease, and no hotel of a settled search is ever lost.

module ContinuationHotels {
  import opened Common
  import opened ProviderExecutions
  import opened ContinuationPass
  import opened ContinuationProtocol
  import opened ContinuationExclusion
  import opened LeaseCoupling
  import S = SearchSessions
  import W = SessionWrites

  // ---------------------------------------------------------------------------------
  // A page is recorded after its hotels were appended
  // ---------------------------------------------------------------------------------

  /** The next result that the request has to record is a page. */
  predicate PageIsNext(x: Client) {
    && x.next < |x.runnable| && x.runnable[x.next].providerId in x.results
    && x.results[x.runnable[x.next].providerId].Page?
  }

  /** The request is about to record a page. */
  predicate PastAppend(x: Client) {
    x.pc in {Refreshing, Recording} && PageIsNext(x)
  }

  /** The step appends the hotels of the request's n-th result, and the store accepts them. */
  predicate AppendsAt(s: Sys, st: Step, c: nat, n: nat) {
    && st.Advance? && st.c == c && c in s.clients && s.clients[c].pc == Appending && s.clients[c].next == n
    && Request(s, st) == Some(S.Append(s.clients[c].id, st.input.hotels, Some(s.clients[c].lease)))
    && Served(s, st).1.Accepted?
  }

  predicate AppendsIn(s: Sys, steps: seq<Step>, c: nat, n: nat)
    decreases |steps|
  {
    steps != [] && (AppendsAt(s, steps[0], c, n) || AppendsIn(Exec(s, steps[0]), steps[1..], c, n))
  }

  lemma NextIsNoPage(x: Client)
    ensures !PastAppend(NextResult(x))
  {
  }

  lemma RecordsToNext(x: Client, input: Input, reply: S.Reply, now: int)
    requires x.pc == Recording
    ensures Moved(x, input, reply, now)
            in {Caught(x), NextResult(x.(executions := Applied(x, now), next := x.next + 1))}
  {
  }

  lemma ConfirmsToNext(x: Client, input: Input, reply: S.Reply, now: int)
    requires x.pc == Confirming
    ensures Moved(x, input, reply, now) in {Caught(x), NextResult(x)}
  {
  }

  lemma CaughtIsOver(x: Client)
    ensures !PastAppend(Caught(x))
  {
  }

  lemma AfterNextResult(x: Client, input: Input, reply: S.Reply, now: int)
    ensures x.pc == Confirming || x.pc == Recording ==> !PastAppend(Moved(x, input, reply, now))
  {
    CaughtIsOver(x);
    if x.pc == Recording {
      RecordsToNext(x, input, reply, now);
      NextIsNoPage(x.(executions := Applied(x, now), next := x.next + 1));
    } else if x.pc == Confirming {
      ConfirmsToNext(x, input, reply, now);
      NextIsNoPage(x);
    }
  }

  /** A request comes to record a page only from an accepted append of the same result. */
  lemma IntoRecording(x: Client, input: Input, reply: S.Reply, now: int)
    requires PastAppend(Moved(x, input, reply, now))
    ensures || (x.pc == Appending && x.next == Moved(x, input, reply, now).next
                && input.fate == Delivered && reply.Accepted?)
            || (PastAppend(x) && x.next == Moved(x, input, reply, now).next)
  {
    AfterNextResult(x, input, reply, now);
  }

  lemma OpenedIsBefore(id: SearchId, session: S.Session, now: int)
    ensures !PastAppend(Opened(id, session, now))
  {
  }

  lemma StepIntoRecording(s: Sys, st: Step, c: nat)
    requires c in Exec(s, st).clients && PastAppend(Exec(s, st).clients[c])
    ensures var n := Exec(s, st).clients[c].next;
            || AppendsAt(s, st, c, n)
            || (c in s.clients && PastAppend(s.clients[c]) && s.clients[c].next == n)
  {
    if c !in s.clients {
      NewClientIsBefore(s, st, c);
      assert false;
    } else if st.Advance? && st.c == c {
      MoverIntoRecording(s, c, st.input);
    } else {
      OthersStay(s, st, c);
    }
  }

  lemma NewClientIsBefore(s: Sys, st: Step, c: nat)
    requires c in Exec(s, st).clients && c !in s.clients
    ensures !PastAppend(Exec(s, st).clients[c])
  {
    OpenedIsBefore(st.id, Served(s, st).1.session, s.now);
  }

  lemma OthersStay(s: Sys, st: Step, c: nat)
    requires c in s.clients && !(st.Advance? && st.c == c)
    ensures c in Exec(s, st).clients && Exec(s, st).clients[c] == s.clients[c]
  {
  }

  lemma MoverIntoRecording(s: Sys, c: nat, input: Input)
    requires c in s.clients
    requires PastAppend(Moved(s.clients[c], input, Served(s, Advance(c, input)).1, s.now))
    ensures var st := Advance(c, input);
            var n := Moved(s.clients[c], input, Served(s, st).1, s.now).next;
            AppendsAt(s, st, c, n) || (PastAppend(s.clients[c]) && s.clients[c].next == n)
  {
    IntoRecording(s.clients[c], input, Served(s, Advance(c, input)).1, s.now);
  }

  lemma {:induction false} PagesAreAppendedFirst(s: Sys, steps: seq<Step>, c: nat)
    requires c in Run(s, steps).clients && PastAppend(Run(s, steps).clients[c])
    ensures var n := Run(s, steps).clients[c].next;
            || AppendsIn(s, steps, c, n)
            || (c in s.clients && PastAppend(s.clients[c]) && s.clients[c].next == n)
    decreases |steps|
  {
    if steps != [] {
      var t := Exec(s, steps[0]);
      PagesAreAppendedFirst(t, steps[1..], c);
      if c in t.clients && PastAppend(t.clients[c]) {
        StepIntoRecording(s, steps[0], c);
      }
    }
  }

  /** In every run of the protocol from its start, a request that is about to record a page has
      had an append for that very result accepted under its lease. */
  lemma RecordedPagesWereAppended(steps: seq<Step>, c: nat)
    requires c in Run(Start(), steps).clients && PastAppend(Run(Start(), steps).clients[c])
    ensures AppendsIn(Start(), steps, c, Run(Start(), steps).clients[c].next)
  {
    PagesAreAppendedFirst(Start(), steps, c);
  }

  /** Such an append stores the hotels that it was given. */
  lemma AppendStepStores(s: Sys, st: Step, c: nat, n: nat)
    requires AppendsAt(s, st, c, n)
    ensures var x, t := s.clients[c], Exec(s, st).store;
            && x.id in s.store.sessions && x.id in t.sessions
            && W.Appended(s.store.sessions[x.id].hotels, st.input.hotels, t.sessions[x.id].hotels)
  {
    var x := s.clients[c];
    ExecStore(s, st);
    W.AppendStores(s.store, x.id, st.input.hotels, Some(x.lease), s.now);
  }

  // ---------------------------------------------------------------------------------
  // No hotel of a settled search is lost
  // ---------------------------------------------------------------------------------

  /** Every hotel with an id that is listed before is listed after. */
  predicate KeepsHotels(before: seq<S.Hotel>, after: seq<S.Hotel>) {
    forall h <- before :: h.id != 0 ==> W.Lists(after, h.id)
  }

  lemma SameHotels(hotels: seq<S.Hotel>)
    ensures KeepsHotels(hotels, hotels)
  {
  }

  lemma KeepsTrans(a: seq<S.Hotel>, b: seq<S.Hotel>, c: seq<S.Hotel>)
    requires KeepsHotels(a, b) && KeepsHotels(b, c)
    ensures KeepsHotels(a, c)
  {
  }

  predicate StoreKeeps(s: S.Store, t: S.Store, id: SearchId) {
    id in t.sessions ==> id in s.sessions && KeepsHotels(s.sessions[id].hotels, t.sessions[id].hotels)
  }

  /** No write of a request carries hotels. */
  lemma CommandsCarryNoHotels(x: Client, input: Input, token: Token, now: int)
    ensures var op := Command(x, input, token, now);
            && (op.Some? && op.value.Update? ==> op.value.patch.hotels.None?)
            && (op.Some? && op.value.ReleaseLease? ==> op.value.patch.hotels.None?)
  {
  }

  lemma OnlyTimeKeeps(s: S.Store, t: S.Store, now: int, id: SearchId)
    requires W.OnlyTime(s, t, now)
    ensures StoreKeeps(s, t, id)
  {
    if id in t.sessions { SameHotels(s.sessions[id].hotels); }
  }

  lemma OthersKeep(s: S.Store, t: S.Store, on: SearchId, now: int, id: SearchId)
    requires W.OthersLive(s, t, on, now) && (id == on && id in t.sessions ==> StoreKeeps(s, t, id))
    ensures StoreKeeps(s, t, id)
  {
    if id != on && id in t.sessions { SameHotels(s.sessions[id].hotels); }
  }

  lemma UpdateKeeps(s: S.Store, on: SearchId, p: S.Patch, holder: Option<S.Lease>, now: int, id: SearchId)
    requires p.hotels.None?
    ensures StoreKeeps(s, S.Eval(s, S.Update(on, p, holder), now).0, id)
  {
    W.UpdateStores(s, on, p, holder, now);
    var t := S.Eval(s, S.Update(on, p, holder), now).0;
    if W.Alive(s, on, now) && W.MayWrite(s.sessions[on], holder, now) {
      SameHotels(s.sessions[on].hotels);
      OthersKeep(s, t, on, now, id);
    } else {
      OnlyTimeKeeps(s, t, now, id);
    }
  }

  lemma ReleaseKeeps(s: S.Store, on: SearchId, p: S.Patch, lease: S.Lease, now: int, id: SearchId)
    requires p.hotels.None?
    ensures StoreKeeps(s, S.Eval(s, S.ReleaseLease(on, p, lease), now).0, id)
  {
    W.ReleaseStores(s, on, p, lease, now);
    var t := S.Eval(s, S.ReleaseLease(on, p, lease), now).0;
    if W.Alive(s, on, now) && S.HeldBy(s.sessions[on], lease, now) {
      SameHotels(s.sessions[on].hotels);
      OthersKeep(s, t, on, now, id);
    } else {
      OnlyTimeKeeps(s, t, now, id);
    }
  }

  lemma AppendKeeps(s: S.Store, on: SearchId, hotels: seq<S.Hotel>, holder: Option<S.Lease>, now: int, id: SearchId)
    ensures StoreKeeps(s, S.Eval(s, S.Append(on, hotels, holder), now).0, id)
  {
    W.AppendStores(s, on, hotels, holder, now);
    var t := S.Eval(s, S.Append(on, hotels, holder), now).0;
    if W.Alive(s, on, now) && W.MayWrite(s.sessions[on], holder, now) {
      OthersKeep(s, t, on, now, id);
    } else {
      OnlyTimeKeeps(s, t, now, id);
    }
  }

  lemma LeaseKeeps(s: S.Store, op: S.Op, now: int, id: SearchId)
    requires S.Valid(s, now) && (op.Acquire? || op.RenewLease?)
    ensures StoreKeeps(s, S.Eval(s, op, now).0, id)
  {
    var t := S.Eval(s, op, now).0;
    var accepted := if op.Acquire? then W.Alive(s, op.id, now) && !S.LeaseActive(s.sessions[op.id], now)
                    else W.Alive(s, op.id, now) && S.HeldBy(s.sessions[op.id], op.lease, now);
    if op.Acquire? {
      W.AcquireStores(s, op.id, op.token, now);
    } else {
      W.RenewStores(s, op.id, op.lease, now);
    }
    if accepted {
      SameHotels(s.sessions[op.id].hotels);
      OthersKeep(s, t, op.id, now, id);
    } else {
      OnlyTimeKeeps(s, t, now, id);
    }
  }

  lemma ClaimKeeps(s: S.Store, op: S.Op, now: int, id: SearchId)
    requires op.Claim?
    ensures StoreKeeps(s, S.Eval(s, op, now).0, id)
  {
    var t := S.Eval(s, op, now).0;
    W.ClaimStores(s, op.id, op.token, op.fence, now);
    if S.Eval(s, op, now).1.Accepted? {
      SameHotels(s.sessions[op.id].hotels);
      OthersKeep(s, t, op.id, now, id);
    } else if t == s {
      if id in s.sessions { SameHotels(s.sessions[id].hotels); }
    } else {
      OnlyTimeKeeps(s, t, now, id);
    }
  }

  lemma ReadKeeps(s: S.Store, op: S.Op, now: int, id: SearchId)
    requires op.Read? || op.Clear?
    ensures StoreKeeps(s, S.Eval(s, op, now).0, id)
  {
    var t := S.Eval(s, op, now).0;
    if op.Read? {
      W.ReadAnswers(s, op.id, now);
      OnlyTimeKeeps(s, t, now, id);
    } else if id in t.sessions {
      SameHotels(s.sessions[id].hotels);
    }
  }

  /** The initial execution of a settled or direct search is not written any more. */
  lemma InitialWriteKeeps(s: Sys, op: S.Op, id: SearchId)
    requires Inv(s) && op.UpdateInitial? && FromWorker(s.queued, op) && IsPast(s.store, s.nextId, id)
    ensures StoreKeeps(s.store, S.Eval(s.store, op, s.now).0, id)
  {
    var t := S.Eval(s.store, op, s.now).0;
    W.UpdateInitialStores(s.store, op.id, op.stage, op.patch, op.token, op.fence, s.now);
    if S.Eval(s.store, op, s.now).1.Accepted? {
      assert SessionOk(s.store.sessions[op.id], op.id, s.nextId, s.queued);
      assert S.ValidSession(s.store.sessions[op.id], s.store.counter, s.now);
      assert op.id != id;
      OthersKeep(s.store, t, op.id, s.now, id);
    } else {
      OnlyTimeKeeps(s.store, t, s.now, id);
    }
  }

  lemma SaveKeeps(s: S.Store, op: S.Op, now: int, id: SearchId)
    requires op.Save? && op.id != id
    ensures StoreKeeps(s, S.Eval(s, op, now).0, id)
  {
    W.SaveStores(s, op.id, op.draft, now);
    var t := S.Eval(s, op, now).0;
    if S.Eval(s, op, now).1.Accepted? {
      OthersKeep(s, t, op.id, now, id);
    } else {
      OnlyTimeKeeps(s, t, now, id);
    }
  }

  lemma OpKeepsHotels(s: Sys, op: S.Op, id: SearchId)
    requires Inv(s) && IsPast(s.store, s.nextId, id)
    requires op.Save? ==> op.id != id
    requires op.Claim? || op.UpdateInitial? ==> FromWorker(s.queued, op)
    requires op.Update? || op.ReleaseLease? ==> op.patch.hotels.None?
    ensures StoreKeeps(s.store, S.Eval(s.store, op, s.now).0, id)
  {
    match op
    case Save(_, _) => SaveKeeps(s.store, op, s.now, id);
    case Claim(_, _, _) => ClaimKeeps(s.store, op, s.now, id);
    case UpdateInitial(_, _, _, _, _) => InitialWriteKeeps(s, op, id);
    case Acquire(_, _) => LeaseKeeps(s.store, op, s.now, id);
    case RenewLease(_, _) => LeaseKeeps(s.store, op, s.now, id);
    case ReleaseLease(on, p, lease) => ReleaseKeeps(s.store, on, p, lease, s.now, id);
    case Update(on, p, holder) => UpdateKeeps(s.store, on, p, holder, s.now, id);
    case Append(on, hotels, holder) => AppendKeeps(s.store, on, hotels, holder, s.now, id);
    case Clear(_) => ReadKeeps(s.store, op, s.now, id);
    case Read(_) => ReadKeeps(s.store, op, s.now, id);
  }

  lemma StepKeepsHotels(s: Sys, st: Step, id: SearchId)
    requires Inv(s) && IsPast(s.store, s.nextId, id)
    ensures StoreKeeps(s.store, Exec(s, st).store, id)
  {
    ExecStore(s, st);
    if Request(s, st).Some? {
      RequestShape(s, st);
      if st.Advance? {
        CommandsCarryNoHotels(s.clients[st.c], st.input, s.nextToken, s.now);
      }
      OpKeepsHotels(s, Request(s, st).value, id);
    } else if id in s.store.sessions {
      SameHotels(s.store.sessions[id].hotels);
    }
  }

  lemma {:induction false} RunKeepsHotels(s: Sys, steps: seq<Step>, id: SearchId)
    requires Inv(s) && IsPast(s.store, s.nextId, id)
    ensures StoreKeeps(s.store, Run(s, steps).store, id)
    decreases |steps|
  {
    if steps == [] {
      if id in s.store.sessions { SameHotels(s.store.sessions[id].hotels); }
    } else {
      var t := Exec(s, steps[0]);
      StepKeeps(s, steps[0]);
      PastStays(s, steps[0], id);
      StepKeepsHotels(s, steps[0], id);
      RunKeepsHotels(t, steps[1..], id);
      var u := Run(s, steps).store;
      if id in u.sessions {
        KeepsTrans(s.store.sessions[id].hotels, t.store.sessions[id].hotels, u.sessions[id].hotels);
      }
    }
  }

  /** Once a search is settled, or was direct from the start, no hotel is ever lost from its
      session: in every continuation of every run, as long as the session lives, it lists every
      hotel that it listed before. */
  lemma HotelsAreNeverLost(before: seq<Step>, steps: seq<Step>, id: SearchId)
    requires var s := Run(Start(), before); id in s.store.sessions && Past(s.store.sessions[id].stage)
    requires id in Run(Run(Start(), before), steps).store.sessions
    ensures var s := Run(Start(), before);
            KeepsHotels(s.store.sessions[id].hotels, Run(s, steps).store.sessions[id].hotels)
  {
    StartIsSafe();
    RunKeeps(Start(), before);
    var s := Run(Start(), before);
    assert SessionOk(s.store.sessions[id], id, s.nextId, s.queued);
    RunKeepsHotels(s, steps, id);
  }
}
