// What the requests that continue a search show when they end: the status and the incomplete
// flag of the session agree with the provider executions stored with them.

module ContinuationEnds {
  import opened Common
  import opened ProviderExecutions
  import opened ContinuationPass
  import opened ContinuationProtocol
  import S = SearchSessions
  import W = SessionWrites

  // ---------------------------------------------------------------------------------
  // The decision before the lock
  // ---------------------------------------------------------------------------------

  predicate SomeIn(es: seq<Execution>, state: State) {
    exists i :: 0 <= i < |es| && es[i].state == state
  }

  predicate SomeRunnable(es: seq<Execution>, now: int) {
    exists i :: 0 <= i < |es| && Runnable(es[i], now)
  }

  /** A request concludes exactly when no execution is active, waits exactly when some is and
      none can run but one has to be waited for, and tries for the lease otherwise: when one can
      run, or is left running with none to wait for. */
  lemma DecideMeans(raw: seq<Execution>, now: int)
    requires now >= 0
    ensures var es := NormalizeList(raw);
            && (Decide(raw, now) == Concluding <==> !SomeActive(es))
            && (Decide(raw, now) == Waiting <==> !SomeRunnable(es, now) && SomeWaiting(es, now))
            && (Decide(raw, now) == Acquiring <==>
                  SomeRunnable(es, now) || (SomeIn(es, Running) && !SomeWaiting(es, now)))
  {
    var es := NormalizeList(raw);
    NormalizedListIsNormal(raw);
    RunnableInEffect(es, now);
    forall i | 0 <= i < |es|
      ensures Active(es[i].state) <==>
              es[i].state == Running || Runnable(es[i], now) || RetryDelay(es[i], now) > 0
      ensures Runnable(es[i], now) ==> es[i] in RunnableIn(es, now)
    {
      StandsStill(es[i], now);
    }
    if RunnableIn(es, now) != [] {
      assert RunnableIn(es, now)[0] in RunnableIn(es, now);
    }
  }

  lemma StandsStill(e: Execution, now: int)
    requires Normal(e) && now >= 0
    ensures Active(e.state) <==> e.state == Running || Runnable(e, now) || RetryDelay(e, now) > 0
  {
    ActiveIsCounted(e, now, now);
  }

  /** A request that opens a search ends at once while its lease is active, resets it when it
      is marked as continuing without one, and decides otherwise. */
  lemma OpenedMeans(id: SearchId, session: S.Session, now: int)
    ensures var x := Opened(id, session, now);
            && (S.LeaseActive(session, now) ==> x.pc == Ended)
            && (x.pc == Ended && session.fence > 0 ==> S.LeaseActive(session, now))
            && (x.pc == Resetting <==> session.isContinuing && x.pc != Ended)
            && (!session.isContinuing ==>
                  x.pc == Decide(NormalizeList(session.executions), now)
                  && x.executions == NormalizeList(session.executions))
  {
  }

  // ---------------------------------------------------------------------------------
  // Requests stand where their executions put them
  // ---------------------------------------------------------------------------------

  /** A request that concludes has no active execution, and one that waits has. */
  predicate Stands(x: Client) {
    && (x.pc == Concluding ==> !SomeActive(NormalizeList(x.executions)))
    && (x.pc == Waiting ==> SomeActive(NormalizeList(x.executions)))
  }

  predicate AllStand(s: Sys) {
    forall c <- s.clients :: Stands(s.clients[c])
  }

  lemma DecideStands(x: Client, now: int)
    ensures Stands(x.(pc := Decide(x.executions, now)))
  {
  }

  lemma OpenedStands(id: SearchId, session: S.Session, now: int)
    ensures Stands(Opened(id, session, now))
  {
    DecideStands(Opened(id, session, now), now);
  }

  lemma MovedStands(x: Client, input: Input, reply: S.Reply, now: int)
    ensures Stands(Moved(x, input, reply, now))
  {
    if x.pc == Resetting && input.fate == Delivered && reply.Accepted? {
      DecideStands(x, now);
    } else {
      OtherwiseElsewhere(x, input, reply, now);
    }
  }

  lemma OtherwiseElsewhere(x: Client, input: Input, reply: S.Reply, now: int)
    requires !(x.pc == Resetting && input.fate == Delivered && reply.Accepted?)
    ensures Moved(x, input, reply, now).pc !in {Concluding, Waiting}
  {
  }

  lemma StepKeepsStands(s: Sys, st: Step)
    requires AllStand(s)
    ensures AllStand(Exec(s, st))
  {
    var t := Exec(s, st);
    forall c | c in t.clients ensures Stands(t.clients[c]) {
      if st.Advance? && st.c == c && c in s.clients {
        MovedStands(s.clients[c], st.input, Served(s, st).1, s.now);
      } else if c in s.clients {
        assert t.clients[c] == s.clients[c];
      } else {
        OpenedStands(st.id, Served(s, st).1.session, s.now);
      }
    }
  }

  lemma {:induction false} RunKeepsStands(s: Sys, steps: seq<Step>)
    requires AllStand(s)
    ensures AllStand(Run(s, steps))
    decreases |steps|
  {
    if steps != [] {
      StepKeepsStands(s, steps[0]);
      RunKeepsStands(Exec(s, steps[0]), steps[1..]);
    }
  }

  // ---------------------------------------------------------------------------------
  // What an ending request leaves
  // ---------------------------------------------------------------------------------

  /** The session says of its executions what they are: incomplete and in progress while one
      is active, failed when all have ended and one has failed, completed when all are. */
  predicate TellsTrue(y: S.Session) {
    var es := NormalizeList(y.executions);
    && (y.incomplete <==> SomeActive(es))
    && (y.status == S.InProgress <==> SomeActive(es))
    && (y.status == S.StatusFailed <==> !SomeActive(es) && SomeIn(es, TerminalFailure))
    && (y.status == S.Completed <==> !SomeActive(es) && !SomeIn(es, TerminalFailure))
  }

  /** Whether the store accepts the last write of a request. */
  predicate MayEnd(x: Client, y: S.Session, now: int) {
    if x.pc == Releasing then S.HeldBy(y, x.lease, now) else !S.LeaseActive(y, now)
  }

  lemma EndingCommand(x: Client, input: Input, token: Token, now: int)
    requires Stands(x) && x.pc in {Concluding, Waiting, Releasing}
    ensures var op := Command(x, input, token, now);
            && op.Some? && op.value.id == x.id
            && (if x.pc == Releasing then op.value.ReleaseLease? && op.value.lease == x.lease
                else op.value.Update? && op.value.holder.None?)
            && op.value.patch.executions == Some(x.executions)
            && op.value.patch.incomplete == Some(SomeActive(NormalizeList(x.executions)))
            && op.value.patch.status == Some(FinalStatus(x.executions))
            && (x.pc != Releasing ==> op.value.patch.isContinuing == Some(false))
            && op.value.patch.hotels.None?
  {
  }

  lemma PatchedTellsTrue(x: Client, y: S.Session, z: S.Session, p: S.Patch)
    requires W.Patched(y, z, p) && p.executions == Some(x.executions) && p.status == Some(FinalStatus(x.executions))
    requires p.incomplete == Some(SomeActive(NormalizeList(x.executions)))
    ensures z.executions == x.executions && TellsTrue(z)
  {
  }

  /** What the request's last write leaves of its session. */
  predicate LeftTrue(x: Client, y: S.Session, z: S.Session) {
    z.executions == x.executions && TellsTrue(z) && !z.isContinuing && z.hotels == y.hotels
  }

  lemma ReleaseLeavesTrue(s: Sys, c: nat, input: Input)
    requires c in s.clients && Stands(s.clients[c]) && s.clients[c].pc == Releasing && input.fate != NotSent
    ensures var x, t := s.clients[c], Exec(s, Advance(c, input)).store;
            if W.Alive(s.store, x.id, s.now) && MayEnd(x, s.store.sessions[x.id], s.now) then
              x.id in t.sessions && LeftTrue(x, s.store.sessions[x.id], t.sessions[x.id])
            else W.OnlyTime(s.store, t, s.now)
  {
    var x := s.clients[c];
    EndingCommand(x, input, s.nextToken, s.now);
    var p := Command(x, input, s.nextToken, s.now).value.patch;
    StoreAfter(s, c, input);
    W.ReleaseStores(s.store, x.id, p, x.lease, s.now);
    var t := Exec(s, Advance(c, input)).store;
    if W.Alive(s.store, x.id, s.now) && MayEnd(x, s.store.sessions[x.id], s.now) {
      PatchedTellsTrue(x, s.store.sessions[x.id], t.sessions[x.id], p);
    }
  }

  lemma UnfencedLeavesTrue(s: Sys, c: nat, input: Input)
    requires c in s.clients && Stands(s.clients[c]) && s.clients[c].pc in {Concluding, Waiting} && input.fate != NotSent
    ensures var x, t := s.clients[c], Exec(s, Advance(c, input)).store;
            if W.Alive(s.store, x.id, s.now) && MayEnd(x, s.store.sessions[x.id], s.now) then
              x.id in t.sessions && LeftTrue(x, s.store.sessions[x.id], t.sessions[x.id])
            else W.OnlyTime(s.store, t, s.now)
  {
    var x := s.clients[c];
    EndingCommand(x, input, s.nextToken, s.now);
    var p := Command(x, input, s.nextToken, s.now).value.patch;
    StoreAfter(s, c, input);
    W.UpdateStores(s.store, x.id, p, None, s.now);
    var t := Exec(s, Advance(c, input)).store;
    if W.Alive(s.store, x.id, s.now) && MayEnd(x, s.store.sessions[x.id], s.now) {
      PatchedTellsTrue(x, s.store.sessions[x.id], t.sessions[x.id], p);
    }
  }

  /** In every run of the protocol, a request that writes its end to a living session, by
      concluding, by waiting or by releasing the lease that it holds, leaves it free and with
      the executions that it carries, and telling the truth about them. The write takes effect
      exactly while no other request has the lease. */
  lemma EndedRequestTellsTrue(before: seq<Step>, c: nat, input: Input)
    requires c in Run(Start(), before).clients && input.fate != NotSent
    requires Run(Start(), before).clients[c].pc in {Concluding, Waiting, Releasing}
    ensures var s := Run(Start(), before);
            var x, t := s.clients[c], Exec(s, Advance(c, input)).store;
            if W.Alive(s.store, x.id, s.now) && MayEnd(x, s.store.sessions[x.id], s.now) then
              x.id in t.sessions && LeftTrue(x, s.store.sessions[x.id], t.sessions[x.id])
            else W.OnlyTime(s.store, t, s.now)
  {
    var s := Run(Start(), before);
    RunKeepsStands(Start(), before);
    if s.clients[c].pc == Releasing {
      ReleaseLeavesTrue(s, c, input);
    } else {
      UnfencedLeavesTrue(s, c, input);
    }
  }

  lemma StoreAfter(s: Sys, c: nat, input: Input)
    requires c in s.clients && input.fate != NotSent
    ensures var op := Command(s.clients[c], input, s.nextToken, s.now);
            Exec(s, Advance(c, input)).store
            == if op.None? then s.store else S.Eval(s.store, op.value, s.now).0
  {
  }
}
