/**
 The steps that change a shared table together with a call: registration, the
 second lease read, the send, the terminal store, browser messages and revoke_lease.
 */
module CallHandover {
  import opened Common
  import opened CallState
  import opened CallInvariant
  import opened CallMachine
  import opened CallSafety
  import opened CallSteps

  // ---------- one call at a time ----------

  /** A move that keeps the call, whether or not it is calm. */
  ghost predicate FairMove(c: Call, t: Tid, u: Tid, m: Move, owned: bool, done: bool) {
    && t in c.threads && (m.child.Some? ==> u !in c.threads && u != MAIN)
    && CallInv(Perform(c, t, u, m), owned, done)
    && Evolves(c, Perform(c, t, u, m))
  }

  lemma RegisterMove(c: Call, t: Tid, owned: bool, done: bool)
    requires CallInv(c, owned, done) && t in c.threads
    requires c.threads[t].pc == Admit(Register)
    ensures FairMove(c, t, t, Goto(c, Admit(if c.mutates then ConfirmSend else LeaseRead)), owned, done)
  {
    var m := Goto(c, Admit(if c.mutates then ConfirmSend else LeaseRead));
    assert ThreadOk(c, t, c.threads[t], owned, done);
    PerformMoved(c, t, t, m);
    PerformKeepsThreads(c, t, t, m, owned, done);
  }

  lemma AbortRegisterMove(c: Call, t: Tid, owned: bool, done: bool)
    requires CallInv(c, owned, done) && t in c.threads
    requires c.threads[t].pc == Aborting(AbortRegister)
    ensures owned && GoodMove(c, t, Goto(c, Cancelling(CancelEntry)).(timedOut := true), owned, done)
  {
    var m := Goto(c, Cancelling(CancelEntry)).(timedOut := true);
    assert ThreadOk(c, t, c.threads[t], owned, done);
    PerformMoved(c, t, t, m);
  }

  lemma LeaseMove(c: Call, l: Lease, owned: bool, done: bool)
    requires CallInv(c, owned, done) && MAIN in c.threads && c.threads[MAIN].pc == Admit(LeaseRead)
    ensures FairMove(c, MAIN, MAIN, Goto(c, Risk(LeaseSeen(l))), owned, done)
  {
    var m := Goto(c, Risk(LeaseSeen(l)));
    assert ThreadOk(c, MAIN, c.threads[MAIN], owned, done);
    PerformMoved(c, MAIN, MAIN, m);
    PerformKeepsThreads(c, MAIN, MAIN, m, owned, done);
  }

  /** Entering the send: neither cancelled nor settled, with both locks held. */
  lemma SendMove(c: Call, deadline: real, now: real, owned: bool, done: bool)
    requires CallInv(c, owned, done) && MAIN in c.threads && c.threads[MAIN].pc == Risk(ServiceLock(deadline))
    requires !c.cancelRequested && c.terminal.None?
    ensures FairMove(c, MAIN, MAIN, Goto(c, Risk(Sending(deadline, now))), owned, done)
  {
    var m := Goto(c, Risk(Sending(deadline, now)));
    assert ThreadOk(c, MAIN, c.threads[MAIN], owned, done);
    PerformMoved(c, MAIN, MAIN, m);
    PerformKeepsThreads(c, MAIN, MAIN, m, owned, done);
  }

  /** Leaving _dispatch without a send. */
  lemma RefuseMove(c: Call, deadline: real, m: Move, owned: bool, done: bool)
    requires CallInv(c, owned, done) && MAIN in c.threads && c.threads[MAIN].pc == Risk(ServiceLock(deadline))
    requires m.pc.Finalizing? && m.pc.phase.FinalLock? && m == Goto(c, m.pc).(dispatchLock := false)
    requires
      || (c.cancelRequested && m.pc.outcome == OfEffect(NoEffect))
      || m.pc.outcome == Receipt(Unknown, UncertainEffect, None, ChannelUnavailable)
    ensures GoodMove(c, MAIN, m, owned, done)
  {
    assert ThreadOk(c, MAIN, c.threads[MAIN], owned, done);
    PerformMoved(c, MAIN, MAIN, m);
  }

  /** Leaving _dispatch because the call was settled meanwhile. */
  lemma ReturnMove(c: Call, deadline: real, owned: bool, done: bool)
    requires CallInv(c, owned, done) && MAIN in c.threads && c.threads[MAIN].pc == Risk(ServiceLock(deadline)) && c.terminal.Some?
    ensures GoodMove(c, MAIN, Return(c, c.terminal.value).(dispatchLock := false), owned, done)
  {
    assert ThreadOk(c, MAIN, c.threads[MAIN], owned, done);
    PerformMoved(c, MAIN, MAIN, Return(c, c.terminal.value).(dispatchLock := false));
  }

  /** The message goes out: no thread holds, and no receipt states, a cancelled outcome. */
  lemma DeliverCall(c: Call, owned: bool, done: bool)
    requires CallInv(c, owned, done) && MAIN in c.threads && InSend(c.threads[MAIN].pc)
    ensures CallInv(SentOff(c), owned, done) && Calm(c, SentOff(c))
  {
    var d := SentOff(c);
    assert ThreadOk(c, MAIN, c.threads[MAIN], owned, done);
    assert !SafeCancel(c);
    forall t | t in d.threads
      ensures ThreadOk(d, t, d.threads[t], owned, done)
    {
      assert ThreadOk(c, t, c.threads[t], owned, done);
    }
  }

  lemma FailSendCall(c: Call, u: Tid, op: Op, owned: bool, done: bool)
    requires CallInv(c, owned, done) && MAIN in c.threads && InSend(c.threads[MAIN].pc) && u !in c.threads
    requires op.Fail? || op.Interrupt?
    ensures var d := Perform(c, MAIN, u, SendFailure(c, op)); CallInv(d, owned, done) && Calm(c, d)
  {
    var m := SendFailure(c, op);
    assert ThreadOk(c, MAIN, c.threads[MAIN], owned, done);
    PerformMoved(c, MAIN, u, m);
    PerformIsSteady(c, MAIN, u, m);
    PerformKeepsThreads(c, MAIN, u, m, owned, done);
  }

  /** A thread that waits outside finalize_lock does not notice the receipt. */
  lemma StoreBystander(c: Call, d: Call, x: Tid, th: Thread, owned: bool, done: bool)
    requires ThreadOk(c, x, th, owned, done) && !HoldsFinalize(th.pc) && !InSend(th.pc)
    requires c.terminal.None? && d == c.(terminal := d.terminal, finalizeLock := None, threads := d.threads)
    requires MayYetSend(d) ==> MayYetSend(c)
    ensures ThreadOk(d, x, th, owned, done)
  {
  }

  lemma StoreMover(c: Call, d: Call, t: Tid, th: Thread, owned: bool, done: bool)
    requires ThreadOk(c, t, th, owned, done) && AtStore(th.pc)
    requires var r := StoredReceipt(th.pc); d == c.(terminal := Some(r), finalizeLock := None, threads := d.threads)
    ensures var r := StoredReceipt(th.pc); ThreadOk(d, t, Thread(th.kind, End(Returned(r, Some(r)))), owned, done)
  {
  }

  lemma StoreKeepsThreads(c: Call, d: Call, t: Tid, owned: bool, done: bool)
    requires CallInv(c, owned, done) && t in c.threads && AtStore(c.threads[t].pc)
    requires MAIN in c.threads ==> !InSend(c.threads[MAIN].pc)
    requires d == Settled(c, t, StoredReceipt(c.threads[t].pc)) && (MayYetSend(d) ==> MayYetSend(c))
    ensures forall x :: x in d.threads ==> ThreadOk(d, x, d.threads[x], owned, done)
  {
    assert ThreadOk(c, t, c.threads[t], owned, done);
    assert c.finalizeLock == Some(t) && c.terminal.None?;
    StoreMover(c, d, t, c.threads[t], owned, done);
    forall x | x in d.threads
      ensures ThreadOk(d, x, d.threads[x], owned, done)
    {
      if x != t {
        assert ThreadOk(c, x, c.threads[x], owned, done);
        StoreBystander(c, d, x, c.threads[x], owned, done);
      }
    }
  }

  /** _store_terminal: the call had no terminal receipt, and it keeps this one. */
  lemma StoreCall(c: Call, t: Tid, owned: bool, done: bool)
    requires CallInv(c, owned, done) && t in c.threads && AtStore(c.threads[t].pc)
    requires MAIN in c.threads ==> !InSend(c.threads[MAIN].pc)
    ensures c.terminal.None?
    ensures var d := Settled(c, t, StoredReceipt(c.threads[t].pc)); CallInv(d, owned, done) && Calm(c, d)
  {
    var d := Settled(c, t, StoredReceipt(c.threads[t].pc));
    assert ThreadOk(c, t, c.threads[t], owned, done);
    assert Calm(c, d);
    StoreKeepsThreads(c, d, t, owned, done);
  }

  lemma SpawnCall(c: Call, u: Tid, th: Thread, owned: bool, done: bool)
    requires CallInv(c, owned, done) && MAIN in c.threads && u !in c.threads
    requires ThreadOk(c, u, th, owned, done) && !MainOnly(th.pc) && !th.pc.End?
    ensures var d := c.(threads := c.threads[u := th]); CallInv(d, owned, done) && Calm(c, d)
  {
    var d := c.(threads := c.threads[u := th]);
    SpawnIsCalm(c, u, th);
    forall x | x in d.threads
      ensures ThreadOk(d, x, d.threads[x], owned, done)
    {
      assert ThreadOk(c, x, if x == u then th else c.threads[x], owned, done);
    }
  }

  lemma SpawnIsCalm(c: Call, u: Tid, th: Thread)
    requires MAIN in c.threads && u !in c.threads && !MainOnly(th.pc) && !th.pc.End?
    ensures Calm(c, c.(threads := c.threads[u := th]))
  {
  }

  /** A call after a browser message that is not yet acted on. */
  lemma HearCall(c: Call, d: Call, owned: bool, done: bool)
    requires CallInv(c, owned, done)
    requires d == c.(confirmedBy := d.confirmedBy, result := d.result, cancelAck := d.cancelAck, unsolicited := d.unsolicited)
    requires d.confirmedBy == c.confirmedBy || d.confirmedBy == Some(Confirmation(c.policyRef, c.digest))
    requires c.result.Some? ==> d.result == c.result
    requires c.cancelAck.Some? ==> d.cancelAck == c.cancelAck
    requires c.unsolicited ==> d.unsolicited
    requires d.result != c.result || d.cancelAck != c.cancelAck ==> d.dispatched || d.unsolicited
    ensures CallInv(d, owned, done) && Calm(c, d)
  {
    forall x | x in d.threads
      ensures ThreadOk(d, x, d.threads[x], owned, done)
    {
      assert ThreadOk(c, x, c.threads[x], owned, done);
    }
  }

  // ---------- registration, lease read and send ----------

  lemma RegisterKeeps(s: State, a: Nonce, t: Tid)
    requires Inv(s) && CanCall(s, RegisterCall(a, t))
    ensures Inv(AfterRegister(s, a, t))
    ensures History(s, AfterRegister(s, a, t))
  {
    if PcOf(s, a, t).Admit? {
      RegisterMainKeeps(s, a, t);
    } else {
      RegisterAbortKeeps(s, a, t);
    }
  }

  lemma RegisterAbortKeeps(s: State, a: Nonce, t: Tid)
    requires Inv(s) && At(s, a, t) && PcOf(s, a, t) == Aborting(AbortRegister)
    ensures Inv(AfterRegister(s, a, t))
    ensures History(s, AfterRegister(s, a, t))
  {
    var c := s.calls[a];
    var m := Goto(c, Cancelling(CancelEntry)).(timedOut := true);
    AbortRegisterMove(c, t, Owned(s, a, c.digest), Done(s, c.digest));
    PlainMoveKeeps(s, a, t, m);
    RegistryGrows(MoveCall(s, a, t, m), a);
  }

  /** setdefault: only the fence owner can be added, so nobody is displaced. */
  lemma RegistryGrows(s: State, a: Nonce)
    requires Inv(s) && a in s.calls && Owned(s, a, s.calls[a].digest)
    ensures Inv(s.(registry := s.registry[s.calls[a].digest := a]))
    ensures History(s, s.(registry := s.registry[s.calls[a].digest := a]))
    ensures s.calls[a].digest in s.registry ==> s.registry[s.calls[a].digest] == a
  {
    var s' := s.(registry := s.registry[s.calls[a].digest := a]);
    OwnerEnters(s, a);
    Unchanged(s, s');
  }

  lemma OwnerEnters(s: State, a: Nonce)
    requires RegistryInv(s) && a in s.calls && Owned(s, a, s.calls[a].digest)
    ensures RegistryInv(s.(registry := s.registry[s.calls[a].digest := a]))
    ensures s.calls[a].digest in s.registry ==> s.registry[s.calls[a].digest] == a
  {
    var s' := s.(registry := s.registry[s.calls[a].digest := a]);
    assert s.calls[a].digest in s.registry ==> Owned(s, s.registry[s.calls[a].digest], s.calls[a].digest);
    forall b | b in s'.calls && OnSendPath(s'.calls[b]) && s'.calls[b].terminal.None?
      ensures Registered(s', b)
    {
      assert Registered(s, b);
    }
  }

  /** Everything but the registry is as before. */
  lemma Unchanged(s: State, s': State)
    requires Inv(s) && s' == s.(registry := s'.registry)
    ensures CallsInv(s') && ItemsInv(s') && CompletedInv(s') && SendInv(s') && LogInv(s') && LeasesInv(s') && RevokeInv(s')
  {
    forall a | a in s'.calls
      ensures CallInv(s'.calls[a], Owned(s', a, s'.calls[a].digest), Done(s', s'.calls[a].digest))
    {
      assert CallInv(s.calls[a], Owned(s, a, s.calls[a].digest), Done(s, s.calls[a].digest));
    }
    assert forall a :: a in s.calls ==> SendOk(s, a, s.calls[a]);
    assert forall i :: 0 <= i < |s.log| ==> EntryOk(s, s.log[i]);
    assert forall r :: r in s.revokers ==> RevokerOk(s, s.revokers[r]);
  }

  /** A registered call enters the send path. */
  lemma PathUpdate(s: State, s': State, a: Nonce, d: Call)
    requires Inv(s) && Registered(s, a) && s' == s.(calls := s.calls[a := d])
    requires Evolves(s.calls[a], d) && RiskCalm(s.calls[a], d) && CallInv(d, Owned(s', a, d.digest), Done(s', d.digest))
    ensures Inv(s')
    ensures History(s, s')
  {
    UpdateHistory(s, s', a, d);
    ReplaceKeepsCalls(s, s', a, d);
    UpdateKeepsCompleted(s, s', a, d);
    CalmKeepsShared(s, s', a, d);
    PathKeepsRegistry(s, s', a, d);
  }

  lemma RegisterUpdate(s: State, a: Nonce, d: Call)
    requires Inv(s) && a in s.calls && Owned(s, a, d.digest)
    requires Evolves(s.calls[a], d) && !AtRisk(d) && CallInv(d, true, Done(s, d.digest))
    ensures Inv(SetCall(s, a, d).(registry := s.registry[d.digest := a]))
    ensures History(s, SetCall(s, a, d).(registry := s.registry[d.digest := a]))
  {
    RegistryGrows(s, a);
    var s1 := s.(registry := s.registry[d.digest := a]);
    PathUpdate(s1, SetCall(s1, a, d), a, d);
  }

  lemma PathKeepsRegistry(s: State, s': State, a: Nonce, d: Call)
    requires RegistryInv(s) && Update(s, s', a, d) && s'.registry == s.registry && Registered(s, a)
    ensures RegistryInv(s')
  {
  }

  lemma RegisterMainKeeps(s: State, a: Nonce, t: Tid)
    requires Inv(s) && At(s, a, t) && PcOf(s, a, t) == Admit(Register)
    ensures Inv(AfterRegister(s, a, t))
    ensures History(s, AfterRegister(s, a, t))
  {
    var c := s.calls[a];
    assert ThreadOk(c, t, c.threads[t], Owned(s, a, c.digest), Done(s, c.digest));
    RegisterMove(c, t, Owned(s, a, c.digest), Done(s, c.digest));
    var d := Perform(c, t, t, Goto(c, Admit(if c.mutates then ConfirmSend else LeaseRead)));
    assert !AtRisk(d);
    RegisterUpdate(s, a, d);
  }

  /** The call reads its lease as active, so no revocation of it can have passed its swap. */
  lemma ReadLeaseUpdate(s: State, a: Nonce, d: Call)
    requires Inv(s) && a in s.calls && Evolves(s.calls[a], d) && OnSendPath(s.calls[a])
    requires d.lease in s.leases && s.leases[d.lease].status == Active
    requires AtRisk(d) && d.threads[MAIN].pc == Risk(LeaseSeen(s.leases[d.lease]))
    requires CallInv(d, Owned(s, a, d.digest), Done(s, d.digest))
    ensures Inv(SetCall(s, a, d))
    ensures History(s, SetCall(s, a, d))
  {
    var s' := SetCall(s, a, d);
    UpdateHistory(s, s', a, d);
    ReplaceKeepsCalls(s, s', a, d);
    UpdateKeepsCompleted(s, s', a, d);
    UpdateKeepsLog(s, s', a, d);
    ReadLeaseKeepsRevoke(s, s', a, d);
    ReadLeaseKeepsSend(s, s', a, d);
    PathKeepsPath(s, s', a, d);
  }

  lemma PathKeepsPath(s: State, s': State, a: Nonce, d: Call)
    requires RegistryInv(s) && Update(s, s', a, d) && s'.registry == s.registry && OnSendPath(s.calls[a])
    ensures RegistryInv(s')
  {
  }

  lemma ReadLeaseKeepsSend(s: State, s': State, a: Nonce, d: Call)
    requires SendInv(s) && a in s.calls && s' == SetCall(s, a, d) && d.lease in s.leases
    requires AtRisk(d) && d.threads[MAIN].pc == Risk(LeaseSeen(s.leases[d.lease]))
    ensures SendInv(s')
  {
    forall b | b in s'.calls
      ensures SendOk(s', b, s'.calls[b])
    {
      assert b != a ==> SendOk(s, b, s.calls[b]);
    }
  }

  lemma ReadLeaseKeepsRevoke(s: State, s': State, a: Nonce, d: Call)
    requires RevokeInv(s) && a in s.calls && s' == SetCall(s, a, d) && Evolves(s.calls[a], d)
    requires d.lease in s.leases && s.leases[d.lease].status == Active
    ensures RevokeInv(s')
  {
    forall r | r in s'.revokers
      ensures RevokerOk(s', s'.revokers[r])
    {
      assert RevokerOk(s, s.revokers[r]);
    }
  }

  lemma ReadLeaseKeeps(s: State, a: Nonce)
    requires Inv(s) && CanCall(s, ReadLease(a))
    ensures Inv(AfterCall(s, ReadLease(a)))
    ensures History(s, AfterCall(s, ReadLease(a)))
  {
    var c := s.calls[a];
    var l := s.leases[c.lease];
    LeaseMove(c, l, Owned(s, a, c.digest), Done(s, c.digest));
    ReadLeaseUpdate(s, a, Perform(c, MAIN, MAIN, Goto(c, Risk(LeaseSeen(l)))));
  }

  /** The one call that holds the service lock starts its send. */
  lemma SendUpdate(s: State, s': State, a: Nonce, d: Call)
    requires Inv(s) && a in s.calls && s.serviceLock.None? && Evolves(s.calls[a], d)
    requires s' == s.(calls := s.calls[a := d], serviceLock := Some(a))
    requires AtRisk(s.calls[a]) && AtRisk(d) && InSend(d.threads[MAIN].pc)
    requires DeadlineOf(d.threads[MAIN].pc.risk) == DeadlineOf(s.calls[a].threads[MAIN].pc.risk)
    requires d.threads[MAIN].pc.risk.checkedAt < d.threads[MAIN].pc.risk.deadline && Open(s, d.channel)
    requires CallInv(d, Owned(s, a, d.digest), Done(s, d.digest))
    ensures Inv(s')
    ensures History(s, s')
  {
    UpdateHistory(s, s', a, d);
    ReplaceKeepsCalls(s, s', a, d);
    UpdateKeepsCompleted(s, s', a, d);
    UpdateKeepsLog(s, s', a, d);
    PathKeepsPath(s, s', a, d);
    SendUpdateKeepsSend(s, s', a, d);
    SendUpdateKeepsRevoke(s, s', a, d);
  }

  lemma SendUpdateKeepsSend(s: State, s': State, a: Nonce, d: Call)
    requires SendInv(s) && a in s.calls && s.serviceLock.None? && d.lease == s.calls[a].lease
    requires s' == s.(calls := s.calls[a := d], serviceLock := Some(a))
    requires AtRisk(s.calls[a]) && AtRisk(d) && InSend(d.threads[MAIN].pc)
    requires DeadlineOf(d.threads[MAIN].pc.risk) == DeadlineOf(s.calls[a].threads[MAIN].pc.risk)
    requires d.threads[MAIN].pc.risk.checkedAt < d.threads[MAIN].pc.risk.deadline && Open(s, d.channel)
    ensures SendInv(s')
  {
    forall b | b in s'.calls
      ensures SendOk(s', b, s'.calls[b])
    {
      assert SendOk(s, b, s.calls[b]);
    }
  }

  lemma SendUpdateKeepsRevoke(s: State, s': State, a: Nonce, d: Call)
    requires RevokeInv(s) && Update(s, s', a, d) && AtRisk(s.calls[a])
    requires s'.revokers == s.revokers && s'.returned == s.returned
    ensures RevokeInv(s')
  {
    forall r | r in s'.revokers
      ensures RevokerOk(s', s'.revokers[r])
    {
      assert RevokerOk(s, s.revokers[r]);
    }
  }

  lemma RefuseKeeps(s: State, a: Nonce)
    requires Inv(s) && CanCall(s, EnterSend(a)) && !InSend(SendPlan(s, s.calls[a], PcOf(s, a, MAIN).risk.deadline).pc)
    ensures Inv(MoveCall(s, a, MAIN, SendPlan(s, s.calls[a], PcOf(s, a, MAIN).risk.deadline)))
    ensures History(s, MoveCall(s, a, MAIN, SendPlan(s, s.calls[a], PcOf(s, a, MAIN).risk.deadline)))
  {
    var c := s.calls[a];
    var deadline := PcOf(s, a, MAIN).risk.deadline;
    RefusalIsGood(s, a, c, deadline);
    PlainMoveKeeps(s, a, MAIN, SendPlan(s, c, deadline));
  }

  lemma RefusalIsGood(s: State, a: Nonce, c: Call, deadline: real)
    requires CallInv(c, Owned(s, a, c.digest), Done(s, c.digest)) && MAIN in c.threads && c.threads[MAIN].pc == Risk(ServiceLock(deadline))
    requires !InSend(SendPlan(s, c, deadline).pc)
    ensures GoodMove(c, MAIN, SendPlan(s, c, deadline), Owned(s, a, c.digest), Done(s, c.digest))
  {
    if c.terminal.Some? {
      ReturnMove(c, deadline, Owned(s, a, c.digest), Done(s, c.digest));
    } else {
      if !c.cancelRequested {
        ClaimedAtSend(c, deadline, Owned(s, a, c.digest), Done(s, c.digest));
      }
      RefuseMove(c, deadline, SendPlan(s, c, deadline), Owned(s, a, c.digest), Done(s, c.digest));
    }
  }

  lemma ClaimedAtSend(c: Call, deadline: real, owned: bool, done: bool)
    requires CallInv(c, owned, done) && MAIN in c.threads && c.threads[MAIN].pc == Risk(ServiceLock(deadline))
    ensures c.claim
  {
    assert ThreadOk(c, MAIN, c.threads[MAIN], owned, done);
  }

  lemma SendKeeps(s: State, a: Nonce, deadline: real)
    requires Inv(s) && At(s, a, MAIN) && s.serviceLock.None? && PcOf(s, a, MAIN) == Risk(ServiceLock(deadline))
    requires !s.calls[a].cancelRequested && s.calls[a].terminal.None? && Open(s, s.calls[a].channel) && s.clock < deadline
    ensures Inv(MoveCall(s, a, MAIN, Goto(s.calls[a], Risk(Sending(deadline, s.clock)))).(serviceLock := Some(a)))
    ensures History(s, MoveCall(s, a, MAIN, Goto(s.calls[a], Risk(Sending(deadline, s.clock)))).(serviceLock := Some(a)))
  {
    var c := s.calls[a];
    var d := Perform(c, MAIN, MAIN, Goto(c, Risk(Sending(deadline, s.clock))));
    SendMove(c, deadline, s.clock, Owned(s, a, c.digest), Done(s, c.digest));
    SendUpdate(s, s.(calls := s.calls[a := d], serviceLock := Some(a)), a, d);
  }

  lemma EnterSendKeeps(s: State, a: Nonce)
    requires Inv(s) && CanCall(s, EnterSend(a))
    ensures Inv(AfterEnterSend(s, a))
    ensures History(s, AfterEnterSend(s, a))
  {
    var c := s.calls[a];
    var deadline := PcOf(s, a, MAIN).risk.deadline;
    var m := SendPlan(s, c, deadline);
    if InSend(m.pc) {
      SendKeeps(s, a, deadline);
    } else {
      RefuseKeeps(s, a);
    }
  }

  /** The sender gives the service lock back; nobody else was sending. */
  lemma ReleaseUpdate(s: State, s': State, a: Nonce, d: Call)
    requires Inv(s) && a in s.calls && s.serviceLock == Some(a) && Calm(s.calls[a], d) && !AtRisk(d)
    requires s' == s.(calls := s.calls[a := d], serviceLock := None, log := s'.log) && LogInv(s')
    requires CallInv(d, Owned(s, a, d.digest), Done(s, d.digest))
    ensures Inv(s')
    ensures History(s, s')
  {
    UpdateHistory(s, s', a, d);
    ReplaceKeepsCalls(s, s', a, d);
    CalmKeepsRegistry(s, s', a, d);
    UpdateKeepsCompleted(s, s', a, d);
    CalmKeepsRevoke(s, s', a, d);
    assert SendInv(s') by {
      assert forall b :: b in s.calls ==> SendOk(s, b, s.calls[b]);
    }
  }

  lemma DeliverKeeps(s: State, a: Nonce)
    requires Inv(s) && CanCall(s, Deliver(a))
    ensures Inv(AfterDeliver(s, a))
    ensures History(s, AfterDeliver(s, a))
  {
    var c := s.calls[a];
    DeliverCall(c, Owned(s, a, c.digest), Done(s, c.digest));
    assert SendOk(s, a, c);
    DeliverKeepsLog(s, a);
    ReleaseUpdate(s, AfterDeliver(s, a), a, SentOff(c));
  }

  lemma LogGrows(s: State, s': State, a: Nonce, d: Call, e: SentCall)
    requires LogInv(s) && Update(s, s', a, d) && s'.log == s.log + [e]
    requires !s.calls[a].dispatched && e.call == a && EntryOk(s', e)
    ensures LogInv(s')
  {
    forall i | 0 <= i < |s.log|
      ensures EntryOk(s', s'.log[i]) && s'.log[i].call != a
    {
      assert EntryOk(s, s.log[i]);
    }
  }

  lemma DeliverKeepsLog(s: State, a: Nonce)
    requires Inv(s) && CanCall(s, Deliver(a)) && Evolves(s.calls[a], SentOff(s.calls[a]))
    ensures LogInv(AfterDeliver(s, a))
  {
    var c := s.calls[a];
    assert ThreadOk(c, MAIN, c.threads[MAIN], Owned(s, a, c.digest), Done(s, c.digest));
    assert SendOk(s, a, c);
    var s' := AfterDeliver(s, a);
    LogGrows(s, s', a, SentOff(c), s'.log[|s.log|]);
  }

  lemma FailSendKeeps(s: State, a: Nonce, u: Tid, op: Op)
    requires Inv(s) && CanCall(s, FailSend(a, u, op))
    ensures Inv(AfterFailSend(s, a, u, op))
    ensures History(s, AfterFailSend(s, a, u, op))
  {
    var c := s.calls[a];
    var d := Perform(c, MAIN, u, SendFailure(c, op));
    assert SendOk(s, a, c);
    FailSendCall(c, u, op, Owned(s, a, c.digest), Done(s, c.digest));
    FailedSendIsOver(c, u, op);
    ReleaseQuietly(s, a, d);
  }

  lemma FailedSendIsOver(c: Call, u: Tid, op: Op)
    requires MAIN in c.threads && u !in c.threads && (op.Fail? || op.Interrupt?)
    ensures !AtRisk(Perform(c, MAIN, u, SendFailure(c, op)))
  {
  }

  lemma ReleaseQuietly(s: State, a: Nonce, d: Call)
    requires Inv(s) && a in s.calls && s.serviceLock == Some(a) && Calm(s.calls[a], d) && !AtRisk(d)
    requires CallInv(d, Owned(s, a, d.digest), Done(s, d.digest))
    ensures Inv(SetCall(s, a, d).(serviceLock := None))
    ensures History(s, SetCall(s, a, d).(serviceLock := None))
  {
    var s' := SetCall(s, a, d).(serviceLock := None);
    UpdateKeepsLog(s, s', a, d);
    ReleaseUpdate(s, s', a, d);
  }
}
