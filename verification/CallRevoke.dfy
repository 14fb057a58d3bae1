/** Settling, browser messages and revoke_lease; then the invariant of every run. */
module CallRevoke {
  import opened Common
  import opened CallState
  import opened CallInvariant
  import opened CallMachine
  import opened CallSafety
  import opened CallSteps
  import opened CallHandover

  // ---------- new calls and terminal receipts ----------

  lemma NewCallInv(c: Call)
    requires NewCall(c)
    ensures CallInv(c, false, false) && !AtRisk(c) && !OnSendPath(c)
  {
  }

  lemma BeginKeeps(s: State, a: Nonce, c: Call)
    requires Inv(s) && CanCall(s, Begin(a, c))
    ensures Inv(SetCall(s, a, c))
    ensures History(s, SetCall(s, a, c))
  {
    var s' := SetCall(s, a, c);
    NewCallInv(c);
    NewCallOwnsNothing(s, a, c);
    BeginKeepsCalls(s, s', a, c);
    BeginKeepsRest(s, s', a, c);
    BeginKeepsHistory(s, a, c);
  }

  lemma BeginKeepsHistory(s: State, a: Nonce, c: Call)
    requires a !in s.calls
    ensures History(s, SetCall(s, a, c))
  {
  }

  lemma NewCallOwnsNothing(s: State, a: Nonce, c: Call)
    requires ItemsInv(s) && a !in s.calls && CallInv(c, false, false)
    ensures CallInv(c, Owned(SetCall(s, a, c), a, c.digest), Done(SetCall(s, a, c), c.digest))
  {
    CallInvGrows(c, false, false, false, Done(s, c.digest));
  }

  lemma BeginKeepsCalls(s: State, s': State, a: Nonce, c: Call)
    requires CallsInv(s) && ItemsInv(s) && a !in s.calls && c.lease in s.leases && s' == SetCall(s, a, c)
    requires CallInv(c, Owned(s', a, c.digest), Done(s', c.digest))
    ensures CallsInv(s') && ItemsInv(s')
  {
    forall b | b in s'.calls
      ensures CallInv(s'.calls[b], Owned(s', b, s'.calls[b].digest), Done(s', s'.calls[b].digest))
    {
      if b != a {
        assert CallInv(s.calls[b], Owned(s, b, s.calls[b].digest), Done(s, s.calls[b].digest));
      }
    }
  }

  lemma BeginKeepsRest(s: State, s': State, a: Nonce, c: Call)
    requires Inv(s) && a !in s.calls && s' == SetCall(s, a, c) && !AtRisk(c) && !OnSendPath(c)
    ensures RegistryInv(s') && CompletedInv(s') && SendInv(s') && LogInv(s') && RevokeInv(s')
  {
    BeginKeepsSend(s, s', a, c);
    BeginKeepsRevoke(s, s', a, c);
  }

  lemma BeginKeepsSend(s: State, s': State, a: Nonce, c: Call)
    requires SendInv(s) && LogInv(s) && a !in s.calls && s' == SetCall(s, a, c) && !AtRisk(c)
    ensures SendInv(s') && LogInv(s')
  {
    assert forall b :: b in s.calls ==> SendOk(s, b, s.calls[b]);
    assert forall i :: 0 <= i < |s.log| ==> EntryOk(s, s.log[i]);
  }

  lemma BeginKeepsRevoke(s: State, s': State, a: Nonce, c: Call)
    requires RevokeInv(s) && a !in s.calls && s' == SetCall(s, a, c) && !AtRisk(c)
    ensures RevokeInv(s')
  {
    assert forall r :: r in s.revokers ==> RevokerOk(s, s.revokers[r]);
  }

  /** The call gets its receipt, leaves the registry and enters the cache. */
  lemma StoreUpdate(s: State, s': State, a: Nonce, d: Call, r: Receipt)
    requires Inv(s) && a in s.calls && Calm(s.calls[a], d) && Owned(s, a, d.digest) && d.terminal == Some(r)
    requires s' == s.(calls := s.calls[a := d], completed := Remember(s.completed, d.digest, r), registry := s.registry - {d.digest})
    requires CallInv(d, true, Done(s, d.digest))
    ensures Inv(s')
    ensures History(s, s')
  {
    UpdateHistory(s, s', a, d);
    ReplaceKeepsCalls(s, s', a, d);
    CalmKeepsShared(s, s', a, d);
    StoreKeepsTables(s, s', a, d, r);
  }

  lemma StoreKeepsTables(s: State, s': State, a: Nonce, d: Call, r: Receipt)
    requires RegistryInv(s) && CompletedInv(s) && Update(s, s', a, d) && Calm(s.calls[a], d)
    requires Owned(s, a, d.digest) && s'.items == s.items && d.terminal == Some(r)
    requires s'.completed == Remember(s.completed, d.digest, r) && s'.registry == s.registry - {d.digest}
    ensures RegistryInv(s') && CompletedInv(s')
  {
    forall b | b in s'.calls && OnSendPath(s'.calls[b]) && s'.calls[b].terminal.None?
      ensures Registered(s', b)
    {
      assert Registered(s, b);
      assert Owned(s, b, s.calls[b].digest);
    }
  }

  lemma StoreKeeps(s: State, a: Nonce, t: Tid)
    requires Inv(s) && CanCall(s, StoreTerminal(a, t))
    ensures Inv(AfterStore(s, a, t))
    ensures History(s, AfterStore(s, a, t))
    ensures s.calls[a].terminal.None?
  {
    var c := s.calls[a];
    var r := StoredReceipt(c.threads[t].pc);
    assert SendOk(s, a, c);
    assert ThreadOk(c, t, c.threads[t], Owned(s, a, c.digest), Done(s, c.digest));
    StoreCall(c, t, true, Done(s, c.digest));
    StoreUpdate(s, AfterStore(s, a, t), a, Settled(c, t, r), r);
  }

  // ---------- browser messages and new coroutines ----------

  lemma SpawnKeeps(s: State, a: Nonce, u: Tid, kind: Kind, pc: Pc)
    requires Inv(s) && Fresh(s, a, u) && !MainOnly(pc) && !pc.End?
    requires ThreadOk(s.calls[a], u, Thread(kind, pc), Owned(s, a, s.calls[a].digest), Done(s, s.calls[a].digest))
    ensures Inv(SpawnThread(s, a, u, kind, pc))
    ensures History(s, SpawnThread(s, a, u, kind, pc))
  {
    var c := s.calls[a];
    SpawnCall(c, u, Thread(kind, pc), Owned(s, a, c.digest), Done(s, c.digest));
    CalmKeeps(s, SpawnThread(s, a, u, kind, pc), a, c.(threads := c.threads[u := Thread(kind, pc)]));
  }

  /** A registered or settled call is the owner of its fence and was authorized. */
  lemma KnownCall(s: State, a: Nonce)
    requires Inv(s) && a in s.calls && (Registered(s, a) || Owned(s, a, s.calls[a].digest))
    ensures Owned(s, a, s.calls[a].digest) && Authorized(s.calls[a])
  {
    var c := s.calls[a];
    assert RecordOk(c, Owned(s, a, c.digest), Done(s, c.digest));
  }

  lemma CachedIsTerminal(s: State, a: Nonce)
    requires Inv(s) && a in s.calls && Owned(s, a, s.calls[a].digest)
    ensures var cached := Recall(s.completed, s.calls[a].digest);
      cached.Some? ==> s.calls[a].terminal == cached
  {
  }

  lemma ContextKeeps(s: State, a: Nonce, u: Tid, kind: Kind, live: ContextPoint)
    requires Inv(s) && Fresh(s, a, u) && CanCancel(s, a)
    requires live == CancelContext || live == ReconcileContext
    ensures Inv(SpawnThread(s, a, u, kind, ContextPc(s, a, live)))
    ensures History(s, SpawnThread(s, a, u, kind, ContextPc(s, a, live)))
  {
    ContextStarts(s, a, u, kind, live);
    SpawnKeeps(s, a, u, kind, ContextPc(s, a, live));
  }

  lemma ContextStarts(s: State, a: Nonce, u: Tid, kind: Kind, live: ContextPoint)
    requires Inv(s) && CanCancel(s, a) && (live == CancelContext || live == ReconcileContext)
    ensures !MainOnly(ContextPc(s, a, live)) && !ContextPc(s, a, live).End?
    ensures ThreadOk(s.calls[a], u, Thread(kind, ContextPc(s, a, live)), Owned(s, a, s.calls[a].digest), Done(s, s.calls[a].digest))
  {
    KnownCall(s, a);
    CachedIsTerminal(s, a);
  }

  lemma HearKeeps(s: State, a: Nonce, d: Call)
    requires Inv(s) && a in s.calls
    requires CallInv(d, Owned(s, a, s.calls[a].digest), Done(s, s.calls[a].digest)) && Calm(s.calls[a], d)
    ensures Inv(SetCall(s, a, d))
    ensures History(s, SetCall(s, a, d))
  {
    CalmKeeps(s, SetCall(s, a, d), a, d);
  }

  lemma AnsweredCall(c: Call, answer: BrowserResult, u: Tid, done: bool)
    requires CallInv(c, true, done) && MAIN in c.threads && u !in c.threads
    ensures CallInv(Answered(c, answer, u), true, done) && Calm(c, Answered(c, answer, u))
  {
    var heard := c.(result := if c.result.Some? then c.result else Some(answer), unsolicited := c.unsolicited || !c.dispatched);
    HearCall(c, heard, true, done);
    if c.timedOut {
      var th := Thread(Receive, Finalizing(FinalLock, OfResult(answer)));
      SpawnCall(heard, u, th, true, done);
      HearThenSpawn(c, heard, u, th);
    }
  }

  lemma HearThenSpawn(c: Call, d: Call, u: Tid, th: Thread)
    requires Calm(c, d) && d.threads == c.threads && MAIN in c.threads && u !in c.threads && !MainOnly(th.pc) && !th.pc.End?
    ensures Calm(c, d.(threads := d.threads[u := th]))
  {
  }

  lemma AckedCall(c: Call, e: Effect, owned: bool, done: bool)
    requires CallInv(c, owned, done)
    ensures CallInv(Acked(c, e), owned, done) && Calm(c, Acked(c, e))
  {
    HearCall(c, Acked(c, e), owned, done);
  }

  lemma BrowserKeeps(s: State, step: OutsideStep)
    requires Inv(s) && CanOutside(s, step) && (step.BrowserConfirms? || step.BrowserAnswers? || step.BrowserAcks?)
    ensures Inv(AfterOutside(s, step))
    ensures History(s, AfterOutside(s, step))
  {
    var a := step.call;
    var c := s.calls[a];
    match step
    case BrowserConfirms(_, m) =>
      HearCall(c, c.(confirmedBy := Some(m)), Owned(s, a, c.digest), Done(s, c.digest));
      HearKeeps(s, a, c.(confirmedBy := Some(m)));
    case BrowserAnswers(_, answer, u) =>
      AnsweredCall(c, answer, u, Done(s, c.digest));
      HearKeeps(s, a, Answered(c, answer, u));
    case BrowserAcks(_, e) =>
      AckedCall(c, e, Owned(s, a, c.digest), Done(s, c.digest));
      HearKeeps(s, a, Acked(c, e));
  }

  lemma StartKeeps(s: State, a: Nonce, u: Tid, kind: Kind, pc: Pc)
    requires Inv(s) && Fresh(s, a, u) && (Registered(s, a) || Owned(s, a, s.calls[a].digest))
    requires pc == Cancelling(CancelEntry) || pc == Reaping(ReapLock)
    ensures Inv(SpawnThread(s, a, u, kind, pc))
    ensures History(s, SpawnThread(s, a, u, kind, pc))
  {
    KnownCall(s, a);
    SpawnKeeps(s, a, u, kind, pc);
  }

  lemma OutsideKeeps(s: State, step: OutsideStep)
    requires Inv(s) && CanOutside(s, step)
    ensures Inv(AfterOutside(s, step))
    ensures History(s, AfterOutside(s, step))
  {
    match step
    case StartCancel(a, u) => ContextKeeps(s, a, u, Cancel, CancelContext);
    case StartDisconnect(a, u) => StartKeeps(s, a, u, Cancel, Cancelling(CancelEntry));
    case StartReconcile(a, u) => ContextKeeps(s, a, u, Reconcile, ReconcileContext);
    case StartReaper(a, u) => StartKeeps(s, a, u, Reaper, Reaping(ReapLock));
    case _ => BrowserKeeps(s, step);
  }

  // ---------- revoke_lease ----------

  /** Only the table of revoke_lease tasks, or the set of finished ones, changes. */
  lemma RevokersKeep(s: State, s': State)
    requires Inv(s) && s' == s.(revokers := s'.revokers, returned := s'.returned)
    requires forall r :: r in s'.revokers ==> RevokerOk(s, s'.revokers[r])
    requires forall l :: l in s'.returned ==> Barred(s, l, {})
    ensures Inv(s')
    ensures History(s, s')
  {
    assert CallsInv(s') by {
      forall a | a in s'.calls
        ensures CallInv(s'.calls[a], Owned(s', a, s'.calls[a].digest), Done(s', s'.calls[a].digest))
      {
        assert CallInv(s.calls[a], Owned(s, a, s.calls[a].digest), Done(s, s.calls[a].digest));
      }
    }
    assert SendInv(s') by {
      assert forall a :: a in s.calls ==> SendOk(s, a, s.calls[a]);
    }
    assert LogInv(s') by {
      assert forall i :: 0 <= i < |s.log| ==> EntryOk(s, s.log[i]);
    }
    assert RevokeInv(s') by {
      forall r | r in s'.revokers
        ensures RevokerOk(s', s'.revokers[r])
      {
        assert RevokerOk(s, s'.revokers[r]);
      }
    }
  }

  lemma SetRevokerKeeps(s: State, r: nat, v: Revoker)
    requires Inv(s) && RevokerOk(s, v)
    ensures Inv(SetRevoker(s, r, v))
    ensures History(s, SetRevoker(s, r, v))
  {
    RevokersKeep(s, SetRevoker(s, r, v));
  }

  /** The scan sees every call that has read the lease and is still free to send. */
  lemma ScanBars(s: State, l: LeaseId)
    requires Inv(s) && Dead(s, l)
    ensures Barred(s, l, Holding(s, l))
  {
  }

  /** A cancellation that returned has halted its call, or found it already sent. */
  lemma JoinHalts(s: State, r: nat)
    requires Inv(s) && CanRevoke(s, RevokerJoins(r))
    ensures var a := s.revokers[r].waiting.value.0; AtRisk(s.calls[a]) ==> Halted(s.calls[a])
  {
    assert RevokerOk(s, s.revokers[r]);
    var (a, t) := s.revokers[r].waiting.value;
    var c := s.calls[a];
    assert RecordOk(c, Owned(s, a, c.digest), Done(s, c.digest));
    assert ThreadOk(c, t, c.threads[t], Owned(s, a, c.digest), Done(s, c.digest));
    if AtRisk(c) {
      assert ThreadOk(c, MAIN, c.threads[MAIN], Owned(s, a, c.digest), Done(s, c.digest));
    }
  }

  lemma SwapKeeps(s: State, r: nat)
    requires Inv(s) && CanRevoke(s, RevokerSwaps(r))
    ensures Inv(AfterRevokeSwap(s, r))
    ensures History(s, AfterRevokeSwap(s, r))
  {
    var v := s.revokers[r];
    var s1 := s.(leases := AfterRevokeSwap(s, r).leases);
    BackgroundKeeps(s, s1);
    SetRevokerKeeps(s1, r, AfterRevokeSwap(s, r).revokers[r]);
  }

  lemma RevokeKeeps(s: State, step: RevokeStep)
    requires Inv(s) && CanRevoke(s, step)
    ensures Inv(AfterRevoke(s, step))
    ensures History(s, AfterRevoke(s, step))
  {
    match step
    case StartRevoke(r, l) => SetRevokerKeeps(s, r, RevokeRead(l));
    case RevokerReads(r) => SetRevokerKeeps(s, r, AfterRevokeRead(s, r).revokers[r]);
    case RevokerSwaps(r) => SwapKeeps(s, r);
    case RevokerScans(r) =>
      assert RevokerOk(s, s.revokers[r]);
      ScanBars(s, s.revokers[r].lease);
      SetRevokerKeeps(s, r, RevokeLoop(s.revokers[r].lease, Holding(s, s.revokers[r].lease), None));
    case RevokerCancels(r, a, u) => RevokerCancelsKeeps(s, r, a, u);
    case RevokerJoins(r) => RevokerJoinsKeeps(s, r);
    case RevokerReturns(r) =>
      assert RevokerOk(s, s.revokers[r]);
      RevokersKeep(s, AfterRevoke(s, step));
    case RevokerRaises(r) => SetRevokerKeeps(s, r, RevokeOver);
  }

  lemma RevokerCancelsKeeps(s: State, r: nat, a: Nonce, u: Tid)
    requires Inv(s) && CanRevoke(s, RevokerCancels(r, a, u))
    ensures Inv(AfterRevoke(s, RevokerCancels(r, a, u)))
    ensures History(s, AfterRevoke(s, RevokerCancels(r, a, u)))
  {
    var s1 := SpawnThread(s, a, u, Cancel, ContextPc(s, a, CancelContext));
    ContextKeeps(s, a, u, Cancel, CancelContext);
    assert RevokerOk(s1, s1.revokers[r]);
    SetRevokerKeeps(s1, r, s.revokers[r].(waiting := Some((a, u))));
  }

  lemma RevokerJoinsKeeps(s: State, r: nat)
    requires Inv(s) && CanRevoke(s, RevokerJoins(r))
    ensures Inv(AfterRevoke(s, RevokerJoins(r)))
    ensures History(s, AfterRevoke(s, RevokerJoins(r)))
  {
    JoinHalts(s, r);
    assert RevokerOk(s, s.revokers[r]);
    var v := s.revokers[r];
    SetRevokerKeeps(s, r, v.(todo := v.todo - {v.waiting.value.0}, waiting := None));
  }

  // ---------- every run ----------

  lemma AdmitStepKeeps(s: State, step: CallStep)
    requires Inv(s) && CanCall(s, step)
    requires step.Begin? || step.Local? || step.SubmitFence? || step.ReplyFence? || step.RegisterCall? || step.ReadLease? || step.CheckLease?
    ensures Inv(AfterCall(s, step))
    ensures History(s, AfterCall(s, step))
  {
    match step
    case Begin(a, c) => BeginKeeps(s, a, c);
    case Local(a, t, u, op) => LocalKeeps(s, a, t, u, op);
    case SubmitFence(a, t) => SubmitKeeps(s, a, t);
    case ReplyFence(a, t) => ReplyKeeps(s, a, t);
    case RegisterCall(a, t) => RegisterKeeps(s, a, t);
    case ReadLease(a) => ReadLeaseKeeps(s, a);
    case CheckLease(a) => CheckKeeps(s, a);
  }

  lemma SendStepKeeps(s: State, step: CallStep)
    requires Inv(s) && CanCall(s, step)
    requires step.ClaimItem? || step.EnterSend? || step.Deliver? || step.FailSend?
    ensures Inv(AfterCall(s, step))
    ensures History(s, AfterCall(s, step))
  {
    match step
    case ClaimItem(a, granted) => ClaimKeeps(s, a, granted);
    case EnterSend(a) => EnterSendKeeps(s, a);
    case Deliver(a) => DeliverKeeps(s, a);
    case FailSend(a, u, op) => FailSendKeeps(s, a, u, op);
  }

  lemma SettleStepKeeps(s: State, step: CallStep)
    requires Inv(s) && CanCall(s, step)
    requires step.CommitOutcome? || step.CommitReap?
    ensures Inv(AfterCall(s, step))
    ensures History(s, AfterCall(s, step))
  {
    match step
    case CommitOutcome(a, t, ok) => OutcomeKeeps(s, a, t, ok);
    case CommitReap(a, t) => ReapKeeps(s, a, t);
  }

  lemma CallKeeps(s: State, step: CallStep)
    requires Inv(s) && CanCall(s, step)
    ensures Inv(AfterCall(s, step))
    ensures History(s, AfterCall(s, step))
  {
    if step.ClaimItem? || step.EnterSend? || step.Deliver? || step.FailSend? {
      SendStepKeeps(s, step);
    } else if step.CommitOutcome? || step.CommitReap? {
      SettleStepKeeps(s, step);
    } else if step.StoreTerminal? {
      StoreKeeps(s, step.call, step.t);
    } else {
      AdmitStepKeeps(s, step);
    }
  }

  lemma StepKeeps(s: State, step: Step)
    requires Inv(s) && Can(s, step)
    ensures Inv(After(s, step))
    ensures History(s, After(s, step))
  {
    match step
    case World(w) => WorldKeeps(s, w);
    case OfCall(c) => CallKeeps(s, c);
    case Outside(o) => OutsideKeeps(s, o);
    case Revoke(r) => RevokeKeeps(s, r);
  }

  /** Every state of every run satisfies the invariant. */
  lemma {:induction false} RunInv(states: seq<State>, i: nat)
    requires Run(states) && i < |states|
    ensures Inv(states[i])
  {
    if i == 0 {
      InitInv();
    } else {
      RunInv(states, i - 1);
      assert StepAt(states, i);
      var step :| Can(states[i - 1], step) && states[i] == After(states[i - 1], step);
      StepKeeps(states[i - 1], step);
    }
  }
}
