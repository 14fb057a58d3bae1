/** Every step of the browser-control machine keeps its invariant. */
module CallSteps {
  import opened Common
  import opened CallState
  import opened CallInvariant
  import opened CallMachine
  import opened CallSafety

  // ---------- the world ----------

  /**
   A step outside the calls: lease rows are added or retired with fixed timings,
   engine rows move forward, and channels change only while nobody is sending.
   */
  ghost predicate Background(s: State, s': State) {
    && s' == s.(clock := s'.clock, leases := s'.leases, items := s'.items, channels := s'.channels, documents := s'.documents)
    && (forall l :: l in s'.leases ==> LeaseOk(s'.leases[l]))
    && (forall l :: l in s.leases ==>
          && l in s'.leases && Deadline(s'.leases[l]) == Deadline(s.leases[l])
          && (s.leases[l].status != Active ==> s'.leases[l].status != Active))
    && s'.items.Keys == s.items.Keys
    && (forall d :: d in s.items ==>
          s'.items[d].owner == s.items[d].owner && (Closed(s.items[d].status) ==> Closed(s'.items[d].status)))
    && (s.serviceLock.None? || (s'.channels == s.channels && s'.documents == s.documents))
  }

  lemma BackgroundKeepsCalls(s: State, s': State)
    requires CallsInv(s) && Background(s, s')
    ensures CallsInv(s')
  {
    forall a | a in s'.calls
      ensures CallInv(s'.calls[a], Owned(s', a, s'.calls[a].digest), Done(s', s'.calls[a].digest))
    {
      var d := s.calls[a].digest;
      CallInvGrows(s.calls[a], Owned(s, a, d), Done(s, d), Owned(s', a, d), Done(s', d));
    }
  }

  lemma BackgroundKeepsSend(s: State, s': State)
    requires SendInv(s) && LogInv(s) && Background(s, s')
    ensures SendInv(s') && LogInv(s')
  {
    assert forall a :: a in s.calls ==> SendOk(s, a, s.calls[a]);
    assert forall i :: 0 <= i < |s.log| ==> EntryOk(s, s.log[i]);
  }

  lemma BackgroundKeepsRevoke(s: State, s': State)
    requires RevokeInv(s) && Background(s, s')
    ensures RevokeInv(s')
  {
    assert forall r :: r in s.revokers ==> RevokerOk(s, s.revokers[r]);
  }

  lemma BackgroundKeeps(s: State, s': State)
    requires Inv(s) && Background(s, s')
    ensures Inv(s')
    ensures History(s, s')
  {
    BackgroundKeepsCalls(s, s');
    BackgroundKeepsSend(s, s');
    BackgroundKeepsRevoke(s, s');
  }

  lemma KilledKeeps(c: Call, owned: bool, done: bool)
    requires CallInv(c, owned, done)
    ensures CallInv(Killed(c), owned, done)
  {
  }

  lemma CrashKeeps(s: State)
    requires Inv(s)
    ensures Inv(AfterWorld(s, Crash))
    ensures History(s, AfterWorld(s, Crash))
  {
    var s' := AfterWorld(s, Crash);
    forall a | a in s'.calls
      ensures CallInv(s'.calls[a], Owned(s', a, s'.calls[a].digest), Done(s', s'.calls[a].digest))
    {
      var d := s.calls[a].digest;
      KilledKeeps(s.calls[a], Owned(s, a, d), Done(s, d));
    }
    assert forall i :: 0 <= i < |s.log| ==> EntryOk(s, s.log[i]);
  }

  lemma WorldKeeps(s: State, step: WorldStep)
    requires Inv(s) && CanWorld(s, step)
    ensures Inv(AfterWorld(s, step))
    ensures History(s, AfterWorld(s, step))
  {
    var s' := AfterWorld(s, step);
    if step.Crash? {
      CrashKeeps(s);
    } else {
      BackgroundKeeps(s, s');
    }
  }

  // ---------- calls ----------

  /** A sound move of one thread, possibly with an engine operation, keeps everything. */
  lemma MoveKeeps(s: State, s': State, a: Nonce, t: Tid, u: Tid, m: Move)
    requires Inv(s) && At(s, a, t) && (m.child.Some? ==> u !in s.calls[a].threads && u != MAIN)
    requires s' == SetCall(s, a, Perform(s.calls[a], t, u, m)).(items := s'.items) && ItemsForward(s, s'.items, a)
    requires SoundMove(s.calls[a], t, PcOf(s, a, t), m) && CalmMove(PcOf(s, a, t), m)
    requires var c := s.calls[a];
      && ThreadOk(Perform(c, t, u, m), t, Thread(c.threads[t].kind, m.pc), Owned(s', a, c.digest), Done(s', c.digest))
      && (m.child.Some? ==> ThreadOk(Perform(c, t, u, m), u, m.child.value, Owned(s', a, c.digest), Done(s', c.digest)))
    ensures Inv(s')
    ensures History(s, s')
  {
    var c := s.calls[a];
    CallInvGrows(c, Owned(s, a, c.digest), Done(s, c.digest), Owned(s', a, c.digest), Done(s', c.digest));
    PerformIsSteady(c, t, u, m);
    PerformKeepsThreads(c, t, u, m, Owned(s', a, c.digest), Done(s', c.digest));
    CalmKeeps(s, s', a, Perform(c, t, u, m));
  }

  lemma LocalKeeps(s: State, a: Nonce, t: Tid, u: Tid, op: Op)
    requires Inv(s) && CanCall(s, Local(a, t, u, op))
    ensures Inv(AfterCall(s, Local(a, t, u, op)))
    ensures History(s, AfterCall(s, Local(a, t, u, op)))
  {
    var c := s.calls[a];
    ApplyKeeps(c, t, u, op, Owned(s, a, c.digest), Done(s, c.digest));
    CalmKeeps(s, SetCall(s, a, Apply(c, t, u, op)), a, Apply(c, t, u, op));
  }

  /** What a plain move must offer besides soundness; `owned` and `done` are those after the step. */
  ghost predicate GoodMove(c: Call, t: Tid, m: Move, owned: bool, done: bool)
    requires t in c.threads
  {
    && m.child.None?
    && SoundMove(c, t, c.threads[t].pc, m) && CalmMove(c.threads[t].pc, m)
    && ThreadOk(Perform(c, t, t, m), t, Thread(c.threads[t].kind, m.pc), owned, done)
  }

  /** A good move with an engine operation on the call's own fence row. */
  lemma ItemMoveKeeps(s: State, a: Nonce, t: Tid, m: Move, item: Item)
    requires Inv(s) && At(s, a, t)
    requires var d := s.calls[a].digest;
      && (d in s.items ==> item.owner == s.items[d].owner && (Closed(s.items[d].status) ==> Closed(item.status)))
      && (d !in s.items ==> item.owner == a)
      && GoodMove(s.calls[a], t, m, item.owner == a, Closed(item.status))
    ensures Inv(MoveCall(s, a, t, m).(items := s.items[s.calls[a].digest := item]))
    ensures History(s, MoveCall(s, a, t, m).(items := s.items[s.calls[a].digest := item]))
  {
    MoveKeeps(s, MoveCall(s, a, t, m).(items := s.items[s.calls[a].digest := item]), a, t, t, m);
  }

  lemma PlainMoveKeeps(s: State, a: Nonce, t: Tid, m: Move)
    requires Inv(s) && At(s, a, t)
    requires GoodMove(s.calls[a], t, m, Owned(s, a, s.calls[a].digest), Done(s, s.calls[a].digest))
    ensures Inv(MoveCall(s, a, t, m))
    ensures History(s, MoveCall(s, a, t, m))
  {
    MoveKeeps(s, MoveCall(s, a, t, m), a, t, t, m);
  }

  lemma SubmitMove(c: Call, t: Tid, created: bool, owned: bool, done: bool, owned': bool)
    requires CallInv(c, owned, done) && t in c.threads && (owned ==> owned') && (created ==> owned')
    requires c.threads[t].pc == Admit(FenceSubmit)
    ensures GoodMove(c, t, Goto(c, Admit(FenceRead(created))), owned', done) && Authorized(c)
  {
    assert ThreadOk(c, t, c.threads[t], owned, done);
    FenceReadOk(c, Perform(c, t, t, Goto(c, Admit(FenceRead(created)))), t, c.threads[t].kind, created, owned, done, owned');
  }

  lemma FenceReadOk(c: Call, d: Call, t: Tid, kind: Kind, created: bool, owned: bool, done: bool, owned': bool)
    requires ThreadOk(c, t, Thread(kind, Admit(FenceSubmit)), owned, done) && (created ==> owned')
    requires d == c.(threads := d.threads)
    ensures ThreadOk(d, t, Thread(kind, Admit(FenceRead(created))), owned', done)
  {
  }

  lemma AbortSubmitMove(c: Call, t: Tid, created: bool, owned: bool, done: bool, owned': bool)
    requires CallInv(c, owned, done) && t in c.threads && (owned ==> owned') && (created ==> owned')
    requires c.threads[t].pc == Aborting(AbortSubmit)
    ensures GoodMove(c, t, Goto(c, Aborting(AbortRead(created))), owned', done) && Authorized(c)
  {
    assert ThreadOk(c, t, c.threads[t], owned, done);
    PerformMoved(c, t, t, Goto(c, Aborting(AbortRead(created))));
  }

  lemma ReplyMove(c: Call, t: Tid, owned: bool, done: bool)
    requires CallInv(c, owned, done) && t in c.threads && c.threads[t].pc.Admit? && c.threads[t].pc.admit.FenceRead?
    ensures GoodMove(c, t, Goto(c, if owned then Admit(PendingAudit) else End(Replayed)), owned, done)
  {
    assert ThreadOk(c, t, c.threads[t], owned, done);
    PerformMoved(c, t, t, Goto(c, if owned then Admit(PendingAudit) else End(Replayed)));
  }

  lemma AbortReplyMove(c: Call, t: Tid, owned: bool, done: bool)
    requires CallInv(c, owned, done) && t in c.threads && c.threads[t].pc.Aborting? && c.threads[t].pc.abort.AbortRead?
    ensures GoodMove(c, t, Goto(c, if owned then Aborting(AbortRegister) else End(Stopped)), owned, done)
  {
    assert ThreadOk(c, t, c.threads[t], owned, done);
    PerformMoved(c, t, t, Goto(c, if owned then Aborting(AbortRegister) else End(Stopped)));
  }

  lemma SubmitKeeps(s: State, a: Nonce, t: Tid)
    requires Inv(s) && CanCall(s, SubmitFence(a, t))
    ensures Inv(AfterSubmit(s, a, t))
    ensures History(s, AfterSubmit(s, a, t))
  {
    var c := s.calls[a];
    var created := c.digest !in s.items;
    var owned := created || Owned(s, a, c.digest);
    if PcOf(s, a, t).Admit? {
      SubmitMove(c, t, created, Owned(s, a, c.digest), Done(s, c.digest), owned);
      FencedKeeps(s, a, t, Goto(c, Admit(FenceRead(created))), created);
    } else {
      AbortSubmitMove(c, t, created, Owned(s, a, c.digest), Done(s, c.digest), owned);
      FencedKeeps(s, a, t, Goto(c, Aborting(AbortRead(created))), created);
    }
  }

  lemma FencedKeeps(s: State, a: Nonce, t: Tid, m: Move, created: bool)
    requires Inv(s) && At(s, a, t) && created == (s.calls[a].digest !in s.items)
    requires GoodMove(s.calls[a], t, m, created || Owned(s, a, s.calls[a].digest), Done(s, s.calls[a].digest))
    ensures var s' := MoveCall(s, a, t, m).(items := if created then s.items[s.calls[a].digest := Item(a, ItemReady)] else s.items);
      Inv(s') && History(s, s')
  {
    if created {
      CreateKeeps(s, a, t, m);
    } else {
      PlainMoveKeeps(s, a, t, m);
    }
  }

  lemma CreateKeeps(s: State, a: Nonce, t: Tid, m: Move)
    requires Inv(s) && At(s, a, t) && s.calls[a].digest !in s.items && GoodMove(s.calls[a], t, m, true, false)
    ensures Inv(MoveCall(s, a, t, m).(items := s.items[s.calls[a].digest := Item(a, ItemReady)]))
    ensures History(s, MoveCall(s, a, t, m).(items := s.items[s.calls[a].digest := Item(a, ItemReady)]))
  {
    ItemMoveKeeps(s, a, t, m, Item(a, ItemReady));
  }

  lemma ReplyKeeps(s: State, a: Nonce, t: Tid)
    requires Inv(s) && CanCall(s, ReplyFence(a, t))
    ensures Inv(AfterReply(s, a, t))
    ensures History(s, AfterReply(s, a, t))
  {
    var c := s.calls[a];
    var owned := Owned(s, a, c.digest);
    assert ThreadOk(c, t, c.threads[t], owned, Done(s, c.digest));
    var pc :=
      if PcOf(s, a, t).Admit? then (if owned then Admit(PendingAudit) else End(Replayed))
      else (if owned then Aborting(AbortRegister) else End(Stopped));
    assert AfterReply(s, a, t) == MoveCall(s, a, t, Goto(c, pc));
    if PcOf(s, a, t).Admit? {
      ReplyMove(c, t, owned, Done(s, c.digest));
    } else {
      AbortReplyMove(c, t, owned, Done(s, c.digest));
    }
    PlainMoveKeeps(s, a, t, Goto(c, pc));
  }

  lemma ClaimMove(c: Call, pc: Pc, owned: bool, done: bool)
    requires CallInv(c, owned, done) && MAIN in c.threads && c.threads[MAIN].pc.Risk? && pc.Risk?
    requires pc.risk.Claiming? || pc.risk.ClaimReply?
    requires DeadlineOf(pc.risk) == DeadlineOf(c.threads[MAIN].pc.risk)
    ensures GoodMove(c, MAIN, Goto(c, pc), owned, done)
  {
    assert ThreadOk(c, MAIN, c.threads[MAIN], owned, done);
    PerformMoved(c, MAIN, MAIN, Goto(c, pc));
  }

  lemma CheckKeeps(s: State, a: Nonce)
    requires Inv(s) && CanCall(s, CheckLease(a))
    ensures Inv(AfterCall(s, CheckLease(a)))
    ensures History(s, AfterCall(s, CheckLease(a)))
  {
    var c := s.calls[a];
    var pc := Risk(Claiming(Deadline(PcOf(s, a, MAIN).risk.lease)));
    ClaimMove(c, pc, Owned(s, a, c.digest), Done(s, c.digest));
    PlainMoveKeeps(s, a, MAIN, Goto(c, pc));
  }

  lemma ClaimKeeps(s: State, a: Nonce, granted: bool)
    requires Inv(s) && CanCall(s, ClaimItem(a, granted))
    ensures Inv(AfterClaim(s, a, granted))
    ensures History(s, AfterClaim(s, a, granted))
  {
    var c := s.calls[a];
    var pc := Risk(ClaimReply(granted, PcOf(s, a, MAIN).risk.deadline));
    ClaimMove(c, pc, Owned(s, a, c.digest), Done(s, c.digest));
    if granted {
      ItemMoveKeeps(s, a, MAIN, Goto(c, pc), s.items[c.digest].(status := ItemLeased));
    } else {
      PlainMoveKeeps(s, a, MAIN, Goto(c, pc));
    }
  }

  lemma OutcomeMoveOk(c: Call, t: Tid, r: Receipt, i: ItemStatus, ok: bool, owned: bool)
    requires CallInv(c, owned, Closed(i)) && t in c.threads && c.threads[t].pc == Finalizing(FinalEngine, r)
    ensures var (j, next) := EngineResult(c, i, r, ok); GoodMove(c, t, OutcomeMove(c, next), owned, Closed(j))
    ensures Closed(i) ==> Closed(EngineResult(c, i, r, ok).0)
  {
    var (j, next) := EngineResult(c, i, r, ok);
    assert ThreadOk(c, t, c.threads[t], owned, Closed(i));
    NextOutcome(c, r, i, ok, owned);
    if next.status != Unknown {
      StoreMove(c, t, r, owned, Closed(i), Closed(j));
    } else {
      UnknownMove(c, t, r, next, owned, Closed(i), Closed(j));
    }
  }

  lemma StoreMove(c: Call, t: Tid, r: Receipt, owned: bool, done: bool, done': bool)
    requires CallInv(c, owned, done) && t in c.threads && c.threads[t].pc == Finalizing(FinalEngine, r)
    requires r.status != Unknown && (done' || c.unsolicited) && (done ==> done')
    ensures GoodMove(c, t, Goto(c, Finalizing(FinalStore, r)), owned, done')
  {
    assert ThreadOk(c, t, c.threads[t], owned, done);
    PerformMoved(c, t, t, Goto(c, Finalizing(FinalStore, r)));
  }

  lemma UnknownMove(c: Call, t: Tid, r: Receipt, next: Receipt, owned: bool, done: bool, done': bool)
    requires CallInv(c, owned, done) && t in c.threads && c.threads[t].pc == Finalizing(FinalEngine, r)
    requires next.status == Unknown && (done ==> done')
    ensures GoodMove(c, t, OutcomeMove(c, next), owned, done')
  {
    var m := OutcomeMove(c, next);
    assert ThreadOk(c, t, c.threads[t], owned, done);
    PerformMoved(c, t, t, m);
    if m.pc.Finalizing? {
      assert OutcomeOk(Perform(c, t, t, m), next);
    } else {
      assert m == FinishUnknown(c, next);
    }
  }

  /** What _terminalize_work_item hands on. */
  lemma NextOutcome(c: Call, r: Receipt, i: ItemStatus, ok: bool, owned: bool)
    requires RecordOk(c, owned, Closed(i)) && OutcomeOk(c, r)
    requires r.error != CommitUnavailable && r.error != CancelUnavailable
    ensures var (j, next) := EngineResult(c, i, r, ok);
      && OutcomeOk(c, next)
      && (Closed(i) ==> Closed(j))
      && (next.error == CommitUnavailable || next.error == CancelUnavailable ==> next.status == Unknown)
      && (next.status != Unknown ==> next == r && (Closed(j) || c.unsolicited))
  {
  }

  lemma OutcomeKeeps(s: State, a: Nonce, t: Tid, ok: bool)
    requires Inv(s) && CanCall(s, CommitOutcome(a, t, ok))
    ensures Inv(AfterOutcome(s, a, t, ok))
    ensures History(s, AfterOutcome(s, a, t, ok))
  {
    var c := s.calls[a];
    var i := s.items[c.digest].status;
    var r := PcOf(s, a, t).outcome;
    var (j, next) := EngineResult(c, i, r, ok);
    OutcomeMoveOk(c, t, r, i, ok, Owned(s, a, c.digest));
    ItemMoveKeeps(s, a, t, OutcomeMove(c, next), s.items[c.digest].(status := j));
  }

  lemma ReapMove(c: Call, t: Tid, owned: bool, done: bool)
    requires CallInv(c, owned, done) && t in c.threads && c.threads[t].pc == Reaping(ReapEngine)
    ensures GoodMove(c, t, Goto(c, Reaping(ReapStore)), owned, true)
  {
    assert ThreadOk(c, t, c.threads[t], owned, done);
    PerformMoved(c, t, t, Goto(c, Reaping(ReapStore)));
  }

  lemma ReapKeeps(s: State, a: Nonce, t: Tid)
    requires Inv(s) && CanCall(s, CommitReap(a, t))
    ensures Inv(AfterReap(s, a, t))
    ensures History(s, AfterReap(s, a, t))
  {
    var c := s.calls[a];
    ReapMove(c, t, Owned(s, a, c.digest), Done(s, c.digest));
    var i := s.items[c.digest].status;
    ItemMoveKeeps(s, a, t, Goto(c, Reaping(ReapStore)),
                  s.items[c.digest].(status := if Closed(i) then i else if c.claim then ItemFailed else ItemCancelled));
  }
}
