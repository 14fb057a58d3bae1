/** Concrete runs: where the code does less than its description promises. */
module CallWitness {
  import opened Common
  import opened CallState
  import opened CallInvariant
  import opened CallMachine

  ghost predicate Reachable(s: State) {
    exists states :: Run(states) && states[|states| - 1] == s
  }

  lemma InitReachable()
    ensures Reachable(Init())
  {
    assert Run([Init()]);
  }

  lemma Extend(s: State, step: Step)
    requires Reachable(s) && Can(s, step)
    ensures Reachable(After(s, step))
  {
    var states :| Run(states) && states[|states| - 1] == s;
    var longer := states + [After(s, step)];
    forall i: nat
      ensures StepAt(longer, i)
    {
      assert StepAt(states, i);
    }
    assert Run(longer) && longer[|longer| - 1] == After(s, step);
  }

  // ---------- a service with one lease and one call ----------

  const LEASE := NewLease(1.0, 60.0, 1000.0, 1000.0)

  /** A clock at 1.0, one active lease, and the open channel of document 0. */
  const START := State(1.0, map[0 := LEASE], map[], map[], map[], [], None, map[0 := Channel(0, false)], map[0 := 0], map[], {}, [])

  /** The shared tables of `w` and the one call. */
  function Alone(w: State, c: Call): State {
    w.(calls := map[0 := c])
  }

  lemma WorldReady()
    ensures Reachable(START)
  {
    InitReachable();
    Extend(Init(), World(Tick(1.0)));
    var s1 := After(Init(), World(Tick(1.0)));
    Extend(s1, World(IssueLease(0, 60.0, 1000.0, 1000.0)));
    var s2 := After(s1, World(IssueLease(0, 60.0, 1000.0, 1000.0)));
    Extend(s2, World(OpenChannel(0, 0)));
    assert After(s2, World(OpenChannel(0, 0))) == START;
  }

  lemma Started(c: Call)
    requires NewCall(c) && c.lease == 0
    ensures Reachable(Alone(START, c))
  {
    WorldReady();
    Extend(START, OfCall(Begin(0, c)));
    assert map[][0 := c] == map[0 := c];
  }

  lemma LocalStep(w: State, c: Call, t: Tid, u: Tid, op: Op)
    requires Reachable(Alone(w, c)) && Enabled(c, t, u, op) && !op.ReapEnter?
    ensures Reachable(Alone(w, Apply(c, t, u, op)))
  {
    var s := Alone(w, c);
    Extend(s, OfCall(Local(0, t, u, op)));
    assert s.calls[0 := Apply(c, t, u, op)] == map[0 := Apply(c, t, u, op)];
  }

  /** A call with one thread at `pc`. */
  function Single(c: Call, pc: Pc): Call {
    c.(threads := map[MAIN := Thread(Execute, pc)])
  }

  lemma SingleMove(c: Call, pc: Pc, next: Pc)
    ensures Perform(Single(c, pc), MAIN, MAIN, Goto(Single(c, pc), next)) == Single(c, next)
  {
    assert map[MAIN := Thread(Execute, pc)][MAIN := Thread(Execute, next)] == map[MAIN := Thread(Execute, next)];
  }

  function Fenced(w: State, d: Digest): State {
    w.(items := map[d := Item(0, ItemReady)])
  }

  lemma SubmitStep(w: State, c: Call)
    requires w.items == map[] && Reachable(Alone(w, Single(c, Admit(FenceSubmit))))
    ensures Reachable(Alone(Fenced(w, c.digest), Single(c, Admit(FenceRead(true)))))
  {
    var s := Alone(w, Single(c, Admit(FenceSubmit)));
    Extend(s, OfCall(SubmitFence(0, MAIN)));
    SingleMove(c, Admit(FenceSubmit), Admit(FenceRead(true)));
    assert s.calls[0 := Single(c, Admit(FenceRead(true)))] == map[0 := Single(c, Admit(FenceRead(true)))];
    assert s.items[c.digest := Item(0, ItemReady)] == map[c.digest := Item(0, ItemReady)];
  }

  lemma ReplyStep(w: State, c: Call)
    requires c.digest in w.items && Reachable(Alone(w, Single(c, Admit(FenceRead(true)))))
    ensures Reachable(Alone(w, Single(c, Admit(PendingAudit))))
  {
    var s := Alone(w, Single(c, Admit(FenceRead(true))));
    Extend(s, OfCall(ReplyFence(0, MAIN)));
    SingleMove(c, Admit(FenceRead(true)), Admit(PendingAudit));
    assert s.calls[0 := Single(c, Admit(PendingAudit))] == map[0 := Single(c, Admit(PendingAudit))];
  }

  lemma RegisterStep(w: State, c: Call)
    requires w.registry == map[] && w.serviceLock.None? && Reachable(Alone(w, Single(c, Admit(Register))))
    ensures Reachable(Alone(w.(registry := map[c.digest := 0]), Single(c, Admit(if c.mutates then ConfirmSend else LeaseRead))))
  {
    var s := Alone(w, Single(c, Admit(Register)));
    var next := Admit(if c.mutates then ConfirmSend else LeaseRead);
    Extend(s, OfCall(RegisterCall(0, MAIN)));
    SingleMove(c, Admit(Register), next);
    assert s.calls[0 := Single(c, next)] == map[0 := Single(c, next)];
    assert s.registry[c.digest := 0] == map[c.digest := 0];
  }

  /** From the start of execute_call to the active calls. */
  lemma AdmittedCall(c: Call)
    requires NewCall(Single(c, Admit(FenceSubmit))) && c.lease == 0
    ensures Reachable(Alone(Fenced(START, c.digest).(registry := map[c.digest := 0]),
                            Single(c, Admit(if c.mutates then ConfirmSend else LeaseRead))))
  {
    Started(Single(c, Admit(FenceSubmit)));
    SubmitStep(START, c);
    ReplyStep(Fenced(START, c.digest), c);
    var before := Single(c, Admit(PendingAudit));
    LocalStep(Fenced(START, c.digest), before, MAIN, 1, PendingAuditDone);
    assert before.threads[MAIN := Thread(Execute, Admit(Register))] == map[MAIN := Thread(Execute, Admit(Register))];
    assert Apply(before, MAIN, 1, PendingAuditDone) == Single(c, Admit(Register));
    RegisterStep(Fenced(START, c.digest), c);
  }

  /** A mutating call of digest 7, authorized and registered, about to ask for confirmation. */
  const REGISTERED: Call := Call(7, 0, 0, true, 5, true, Some(7), None, None, None, None, false, false, false, false,
                                 false, None, map[MAIN := Thread(Execute, Admit(ConfirmSend))], false)

  const FENCED: State := Fenced(START, 7).(registry := map[7 := 0])

  lemma RegisteredCall()
    ensures Reachable(Alone(FENCED, REGISTERED))
  {
    AdmittedCall(REGISTERED);
  }

  lemma SpawnStep(c: Call, kind: Kind, pc: Pc)
    requires Reachable(Alone(FENCED, c)) && c.digest == 7 && MAIN in c.threads && 1 !in c.threads
    requires (kind == Reconcile && pc == Context(ReconcileContext)) || (kind == Cancel && pc == Cancelling(CancelEntry))
    ensures Reachable(Alone(FENCED, c.(threads := c.threads[1 := Thread(kind, pc)])))
  {
    var s := Alone(FENCED, c);
    var d := c.(threads := c.threads[1 := Thread(kind, pc)]);
    Extend(s, Outside(if kind == Reconcile then StartReconcile(0, 1) else StartDisconnect(0, 1)));
    assert s.calls[0 := d] == map[0 := d];
  }

  /** Thread `t` of `c`, at `pc` and holding finalize_lock or not. */
  function Placed(c: Call, t: Tid, pc: Pc, held: bool): Call
    requires t in c.threads
  {
    c.(threads := c.threads[t := Thread(c.threads[t].kind, pc)], finalizeLock := if held then Some(t) else None)
  }

  lemma PlacedTwice(c: Call, t: Tid, pc: Pc, held: bool, next: Pc, held': bool)
    requires t in c.threads
    ensures Placed(Placed(c, t, pc, held), t, next, held') == Placed(c, t, next, held')
  {
    var k := c.threads[t].kind;
    assert c.threads[t := Thread(k, pc)][t := Thread(k, next)] == c.threads[t := Thread(k, next)];
  }

  lemma CommittedCall(c: Call, t: Tid, r: Receipt)
    requires t in c.threads
    ensures var before := Placed(c, t, Finalizing(FinalEngine, r), true);
      Perform(before, t, t, Goto(before, Finalizing(FinalStore, r))) == Placed(c, t, Finalizing(FinalStore, r), true)
  {
    PlacedTwice(c, t, Finalizing(FinalEngine, r), true, Finalizing(FinalStore, r), true);
  }

  lemma CommittedItem(c: Call, r: Receipt)
    requires r.status != Unknown && !c.claim && r.error != CommitUnavailable && r.error != CancelUnavailable
    ensures EngineResult(c, ItemReady, r, true) == (if r.status == Cancelled then ItemCancelled else ItemReady, r)
    ensures OutcomeMove(c, r) == Goto(c, Finalizing(FinalStore, r))
  {
  }

  /** The engine accepts the outcome of a call without a claim. */
  lemma CommitStep(w: State, c: Call, t: Tid, r: Receipt)
    requires w.items == map[c.digest := Item(0, ItemReady)] && t in c.threads && r.status != Unknown && !c.claim
    requires r.error != CommitUnavailable && r.error != CancelUnavailable
    requires Reachable(Alone(w, Placed(c, t, Finalizing(FinalEngine, r), true)))
    ensures var item := Item(0, if r.status == Cancelled then ItemCancelled else ItemReady);
      Reachable(Alone(w.(items := map[c.digest := item]), Placed(c, t, Finalizing(FinalStore, r), true)))
  {
    var before := Placed(c, t, Finalizing(FinalEngine, r), true);
    Extend(Alone(w, before), OfCall(CommitOutcome(0, t, true)));
    CommittedItem(before, r);
    CommittedCall(c, t, r);
    AfterCommit(w, before, t, r, Placed(c, t, Finalizing(FinalStore, r), true));
  }

  lemma AfterCommit(w: State, c: Call, t: Tid, r: Receipt, d: Call)
    requires w.items == map[c.digest := Item(0, ItemReady)] && t in c.threads && c.threads[t].pc == Finalizing(FinalEngine, r)
    requires EngineResult(c, ItemReady, r, true) == (if r.status == Cancelled then ItemCancelled else ItemReady, r)
    requires OutcomeMove(c, r) == Goto(c, Finalizing(FinalStore, r))
    requires d == Perform(c, t, t, Goto(c, Finalizing(FinalStore, r)))
    ensures var item := Item(0, if r.status == Cancelled then ItemCancelled else ItemReady);
      && CanCall(Alone(w, c), CommitOutcome(0, t, true))
      && AfterOutcome(Alone(w, c), 0, t, true) == Alone(w.(items := map[c.digest := item]), d)
  {
    var item := Item(0, if r.status == Cancelled then ItemCancelled else ItemReady);
    assert map[0 := c][0 := d] == map[0 := d];
    assert w.items[c.digest := item] == map[c.digest := item];
  }

  lemma SettledCall(c: Call, t: Tid, r: Receipt)
    requires t in c.threads
    ensures Settled(Placed(c, t, Finalizing(FinalStore, r), true), t, r)
         == Placed(c, t, End(Returned(r, Some(r))), false).(terminal := Some(r))
  {
    PlacedTwice(c, t, Finalizing(FinalStore, r), true, End(Returned(r, Some(r))), false);
  }

  lemma AfterStoring(w: State, c: Call, t: Tid, r: Receipt, d: Call)
    requires t in c.threads && c.threads[t].pc == Finalizing(FinalStore, r) && w.serviceLock.None? && d == Settled(c, t, r)
    ensures CanCall(Alone(w, c), StoreTerminal(0, t))
    ensures AfterStore(Alone(w, c), 0, t)
         == Alone(w.(completed := Remember(w.completed, c.digest, r), registry := w.registry - {c.digest}), d)
  {
    assert map[0 := c][0 := d] == map[0 := d];
  }

  lemma StoreStep(w: State, c: Call, t: Tid, r: Receipt)
    requires t in c.threads && w.serviceLock.None?
    requires Reachable(Alone(w, Placed(c, t, Finalizing(FinalStore, r), true)))
    ensures Reachable(Alone(w.(completed := Remember(w.completed, c.digest, r), registry := w.registry - {c.digest}),
                            Placed(c, t, End(Returned(r, Some(r))), false).(terminal := Some(r))))
  {
    var before := Placed(c, t, Finalizing(FinalStore, r), true);
    SettledCall(c, t, r);
    AfterStoring(w, before, t, r, Settled(before, t, r));
    Extend(Alone(w, before), OfCall(StoreTerminal(0, t)));
  }

  /** _finalize of an outcome that the engine accepts, up to the stored receipt. */
  lemma Settle(w: State, c: Call, t: Tid, u: Tid, r: Receipt)
    requires w.items == map[c.digest := Item(0, ItemReady)] && t in c.threads && r.status != Unknown && !c.claim && c.terminal.None?
    requires r.error != CommitUnavailable && r.error != CancelUnavailable && w.serviceLock.None? && u !in c.threads && u != MAIN
    requires Reachable(Alone(w, Placed(c, t, Finalizing(FinalLock, r), false)))
    ensures var item := Item(0, if r.status == Cancelled then ItemCancelled else ItemReady);
      Reachable(Alone(w.(items := map[c.digest := item], completed := Remember(w.completed, c.digest, r), registry := w.registry - {c.digest}),
                      Placed(c, t, End(Returned(r, Some(r))), false).(terminal := Some(r))))
  {
    LocalStep(w, Placed(c, t, Finalizing(FinalLock, r), false), t, u, FinalizeEnter);
    PlacedTwice(c, t, Finalizing(FinalLock, r), false, Finalizing(FinalAudit, r), true);
    LocalStep(w, Placed(c, t, Finalizing(FinalAudit, r), true), t, u, FinalizeAuditDone);
    PlacedTwice(c, t, Finalizing(FinalAudit, r), true, Finalizing(FinalEngine, r), true);
    CommitStep(w, c, t, r);
    var item := Item(0, if r.status == Cancelled then ItemCancelled else ItemReady);
    StoreStep(w.(items := map[c.digest := item]), c, t, r);
  }

  // ---------- a reconciliation that misses the receipt ----------

  const NOT_SENT := Receipt(Cancelled, NoEffect, None, NotDispatched)

  const RECONCILED: Call :=
    REGISTERED.(threads := REGISTERED.threads[1 := Thread(Reconcile, Context(ReconcileContext))])

  const SETTLED: Call := Placed(RECONCILED, MAIN, End(Returned(NOT_SENT, Some(NOT_SENT))), false).(terminal := Some(NOT_SENT))

  lemma ConfirmationFails()
    ensures Enabled(RECONCILED, MAIN, 2, Fail(false))
    ensures Apply(RECONCILED, MAIN, 2, Fail(false)) == Placed(RECONCILED, MAIN, Finalizing(FinalLock, NOT_SENT), false)
  {
  }

  lemma ReconciliationAnswers()
    ensures Enabled(SETTLED, 1, 2, ContextDone)
    ensures var d := Apply(SETTLED, 1, 2, ContextDone);
      && d.terminal == Some(NOT_SENT) && !d.dispatched && 1 in d.threads
      && d.threads[1].pc == End(Snapshot(Receipt(Dispatched, UncertainEffect, None, NoError), Some(NOT_SENT)))
  {
  }

  /**
   reconcile_call reads the call, awaits _lease_context, and does not look at
   terminal_future again: a reconciliation under way while the call is settled
   answers `dispatched` although the stored receipt is `cancelled`.
   */
  lemma StaleReconcile() returns (s: State)
    ensures Reachable(s) && 0 in s.calls && 1 in s.calls[0].threads
    ensures s.calls[0].threads[1].pc.End? && s.calls[0].threads[1].pc.end.Snapshot?
    ensures s.calls[0].threads[1].pc.end.receipt.status == Dispatched
    ensures s.calls[0].terminal.Some? && s.calls[0].terminal.value.status == Cancelled && !s.calls[0].dispatched
  {
    RegisteredCall();
    SpawnStep(REGISTERED, Reconcile, Context(ReconcileContext));
    ConfirmationFails();
    LocalStep(FENCED, RECONCILED, MAIN, 2, Fail(false));
    Settle(FENCED, RECONCILED, MAIN, 2, NOT_SENT);
    var w := FENCED.(items := map[7 := Item(0, ItemCancelled)], completed := Remember([], 7, NOT_SENT), registry := FENCED.registry - {7});
    ReconciliationAnswers();
    LocalStep(w, SETTLED, 1, 2, ContextDone);
    s := Alone(w, Apply(SETTLED, 1, 2, ContextDone));
  }

  /**
   Exactly when a reconciliation misses the receipt: at its resumption the call
   has one and no browser result is in. With a result it goes on to _finalize,
   which returns the stored receipt.
   */
  lemma ReconcileMissesExactly(c: Call, owned: bool, done: bool)
    requires RecordOk(c, owned, done) && c.terminal.Some?
    ensures var pc := ResumeContext(c, ReconcileContext).pc;
      && (pc.End? <==> c.result.None?)
      && (pc.End? ==> pc.end.Snapshot? && Some(pc.end.receipt) != c.terminal)
      && (!pc.End? ==> pc.Finalizing? && pc.phase.FinalLock?)
    ensures forall t, pc :: Ready(c, pc, FinalizeEnter) ==>
      Plan(c, t, pc, FinalizeEnter).pc == End(Returned(c.terminal.value, c.terminal))
  {
    if c.result.None? {
      SnapshotDiffers(c, ResumeContext(c, ReconcileContext).pc.end.receipt);
    }
  }

  // ---------- a receipt over an open WorkItem ----------

  lemma AnswerStep(c: Call, v: nat)
    requires Reachable(Alone(FENCED, c)) && c.digest == 7 && MAIN in c.threads && 1 !in c.threads && !c.timedOut
    ensures Reachable(Alone(FENCED, Answered(c, ResultOk(v), 1)))
  {
    Extend(Alone(FENCED, c), Outside(BrowserAnswers(0, ResultOk(v), 1)));
    assert map[0 := c][0 := Answered(c, ResultOk(v), 1)] == map[0 := Answered(c, ResultOk(v), 1)];
  }

  const HEARD: Call := Answered(REGISTERED, ResultOk(3), 1)

  const ANSWERED: Call := HEARD.(threads := HEARD.threads[1 := Thread(Cancel, Cancelling(CancelEntry))])

  lemma AnswerWins()
    ensures Enabled(ANSWERED, 1, 2, CancelBegin)
    ensures Apply(ANSWERED, 1, 2, CancelBegin) == Placed(ANSWERED, 1, Finalizing(FinalLock, OfResult(ResultOk(3))), false)
  {
  }

  /** A browser that answers before it is asked gets a `succeeded` receipt stored over an open WorkItem. */
  lemma UnsolicitedAnswer() returns (s: State)
    ensures Reachable(s) && 0 in s.calls && s.calls[0].terminal.Some? && s.calls[0].terminal.value.status == Succeeded
    ensures s.log == [] && s.calls[0].digest in s.items && !Closed(s.items[s.calls[0].digest].status)
  {
    RegisteredCall();
    AnswerStep(REGISTERED, 3);
    SpawnStep(HEARD, Cancel, Cancelling(CancelEntry));
    AnswerWins();
    LocalStep(FENCED, ANSWERED, 1, 2, CancelBegin);
    var r := OfResult(ResultOk(3));
    Settle(FENCED, ANSWERED, 1, 2, r);
    s := Alone(FENCED.(items := map[7 := Item(0, ItemReady)], completed := Remember([], 7, r), registry := FENCED.registry - {7}),
               Placed(ANSWERED, 1, End(Returned(r, Some(r))), false).(terminal := Some(r)));
  }

  // ---------- a call that is sent ----------

  /** A read-only call of digest 9 over channel 0. */
  const READER: Call := Call(9, 0, 0, false, 5, true, Some(9), None, None, None, None, false, false, false, false,
                             false, None, map[], false)

  const READY: State := Fenced(START, 9).(registry := map[9 := 0])

  lemma SingleStep(w: State, c: Call, pc: Pc, next: Pc, step: CallStep)
    requires Reachable(Alone(w, Single(c, pc))) && CanCall(Alone(w, Single(c, pc)), step)
    requires AfterCall(Alone(w, Single(c, pc)), step) == MoveCall(Alone(w, Single(c, pc)), 0, MAIN, Goto(Single(c, pc), next))
    ensures Reachable(Alone(w, Single(c, next)))
  {
    var s := Alone(w, Single(c, pc));
    Extend(s, OfCall(step));
    SingleMove(c, pc, next);
    assert s.calls[0 := Single(c, next)] == map[0 := Single(c, next)];
  }

  /** The second lease read and the check of the remaining authority. */
  lemma AuthorityRead()
    ensures Reachable(Alone(READY, Single(READER, Risk(Claiming(Deadline(LEASE))))))
  {
    AdmittedCall(READER);
    SingleStep(READY, READER, Admit(LeaseRead), Risk(LeaseSeen(LEASE)), ReadLease(0));
    SingleStep(READY, READER, Risk(LeaseSeen(LEASE)), Risk(Claiming(Deadline(LEASE))), CheckLease(0));
  }

  const LEASED: State := READY.(items := map[9 := Item(0, ItemLeased)])

  lemma Claimed()
    ensures Reachable(Alone(LEASED, Single(READER, Risk(ClaimReply(true, Deadline(LEASE))))))
  {
    AuthorityRead();
    var pc, next := Risk(Claiming(Deadline(LEASE))), Risk(ClaimReply(true, Deadline(LEASE)));
    var s := Alone(READY, Single(READER, pc));
    Extend(s, OfCall(ClaimItem(0, true)));
    SingleMove(READER, pc, next);
    assert s.calls[0 := Single(READER, next)] == map[0 := Single(READER, next)];
    assert s.items[9 := Item(0, ItemLeased)] == map[9 := Item(0, ItemLeased)];
  }

  const HELD: Call := READER.(claim := true, dispatchLock := true)

  lemma LocalSingle(w: State, c: Call, pc: Pc, op: Op, d: Call, next: Pc)
    requires Reachable(Alone(w, Single(c, pc))) && Enabled(Single(c, pc), MAIN, 1, op) && !op.ReapEnter?
    requires Plan(Single(c, pc), MAIN, pc, op).child.None? && Plan(Single(c, pc), MAIN, pc, op).pc == next
    requires var m := Plan(Single(c, pc), MAIN, pc, op);
      d == c.(finalizeLock := m.finalizeLock, dispatchLock := m.dispatchLock, claim := m.claim, timedOut := m.timedOut,
              cancelRequested := m.cancelRequested)
    ensures Reachable(Alone(w, Single(d, next)))
  {
    LocalStep(w, Single(c, pc), MAIN, 1, op);
    assert map[MAIN := Thread(Execute, pc)][MAIN := Thread(Execute, next)] == map[MAIN := Thread(Execute, next)];
    assert Apply(Single(c, pc), MAIN, 1, op) == Single(d, next);
  }

  lemma AtServiceLock()
    ensures Reachable(Alone(LEASED, Single(HELD, Risk(ServiceLock(Deadline(LEASE))))))
  {
    Claimed();
    var d := Deadline(LEASE);
    var claimed := READER.(claim := true);
    LocalSingle(LEASED, READER, Risk(ClaimReply(true, d)), ClaimResume, claimed, Risk(Revalidate(d)));
    LocalSingle(LEASED, claimed, Risk(Revalidate(d)), RevalidateDone, claimed, Risk(DispatchLock(d)));
    LocalSingle(LEASED, claimed, Risk(DispatchLock(d)), DispatchEnter, HELD, Risk(ServiceLock(d)));
  }

  lemma SendStarts()
    ensures Reachable(Alone(LEASED.(serviceLock := Some(0)), Single(HELD, Risk(Sending(Deadline(LEASE), 1.0)))))
  {
    AtServiceLock();
    var d := Deadline(LEASE);
    var pc, next := Risk(ServiceLock(d)), Risk(Sending(d, 1.0));
    var s := Alone(LEASED, Single(HELD, pc));
    Extend(s, OfCall(EnterSend(0)));
    SingleMove(HELD, pc, next);
    assert SendPlan(s, Single(HELD, pc), d) == Goto(Single(HELD, pc), next);
    assert s.calls[0 := Single(HELD, next)] == map[0 := Single(HELD, next)];
  }

  /** The machine does send: a run in which one message is delivered, so what is proved about messages is not empty. */
  lemma MessageDelivered() returns (s: State)
    ensures Reachable(s) && |s.log| == 1
    ensures s.log[0].digest == 9 && s.log[0].lease == 0 && s.log[0].open && 0 in s.calls && s.calls[0].dispatched
  {
    SendStarts();
    var before := Alone(LEASED.(serviceLock := Some(0)), Single(HELD, Risk(Sending(Deadline(LEASE), 1.0))));
    Extend(before, OfCall(Deliver(0)));
    s := AfterDeliver(before, 0);
  }
}
