/** A mutating call from admission to its stored receipt: confirmed, sent, answered and committed. */
module CallRoundTrip {
  import opened Common
  import opened CallState
  import opened CallMachine
  import opened CallWitness
  import opened CallReceipts

  const DEADLINE: real := Deadline(LEASE)

  // ---------- confirmation ----------

  /** The registered call of CallWitness, confirmed by the browser. */
  const CONFIRMED: Call := REGISTERED.(confirmedBy := Some(Confirmation(5, 7)))

  lemma Confirmed()
    ensures Reachable(Alone(FENCED, Single(CONFIRMED, Admit(ConfirmWait))))
  {
    RegisteredCall();
    assert Single(REGISTERED, Admit(ConfirmSend)) == REGISTERED;
    LocalSingle(FENCED, REGISTERED, Admit(ConfirmSend), ConfirmRequested, REGISTERED, Admit(ConfirmWait));
    var before, after := Single(REGISTERED, Admit(ConfirmWait)), Single(CONFIRMED, Admit(ConfirmWait));
    Extend(Alone(FENCED, before), Outside(BrowserConfirms(0, Confirmation(5, 7))));
    assert map[0 := before][0 := after] == map[0 := after];
  }

  lemma Audited()
    ensures Reachable(Alone(FENCED, Single(CONFIRMED, Admit(LeaseRead))))
  {
    Confirmed();
    var held := CONFIRMED.(finalizeLock := Some(MAIN));
    LocalSingle(FENCED, CONFIRMED, Admit(ConfirmWait), ConfirmArrived, CONFIRMED, Admit(ConfirmAuditLock));
    LocalSingle(FENCED, CONFIRMED, Admit(ConfirmAuditLock), AuditEnter, held, Admit(ConfirmAudit));
    LocalSingle(FENCED, held, Admit(ConfirmAudit), AuditDone, CONFIRMED, Admit(LeaseRead));
  }

  // ---------- claim and send ----------

  const TAKEN: State := FENCED.(items := map[7 := Item(0, ItemLeased)])

  const CLAIMED: Call := CONFIRMED.(claim := true)

  const LOCKED: Call := CLAIMED.(dispatchLock := true)

  lemma AuthorityChecked()
    ensures Reachable(Alone(FENCED, Single(CONFIRMED, Risk(Claiming(DEADLINE)))))
  {
    Audited();
    SingleStep(FENCED, CONFIRMED, Admit(LeaseRead), Risk(LeaseSeen(LEASE)), ReadLease(0));
    SingleStep(FENCED, CONFIRMED, Risk(LeaseSeen(LEASE)), Risk(Claiming(DEADLINE)), CheckLease(0));
  }

  lemma ClaimSeen()
    ensures Reachable(Alone(TAKEN, Single(CONFIRMED, Risk(ClaimReply(true, DEADLINE)))))
  {
    AuthorityChecked();
    var pc, next := Risk(Claiming(DEADLINE)), Risk(ClaimReply(true, DEADLINE));
    var s := Alone(FENCED, Single(CONFIRMED, pc));
    Extend(s, OfCall(ClaimItem(0, true)));
    SingleMove(CONFIRMED, pc, next);
    assert s.calls[0 := Single(CONFIRMED, next)] == map[0 := Single(CONFIRMED, next)];
    assert s.items[7 := Item(0, ItemLeased)] == map[7 := Item(0, ItemLeased)];
  }

  lemma AtTheLock()
    ensures Reachable(Alone(TAKEN, Single(LOCKED, Risk(ServiceLock(DEADLINE)))))
  {
    ClaimSeen();
    LocalSingle(TAKEN, CONFIRMED, Risk(ClaimReply(true, DEADLINE)), ClaimResume, CLAIMED, Risk(Revalidate(DEADLINE)));
    LocalSingle(TAKEN, CLAIMED, Risk(Revalidate(DEADLINE)), RevalidateDone, CLAIMED, Risk(DispatchLock(DEADLINE)));
    LocalSingle(TAKEN, CLAIMED, Risk(DispatchLock(DEADLINE)), DispatchEnter, LOCKED, Risk(ServiceLock(DEADLINE)));
  }

  const INSIDE: State := TAKEN.(serviceLock := Some(0))

  lemma SendBegins()
    ensures Reachable(Alone(INSIDE, Single(LOCKED, Risk(Sending(DEADLINE, 1.0)))))
  {
    AtTheLock();
    var pc, next := Risk(ServiceLock(DEADLINE)), Risk(Sending(DEADLINE, 1.0));
    var s := Alone(TAKEN, Single(LOCKED, pc));
    Extend(s, OfCall(EnterSend(0)));
    SingleMove(LOCKED, pc, next);
    assert SendPlan(s, Single(LOCKED, pc), DEADLINE) == Goto(Single(LOCKED, pc), next);
    assert s.calls[0 := Single(LOCKED, next)] == map[0 := Single(LOCKED, next)];
  }

  const SENT: State := TAKEN.(log := [SentCall(0, 7, 0, 1.0, DEADLINE, true)])

  const DISPATCHED: Call := CLAIMED.(dispatched := true)

  lemma Delivered()
    ensures Reachable(Alone(SENT, Single(DISPATCHED, Sent(DispatchAuditLock))))
  {
    SendBegins();
    var c, next := Single(LOCKED, Risk(Sending(DEADLINE, 1.0))), Single(DISPATCHED, Sent(DispatchAuditLock));
    Extend(Alone(INSIDE, c), OfCall(Deliver(0)));
    assert c.threads[MAIN := Thread(Execute, Sent(DispatchAuditLock))] == next.threads;
    assert SentOff(c) == next;
    assert map[0 := c][0 := next] == map[0 := next];
  }

  // ---------- the answer ----------

  function AnsweredCall(m: BrowserResult): Call {
    DISPATCHED.(result := Some(m))
  }

  lemma AnswerArrives(m: BrowserResult)
    ensures Reachable(Alone(SENT, Single(AnsweredCall(m), Sent(AwaitResult))))
  {
    Delivered();
    var held := DISPATCHED.(finalizeLock := Some(MAIN));
    LocalSingle(SENT, DISPATCHED, Sent(DispatchAuditLock), AuditEnter, held, Sent(DispatchAudit));
    LocalSingle(SENT, held, Sent(DispatchAudit), AuditDone, DISPATCHED, Sent(AwaitResult));
    var before, after := Single(DISPATCHED, Sent(AwaitResult)), Single(AnsweredCall(m), Sent(AwaitResult));
    Extend(Alone(SENT, before), Outside(BrowserAnswers(0, m, 1)));
    assert map[0 := before][0 := after] == map[0 := after];
  }

  /** The receipt that reports the answer. */
  function ReceiptOf(m: BrowserResult): (r: Receipt)
    ensures Tells(r, m)
  {
    match m
    case ResultOk(v) => Receipt(CallStatus.Succeeded, Effect.Committed, Some(v), NoError)
    case ResultError(e) => Receipt(CallStatus.Failed, NoEffect, None, BrowserFailure(e))
  }

  lemma Finalized(m: BrowserResult)
    ensures var held := AnsweredCall(m).(finalizeLock := Some(MAIN));
      Reachable(Alone(SENT, Single(held, Finalizing(FinalEngine, ReceiptOf(m)))))
  {
    AnswerArrives(m);
    var c, r := AnsweredCall(m), ReceiptOf(m);
    var held := c.(finalizeLock := Some(MAIN));
    LocalSingle(SENT, c, Sent(AwaitResult), ResultArrived, c, Finalizing(FinalLock, r));
    LocalSingle(SENT, c, Finalizing(FinalLock, r), FinalizeEnter, held, Finalizing(FinalAudit, r));
    LocalSingle(SENT, held, Finalizing(FinalAudit, r), FinalizeAuditDone, held, Finalizing(FinalEngine, r));
  }

  function ItemFor(m: BrowserResult): ItemStatus {
    if m.ResultOk? then ItemSucceeded else ItemFailed
  }

  lemma OutcomeStep(m: BrowserResult, held: Call, r: Receipt)
    requires held == AnsweredCall(m).(finalizeLock := Some(MAIN)) && r == ReceiptOf(m)
    ensures var s := Alone(SENT, Single(held, Finalizing(FinalEngine, r)));
      && CanCall(s, CommitOutcome(0, MAIN, true))
      && AfterOutcome(s, 0, MAIN, true)
        == Alone(SENT.(items := map[7 := Item(0, ItemFor(m))]), Single(held, Finalizing(FinalStore, r)))
  {
    var pc, next := Finalizing(FinalEngine, r), Finalizing(FinalStore, r);
    assert EngineResult(Single(held, pc), ItemLeased, r, true) == (ItemFor(m), r);
    SingleMove(held, pc, next);
    assert map[0 := Single(held, pc)][0 := Single(held, next)] == map[0 := Single(held, next)];
    assert SENT.items[7 := Item(0, ItemFor(m))] == map[7 := Item(0, ItemFor(m))];
  }

  lemma OutcomeCommitted(m: BrowserResult)
    ensures var held := AnsweredCall(m).(finalizeLock := Some(MAIN));
      Reachable(Alone(SENT.(items := map[7 := Item(0, ItemFor(m))]), Single(held, Finalizing(FinalStore, ReceiptOf(m)))))
  {
    Finalized(m);
    var held, r := AnsweredCall(m).(finalizeLock := Some(MAIN)), ReceiptOf(m);
    OutcomeStep(m, held, r);
    Extend(Alone(SENT, Single(held, Finalizing(FinalEngine, r))), OfCall(CommitOutcome(0, MAIN, true)));
  }

  /**
   Whatever the browser answers, a complete run leads there: one confirmed message is
   sent, the answer is stored and returned as it was given, the WorkItem is closed
   accordingly, and the call is no longer active.
   */
  lemma RoundTrip(m: BrowserResult) returns (s: State)
    ensures Reachable(s) && |s.log| == 1 && s.log[0].call == 0 && s.log[0].digest == 7 && 0 in s.calls
    ensures var c := s.calls[0];
      && c.mutates && c.confirmedBy.Some? && c.terminal.Some? && Tells(c.terminal.value, m)
      && MAIN in c.threads && c.threads[MAIN].pc == End(Returned(c.terminal.value, c.terminal))
    ensures 7 in s.items && s.items[7].status == (if m.ResultOk? then ItemSucceeded else ItemFailed)
    ensures s.registry == map[] && Recall(s.completed, 7) == s.calls[0].terminal
  {
    OutcomeCommitted(m);
    var held, r := AnsweredCall(m).(finalizeLock := Some(MAIN)), ReceiptOf(m);
    var before := Alone(SENT.(items := map[7 := Item(0, ItemFor(m))]), Single(held, Finalizing(FinalStore, r)));
    Extend(before, OfCall(StoreTerminal(0, MAIN)));
    s := AfterStore(before, 0, MAIN);
    RoundTripEnds(m, before, s, r);
  }

  lemma RoundTripEnds(m: BrowserResult, before: State, s: State, r: Receipt)
    requires before == Alone(SENT.(items := map[7 := Item(0, ItemFor(m))]),
                             Single(AnsweredCall(m).(finalizeLock := Some(MAIN)), Finalizing(FinalStore, r)))
    requires r == ReceiptOf(m) && CanCall(before, StoreTerminal(0, MAIN)) && s == AfterStore(before, 0, MAIN)
    ensures s.registry == map[] && Recall(s.completed, 7) == Some(r) && s.log == SENT.log && s.items == before.items
    ensures 0 in s.calls && s.calls[0].terminal == Some(r) && MAIN in s.calls[0].threads
    ensures s.calls[0].threads[MAIN].pc == End(Returned(r, Some(r))) && s.calls[0].mutates && s.calls[0].confirmedBy.Some?
  {
    assert Remember([], 7, r) == [(7, r)];
    assert map[7 := 0] - {7} == map[];
  }
}
