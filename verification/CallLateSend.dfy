/** A run in which a message leaves after its lease was revoked: the exception of the revocation barrier. */
module CallLateSend {
  import opened Common
  import opened CallState
  import opened CallMachine
  import opened CallWitness

  const DEADLINE: real := Deadline(LEASE)

  /** The call of CallWitness that waits for the service lock, holding its dispatch lock; the browser has answered it already. */
  const EARLY: Call := Answered(Single(HELD, Risk(ServiceLock(DEADLINE))), ResultOk(3), 1)

  const CANCELLING: Call := EARLY.(threads := EARLY.threads[1 := Thread(Cancel, Context(CancelContext))])

  const EARLY_RECEIPT: Receipt := OfResult(ResultOk(3))

  const UNAUDITED: Receipt := Receipt(Unknown, UncertainEffect, None, OutcomeUnavailable)

  /** After the cancellation ended: nothing says that the send must not happen. */
  const LEFT: Call := Placed(CANCELLING, 1, End(Returned(UNAUDITED, None)), false).(timedOut := true)

  lemma RevokeMove(w: State, c: Call, step: RevokeStep, v: State)
    requires Reachable(Alone(w, c)) && CanRevoke(Alone(w, c), step) && AfterRevoke(Alone(w, c), step) == Alone(v, c)
    ensures Reachable(Alone(v, c))
  {
    Extend(Alone(w, c), Revoke(step));
  }

  lemma AnsweredEarly()
    ensures Reachable(Alone(LEASED, EARLY))
  {
    AtServiceLock();
    var before := Single(HELD, Risk(ServiceLock(DEADLINE)));
    Extend(Alone(LEASED, before), Outside(BrowserAnswers(0, ResultOk(3), 1)));
    assert map[0 := before][0 := EARLY] == map[0 := EARLY];
  }

  function Revoking(r: Revoker): State {
    LEASED.(leases := map[0 := LEASE.(status := Revoked)], revokers := map[0 := r])
  }

  /** revoke_lease up to its loop over the active calls. */
  lemma RevocationStarts()
    ensures Reachable(Alone(Revoking(RevokeLoop(0, {0}, None)), EARLY))
  {
    AnsweredEarly();
    var w1 := LEASED.(revokers := map[0 := RevokeRead(0)]);
    var w2 := LEASED.(revokers := map[0 := RevokeCas(0)]);
    RevokeMove(LEASED, EARLY, StartRevoke(0, 0), w1);
    assert w1.revokers[0 := RevokeCas(0)] == w2.revokers;
    RevokeMove(w1, EARLY, RevokerReads(0), w2);
    RevocationSwaps(w2);
    assert Holding(Alone(Revoking(RevokeScan(0)), EARLY), 0) == {0};
    var r := RevokeLoop(0, {0}, None);
    assert Revoking(RevokeScan(0)).revokers[0 := r] == Revoking(r).revokers;
    RevokeMove(Revoking(RevokeScan(0)), EARLY, RevokerScans(0), Revoking(r));
  }

  lemma RevocationSwaps(w: State)
    requires w == LEASED.(revokers := map[0 := RevokeCas(0)]) && Reachable(Alone(w, EARLY))
    ensures Reachable(Alone(Revoking(RevokeScan(0)), EARLY))
  {
    assert w.leases[0 := LEASE.(status := Revoked)] == Revoking(RevokeScan(0)).leases;
    assert w.revokers[0 := RevokeScan(0)] == Revoking(RevokeScan(0)).revokers;
    RevokeMove(w, EARLY, RevokerSwaps(0), Revoking(RevokeScan(0)));
  }

  const WAITING: State := Revoking(RevokeLoop(0, {0}, Some((0, 1))))

  lemma CancellationStarts()
    ensures Reachable(Alone(WAITING, CANCELLING))
  {
    RevocationStarts();
    var s := Alone(Revoking(RevokeLoop(0, {0}, None)), EARLY);
    Extend(s, Revoke(RevokerCancels(0, 0, 1)));
    assert s.calls[0 := CANCELLING] == map[0 := CANCELLING];
    assert s.revokers[0 := RevokeLoop(0, {0}, Some((0, 1)))] == WAITING.revokers;
    assert Recall(LEASED.completed, 9).None?;
  }

  /** It finds the early answer, so it finalizes at once and leaves no flag; the audit fails. */
  lemma CancellationEnds()
    ensures Reachable(Alone(WAITING, LEFT))
  {
    CancellationStarts();
    var c1 := Placed(CANCELLING, 1, Cancelling(CancelEntry), false);
    LocalStep(WAITING, CANCELLING, 1, 2, ContextDone);
    assert Apply(CANCELLING, 1, 2, ContextDone) == c1;
    var c2 := Placed(CANCELLING, 1, Finalizing(FinalLock, EARLY_RECEIPT), false);
    PlacedTwice(CANCELLING, 1, Cancelling(CancelEntry), false, Finalizing(FinalLock, EARLY_RECEIPT), false);
    LocalStep(WAITING, c1, 1, 2, CancelBegin);
    assert Apply(c1, 1, 2, CancelBegin) == c2;
    FinalizationFails(c2);
  }

  lemma FinalizationFails(c: Call)
    requires c == Placed(CANCELLING, 1, Finalizing(FinalLock, EARLY_RECEIPT), false) && Reachable(Alone(WAITING, c))
    ensures Reachable(Alone(WAITING, LEFT))
  {
    var d := Placed(CANCELLING, 1, Finalizing(FinalAudit, EARLY_RECEIPT), true);
    PlacedTwice(CANCELLING, 1, Finalizing(FinalLock, EARLY_RECEIPT), false, Finalizing(FinalAudit, EARLY_RECEIPT), true);
    LocalStep(WAITING, c, 1, 2, FinalizeEnter);
    assert Apply(c, 1, 2, FinalizeEnter) == d;
    AuditFails(d);
  }

  lemma AuditFails(d: Call)
    requires d == Placed(CANCELLING, 1, Finalizing(FinalAudit, EARLY_RECEIPT), true) && Reachable(Alone(WAITING, d))
    ensures Reachable(Alone(WAITING, LEFT))
  {
    PlacedTwice(CANCELLING, 1, Finalizing(FinalAudit, EARLY_RECEIPT), true, End(Returned(UNAUDITED, None)), false);
    LocalStep(WAITING, d, 1, 2, Fail(false));
    assert Apply(d, 1, 2, Fail(false)) == LEFT;
  }

  const REVOKED: State := Revoking(RevokeOver).(returned := {0})

  lemma RevocationReturns()
    ensures Reachable(Alone(REVOKED, LEFT))
  {
    CancellationEnds();
    var joined := Revoking(RevokeLoop(0, {}, None));
    assert {0} - {0} == {};
    assert WAITING.revokers[0 := RevokeLoop(0, {}, None)] == joined.revokers;
    RevokeMove(WAITING, LEFT, RevokerJoins(0), joined);
    assert joined.revokers[0 := RevokeOver] == REVOKED.revokers;
    RevokeMove(joined, LEFT, RevokerReturns(0), REVOKED);
  }

  /**
   revoke_lease has returned normally and nothing has been sent; two steps later a
   message is delivered under that lease, to a browser that had answered the call
   before it was sent.
   */
  lemma SentAfterRevocation() returns (s: State, locked: State, t: State)
    ensures Reachable(s) && 0 in s.returned && 0 in s.leases && s.leases[0].status == Revoked && s.log == []
    ensures Next(s, locked) && Next(locked, t) && Reachable(t)
    ensures |t.log| == 1 && t.log[0].lease == 0 && t.log[0].call in t.calls && t.calls[t.log[0].call].unsolicited
  {
    RevocationReturns();
    s := Alone(REVOKED, LEFT);
    assert SendPlan(s, LEFT, DEADLINE) == Goto(LEFT, Risk(Sending(DEADLINE, 1.0)));
    Extend(s, OfCall(EnterSend(0)));
    locked := After(s, OfCall(EnterSend(0)));
    Extend(locked, OfCall(Deliver(0)));
    t := After(locked, OfCall(Deliver(0)));
  }
}
