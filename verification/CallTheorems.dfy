/** What the browser-control protocol guarantees over every run. */
module CallTheorems {
  import opened Common
  import opened CallState
  import opened CallInvariant
  import opened CallMachine
  import opened CallSafety
  import opened CallRevoke

  // ---------- what a single step can do to the log ----------

  /** A message leaves only from a call that is inside its send. */
  ghost predicate LogStep(s: State, s': State) {
    || s'.log == s.log
    || (exists a :: CanCall(s, Deliver(a)) && s' == AfterDeliver(s, a))
  }

  lemma StepLog(s: State, step: Step)
    requires Can(s, step)
    ensures LogStep(s, After(s, step))
    ensures s.returned <= After(s, step).returned
  {
    match step
    case World(w) => WorldStepLog(s, w);
    case OfCall(c) => CallStepLog(s, c);
    case Outside(o) => OutsideStepLog(s, o);
    case Revoke(r) => RevokeStepLog(s, r);
  }

  lemma WorldStepLog(s: State, step: WorldStep)
    requires CanWorld(s, step)
    ensures AfterWorld(s, step).log == s.log && AfterWorld(s, step).returned == s.returned
  {
  }

  lemma OutsideStepLog(s: State, step: OutsideStep)
    requires CanOutside(s, step)
    ensures AfterOutside(s, step).log == s.log && AfterOutside(s, step).returned == s.returned
  {
  }

  lemma RevokeStepLog(s: State, step: RevokeStep)
    requires CanRevoke(s, step)
    ensures AfterRevoke(s, step).log == s.log && s.returned <= AfterRevoke(s, step).returned
  {
  }

  lemma CallStepLog(s: State, step: CallStep)
    requires CanCall(s, step)
    ensures LogStep(s, AfterCall(s, step)) && AfterCall(s, step).returned == s.returned
  {
    if step.Deliver? {
      assert AfterCall(s, step) == AfterDeliver(s, step.call);
    } else {
      QuietStepLog(s, step);
    }
  }

  lemma QuietStepLog(s: State, step: CallStep)
    requires CanCall(s, step) && !step.Deliver?
    ensures AfterCall(s, step).log == s.log && AfterCall(s, step).returned == s.returned
  {
    match step
    case EnterSend(a) => assert AfterCall(s, step) == AfterEnterSend(s, a);
    case FailSend(a, u, op) => assert AfterCall(s, step) == AfterFailSend(s, a, u, op);
    case CommitOutcome(a, t, ok) => assert AfterCall(s, step) == AfterOutcome(s, a, t, ok);
    case StoreTerminal(a, t) => assert AfterCall(s, step) == AfterStore(s, a, t);
    case _ =>
  }

  lemma RunStep(states: seq<State>, i: nat)
    requires Run(states) && 0 < i < |states|
    ensures Inv(states[i - 1]) && Inv(states[i]) && History(states[i - 1], states[i])
    ensures LogStep(states[i - 1], states[i]) && states[i - 1].returned <= states[i].returned
  {
    RunInv(states, i - 1);
    assert StepAt(states, i);
    var step :| Can(states[i - 1], step) && states[i] == After(states[i - 1], step);
    StepKeeps(states[i - 1], step);
    StepLog(states[i - 1], step);
  }

  lemma FollowStep(states: seq<State>, i: nat, a: Nonce)
    requires Run(states) && 0 < i < |states| && a in states[i - 1].calls
    ensures a in states[i].calls && Follows(states[i - 1].calls[a], states[i].calls[a])
  {
    RunStep(states, i);
  }

  // ---------- at-most-once dispatch ----------

  /**
   Over any run - concurrent duplicates, replays, ambiguous fence creation,
   aborts and crashes included - at most one `control.call` is delivered per
   request digest.
   */
  lemma AtMostOnce(states: seq<State>, i: nat)
    requires Run(states) && i < |states|
    ensures forall j, k :: 0 <= j < k < |states[i].log| ==> states[i].log[j].digest != states[i].log[k].digest
  {
    RunInv(states, i);
    var s := states[i];
    forall j, k | 0 <= j < k < |s.log|
      ensures s.log[j].digest != s.log[k].digest
    {
      SenderOwnsFence(s, j);
      SenderOwnsFence(s, k);
    }
  }

  lemma SenderOwnsFence(s: State, j: nat)
    requires Inv(s) && j < |s.log|
    ensures Owned(s, s.log[j].call, s.log[j].digest)
  {
    var e := s.log[j];
    assert EntryOk(s, e);
    var c := s.calls[e.call];
    assert RecordOk(c, Owned(s, e.call, c.digest), Done(s, c.digest));
  }

  /** What was sent stays on the log. */
  lemma {:induction false} LogOnlyGrows(states: seq<State>, i: nat, j: nat)
    requires Run(states) && i <= j < |states|
    ensures states[i].log <= states[j].log
    ensures states[i].returned <= states[j].returned
  {
    if i < j {
      LogOnlyGrows(states, i, j - 1);
      RunStep(states, j);
    }
  }

  // ---------- terminal receipts ----------

  /** A terminal receipt never changes, in this process or after a crash. */
  lemma {:induction false} TerminalIsFinal(states: seq<State>, i: nat, j: nat, a: Nonce)
    requires Run(states) && i <= j < |states| && a in states[i].calls
    ensures a in states[j].calls && states[j].calls[a].digest == states[i].calls[a].digest
    ensures states[i].calls[a].terminal.Some? ==> states[j].calls[a].terminal == states[i].calls[a].terminal
    ensures states[i].calls[a].unsolicited ==> states[j].calls[a].unsolicited
  {
    if i < j {
      TerminalIsFinal(states, i, j - 1, a);
      FollowStep(states, j, a);
    }
  }

  /** The coroutine has not ended: it is running, or starts later. */
  predicate NotEnded(s: State, a: Nonce, t: Tid) {
    a in s.calls && (t in s.calls[a].threads ==> !s.calls[a].threads[t].pc.End?)
  }

  /**
   Once a receipt is stored, every finalize, cancel, execute, reconcile or reap
   coroutine of the call that returns through _finalize or the cache, already
   running or started later, returns exactly that receipt.
   */
  lemma {:induction false} LaterAnswersAgree(states: seq<State>, i: nat, j: nat, a: Nonce, t: Tid)
    requires Run(states) && i <= j < |states| && NotEnded(states[i], a, t) && states[i].calls[a].terminal.Some?
    ensures a in states[j].calls
    ensures var c := states[j].calls[a];
      t in c.threads && c.threads[t].pc.End? && c.threads[t].pc.end.Returned? ==>
        c.threads[t].pc.end.receipt == states[i].calls[a].terminal.value
  {
    EndedOnRecord(states, i, j, a, t);
    RunInv(states, j);
    var s := states[j];
    var c := s.calls[a];
    if t in c.threads {
      assert ThreadOk(c, t, c.threads[t], Owned(s, a, c.digest), Done(s, c.digest));
    }
  }

  lemma {:induction false} EndedOnRecord(states: seq<State>, i: nat, j: nat, a: Nonce, t: Tid)
    requires Run(states) && i <= j < |states| && NotEnded(states[i], a, t) && states[i].calls[a].terminal.Some?
    ensures a in states[j].calls && states[j].calls[a].terminal == states[i].calls[a].terminal
    ensures t in states[j].calls[a].threads ==> EndsWith(states[j].calls[a].threads[t].pc, states[i].calls[a].terminal)
  {
    if i < j {
      EndedOnRecord(states, i, j - 1, a, t);
      FollowStep(states, j, a);
    }
  }

  /** A receipt is stored only after the WorkItem is terminal, unless the browser answered a call it was not sent. */
  lemma TerminalAfterWorkItem(states: seq<State>, i: nat, a: Nonce)
    requires Run(states) && i < |states| && a in states[i].calls && states[i].calls[a].terminal.Some?
    ensures Owned(states[i], a, states[i].calls[a].digest)
    ensures Done(states[i], states[i].calls[a].digest) || states[i].calls[a].unsolicited
    ensures TerminalShape(states[i].calls[a].terminal.value)
  {
    RunInv(states, i);
    var s := states[i];
    var c := s.calls[a];
    assert RecordOk(c, Owned(s, a, c.digest), Done(s, c.digest));
  }

  /** Whatever `_completed` answers for a digest is the terminal receipt of the call that owns its fence. */
  lemma CacheIsTerminal(states: seq<State>, i: nat, d: Digest)
    requires Run(states) && i < |states| && Recall(states[i].completed, d).Some?
    ensures d in states[i].items && states[i].items[d].owner in states[i].calls
    ensures states[i].calls[states[i].items[d].owner].terminal == Recall(states[i].completed, d)
    ensures |states[i].completed| <= COMPLETED_CACHE_SIZE
  {
    RunInv(states, i);
  }

  /**
   Where the exception comes from. When the engine has answered and the receipt is
   about to be stored, the WorkItem is still open if and only if it was open before,
   the call holds no claim and the outcome is not a cancellation; in every reachable
   state that takes an answer to a call that was not sent.
   */
  lemma OpenStoreExactly(states: seq<State>, i: nat, a: Nonce, t: Tid, ok: bool)
    requires Run(states) && i < |states| && CanCall(states[i], CommitOutcome(a, t, ok))
    requires var s' := AfterOutcome(states[i], a, t, ok); At(s', a, t) && AtStore(PcOf(s', a, t))
    ensures var s := states[i]; var s' := AfterOutcome(s, a, t, ok); var c := s.calls[a];
      && (!Done(s', c.digest) <==> !Done(s, c.digest) && !c.claim && PcOf(s, a, t).outcome.status != Cancelled)
      && (!Done(s', c.digest) ==> c.unsolicited && !c.dispatched)
  {
    RunInv(states, i);
    var s := states[i];
    var c := s.calls[a];
    assert ThreadOk(c, t, c.threads[t], Owned(s, a, c.digest), Done(s, c.digest));
    assert RecordOk(c, Owned(s, a, c.digest), Done(s, c.digest));
  }

  // ---------- the cancel / dispatch race ----------

  /**
   Once a call has a `cancelled` terminal receipt, every delivered message of its
   digest - before or after that moment - was acknowledged by the browser with
   effect `none`; without such an acknowledgement nothing was and nothing is sent.
   */
  lemma CancelledMeansNoEffect(states: seq<State>, i: nat, j: nat, a: Nonce, k: nat)
    requires Run(states) && i <= j < |states| && a in states[i].calls
    requires states[i].calls[a].terminal.Some? && states[i].calls[a].terminal.value.status == Cancelled
    requires k < |states[j].log| && states[j].log[k].digest == states[i].calls[a].digest
    ensures a in states[j].calls && states[j].log[k].call == a
    ensures states[j].calls[a].cancelAck == Some(NoEffect)
  {
    TerminalIsFinal(states, i, j, a);
    TerminalAfterWorkItem(states, j, a);
    RunInv(states, j);
    var s := states[j];
    SenderOwnsFence(s, k);
    assert EntryOk(s, s.log[k]);
    assert RecordOk(s.calls[a], Owned(s, a, s.calls[a].digest), Done(s, s.calls[a].digest));
  }

  // ---------- the revocation barrier ----------

  /**
   After revoke_lease returned normally, no `control.call` is delivered under
   that lease again, wherever its calls were. The only exception the code leaves
   is a call the browser answered before it was sent.
   */
  lemma {:induction false} RevocationBarrier(states: seq<State>, i: nat, j: nat, l: LeaseId, k: nat)
    requires Run(states) && i <= j < |states| && l in states[i].returned
    requires |states[i].log| <= k < |states[j].log| && states[j].log[k].lease == l
    ensures states[j].log[k].call in states[j].calls && states[j].calls[states[j].log[k].call].unsolicited
    decreases j
  {
    LogOnlyGrows(states, i, j - 1);
    RunStep(states, j);
    if k < |states[j - 1].log| {
      LogOnlyGrows(states, j - 1, j);
      RevocationBarrier(states, i, j - 1, l, k);
      TerminalIsFinal(states, j - 1, j, states[j].log[k].call);
    } else {
      BarredSend(states[j - 1], states[j], l);
    }
  }

  /** A message that leaves under a barred lease. */
  lemma BarredSend(s: State, s': State, l: LeaseId)
    requires Inv(s) && LogStep(s, s') && l in s.returned && |s'.log| > |s.log|
    ensures |s'.log| == |s.log| + 1
    ensures s'.log[|s.log|].lease == l ==>
      s'.log[|s.log|].call in s'.calls && s'.calls[s'.log[|s.log|].call].unsolicited
  {
    var a :| CanCall(s, Deliver(a)) && s' == AfterDeliver(s, a);
    if s.calls[a].lease == l {
      BarredDelivery(s, a, l);
    }
  }

  lemma BarredDelivery(s: State, a: Nonce, l: LeaseId)
    requires Inv(s) && CanCall(s, Deliver(a)) && l in s.returned && s.calls[a].lease == l
    ensures s.calls[a].unsolicited
  {
    var c := s.calls[a];
    assert ThreadOk(c, MAIN, c.threads[MAIN], Owned(s, a, c.digest), Done(s, c.digest));
    assert Barred(s, l, {});
  }

  /** The browser only answers calls it was sent. */
  ghost predicate OnlyAnswersCalls(s: State) {
    forall a :: a in s.calls ==> !s.calls[a].unsolicited
  }

  /** With a browser that only answers calls it was sent, the barrier has no exception. */
  lemma RevokedMeansSilent(states: seq<State>, i: nat, j: nat, l: LeaseId)
    requires Run(states) && i <= j < |states| && l in states[i].returned && OnlyAnswersCalls(states[j])
    ensures forall k :: |states[i].log| <= k < |states[j].log| ==> states[j].log[k].lease != l
  {
    forall k | |states[i].log| <= k < |states[j].log| && states[j].log[k].lease == l
      ensures false
    {
      RevocationBarrier(states, i, j, l, k);
    }
  }

  // ---------- authority at the send ----------

  /**
   Every delivered call had an exact-digest policy receipt, the browser's exact
   confirmation if it mutates, the open current channel of its document, and a
   clock before every expiry that bounds it.
   */
  lemma SendAuthority(states: seq<State>, i: nat, k: nat)
    requires Run(states) && i < |states| && k < |states[i].log|
    ensures var s := states[i]; var e := s.log[k];
      && e.call in s.calls && e.lease in s.leases && e.open
      && s.calls[e.call].allowed && s.calls[e.call].policyReceipt == Some(e.digest)
      && (s.calls[e.call].mutates ==> s.calls[e.call].confirmedBy == Some(Confirmation(s.calls[e.call].policyRef, e.digest)))
      && var l := s.leases[e.lease];
      && e.checkedAt < l.expires && e.checkedAt < l.hard && e.checkedAt < l.arm && e.checkedAt < l.token
      && e.checkedAt < l.issued + DEFAULT_LEASE_SECONDS
  {
    RunInv(states, i);
    var s := states[i];
    var e := s.log[k];
    assert EntryOk(s, e);
    var c := s.calls[e.call];
    assert RecordOk(c, Owned(s, e.call, c.digest), Done(s, c.digest));
    assert LeaseOk(s.leases[e.lease]);
  }
}
