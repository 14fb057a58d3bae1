/**
 The decisions of the call machine that its safety leaves open: who goes on, what an
 uncertain call is reported as, and that nobody is forgotten.
 */
module CallDecisions {
  import opened Common
  import opened CallState
  import opened CallInvariant
  import opened CallMachine
  import opened CallSafety
  import opened CallRevoke
  import opened CallReceipts

  // ---------- admission ----------

  /**
   In every reachable state: execute_call goes on past the fence if and only if the row
   names its own admission - whether it created it now, or an attempt whose reply was
   lost did; any other call is answered as a replay. The abort task goes on likewise.
   */
  lemma OwnerGoesOn(states: seq<State>, i: nat, a: Nonce, t: Tid)
    requires Run(states) && i < |states| && CanCall(states[i], ReplyFence(a, t))
    ensures var s := states[i]; var pc := AfterReply(s, a, t).calls[a].threads[t].pc; var own := s.items[s.calls[a].digest].owner == a;
      if PcOf(s, a, t).Admit? then pc == (if own then Admit(PendingAudit) else End(Replayed))
      else pc == (if own then Aborting(AbortRegister) else End(Stopped))
  {
    RunInv(states, i);
    var s := states[i];
    var c := s.calls[a];
    assert ThreadOk(c, t, c.threads[t], Owned(s, a, c.digest), Done(s, c.digest));
  }

  /** A call the policy did not allow for exactly its digest is denied at once; any other goes on to its fence. */
  lemma DeniedAtOnce(s: State, a: Nonce, c: Call)
    requires CanCall(s, Begin(a, c))
    ensures var s' := AfterCall(s, Begin(a, c)); var pc := s'.calls[a].threads[MAIN].pc;
      if c.allowed && c.policyReceipt == Some(c.digest) then CanCall(s', SubmitFence(a, MAIN)) && pc.Admit?
      else pc.End? && pc.end.Returned? && pc.end.receipt.status == Denied && pc.end.receipt.effect == NoEffect
  {
  }

  /** The owner enters the active calls, to be confirmed first if it mutates. */
  lemma EntersTheActiveCalls(s: State, a: Nonce)
    requires CanCall(s, RegisterCall(a, MAIN)) && PcOf(s, a, MAIN).Admit?
    ensures var c := s.calls[a]; var s' := AfterRegister(s, a, MAIN);
      s'.registry == s.registry[c.digest := a] && s'.calls[a].threads[MAIN].pc == Admit(if c.mutates then ConfirmSend else LeaseRead)
  {
  }

  /** An abort enters the call, marked as timed out, to be cancelled, and displaces nobody. */
  lemma AbortEnters(s: State, a: Nonce, t: Tid)
    requires CanCall(s, RegisterCall(a, t)) && PcOf(s, a, t).Aborting?
    ensures var c := s.calls[a]; var s' := AfterRegister(s, a, t);
      && s'.calls[a].threads[t].pc == Cancelling(CancelEntry) && s'.calls[a].timedOut
      && s'.registry == if c.digest in s.registry then s.registry else s.registry[c.digest := a]
  {
  }

  /** Whatever fails or interrupts execute_call before it is in the active calls hands over to an abort task that first learns whose fence it is. */
  lemma AbortTakesOver(c: Call, t: Tid, u: Tid, op: Op)
    requires Enabled(c, t, u, op) && t == MAIN && c.threads[t].pc.Admit? && (op.Interrupt? || (op.Fail? && !Admitted(c.threads[t].pc)))
    ensures var d := Apply(c, t, u, op); var was := c.threads[t].pc;
      && d.threads[t].pc == End(Raised) && u in d.threads && d.threads[u].kind == Abort
      && (Fencing(was) ==> d.threads[u].pc.Aborting? && Fencing(d.threads[u].pc))
      && (!Fencing(was) ==> d.threads[u].pc == Aborting(AbortRegister))
  {
  }

  /** Confirmation is waited for until it arrives. */
  lemma ConfirmationArrives(c: Call, u: Tid)
    requires MAIN in c.threads && u !in c.threads && u != MAIN && c.terminal.None? && c.threads[MAIN].pc == Admit(ConfirmWait)
    ensures Enabled(c, MAIN, u, ConfirmArrived) <==> c.confirmedBy.Some?
    ensures c.confirmedBy.Some? ==> Apply(c, MAIN, u, ConfirmArrived).threads[MAIN].pc == Admit(ConfirmAuditLock)
  {
  }

  /** Then it is audited, and the authority is read afresh. */
  lemma ConfirmationIsAudited(c: Call, u: Tid)
    requires MAIN in c.threads && u !in c.threads && u != MAIN && c.terminal.None?
    ensures c.threads[MAIN].pc == Admit(ConfirmAuditLock) && c.finalizeLock.None? ==>
      Enabled(c, MAIN, u, AuditEnter) && Apply(c, MAIN, u, AuditEnter).threads[MAIN].pc == Admit(ConfirmAudit)
    ensures c.threads[MAIN].pc == Admit(ConfirmAudit) ==>
      Enabled(c, MAIN, u, AuditDone) && Apply(c, MAIN, u, AuditDone).threads[MAIN].pc == Admit(LeaseRead)
  {
  }

  // ---------- the send ----------

  lemma SendPlanDecides(s: State, c: Call, deadline: real)
    requires c.claim
    ensures var pc := SendPlan(s, c, deadline).pc; var clear := !c.cancelRequested && c.terminal.None?;
      && (InSend(pc) <==> clear && Open(s, c.channel) && s.clock < deadline)
      && (c.terminal.Some? ==> pc == End(Returned(c.terminal.value, c.terminal)))
      && (c.terminal.None? && c.cancelRequested ==> Finalizes(pc) && pc.outcome.status == Cancelled && pc.outcome.effect == NoEffect)
      && (clear && !InSend(pc) ==> Finalizes(pc) && pc.outcome.status == Unknown && pc.outcome.error == ChannelUnavailable)
  {
  }

  /**
   Under both locks the call is sent if and only if no cancellation is flagged, no
   receipt is stored, the channel is the open one of its document and the deadline has
   not passed; a stored receipt is returned, a flagged call is cancelled without effect,
   and with the channel or the time gone the outcome is unknown, the WorkItem being claimed.
   */
  lemma SendsExactly(states: seq<State>, i: nat, a: Nonce)
    requires Run(states) && i < |states| && CanCall(states[i], EnterSend(a))
    ensures var s := states[i]; var c := s.calls[a]; var pc := AfterEnterSend(s, a).calls[a].threads[MAIN].pc;
      var clear := !c.cancelRequested && c.terminal.None?;
      && (InSend(pc) <==> clear && Open(s, c.channel) && s.clock < PcOf(s, a, MAIN).risk.deadline)
      && (c.terminal.Some? ==> pc == End(Returned(c.terminal.value, c.terminal)))
      && (c.terminal.None? && c.cancelRequested ==> Finalizes(pc) && pc.outcome.status == Cancelled && pc.outcome.effect == NoEffect)
      && (clear && !InSend(pc) ==> Finalizes(pc) && pc.outcome.status == Unknown && pc.outcome.error == ChannelUnavailable)
  {
    ClaimedBeforeSend(states, i, a);
    SendPlanDecides(states[i], states[i].calls[a], PcOf(states[i], a, MAIN).risk.deadline);
  }

  lemma ClaimedBeforeSend(states: seq<State>, i: nat, a: Nonce)
    requires Run(states) && i < |states| && CanCall(states[i], EnterSend(a))
    ensures states[i].calls[a].claim
  {
    RunInv(states, i);
    var s := states[i];
    var c := s.calls[a];
    assert ThreadOk(c, MAIN, c.threads[MAIN], Owned(s, a, c.digest), Done(s, c.digest));
  }

  /** A send that raises or is interrupted delivers nothing and frees both locks; an interrupted one is aborted, a failed one is reported. */
  lemma SendFailureIsReported(s: State, a: Nonce, u: Tid, op: Op)
    requires CanCall(s, FailSend(a, u, op)) && s.calls[a].claim && u != MAIN
    ensures var s' := AfterFailSend(s, a, u, op); var d := s'.calls[a]; var pc := d.threads[MAIN].pc;
      && s'.log == s.log && s'.serviceLock.None? && !d.dispatchLock && d.dispatched == s.calls[a].dispatched
      && (op.Interrupt? ==> pc == End(Raised) && u in d.threads && d.threads[u] == Thread(Abort, Aborting(AbortRegister)))
      && (op.Fail? && op.timeout ==> pc == Cancelling(CancelEntry) && d.timedOut)
      && (op.Fail? && !op.timeout ==> Finalizes(pc) && pc.outcome.status == Unknown && pc.outcome.effect == UncertainEffect)
  {
  }

  /** A failure of an admitted call: a timeout cancels it, a claimed call is unknown, an unclaimed one is cancelled without effect. */
  lemma FailureIsReported(c: Call, t: Tid, u: Tid, timeout: bool)
    requires Enabled(c, t, u, Fail(timeout)) && Admitted(c.threads[t].pc)
    ensures var d := Apply(c, t, u, Fail(timeout)); var pc := d.threads[t].pc;
      && (timeout ==> pc == Cancelling(CancelEntry) && d.timedOut)
      && (!timeout ==> Finalizes(pc) && pc.outcome.result.None?)
      && (!timeout && c.claim ==> pc.outcome.status == Unknown && pc.outcome.effect == UncertainEffect && pc.outcome.error == ChannelUnavailable)
      && (!timeout && !c.claim ==> pc.outcome.status == Cancelled && pc.outcome.effect == NoEffect && pc.outcome.error == NotDispatched)
  {
  }

  /** A granted claim is kept and goes on, unless a cancellation is flagged; without a claim the call returns its receipt or is unknown. */
  lemma ClaimIsTaken(c: Call, t: Tid, u: Tid)
    requires Enabled(c, t, u, ClaimResume)
    ensures var d := Apply(c, t, u, ClaimResume); var pc := d.threads[t].pc; var granted := c.threads[t].pc.risk.granted;
      && (d.claim <==> c.claim || granted)
      && (granted && !c.cancelRequested ==> pc == Risk(Revalidate(c.threads[t].pc.risk.deadline)))
      && (granted && c.cancelRequested ==> Finalizes(pc) && pc.outcome.status == Cancelled && pc.outcome.effect == NoEffect)
      && (!granted && c.terminal.Some? ==> pc == End(Returned(c.terminal.value, c.terminal)))
      && (!granted && c.terminal.None? ==> Finalizes(pc) && pc.outcome.status == Unknown && pc.outcome.error == FenceUnavailable)
  {
  }

  // ---------- cancellation ----------

  /** The flag is set under the dispatch lock; a call that was sent is asked about, one that was not is cancelled without effect. */
  lemma CancelFlags(c: Call, t: Tid, u: Tid)
    requires Enabled(c, t, u, CancelFlag) && c.result.None?
    ensures var d := Apply(c, t, u, CancelFlag); var pc := d.threads[t].pc;
      && d.cancelRequested
      && (c.dispatched ==> pc == Cancelling(CancelAsk))
      && (!c.dispatched ==> Finalizes(pc) && pc.outcome.status == Cancelled && pc.outcome.effect == NoEffect)
  {
  }

  /**
   A cancellation or reconciliation of a call whose receipt is cached returns that
   receipt, once its authority is confirmed; otherwise it turns to the active call.
   */
  lemma CachedIsReturned(s: State, a: Nonce, u: Tid, w: Tid, step: OutsideStep)
    requires step == StartCancel(a, u) || step == StartReconcile(a, u)
    requires CanOutside(s, step) && w != u && w != MAIN && w !in s.calls[a].threads
    ensures var c := AfterOutside(s, step).calls[a]; var cached := Recall(s.completed, s.calls[a].digest);
      && Enabled(c, u, w, ContextDone)
      && var pc := Apply(c, u, w, ContextDone).threads[u].pc;
         && (cached.Some? ==> pc.End? && pc.end.Returned? && pc.end.receipt == cached.value)
         && (cached.None? && step.StartCancel? ==> pc == Cancelling(CancelEntry))
         && (cached.None? && step.StartReconcile? ==> Finalizes(pc) || (pc.End? && pc.end.Snapshot?))
  {
  }

  /** The first acknowledgement of the browser counts. */
  lemma FirstAcknowledgementStays(c: Call, e: Effect)
    ensures Acked(c, e).cancelAck == if c.cancelAck.Some? then c.cancelAck else Some(e)
  {
  }

  /** A reconciliation without an answer reports what is known: unknown after a timeout, dispatched before. */
  lemma SnapshotIsReported(c: Call, t: Tid, u: Tid)
    requires Enabled(c, t, u, ContextDone) && c.threads[t].pc.context.ReconcileContext? && c.result.None?
    ensures var pc := Apply(c, t, u, ContextDone).threads[t].pc;
      && pc.End? && pc.end.Snapshot? && pc.end.receipt.effect == UncertainEffect && pc.end.receipt.result.None?
      && pc.end.receipt.status == if c.timedOut then Unknown else Dispatched
  {
  }

  // ---------- outcomes that stay open ----------

  /** A finalization that fails, is interrupted, or ends unknown leaves the call, marked as timed out, to the reaper. */
  lemma LeftToTheReaper(c: Call, t: Tid, u: Tid, op: Op)
    requires Enabled(c, t, u, op) && InFinalize(c.threads[t].pc)
    requires op.Fail? || op.Interrupt? || op.FinalizeAgainDone?
    ensures Apply(c, t, u, op).timedOut
    ensures op.Fail? ==> var pc := Apply(c, t, u, op).threads[t].pc;
      pc.End? && pc.end.Returned? && pc.end.receipt.status == Unknown && pc.end.receipt.error == OutcomeUnavailable
    ensures op.FinalizeAgainDone? ==> Apply(c, t, u, op).threads[t].pc == End(Returned(c.threads[t].pc.outcome, c.terminal))
  {
  }

  lemma UnknownIsNotStored(s: State, a: Nonce, t: Tid, ok: bool)
    requires CanCall(s, CommitOutcome(a, t, ok)) && PcOf(s, a, t).outcome.status == Unknown
    requires PcOf(s, a, t).outcome.error != CommitUnavailable && PcOf(s, a, t).outcome.error != CancelUnavailable
    ensures var c := AfterOutcome(s, a, t, ok).calls[a];
      c.timedOut && c.terminal == s.calls[a].terminal && c.threads[t].pc == End(Returned(PcOf(s, a, t).outcome, s.calls[a].terminal))
  {
  }

  lemma EngineAnswers(c: Call, i: ItemStatus, r: Receipt, ok: bool)
    requires r.status != Unknown && r.error != CommitUnavailable && r.error != CancelUnavailable
    ensures var asked := c.claim || r.status == Cancelled; var status := EngineResult(c, i, r, ok).0; var pc := OutcomeMove(c, EngineResult(c, i, r, ok).1).pc;
      && (!asked || ok ==> pc == Finalizing(FinalStore, r))
      && (asked && !ok ==>
            pc.Finalizing? && pc.phase.FinalAuditAgain? && pc.outcome.status == Unknown && pc.outcome.result == r.result
            && (c.claim ==> pc.outcome.effect == r.effect && pc.outcome.error == CommitUnavailable)
            && (!c.claim ==> pc.outcome.effect == UncertainEffect && pc.outcome.error == CancelUnavailable))
      && (asked && ok && !c.claim ==> status == ItemCancelled)
      && (!(asked && ok) ==> status == i)
  {
  }

  /**
   What the engine decides: the outcome goes on to be stored unless the engine was
   asked and refused; then it is unknown, and the WorkItem is left as it was.
   */
  lemma EngineDecides(s: State, a: Nonce, t: Tid, ok: bool)
    requires CanCall(s, CommitOutcome(a, t, ok)) && PcOf(s, a, t).outcome.status != Unknown
    requires PcOf(s, a, t).outcome.error != CommitUnavailable && PcOf(s, a, t).outcome.error != CancelUnavailable
    ensures var c := s.calls[a]; var r := PcOf(s, a, t).outcome; var s' := AfterOutcome(s, a, t, ok); var pc := s'.calls[a].threads[t].pc;
      var asked := c.claim || r.status == Cancelled;
      && (!asked || ok ==> pc == Finalizing(FinalStore, r))
      && (asked && !ok ==> pc.Finalizing? && pc.phase.FinalAuditAgain? && pc.outcome.status == Unknown && pc.outcome.result == r.result)
      && (asked && ok && !c.claim ==> s'.items[c.digest].status == ItemCancelled)
      && (!(asked && ok) ==> s'.items[c.digest].status == s.items[c.digest].status)
  {
    EngineAnswers(s.calls[a], s.items[s.calls[a].digest].status, PcOf(s, a, t).outcome, ok);
  }

  /** The reaper acts on the registered call itself, timed out and unsettled, and on no other. */
  lemma ReaperEnters(s: State, a: Nonce, t: Tid, u: Tid, mine: bool)
    requires CanCall(s, Local(a, t, u, ReapEnter(mine)))
    ensures var c := s.calls[a]; var pc := AfterCall(s, Local(a, t, u, ReapEnter(mine))).calls[a].threads[t].pc;
      pc == if c.terminal.None? && c.timedOut && Registered(s, a) then Reaping(ReapAudit) else End(Stopped)
  {
  }

  /** When it fails it lets go of the lock and starts over, so the call is not given up. */
  lemma ReaperTriesAgain(c: Call, t: Tid, u: Tid, timeout: bool)
    requires Enabled(c, t, u, Fail(timeout)) && c.threads[t].pc.Reaping? && c.finalizeLock == Some(t)
    ensures var d := Apply(c, t, u, Fail(timeout)); d.threads[t].pc == Reaping(ReapLock) && d.finalizeLock.None? && d.terminal == c.terminal
  {
  }

  /** It closes an open WorkItem: as failed if the call had claimed it, as cancelled otherwise; a closed one it leaves. */
  lemma ReaperCloses(s: State, a: Nonce, t: Tid)
    requires CanCall(s, CommitReap(a, t))
    ensures var c := s.calls[a]; var was := s.items[c.digest].status; var now := AfterReap(s, a, t).items[c.digest].status;
      && (Closed(was) ==> now == was)
      && (!Closed(was) ==> now == if c.claim then ItemFailed else ItemCancelled)
      && AfterReap(s, a, t).calls[a].threads[t].pc == Reaping(ReapStore)
  {
  }

  /** And stores an unknown receipt with uncertain effect. */
  lemma ReaperStores(s: State, a: Nonce, t: Tid)
    requires CanCall(s, StoreTerminal(a, t)) && PcOf(s, a, t).Reaping?
    ensures var r := AfterStore(s, a, t).calls[a].terminal;
      r.Some? && r.value.status == Unknown && r.value.effect == UncertainEffect && r.value.result.None? && r.value.error == WindowExpired
  {
  }

  /** A stored receipt takes the call out of the active calls, and leaves the others in. */
  lemma StoringUnregisters(s: State, a: Nonce, t: Tid)
    requires CanCall(s, StoreTerminal(a, t))
    ensures var s' := AfterStore(s, a, t); var d := s.calls[a].digest;
      d !in s'.registry && forall e :: e in s.registry && e != d ==> e in s'.registry && s'.registry[e] == s.registry[e]
  {
  }

  // ---------- the completed cache ----------

  /** The newest entry of the cache is the receipt just stored. */
  lemma RemembersNewest(cache: seq<(Digest, Receipt)>, d: Digest, r: Receipt)
    ensures var c := Remember(cache, d, r); c != [] && c[|c| - 1] == (d, r)
  {
  }

  /** The entries of other calls, in their order. */
  function OthersOf(cache: seq<(Digest, Receipt)>, d: Digest): seq<(Digest, Receipt)> {
    if cache == [] then []
    else
      var front := OthersOf(cache[..|cache| - 1], d);
      if cache[|cache| - 1].0 == d then front else front + [cache[|cache| - 1]]
  }

  lemma {:induction false} WithoutConcat(a: seq<(Digest, Receipt)>, b: seq<(Digest, Receipt)>, d: Digest)
    ensures Without(a + b, d) == Without(a, d) + Without(b, d)
  {
    if a == [] {
      assert a + b == b;
    } else {
      assert (a + b)[1..] == a[1..] + b;
      WithoutConcat(a[1..], b, d);
    }
  }

  lemma {:induction false} WithoutIsOthers(cache: seq<(Digest, Receipt)>, d: Digest)
    ensures Without(cache, d) == OthersOf(cache, d)
  {
    if cache != [] {
      var n := |cache| - 1;
      WithoutIsOthers(cache[..n], d);
      WithoutConcat(cache[..n], [cache[n]], d);
      assert cache == cache[..n] + [cache[n]];
    }
  }

  /** Only the oldest entries above 256 are dropped. */
  lemma RemembersRecent(cache: seq<(Digest, Receipt)>, d: Digest, r: Receipt)
    ensures var all := OthersOf(cache, d) + [(d, r)];
      Remember(cache, d, r) == if |all| <= 256 then all else all[|all| - 256..]
  {
    WithoutIsOthers(cache, d);
  }

  /** A digest is found in the cache if and only if an entry bears it. */
  lemma {:induction false} RecallExactly(cache: seq<(Digest, Receipt)>, d: Digest)
    ensures Recall(cache, d).Some? <==> exists i :: 0 <= i < |cache| && cache[i].0 == d
  {
    if cache != [] && cache[0].0 != d {
      RecallExactly(cache[1..], d);
      if i :| 0 <= i < |cache[1..]| && cache[1..][i].0 == d {
        assert cache[i + 1].0 == d;
      }
      if i :| 0 <= i < |cache| && cache[i].0 == d {
        assert i > 0 && cache[1..][i - 1].0 == d;
      }
    }
  }

  // ---------- revocation ----------

  /** An active lease is revoked if it has not expired, and marked expired if it has; any other goes straight to its calls. */
  lemma RevocationReads(s: State, r: nat)
    requires CanRevoke(s, RevokerReads(r))
    ensures var l := s.revokers[r].lease; var v := AfterRevoke(s, RevokerReads(r)).revokers[r];
      && (s.leases[l].status != Active ==> v == RevokeScan(l))
      && (s.leases[l].status == Active ==> v == if s.clock < s.leases[l].expires then RevokeCas(l) else RevokeExpire(l))
  {
  }

  /** The compare-and-set succeeds only on an active lease; a revocation that loses it raises, an expiry goes on. */
  lemma RevocationSwaps(s: State, r: nat)
    requires CanRevoke(s, RevokerSwaps(r))
    ensures var v := s.revokers[r]; var l := v.lease; var s' := AfterRevoke(s, RevokerSwaps(r)); var active := s.leases[l].status == Active;
      && s'.leases[l].status == (if !active then s.leases[l].status else if v.RevokeCas? then Revoked else Expired)
      && s'.revokers[r] == (if v.RevokeCas? && !active then RevokeOver else RevokeScan(l))
      && forall k :: k in s.leases && k != l ==> s'.leases[k] == s.leases[k]
  {
  }

  /** Then exactly the active calls of the lease are cancelled, one after the other, before it returns. */
  lemma RevocationScans(s: State, r: nat)
    requires CanRevoke(s, RevokerScans(r))
    ensures var l := s.revokers[r].lease; var v := AfterRevoke(s, RevokerScans(r)).revokers[r];
      && v.RevokeLoop? && v.lease == l && v.waiting.None?
      && forall a :: a in v.todo <==> a in s.calls && s.calls[a].digest in s.registry && s.registry[s.calls[a].digest] == a && s.calls[a].lease == l
  {
  }

  /** A channel that closes is no longer the open one of its document. */
  lemma ClosedIsNotOpen(s: State, ch: ChannelId)
    requires ch in s.channels
    ensures !Open(AfterClose(s, ch), ch)
    ensures var doc := s.channels[ch].document; doc in s.documents && s.documents[doc] == ch ==> doc !in AfterClose(s, ch).documents
    ensures forall x :: x != ch && Open(s, x) ==> Open(AfterClose(s, ch), x)
  {
  }
}
