/**
 What every step that touches only one call keeps.

 `owned` says that the durable fence row of the call's digest carries this call's
 admission reference; `done` says that the row's WorkItem is terminal.
 */
module CallInvariant {
  import opened Common
  import opened CallState

  /**
   A `cancelled` outcome is safe when the call message was not sent and can no
   longer be sent, or when it was sent and the browser acknowledged no effect.
   */
  predicate SafeCancel(c: Call) {
    if c.dispatched then c.cancelAck == Some(NoEffect)
    else c.cancelRequested || !MayYetSend(c)
  }

  predicate OutcomeOk(c: Call, r: Receipt) {
    && (r.status == Cancelled ==> SafeCancel(c))
    && (r.status == Succeeded || r.status == Failed ==> c.dispatched || c.unsolicited)
    && (r.status == Succeeded || r.status == Failed || r.status == Cancelled || r.status == Unknown)
  }

  /** What a stored terminal receipt looks like. */
  predicate TerminalShape(r: Receipt) {
    r == REAPED || r.status == Succeeded || r.status == Failed || r.status == Cancelled
  }

  predicate LocksOk(c: Call, t: Tid, pc: Pc) {
    && (MainOnly(pc) ==> t == MAIN)
    && (HoldsFinalize(pc) ==> c.finalizeLock == Some(t) && c.terminal.None?)
    && (HoldsDispatch(pc) ==> c.dispatchLock)
  }

  predicate SendPathOk(c: Call, pc: Pc) {
    && (BeforeSend(pc) ==> !c.dispatched)
    && (AfterConfirmation(pc) ==> ConfirmedIfNeeded(c))
    && (Granted(pc) ==> c.claim)
    && (InSend(pc) ==> !c.cancelRequested && c.terminal.None?)
  }

  predicate OutcomePathOk(c: Call, pc: Pc, done: bool) {
    && (pc.Finalizing? ==> OutcomeOk(c, pc.outcome))
    && (pc.Finalizing? && pc.phase.FinalStore? ==> pc.outcome.status != Unknown && (done || c.unsolicited))
    && (pc.Finalizing? && pc.phase.FinalAuditAgain? ==> pc.outcome.status == Unknown)
    && (pc.Finalizing? && !pc.phase.FinalAuditAgain? ==>
          pc.outcome.error != CommitUnavailable && pc.outcome.error != CancelUnavailable)
    && (pc.Reaping? && pc.reap.ReapStore? ==> done)
  }

  predicate AnswerOk(c: Call, pc: Pc) {
    && (pc.Context? && pc.context.CachedContext? ==> c.terminal == Some(pc.context.cached))
    && (pc.End? ==>
          match pc.end
          case Returned(r, Some(x)) => c.terminal == Some(x) && r == x
          case Snapshot(r, Some(x)) => c.terminal == Some(x) && r != x
          case _ => true)
  }

  predicate ThreadOk(c: Call, t: Tid, th: Thread, owned: bool, done: bool) {
    && (!th.pc.End? && !Fencing(th.pc) ==> owned)
    && (th.pc.Admit? && th.pc.admit.FenceRead? && th.pc.admit.created ==> owned)
    && (th.pc.Aborting? && th.pc.abort.AbortRead? && th.pc.abort.created ==> owned)
    && (!th.pc.End? ==> Authorized(c))
    && LocksOk(c, t, th.pc)
    && SendPathOk(c, th.pc)
    && OutcomePathOk(c, th.pc, done)
    && AnswerOk(c, th.pc)
    && (MainOnly(th.pc) ==> th.kind == Execute)
    && (th.pc.Aborting? ==> t != MAIN)
    && (th.pc == Cancelling(CancelAsk) ==> c.dispatched)
    && (th.kind == Cancel && AfterFlag(th.pc) ==> c.cancelRequested || c.result.Some? || c.terminal.Some?)
  }

  predicate RecordOk(c: Call, owned: bool, done: bool) {
    && (owned ==> Authorized(c))
    && (c.dispatched ==> c.claim && owned && ConfirmedIfNeeded(c))
    && (c.result.Some? || c.cancelAck.Some? ==> c.dispatched || c.unsolicited)
    && (c.confirmedBy.Some? ==> c.confirmedBy.value == Confirmation(c.policyRef, c.digest))
    && (c.terminal.Some? ==>
          && owned
          && (done || c.unsolicited)
          && TerminalShape(c.terminal.value)
          && (c.terminal.value.status == Cancelled ==> SafeCancel(c)))
  }

  ghost predicate CallInv(c: Call, owned: bool, done: bool) {
    && RecordOk(c, owned, done)
    && (forall t :: t in c.threads ==> ThreadOk(c, t, c.threads[t], owned, done))
  }

  /** What no step on a single call may change, and what may only grow. */
  ghost predicate Evolves(c: Call, d: Call) {
    && d.digest == c.digest && d.lease == c.lease && d.channel == c.channel
    && d.mutates == c.mutates && d.policyRef == c.policyRef
    && d.allowed == c.allowed && d.policyReceipt == c.policyReceipt
    && (c.terminal.Some? ==> d.terminal == c.terminal)
    && (c.dispatched ==> d.dispatched)
    && (c.claim ==> d.claim)
    && (c.cancelRequested ==> d.cancelRequested)
    && (c.unsolicited ==> d.unsolicited)
    && (c.result.Some? ==> d.result.Some?)
    && (c.confirmedBy.Some? ==> d.confirmedBy == c.confirmedBy)
    && (MayYetSend(d) ==> MayYetSend(c))
    && (c.threads == map[] ==> d.threads == map[])
    && (forall t :: t in d.threads && t !in c.threads ==> !d.threads[t].pc.End?)
    && (forall t :: t in c.threads ==>
          t in d.threads && d.threads[t].kind == c.threads[t].kind
          && (c.threads[t].pc.End? ==> d.threads[t] == c.threads[t])
          && (!c.threads[t].pc.End? && c.terminal.Some? ==> EndsWith(d.threads[t].pc, c.terminal)))
  }

  /** A thread that ends now ends with the terminal receipt of this moment on record. */
  predicate EndsWith(pc: Pc, terminal: Option<Receipt>) {
    pc.End? ==>
      match pc.end
      case Returned(_, settled) => settled == terminal
      case Snapshot(_, settled) => settled == terminal
      case _ => true
  }

  /** A step that does not move the call further along the part after the lease read. */
  ghost predicate RiskCalm(c: Call, d: Call) {
    && (AtRisk(d) ==> AtRisk(c) && DeadlineOf(d.threads[MAIN].pc.risk) == DeadlineOf(c.threads[MAIN].pc.risk))
    && (AtRisk(d) && InSend(d.threads[MAIN].pc) ==> d.threads[MAIN].pc == c.threads[MAIN].pc)
  }

  /** A step that does not bring the call closer to its send. */
  ghost predicate Calm(c: Call, d: Call) {
    Evolves(c, d) && RiskCalm(c, d) && (OnSendPath(d) ==> OnSendPath(c))
  }

  /** A step that learns nothing from the browser, sends nothing and settles nothing. */
  ghost predicate Steady(c: Call, d: Call) {
    && Evolves(c, d)
    && d.terminal == c.terminal && d.dispatched == c.dispatched && d.unsolicited == c.unsolicited
    && d.result == c.result && d.cancelAck == c.cancelAck && d.confirmedBy == c.confirmedBy
  }

  /**
   The sound moves: nobody climbs back before the send, locks change hands only
   at their owner, and flags only grow.
   */
  predicate SoundMove(c: Call, t: Tid, pc: Pc, m: Move) {
    && !pc.End?
    && EndsWith(m.pc, c.terminal)
    && (BeforeSend(m.pc) ==> BeforeSend(pc))
    && (c.claim ==> m.claim)
    && (c.cancelRequested ==> m.cancelRequested)
    && (m.cancelRequested && !c.cancelRequested ==> !c.dispatchLock)
    && (m.finalizeLock == c.finalizeLock || c.finalizeLock == None || c.finalizeLock == Some(t))
    && (t != MAIN ==> m.dispatchLock == c.dispatchLock)
    && (m.child.Some? ==> m.child.value.pc.Aborting?)
  }

  predicate CalmMove(pc: Pc, m: Move) {
    && (PastRegister(m.pc) ==> PastRegister(pc))
    && (m.pc.Risk? ==> pc.Risk? && DeadlineOf(m.pc.risk) == DeadlineOf(pc.risk))
    && !InSend(m.pc)
  }

  lemma PlanIsSound(c: Call, t: Tid, pc: Pc, op: Op)
    requires LocksOk(c, t, pc) && Ready(c, pc, op)
    ensures SoundMove(c, t, pc, Plan(c, t, pc, op)) && CalmMove(pc, Plan(c, t, pc, op))
  {
    if !op.Fail? && !op.Interrupt? {
      if MainOnly(pc) {
        ExecuteIsSound(c, t, pc, op);
      } else {
        SettleIsSound(c, t, pc, op);
      }
    }
  }

  lemma ExecuteIsSound(c: Call, t: Tid, pc: Pc, op: Op)
    requires LocksOk(c, t, pc) && Ready(c, pc, op) && !op.Fail? && !op.Interrupt? && MainOnly(pc)
    ensures SoundMove(c, t, pc, Plan(c, t, pc, op)) && CalmMove(pc, Plan(c, t, pc, op))
  {
  }

  lemma SettleIsSound(c: Call, t: Tid, pc: Pc, op: Op)
    requires LocksOk(c, t, pc) && Ready(c, pc, op) && !op.Fail? && !op.Interrupt? && !MainOnly(pc)
    ensures SoundMove(c, t, pc, Plan(c, t, pc, op)) && CalmMove(pc, Plan(c, t, pc, op))
  {
  }

  lemma PerformIsSteady(c: Call, t: Tid, u: Tid, m: Move)
    requires t in c.threads && (m.child.Some? ==> u !in c.threads && u != MAIN)
    requires SoundMove(c, t, c.threads[t].pc, m)
    ensures Steady(c, Perform(c, t, u, m))
    ensures CalmMove(c.threads[t].pc, m) ==> Calm(c, Perform(c, t, u, m))
  {
  }

  // The invariant survives for a thread the step does not move.
  lemma BystanderKeeps(c: Call, d: Call, mover: Tid, t: Tid, th: Thread, owned: bool, done: bool)
    requires ThreadOk(c, t, th, owned, done)
    requires Steady(c, d)
    requires mover != t
    requires c.finalizeLock == Some(t) ==> d.finalizeLock == Some(t)
    requires t == MAIN ==> d.dispatchLock == c.dispatchLock
    requires d.cancelRequested && !c.cancelRequested ==> !c.dispatchLock
    ensures ThreadOk(d, t, th, owned, done)
  {
  }

  /** `d` is `c` after thread `t` made move `m`, as far as thread `t` can tell. */
  predicate Moved(c: Call, d: Call, t: Tid, m: Move) {
    && d.digest == c.digest && d.mutates == c.mutates && d.policyRef == c.policyRef
    && d.allowed == c.allowed && d.policyReceipt == c.policyReceipt
    && d.terminal == c.terminal && d.dispatched == c.dispatched && d.unsolicited == c.unsolicited
    && d.result == c.result && d.cancelAck == c.cancelAck && d.confirmedBy == c.confirmedBy
    && d.finalizeLock == m.finalizeLock && d.dispatchLock == m.dispatchLock
    && d.claim == m.claim && d.timedOut == m.timedOut && d.cancelRequested == m.cancelRequested
    && (MayYetSend(d) ==> MayYetSend(c))
    && (t == MAIN ==> MayYetSend(d) == BeforeSend(m.pc))
  }

  lemma AdmitKeepsMover(c: Call, d: Call, t: Tid, kind: Kind, pc: Pc, op: Op, owned: bool, done: bool)
    requires RecordOk(c, owned, done) && ThreadOk(c, t, Thread(kind, pc), owned, done)
    requires Ready(c, pc, op) && pc.Admit? && !op.Fail? && !op.Interrupt?
    requires Moved(c, d, t, Plan(c, t, pc, op))
    ensures ThreadOk(d, t, Thread(kind, Plan(c, t, pc, op).pc), owned, done)
  {
  }

  lemma SentKeepsMover(c: Call, d: Call, t: Tid, kind: Kind, pc: Pc, op: Op, owned: bool, done: bool)
    requires RecordOk(c, owned, done) && ThreadOk(c, t, Thread(kind, pc), owned, done)
    requires Ready(c, pc, op) && pc.Sent? && !op.Fail? && !op.Interrupt?
    requires Moved(c, d, t, Plan(c, t, pc, op))
    ensures ThreadOk(d, t, Thread(kind, Plan(c, t, pc, op).pc), owned, done)
  {
  }

  lemma DispatchKeepsMover(c: Call, d: Call, t: Tid, kind: Kind, pc: Pc, op: Op, owned: bool, done: bool)
    requires RecordOk(c, owned, done) && ThreadOk(c, t, Thread(kind, pc), owned, done)
    requires Ready(c, pc, op) && pc.Risk? && !op.Fail? && !op.Interrupt?
    requires Moved(c, d, t, Plan(c, t, pc, op))
    ensures ThreadOk(d, t, Thread(kind, Plan(c, t, pc, op).pc), owned, done)
  {
    if op.ClaimResume? {
      ClaimKeepsMover(c, d, t, kind, pc, owned, done);
    }
  }

  lemma ClaimKeepsMover(c: Call, d: Call, t: Tid, kind: Kind, pc: Pc, owned: bool, done: bool)
    requires RecordOk(c, owned, done) && ThreadOk(c, t, Thread(kind, pc), owned, done)
    requires pc.Risk? && pc.risk.ClaimReply? && Moved(c, d, t, ResumeClaim(c, pc.risk.granted, pc.risk.deadline))
    ensures ThreadOk(d, t, Thread(kind, ResumeClaim(c, pc.risk.granted, pc.risk.deadline).pc), owned, done)
  {
  }

  lemma SnapshotDiffers(c: Call, r: Receipt)
    requires c.terminal.Some? ==> TerminalShape(c.terminal.value)
    requires r.error == NoError && (r.status == Unknown || r.status == Dispatched)
    ensures c.terminal != Some(r)
  {
  }

  lemma ContextKeepsMover(c: Call, d: Call, t: Tid, kind: Kind, context: ContextPoint, owned: bool, done: bool)
    requires RecordOk(c, owned, done) && ThreadOk(c, t, Thread(kind, Context(context)), owned, done)
    requires Moved(c, d, t, ResumeContext(c, context))
    ensures ThreadOk(d, t, Thread(kind, ResumeContext(c, context).pc), owned, done)
  {
    if context.ReconcileContext? && c.result.None? {
      SnapshotDiffers(c, ResumeContext(c, context).pc.end.receipt);
    }
  }

  lemma CancelFlagKeepsMover(c: Call, d: Call, t: Tid, kind: Kind, owned: bool, done: bool)
    requires RecordOk(c, owned, done) && ThreadOk(c, t, Thread(kind, Cancelling(CancelLock)), owned, done)
    requires Ready(c, Cancelling(CancelLock), CancelFlag) && Moved(c, d, t, Plan(c, t, Cancelling(CancelLock), CancelFlag))
    ensures ThreadOk(d, t, Thread(kind, Plan(c, t, Cancelling(CancelLock), CancelFlag).pc), owned, done)
  {
  }

  lemma CancelAnswerKeepsMover(c: Call, d: Call, t: Tid, kind: Kind, acked: bool, owned: bool, done: bool)
    requires RecordOk(c, owned, done) && ThreadOk(c, t, Thread(kind, Cancelling(CancelAsk)), owned, done)
    requires Ready(c, Cancelling(CancelAsk), CancelAnswered(acked)) && Moved(c, d, t, Plan(c, t, Cancelling(CancelAsk), CancelAnswered(acked)))
    ensures ThreadOk(d, t, Thread(kind, Plan(c, t, Cancelling(CancelAsk), CancelAnswered(acked)).pc), owned, done)
  {
  }

  lemma CancelBeginKeepsMover(c: Call, d: Call, t: Tid, kind: Kind, owned: bool, done: bool)
    requires RecordOk(c, owned, done) && ThreadOk(c, t, Thread(kind, Cancelling(CancelEntry)), owned, done)
    requires Moved(c, d, t, Plan(c, t, Cancelling(CancelEntry), CancelBegin))
    ensures ThreadOk(d, t, Thread(kind, Plan(c, t, Cancelling(CancelEntry), CancelBegin).pc), owned, done)
  {
    if c.result.Some? {
    } else {
    }
  }

  lemma CancelKeepsMover(c: Call, d: Call, t: Tid, kind: Kind, pc: Pc, op: Op, owned: bool, done: bool)
    requires RecordOk(c, owned, done) && ThreadOk(c, t, Thread(kind, pc), owned, done)
    requires Ready(c, pc, op) && pc.Cancelling? && !op.Fail? && !op.Interrupt?
    requires Moved(c, d, t, Plan(c, t, pc, op))
    ensures ThreadOk(d, t, Thread(kind, Plan(c, t, pc, op).pc), owned, done)
  {
    match pc.cancel
    case CancelEntry => CancelBeginKeepsMover(c, d, t, kind, owned, done);
    case CancelLock => CancelFlagKeepsMover(c, d, t, kind, owned, done);
    case CancelAsk => CancelAnswerKeepsMover(c, d, t, kind, op.acked, owned, done);
  }

  lemma FinalizeKeepsMover(c: Call, d: Call, t: Tid, kind: Kind, pc: Pc, op: Op, owned: bool, done: bool)
    requires RecordOk(c, owned, done) && ThreadOk(c, t, Thread(kind, pc), owned, done)
    requires Ready(c, pc, op) && pc.Finalizing? && !op.Fail? && !op.Interrupt?
    requires Moved(c, d, t, Plan(c, t, pc, op))
    ensures ThreadOk(d, t, Thread(kind, Plan(c, t, pc, op).pc), owned, done)
  {
  }

  lemma ReapKeepsMover(c: Call, d: Call, t: Tid, kind: Kind, pc: Pc, op: Op, owned: bool, done: bool)
    requires RecordOk(c, owned, done) && ThreadOk(c, t, Thread(kind, pc), owned, done)
    requires Ready(c, pc, op) && pc.Reaping? && !op.Fail? && !op.Interrupt?
    requires Moved(c, d, t, Plan(c, t, pc, op))
    ensures ThreadOk(d, t, Thread(kind, Plan(c, t, pc, op).pc), owned, done)
  {
    if op.ReapEnter? {
      ReapEnterKeepsMover(c, d, t, kind, pc, op, owned, done);
    }
  }

  lemma ReapEnterKeepsMover(c: Call, d: Call, t: Tid, kind: Kind, pc: Pc, op: Op, owned: bool, done: bool)
    requires RecordOk(c, owned, done) && ThreadOk(c, t, Thread(kind, pc), owned, done)
    requires Ready(c, pc, op) && op.ReapEnter?
    requires Moved(c, d, t, Plan(c, t, pc, op))
    ensures ThreadOk(d, t, Thread(kind, Plan(c, t, pc, op).pc), owned, done)
  {
  }

  lemma FailAdmittedKeepsMover(c: Call, d: Call, t: Tid, kind: Kind, pc: Pc, timeout: bool, owned: bool, done: bool)
    requires RecordOk(c, owned, done) && ThreadOk(c, t, Thread(kind, pc), owned, done)
    requires Admitted(pc) && Moved(c, d, t, FailThread(c, t, pc, timeout))
    ensures FailThread(c, t, pc, timeout).child.None?
    ensures ThreadOk(d, t, Thread(kind, FailThread(c, t, pc, timeout).pc), owned, done)
  {
  }

  lemma FailOtherKeepsMover(c: Call, d: Call, t: Tid, kind: Kind, pc: Pc, timeout: bool, owned: bool, done: bool)
    requires RecordOk(c, owned, done) && ThreadOk(c, t, Thread(kind, pc), owned, done)
    requires !Admitted(pc) && Ready(c, pc, Fail(timeout)) && Moved(c, d, t, FailThread(c, t, pc, timeout))
    ensures ThreadOk(d, t, Thread(kind, FailThread(c, t, pc, timeout).pc), owned, done)
    ensures var child := FailThread(c, t, pc, timeout).child;
      child.Some? ==> forall u :: u != MAIN ==> ThreadOk(d, u, child.value, owned, done)
  {
  }

  lemma InterruptKeepsMover(c: Call, d: Call, t: Tid, kind: Kind, pc: Pc, op: Op, owned: bool, done: bool)
    requires RecordOk(c, owned, done) && ThreadOk(c, t, Thread(kind, pc), owned, done)
    requires Ready(c, pc, op) && op.Interrupt?
    requires Moved(c, d, t, Plan(c, t, pc, op))
    ensures ThreadOk(d, t, Thread(kind, Plan(c, t, pc, op).pc), owned, done)
    ensures var child := Plan(c, t, pc, op).child;
      child.Some? ==> forall u :: u != MAIN ==> ThreadOk(d, u, child.value, owned, done)
  {
  }

  /** Dispatch to the lemma of the step; the thread that moved keeps its invariant. */
  lemma MoverKeeps(c: Call, d: Call, t: Tid, kind: Kind, pc: Pc, op: Op, owned: bool, done: bool)
    requires RecordOk(c, owned, done) && ThreadOk(c, t, Thread(kind, pc), owned, done)
    requires Ready(c, pc, op) && Moved(c, d, t, Plan(c, t, pc, op))
    ensures ThreadOk(d, t, Thread(kind, Plan(c, t, pc, op).pc), owned, done)
    ensures var child := Plan(c, t, pc, op).child;
      child.Some? ==> forall u :: u != MAIN ==> ThreadOk(d, u, child.value, owned, done)
  {
    if op.Interrupt? {
      InterruptKeepsMover(c, d, t, kind, pc, op, owned, done);
    } else if op.Fail? {
      if Admitted(pc) {
        FailAdmittedKeepsMover(c, d, t, kind, pc, op.timeout, owned, done);
      } else {
        FailOtherKeepsMover(c, d, t, kind, pc, op.timeout, owned, done);
      }
    } else {
      ProgressIsChildless(c, t, pc, op);
      ProgressKeepsMover(c, d, t, kind, pc, op, owned, done);
    }
  }

  lemma ProgressIsChildless(c: Call, t: Tid, pc: Pc, op: Op)
    requires Ready(c, pc, op) && !op.Interrupt? && !op.Fail?
    ensures Plan(c, t, pc, op).child.None?
  {
  }

  lemma ProgressKeepsMover(c: Call, d: Call, t: Tid, kind: Kind, pc: Pc, op: Op, owned: bool, done: bool)
    requires RecordOk(c, owned, done) && ThreadOk(c, t, Thread(kind, pc), owned, done)
    requires Ready(c, pc, op) && !op.Interrupt? && !op.Fail? && Moved(c, d, t, Plan(c, t, pc, op))
    ensures ThreadOk(d, t, Thread(kind, Plan(c, t, pc, op).pc), owned, done)
  {
    match pc
    case Admit(_) => AdmitKeepsMover(c, d, t, kind, pc, op, owned, done);
    case Risk(_) => DispatchKeepsMover(c, d, t, kind, pc, op, owned, done);
    case Sent(_) => SentKeepsMover(c, d, t, kind, pc, op, owned, done);
    case Aborting(_) =>
    case Context(context) => ContextKeepsMover(c, d, t, kind, context, owned, done);
    case Cancelling(_) => CancelKeepsMover(c, d, t, kind, pc, op, owned, done);
    case Finalizing(_, _) => FinalizeKeepsMover(c, d, t, kind, pc, op, owned, done);
    case Reaping(_) => ReapKeepsMover(c, d, t, kind, pc, op, owned, done);
  }

  /** Every thread keeps its invariant across a sound move of one of them. */
  lemma PerformKeepsThreads(c: Call, t: Tid, u: Tid, m: Move, owned: bool, done: bool)
    requires CallInv(c, owned, done) && t in c.threads && (m.child.Some? ==> u !in c.threads && u != MAIN)
    requires SoundMove(c, t, c.threads[t].pc, m)
    requires ThreadOk(Perform(c, t, u, m), t, Thread(c.threads[t].kind, m.pc), owned, done)
    requires m.child.Some? ==> ThreadOk(Perform(c, t, u, m), u, m.child.value, owned, done)
    ensures CallInv(Perform(c, t, u, m), owned, done)
  {
    var d := Perform(c, t, u, m);
    PerformIsSteady(c, t, u, m);
    forall x | x in d.threads
      ensures ThreadOk(d, x, d.threads[x], owned, done)
    {
      if x != t && (m.child.None? || x != u) {
        BystanderKeeps(c, d, t, x, c.threads[x], owned, done);
      }
    }
  }

  lemma PerformMoved(c: Call, t: Tid, u: Tid, m: Move)
    requires t in c.threads && (m.child.Some? ==> u !in c.threads && u != MAIN)
    requires SoundMove(c, t, c.threads[t].pc, m)
    ensures Moved(c, Perform(c, t, u, m), t, m)
    ensures Steady(c, Perform(c, t, u, m))
  {
    PerformIsSteady(c, t, u, m);
  }

  /** The plan of a step is a sound move after which its threads are in order. */
  lemma PlanKeepsThread(c: Call, t: Tid, u: Tid, op: Op, m: Move, owned: bool, done: bool)
    requires RecordOk(c, owned, done) && Enabled(c, t, u, op)
    requires ThreadOk(c, t, c.threads[t], owned, done)
    requires m == Plan(c, t, c.threads[t].pc, op)
    ensures SoundMove(c, t, c.threads[t].pc, m) && CalmMove(c.threads[t].pc, m)
    ensures ThreadOk(Perform(c, t, u, m), t, Thread(c.threads[t].kind, m.pc), owned, done)
    ensures m.child.Some? ==> ThreadOk(Perform(c, t, u, m), u, m.child.value, owned, done)
  {
    var th := c.threads[t];
    PlanIsSound(c, t, th.pc, op);
    PerformMoved(c, t, u, m);
    MoverKeeps(c, Perform(c, t, u, m), t, th.kind, th.pc, op, owned, done);
  }

  /** One step of one thread keeps the whole call. */
  lemma ApplyKeeps(c: Call, t: Tid, u: Tid, op: Op, owned: bool, done: bool)
    requires CallInv(c, owned, done) && Enabled(c, t, u, op)
    ensures CallInv(Apply(c, t, u, op), owned, done)
    ensures Calm(c, Apply(c, t, u, op))
    ensures Steady(c, Apply(c, t, u, op))
  {
    var m := Plan(c, t, c.threads[t].pc, op);
    PlanKeepsThread(c, t, u, op, m, owned, done);
    PerformIsSteady(c, t, u, m);
    PerformKeepsThreads(c, t, u, m, owned, done);
  }
}
