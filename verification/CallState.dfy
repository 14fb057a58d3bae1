/**
 One `_ActiveCall` of the browser-control service and everything its own
 coroutines do to it.

 A thread is one coroutine working on the call (the `execute_call` task, a
 cancellation, a reconciliation, a late-result finalization, the abort task or
 the reaper). Its program counter names the `await` it is suspended at; one step
 runs the code from that `await` to the next one. An `await` whose outcome this
 model does not compute may succeed, raise, or be interrupted by
 `CancelledError`, so every run of the service is a run of the model.
 */
module CallState {
  import opened Common

  type Nonce = nat      // admission_reference: one per _ActiveCall, never reused
  type Digest = nat     // request digest; call_id and item_id are injective in it
  type LeaseId = nat
  type ChannelId = nat
  type Tid = nat

  /** The execute_call task of every call is thread 0. */
  const MAIN: Tid := 0

  datatype Effect = NoEffect | Committed | UncertainEffect

  datatype CallStatus = Dispatched | Succeeded | Failed | Cancelled | Unknown | Denied

  datatype ErrorCode =
    | NoError
    | CallCancelled
    | NotDispatched
    | ChannelUnavailable
    | FenceUnavailable
    | CommitUnavailable
    | CancelUnavailable
    | OutcomeUnavailable
    | WindowExpired
    | PolicyDenied
    | BrowserFailure(code: nat)

  datatype Receipt = Receipt(status: CallStatus, effect: Effect, result: Option<nat>, error: ErrorCode)

  /** A `control.result` message. */
  datatype BrowserResult = ResultOk(value: nat) | ResultError(code: nat)

  /** The digest over a policy reference and a request digest; injective in both. */
  datatype Confirmation = Confirmation(policyRef: nat, digest: Digest)

  datatype LeaseStatus = Active | Revoked | Expired

  datatype Lease = Lease(status: LeaseStatus, issued: real, expires: real, hard: real, arm: real, token: real)

  datatype Kind = Execute | Abort | Cancel | Reconcile | Receive | Reaper

  /** execute_call up to the second lease read. */
  datatype AdmitPoint =
    | FenceSubmit
    | FenceRead(created: bool)
    | PendingAudit
    | Register
    | ConfirmSend
    | ConfirmWait
    | ConfirmAuditLock
    | ConfirmAudit
    | LeaseRead

  /** execute_call between the second lease read and the send. */
  datatype RiskPoint =
    | LeaseSeen(lease: Lease)
    | Claiming(deadline: real)
    | ClaimReply(granted: bool, deadline: real)
    | Revalidate(deadline: real)
    | DispatchLock(deadline: real)
    | ServiceLock(deadline: real)
    | Sending(deadline: real, checkedAt: real)

  /** execute_call after the send. */
  datatype SentPoint = DispatchAuditLock | DispatchAudit | AwaitResult

  /** _abort_call before it reaches _cancel_active. */
  datatype AbortPoint = AbortSubmit | AbortRead(created: bool) | AbortRegister

  /** cancel_call and reconcile_call, waiting for _lease_context. */
  datatype ContextPoint = CancelContext | CachedContext(cached: Receipt) | ReconcileContext

  /** _cancel_active. */
  datatype CancelPoint = CancelEntry | CancelLock | CancelAsk

  /** _finalize; every phase but the first holds finalize_lock. */
  datatype FinalPhase = FinalLock | FinalAudit | FinalEngine | FinalAuditAgain | FinalStore

  /** _reap_unknown_call; every phase but the first holds finalize_lock. */
  datatype ReapPhase = ReapLock | ReapAudit | ReapEngine | ReapStore

  /** `settled` is the call's terminal receipt at the moment the thread ended. */
  datatype EndPoint =
    | Returned(receipt: Receipt, settled: Option<Receipt>)
    | Snapshot(receipt: Receipt, settled: Option<Receipt>)
    | Replayed
    | Raised
    | Stopped

  datatype Pc =
    | Admit(admit: AdmitPoint)
    | Risk(risk: RiskPoint)
    | Sent(sent: SentPoint)
    | Aborting(abort: AbortPoint)
    | Context(context: ContextPoint)
    | Cancelling(cancel: CancelPoint)
    | Finalizing(phase: FinalPhase, outcome: Receipt)
    | Reaping(reap: ReapPhase)
    | End(end: EndPoint)

  datatype Thread = Thread(kind: Kind, pc: Pc)

  datatype Call = Call(
    digest: Digest,
    lease: LeaseId,
    channel: ChannelId,
    mutates: bool,
    policyRef: nat,
    allowed: bool,
    policyReceipt: Option<Digest>,
    confirmedBy: Option<Confirmation>,
    result: Option<BrowserResult>,
    cancelAck: Option<Effect>,
    terminal: Option<Receipt>,
    claim: bool,
    dispatched: bool,
    timedOut: bool,
    cancelRequested: bool,
    dispatchLock: bool,
    finalizeLock: Option<Tid>,
    threads: map<Tid, Thread>,
    unsolicited: bool)   // the browser answered a call it had not been sent

  // ---------- where a thread is ----------

  predicate Fencing(pc: Pc) {
    (pc.Admit? && (pc.admit.FenceSubmit? || pc.admit.FenceRead?))
    || (pc.Aborting? && !pc.abort.AbortRegister?)
  }

  predicate AfterConfirmation(pc: Pc) {
    pc.Risk? || (pc.Admit? && (pc.admit.ConfirmAuditLock? || pc.admit.ConfirmAudit? || pc.admit.LeaseRead?))
  }

  predicate BeforeSend(pc: Pc) {
    pc.Admit? || pc.Risk?
  }

  predicate MainOnly(pc: Pc) {
    pc.Admit? || pc.Risk? || pc.Sent?
  }

  /** execute_call after it put the call into _active_calls, up to the send. */
  predicate PastRegister(pc: Pc) {
    pc.Risk? || (pc.Admit? && !Fencing(pc) && !pc.admit.PendingAudit? && !pc.admit.Register?)
  }

  predicate Granted(pc: Pc) {
    pc.Risk? && !pc.risk.LeaseSeen? && !pc.risk.Claiming? && !pc.risk.ClaimReply?
  }

  predicate InSend(pc: Pc) {
    pc.Risk? && pc.risk.Sending?
  }

  predicate HoldsDispatch(pc: Pc) {
    pc.Risk? && (pc.risk.ServiceLock? || pc.risk.Sending?)
  }

  predicate InFinalize(pc: Pc) {
    pc.Finalizing? && !pc.phase.FinalLock?
  }

  predicate HoldsFinalize(pc: Pc) {
    InFinalize(pc)
    || (pc.Admit? && pc.admit.ConfirmAudit?)
    || (pc.Sent? && pc.sent.DispatchAudit?)
    || (pc.Reaping? && !pc.reap.ReapLock?)
  }

  /** A cancellation that has passed its critical section, or never needed it. */
  predicate AfterFlag(pc: Pc) {
    pc.Finalizing? || (pc.Cancelling? && pc.cancel.CancelAsk?) || (pc.End? && pc.end.Returned?)
  }

  /** Where the `except` clauses of _execute_admitted_call apply. */
  predicate Admitted(pc: Pc) {
    (PastRegister(pc) && !HoldsDispatch(pc)) || pc.Sent?
  }

  // ---------- derived facts about a call ----------

  /** The policy allowed the call and its receipt is bound to the exact digest. */
  predicate Authorized(c: Call) {
    c.allowed && c.policyReceipt == Some(c.digest)
  }

  predicate ConfirmedIfNeeded(c: Call) {
    c.mutates ==> c.confirmedBy == Some(Confirmation(c.policyRef, c.digest))
  }

  function Min(a: real, b: real): real {
    if a < b then a else b
  }

  /** authority_deadline of _dispatch_and_wait. */
  function Deadline(l: Lease): real {
    Min(Min(l.expires, l.hard), Min(l.arm, l.token))
  }

  /** The deadline a thread on the send path is bound by. */
  function DeadlineOf(p: RiskPoint): real {
    if p.LeaseSeen? then Deadline(p.lease) else p.deadline
  }

  predicate MayYetSend(c: Call) {
    MAIN in c.threads && BeforeSend(c.threads[MAIN].pc)
  }

  predicate OnSendPath(c: Call) {
    MAIN in c.threads && PastRegister(c.threads[MAIN].pc)
  }

  predicate AtRisk(c: Call) {
    MAIN in c.threads && c.threads[MAIN].pc.Risk?
  }

  function OfResult(m: BrowserResult): Receipt {
    match m
    case ResultOk(v) => Receipt(Succeeded, Committed, Some(v), NoError)
    case ResultError(e) => Receipt(Failed, NoEffect, None, BrowserFailure(e))
  }

  function OfEffect(e: Effect): Receipt {
    match e
    case Committed => Receipt(Succeeded, e, None, NoError)
    case NoEffect => Receipt(Cancelled, e, None, CallCancelled)
    case UncertainEffect => Receipt(Unknown, e, None, CallCancelled)
  }

  const REAPED := Receipt(Unknown, UncertainEffect, None, WindowExpired)

  /** What one step does to the thread that takes it and to the call's control flags. */
  datatype Move = Move(
    pc: Pc,
    finalizeLock: Option<Tid>,
    dispatchLock: bool,
    claim: bool,
    timedOut: bool,
    cancelRequested: bool,
    child: Option<Thread>)   // a coroutine the step starts

  function Goto(c: Call, pc: Pc): Move {
    Move(pc, c.finalizeLock, c.dispatchLock, c.claim, c.timedOut, c.cancelRequested, None)
  }

  function Return(c: Call, r: Receipt): Move {
    Goto(c, End(Returned(r, c.terminal)))
  }

  function Perform(c: Call, t: Tid, u: Tid, m: Move): Call
    requires t in c.threads
  {
    var moved := c.threads[t := Thread(c.threads[t].kind, m.pc)];
    c.(
      threads := if m.child.Some? then moved[u := m.child.value] else moved,
      finalizeLock := m.finalizeLock,
      dispatchLock := m.dispatchLock,
      claim := m.claim,
      timedOut := m.timedOut,
      cancelRequested := m.cancelRequested)
  }

  /** Call _finalize. */
  function Finalize(c: Call, r: Receipt): Move {
    Goto(c, Finalizing(FinalLock, r))
  }

  /** The tail of _cancel_active: prefer a browser result over the effect. */
  function AfterEffect(c: Call, e: Effect): Move {
    Finalize(c, if c.result.Some? then OfResult(c.result.value) else OfEffect(e))
  }

  // ---------- the steps that touch only this call ----------

  datatype Op =
    | PendingAuditDone
    | ConfirmRequested
    | ConfirmArrived
    | TerminalArrived
    | AuditEnter
    | AuditDone
    | ClaimResume
    | RevalidateDone
    | DispatchEnter
    | ResultArrived
    | ContextDone
    | CancelBegin
    | CancelFlag
    | CancelAnswered(acked: bool)
    | FinalizeEnter
    | FinalizeAuditDone
    | FinalizeAgainDone
    | ReapEnter(mine: bool)
    | ReapAuditDone
    | AbortMark
    | Fail(timeout: bool)
    | Interrupt

  /** The abort task takes over where the interrupted execute_call stood. */
  function AbortFrom(pc: Pc): Pc {
    if pc == Admit(FenceSubmit) then Aborting(AbortSubmit)
    else if pc.Admit? && pc.admit.FenceRead? then Aborting(AbortRead(pc.admit.created))
    else Aborting(AbortRegister)
  }

  predicate Enabled(c: Call, t: Tid, u: Tid, op: Op) {
    t in c.threads && u !in c.threads && u != MAIN && Ready(c, c.threads[t].pc, op)
  }

  predicate Ready(c: Call, pc: Pc, op: Op) {
    match op
    case PendingAuditDone => pc == Admit(PendingAudit)
    case ConfirmRequested => pc == Admit(ConfirmSend)
    case ConfirmArrived => pc == Admit(ConfirmWait) && c.confirmedBy.Some? && c.terminal.None?
    case TerminalArrived => (pc == Admit(ConfirmWait) || pc == Sent(AwaitResult)) && c.terminal.Some?
    case AuditEnter => (pc == Admit(ConfirmAuditLock) || pc == Sent(DispatchAuditLock)) && c.finalizeLock.None?
    case AuditDone => pc == Admit(ConfirmAudit) || pc == Sent(DispatchAudit)
    case ClaimResume => pc.Risk? && pc.risk.ClaimReply?
    case RevalidateDone => pc.Risk? && pc.risk.Revalidate?
    case DispatchEnter => pc.Risk? && pc.risk.DispatchLock? && !c.dispatchLock
    case ResultArrived => pc == Sent(AwaitResult) && c.result.Some? && c.terminal.None?
    case ContextDone => pc.Context?
    case CancelBegin => pc == Cancelling(CancelEntry)
    case CancelFlag => pc == Cancelling(CancelLock) && !c.dispatchLock
    case CancelAnswered(acked) => pc == Cancelling(CancelAsk) && (acked ==> c.cancelAck.Some?)
    case FinalizeEnter => pc.Finalizing? && pc.phase.FinalLock? && c.finalizeLock.None?
    case FinalizeAuditDone => pc.Finalizing? && pc.phase.FinalAudit?
    case FinalizeAgainDone => pc.Finalizing? && pc.phase.FinalAuditAgain?
    case ReapEnter(_) => pc == Reaping(ReapLock) && c.finalizeLock.None?
    case ReapAuditDone => pc == Reaping(ReapAudit)
    case AbortMark => pc == Aborting(AbortRegister)
    case Fail(_) =>
      || Fencing(pc) || pc == Admit(PendingAudit) || Admitted(pc) || pc.Context?
      || (InFinalize(pc) && !pc.phase.FinalStore?)
      || pc == Reaping(ReapAudit) || pc == Reaping(ReapEngine)
    case Interrupt => !pc.End? && !InSend(pc)
  }

  function Apply(c: Call, t: Tid, u: Tid, op: Op): Call
    requires Enabled(c, t, u, op)
  {
    Perform(c, t, u, Plan(c, t, c.threads[t].pc, op))
  }

  /** The code between the await the thread is at and its next one. */
  function Plan(c: Call, t: Tid, pc: Pc, op: Op): Move
    requires Ready(c, pc, op)
  {
    match op
    case PendingAuditDone => Goto(c, Admit(Register))
    case ConfirmRequested => Goto(c, Admit(ConfirmWait))
    case ConfirmArrived => Goto(c, Admit(ConfirmAuditLock))
    case TerminalArrived => Return(c, c.terminal.value)
    case AuditEnter =>
      if c.terminal.Some? then Return(c, c.terminal.value)
      else Goto(c, if pc.Admit? then Admit(ConfirmAudit) else Sent(DispatchAudit)).(finalizeLock := Some(t))
    case AuditDone => Goto(c, if pc.Admit? then Admit(LeaseRead) else Sent(AwaitResult)).(finalizeLock := None)
    case ClaimResume => ResumeClaim(c, pc.risk.granted, pc.risk.deadline)
    case RevalidateDone => Goto(c, Risk(DispatchLock(pc.risk.deadline)))
    case DispatchEnter => Goto(c, Risk(ServiceLock(pc.risk.deadline))).(dispatchLock := true)
    case ResultArrived => Finalize(c, OfResult(c.result.value))
    case ContextDone => ResumeContext(c, pc.context)
    case CancelBegin =>
      if c.result.Some? then Finalize(c, OfResult(c.result.value)) else Goto(c, Cancelling(CancelLock))
    case CancelFlag =>
      (if c.dispatched then Goto(c, Cancelling(CancelAsk)) else AfterEffect(c, NoEffect)).(cancelRequested := true)
    case CancelAnswered(acked) =>
      AfterEffect(c, if !c.claim then NoEffect else if acked then c.cancelAck.value else UncertainEffect)
    case FinalizeEnter =>
      if c.terminal.Some? then Return(c, c.terminal.value)
      else Goto(c, Finalizing(FinalAudit, pc.outcome)).(finalizeLock := Some(t))
    case FinalizeAuditDone => Goto(c, Finalizing(FinalEngine, pc.outcome))
    case FinalizeAgainDone => FinishUnknown(c, pc.outcome)
    case ReapEnter(mine) =>
      if c.terminal.Some? || !mine || !c.timedOut then Goto(c, End(Stopped))
      else Goto(c, Reaping(ReapAudit)).(finalizeLock := Some(t))
    case ReapAuditDone => Goto(c, Reaping(ReapEngine))
    case AbortMark => Goto(c, pc).(timedOut := true)   // _abort_call sets timed_out before it waits for the service lock
    case Fail(timeout) => FailThread(c, t, pc, timeout)
    case Interrupt => InterruptThread(c, t, pc)
  }

  /** _dispatch_and_wait after claim_specific, then the head of _dispatch_claimed. */
  function ResumeClaim(c: Call, granted: bool, deadline: real): Move {
    if granted then
      (if c.cancelRequested then Finalize(c, OfEffect(NoEffect)) else Goto(c, Risk(Revalidate(deadline)))).(claim := true)
    else if c.terminal.Some? then Return(c, c.terminal.value)
    else Finalize(c, Receipt(Unknown, UncertainEffect, None, FenceUnavailable))
  }

  /** cancel_call and reconcile_call after their authority check. */
  function ResumeContext(c: Call, context: ContextPoint): Move {
    match context
    case CachedContext(r) => Return(c, r)
    case CancelContext => Goto(c, Cancelling(CancelEntry))
    case ReconcileContext =>
      if c.result.Some? then Finalize(c, OfResult(c.result.value))
      else Goto(c, End(Snapshot(Receipt(if c.timedOut then Unknown else Dispatched, UncertainEffect, None, NoError), c.terminal)))
  }

  /** _finalize_locked with an unknown status: keep the call for the reaper. */
  function FinishUnknown(c: Call, r: Receipt): Move {
    Return(c, r).(finalizeLock := None, timedOut := true)
  }

  /** Leaving `async with finalize_lock`, if this thread is inside it. */
  function Released(c: Call, t: Tid): Option<Tid> {
    if c.finalizeLock == Some(t) then None else c.finalizeLock
  }

  /** An exception at the thread's current await. */
  function FailThread(c: Call, t: Tid, pc: Pc, timeout: bool): Move {
    if Admitted(pc) then FailAdmitted(c, timeout).(finalizeLock := Released(c, t))
    else if pc.Finalizing? then FinishUnknown(c, Receipt(Unknown, UncertainEffect, None, OutcomeUnavailable))
    else if pc.Admit? then
      Goto(c, End(Raised)).(child := Some(Thread(Abort, Aborting(if pc.admit.PendingAudit? then AbortRegister else AbortSubmit))))
    else if pc.Aborting? then Goto(c, Aborting(AbortSubmit))
    else if pc.Reaping? then Goto(c, Reaping(ReapLock)).(finalizeLock := Released(c, t))
    else Goto(c, End(Raised))
  }

  /** The two `except` clauses of _execute_admitted_call. */
  function FailAdmitted(c: Call, timeout: bool): Move {
    if timeout then Goto(c, Cancelling(CancelEntry)).(timedOut := true)
    else if c.claim then Finalize(c, Receipt(Unknown, UncertainEffect, None, ChannelUnavailable))
    else Finalize(c, Receipt(Cancelled, NoEffect, None, NotDispatched))
  }

  /** CancelledError: release what is held; execute_call hands over to its abort task. */
  function InterruptThread(c: Call, t: Tid, pc: Pc): Move {
    Goto(c, End(Raised)).(
      finalizeLock := Released(c, t),
      dispatchLock := c.dispatchLock && !HoldsDispatch(pc),
      timedOut := c.timedOut || InFinalize(pc),
      child := if t == MAIN then Some(Thread(Abort, AbortFrom(pc))) else None)
  }
}
