/** Every receipt tells what the browser said: receipts against the messages of the run. */
module CallReceipts {
  import opened Common
  import opened CallState
  import opened CallInvariant
  import opened CallMachine
  import opened CallSafety
  import opened CallRevoke

  // ---------- what the browser has said ----------

  ghost predicate Took(states: seq<State>, j: nat, step: Step) {
    0 < j < |states| && Can(states[j - 1], step) && states[j] == After(states[j - 1], step)
  }

  /** Up to state `i` the browser answered the call with `m`. */
  ghost predicate Said(states: seq<State>, i: nat, a: Nonce, m: BrowserResult) {
    exists j: nat, u: Tid :: j <= i && Took(states, j, Outside(BrowserAnswers(a, m, u)))
  }

  /** Up to state `i` the browser acknowledged a cancellation of the call with effect `e`. */
  ghost predicate Acknowledged(states: seq<State>, i: nat, a: Nonce, e: Effect) {
    exists j: nat :: j <= i && Took(states, j, Outside(BrowserAcks(a, e)))
  }

  /** The messages about one call. */
  datatype Heard = Heard(answers: iset<BrowserResult>, acks: iset<Effect>)

  ghost function HeardAt(states: seq<State>, i: nat, a: Nonce): Heard {
    Heard(iset m: BrowserResult | Said(states, i, a, m), iset e: Effect | Acknowledged(states, i, a, e))
  }

  ghost predicate Grows(h: Heard, g: Heard) {
    h.answers <= g.answers && h.acks <= g.acks
  }

  // ---------- what a receipt may say ----------

  /** A receipt that claims nothing the browser has not said. */
  ghost predicate Grounded(r: Receipt, h: Heard) {
    match r.status
    case Succeeded =>
      && r.effect == Committed && r.error == NoError
      && (if r.result.Some? then ResultOk(r.result.value) in h.answers else Committed in h.acks)
    case Failed =>
      r.effect == NoEffect && r.result.None? && r.error.BrowserFailure? && ResultError(r.error.code) in h.answers
    case Cancelled => r.effect == NoEffect && r.result.None? && (r.error == CallCancelled || r.error == NotDispatched)
    case _ => !r.error.BrowserFailure? && (r.result.Some? ==> ResultOk(r.result.value) in h.answers)
  }

  ghost predicate PcGrounded(pc: Pc, h: Heard) {
    match pc
    case Finalizing(_, outcome) => Grounded(outcome, h)
    case Context(context) => context.CachedContext? ==> Grounded(context.cached, h)
    case End(end) => (end.Returned? || end.Snapshot?) ==> Grounded(end.receipt, h)
    case _ => true
  }

  ghost predicate RecordGrounded(c: Call, h: Heard) {
    && (c.result.Some? ==> c.result.value in h.answers)
    && (c.cancelAck.Some? ==> c.cancelAck.value in h.acks)
    && (c.terminal.Some? ==> Grounded(c.terminal.value, h))
  }

  ghost predicate CallGrounded(c: Call, h: Heard) {
    && RecordGrounded(c, h)
    && (forall t :: t in c.threads ==> PcGrounded(c.threads[t].pc, h))
  }

  lemma MoreHeard(c: Call, h: Heard, g: Heard)
    requires CallGrounded(c, h) && Grows(h, g)
    ensures CallGrounded(c, g)
  {
  }

  // ---------- the steps of one call ----------

  lemma AnswerGrounded(m: BrowserResult, h: Heard)
    requires m in h.answers
    ensures Grounded(OfResult(m), h)
  {
  }

  lemma EffectGrounded(e: Effect, h: Heard)
    requires e == Committed ==> Committed in h.acks
    ensures Grounded(OfEffect(e), h)
  {
  }

  /** The next program counter of a coroutine, and the one it starts. */
  ghost predicate MoveGrounded(m: Move, h: Heard) {
    PcGrounded(m.pc, h) && (m.child.Some? ==> PcGrounded(m.child.value.pc, h))
  }

  lemma AdmittedFailGrounded(c: Call, timeout: bool, h: Heard)
    ensures MoveGrounded(FailAdmitted(c, timeout), h)
  {
  }

  lemma FailGrounded(c: Call, t: Tid, pc: Pc, timeout: bool, h: Heard)
    requires RecordGrounded(c, h)
    ensures MoveGrounded(FailThread(c, t, pc, timeout), h)
  {
    if Admitted(pc) {
      AdmittedFailGrounded(c, timeout, h);
    }
  }

  lemma CancelGrounded(c: Call, t: Tid, pc: Pc, op: Op, h: Heard)
    requires RecordGrounded(c, h) && Ready(c, pc, op) && (op.CancelBegin? || op.CancelFlag? || op.CancelAnswered? || op.ContextDone? || op.ResultArrived?)
    requires PcGrounded(pc, h)
    ensures MoveGrounded(Plan(c, t, pc, op), h)
  {
    if c.result.Some? {
      AnswerGrounded(c.result.value, h);
    }
  }

  lemma InterruptGrounded(c: Call, t: Tid, pc: Pc, h: Heard)
    requires PcGrounded(pc, h)
    ensures MoveGrounded(InterruptThread(c, t, pc), h)
  {
  }

  predicate LooksAtReceipt(op: Op) {
    op.TerminalArrived? || op.AuditEnter? || op.ClaimResume? || op.FinalizeEnter? || op.FinalizeAuditDone? || op.FinalizeAgainDone?
  }

  lemma ReceiptGrounded(c: Call, t: Tid, pc: Pc, op: Op, h: Heard)
    requires RecordGrounded(c, h) && Ready(c, pc, op) && PcGrounded(pc, h) && LooksAtReceipt(op)
    ensures MoveGrounded(Plan(c, t, pc, op), h)
  {
    if pc.Finalizing? {
      FinalizingGrounded(c, t, pc, op, h);
    }
  }

  lemma FinalizingGrounded(c: Call, t: Tid, pc: Pc, op: Op, h: Heard)
    requires RecordGrounded(c, h) && Ready(c, pc, op) && PcGrounded(pc, h) && LooksAtReceipt(op) && pc.Finalizing?
    ensures MoveGrounded(Plan(c, t, pc, op), h)
  {
  }

  /** The coroutine takes no message into account. */
  lemma QuietGrounded(c: Call, t: Tid, pc: Pc, op: Op, h: Heard)
    requires Ready(c, pc, op) && PcGrounded(pc, h) && !LooksAtReceipt(op)
    requires !op.Fail? && !op.Interrupt? && !op.CancelBegin? && !op.CancelFlag? && !op.CancelAnswered? && !op.ContextDone? && !op.ResultArrived?
    ensures MoveGrounded(Plan(c, t, pc, op), h)
  {
  }

  lemma PlanGrounded(c: Call, t: Tid, pc: Pc, op: Op, h: Heard)
    requires RecordGrounded(c, h) && Ready(c, pc, op) && PcGrounded(pc, h)
    ensures MoveGrounded(Plan(c, t, pc, op), h)
  {
    if op.Fail? {
      FailGrounded(c, t, pc, op.timeout, h);
    } else if op.Interrupt? {
      InterruptGrounded(c, t, pc, h);
    } else if op.CancelBegin? || op.CancelFlag? || op.CancelAnswered? || op.ContextDone? || op.ResultArrived? {
      CancelGrounded(c, t, pc, op, h);
    } else if LooksAtReceipt(op) {
      ReceiptGrounded(c, t, pc, op, h);
    } else {
      QuietGrounded(c, t, pc, op, h);
    }
  }

  lemma PerformGrounded(c: Call, t: Tid, u: Tid, m: Move, h: Heard)
    requires CallGrounded(c, h) && t in c.threads && MoveGrounded(m, h)
    ensures CallGrounded(Perform(c, t, u, m), h)
  {
  }

  lemma SpawnGrounded(c: Call, u: Tid, th: Thread, h: Heard)
    requires CallGrounded(c, h) && PcGrounded(th.pc, h)
    ensures CallGrounded(c.(threads := c.threads[u := th]), h)
  {
  }

  lemma AnsweredGrounded(c: Call, m: BrowserResult, u: Tid, h: Heard)
    requires CallGrounded(c, h) && m in h.answers
    ensures CallGrounded(Answered(c, m, u), h)
  {
    AnswerGrounded(m, h);
  }

  lemma EngineGrounded(c: Call, i: ItemStatus, r: Receipt, ok: bool, h: Heard)
    requires Grounded(r, h)
    ensures Grounded(EngineResult(c, i, r, ok).1, h)
  {
  }

  // ---------- every step ----------

  ghost predicate AllGrounded(states: seq<State>, i: nat)
    requires i < |states|
  {
    forall a :: a in states[i].calls ==> CallGrounded(states[i].calls[a], HeardAt(states, i, a))
  }

  lemma HeardGrows(states: seq<State>, i: nat, a: Nonce)
    requires 0 < i
    ensures Grows(HeardAt(states, i - 1, a), HeardAt(states, i, a))
  {
  }

  /** The cached receipt that a cancellation or a reconciliation of the call finds is the call's own. */
  lemma CachedGrounded(s: State, a: Nonce, live: ContextPoint, h: Heard)
    requires Inv(s) && CanCancel(s, a) && CallGrounded(s.calls[a], h) && !live.CachedContext?
    ensures PcGrounded(ContextPc(s, a, live), h)
  {
    var d := s.calls[a].digest;
    if Recall(s.completed, d).Some? {
      assert s.calls[s.items[d].owner].terminal == Recall(s.completed, d);
    }
  }

  /** What one step leaves of one call. */
  ghost predicate CallStepGrounded(s: State, s': State, a: Nonce, h: Heard) {
    a in s'.calls && (a in s.calls ==> CallGrounded(s.calls[a], h)) ==> CallGrounded(s'.calls[a], h)
  }

  lemma OneCall(s: State, s': State, a: Nonce, b: Nonce, c: Call, h: Heard)
    requires s'.calls == s.calls[b := c]
    requires a == b && (a in s.calls ==> CallGrounded(s.calls[a], h)) ==> CallGrounded(c, h)
    ensures CallStepGrounded(s, s', a, h)
  {
  }

  lemma CrashGrounded(s: State, a: Nonce, h: Heard)
    ensures CallStepGrounded(s, AfterWorld(s, Crash), a, h)
  {
  }

  /** A move that the machine plans for one coroutine of call `b`. */
  lemma MovedGrounded(s: State, s': State, a: Nonce, b: Nonce, t: Tid, u: Tid, m: Move, h: Heard)
    requires b in s.calls && t in s.calls[b].threads && s'.calls == s.calls[b := Perform(s.calls[b], t, u, m)]
    requires b == a && CallGrounded(s.calls[b], h) ==> MoveGrounded(m, h)
    ensures CallStepGrounded(s, s', a, h)
  {
    if a == b && CallGrounded(s.calls[a], h) {
      PerformGrounded(s.calls[a], t, u, m, h);
    }
  }

  lemma LocalGrounded(s: State, a: Nonce, b: Nonce, t: Tid, u: Tid, op: Op, h: Heard)
    requires CanCall(s, Local(b, t, u, op))
    ensures CallStepGrounded(s, AfterCall(s, Local(b, t, u, op)), a, h)
  {
    var c := s.calls[b];
    var m := Plan(c, t, c.threads[t].pc, op);
    if a == b && CallGrounded(c, h) {
      PlanGrounded(c, t, c.threads[t].pc, op, h);
    }
    MovedGrounded(s, AfterCall(s, Local(b, t, u, op)), a, b, t, u, m, h);
  }

  lemma SendGrounded(s: State, a: Nonce, b: Nonce, h: Heard)
    requires CanCall(s, EnterSend(b))
    ensures CallStepGrounded(s, AfterEnterSend(s, b), a, h)
  {
    MovedGrounded(s, AfterEnterSend(s, b), a, b, MAIN, MAIN, SendPlan(s, s.calls[b], PcOf(s, b, MAIN).risk.deadline), h);
  }

  lemma OutcomeMoveGrounded(c: Call, next: Receipt, h: Heard)
    requires Grounded(next, h)
    ensures MoveGrounded(OutcomeMove(c, next), h)
  {
  }

  lemma OutcomeGrounded(s: State, a: Nonce, b: Nonce, t: Tid, ok: bool, h: Heard)
    requires CanCall(s, CommitOutcome(b, t, ok))
    ensures CallStepGrounded(s, AfterOutcome(s, b, t, ok), a, h)
  {
    var c, i, r := s.calls[b], s.items[s.calls[b].digest].status, PcOf(s, b, t).outcome;
    if a == b && CallGrounded(c, h) {
      assert PcGrounded(c.threads[t].pc, h);
      EngineGrounded(c, i, r, ok, h);
      OutcomeMoveGrounded(c, EngineResult(c, i, r, ok).1, h);
    }
    MovedGrounded(s, AfterOutcome(s, b, t, ok), a, b, t, t, OutcomeMove(c, EngineResult(c, i, r, ok).1), h);
  }

  lemma StoreGrounded(s: State, a: Nonce, b: Nonce, t: Tid, h: Heard)
    requires CanCall(s, StoreTerminal(b, t))
    ensures CallStepGrounded(s, AfterStore(s, b, t), a, h)
  {
    var c, r := s.calls[b], StoredReceipt(PcOf(s, b, t));
    if a == b && CallGrounded(c, h) {
      assert PcGrounded(c.threads[t].pc, h);
      PerformGrounded(c, t, t, Goto(c, End(Returned(r, Some(r)))).(finalizeLock := None), h);
    }
    OneCall(s, AfterStore(s, b, t), a, b, Settled(c, t, r), h);
  }

  /** The steps of execute_call and its abort task around the fence. */
  lemma SubmitMove(s: State, a: Nonce, b: Nonce, t: Tid, h: Heard)
    requires CanCall(s, SubmitFence(b, t))
    ensures CallStepGrounded(s, AfterSubmit(s, b, t), a, h)
  {
    var created := s.calls[b].digest !in s.items;
    var pc := if PcOf(s, b, t).Admit? then Admit(FenceRead(created)) else Aborting(AbortRead(created));
    MovedGrounded(s, AfterSubmit(s, b, t), a, b, t, t, Goto(s.calls[b], pc), h);
  }

  lemma ReplyMove(s: State, a: Nonce, b: Nonce, t: Tid, h: Heard)
    requires CanCall(s, ReplyFence(b, t))
    ensures CallStepGrounded(s, AfterReply(s, b, t), a, h)
  {
    var main := PcOf(s, b, t).Admit?;
    var created := if main then PcOf(s, b, t).admit.created else PcOf(s, b, t).abort.created;
    var own := created || s.items[s.calls[b].digest].owner == b;
    var pc :=
      if main then (if own then Admit(PendingAudit) else End(Replayed))
      else (if own then Aborting(AbortRegister) else End(Stopped));
    MovedGrounded(s, AfterReply(s, b, t), a, b, t, t, Goto(s.calls[b], pc), h);
  }

  lemma RegisterMove(s: State, a: Nonce, b: Nonce, t: Tid, h: Heard)
    requires CanCall(s, RegisterCall(b, t))
    ensures CallStepGrounded(s, AfterRegister(s, b, t), a, h)
  {
    var c := s.calls[b];
    var m := if PcOf(s, b, t).Admit? then Goto(c, Admit(if c.mutates then ConfirmSend else LeaseRead))
      else Goto(c, Cancelling(CancelEntry)).(timedOut := true);
    MovedGrounded(s, AfterRegister(s, b, t), a, b, t, t, m, h);
  }

  lemma LeaseMoves(s: State, step: CallStep, a: Nonce, h: Heard)
    requires CanCall(s, step) && (step.ReadLease? || step.CheckLease? || step.ClaimItem?)
    ensures CallStepGrounded(s, AfterCall(s, step), a, h)
  {
  }

  lemma ReapMove(s: State, a: Nonce, b: Nonce, t: Tid, h: Heard)
    requires CanCall(s, CommitReap(b, t))
    ensures CallStepGrounded(s, AfterReap(s, b, t), a, h)
  {
    MovedGrounded(s, AfterReap(s, b, t), a, b, t, t, Goto(s.calls[b], Reaping(ReapStore)), h);
  }

  lemma OfCallGrounded(s: State, step: CallStep, a: Nonce, h: Heard)
    requires CanCall(s, step)
    ensures CallStepGrounded(s, AfterCall(s, step), a, h)
  {
    match step
    case Begin(b, c) => OneCall(s, AfterCall(s, step), a, b, c, h);
    case Local(b, t, u, op) => LocalGrounded(s, a, b, t, u, op, h);
    case EnterSend(b) => SendGrounded(s, a, b, h);
    case Deliver(b) => DeliverGrounded(s, a, b, h);
    case FailSend(b, u, op) => MovedGrounded(s, AfterFailSend(s, b, u, op), a, b, MAIN, u, SendFailure(s.calls[b], op), h);
    case CommitOutcome(b, t, ok) => OutcomeGrounded(s, a, b, t, ok, h);
    case StoreTerminal(b, t) => StoreGrounded(s, a, b, t, h);
    case CommitReap(b, t) => ReapMove(s, a, b, t, h);
    case SubmitFence(b, t) => SubmitMove(s, a, b, t, h);
    case ReplyFence(b, t) => ReplyMove(s, a, b, t, h);
    case RegisterCall(b, t) => RegisterMove(s, a, b, t, h);
    case _ => LeaseMoves(s, step, a, h);
  }

  lemma DeliverGrounded(s: State, a: Nonce, b: Nonce, h: Heard)
    requires CanCall(s, Deliver(b))
    ensures CallStepGrounded(s, AfterDeliver(s, b), a, h)
  {
    if a == b && CallGrounded(s.calls[b], h) {
      PerformGrounded(s.calls[b], MAIN, MAIN, Goto(s.calls[b], Sent(DispatchAuditLock)).(dispatchLock := false), h);
    }
    OneCall(s, AfterDeliver(s, b), a, b, SentOff(s.calls[b]), h);
  }

  /** The message of this step, if it is about the call, has been heard. */
  ghost predicate Hears(step: OutsideStep, a: Nonce, h: Heard) {
    && (step.BrowserAnswers? && step.call == a ==> step.answer in h.answers)
    && (step.BrowserAcks? && step.call == a ==> step.e in h.acks)
  }

  lemma SpawnStepGrounded(s: State, s': State, a: Nonce, b: Nonce, u: Tid, kind: Kind, pc: Pc, h: Heard)
    requires b in s.calls && s'.calls == SpawnThread(s, b, u, kind, pc).calls
    requires b == a && CallGrounded(s.calls[b], h) ==> PcGrounded(pc, h)
    ensures CallStepGrounded(s, s', a, h)
  {
    if a == b && CallGrounded(s.calls[b], h) {
      SpawnGrounded(s.calls[b], u, Thread(kind, pc), h);
    }
  }

  lemma ContextGrounded(s: State, s': State, a: Nonce, b: Nonce, u: Tid, kind: Kind, live: ContextPoint, h: Heard)
    requires Inv(s) && CanCancel(s, b) && !live.CachedContext? && s'.calls == SpawnThread(s, b, u, kind, ContextPc(s, b, live)).calls
    ensures CallStepGrounded(s, s', a, h)
  {
    if a == b && CallGrounded(s.calls[b], h) {
      CachedGrounded(s, b, live, h);
    }
    SpawnStepGrounded(s, s', a, b, u, kind, ContextPc(s, b, live), h);
  }

  lemma MessageGrounded(s: State, step: OutsideStep, a: Nonce, h: Heard)
    requires CanOutside(s, step) && Hears(step, a, h) && (step.BrowserConfirms? || step.BrowserAnswers? || step.BrowserAcks?)
    ensures CallStepGrounded(s, AfterOutside(s, step), a, h)
  {
    match step
    case BrowserConfirms(b, m) => OneCall(s, AfterOutside(s, step), a, b, s.calls[b].(confirmedBy := Some(m)), h);
    case BrowserAnswers(b, m, u) =>
      if a == b && CallGrounded(s.calls[b], h) {
        AnsweredGrounded(s.calls[b], m, u, h);
      }
      OneCall(s, AfterOutside(s, step), a, b, Answered(s.calls[b], m, u), h);
    case BrowserAcks(b, e) => OneCall(s, AfterOutside(s, step), a, b, Acked(s.calls[b], e), h);
  }

  lemma OutsideGrounded(s: State, step: OutsideStep, a: Nonce, h: Heard)
    requires Inv(s) && CanOutside(s, step) && Hears(step, a, h)
    ensures CallStepGrounded(s, AfterOutside(s, step), a, h)
  {
    match step
    case StartCancel(b, u) => ContextGrounded(s, AfterOutside(s, step), a, b, u, Cancel, CancelContext, h);
    case StartDisconnect(b, u) => SpawnStepGrounded(s, AfterOutside(s, step), a, b, u, Cancel, Cancelling(CancelEntry), h);
    case StartReconcile(b, u) => ContextGrounded(s, AfterOutside(s, step), a, b, u, Reconcile, ReconcileContext, h);
    case StartReaper(b, u) => SpawnStepGrounded(s, AfterOutside(s, step), a, b, u, Reaper, Reaping(ReapLock), h);
    case _ => MessageGrounded(s, step, a, h);
  }

  lemma RevokeGrounded(s: State, step: RevokeStep, a: Nonce, h: Heard)
    requires Inv(s) && CanRevoke(s, step)
    ensures CallStepGrounded(s, AfterRevoke(s, step), a, h)
  {
    if step.RevokerCancels? {
      ContextGrounded(s, AfterRevoke(s, step), a, step.call, step.u, Cancel, CancelContext, h);
    } else {
      RevokerLeavesCalls(s, step);
    }
  }

  lemma RevokerLeavesCalls(s: State, step: RevokeStep)
    requires CanRevoke(s, step) && !step.RevokerCancels?
    ensures AfterRevoke(s, step).calls == s.calls
  {
  }

  lemma StepGrounded(s: State, step: Step, a: Nonce, h: Heard)
    requires Inv(s) && Can(s, step) && (step.Outside? ==> Hears(step.outside, a, h))
    ensures CallStepGrounded(s, After(s, step), a, h)
  {
    match step
    case World(w) => if w.Crash? { CrashGrounded(s, a, h); } else { WorldLeavesCalls(s, w); }
    case OfCall(c) => OfCallGrounded(s, c, a, h);
    case Outside(o) => OutsideGrounded(s, o, a, h);
    case Revoke(r) => RevokeGrounded(s, r, a, h);
  }

  lemma WorldLeavesCalls(s: State, step: WorldStep)
    requires CanWorld(s, step) && !step.Crash?
    ensures AfterWorld(s, step).calls == s.calls
  {
  }

  // ---------- every run ----------

  lemma {:induction false} RunGrounded(states: seq<State>, i: nat, a: Nonce)
    requires Run(states) && i < |states| && a in states[i].calls
    ensures CallGrounded(states[i].calls[a], HeardAt(states, i, a))
  {
    if i > 0 {
      assert StepAt(states, i);
      var step :| Can(states[i - 1], step) && states[i] == After(states[i - 1], step);
      assert Took(states, i, step);
      var h := HeardAt(states, i, a);
      if a in states[i - 1].calls {
        RunGrounded(states, i - 1, a);
        HeardGrows(states, i, a);
        MoreHeard(states[i - 1].calls[a], HeardAt(states, i - 1, a), h);
      }
      RunInv(states, i - 1);
      HeardNow(states, i, step, a);
      StepGrounded(states[i - 1], step, a, h);
    }
  }

  lemma HeardNow(states: seq<State>, i: nat, step: Step, a: Nonce)
    requires Took(states, i, step)
    ensures step.Outside? ==> Hears(step.outside, a, HeardAt(states, i, a))
  {
  }

  /** The call has the receipt: as its terminal receipt, or as what one of its coroutines returned. */
  ghost predicate HasReceipt(c: Call, r: Receipt) {
    || c.terminal == Some(r)
    || exists t :: t in c.threads && c.threads[t].pc.End? && (c.threads[t].pc.end.Returned? || c.threads[t].pc.end.Snapshot?)
         && c.threads[t].pc.end.receipt == r
  }

  /**
   Whatever receipt a call has stored or returned, in any run: an error of the browser
   is a failure without effect that the browser reported; a value is one that the
   browser answered with, and then with effect `committed`; a success without a value
   is an acknowledged cancellation whose effect was committed; a cancellation has no
   effect and no value.
   */
  lemma ReceiptsTellTheTruth(states: seq<State>, i: nat, a: Nonce, r: Receipt)
    requires Run(states) && i < |states| && a in states[i].calls && HasReceipt(states[i].calls[a], r)
    ensures r.error.BrowserFailure? ==>
      r.status == Failed && r.effect == NoEffect && r.result.None? && Said(states, i, a, ResultError(r.error.code))
    ensures r.status == Failed ==> r.error.BrowserFailure?
    ensures r.result.Some? ==> Said(states, i, a, ResultOk(r.result.value))
    ensures r.status == Succeeded ==>
      r.effect == Committed && r.error == NoError && (r.result.None? ==> Acknowledged(states, i, a, Committed))
    ensures r.status == Cancelled ==> r.effect == NoEffect && r.result.None?
  {
    RunGrounded(states, i, a);
    var c, h := states[i].calls[a], HeardAt(states, i, a);
    if c.terminal != Some(r) {
      var t :| t in c.threads && c.threads[t].pc.End? && (c.threads[t].pc.end.Returned? || c.threads[t].pc.end.Snapshot?)
        && c.threads[t].pc.end.receipt == r;
      assert PcGrounded(c.threads[t].pc, h);
    }
    assert Grounded(r, h);
  }

  // ---------- and the whole truth ----------

  /** The receipt that reports exactly this answer. */
  predicate Tells(r: Receipt, m: BrowserResult) {
    match m
    case ResultOk(v) => r == Receipt(CallStatus.Succeeded, Effect.Committed, Some(v), NoError)
    case ResultError(e) => r == Receipt(CallStatus.Failed, NoEffect, None, BrowserFailure(e))
  }

  predicate Finalizes(pc: Pc) {
    pc.Finalizing? && pc.phase.FinalLock?
  }

  /** With an answer in, execute_call, a cancellation and a reconciliation all go on to finalize exactly that answer. */
  lemma AnswerIsTaken(c: Call, t: Tid, u: Tid, op: Op)
    requires Enabled(c, t, u, op) && c.result.Some?
    requires
      || op.ResultArrived? || op.CancelBegin? || op.CancelAnswered?
      || (op.CancelFlag? && !c.dispatched)
      || (op.ContextDone? && c.threads[t].pc.context.ReconcileContext?)
    ensures var pc := Apply(c, t, u, op).threads[t].pc; Finalizes(pc) && Tells(pc.outcome, c.result.value)
  {
  }

  /** A later answer to a call that timed out is finalized with its own message; the first one stays the call's result. */
  lemma LateAnswerIsTaken(c: Call, m: BrowserResult, u: Tid)
    requires c.timedOut
    ensures u in Answered(c, m, u).threads
    ensures var pc := Answered(c, m, u).threads[u].pc; Finalizes(pc) && Tells(pc.outcome, m)
    ensures Answered(c, m, u).result == if c.result.Some? then c.result else Some(m)
  {
  }

  /** Without an answer, a cancellation reports the acknowledged effect: none if nothing was claimed, unknown without an acknowledgement. */
  lemma AcknowledgementIsTaken(c: Call, t: Tid, u: Tid, acked: bool)
    requires Enabled(c, t, u, CancelAnswered(acked)) && c.result.None?
    ensures var pc := Apply(c, t, u, CancelAnswered(acked)).threads[t].pc;
      && Finalizes(pc) && pc.outcome.result.None?
      && (pc.outcome.status == Succeeded <==> c.claim && acked && c.cancelAck == Some(Committed))
      && (pc.outcome.status == Cancelled <==> !c.claim || (acked && c.cancelAck == Some(NoEffect)))
      && (pc.outcome.status == Unknown <==> c.claim && (!acked || c.cancelAck == Some(UncertainEffect)))
  {
  }

  /** The engine commits what the receipt says, and what it says is stored. */
  lemma CommittedAsReported(s: State, a: Nonce, t: Tid)
    requires CanCall(s, CommitOutcome(a, t, true)) && s.calls[a].claim && !Closed(s.items[s.calls[a].digest].status)
    requires PcOf(s, a, t).outcome.status != Unknown && PcOf(s, a, t).outcome.error != CommitUnavailable && PcOf(s, a, t).outcome.error != CancelUnavailable
    ensures var r := PcOf(s, a, t).outcome; var s' := AfterOutcome(s, a, t, true); var status := s'.items[s.calls[a].digest].status;
      && (status.ItemSucceeded? <==> r.status == Succeeded) && (status.ItemCancelled? <==> r.status == Cancelled) && Closed(status)
      && s'.calls[a].threads[t].pc == Finalizing(FinalStore, r)
  {
  }

  lemma StoredAsReported(s: State, a: Nonce, t: Tid, r: Receipt)
    requires CanCall(s, StoreTerminal(a, t)) && PcOf(s, a, t) == Finalizing(FinalStore, r)
    ensures var s' := AfterStore(s, a, t);
      s'.calls[a].terminal == Some(r) && s'.calls[a].threads[t].pc == End(Returned(r, Some(r))) && Recall(s'.completed, s.calls[a].digest).Some?
  {
    RecallHas(AfterStore(s, a, t).completed, s.calls[a].digest, r);
  }

  lemma {:induction false} RecallHas(cache: seq<(Digest, Receipt)>, d: Digest, r: Receipt)
    requires (d, r) in cache
    ensures Recall(cache, d).Some?
  {
    if cache[0].0 != d {
      RecallHas(cache[1..], d, r);
    }
  }
}
