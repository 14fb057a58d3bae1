/** Exactly when decide() gives each of its answers, and what it leaves in the ledger. */
module ActionPolicyVerdict {
  import opened Common
  import opened ActionPolicy

  // ---------- the two limits ----------

  /** Fewer than `max` allowed actions on the target were seen in the window; a limit below one is none, an unreadable ledger is over it. */
  predicate WithinRate(request: Request, w: World) {
    w.rule.rate.Some? && w.rule.rate.value.max >= 1 ==>
      && w.rateScan.Some?
      && |set r | r in w.rateScan.value && r.target == request.target && (r.decision == Allow || r.decision == AllowNotify)
                  && w.rateTime - r.time <= w.rule.rate.value.window| < w.rule.rate.value.max
  }

  /** With this one, no more than `max_targets` targets were acted on in the window. */
  predicate WithinBlast(request: Request, w: World) {
    w.rule.blast.Some? && w.rule.blast.value.max >= 1 ==>
      && w.blastScan.Some?
      && |{request.target} + set r | r in w.blastScan.value && (r.decision == Allow || r.decision == AllowNotify)
                                     && w.blastTime - r.time <= w.rule.blast.value.window :: r.target| <= w.rule.blast.value.max
  }

  lemma RateMeans(request: Request, w: World)
    ensures WithinRate(request, w) <==> !RateExceeded(request, w.rule.rate, w.rateScan, w.rateTime)
  {
    if w.rule.rate.Some? && w.rateScan.Some? {
      var since := w.rateTime - w.rule.rate.value.window;
      assert Recent(w.rateScan.value, request.target, since) ==
        set r | r in w.rateScan.value && r.target == request.target && (r.decision == Allow || r.decision == AllowNotify)
                && w.rateTime - r.time <= w.rule.rate.value.window;
    }
  }

  lemma BlastMeans(request: Request, w: World)
    ensures WithinBlast(request, w) <==> !BlastExceeded(request, w.rule.blast, w.blastScan, w.blastTime)
  {
    if w.rule.blast.Some? && w.blastScan.Some? {
      var targets := set r | r in w.blastScan.value && (r.decision == Allow || r.decision == AllowNotify)
                             && w.blastTime - r.time <= w.rule.blast.value.window :: r.target;
      assert RecentTargets(w.blastScan.value, w.blastTime - w.rule.blast.value.window) == targets;
      assert targets + {request.target} == {request.target} + targets;
    }
  }

  // ---------- the answers ----------

  /** Nothing went wrong before the rule, and the rule does not forbid. */
  predicate Considered(w: World) {
    !w.raises && w.verified && (w.rule.tier == Auto || w.rule.tier == AutoNotify || w.rule.tier == ApprovalRequired)
  }

  predicate Automatic(w: World) {
    w.rule.tier == Auto || w.rule.tier == AutoNotify
  }

  /**
   An action is allowed if and only if nothing raised, the request was verified, its
   tier is not forbidden, the audit row and the receipt stand, and either a durable
   approval was granted, or the tier is automatic, neither limit is exceeded, no
   aversion applies and the window is open.
   */
  lemma AllowedExactly(request: Request, w: World)
    ensures Allowing(Answer(request, w)) <==>
      && Considered(w) && w.auditId.Some? && w.receiptOk
      && (w.granted.Some? || (Automatic(w) && WithinRate(request, w) && WithinBlast(request, w) && !w.averse && w.inWindow))
    ensures Answer(request, w) == AllowNotify <==>
      Allowing(Answer(request, w)) && w.granted.None? && w.rule.tier == AutoNotify
  {
    RateMeans(request, w);
    BlastMeans(request, w);
  }

  /**
   It is queued if and only if an approval could be filed and is what the tier, the
   blast radius, the aversion or the window asks for; so never if it is unverified or
   forbidden, and never past the rate limit.
   */
  lemma QueuedExactly(request: Request, w: World)
    ensures Answer(request, w) == Queue <==>
      && Considered(w) && w.granted.None? && w.queued.Some?
      && (w.rule.tier == ApprovalRequired || (WithinRate(request, w) && (!WithinBlast(request, w) || w.averse || !w.inWindow)))
    ensures Judge(request, w).decision == Queue ==> Judge(request, w).approval == w.queued
  {
    RateMeans(request, w);
    BlastMeans(request, w);
  }

  /** It is denied if and only if it is unverified, forbidden, or past the rate limit without an approval. */
  lemma DeniedExactly(request: Request, w: World)
    ensures Answer(request, w) == Deny <==>
      !w.raises && (!w.verified || w.rule.tier == Forbidden || (Automatic(w) && w.granted.None? && !WithinRate(request, w)))
  {
    RateMeans(request, w);
  }

  /** A tier that requires approval never allows, denies or passes without one. */
  lemma ApprovalIsRequired(request: Request, w: World)
    requires !w.raises && w.verified && w.rule.tier == ApprovalRequired && w.granted.None?
    ensures Answer(request, w) == if w.queued.Some? then Queue else Unavailable
  {
  }

  // ---------- the ledger ----------

  /** The row says who asked for what, what was decided, when, and by which approval. */
  predicate Records(r: Row, request: Request, id: nat, decision: Decision, approval: Option<nat>, time: real) {
    r.id == id && r.kind == request.kind && r.target == request.target && r.decision == decision && r.approval == approval && r.time == time
  }

  /** An answer other than a withdrawn permission leaves at most one row, which records it. */
  lemma AnswerIsRecorded(request: Request, w: World)
    requires Answer(request, w) == Judge(request, w).decision
    ensures |Audited(request, w)| == if w.auditId.Some? then 1 else 0
    ensures w.auditId.Some? ==>
      Records(Audited(request, w)[0], request, w.auditId.value, Answer(request, w), Judge(request, w).approval, w.auditTime)
  {
  }

  /** A permission without its receipt is withdrawn: the row of the permission stays, and the row of the refusal follows. */
  lemma WithdrawnIsRecorded(request: Request, w: World)
    requires Allowing(Judge(request, w).decision) && !(w.auditId.Some? && w.receiptOk)
    ensures Answer(request, w) == Unavailable
    ensures var first, second := if w.auditId.Some? then 1 else 0, if w.secondAuditId.Some? then 1 else 0;
      && |Audited(request, w)| == first + second
      && (w.auditId.Some? ==>
            Records(Audited(request, w)[0], request, w.auditId.value, Judge(request, w).decision, Judge(request, w).approval, w.auditTime))
      && (w.secondAuditId.Some? ==>
            Records(Audited(request, w)[first], request, w.secondAuditId.value, Unavailable, None, w.secondAuditTime))
  {
  }
}
