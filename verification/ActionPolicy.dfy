/**
 decide() of the action policy: rule tier, durable rate and blast accounting over
 the policy's own audit ledger, and the fail-closed receipt.

 Rule matching, the assurance verifier, the maintenance window, the approval
 probes and the ledger scan are inputs of each decision.
 */
module ActionPolicy {
  import opened Common

  const SCAN_LIMIT: nat := 500

  datatype Decision = Allow | AllowNotify | Queue | Deny | Unavailable

  datatype Tier = Auto | AutoNotify | ApprovalRequired | Forbidden

  datatype Request = Request(kind: string, target: string)

  /** `{max, window_s}` or `{max_targets, window_s}`. */
  datatype Limit = Limit(max: int, window: real)

  /** The matching rule with the defaults filled in; None is an absent or unreadable limit. */
  datatype Rule = Rule(tier: Tier, rate: Option<Limit>, blast: Option<Limit>)

  /** An ActionDecision audit node. */
  datatype Row = Row(id: nat, kind: string, target: string, decision: Decision, approval: Option<nat>, time: real)

  predicate Allowing(d: Decision) {
    d == Allow || d == AllowNotify
  }

  /** What the outside world answers during one decision, in the order it is asked. */
  datatype World = World(
    raises: bool,                       // an exception inside _decide_inner
    verified: bool,
    rule: Rule,
    granted: Option<nat>,               // a matching durable approval
    rateScan: Option<set<Row>>,         // None: the ledger could not be read
    rateTime: real,
    blastScan: Option<set<Row>>,
    blastTime: real,
    averse: bool,                       // irreversible, and the aversion is on
    inWindow: bool,
    queued: Option<nat>,                // the approval id, if filing one succeeds
    auditId: Option<nat>,               // None: the audit write failed
    auditTime: real,
    receiptOk: bool,
    secondAuditId: Option<nat>,
    secondAuditTime: real)

  /** The allowing rows of one target inside the window that ends now. */
  function Recent(rows: set<Row>, target: string, since: real): set<Row> {
    set r | r in rows && r.target == target && Allowing(r.decision) && r.time >= since
  }

  function RecentTargets(rows: set<Row>, since: real): set<string> {
    set r | r in rows && Allowing(r.decision) && r.time >= since :: r.target
  }

  /** _rate_exceeded */
  predicate RateExceeded(request: Request, limit: Option<Limit>, scan: Option<set<Row>>, now: real) {
    limit.Some? && limit.value.max > 0
    && (scan.None? || |Recent(scan.value, request.target, now - limit.value.window)| >= limit.value.max)
  }

  /** _blast_exceeded */
  predicate BlastExceeded(request: Request, cap: Option<Limit>, scan: Option<set<Row>>, now: real) {
    cap.Some? && cap.value.max > 0
    && (scan.None? || |RecentTargets(scan.value, now - cap.value.window) + {request.target}| > cap.value.max)
  }

  datatype Verdict = Verdict(decision: Decision, approval: Option<nat>)

  /** _hold */
  function Hold(w: World): Verdict {
    if w.queued.Some? then Verdict(Queue, w.queued) else Verdict(Unavailable, None)
  }

  /** _decide_inner, with the exception handler of decide. */
  function Judge(request: Request, w: World): Verdict {
    if w.raises then Verdict(Unavailable, None)
    else if !w.verified then Verdict(Deny, None)
    else if w.rule.tier == Forbidden then Verdict(Deny, None)
    else if w.granted.Some? then Verdict(Allow, w.granted)
    else if w.rule.tier == ApprovalRequired then Hold(w)
    else if RateExceeded(request, w.rule.rate, w.rateScan, w.rateTime) then Verdict(Deny, None)
    else if BlastExceeded(request, w.rule.blast, w.blastScan, w.blastTime) then Hold(w)
    else if w.averse || !w.inWindow then Hold(w)
    else Verdict(if w.rule.tier == AutoNotify then AllowNotify else Allow, None)
  }

  function AuditRow(request: Request, id: Option<nat>, v: Verdict, time: real): seq<Row> {
    if id.Some? then [Row(id.value, request.kind, request.target, v.decision, v.approval, time)] else []
  }

  /** An allowing decision stands only with its receipt, which needs its audit row. */
  predicate Stands(v: Verdict, w: World) {
    !Allowing(v.decision) || (w.auditId.Some? && w.receiptOk)
  }

  /** The rows one decision adds to the ledger. */
  function Audited(request: Request, w: World): seq<Row> {
    var v := Judge(request, w);
    AuditRow(request, w.auditId, v, w.auditTime)
    + (if Stands(v, w) then [] else AuditRow(request, w.secondAuditId, Verdict(Unavailable, None), w.secondAuditTime))
  }

  function Answer(request: Request, w: World): Decision {
    var v := Judge(request, w);
    if Stands(v, w) then v.decision else Unavailable
  }

  class Policy {
    var ledger: seq<Row>

    constructor (ledger: seq<Row>)
      ensures this.ledger == ledger
    {
      this.ledger := ledger;
    }

    method Audit(request: Request, id: Option<nat>, v: Verdict, time: real) returns (ok: bool)
      modifies this
      ensures ok == id.Some? && ledger == old(ledger) + AuditRow(request, id, v, time)
    {
      ok := false;
      if id.Some? {
        ledger := ledger + [Row(id.value, request.kind, request.target, v.decision, v.approval, time)];
        ok := true;
      }
    }

    /** decide */
    method Decide(request: Request, w: World) returns (decision: Decision)
      modifies this
      ensures decision == Answer(request, w)
      ensures ledger == old(ledger) + Audited(request, w)
    {
      var v := Judge(request, w);
      var audited := Audit(request, w.auditId, v, w.auditTime);
      var receipt := audited && w.receiptOk;
      if !Allowing(v.decision) || receipt {
        return v.decision;
      }
      var _ := Audit(request, w.secondAuditId, Verdict(Unavailable, None), w.secondAuditTime);
      decision := Unavailable;
    }
  }

  // ---------- serial decisions ----------

  datatype Step = Step(request: Request, world: World)

  function LedgerAfter(steps: seq<Step>): seq<Row> {
    if steps == [] then []
    else LedgerAfter(steps[..|steps| - 1]) + Audited(steps[|steps| - 1].request, steps[|steps| - 1].world)
  }

  function RowsOf(ledger: seq<Row>, kind: string): set<Row> {
    set r | r in ledger && r.kind == kind
  }

  /** What the engine may return: all rows of the kind, or as many as the limit lets through. */
  predicate PossibleScan(scan: set<Row>, ledger: seq<Row>, kind: string) {
    var rows := RowsOf(ledger, kind);
    scan <= rows && (scan == rows || |scan| == SCAN_LIMIT)
  }

  predicate ScanOk(scan: Option<set<Row>>, ledger: seq<Row>, kind: string) {
    scan.Some? ==> PossibleScan(scan.value, ledger, kind)
  }

  /** Rows carry fresh ids, the scans are of this ledger, and the clock does not run back during a decision. */
  ghost predicate StepOk(ledger: seq<Row>, s: Step, policy: Request -> Rule) {
    var w := s.world;
    && w.rule == policy(s.request)
    && ScanOk(w.rateScan, ledger, s.request.kind) && ScanOk(w.blastScan, ledger, s.request.kind)
    && w.rateTime <= w.auditTime && w.blastTime <= w.auditTime
    && (forall r :: r in ledger ==> Some(r.id) != w.auditId && Some(r.id) != w.secondAuditId)
    && (w.auditId.Some? ==> w.auditId != w.secondAuditId)
  }

  ghost predicate StepAt(steps: seq<Step>, i: nat, policy: Request -> Rule) {
    i < |steps| ==> StepOk(LedgerAfter(steps[..i]), steps[i], policy)
  }

  /** A serial history of decisions under one fixed policy. */
  ghost predicate History(steps: seq<Step>, policy: Request -> Rule) {
    forall i :: StepAt(steps, i, policy)
  }
}
