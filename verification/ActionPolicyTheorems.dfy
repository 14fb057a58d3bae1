/** The sliding windows of the action policy hold over every serial history. */
module ActionPolicyTheorems {
  import opened Common
  import opened ActionPolicy
  import opened ActionPolicyScan

  // ---------- receipts ----------

  /** An allowing answer always has its own row in the ledger: a failed audit write or receipt never allows. */
  lemma AllowedIsAudited(request: Request, w: World)
    requires Allowing(Answer(request, w))
    ensures w.auditId.Some? && w.receiptOk
    ensures Audited(request, w) ==
      [Row(w.auditId.value, request.kind, request.target, Answer(request, w), Judge(request, w).approval, w.auditTime)]
  {
  }

  /** Allowed by a rule, not by a durable approval. */
  predicate ByRule(r: Row) {
    Allowing(r.decision) && r.approval.None?
  }

  // ---------- what each allowed row knew ----------

  /** When a row was allowed by a rule, fewer than `max` allowing rows of its target were in its window. */
  predicate RateOk(before: set<Row>, r: Row, rule: Rule) {
    ByRule(r) && rule.rate.Some? && rule.rate.value.max > 0 ==>
      |Recent(before, r.target, r.time - rule.rate.value.window)| < rule.rate.value.max
  }

  /** When a row was allowed by a rule, its window with it had at most `max_targets` targets. */
  predicate BlastOk(before: set<Row>, r: Row, rule: Rule) {
    ByRule(r) && rule.blast.Some? && rule.blast.value.max > 0 ==>
      |RecentTargets(before, r.time - rule.blast.value.window) + {r.target}| <= rule.blast.value.max
  }

  /** The two windows a rule can limit. */
  datatype Check = Rate | Blast

  predicate RowOk(check: Check, before: set<Row>, r: Row, rule: Rule) {
    match check
    case Rate => RateOk(before, r, rule)
    case Blast => BlastOk(before, r, rule)
  }

  /** Every row of the ledger was within its window when it was written. */
  ghost predicate LedgerOk(check: Check, ledger: seq<Row>, policy: Request -> Rule) {
    && (forall i, j :: 0 <= i < j < |ledger| ==> ledger[i].id != ledger[j].id)
    && (forall i :: 0 <= i < |ledger| ==>
          RowOk(check, RowsOf(ledger[..i], ledger[i].kind), ledger[i], policy(Request(ledger[i].kind, ledger[i].target))))
  }

  /** The cut of the ledger scan cannot change what this step's check says. */
  ghost predicate Sure(check: Check, ledger: seq<Row>, s: Step, rule: Rule) {
    match check
    case Rate =>
      rule.rate.Some? && rule.rate.value.max > 0 ==> RateSure(ledger, s.request, rule.rate.value, s.world.rateTime)
    case Blast =>
      rule.blast.Some? && rule.blast.value.max > 0 ==> BlastSure(ledger, s.request, rule.blast.value, s.world.blastTime)
  }

  lemma LaterSince(rows: set<Row>, target: string, since: real, later: real)
    requires since <= later
    ensures |Recent(rows, target, later)| <= |Recent(rows, target, since)|
    ensures RecentTargets(rows, later) <= RecentTargets(rows, since)
  {
    SubsetSize(Recent(rows, target, later), Recent(rows, target, since));
  }

  /** The row that a step writes about its own verdict. */
  function VerdictRow(s: Step, id: nat): Row {
    var v := Judge(s.request, s.world);
    Row(id, s.request.kind, s.request.target, v.decision, v.approval, s.world.auditTime)
  }

  lemma RateJudged(ledger: seq<Row>, s: Step, policy: Request -> Rule, id: nat)
    requires StepOk(ledger, s, policy) && Sure(Rate, ledger, s, policy(s.request))
    ensures RateOk(RowsOf(ledger, s.request.kind), VerdictRow(s, id), policy(s.request))
  {
    var w, rows, rate := s.world, RowsOf(ledger, s.request.kind), policy(s.request).rate;
    if ByRule(VerdictRow(s, id)) && rate.Some? && rate.value.max > 0 {
      RateSeen(ledger, s.request, rate.value, w.rateTime, w.rateScan.value);
      LaterSince(rows, s.request.target, w.rateTime - rate.value.window, w.auditTime - rate.value.window);
    }
  }

  lemma BlastPassed(ledger: seq<Row>, s: Step, policy: Request -> Rule, cap: Limit)
    requires StepOk(ledger, s, policy) && BlastSure(ledger, s.request, cap, s.world.blastTime) && cap.max > 0
    requires s.world.blastScan.Some? && !BlastExceeded(s.request, Some(cap), s.world.blastScan, s.world.blastTime)
    ensures |RecentTargets(RowsOf(ledger, s.request.kind), s.world.auditTime - cap.window) + {s.request.target}| <= cap.max
  {
    var w, rows := s.world, RowsOf(ledger, s.request.kind);
    BlastSeen(ledger, s.request, cap, w.blastTime, w.blastScan.value);
    LaterSince(rows, s.request.target, w.blastTime - cap.window, w.auditTime - cap.window);
    SubsetSize(RecentTargets(rows, w.auditTime - cap.window) + {s.request.target},
               RecentTargets(rows, w.blastTime - cap.window) + {s.request.target});
  }

  lemma BlastJudged(ledger: seq<Row>, s: Step, policy: Request -> Rule, id: nat)
    requires StepOk(ledger, s, policy) && Sure(Blast, ledger, s, policy(s.request))
    ensures BlastOk(RowsOf(ledger, s.request.kind), VerdictRow(s, id), policy(s.request))
  {
    var cap := policy(s.request).blast;
    if ByRule(VerdictRow(s, id)) && cap.Some? && cap.value.max > 0 {
      PassedBoth(s.request, s.world);
      BlastPassed(ledger, s, policy, cap.value);
    }
  }

  /** What a decision that a rule allows has got past. */
  lemma PassedBoth(request: Request, w: World)
    requires Allowing(Judge(request, w).decision) && Judge(request, w).approval.None?
    ensures !RateExceeded(request, w.rule.rate, w.rateScan, w.rateTime) && !BlastExceeded(request, w.rule.blast, w.blastScan, w.blastTime)
  {
  }

  /** A decision that a rule allows has passed its check against the whole ledger of its kind. */
  lemma Judged(check: Check, ledger: seq<Row>, s: Step, policy: Request -> Rule, id: nat)
    requires StepOk(ledger, s, policy) && Sure(check, ledger, s, policy(s.request))
    ensures RowOk(check, RowsOf(ledger, s.request.kind), VerdictRow(s, id), policy(s.request))
  {
    match check
    case Rate => RateJudged(ledger, s, policy, id);
    case Blast => BlastJudged(ledger, s, policy, id);
  }

  // ---------- the ledger of a history ----------

  lemma OneMoreRow(check: Check, ledger: seq<Row>, r: Row, policy: Request -> Rule)
    requires LedgerOk(check, ledger, policy) && forall x :: x in ledger ==> x.id != r.id
    requires RowOk(check, RowsOf(ledger, r.kind), r, policy(Request(r.kind, r.target)))
    ensures LedgerOk(check, ledger + [r], policy)
  {
    var more := ledger + [r];
    forall i | 0 <= i < |more|
      ensures RowOk(check, RowsOf(more[..i], more[i].kind), more[i], policy(Request(more[i].kind, more[i].target)))
    {
      if i < |ledger| {
        assert more[..i] == ledger[..i];
        RowKnown(check, ledger, policy, i);
      } else {
        assert more[..i] == ledger;
      }
    }
    forall i, j | 0 <= i < j < |more|
      ensures more[i].id != more[j].id
    {
      if j == |ledger| {
        assert more[i] in ledger;
      }
    }
  }

  /** What the ledger says of one of its rows. */
  lemma RowKnown(check: Check, ledger: seq<Row>, policy: Request -> Rule, i: nat)
    requires LedgerOk(check, ledger, policy) && i < |ledger|
    ensures RowOk(check, RowsOf(ledger[..i], ledger[i].kind), ledger[i], policy(Request(ledger[i].kind, ledger[i].target)))
  {
  }

  lemma StepKeeps(check: Check, ledger: seq<Row>, s: Step, policy: Request -> Rule)
    requires LedgerOk(check, ledger, policy) && StepOk(ledger, s, policy) && Sure(check, ledger, s, policy(s.request))
    ensures LedgerOk(check, ledger + Audited(s.request, s.world), policy)
  {
    var w, v := s.world, Judge(s.request, s.world);
    assert s.request == Request(s.request.kind, s.request.target);
    var first := AuditRow(s.request, w.auditId, v, w.auditTime);
    if w.auditId.Some? {
      Judged(check, ledger, s, policy, w.auditId.value);
      OneMoreRow(check, ledger, VerdictRow(s, w.auditId.value), policy);
      assert first == [VerdictRow(s, w.auditId.value)];
    } else {
      assert ledger + first == ledger;
    }
    if !Stands(v, w) && w.secondAuditId.Some? {
      var r := Row(w.secondAuditId.value, s.request.kind, s.request.target, Unavailable, None, w.secondAuditTime);
      OneMoreRow(check, ledger + first, r, policy);
      assert (ledger + first) + [r] == ledger + (first + [r]);
    } else {
      assert ledger + (first + []) == ledger + first;
    }
  }

  ghost predicate SureAt(check: Check, steps: seq<Step>, i: nat, policy: Request -> Rule) {
    i < |steps| ==> Sure(check, LedgerAfter(steps[..i]), steps[i], policy(steps[i].request))
  }

  /** At no decision of the history could the cut of the scan hide the limit. */
  ghost predicate AlwaysSure(check: Check, steps: seq<Step>, policy: Request -> Rule) {
    forall i :: SureAt(check, steps, i, policy)
  }

  lemma {:induction false} HistoryLedger(check: Check, steps: seq<Step>, policy: Request -> Rule)
    requires History(steps, policy) && AlwaysSure(check, steps, policy)
    ensures LedgerOk(check, LedgerAfter(steps), policy)
  {
    if steps != [] {
      var n := |steps| - 1;
      var before := steps[..n];
      forall i: nat
        ensures StepAt(before, i, policy) && SureAt(check, before, i, policy)
      {
        assert StepAt(steps, i, policy) && SureAt(check, steps, i, policy);
        if i < n {
          assert before[..i] == steps[..i];
        }
      }
      assert StepAt(steps, n, policy) && SureAt(check, steps, n, policy);
      HistoryLedger(check, before, policy);
      StepKeeps(check, LedgerAfter(before), steps[n], policy);
    }
  }

  // ---------- allowed steps and their rows ----------

  /** The i-th decision was answered with an allowing verdict of a rule, not of a durable approval. */
  predicate AllowedByRule(steps: seq<Step>, i: nat) {
    i < |steps| && Allowing(Answer(steps[i].request, steps[i].world)) && Judge(steps[i].request, steps[i].world).approval.None?
  }

  function RowOfStep(steps: seq<Step>, i: nat): Row
    requires AllowedByRule(steps, i)
  {
    AllowedIsAudited(steps[i].request, steps[i].world);
    VerdictRow(steps[i], steps[i].world.auditId.value)
  }

  lemma {:induction false} LedgerGrows(steps: seq<Step>, i: nat)
    requires i <= |steps|
    ensures LedgerAfter(steps[..i]) <= LedgerAfter(steps)
  {
    if i < |steps| {
      LedgerGrows(steps[..|steps| - 1], i);
      assert steps[..|steps| - 1][..i] == steps[..i];
    } else {
      assert steps[..i] == steps;
    }
  }

  /** An allowed decision has its own row: in the ledger from then on, and not in the ledger before. */
  lemma OwnRow(steps: seq<Step>, policy: Request -> Rule, i: nat)
    requires History(steps, policy) && AllowedByRule(steps, i)
    ensures RowOfStep(steps, i) in LedgerAfter(steps[..i + 1]) && RowOfStep(steps, i) in LedgerAfter(steps)
    ensures RowOfStep(steps, i) !in LedgerAfter(steps[..i]) && ByRule(RowOfStep(steps, i))
  {
    AllowedIsAudited(steps[i].request, steps[i].world);
    var upto := steps[..i + 1];
    assert upto[..|upto| - 1] == steps[..i];
    LedgerGrows(steps, i + 1);
    assert StepAt(steps, i, policy);
  }

  lemma LedgerGrowsFrom(steps: seq<Step>, i: nat, j: nat)
    requires i <= j <= |steps|
    ensures LedgerAfter(steps[..i]) <= LedgerAfter(steps[..j])
  {
    LedgerGrows(steps[..j], i);
    assert steps[..j][..i] == steps[..i];
  }

  lemma RowsDiffer(steps: seq<Step>, policy: Request -> Rule, i: nat, j: nat)
    requires History(steps, policy) && AllowedByRule(steps, i) && AllowedByRule(steps, j) && i < j
    ensures RowOfStep(steps, i) != RowOfStep(steps, j)
  {
    OwnRow(steps, policy, i);
    OwnRow(steps, policy, j);
    LedgerGrowsFrom(steps, i + 1, j);
  }

  /** The decisions about one kind and target that a rule allowed between two times. */
  function AllowedSteps(steps: seq<Step>, request: Request, from: real, to: real): set<nat> {
    set i: nat | i < |steps| && AllowedByRule(steps, i) && steps[i].request == request && from <= steps[i].world.auditTime <= to
  }

  /** The targets of a kind that rules allowed between two times. */
  function AllowedTargets(steps: seq<Step>, kind: string, from: real, to: real): set<string> {
    set i: nat | i < |steps| && AllowedByRule(steps, i) && steps[i].request.kind == kind && from <= steps[i].world.auditTime <= to
      :: steps[i].request.target
  }

  /** Different decisions have different rows, so there are no more decisions than rows. */
  lemma {:induction false} NoMoreStepsThanRows(steps: seq<Step>, policy: Request -> Rule, some: set<nat>, rows: set<Row>)
    requires History(steps, policy) && forall i :: i in some ==> AllowedByRule(steps, i) && RowOfStep(steps, i) in rows
    ensures |some| <= |rows|
  {
    if some != {} {
      var i :| i in some;
      var r := RowOfStep(steps, i);
      forall j | j in some - {i}
        ensures RowOfStep(steps, j) in rows - {r}
      {
        RowsDiffer(steps, policy, if i < j then i else j, if i < j then j else i);
      }
      NoMoreStepsThanRows(steps, policy, some - {i}, rows - {r});
    }
  }

  lemma StepsHaveRows(steps: seq<Step>, policy: Request -> Rule, request: Request, from: real, to: real)
    requires History(steps, policy)
    ensures |AllowedSteps(steps, request, from, to)| <= |Window(LedgerAfter(steps), request.kind, request.target, from, to)|
  {
    var some := AllowedSteps(steps, request, from, to);
    var rows := Window(LedgerAfter(steps), request.kind, request.target, from, to);
    forall i | i in some
      ensures RowOfStep(steps, i) in rows
    {
      OwnRow(steps, policy, i);
    }
    NoMoreStepsThanRows(steps, policy, some, rows);
  }

  lemma TargetsHaveRows(steps: seq<Step>, policy: Request -> Rule, kind: string, from: real, to: real)
    requires History(steps, policy)
    ensures AllowedTargets(steps, kind, from, to) <= TargetsOf(KindWindow(LedgerAfter(steps), kind, from, to))
  {
    forall t | t in AllowedTargets(steps, kind, from, to)
      ensures t in TargetsOf(KindWindow(LedgerAfter(steps), kind, from, to))
    {
      var i: nat :| i < |steps| && AllowedByRule(steps, i) && steps[i].request.kind == kind
        && from <= steps[i].world.auditTime <= to && steps[i].request.target == t;
      OwnRow(steps, policy, i);
      assert RowOfStep(steps, i) in KindWindow(LedgerAfter(steps), kind, from, to);
    }
  }

  lemma NoMoreTargetsThanRows(steps: seq<Step>, policy: Request -> Rule, kind: string, from: real, to: real)
    requires History(steps, policy)
    ensures |AllowedTargets(steps, kind, from, to)| <= |TargetsOf(KindWindow(LedgerAfter(steps), kind, from, to))|
  {
    TargetsHaveRows(steps, policy, kind, from, to);
    SubsetSize(AllowedTargets(steps, kind, from, to), TargetsOf(KindWindow(LedgerAfter(steps), kind, from, to)));
  }

  // ---------- windows ----------

  /** The rows that a rule allowed for one kind and target between two times. */
  function Window(ledger: seq<Row>, kind: string, target: string, from: real, to: real): set<Row> {
    set r | r in ledger && r.kind == kind && r.target == target && ByRule(r) && from <= r.time <= to
  }

  /** The last row of the ledger that satisfies a selection. */
  lemma {:induction false} LastOf(ledger: seq<Row>, some: set<Row>) returns (i: nat)
    requires some != {} && forall r :: r in some ==> r in ledger
    ensures i < |ledger| && ledger[i] in some && forall r :: r in some ==> r == ledger[i] || r in ledger[..i]
  {
    var n := |ledger| - 1;
    if n >= 0 && ledger[n] in some {
      i := n;
    } else {
      forall r | r in some
        ensures r in ledger[..n]
      {
        var j :| 0 <= j < |ledger| && ledger[j] == r;
        assert ledger[..n][j] == r;
      }
      i := LastOf(ledger[..n], some);
      assert ledger[..n][..i] == ledger[..i];
    }
  }

  /**
   Rate limit: as long as no scan can hide it, every window of the rule's length
   has at most `max` rows of decisions that the rule allowed for one kind and target.
   */
  lemma RateLimitHolds(steps: seq<Step>, policy: Request -> Rule, request: Request, from: real)
    requires History(steps, policy) && AlwaysSure(Rate, steps, policy)
    requires policy(request).rate.Some? && policy(request).rate.value.max > 0
    ensures var limit := policy(request).rate.value;
      |Window(LedgerAfter(steps), request.kind, request.target, from, from + limit.window)| <= limit.max
  {
    HistoryLedger(Rate, steps, policy);
    RateInLedger(LedgerAfter(steps), policy, request, from);
  }

  /** And so it has at most `max` allowing answers of the rule. */
  lemma RateAnswersHold(steps: seq<Step>, policy: Request -> Rule, request: Request, from: real)
    requires History(steps, policy) && AlwaysSure(Rate, steps, policy)
    requires policy(request).rate.Some? && policy(request).rate.value.max > 0
    ensures var limit := policy(request).rate.value;
      |AllowedSteps(steps, request, from, from + limit.window)| <= limit.max
  {
    RateLimitHolds(steps, policy, request, from);
    StepsHaveRows(steps, policy, request, from, from + policy(request).rate.value.window);
  }

  lemma RateInLedger(ledger: seq<Row>, policy: Request -> Rule, request: Request, from: real)
    requires LedgerOk(Rate, ledger, policy) && policy(request).rate.Some? && policy(request).rate.value.max > 0
    ensures var limit := policy(request).rate.value;
      |Window(ledger, request.kind, request.target, from, from + limit.window)| <= limit.max
  {
    var limit := policy(request).rate.value;
    var some := Window(ledger, request.kind, request.target, from, from + limit.window);
    if some != {} {
      var i := LastOf(ledger, some);
      RowKnown(Rate, ledger, policy, i);
      RateFromLast(some, ledger[i], ledger[..i], from, policy(request));
    }
  }

  lemma RateFromLast(some: set<Row>, r: Row, before: seq<Row>, from: real, rule: Rule)
    requires rule.rate.Some? && rule.rate.value.max > 0 && RateOk(RowsOf(before, r.kind), r, rule)
    requires forall x :: x in some ==>
      x.kind == r.kind && x.target == r.target && ByRule(x) && from <= x.time <= from + rule.rate.value.window && (x == r || x in before)
    requires r in some
    ensures |some| <= rule.rate.value.max
  {
    WindowIsRecent(some, r, before, from, rule.rate.value.window);
    SubsetSize(some - {r}, Recent(RowsOf(before, r.kind), r.target, r.time - rule.rate.value.window));
  }

  /** Seen from its last row, a window lies in the recent past. */
  lemma WindowIsRecent(some: set<Row>, r: Row, before: seq<Row>, from: real, window: real)
    requires forall x :: x in some ==>
      x.kind == r.kind && x.target == r.target && ByRule(x) && from <= x.time <= from + window && (x == r || x in before)
    requires r in some
    ensures some - {r} <= Recent(RowsOf(before, r.kind), r.target, r.time - window)
  {
  }

  /** The rows of a kind that a rule allowed between two times, whatever their target. */
  function KindWindow(ledger: seq<Row>, kind: string, from: real, to: real): set<Row> {
    set r | r in ledger && r.kind == kind && ByRule(r) && from <= r.time <= to
  }

  function TargetsOf(rows: set<Row>): set<string> {
    set r | r in rows :: r.target
  }

  /**
   Blast radius: if all rules of a kind share one cap and no scan can hide it, every
   window of its length has at most `max_targets` different targets among the rows
   of the decisions they allowed.
   */
  lemma BlastRadiusHolds(steps: seq<Step>, policy: Request -> Rule, kind: string, cap: Limit, from: real)
    requires History(steps, policy) && AlwaysSure(Blast, steps, policy)
    requires cap.max > 0 && forall target :: policy(Request(kind, target)).blast == Some(cap)
    ensures |TargetsOf(KindWindow(LedgerAfter(steps), kind, from, from + cap.window))| <= cap.max
  {
    HistoryLedger(Blast, steps, policy);
    BlastInLedger(LedgerAfter(steps), policy, kind, cap, from);
  }

  /** And so do the allowing answers of the rules. */
  lemma BlastAnswersHold(steps: seq<Step>, policy: Request -> Rule, kind: string, cap: Limit, from: real)
    requires History(steps, policy) && AlwaysSure(Blast, steps, policy)
    requires cap.max > 0 && forall target :: policy(Request(kind, target)).blast == Some(cap)
    ensures |AllowedTargets(steps, kind, from, from + cap.window)| <= cap.max
  {
    BlastRadiusHolds(steps, policy, kind, cap, from);
    NoMoreTargetsThanRows(steps, policy, kind, from, from + cap.window);
  }

  lemma BlastInLedger(ledger: seq<Row>, policy: Request -> Rule, kind: string, cap: Limit, from: real)
    requires LedgerOk(Blast, ledger, policy)
    requires cap.max > 0 && forall target :: policy(Request(kind, target)).blast == Some(cap)
    ensures |TargetsOf(KindWindow(ledger, kind, from, from + cap.window))| <= cap.max
  {
    var some := KindWindow(ledger, kind, from, from + cap.window);
    if some != {} {
      var i := LastOf(ledger, some);
      RowKnown(Blast, ledger, policy, i);
      BlastFromLast(some, ledger[i], ledger[..i], from, cap, policy(Request(kind, ledger[i].target)));
    } else {
      assert TargetsOf(some) == {};
    }
  }

  lemma BlastFromLast(some: set<Row>, r: Row, before: seq<Row>, from: real, cap: Limit, rule: Rule)
    requires rule.blast == Some(cap) && cap.max > 0 && BlastOk(RowsOf(before, r.kind), r, rule)
    requires forall x :: x in some ==>
      x.kind == r.kind && ByRule(x) && from <= x.time <= from + cap.window && (x == r || x in before)
    requires r in some
    ensures |TargetsOf(some)| <= cap.max
  {
    TargetsAreRecent(some, r, before, from, cap.window);
    SubsetSize(TargetsOf(some), RecentTargets(RowsOf(before, r.kind), r.time - cap.window) + {r.target});
  }

  lemma TargetsAreRecent(some: set<Row>, r: Row, before: seq<Row>, from: real, window: real)
    requires forall x :: x in some ==>
      x.kind == r.kind && ByRule(x) && from <= x.time <= from + window && (x == r || x in before)
    requires r in some
    ensures TargetsOf(some) <= RecentTargets(RowsOf(before, r.kind), r.time - window) + {r.target}
  {
    forall t | t in TargetsOf(some) && t != r.target
      ensures t in RecentTargets(RowsOf(before, r.kind), r.time - window)
    {
      var x :| x in some && x.target == t;
      assert x in RowsOf(before, r.kind);
    }
  }
}
