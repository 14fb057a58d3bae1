/** A history that runs past both limits once the kind has more than SCAN_LIMIT rows. */
module ActionPolicyWitness {
  import opened Common
  import opened ActionPolicy
  import opened ActionPolicyScan
  import opened ActionPolicyTheorems

  const KIND: string := "restart"
  const ONE_AN_HOUR: Option<Limit> := Some(Limit(1, 3600.0))

  /** Every target is limited to one action an hour, and "x" is forbidden. */
  function PolicyFor(request: Request): Rule {
    Rule(if request.target == "x" then Forbidden else Auto, ONE_AN_HOUR, ONE_AN_HOUR)
  }

  /** A decision at time 0.0; a forbidden target is denied before any scan. */
  function Asked(target: string, scan: Option<set<Row>>, id: nat): Step {
    Step(Request(KIND, target),
         World(false, true, PolicyFor(Request(KIND, target)), None, scan, 0.0, scan, 0.0, false, true, None, Some(id), 0.0, true, None, 0.0))
  }

  function AllowedRow(id: nat, target: string): Row {
    Row(id, KIND, target, Allow, None, 0.0)
  }

  function DeniedRow(id: nat): Row {
    Row(id, KIND, "x", Deny, None, 0.0)
  }

  // ---------- one allowed decision, then `n` denied ones ----------

  function Busy(n: nat): seq<Step> {
    if n == 0 then [Asked("t", Some({}), 0)] else Busy(n - 1) + [Asked("x", None, n)]
  }

  function BusyLedger(n: nat): seq<Row> {
    if n == 0 then [AllowedRow(0, "t")] else BusyLedger(n - 1) + [DeniedRow(n)]
  }

  function DeniedRows(n: nat): set<Row> {
    if n == 0 then {} else DeniedRows(n - 1) + {DeniedRow(n)}
  }

  predicate Denied(r: Row) {
    r.kind == KIND && r.decision == Deny
  }

  lemma {:induction false} DeniedRowsCount(n: nat)
    ensures |DeniedRows(n)| == n && forall r :: r in DeniedRows(n) ==> r.id <= n && Denied(r)
  {
    if n > 0 {
      DeniedRowsCount(n - 1);
      assert DeniedRow(n) !in DeniedRows(n - 1);
    }
  }

  lemma {:induction false} BusyLedgerRows(n: nat)
    ensures forall r :: r in BusyLedger(n) <==> r == AllowedRow(0, "t") || r in DeniedRows(n)
  {
    if n > 0 {
      BusyLedgerRows(n - 1);
    }
  }

  lemma FirstStep()
    ensures Audited(Request(KIND, "t"), Asked("t", Some({}), 0).world) == [AllowedRow(0, "t")]
  {
    CrowdedOut("t", {}, 0);
  }

  /** With only denied rows in the scan, any request of another target than "x" gets through. */
  lemma CrowdedOut(target: string, scan: set<Row>, id: nat)
    requires target != "x" && forall r :: r in scan ==> Denied(r)
    ensures Audited(Request(KIND, target), Asked(target, Some(scan), id).world) == [AllowedRow(id, target)]
  {
    assert Recent(scan, target, 0.0 - 3600.0) == {};
    assert RecentTargets(scan, 0.0 - 3600.0) + {target} == {target};
    assert Judge(Request(KIND, target), Asked(target, Some(scan), id).world) == Verdict(Allow, None);
  }

  /** A history goes on with a step that fits its ledger. */
  lemma OneMore(steps: seq<Step>, s: Step, policy: Request -> Rule)
    requires History(steps, policy) && StepOk(LedgerAfter(steps), s, policy)
    ensures History(steps + [s], policy)
    ensures LedgerAfter(steps + [s]) == LedgerAfter(steps) + Audited(s.request, s.world)
  {
    var more := steps + [s];
    assert more[..|steps|] == steps;
    forall i: nat
      ensures StepAt(more, i, policy)
    {
      assert StepAt(steps, i, policy);
      if i < |steps| {
        assert more[..i] == steps[..i];
      }
    }
  }

  lemma BusyStarts()
    ensures History(Busy(0), PolicyFor) && LedgerAfter(Busy(0)) == BusyLedger(0)
  {
    FirstStep();
    OneMore([], Asked("t", Some({}), 0), PolicyFor);
    assert [] + [Asked("t", Some({}), 0)] == Busy(0);
  }

  lemma DeniedStep(ledger: seq<Row>, id: nat)
    requires forall r :: r in ledger ==> r.id != id
    ensures StepOk(ledger, Asked("x", None, id), PolicyFor)
    ensures Audited(Request(KIND, "x"), Asked("x", None, id).world) == [DeniedRow(id)]
  {
  }

  lemma {:induction false} BusyHistory(n: nat)
    ensures History(Busy(n), PolicyFor) && LedgerAfter(Busy(n)) == BusyLedger(n)
  {
    if n == 0 {
      BusyStarts();
    } else {
      BusyHistory(n - 1);
      BusyLedgerRows(n - 1);
      DeniedRowsCount(n - 1);
      DeniedStep(BusyLedger(n - 1), n);
      OneMore(Busy(n - 1), Asked("x", None, n), PolicyFor);
    }
  }

  // ---------- the decision that should not be allowed ----------

  lemma ScanOfDenied(n: nat) returns (scan: set<Row>)
    requires n >= SCAN_LIMIT
    ensures PossibleScan(scan, BusyLedger(n), KIND) && forall r :: r in scan ==> Denied(r)
  {
    DeniedRowsCount(n);
    BusyLedgerRows(n);
    scan := Part(DeniedRows(n), SCAN_LIMIT);
    assert scan <= RowsOf(BusyLedger(n), KIND);
  }

  lemma LastStepFits(ledger: seq<Row>, scan: set<Row>, target: string, id: nat)
    requires PossibleScan(scan, ledger, KIND) && forall r :: r in ledger ==> r.id != id
    ensures StepOk(ledger, Asked(target, Some(scan), id), PolicyFor)
  {
  }

  lemma BusyIds(n: nat)
    ensures forall r :: r in BusyLedger(n) ==> r.id != n + 1
  {
    BusyLedgerRows(n);
    DeniedRowsCount(n);
  }

  lemma LastGoesOn(steps: seq<Step>, ledger: seq<Row>, s: Step, r: Row) returns (more: seq<Step>)
    requires History(steps, PolicyFor) && LedgerAfter(steps) == ledger && StepOk(ledger, s, PolicyFor)
    requires Audited(s.request, s.world) == [r]
    ensures History(more, PolicyFor) && LedgerAfter(more) == ledger + [r]
  {
    OneMore(steps, s, PolicyFor);
    more := steps + [s];
  }

  /** After at least SCAN_LIMIT denied rows one more action is allowed at the same moment. */
  lemma Overrun(n: nat, target: string) returns (steps: seq<Step>)
    requires n >= SCAN_LIMIT && target != "x"
    ensures History(steps, PolicyFor)
    ensures AllowedRow(0, "t") in LedgerAfter(steps) && AllowedRow(n + 1, target) in LedgerAfter(steps)
  {
    BusyHistory(n);
    BusyLedgerRows(n);
    BusyIds(n);
    var scan := ScanOfDenied(n);
    CrowdedOut(target, scan, n + 1);
    LastStepFits(BusyLedger(n), scan, target, n + 1);
    steps := LastGoesOn(Busy(n), BusyLedger(n), Asked(target, Some(scan), n + 1), AllowedRow(n + 1, target));
  }

  lemma TwoRows(ledger: seq<Row>, n: nat)
    requires AllowedRow(0, "t") in ledger && AllowedRow(n + 1, "t") in ledger
    ensures |Window(ledger, KIND, "t", 0.0, 3600.0)| > 1
  {
    var two := {AllowedRow(0, "t"), AllowedRow(n + 1, "t")};
    SubsetSize(two, Window(ledger, KIND, "t", 0.0, 3600.0));
  }

  lemma TwoTargets(ledger: seq<Row>, n: nat)
    requires AllowedRow(0, "t") in ledger && AllowedRow(n + 1, "u") in ledger
    ensures |TargetsOf(KindWindow(ledger, KIND, 0.0, 3600.0))| > 1
  {
    var window := KindWindow(ledger, KIND, 0.0, 3600.0);
    assert AllowedRow(0, "t") in window && AllowedRow(n + 1, "u") in window;
    SubsetSize({"t", "u"}, TargetsOf(window));
  }

  /** A history in which a target limited to one action an hour gets two at the same moment. */
  lemma RateLimitOverrun(n: nat) returns (steps: seq<Step>)
    requires n >= SCAN_LIMIT
    ensures History(steps, PolicyFor) && PolicyFor(Request(KIND, "t")).rate == Some(Limit(1, 3600.0))
    ensures |Window(LedgerAfter(steps), KIND, "t", 0.0, 3600.0)| > 1
  {
    steps := Overrun(n, "t");
    TwoRows(LedgerAfter(steps), n);
  }

  /** A history in which a cap of one target an hour lets two targets through at the same moment. */
  lemma BlastRadiusOverrun(n: nat) returns (steps: seq<Step>)
    requires n >= SCAN_LIMIT
    ensures History(steps, PolicyFor) && forall target :: PolicyFor(Request(KIND, target)).blast == Some(Limit(1, 3600.0))
    ensures |TargetsOf(KindWindow(LedgerAfter(steps), KIND, 0.0, 3600.0))| > 1
  {
    steps := Overrun(n, "u");
    TwoTargets(LedgerAfter(steps), n);
  }
}
