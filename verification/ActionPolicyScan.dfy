/** When the cut ledger scan cannot change a verdict: the exact conditions. */
module ActionPolicyScan {
  import opened Common
  import opened ActionPolicy

  // ---------- sizes of sets ----------

  lemma {:induction false} SubsetSize<T>(a: set<T>, b: set<T>)
    requires a <= b
    ensures |a| <= |b|
    ensures |a| == |b| ==> a == b
  {
    if a != {} {
      var x :| x in a;
      SubsetSize(a - {x}, b - {x});
      if |a| == |b| {
        assert a == (a - {x}) + {x} && b == (b - {x}) + {x};
      }
    }
  }

  lemma {:induction false} Part<T>(s: set<T>, n: nat) returns (part: set<T>)
    requires n <= |s|
    ensures part <= s && |part| == n
  {
    if n == |s| {
      part := s;
    } else {
      var x :| x in s;
      part := Part(s - {x}, n);
    }
  }

  /** A part of the given size with as few elements of `some` as there can be. */
  lemma FewestOf<T>(s: set<T>, some: set<T>, n: nat) returns (part: set<T>)
    requires some <= s && n <= |s|
    ensures part <= s && |part| == n
    ensures |part * some| == if |s - some| < n then n - |s - some| else 0
  {
    assert s == (s - some) + some;
    if |s - some| < n {
      var rest := Part(some, n - |s - some|);
      part := (s - some) + rest;
      assert part * some == rest;
    } else {
      part := Part(s - some, n);
      assert part * some == {};
    }
  }

  // ---------- complete scans ----------

  /** The scan sees the whole kind as long as it has at most SCAN_LIMIT rows. */
  predicate Scannable(ledger: seq<Row>, kind: string) {
    |RowsOf(ledger, kind)| <= SCAN_LIMIT
  }

  /** The ledger scan is sure to be complete exactly when the kind has at most SCAN_LIMIT rows. */
  lemma ScanCompleteExactly(ledger: seq<Row>, kind: string)
    ensures Scannable(ledger, kind) <==> forall scan :: PossibleScan(scan, ledger, kind) ==> scan == RowsOf(ledger, kind)
  {
    var rows := RowsOf(ledger, kind);
    if Scannable(ledger, kind) {
      forall scan | PossibleScan(scan, ledger, kind)
        ensures scan == rows
      {
        SubsetSize(scan, rows);
      }
    } else {
      var part := Part(rows, SCAN_LIMIT);
      assert PossibleScan(part, ledger, kind) && part != rows;
    }
  }

  // ---------- the rate verdict ----------

  /**
   The cut cannot hide the limit: the scan is complete, the limit is not reached
   anyway, or too few other rows exist to crowd out `max` recent ones.
   */
  predicate RateSure(ledger: seq<Row>, request: Request, limit: Limit, now: real) {
    var rows := RowsOf(ledger, request.kind);
    var recent := Recent(rows, request.target, now - limit.window);
    Scannable(ledger, request.kind) || |recent| < limit.max || |rows - recent| + limit.max <= SCAN_LIMIT
  }

  /** The verdict of _rate_exceeded on a scan is the one on the whole ledger. */
  predicate RateRight(ledger: seq<Row>, request: Request, limit: Limit, now: real, scan: set<Row>) {
    RateExceeded(request, Some(limit), Some(scan), now)
    == RateExceeded(request, Some(limit), Some(RowsOf(ledger, request.kind)), now)
  }

  lemma RateSeen(ledger: seq<Row>, request: Request, limit: Limit, now: real, scan: set<Row>)
    requires limit.max > 0 && PossibleScan(scan, ledger, request.kind) && RateSure(ledger, request, limit, now)
    ensures RateRight(ledger, request, limit, now, scan)
  {
    var rows := RowsOf(ledger, request.kind);
    var since := now - limit.window;
    var recent := Recent(rows, request.target, since);
    SubsetSize(scan, rows);
    SubsetSize(Recent(scan, request.target, since), recent);
    if scan != rows && |recent| >= limit.max {
      assert scan == (scan - recent) + Recent(scan, request.target, since);
      SubsetSize(scan - recent, rows - recent);
    }
  }

  lemma RateMissed(ledger: seq<Row>, request: Request, limit: Limit, now: real) returns (scan: set<Row>)
    requires limit.max > 0 && !RateSure(ledger, request, limit, now)
    ensures PossibleScan(scan, ledger, request.kind) && !RateRight(ledger, request, limit, now, scan)
  {
    var rows := RowsOf(ledger, request.kind);
    var recent := Recent(rows, request.target, now - limit.window);
    scan := FewestOf(rows, recent, SCAN_LIMIT);
    assert Recent(scan, request.target, now - limit.window) == scan * recent;
  }

  /** Every possible scan gives the right rate verdict if and only if the cut cannot hide the limit. */
  lemma RateRightExactly(ledger: seq<Row>, request: Request, limit: Limit, now: real)
    requires limit.max > 0
    ensures (forall scan :: PossibleScan(scan, ledger, request.kind) ==> RateRight(ledger, request, limit, now, scan))
      <==> RateSure(ledger, request, limit, now)
  {
    if RateSure(ledger, request, limit, now) {
      forall scan | PossibleScan(scan, ledger, request.kind)
        ensures RateRight(ledger, request, limit, now, scan)
      {
        RateSeen(ledger, request, limit, now, scan);
      }
    } else {
      var scan := RateMissed(ledger, request, limit, now);
    }
  }

  // ---------- the blast verdict ----------

  /** The rows that count for no target outside `keep`. */
  function CountingOnlyFor(rows: set<Row>, since: real, keep: set<string>): set<Row> {
    set r | r in rows && (Allowing(r.decision) && r.time >= since ==> r.target in keep)
  }

  /**
   The cut cannot hide the cap: the scan is complete, the cap is not passed anyway,
   or no choice of targets within the cap leaves enough rows to fill a scan.
   */
  ghost predicate BlastSure(ledger: seq<Row>, request: Request, cap: Limit, now: real) {
    var rows := RowsOf(ledger, request.kind);
    Scannable(ledger, request.kind)
    || |RecentTargets(rows, now - cap.window) + {request.target}| <= cap.max
    || forall keep: set<string> :: request.target in keep && |keep| <= cap.max ==>
         |CountingOnlyFor(rows, now - cap.window, keep)| < SCAN_LIMIT
  }

  predicate BlastRight(ledger: seq<Row>, request: Request, cap: Limit, now: real, scan: set<Row>) {
    BlastExceeded(request, Some(cap), Some(scan), now)
    == BlastExceeded(request, Some(cap), Some(RowsOf(ledger, request.kind)), now)
  }

  lemma BlastSeen(ledger: seq<Row>, request: Request, cap: Limit, now: real, scan: set<Row>)
    requires cap.max > 0 && PossibleScan(scan, ledger, request.kind) && BlastSure(ledger, request, cap, now)
    ensures BlastRight(ledger, request, cap, now, scan)
  {
    var rows := RowsOf(ledger, request.kind);
    var since := now - cap.window;
    var keep := RecentTargets(scan, since) + {request.target};
    SubsetSize(scan, rows);
    SubsetSize(keep, RecentTargets(rows, since) + {request.target});
    assert scan <= CountingOnlyFor(rows, since, keep);
    SubsetSize(scan, CountingOnlyFor(rows, since, keep));
  }

  lemma BlastMissed(ledger: seq<Row>, request: Request, cap: Limit, now: real) returns (scan: set<Row>)
    requires cap.max > 0 && !BlastSure(ledger, request, cap, now)
    ensures PossibleScan(scan, ledger, request.kind) && !BlastRight(ledger, request, cap, now, scan)
  {
    var rows := RowsOf(ledger, request.kind);
    var since := now - cap.window;
    var keep: set<string> :| request.target in keep && |keep| <= cap.max && |CountingOnlyFor(rows, since, keep)| >= SCAN_LIMIT;
    scan := Part(CountingOnlyFor(rows, since, keep), SCAN_LIMIT);
    assert RecentTargets(scan, since) + {request.target} <= keep;
    SubsetSize(RecentTargets(scan, since) + {request.target}, keep);
  }

  /** Every possible scan gives the right blast verdict if and only if the cut cannot hide the cap. */
  lemma BlastRightExactly(ledger: seq<Row>, request: Request, cap: Limit, now: real)
    requires cap.max > 0
    ensures (forall scan :: PossibleScan(scan, ledger, request.kind) ==> BlastRight(ledger, request, cap, now, scan))
      <==> BlastSure(ledger, request, cap, now)
  {
    if BlastSure(ledger, request, cap, now) {
      forall scan | PossibleScan(scan, ledger, request.kind)
        ensures BlastRight(ledger, request, cap, now, scan)
      {
        BlastSeen(ledger, request, cap, now, scan);
      }
    } else {
      var scan := BlastMissed(ledger, request, cap, now);
    }
  }
}
