/** What every emit, rotation, failure and reopening keeps of the retained log. */
module HostLogRetention {
  import opened Common
  import opened HostLog
  import opened HostLogLaws

  /** The lines an emit adds: one whole record, a fragment, or nothing. */
  function Added(k: Sink, m: Message, fault: Fault): seq<Line> {
    if !Admits(k, m) || fault.OpenFails? || (fault.RotateFails? && Rotates(k, m)) then []
    else if fault.WriteFails? then (if fault.written == 0 then [] else [Fragment(fault.written)])
    else [Whole(NextRecord(k, m), m.size)]
  }

  predicate Possible(m: Message, fault: Fault) {
    (fault.RotateFails? ==> fault.at <= 4) && (fault.WriteFails? ==> fault.written < m.size)
  }

  lemma PreparedDrops(k: Sink, m: Message) returns (dropped: seq<Line>)
    ensures Retained(k.files) == dropped + Retained(Prepared(k, m))
  {
    OpenedKeeps(k.files);
    if Rotates(k, m) {
      RotationDrops(Opened(k.files), 0);
      OpenedKeeps(RotatedTo(Opened(k.files), 0));
      dropped := Dropped(Opened(k.files), 0);
    } else {
      dropped := [];
    }
  }

  /** Conservation: an emit only appends its line, and only the oldest lines go. */
  lemma EmitConserves(k: Sink, m: Message, fault: Fault) returns (dropped: seq<Line>)
    requires Possible(m, fault)
    ensures Retained(k.files) + Added(k, m, fault) == dropped + Retained(AfterEmit(k, m, fault).0.files)
  {
    if !Admits(k, m) || fault.OpenFails? {
      dropped := [];
    } else if fault.RotateFails? && Rotates(k, m) {
      OpenedKeeps(k.files);
      RotationDrops(Opened(k.files), fault.at);
      dropped := Dropped(Opened(k.files), fault.at);
    } else {
      dropped := PreparedDrops(k, m);
      AppendedConserves(k, m, fault, dropped);
    }
  }

  lemma WrittenFiles(k: Sink, m: Message, fault: Fault)
    requires Possible(m, fault) && Admits(k, m) && !fault.OpenFails? && !(fault.RotateFails? && Rotates(k, m))
    ensures var added := Added(k, m, fault);
      AfterEmit(k, m, fault).0.files == if added == [] then Prepared(k, m) else Append(Prepared(k, m), added[0])
  {
  }

  lemma GrowsBy(lines: seq<Line>, dropped: seq<Line>, base: Files, line: Line)
    requires lines == dropped + Retained(base)
    ensures lines + [line] == dropped + Retained(Append(base, line))
  {
    AppendRetains(base, line);
    assert (dropped + Retained(base)) + [line] == dropped + (Retained(base) + [line]);
  }

  lemma AppendedConserves(k: Sink, m: Message, fault: Fault, dropped: seq<Line>)
    requires Possible(m, fault) && Admits(k, m) && !fault.OpenFails? && !(fault.RotateFails? && Rotates(k, m))
    requires Retained(k.files) == dropped + Retained(Prepared(k, m))
    ensures Retained(k.files) + Added(k, m, fault) == dropped + Retained(AfterEmit(k, m, fault).0.files)
  {
    WrittenFiles(k, m, fault);
    var added := Added(k, m, fault);
    if added != [] {
      assert added == [added[0]];
      GrowsBy(Retained(k.files), dropped, Prepared(k, m), added[0]);
    }
  }

  // ---------- sizes ----------

  predicate Fits(f: Files, cap: nat) {
    forall i :: 0 <= i < 5 ==> Size(Contents(f[i])) <= cap
  }

  lemma RotatedFits(f: Files, stop: nat, cap: nat)
    requires Fits(f, cap) && stop <= 4
    ensures Fits(RotatedTo(f, stop), cap)
  {
    RotationMoves(f, stop);
    var g := RotatedTo(f, stop);
    forall i | 0 <= i < 5
      ensures Size(Contents(g[i])) <= cap
    {
      if g[i].Some? {
        var j :| 0 <= j < 5 && f[j] == g[i];
        assert Size(Contents(f[j])) <= cap;
      }
    }
  }

  lemma PreparedFits(k: Sink, m: Message, cap: nat)
    requires Fits(k.files, cap) && k.maxBytes <= cap && m.size <= LineLimit(k)
    ensures Fits(Prepared(k, m), cap) && Size(Contents(Prepared(k, m)[0])) + m.size <= k.maxBytes
  {
    OpenedKeeps(k.files);
    if Rotates(k, m) {
      RotatedFits(Opened(k.files), 0, cap);
      OpenedKeeps(RotatedTo(Opened(k.files), 0));
      RotationMoves(Opened(k.files), 0);
    }
  }

  /** Every file stays within the largest max_bytes in use, whatever fails. */
  lemma EmitFits(k: Sink, m: Message, fault: Fault, cap: nat)
    requires Possible(m, fault) && Fits(k.files, cap) && k.maxBytes <= cap
    ensures Fits(AfterEmit(k, m, fault).0.files, cap)
  {
    if Admits(k, m) && !fault.OpenFails? {
      OpenedKeeps(k.files);
      if fault.RotateFails? && Rotates(k, m) {
        RotatedFits(Opened(k.files), fault.at, cap);
      } else {
        PreparedFits(k, m, cap);
        if Added(k, m, fault) != [] {
          WrittenFiles(k, m, fault);
          AppendFits(Prepared(k, m), Added(k, m, fault)[0], cap);
        }
      }
    }
  }

  lemma AppendFits(f: Files, line: Line, cap: nat)
    requires Fits(f, cap) && Size(Contents(f[0])) + line.size <= cap
    ensures Fits(Append(f, line), cap)
  {
    AppendRetains(f, line);
    var g := Append(f, line);
    forall i | 0 <= i < 5
      ensures Size(Contents(g[i])) <= cap
    {
      assert i > 0 ==> g[i] == f[i];
    }
  }

  // ---------- the invariant ----------

  /** What the sink wrote: a record of its own workspace, numbered from 1, in a line of bounded length. */
  predicate WrittenLine(line: Line, workspace: string) {
    line.Whole? ==> line.record.workspace == workspace && line.size <= MAX_LINE && line.record.sequence >= 1
  }

  ghost predicate LinesInv(k: Sink) {
    && (forall i :: 0 <= i < |Retained(k.files)| ==> WrittenLine(Retained(k.files)[i], k.workspace))
    && (!k.failed ==> forall i :: 0 <= i < |Retained(k.files)| ==> Retained(k.files)[i].Whole?)
  }

  predicate IsSuffix(a: seq<Record>, b: seq<Record>) {
    |a| <= |b| && b[|b| - |a|..] == a
  }

  /** The dictionary of the sink names the newest record of every tenant in this generation. */
  ghost predicate Linked(k: Sink, history: seq<Record>) {
    forall tenant ::
      Newest(history, tenant, k.host) == if tenant in k.sequences then Some(k.sequences[tenant]) else None
  }

  /**
   `history` is what the files held when the sink was opened, followed by every
   record it wrote.
   */
  ghost predicate SinkInv(k: Sink, history: seq<Record>, cap: nat) {
    && LinesInv(k)
    && Fits(k.files, cap) && k.maxBytes <= cap <= MAX_FILE
    && IsSuffix(Records(Retained(k.files)), history)
    && GapFree(history)
    && (!k.failed && !k.closed ==> Linked(k, history))
  }

  function HistoryAfter(k: Sink, history: seq<Record>, m: Message, fault: Fault): seq<Record> {
    history + Records(Added(k, m, fault))
  }

  lemma EmitKeepsLines(k: Sink, m: Message, fault: Fault)
    requires LinesInv(k) && Possible(m, fault)
    ensures LinesInv(AfterEmit(k, m, fault).0)
  {
    var k' := AfterEmit(k, m, fault).0;
    var added := Added(k, m, fault);
    var dropped := EmitConserves(k, m, fault);
    var all := Retained(k.files) + added;
    forall i | 0 <= i < |Retained(k'.files)|
      ensures WrittenLine(Retained(k'.files)[i], k.workspace)
      ensures !k'.failed ==> Retained(k'.files)[i].Whole?
    {
      assert Retained(k'.files)[i] == all[|dropped| + i];
      if |dropped| + i < |Retained(k.files)| {
        assert all[|dropped| + i] == Retained(k.files)[|dropped| + i];
      } else {
        assert all[|dropped| + i] == added[|dropped| + i - |Retained(k.files)|];
      }
    }
  }

  lemma SuffixShifts(was: seq<Record>, now: seq<Record>, history: seq<Record>, added: seq<Record>, dropped: seq<Record>)
    requires IsSuffix(was, history) && was + added == dropped + now
    ensures IsSuffix(now, history + added)
  {
    var h := history + added;
    assert |was + added| == |dropped + now|;
    forall i | 0 <= i < |now|
      ensures h[|h| - |now| + i] == now[i]
    {
      assert now[i] == (dropped + now)[|dropped| + i];
      var j := |dropped| + i;
      if j < |was| {
        assert was[j] == history[|history| - |was|..][j];
      }
    }
    assert h[|h| - |now|..] == now;
  }

  lemma EmitKeepsSuffix(k: Sink, history: seq<Record>, m: Message, fault: Fault)
    requires IsSuffix(Records(Retained(k.files)), history) && Possible(m, fault)
    ensures IsSuffix(Records(Retained(AfterEmit(k, m, fault).0.files)), HistoryAfter(k, history, m, fault))
  {
    var k' := AfterEmit(k, m, fault).0;
    var dropped := EmitConserves(k, m, fault);
    RecordsConcat(Retained(k.files), Added(k, m, fault));
    RecordsConcat(dropped, Retained(k'.files));
    SuffixShifts(Records(Retained(k.files)), Records(Retained(k'.files)), history, Records(Added(k, m, fault)), Records(dropped));
  }

  lemma EmitKeepsNumbers(k: Sink, history: seq<Record>, m: Message, fault: Fault)
    requires GapFree(history) && (!k.failed && !k.closed ==> Linked(k, history)) && Possible(m, fault)
    ensures GapFree(HistoryAfter(k, history, m, fault))
    ensures var k' := AfterEmit(k, m, fault).0; !k'.failed && !k'.closed ==> Linked(k', HistoryAfter(k, history, m, fault))
  {
    var added := Added(k, m, fault);
    if added == [] || added[0].Fragment? {
      assert Records(added) == [];
      assert history + [] == history;
    } else {
      assert added[..0] == [] && Records([]) == [];
      assert Records(added) == [NextRecord(k, m)];
      GapFreeAppend(history, NextRecord(k, m));
      LinkedGrows(k, history, m);
    }
  }

  lemma LinkedGrows(k: Sink, history: seq<Record>, m: Message)
    requires Linked(k, history)
    ensures var r := NextRecord(k, m);
      Continues(history, r) && Linked(k.(sequences := k.sequences[m.tenant := r.sequence]), history + [r])
  {
    var r := NextRecord(k, m);
    forall tenant
      ensures Newest(history + [r], tenant, k.host) == if tenant == m.tenant then Some(r.sequence) else Newest(history, tenant, k.host)
    {
      StreamAppend(history, r, tenant, {k.host});
    }
  }

  lemma EmitKeeps(k: Sink, history: seq<Record>, m: Message, fault: Fault, cap: nat)
    requires SinkInv(k, history, cap) && Possible(m, fault)
    ensures SinkInv(AfterEmit(k, m, fault).0, HistoryAfter(k, history, m, fault), cap)
  {
    var k' := AfterEmit(k, m, fault).0;
    EmitKeepsLines(k, m, fault);
    assert Fits(k'.files, cap) by {
      EmitFits(k, m, fault, cap);
    }
    assert IsSuffix(Records(Retained(k'.files)), HistoryAfter(k, history, m, fault)) by {
      EmitKeepsSuffix(k, history, m, fault);
    }
    EmitKeepsNumbers(k, history, m, fault);
    EmitKeepsConfig(k, m, fault);
  }

  lemma EmitKeepsConfig(k: Sink, m: Message, fault: Fault)
    requires Possible(m, fault)
    ensures var k' := AfterEmit(k, m, fault).0;
      k'.workspace == k.workspace && k'.host == k.host && k'.maxBytes == k.maxBytes && k'.closed == k.closed
  {
  }

  lemma NewGeneration(history: seq<Record>, host: string)
    requires forall r :: r in history ==> r.host != host
    ensures forall tenant :: Newest(history, tenant, host).None?
  {
    forall tenant
      ensures Newest(history, tenant, host).None?
    {
      if OfScope(history, tenant, host) != [] {
        StreamAt(history, tenant, {host}, 0);
      }
    }
  }

  /** Opening the sink over a readable log starts from what the log holds. */
  lemma OpenKeeps(files: Files, workspace: string, host: string, maxBytes: nat, cap: nat)
    requires CanOpen(files, workspace, host, maxBytes) && Fits(files, cap) && maxBytes <= cap <= MAX_FILE
    ensures SinkInv(Fresh(files, workspace, host, maxBytes), Records(Retained(files)), cap)
  {
    var k := Fresh(files, workspace, host, maxBytes);
    var history := Records(Retained(files));
    OpenedKeeps(files);
    NewGeneration(history, host);
    forall i | 0 <= i < |Retained(files)|
      ensures WrittenLine(Retained(files)[i], workspace) && Retained(files)[i].Whole?
    {
      assert LineOk(Retained(files)[i], workspace);
    }
  }

  // ---------- the reader against the writer ----------

  /** What the writer never checks and the reader does. */
  ghost predicate Readable(records: seq<Record>) {
    && (forall r :: r in records ==> r.tenant != "" && ValidName(r.host) && r.sequence <= MAX_SEQUENCE)
    && |Scopes(records)| <= MAX_SCOPES
  }

  lemma {:induction false} RecordsHas(lines: seq<Line>, r: Record)
    ensures r in Records(lines) <==> exists i :: 0 <= i < |lines| && lines[i].Whole? && lines[i].record == r
  {
    if lines != [] {
      var n := |lines| - 1;
      RecordsHas(lines[..n], r);
      if i :| 0 <= i < n && lines[i].Whole? && lines[i].record == r {
        assert lines[..n][i] == lines[i];
      }
    }
  }

  lemma SuffixGapFree(a: seq<Record>, b: seq<Record>)
    requires IsSuffix(a, b) && GapFree(b)
    ensures GapFree(a)
  {
    assert b == b[..|b| - |a|] + a;
    GapFreeParts(b[..|b| - |a|], a);
  }

  /**
   The reader accepts what the writer left behind if and only if no write was
   cut short and the tenants, generation names, sequence numbers and number of
   scopes - which the writer does not check - are within the reader's bounds.
   Sizes, line lengths and gaps never make it refuse.
   */
  lemma ReaderAcceptsExactly(k: Sink, history: seq<Record>, cap: nat)
    requires SinkInv(k, history, cap)
    ensures Acceptable(k.files, k.workspace) <==>
      && (forall i :: 0 <= i < |Retained(k.files)| ==> Retained(k.files)[i].Whole?)
      && Readable(Records(Retained(k.files)))
  {
    var lines := Retained(k.files);
    SuffixGapFree(Records(lines), history);
    if Acceptable(k.files, k.workspace) {
      forall i | 0 <= i < |lines|
        ensures lines[i].Whole?
      {
        assert LineOk(lines[i], k.workspace);
      }
      forall r | r in Records(lines)
        ensures r.tenant != "" && ValidName(r.host) && r.sequence <= MAX_SEQUENCE
      {
        RecordsHas(lines, r);
        var i :| 0 <= i < |lines| && lines[i].Whole? && lines[i].record == r;
        assert LineOk(lines[i], k.workspace);
      }
    } else if (forall i :: 0 <= i < |lines| ==> lines[i].Whole?) && Readable(Records(lines)) {
      forall i | 0 <= i < |lines|
        ensures LineOk(lines[i], k.workspace)
      {
        RecordsHas(lines, lines[i].record);
        assert WrittenLine(lines[i], k.workspace);
      }
    }
  }
}
