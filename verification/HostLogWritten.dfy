/** What a line of the log says, and that whatever is served was emitted as it reads. */
module HostLogWritten {
  import opened Common
  import opened HostLog
  import opened HostLogLaws
  import opened HostLogRetention
  import opened HostLogRun
  import opened HostLogTheorems

  /** The record says who emitted what: every field but the number. */
  predicate Tells(r: Record, m: Message, workspace: string, host: string) {
    && r.tenant == m.tenant && r.request == m.request && r.message == m.text && r.stamp == m.stamp
    && r.workspace == workspace && r.host == host
  }

  /** The numbers the sink has given out to the tenant so far. */
  function GivenOut(k: Sink, tenant: string): nat {
    if tenant in k.sequences then k.sequences[tenant] else 0
  }

  /**
   An emit is answered with a number if and only if the sink is open and sound, the
   tenant is known or one of the first 64, the line fits, and nothing fails; a
   rotation can only fail where the line does not fit into the file.
   */
  lemma WrittenExactly(k: Sink, m: Message, fault: Fault)
    requires Possible(m, fault)
    ensures AfterEmit(k, m, fault).1.Written? <==>
      && !k.closed && !k.failed && (m.tenant in k.sequences || |k.sequences| < 64) && m.size <= k.maxBytes && m.size <= 16384
      && (fault.NoFault? || (fault.RotateFails? && Size(Contents(k.files[0])) + m.size <= k.maxBytes))
    ensures AfterEmit(k, m, fault).1.EmitRaised? ==> AfterEmit(k, m, fault).0.failed || fault.OpenFails?
  {
  }

  /** The last line of the log is then whole, says what was emitted, and bears the next number of the tenant. */
  lemma LineTells(k: Sink, m: Message, fault: Fault)
    requires Possible(m, fault) && AfterEmit(k, m, fault).1.Written?
    ensures var k' := AfterEmit(k, m, fault).0; var n := AfterEmit(k, m, fault).1.sequence; var lines := Retained(k'.files);
      && lines != [] && lines[|lines| - 1].Whole? && lines[|lines| - 1].size == m.size
      && Tells(lines[|lines| - 1].record, m, k.workspace, k.host) && lines[|lines| - 1].record.sequence == n
      && n == GivenOut(k, m.tenant) + 1 && k'.sequences == k.sequences[m.tenant := n]
      && !k'.failed && !k'.closed && k'.workspace == k.workspace && k'.host == k.host && k'.maxBytes == k.maxBytes
  {
    AppendRetains(Prepared(k, m), Whole(NextRecord(k, m), m.size));
  }

  // ---------- every record of a run ----------

  ghost predicate Took(states: seq<State>, j: nat, step: Step, cap: nat) {
    0 < j < |states| && Can(states[j - 1], step, cap) && states[j] == After(states[j - 1], step, cap)
  }

  /** Some emit up to state `i` wrote exactly this record. */
  ghost predicate Emitted(states: seq<State>, i: nat, r: Record, cap: nat) {
    exists j: nat, m: Message, fault: Fault ::
      j <= i && Took(states, j, Emit(m, fault), cap) && Tells(r, m, states[j - 1].sink.workspace, states[j - 1].sink.host)
      && r.sequence == GivenOut(states[j - 1].sink, m.tenant) + 1
  }

  lemma AddedTells(k: Sink, m: Message, fault: Fault, r: Record)
    requires Possible(m, fault) && r in Records(Added(k, m, fault))
    ensures Tells(r, m, k.workspace, k.host) && r.sequence == GivenOut(k, m.tenant) + 1
  {
    RecordsOfAdded(k, m, fault);
  }

  lemma {:induction false} EveryRecordWasEmitted(states: seq<State>, i: nat, r: Record, cap: nat)
    requires Run(states, cap) && i < |states| && r in states[i].emitted
    ensures Emitted(states, i, r, cap)
  {
    NoneAtTheStart(states[0], cap);
    if i > 0 {
      RunNext(states, i, cap);
      var step :| Can(states[i - 1], step, cap) && states[i] == After(states[i - 1], step, cap);
      assert Took(states, i, step, cap);
      if r in states[i - 1].emitted {
        EveryRecordWasEmitted(states, i - 1, r, cap);
      } else {
        NewRecord(states[i - 1], step, cap, r);
        AddedTells(states[i - 1].sink, step.m, step.fault, r);
      }
    }
  }

  lemma NoneAtTheStart(s: State, cap: nat)
    requires Starts(s, cap)
    ensures s.emitted == []
  {
  }

  lemma NewRecord(s: State, step: Step, cap: nat, r: Record)
    requires Can(s, step, cap) && r in After(s, step, cap).emitted && r !in s.emitted
    ensures step.Emit? && r in Records(Added(s.sink, step.m, step.fault))
  {
  }

  /**
   Whatever a reference was served, in any run: every record belongs to the tenant and
   the generations it was granted, and some earlier emit wrote it with exactly these
   fields and the next number of its tenant.
   */
  lemma ServedWasEmitted(states: seq<State>, i: nat, h: Handle, k: nat, cap: nat)
    requires Run(states, cap) && i < |states| && h in states[i].references && h in states[i].served && k < |states[i].served[h]|
    ensures var r := states[i].served[h][k]; var grant := states[i].references[h].grant;
      r.tenant == grant.tenant && r.host in grant.generations && Emitted(states, i, r, cap)
  {
    ReplayIsContiguous(states, i, h, cap);
    var s := states[i];
    var g := s.references[h].grant;
    var a: nat, e: nat :| Piece(StreamOf(s, g), a, e, s.served[h]);
    assert s.served[h][k] == StreamOf(s, g)[a + k];
    StreamAt(History(s), g.tenant, Names(g.generations), a + k);
    EveryRecordWasEmitted(states, i, s.served[h][k], cap);
  }

  /** Also a handle that is gone was served nothing else. */
  lemma PurgedWasEmitted(states: seq<State>, i: nat, h: Handle, k: nat, cap: nat)
    requires Run(states, cap) && i < |states| && h in states[i].served && k < |states[i].served[h]|
    ensures Emitted(states, i, states[i].served[h][k], cap)
  {
    ReplayIsContiguous(states, i, h, cap);
    var s := states[i];
    var g: Grant, a: nat, e: nat :| Piece(StreamOf(s, g), a, e, s.served[h]);
    assert s.served[h][k] == StreamOf(s, g)[a + k];
    StreamAt(History(s), g.tenant, Names(g.generations), a + k);
    EveryRecordWasEmitted(states, i, s.served[h][k], cap);
  }

  /** And every number that was answered stands for a record of the log, written with the fields of its emit. */
  lemma AnsweredIsOnRecord(states: seq<State>, j: nat, m: Message, fault: Fault, cap: nat)
    requires Run(states, cap) && Took(states, j, Emit(m, fault), cap) && AfterEmit(states[j - 1].sink, m, fault).1.Written?
    ensures var all := states[j].emitted; var k := states[j - 1].sink;
      && |all| == |states[j - 1].emitted| + 1 && Tells(all[|all| - 1], m, k.workspace, k.host)
      && all[|all| - 1].sequence == AfterEmit(k, m, fault).1.sequence
  {
    var k := states[j - 1].sink;
    assert Records([]) == [] && Added(k, m, fault) == [Whole(NextRecord(k, m), m.size)];
    RecordsOfAdded(k, m, fault);
  }

  /** An emit that is refused, or cannot open its file, changes nothing; any other failure closes the log for good and uses up no number. */
  lemma FailureMeans(k: Sink, m: Message, fault: Fault)
    requires Possible(m, fault)
    ensures var k' := AfterEmit(k, m, fault).0; var r := AfterEmit(k, m, fault).1;
      && (r.EmitDenied? <==>
            k.closed || k.failed || (m.tenant !in k.sequences && |k.sequences| >= 64) || m.size > k.maxBytes || m.size > 16384)
      && (r.EmitDenied? || (r.EmitRaised? && fault.OpenFails?) ==> k' == k)
      && (r.EmitRaised? && !fault.OpenFails? ==> k'.failed && k'.sequences == k.sequences && k'.closed == k.closed)
  {
  }
}
