/** What the host log guarantees over every run of writers, readers and restarts. */
module HostLogTheorems {
  import opened Common
  import opened HostLog
  import opened HostLogLaws
  import opened HostLogRetention
  import opened HostLogRun

  // ---------- preservation ----------

  lemma {:induction false} RecordsOfAdded(k: Sink, m: Message, fault: Fault)
    requires Possible(m, fault)
    ensures Records(Added(k, m, fault)) == [] || (Admits(k, m) && Records(Added(k, m, fault)) == [NextRecord(k, m)])
  {
    var added := Added(k, m, fault);
    if added != [] {
      assert added[..0] == [] && Records([]) == [];
    }
  }

  /** The names of this sink are new, so the whole log and its own history agree on its scopes. */
  lemma NewestAgrees(s: State, tenant: string)
    requires s.origin <= |s.emitted| && s.sink.host !in HostsOf(s.emitted[..s.origin])
    ensures Newest(s.emitted, tenant, s.sink.host) == Newest(History(s), tenant, s.sink.host)
    ensures OfScope(s.emitted, tenant, s.sink.host) == OfScope(History(s), tenant, s.sink.host)
  {
    var before := s.emitted[..s.origin];
    assert s.emitted == before + History(s);
    StreamConcat(before, History(s), tenant, {s.sink.host});
    if OfScope(before, tenant, s.sink.host) != [] {
      StreamAt(before, tenant, {s.sink.host}, 0);
    }
  }

  lemma StartsAtOneAppend(records: seq<Record>, r: Record)
    requires StartsAtOne(records) && (Newest(records, r.tenant, r.host).None? ==> r.sequence == 1)
    ensures StartsAtOne(records + [r])
  {
    forall tenant, host | OfScope(records + [r], tenant, host) != []
      ensures OfScope(records + [r], tenant, host)[0].sequence == 1
    {
      StreamAppend(records, r, tenant, {host});
      if OfScope(records, tenant, host) != [] {
        assert OfScope(records, tenant, host)[0].sequence == 1;
      }
    }
  }

  lemma EmitKeepsNames(s: State, m: Message, fault: Fault, cap: nat)
    requires s.origin <= |s.emitted| && SinkInv(s.sink, History(s), cap) && NamesInv(s) && Possible(m, fault)
    ensures NamesInv(After(s, Emit(m, fault), cap))
  {
    var s' := After(s, Emit(m, fault), cap);
    RecordsOfAdded(s.sink, m, fault);
    EmitKeepsConfig(s.sink, m, fault);
    assert s'.emitted[..s.origin] == s.emitted[..s.origin];
    if Records(Added(s.sink, m, fault)) == [] {
      assert s'.emitted == s.emitted;
    } else if !s.reused {
      var r := NextRecord(s.sink, m);
      NewestAgrees(s, m.tenant);
      GapFreeAppend(s.emitted, r);
      StartsAtOneAppend(s.emitted, r);
    }
  }

  lemma EmitStepKeeps(s: State, m: Message, fault: Fault, cap: nat)
    requires Inv(s, cap) && Possible(m, fault)
    ensures Inv(After(s, Emit(m, fault), cap), cap)
  {
    EmitKeepsSink(s, m, fault, cap);
    EmitKeepsNames(s, m, fault, cap);
    EmitKeepsReaders(s, m, fault, cap);
  }

  lemma EmitKeepsSink(s: State, m: Message, fault: Fault, cap: nat)
    requires s.origin <= |s.emitted| && SinkInv(s.sink, History(s), cap) && Possible(m, fault)
    ensures var s' := After(s, Emit(m, fault), cap); SinkInv(s'.sink, History(s'), cap)
  {
    SliceAppend(s.emitted, Records(Added(s.sink, m, fault)), s.origin);
    EmitKeeps(s.sink, History(s), m, fault, cap);
  }

  lemma SliceAppend(a: seq<Record>, b: seq<Record>, from: nat)
    requires from <= |a|
    ensures (a + b)[from..] == a[from..] + b
  {
  }

  lemma EmitKeepsReaders(s: State, m: Message, fault: Fault, cap: nat)
    requires s.origin <= |s.emitted| && ReadersInv(s) && Possible(m, fault)
    ensures ReadersInv(After(s, Emit(m, fault), cap))
  {
    ReadersGrow(s, After(s, Emit(m, fault), cap));
  }

  lemma ReopenKeeps(s: State, host: string, maxBytes: nat, cap: nat)
    requires Inv(s, cap) && Can(s, Reopen(host, maxBytes), cap)
    ensures Inv(AfterReopen(s, host, maxBytes), cap)
  {
    var s' := AfterReopen(s, host, maxBytes);
    var kept := Records(Retained(s.sink.files));
    var history := History(s);
    assert history[|history| - |kept|..] == s.emitted[|s.emitted| - |kept|..];
    assert History(s') == kept;
    OpenKeeps(s.sink.files, s.sink.workspace, host, maxBytes, cap);
    assert forall r :: r in s.emitted[..s'.origin] ==> r in s.emitted;
  }

  /** Only the readers change. */
  lemma ReaderStepKeeps(s: State, step: Step, cap: nat)
    requires Inv(s, cap) && Can(s, step, cap)
    requires step.Issue? || step.Purge? || step.Ask? || step.Abandon?
    ensures Inv(After(s, step, cap), cap)
  {
    var s' := After(s, step, cap);
    assert forall g :: StreamOf(s', g) == StreamOf(s, g);
    forall h | h in s'.references
      ensures h in s'.served && ReferenceOk(s', s'.references[h], s'.served[h])
    {
      assert h in s.references ==> ReferenceOk(s, s.references[h], s.served[h]);
    }
    forall h | h in s'.inflight
      ensures InflightOk(s', h, s'.inflight[h])
    {
      if step.Ask? && h == step.handle {
        assert ReferenceOk(s, s.references[h], s.served[h]);
      } else {
        assert InflightOk(s, h, s.inflight[h]);
      }
    }
    ServedKeeps(s, s', if step.Issue? then step.handle else 0);
  }

  lemma ServedKeeps(s: State, s': State, fresh_: Handle)
    requires ReadersInv(s)
    requires History(s') == History(s)
    requires s'.served == s.served || (fresh_ !in s.served && s'.served == s.served[fresh_ := []])
    ensures forall h :: h in s'.served ==> Served(s', h)
  {
    forall h | h in s'.served
      ensures Served(s', h)
    {
      if h in s.served {
        var g: Grant, a: nat, e: nat :| Piece(StreamOf(s, g), a, e, s.served[h]);
        assert Piece(StreamOf(s', g), a, e, s'.served[h]);
      } else {
        assert Piece(StreamOf(s', Grant("", [])), 0, 0, []);
      }
    }
  }

  lemma AnswerKeeps(s: State, h: Handle, cap: nat)
    requires Inv(s, cap) && Can(s, Answer(h), cap)
    ensures Inv(After(s, Answer(h), cap), cap)
  {
    ReadContinues(s, h, cap);
    AnsweredKeeps(s, h, ReadOf(s.sink, QueryOf(s, s.inflight[h])), cap);
  }

  lemma AnsweredKeeps(s: State, h: Handle, r: ReadResult, cap: nat)
    requires Inv(s, cap) && h in s.inflight && s.inflight[h].Asked? && h in s.served
    requires r.Read? ==> Chained(StreamOf(s, s.inflight[h].bound.grant), r.batch.cursor, s.served[h] + r.batch.records)
    ensures Inv(AfterAnswer(s, h, r), cap)
  {
    var s' := AfterAnswer(s, h, r);
    assert forall g :: StreamOf(s', g) == StreamOf(s, g);
    forall x | x in s'.references
      ensures ReferenceOk(s', s'.references[x], s'.served[x])
    {
      assert ReferenceOk(s, s.references[x], s.served[x]);
    }
    forall x | x in s'.inflight
      ensures InflightOk(s', x, s'.inflight[x])
    {
      assert InflightOk(s, x, s.inflight[x]);
    }
    ServedKeeps(s, s', 0);
  }

  lemma ChainedIsPiece(stream: seq<Record>, cursor: Option<Token>, served: seq<Record>)
    requires Chained(stream, cursor, served)
    ensures exists a: nat, e: nat :: Piece(stream, a, e, served)
  {
    if cursor.None? {
      assert Piece(stream, 0, 0, served);
    }
  }

  lemma AcceptKeeps(s: State, h: Handle, cap: nat)
    requires Inv(s, cap) && Can(s, Accept(h), cap)
    ensures Inv(After(s, Accept(h), cap), cap)
  {
    var s' := After(s, Accept(h), cap);
    var p := s.inflight[h];
    assert InflightOk(s, h, p);
    assert forall g :: StreamOf(s', g) == StreamOf(s, g);
    forall x | x in s'.references
      ensures x in s'.served && ReferenceOk(s', s'.references[x], s'.served[x])
    {
      if x != h {
        assert ReferenceOk(s, s.references[x], s.served[x]);
      }
    }
    forall x | x in s'.inflight
      ensures InflightOk(s', x, s'.inflight[x])
    {
      assert InflightOk(s, x, s.inflight[x]);
    }
    forall x | x in s'.served
      ensures Served(s', x)
    {
      if x == h {
        ChainedIsPiece(StreamOf(s', p.bound.grant), p.batch.cursor, s'.served[x]);
        var a: nat, e: nat :| Piece(StreamOf(s', p.bound.grant), a, e, s'.served[x]);
      } else {
        var g: Grant, a: nat, e: nat :| Piece(StreamOf(s, g), a, e, s.served[x]);
        assert Piece(StreamOf(s', g), a, e, s'.served[x]);
      }
    }
  }

  lemma CloseKeeps(s: State, cap: nat)
    requires Inv(s, cap)
    ensures Inv(After(s, Close, cap), cap)
  {
    ReadersGrow(s, After(s, Close, cap));
  }

  lemma StepKeeps(s: State, step: Step, cap: nat)
    requires Inv(s, cap) && Can(s, step, cap)
    ensures Inv(After(s, step, cap), cap)
  {
    match step
    case Emit(m, fault) => EmitStepKeeps(s, m, fault, cap);
    case Close => CloseKeeps(s, cap);
    case Reopen(host, maxBytes) => ReopenKeeps(s, host, maxBytes, cap);
    case Answer(h) => AnswerKeeps(s, h, cap);
    case Accept(h) => AcceptKeeps(s, h, cap);
    case _ => ReaderStepKeeps(s, step, cap);
  }

  lemma InitInv(workspace: string, host: string, maxBytes: nat, cap: nat)
    requires CanOpen(NO_FILES, workspace, host, maxBytes) && maxBytes <= cap <= MAX_FILE
    ensures Inv(Init(Fresh(NO_FILES, workspace, host, maxBytes)), cap)
  {
    assert Retained(NO_FILES) == [];
    OpenKeeps(NO_FILES, workspace, host, maxBytes, cap);
    assert forall tenant, g :: OfScope([], tenant, g) == [];
  }

  lemma StartsInv(s: State, cap: nat)
    requires Starts(s, cap) && cap <= MAX_FILE
    ensures Inv(s, cap)
  {
    var workspace, host, maxBytes: nat :|
      CanOpen(NO_FILES, workspace, host, maxBytes) && maxBytes <= cap
      && s == Init(Fresh(NO_FILES, workspace, host, maxBytes));
    InitInv(workspace, host, maxBytes, cap);
  }

  lemma RunInv(states: seq<State>, i: nat, cap: nat)
    requires Run(states, cap) && i < |states|
    ensures Inv(states[i], cap)
  {
    var inv := (s: State) => Inv(s, cap);
    assert inv(states[0]) by {
      StartsInv(states[0], cap);
    }
    forall k | 0 < k < |states| && inv(states[k - 1])
      ensures inv(states[k])
    {
      RunNext(states, k, cap);
      NextKeeps(states[k - 1], states[k], cap);
    }
    Induction(states, inv, i);
  }

  lemma RunNext(states: seq<State>, i: nat, cap: nat)
    requires Run(states, cap) && 0 < i < |states|
    ensures Next(states[i - 1], states[i], cap)
  {
    assert StepAt(states, i, cap);
  }

  lemma NextKeeps(s: State, s': State, cap: nat)
    requires Inv(s, cap) && Next(s, s', cap)
    ensures Inv(s', cap)
  {
    var step :| Can(s, step, cap) && s' == After(s, step, cap);
    StepKeeps(s, step, cap);
  }

  // ---------- retention ----------

  /**
   Reading server.log.4 to server.log always gives exactly the newest records of
   the whole life of the log, every file within the bound, every scope without a gap.
   */
  lemma RetainedSuffix(states: seq<State>, i: nat, cap: nat)
    requires Run(states, cap) && i < |states|
    ensures var s := states[i]; var kept := Records(Retained(s.sink.files));
      && IsSuffix(kept, s.emitted) && GapFree(kept) && Distinct(kept)
      && Fits(s.sink.files, cap)
  {
    RunInv(states, i, cap);
    NewestRecords(Records(Retained(states[i].sink.files)), History(states[i]), states[i].emitted, states[i].origin);
  }

  lemma NewestRecords(kept: seq<Record>, history: seq<Record>, emitted: seq<Record>, origin: nat)
    requires origin <= |emitted| && history == emitted[origin..] && IsSuffix(kept, history) && GapFree(history)
    ensures IsSuffix(kept, emitted) && GapFree(kept) && Distinct(kept)
  {
    assert history[|history| - |kept|..] == emitted[|emitted| - |kept|..];
    SuffixGapFree(kept, history);
    GapFreeDistinct(kept);
  }

  /** In every reachable state the reader refuses the log only for what the writer leaves unchecked. */
  lemma ReaderAgreesWithWriter(states: seq<State>, i: nat, cap: nat)
    requires Run(states, cap) && i < |states| && !states[i].sink.failed
    ensures Acceptable(states[i].sink.files, states[i].sink.workspace) <==> Readable(Records(Retained(states[i].sink.files)))
  {
    RunInv(states, i, cap);
    ReaderAcceptsExactly(states[i].sink, History(states[i]), cap);
  }

  // ---------- replay ----------

  /** All that a handle was ever served is one contiguous, duplicate-free piece of a tenant's stream. */
  lemma ReplayIsContiguous(states: seq<State>, i: nat, h: Handle, cap: nat)
    requires Run(states, cap) && i < |states| && h in states[i].served
    ensures exists g: Grant, a: nat, e: nat :: Piece(StreamOf(states[i], g), a, e, states[i].served[h])
    ensures Distinct(states[i].served[h])
    ensures h in states[i].references ==>
      exists a: nat, e: nat :: Piece(StreamOf(states[i], states[i].references[h].grant), a, e, states[i].served[h])
  {
    RunInv(states, i, cap);
    var s := states[i];
    assert Served(s, h);
    var g: Grant, a: nat, e: nat :| Piece(StreamOf(s, g), a, e, s.served[h]);
    var cut := RetainedStream(s, g, cap);
    assert forall j :: 0 <= j < |s.served[h]| ==> s.served[h][j] == StreamOf(s, g)[a + j];
    if h in s.references {
      var r := s.references[h];
      assert ReferenceOk(s, r, s.served[h]);
      if r.started {
        ChainedIsPiece(StreamOf(s, r.grant), r.cursor, s.served[h]);
      } else {
        assert Piece(StreamOf(s, r.grant), 0, 0, s.served[h]);
      }
    }
  }

  /**
   The next read of a started reference with a cursor: if it is not refused, it
   either hands out exactly the records that follow what was served, or reports a
   retention gap - and that exactly when the record at the cursor is gone.
   */
  lemma NextReadExact(states: seq<State>, i: nat, h: Handle, limit: nat, cap: nat) returns (a: nat, e: nat)
    requires Run(states, cap) && i < |states| && h in states[i].references && states[i].references[h].started
    requires states[i].references[h].cursor.Some?
    ensures var s := states[i]; var b := s.references[h]; var stream := StreamOf(s, b.grant);
      && h in s.served && Piece(stream, a, e, s.served[h]) && 0 < e && stream[e - 1] == b.cursor.value.anchor
    ensures var s := states[i]; var b := s.references[h]; var stream := StreamOf(s, b.grant);
      var q := QueryOf(s, Asked(b, b.cursor, limit));
      !Refused(s.sink, q) ==>
        && (ReadOf(s.sink, q).RetentionGap? <==> b.cursor.value.anchor !in Records(Retained(s.sink.files)))
        && (!ReadOf(s.sink, q).RetentionGap? ==>
              ReadOf(s.sink, q).Read? && ReadOf(s.sink, q).batch.records == Take(stream[e..], limit)
              && !ReadOf(s.sink, q).batch.gap)
  {
    RunInv(states, i, cap);
    var s := states[i];
    var b := s.references[h];
    var stream := StreamOf(s, b.grant);
    assert ReferenceOk(s, b, s.served[h]);
    a, e :| Piece(stream, a, e, s.served[h]) && 0 < e && stream[e - 1] == b.cursor.value.anchor;
    var q := QueryOf(s, Asked(b, b.cursor, limit));
    if !Refused(s.sink, q) {
      ResumeExact(s, b, q, e, cap);
    }
  }

  lemma ResumeExact(s: State, b: Reference, q: Query, e: nat, cap: nat)
    requires Inv(s, cap) && b.cursor.Some? && !Refused(s.sink, q)
    requires q.tenant == b.grant.tenant && q.generations == b.grant.generations && q.cursor == b.cursor
    requires 0 < e <= |StreamOf(s, b.grant)| && StreamOf(s, b.grant)[e - 1] == b.cursor.value.anchor
    ensures var r := ReadOf(s.sink, q);
      && (r.RetentionGap? <==> b.cursor.value.anchor !in Records(Retained(s.sink.files)))
      && (!r.RetentionGap? ==> r.Read? && r.batch.records == Take(StreamOf(s, b.grant)[e..], q.limit) && !r.batch.gap)
  {
    var stream, kept := StreamOf(s, b.grant), Records(Retained(s.sink.files));
    var cut := RetainedStream(s, b.grant, cap);
    PendingAfter(stream, cut, e);
    StreamAt(History(s), q.tenant, Names(q.generations), e - 1);
    StreamHas(kept, q.tenant, Names(q.generations), b.cursor.value.anchor);
    ReadOutcome(s.sink, q, Stream(kept, q.tenant, Names(q.generations)));
    ReadAnswers(s.sink, q);
  }

  // ---------- the gap flag ----------

  ghost predicate LateStart(records: seq<Record>, tenant: string, g: string) {
    OfScope(records, tenant, g) != [] && OfScope(records, tenant, g)[0].sequence > 1
  }

  /** The flag looks at the first record of every generation of the stream. */
  lemma {:induction false} BeheadedScope(records: seq<Record>, tenant: string, names: set<string>)
    ensures Beheaded(Stream(records, tenant, names)) <==> exists g :: g in names && LateStart(records, tenant, g)
  {
    if records == [] {
      assert Stream(records, tenant, names) == [];
      assert forall g :: OfScope(records, tenant, g) == [];
    } else {
      var n := |records| - 1;
      var before, r := records[..n], records[n];
      assert records == before + [r];
      BeheadedScope(before, tenant, names);
      StreamAppend(before, r, tenant, names);
      assert Stream(before, tenant, names) + [] == Stream(before, tenant, names);
      AnyLateStart(before, r, tenant, names);
      if r.tenant == tenant && r.host in names {
        FirstOfScope(before, tenant, names, r);
      }
    }
  }

  /** One more record adds a late start only as the first of its scope. */
  lemma AnyLateStart(before: seq<Record>, r: Record, tenant: string, names: set<string>)
    ensures (exists g :: g in names && LateStart(before + [r], tenant, g)) <==>
      || (exists g :: g in names && LateStart(before, tenant, g))
      || (r.tenant == tenant && r.host in names && OfScope(before, tenant, r.host) == [] && r.sequence > 1)
  {
    forall g
      ensures LateStart(before + [r], tenant, g) <==>
        LateStart(before, tenant, g) || (r.tenant == tenant && r.host == g && OfScope(before, tenant, g) == [] && r.sequence > 1)
    {
      StreamAppend(before, r, tenant, {g});
    }
    if g :| g in names && LateStart(before, tenant, g) {
      assert LateStart(before + [r], tenant, g);
    }
    if r.tenant == tenant && r.host in names && OfScope(before, tenant, r.host) == [] && r.sequence > 1 {
      assert LateStart(before + [r], tenant, r.host);
    }
  }

  lemma FirstOfScope(before: seq<Record>, tenant: string, names: set<string>, r: Record)
    requires r.tenant == tenant && r.host in names
    ensures var s := Stream(before, tenant, names);
      Beheaded(s + [r]) <==> Beheaded(s) || (r.sequence > 1 && OfScope(before, tenant, r.host) == [])
  {
    var s := Stream(before, tenant, names);
    BeheadedGrows(s, r);
    if OfScope(before, tenant, r.host) != [] {
      var x := OfScope(before, tenant, r.host)[0];
      StreamAt(before, tenant, {r.host}, 0);
      StreamHas(before, tenant, names, x);
      assert exists j :: 0 <= j < |s| && s[j] == x;
    } else {
      forall j | 0 <= j < |s|
        ensures s[j].host != r.host
      {
        StreamAt(before, tenant, names, j);
        StreamHas(before, tenant, {r.host}, s[j]);
      }
    }
  }

  /** A generation still present has lost its beginning. */
  predicate LostBeginning(s: State, tenant: string, g: string) {
    0 < |OfScope(Records(Retained(s.sink.files)), tenant, g)| < |OfScope(s.emitted, tenant, g)|
  }

  lemma LateStartExactly(s: State, tenant: string, g: string)
    requires GapFree(s.emitted) && StartsAtOne(s.emitted) && IsSuffix(Records(Retained(s.sink.files)), s.emitted)
    ensures LateStart(Records(Retained(s.sink.files)), tenant, g) <==> LostBeginning(s, tenant, g)
  {
    var kept := Records(Retained(s.sink.files));
    var lost := s.emitted[..|s.emitted| - |kept|];
    assert s.emitted == lost + kept;
    StreamConcat(lost, kept, tenant, {g});
    var all := OfScope(s.emitted, tenant, g);
    assert Counted(all);
    if OfScope(kept, tenant, g) != [] {
      var n := |OfScope(lost, tenant, g)|;
      assert all[n] == OfScope(kept, tenant, g)[0];
      assert all[n].sequence == all[0].sequence + n;
    }
  }

  /**
   As long as no generation name was taken twice, the `gap` flag is exact: it is
   set when the read had no cursor and some listed generation that is still
   present has lost its beginning, and only then.
   */
  lemma GapIsExact(states: seq<State>, i: nat, g: Grant, cursor: Option<Token>, limit: nat, cap: nat)
    requires Run(states, cap) && i < |states| && !states[i].reused
    ensures var s := states[i]; var r := ReadOf(s.sink, QueryOf(s, Asked(Reference(g, false, None), cursor, limit)));
      r.Read? ==>
        (r.batch.gap <==> cursor.None? && exists name :: name in g.generations && LostBeginning(s, g.tenant, name))
  {
    RetainedSuffix(states, i, cap);
    RunInv(states, i, cap);
    GapExactNow(states[i], QueryOf(states[i], Asked(Reference(g, false, None), cursor, limit)));
  }

  lemma GapExactNow(s: State, q: Query)
    requires GapFree(s.emitted) && StartsAtOne(s.emitted) && IsSuffix(Records(Retained(s.sink.files)), s.emitted)
    ensures var r := ReadOf(s.sink, q);
      r.Read? ==> (r.batch.gap <==> q.cursor.None? && exists name :: name in q.generations && LostBeginning(s, q.tenant, name))
  {
    var kept := Records(Retained(s.sink.files));
    if ReadOf(s.sink, q).Read? {
      ReadOutcome(s.sink, q, Stream(kept, q.tenant, Names(q.generations)));
    }
    BeheadedScope(kept, q.tenant, Names(q.generations));
    AnyLostBeginning(s, q.tenant, q.generations);
  }

  lemma AnyLostBeginning(s: State, tenant: string, names: seq<string>)
    requires GapFree(s.emitted) && StartsAtOne(s.emitted) && IsSuffix(Records(Retained(s.sink.files)), s.emitted)
    ensures (exists g :: g in Names(names) && LateStart(Records(Retained(s.sink.files)), tenant, g))
        <==> (exists g :: g in names && LostBeginning(s, tenant, g))
  {
    var kept := Records(Retained(s.sink.files));
    forall g
      ensures LateStart(kept, tenant, g) <==> LostBeginning(s, tenant, g)
    {
      LateStartExactly(s, tenant, g);
    }
    if g :| g in names && LostBeginning(s, tenant, g) {
      assert g in Names(names) && LateStart(kept, tenant, g);
    }
  }
}
