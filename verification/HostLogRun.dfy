/**
 Host log readers racing with the sink: references with fresh grant checks around
 the awaited read, interleaved with emits, rotations, failures and reopenings.

 The grant re-checks and the batch validation may fail at any time. A refused
 step leaves the state as it is. Reference tokens are random and never repeat.
 */
module HostLogRun {
  import opened Common
  import opened HostLog
  import opened HostLogLaws
  import opened HostLogRetention

  type Handle = nat

  datatype Grant = Grant(tenant: string, generations: seq<string>)

  /** `_Reference`. */
  datatype Reference = Reference(grant: Grant, started: bool, cursor: Option<Token>)

  /** A read in flight: `bound` is the reference as _read_bound saw it. */
  datatype Inflight =
    | Asked(bound: Reference, cursor: Option<Token>, limit: nat)
    | Answered(bound: Reference, batch: Batch)

  datatype State = State(
    sink: Sink,
    emitted: seq<Record>,            // every record ever written to these files
    origin: nat,                     // emitted[origin..] is the history of this sink
    reused: bool,                    // some sink took the name of an earlier generation
    references: map<Handle, Reference>,
    inflight: map<Handle, Inflight>,
    served: map<Handle, seq<Record>>)  // all records of the accepted reads

  datatype Step =
    | Emit(m: Message, fault: Fault)
    | Close
    | Reopen(host: string, maxBytes: nat)
    | Issue(handle: Handle, grant: Grant)
    | Purge(handles: set<Handle>)
    | Ask(handle: Handle, cursor: Option<Token>, limit: nat)
    | Answer(handle: Handle)
    | Accept(handle: Handle)
    | Abandon(handle: Handle)

  function QueryOf(s: State, p: Inflight): Query
    requires p.Asked?
  {
    Query(s.sink.workspace, s.sink.host, p.bound.grant.tenant, p.bound.grant.generations, p.cursor, p.limit)
  }

  ghost predicate Can(s: State, step: Step, cap: nat) {
    match step
    case Emit(m, fault) => Possible(m, fault)
    case Close => true
    case Reopen(host, maxBytes) => CanOpen(s.sink.files, s.sink.workspace, host, maxBytes) && maxBytes <= cap
    case Issue(h, grant) => h !in s.served && ValidGenerations(grant.generations)
    case Purge(_) => true
    case Ask(h, cursor, limit) =>
      && h in s.references && h !in s.inflight && 1 <= limit <= MAX_BATCH
      && (s.references[h].started ==> cursor == s.references[h].cursor)
    case Answer(h) => h in s.inflight && s.inflight[h].Asked?
    case Accept(h) => h in s.inflight && s.inflight[h].Answered? && h in s.references
    case Abandon(h) => h in s.inflight
  }

  ghost function After(s: State, step: Step, cap: nat): State
    requires Can(s, step, cap)
  {
    match step
    case Emit(m, fault) =>
      s.(sink := AfterEmit(s.sink, m, fault).0, emitted := s.emitted + Records(Added(s.sink, m, fault)))
    case Close => s.(sink := s.sink.(closed := true, sequences := map[]))
    case Reopen(host, maxBytes) => AfterReopen(s, host, maxBytes)
    case Issue(h, grant) =>
      s.(references := s.references[h := Reference(grant, false, None)], served := s.served[h := []])
    case Purge(handles) => s.(references := s.references - handles)
    case Ask(h, cursor, limit) => s.(inflight := s.inflight[h := Asked(s.references[h], cursor, limit)])
    case Answer(h) => AfterAnswer(s, h, ReadOf(s.sink, QueryOf(s, s.inflight[h])))
    case Accept(h) =>
      var p := s.inflight[h];
      s.(references := s.references[h := p.bound.(started := true, cursor := p.batch.cursor)],
         inflight := s.inflight - {h},
         served := s.served[h := (if h in s.served then s.served[h] else []) + p.batch.records])
    case Abandon(h) => s.(inflight := s.inflight - {h})
  }

  /** A new process over the same files: the references of the old one are gone. */
  function AfterReopen(s: State, host: string, maxBytes: nat): State {
    var kept := |Records(Retained(s.sink.files))|;
    State(Fresh(s.sink.files, s.sink.workspace, host, maxBytes), s.emitted,
          if kept <= |s.emitted| then |s.emitted| - kept else 0,
          s.reused || host in HostsOf(s.emitted), map[], map[], map[])
  }

  function HostsOf(records: seq<Record>): set<string> {
    set r | r in records :: r.host
  }

  /** The source read; a refusal or a retention gap ends the request. */
  function AfterAnswer(s: State, h: Handle, r: ReadResult): State
    requires h in s.inflight && s.inflight[h].Asked?
  {
    if r.Read? then s.(inflight := s.inflight[h := Answered(s.inflight[h].bound, r.batch)])
    else s.(inflight := s.inflight - {h})
  }

  function Init(k: Sink): State {
    State(k, [], 0, false, map[], map[], map[])
  }

  ghost predicate Next(s: State, s': State, cap: nat) {
    exists step :: Can(s, step, cap) && s' == After(s, step, cap)
  }

  ghost predicate StepAt(states: seq<State>, i: nat, cap: nat) {
    0 < i < |states| ==> Next(states[i - 1], states[i], cap)
  }

  ghost predicate Steps(states: seq<State>, cap: nat) {
    forall i :: StepAt(states, i, cap)
  }

  ghost predicate Starts(s: State, cap: nat) {
    exists workspace, host, maxBytes: nat ::
      && CanOpen(NO_FILES, workspace, host, maxBytes) && maxBytes <= cap
      && s == Init(Fresh(NO_FILES, workspace, host, maxBytes))
  }

  /** A run from the first opening of an empty directory; every max_bytes is at most `cap`. */
  ghost predicate Run(states: seq<State>, cap: nat) {
    && 0 < |states| && cap <= MAX_FILE
    && Starts(states[0], cap)
    && Steps(states, cap)
  }

  // ---------- the invariant ----------

  function History(s: State): seq<Record> {
    if s.origin <= |s.emitted| then s.emitted[s.origin..] else []
  }

  function StreamOf(s: State, g: Grant): seq<Record> {
    Stream(History(s), g.tenant, Names(g.generations))
  }

  /**
   What was served through a reference is one piece of the stream, and the cursor
   stands at the end of that piece.
   */
  ghost predicate Chained(stream: seq<Record>, cursor: Option<Token>, served: seq<Record>) {
    match cursor
    case None => served == []
    case Some(token) =>
      exists a: nat, e: nat :: Piece(stream, a, e, served) && 0 < e && stream[e - 1] == token.anchor
  }

  predicate Piece(stream: seq<Record>, a: nat, e: nat, served: seq<Record>) {
    a <= e <= |stream| && served == stream[a..e]
  }

  ghost predicate ReferenceOk(s: State, r: Reference, served: seq<Record>) {
    && ValidGenerations(r.grant.generations)
    && (if r.started then Chained(StreamOf(s, r.grant), r.cursor, served) else r.cursor.None? && served == [])
  }

  ghost predicate InflightOk(s: State, h: Handle, p: Inflight) {
    && h in s.served
    && (h in s.references ==> s.references[h] == p.bound)
    && ReferenceOk(s, p.bound, s.served[h])
    && match p
       case Asked(bound, cursor, limit) => bound.started ==> cursor == bound.cursor
       case Answered(bound, batch) => Chained(StreamOf(s, bound.grant), batch.cursor, s.served[h] + batch.records)
  }

  ghost predicate ReadersInv(s: State) {
    && (forall h :: h in s.references ==> h in s.served && ReferenceOk(s, s.references[h], s.served[h]))
    && (forall h :: h in s.inflight ==> InflightOk(s, h, s.inflight[h]))
    && (forall h :: h in s.served ==> Served(s, h))
  }

  /** Whatever a handle was served, live or purged, is one piece of one stream. */
  ghost predicate Served(s: State, h: Handle)
    requires h in s.served
  {
    exists g: Grant, a: nat, e: nat :: Piece(StreamOf(s, g), a, e, s.served[h])
  }

  ghost predicate StartsAtOne(records: seq<Record>) {
    forall tenant, host ::
      OfScope(records, tenant, host) != [] ==> OfScope(records, tenant, host)[0].sequence == 1
  }

  /** While no generation name was reused, the whole life of the log is numbered from 1. */
  ghost predicate NamesInv(s: State) {
    !s.reused ==>
      && GapFree(s.emitted) && StartsAtOne(s.emitted)
      && s.origin <= |s.emitted| && s.sink.host !in HostsOf(s.emitted[..s.origin])
  }

  ghost predicate Inv(s: State, cap: nat) {
    && s.origin <= |s.emitted|
    && SinkInv(s.sink, History(s), cap)
    && NamesInv(s)
    && ReadersInv(s)
  }

  // ---------- growth of the stream ----------

  lemma ChainedGrows(stream: seq<Record>, more: seq<Record>, cursor: Option<Token>, served: seq<Record>)
    requires Chained(stream, cursor, served)
    ensures Chained(stream + more, cursor, served)
  {
    if cursor.Some? {
      var a: nat, e: nat :| Piece(stream, a, e, served) && 0 < e && stream[e - 1] == cursor.value.anchor;
      assert (stream + more)[a..e] == stream[a..e];
      assert Piece(stream + more, a, e, served);
    }
  }

  /** A state whose history is longer and whose readers are the same. */
  lemma ReadersGrow(s: State, s': State)
    requires ReadersInv(s) && s.origin <= |s.emitted|
    requires s'.references == s.references && s'.inflight == s.inflight && s'.served == s.served
    requires s'.origin == s.origin && s.emitted <= s'.emitted
    ensures ReadersInv(s')
  {
    var more := s'.emitted[|s.emitted|..];
    assert History(s') == History(s) + more;
    forall g: Grant
      ensures StreamOf(s', g) == StreamOf(s, g) + Stream(more, g.tenant, Names(g.generations))
    {
      StreamConcat(History(s), more, g.tenant, Names(g.generations));
    }
    forall h | h in s.references
      ensures ReferenceOk(s', s.references[h], s.served[h])
    {
      ReferenceGrows(s, s', s.references[h], s.served[h]);
    }
    forall h | h in s.inflight
      ensures InflightOk(s', h, s.inflight[h])
    {
      var p := s.inflight[h];
      ReferenceGrows(s, s', p.bound, s.served[h]);
      if p.Answered? {
        ChainedGrows(StreamOf(s, p.bound.grant), Stream(more, p.bound.grant.tenant, Names(p.bound.grant.generations)),
                     p.batch.cursor, s.served[h] + p.batch.records);
      }
    }
    forall h | h in s.served
      ensures Served(s', h)
    {
      var g: Grant, a: nat, e: nat :| Piece(StreamOf(s, g), a, e, s.served[h]);
      assert StreamOf(s', g)[a..e] == StreamOf(s, g)[a..e];
      assert Piece(StreamOf(s', g), a, e, s'.served[h]);
    }
  }

  lemma ReferenceGrows(s: State, s': State, r: Reference, served: seq<Record>)
    requires ReferenceOk(s, r, served) && StreamOf(s, r.grant) <= StreamOf(s', r.grant)
    ensures ReferenceOk(s', r, served)
  {
    if r.started {
      var was, now := StreamOf(s, r.grant), StreamOf(s', r.grant);
      assert now == was + now[|was|..];
      ChainedGrows(was, now[|was|..], r.cursor, served);
    }
  }

  // ---------- one read ----------

  lemma {:induction false} IndexAt(s: seq<Record>, k: nat)
    requires Distinct(s) && k < |s|
    ensures s[k] in s && IndexOf(s, s[k]) == k
  {
    var i := IndexOf(s, s[k]);
    assert s[i] == s[k];
  }

  /** In a stream that lost its first `cut` records, what is pending after position `e`. */
  lemma PendingAfter(stream: seq<Record>, cut: nat, e: nat)
    requires Distinct(stream) && cut <= |stream| && 0 < e <= |stream|
    ensures stream[e - 1] in stream[cut..] <==> cut < e
    ensures cut < e ==> Pending(stream[cut..], Some(stream[e - 1])) == stream[e..]
  {
    var kept := stream[cut..];
    assert forall i :: 0 <= i < |kept| ==> kept[i] == stream[cut + i];
    if cut < e {
      assert kept[e - 1 - cut] == stream[e - 1];
      assert Distinct(kept);
      IndexAt(kept, e - 1 - cut);
    } else {
      forall i | 0 <= i < |kept|
        ensures kept[i] != stream[e - 1]
      {
        assert kept[i] == stream[cut + i];
      }
    }
  }

  /** The retained stream is the stream of the history without its first records. */
  lemma RetainedStream(s: State, g: Grant, cap: nat) returns (cut: nat)
    requires Inv(s, cap)
    ensures cut <= |StreamOf(s, g)|
    ensures Stream(Records(Retained(s.sink.files)), g.tenant, Names(g.generations)) == StreamOf(s, g)[cut..]
    ensures Distinct(StreamOf(s, g))
  {
    cut := SuffixStream(Records(Retained(s.sink.files)), History(s), g.tenant, Names(g.generations));
  }

  lemma SuffixStream(kept: seq<Record>, history: seq<Record>, tenant: string, names: set<string>) returns (cut: nat)
    requires IsSuffix(kept, history) && GapFree(history)
    ensures cut <= |Stream(history, tenant, names)| && Stream(kept, tenant, names) == Stream(history, tenant, names)[cut..]
    ensures Distinct(Stream(history, tenant, names))
  {
    var lost := history[..|history| - |kept|];
    assert history == lost + kept;
    StreamConcat(lost, kept, tenant, names);
    cut := |Stream(lost, tenant, names)|;
    GapFreeDistinct(history);
    StreamDistinct(history, tenant, names);
  }

  /** A batch taken after position `e` extends what was served up to there. */
  lemma BatchExtends(stream: seq<Record>, a: nat, e: nat, served: seq<Record>, limit: nat, cursor: Option<Token>)
    requires Piece(stream, a, e, served)
    requires var batch := Take(stream[e..], limit);
      cursor.Some? && cursor.value.anchor == if batch == [] then (if e > 0 then stream[e - 1] else cursor.value.anchor) else batch[|batch| - 1]
    requires e > 0 || Take(stream[e..], limit) != []
    ensures Chained(stream, cursor, served + Take(stream[e..], limit))
  {
    var batch := Take(stream[e..], limit);
    var f := e + |batch|;
    assert served + batch == stream[a..f];
    assert Piece(stream, a, f, served + batch);
    assert stream[f - 1] == cursor.value.anchor;
  }

  function AnchorOf(cursor: Option<Token>): Option<Record> {
    if cursor.Some? then Some(cursor.value.anchor) else None
  }

  /** What a read that succeeds hands out, in terms of the retained stream. */
  ghost predicate Answers(kept: seq<Record>, cursor: Option<Token>, limit: nat, batch: Batch) {
    && 1 <= limit
    && (cursor.Some? ==> cursor.value.anchor in kept)
    && batch.records == Take(Pending(kept, AnchorOf(cursor)), limit)
    && AnchorOf(batch.cursor) == LastOf(batch.records, AnchorOf(cursor))
  }

  lemma ReadAnswers(k: Sink, q: Query)
    ensures var r := ReadOf(k, q);
      r.Read? ==> Answers(Stream(Records(Retained(k.files)), q.tenant, Names(q.generations)), q.cursor, q.limit, r.batch)
  {
  }

  /** A read that is not refused: a retention gap exactly without its anchor. */
  lemma ReadOutcome(k: Sink, q: Query, kept: seq<Record>)
    requires !Refused(k, q) && kept == Stream(Records(Retained(k.files)), q.tenant, Names(q.generations))
    ensures ReadOf(k, q).RetentionGap? <==> q.cursor.Some? && q.cursor.value.anchor !in kept
    ensures ReadOf(k, q).RetentionGap? || ReadOf(k, q).Read?
    ensures ReadOf(k, q).Read? ==> ReadOf(k, q).batch.gap == (q.cursor.None? && Beheaded(kept))
  {
  }

  /** A read for a reference in order answers with the next piece of its stream. */
  lemma AnswerContinues(stream: seq<Record>, cut: nat, bound: Reference, cursor: Option<Token>, limit: nat, batch: Batch, served: seq<Record>)
    requires Distinct(stream) && cut <= |stream| && Answers(stream[cut..], cursor, limit, batch)
    requires if bound.started then Chained(stream, cursor, served) else served == []
    ensures Chained(stream, batch.cursor, served + batch.records)
  {
    if cursor.None? {
      FirstRead(stream, cut, limit, batch, served);
    } else if bound.started {
      var a: nat, e: nat :| Piece(stream, a, e, served) && 0 < e && stream[e - 1] == cursor.value.anchor;
      PendingAfter(stream, cut, e);
      BatchExtends(stream, a, e, served, limit, batch.cursor);
    } else {
      var i := IndexOf(stream[cut..], cursor.value.anchor);
      var e := cut + i + 1;
      assert stream[e - 1] == cursor.value.anchor;
      PendingAfter(stream, cut, e);
      assert Piece(stream, e, e, []);
      BatchExtends(stream, e, e, [], limit, batch.cursor);
    }
  }

  lemma ReadContinues(s: State, h: Handle, cap: nat)
    requires Inv(s, cap) && h in s.inflight && s.inflight[h].Asked?
    ensures var p := s.inflight[h]; var r := ReadOf(s.sink, QueryOf(s, p));
      r.Read? ==> Chained(StreamOf(s, p.bound.grant), r.batch.cursor, s.served[h] + r.batch.records)
  {
    var p := s.inflight[h];
    var r := ReadOf(s.sink, QueryOf(s, p));
    assert InflightOk(s, h, p);
    if r.Read? {
      ReadAnswers(s.sink, QueryOf(s, p));
      var cut := RetainedStream(s, p.bound.grant, cap);
      AnswerContinues(StreamOf(s, p.bound.grant), cut, p.bound, p.cursor, p.limit, r.batch, s.served[h]);
    }
  }

  /** A read without a cursor starts at the oldest retained record. */
  lemma FirstRead(stream: seq<Record>, cut: nat, limit: nat, batch: Batch, served: seq<Record>)
    requires cut <= |stream| && Answers(stream[cut..], None, limit, batch) && served == []
    ensures Chained(stream, batch.cursor, served + batch.records)
  {
    if batch.records != [] {
      assert Piece(stream, cut, cut, []);
      BatchExtends(stream, cut, cut, [], limit, batch.cursor);
    }
  }
}
