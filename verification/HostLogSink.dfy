/** The sink and the reader as loops over mutable state, proved against HostLog. */
module HostLogSink {
  import opened Common
  import opened HostLog
  import opened HostLogLaws

  // ---------- the reader ----------

  /** The dictionary of retained_records: the newest sequence number of every scope. */
  ghost predicate Tracks(sequences: map<Scope, nat>, records: seq<Record>) {
    && sequences.Keys == Scopes(records)
    && (forall s :: s in sequences ==> Newest(records, s.0, s.1) == Some(sequences[s]))
  }

  lemma ScopeSeen(records: seq<Record>, r: Record)
    ensures ScopeOf(r) in Scopes(records) <==> Newest(records, r.tenant, r.host).Some?
  {
    var s := OfScope(records, r.tenant, r.host);
    if s != [] {
      StreamHas(records, r.tenant, {r.host}, s[0]);
    }
    if x :| x in records && ScopeOf(x) == ScopeOf(r) {
      StreamHas(records, r.tenant, {r.host}, x);
    }
  }

  lemma TrackOne(sequences: map<Scope, nat>, records: seq<Record>, r: Record)
    requires Tracks(sequences, records)
    ensures Tracks(sequences[ScopeOf(r) := r.sequence], records + [r])
  {
    var next := sequences[ScopeOf(r) := r.sequence];
    forall s | s in next
      ensures Newest(records + [r], s.0, s.1) == Some(next[s])
    {
      StreamAppend(records, r, s.0, {s.1});
    }
    assert next.Keys == Scopes(records + [r]) by {
      assert forall x :: x in records + [r] <==> x in records || x == r;
    }
  }

  lemma ScopesGrow(a: seq<Record>, b: seq<Record>)
    ensures |Scopes(a)| <= |Scopes(a + b)|
  {
    assert forall x :: x in a ==> x in a + b;
    Smaller(Scopes(a), Scopes(a + b));
  }

  lemma {:induction false} Smaller(a: set<Scope>, b: set<Scope>)
    requires a <= b
    ensures |a| <= |b|
  {
    if a != {} {
      var x :| x in a;
      Smaller(a - {x}, b - {x});
    }
  }

  /** The checks of retained_records on one decoded line, against its dictionary. */
  predicate Passes(line: Line, workspace: string, sequences: map<Scope, nat>) {
    && LineOk(line, workspace)
    && var scope := ScopeOf(line.record);
      if scope in sequences then line.record.sequence == sequences[scope] + 1 else |sequences| < MAX_SCOPES
  }

  /** What Acceptable asks of the lines alone. */
  ghost predicate LinesOk(lines: seq<Line>, workspace: string) {
    && (forall i :: 0 <= i < |lines| ==> LineOk(lines[i], workspace))
    && GapFree(Records(lines))
    && |Scopes(Records(lines))| <= MAX_SCOPES
  }

  lemma RecordsAppend(lines: seq<Line>, line: Line)
    ensures Records(lines + [line]) == Records(lines) + if line.Whole? then [line.record] else []
  {
    assert (lines + [line])[..|lines|] == lines;
  }

  lemma AllLinesOk(lines: seq<Line>, line: Line, workspace: string)
    requires forall i :: 0 <= i < |lines| ==> LineOk(lines[i], workspace)
    ensures (forall i :: 0 <= i < |lines + [line]| ==> LineOk((lines + [line])[i], workspace)) <==> LineOk(line, workspace)
  {
    var more := lines + [line];
    assert more[|lines|] == line;
    assert forall i :: 0 <= i < |lines| ==> more[i] == lines[i];
  }

  lemma OneMoreScope(records: seq<Record>, r: Record, sequences: map<Scope, nat>)
    requires Tracks(sequences, records)
    ensures ScopeOf(r) in sequences ==> Scopes(records + [r]) == Scopes(records)
    ensures ScopeOf(r) !in sequences ==> |Scopes(records + [r])| == |sequences| + 1
    ensures |sequences| == |Scopes(records)|
  {
    assert forall x :: x in records + [r] <==> x in records || x == r;
    assert Scopes(records + [r]) == Scopes(records) + {ScopeOf(r)};
  }

  lemma ContinuesScope(records: seq<Record>, r: Record, sequences: map<Scope, nat>)
    requires Tracks(sequences, records)
    ensures Continues(records, r) <==> (ScopeOf(r) in sequences ==> r.sequence == sequences[ScopeOf(r)] + 1)
  {
    ScopeSeen(records, r);
  }

  /** The incremental checks accept a line exactly when the whole prefix is acceptable. */
  lemma PassesExactly(lines: seq<Line>, line: Line, workspace: string, sequences: map<Scope, nat>)
    requires LinesOk(lines, workspace) && Tracks(sequences, Records(lines))
    ensures Passes(line, workspace, sequences) <==> LinesOk(lines + [line], workspace)
  {
    AllLinesOk(lines, line, workspace);
    RecordsAppend(lines, line);
    if LineOk(line, workspace) {
      GapFreeAppend(Records(lines), line.record);
      OneMoreScope(Records(lines), line.record, sequences);
      ContinuesScope(Records(lines), line.record, sequences);
    }
  }

  lemma LinesOkPrefix(a: seq<Line>, b: seq<Line>, workspace: string)
    requires LinesOk(a + b, workspace)
    ensures LinesOk(a, workspace)
  {
    assert forall i :: 0 <= i < |a| ==> (a + b)[i] == a[i];
    RecordsConcat(a, b);
    GapFreeParts(Records(a), Records(b));
    ScopesGrow(Records(a), Records(b));
  }

  lemma LineRead(lines: seq<Line>, line: Line, workspace: string, sequences: map<Scope, nat>)
    requires LinesOk(lines, workspace) && Tracks(sequences, Records(lines)) && Passes(line, workspace, sequences)
    ensures LinesOk(lines + [line], workspace)
    ensures Tracks(sequences[ScopeOf(line.record) := line.record.sequence], Records(lines + [line]))
  {
    PassesExactly(lines, line, workspace, sequences);
    RecordsAppend(lines, line);
    TrackOne(sequences, Records(lines), line.record);
  }

  lemma LineRefused(lines: seq<Line>, line: Line, rest: seq<Line>, workspace: string, sequences: map<Scope, nat>)
    requires LinesOk(lines, workspace) && Tracks(sequences, Records(lines)) && !Passes(line, workspace, sequences)
    ensures !LinesOk((lines + [line]) + rest, workspace)
  {
    PassesExactly(lines, line, workspace, sequences);
    if LinesOk((lines + [line]) + rest, workspace) {
      LinesOkPrefix(lines + [line], rest, workspace);
    }
  }

  /** The reader has accepted the first `i` lines of a file that follows the lines `before`. */
  ghost predicate Midway(before: seq<Line>, file: File, i: nat, workspace: string, records: seq<Record>, sequences: map<Scope, nat>) {
    && i <= |file|
    && LinesOk(before + file[..i], workspace) && Tracks(sequences, Records(before + file[..i]))
    && records == Records(file[..i])
  }

  lemma MidwayStarts(before: seq<Line>, file: File, workspace: string, sequences: map<Scope, nat>)
    requires LinesOk(before, workspace) && Tracks(sequences, Records(before))
    ensures Midway(before, file, 0, workspace, [], sequences)
  {
    assert before + file[..0] == before;
  }

  lemma MidwayEnds(before: seq<Line>, file: File, workspace: string, records: seq<Record>, sequences: map<Scope, nat>)
    requires Midway(before, file, |file|, workspace, records, sequences)
    ensures LinesOk(before + file, workspace) && Tracks(sequences, Records(before + file)) && records == Records(file)
  {
    assert file[..|file|] == file;
  }

  lemma MidwayStep(before: seq<Line>, file: File, i: nat, workspace: string, records: seq<Record>, sequences: map<Scope, nat>)
    requires Midway(before, file, i, workspace, records, sequences) && i < |file|
    ensures var line := file[i];
      if Passes(line, workspace, sequences)
      then Midway(before, file, i + 1, workspace, records + [line.record], sequences[ScopeOf(line.record) := line.record.sequence])
      else !LinesOk(before + file, workspace)
  {
    SplitAt(before, file, i);
    if Passes(file[i], workspace, sequences) {
      LineRead(before + file[..i], file[i], workspace, sequences);
      RecordsAppend(file[..i], file[i]);
    } else {
      LineRefused(before + file[..i], file[i], file[i + 1..], workspace, sequences);
    }
  }

  lemma SplitAt(before: seq<Line>, file: File, i: nat)
    requires i < |file|
    ensures file[..i + 1] == file[..i] + [file[i]]
    ensures before + file[..i + 1] == (before + file[..i]) + [file[i]]
    ensures before + file == ((before + file[..i]) + [file[i]]) + file[i + 1..]
  {
  }

  /** One file of retained_records. */
  method ReadFile(file: File, workspace: string, sequences0: map<Scope, nat>, ghost before: seq<Line>)
    returns (ok: bool, records: seq<Record>, sequences: map<Scope, nat>)
    requires LinesOk(before, workspace) && Tracks(sequences0, Records(before))
    ensures ok <==> LinesOk(before + file, workspace)
    ensures ok ==> records == Records(file) && Tracks(sequences, Records(before + file))
  {
    records, sequences := [], sequences0;
    MidwayStarts(before, file, workspace, sequences);
    for i := 0 to |file|
      invariant Midway(before, file, i, workspace, records, sequences)
    {
      var line := file[i];
      MidwayStep(before, file, i, workspace, records, sequences);
      if !Passes(line, workspace, sequences) {
        return false, [], map[];
      }
      records := records + [line.record];
      sequences := sequences[ScopeOf(line.record) := line.record.sequence];
    }
    MidwayEnds(before, file, workspace, records, sequences);
    ok := true;
  }

  function Older(f: Files, index: nat): seq<Line>
    requires index <= 5
    decreases 5 - index
  {
    if index == 5 then [] else Older(f, index + 1) + Contents(f[index])
  }

  lemma OlderIsRetained(f: Files)
    ensures Older(f, 0) == Retained(f)
  {
    assert Older(f, 5) == [];
    assert Older(f, 4) == Contents(f[4]);
    assert Older(f, 3) == Contents(f[4]) + Contents(f[3]);
    assert Older(f, 2) == Contents(f[4]) + Contents(f[3]) + Contents(f[2]);
    assert Older(f, 1) == Contents(f[4]) + Contents(f[3]) + Contents(f[2]) + Contents(f[1]);
  }

  lemma {:induction false} OlderIsPrefix(f: Files, index: nat, workspace: string)
    requires index <= 5 && LinesOk(Older(f, 0), workspace)
    ensures LinesOk(Older(f, index), workspace)
  {
    if index > 0 {
      OlderIsPrefix(f, index - 1, workspace);
      LinesOkPrefix(Older(f, index), Contents(f[index - 1]), workspace);
    }
  }

  lemma NothingRead(workspace: string)
    ensures LinesOk([], workspace) && Tracks(map[], [])
  {
    assert forall tenant, host :: OfScope([], tenant, host) == [];
    assert Scopes([]) == {};
  }

  lemma Unreadable(f: Files, index: nat, workspace: string)
    requires index < 5 && !LinesOk(Older(f, index), workspace)
    ensures !Acceptable(f, workspace)
  {
    OlderIsRetained(f);
    if LinesOk(Older(f, 0), workspace) {
      OlderIsPrefix(f, index, workspace);
    }
  }

  /** The reader has been through the files from server.log.4 down to `index`. */
  ghost predicate ReadDownTo(files: Files, index: nat, workspace: string, records: seq<Record>, sequences: map<Scope, nat>)
    requires index <= 5
  {
    && LinesOk(Older(files, index), workspace) && Tracks(sequences, Records(Older(files, index)))
    && records == Records(Older(files, index))
    && (forall i :: index <= i < 5 ==> Size(Contents(files[i])) <= MAX_FILE)
  }

  lemma ReadOneMore(files: Files, index: nat, workspace: string, records: seq<Record>, sequences: map<Scope, nat>,
                    more: seq<Record>, next: map<Scope, nat>)
    requires index < 5 && ReadDownTo(files, index + 1, workspace, records, sequences)
    requires Size(Contents(files[index])) <= MAX_FILE && LinesOk(Older(files, index), workspace)
    requires more == Records(Contents(files[index])) && Tracks(next, Records(Older(files, index)))
    ensures ReadDownTo(files, index, workspace, records + more, next)
  {
    RecordsConcat(Older(files, index + 1), Contents(files[index]));
  }

  /** One round of the loop over the file names; a missing file is skipped. */
  method ReadNext(files: Files, index: nat, workspace: string, records: seq<Record>, sequences: map<Scope, nat>)
    returns (ok: bool, all: seq<Record>, next: map<Scope, nat>)
    requires index < 5 && ReadDownTo(files, index + 1, workspace, records, sequences)
    ensures if ok then ReadDownTo(files, index, workspace, all, next) else !Acceptable(files, workspace)
  {
    if files[index].None? {
      assert Older(files, index) == Older(files, index + 1);
      return true, records, sequences;
    }
    if Size(files[index].value) > MAX_FILE {
      return false, [], map[];
    }
    var more;
    ok, more, next := ReadFile(files[index].value, workspace, sequences, Older(files, index + 1));
    if !ok {
      Unreadable(files, index, workspace);
      return false, [], map[];
    }
    ReadOneMore(files, index, workspace, records, sequences, more, next);
    all := records + more;
  }

  /** retained_records: all or nothing, exactly on the logs described by Acceptable. */
  method ReadRetained(files: Files, workspace: string) returns (r: Result<seq<Record>>)
    ensures r.Ok? <==> Acceptable(files, workspace)
    ensures r.Ok? ==> r.value == Records(Retained(files))
  {
    NothingRead(workspace);
    var records, sequences := [], map[];
    var index := 5;
    while index > 0
      invariant 0 <= index <= 5 && ReadDownTo(files, index, workspace, records, sequences)
    {
      index := index - 1;
      var ok;
      ok, records, sequences := ReadNext(files, index, workspace, records, sequences);
      if !ok {
        return Err;
      }
    }
    AllRead(files, workspace, records, sequences);
    r := Ok(records);
  }

  lemma AllRead(files: Files, workspace: string, records: seq<Record>, sequences: map<Scope, nat>)
    requires ReadDownTo(files, 0, workspace, records, sequences)
    ensures Acceptable(files, workspace) && records == Records(Retained(files))
  {
    OlderIsRetained(files);
  }

  // ---------- replaying a selection ----------

  lemma {:induction false} IndexGrows(s: seq<Record>, r: Record, p: Record)
    requires p in s
    ensures p in s + [r] && IndexOf(s + [r], p) == IndexOf(s, p)
  {
    assert (s + [r])[0] == s[0];
    if s[0] != p {
      assert (s + [r])[1..] == s[1..] + [r];
      IndexGrows(s[1..], r, p);
    }
  }

  lemma {:induction false} IndexNew(s: seq<Record>, p: Record)
    requires p !in s
    ensures IndexOf(s + [p], p) == |s|
  {
    if s != [] {
      assert (s + [p])[1..] == s[1..] + [p];
      IndexNew(s[1..], p);
    }
  }

  predicate Anchored(s: seq<Record>, anchor: Option<Record>) {
    anchor.Some? ==> anchor.value in s
  }

  /** How one more record of the stream changes what is pending. */
  lemma PendingGrows(s: seq<Record>, r: Record, anchor: Option<Record>)
    ensures Anchored(s, anchor) ==> Anchored(s + [r], anchor) && Pending(s + [r], anchor) == Pending(s, anchor) + [r]
    ensures !Anchored(s, anchor) ==>
      Anchored(s + [r], anchor) == (anchor == Some(r)) && Pending(s + [r], anchor) == [] && Pending(s, anchor) == []
  {
    if anchor.Some? {
      var p := anchor.value;
      if p in s {
        IndexGrows(s, r, p);
      } else if p == r {
        IndexNew(s, p);
      }
    }
  }

  function Hosts(s: seq<Record>): set<string> {
    set r | r in s :: r.host
  }

  lemma HostsGrow(s: seq<Record>, r: Record)
    ensures Hosts(s + [r]) == Hosts(s) + {r.host}
    ensures r.host in Hosts(s) <==> exists j :: 0 <= j < |s| && s[j].host == r.host
  {
    assert forall x :: x in s + [r] <==> x in s || x == r;
  }

  /** The gap flag of the loop after one more record of the stream. */
  lemma GapGrows(s: seq<Record>, r: Record, anchor: Option<Record>)
    ensures (anchor.None? && Beheaded(s + [r]))
         == ((anchor.None? && Beheaded(s)) || (r.host !in Hosts(s) && anchor.None? && r.sequence > 1))
  {
    HostsGrow(s, r);
    BeheadedGrows(s, r);
  }

  /** The selection of the loop after one more record of the stream. */
  lemma SelectionGrows(s: seq<Record>, r: Record, anchor: Option<Record>, limit: nat)
    ensures
      var was, now := Take(Pending(s, anchor), limit), Take(Pending(s + [r], anchor), limit);
      if Anchored(s, anchor) && |was| < limit then now == was + [r] else now == was
    ensures Anchored(s, anchor) ==> Anchored(s + [r], anchor)
    ensures !Anchored(s, anchor) ==> Anchored(s + [r], anchor) == (Some(r) == anchor)
  {
    PendingGrows(s, r, anchor);
  }

  /** What the loop variables of _read hold after the part `s` of the tenant's stream. */
  ghost predicate Selecting(s: seq<Record>, anchor: Option<Record>, limit: nat,
                            found: bool, selected: seq<Record>, last: Option<Record>, gap: bool, seen: set<string>) {
    && found == Anchored(s, anchor)
    && selected == Take(Pending(s, anchor), limit)
    && last == LastOf(selected, anchor)
    && gap == (anchor.None? && Beheaded(s))
    && seen == Hosts(s)
  }

  lemma SelectingStep(s: seq<Record>, r: Record, anchor: Option<Record>, limit: nat,
                      found: bool, selected: seq<Record>, last: Option<Record>, gap: bool, seen: set<string>)
    requires Selecting(s, anchor, limit, found, selected, last, gap, seen)
    ensures var takes := found && |selected| < limit;
      Selecting(s + [r], anchor, limit,
                found || Some(r) == anchor,
                if takes then selected + [r] else selected,
                if takes then Some(r) else last,
                if r.host in seen then gap else gap || (anchor.None? && r.sequence > 1),
                seen + {r.host})
  {
    SelectionGrows(s, r, anchor, limit);
    GapGrows(s, r, anchor);
    HostsGrow(s, r);
  }

  /** The selection loop of _read over the retained records. */
  method Select(records: seq<Record>, tenant: string, generations: seq<string>, anchor: Option<Record>, limit: nat)
    returns (found: bool, selected: seq<Record>, last: Option<Record>, gap: bool)
    ensures var s := Stream(records, tenant, Names(generations));
      && found == Anchored(s, anchor)
      && selected == Take(Pending(s, anchor), limit)
      && last == LastOf(selected, anchor)
      && gap == (anchor.None? && Beheaded(s))
  {
    found, selected, last, gap := anchor.None?, [], anchor, false;
    var seen: set<string> := {};
    ghost var s: seq<Record> := [];
    assert Selecting([], anchor, limit, found, selected, last, gap, seen);
    for i := 0 to |records|
      invariant s == Stream(records[..i], tenant, Names(generations))
      invariant Selecting(s, anchor, limit, found, selected, last, gap, seen)
    {
      var record := records[i];
      StreamTake(records, i, tenant, Names(generations));
      if record.tenant != tenant || record.host !in generations {
        continue;
      }
      SelectingStep(s, record, anchor, limit, found, selected, last, gap, seen);
      s := s + [record];
      if record.host !in seen {
        gap := gap || (anchor.None? && record.sequence > 1);
      }
      seen := seen + {record.host};
      if !found {
        found := Some(record) == anchor;
        continue;
      }
      if |selected| < limit {
        selected := selected + [record];
        last := Some(record);
      }
    }
    WholeStream(records);
  }

  lemma StreamTake(records: seq<Record>, i: nat, tenant: string, names: set<string>)
    requires i < |records|
    ensures var r := records[i];
      Stream(records[..i + 1], tenant, names)
        == if r.tenant == tenant && r.host in names then Stream(records[..i], tenant, names) + [r] else Stream(records[..i], tenant, names)
  {
    assert records[..i + 1][..i] == records[..i];
  }

  lemma WholeStream(records: seq<Record>)
    ensures records[..|records|] == records
  {
  }

  lemma ReadIs(k: Sink, q: Query, selected: seq<Record>, last: Option<Record>, cursor: Option<Token>, gap: bool)
    requires !Refused(k, q)
    requires var s := Stream(Records(Retained(k.files)), q.tenant, Names(q.generations));
      Anchored(s, Anchor(q)) && selected == Take(Pending(s, Anchor(q)), q.limit) && gap == (Anchor(q).None? && Beheaded(s))
    requires last == LastOf(selected, Anchor(q))
    requires cursor == if last.Some? then Some(Token(q.workspace, q.tenant, q.generations, last.value)) else None
    ensures ReadOf(k, q) == ReadResult.Read(Batch(selected, cursor, gap))
  {
  }

  // ---------- the sink ----------

  class WorkspaceLogSink {
    const workspace: string
    const hostInstance: string
    const maxBytes: nat
    var files: Files
    var sequences: map<string, nat>
    var failed: bool
    var closed: bool

    function State(): Sink
      reads this
    {
      Sink(workspace, hostInstance, maxBytes, files, sequences, failed, closed)
    }

    constructor (workspace: string, hostInstance: string, maxBytes: nat, files: Files)
      ensures State() == Fresh(files, workspace, hostInstance, maxBytes)
    {
      this.workspace, this.hostInstance, this.maxBytes := workspace, hostInstance, maxBytes;
      this.files := Opened(files);
      sequences, failed, closed := map[], false, false;
    }

    /** Open the sink over the files a directory holds; the Python constructor raises instead of returning null. */
    static method Open(workspace: string, hostInstance: string, maxBytes: nat, files: Files) returns (sink: WorkspaceLogSink?)
      ensures sink != null <==> CanOpen(files, workspace, hostInstance, maxBytes)
      ensures sink != null ==> fresh(sink) && sink.State() == Fresh(files, workspace, hostInstance, maxBytes)
    {
      sink := null;
      if hostInstance == "" || !(MIN_FILE <= maxBytes <= MAX_FILE) {
        return;
      }
      var retained := ReadRetained(files, workspace);
      if retained.Err? {
        return;
      }
      for i := 0 to |retained.value|
        invariant forall j :: 0 <= j < i ==> retained.value[j].host != hostInstance
      {
        if retained.value[i].host == hostInstance {
          return;
        }
      }
      sink := new WorkspaceLogSink(workspace, hostInstance, maxBytes, files);
    }

    /** _rotate; `stop` is where a rename fails, 0 if none does. */
    method Rotate(stop: nat)
      requires stop <= 4
      modifies this`files
      ensures files == RotatedTo(old(files), stop)
    {
      var index := 4;
      while index > stop
        invariant stop <= index <= 4
        invariant files == RotatedTo(old(files), index)
      {
        if files[index - 1].Some? {
          files := files[index := files[index - 1]][index - 1 := None];
        }
        index := index - 1;
      }
    }

    method Emit(m: Message, fault: Fault) returns (r: EmitResult)
      requires fault.RotateFails? ==> fault.at <= 4
      requires fault.WriteFails? ==> fault.written < m.size
      modifies this
      ensures (State(), r) == AfterEmit(old(State()), m, fault)
    {
      if closed || failed || (m.tenant !in sequences && |sequences| >= MAX_TENANTS) {
        return EmitDenied;
      }
      var sequence := (if m.tenant in sequences then sequences[m.tenant] else 0) + 1;
      var record := Record(m.tenant, workspace, hostInstance, m.request, m.text, sequence, m.stamp);
      if m.size > (if maxBytes < MAX_LINE then maxBytes else MAX_LINE) {
        return EmitDenied;
      }
      if fault.OpenFails? {
        return EmitRaised;
      }
      files := Opened(files);
      if Size(files[0].value) + m.size > maxBytes {
        if fault.RotateFails? {
          Rotate(fault.at);
          failed := true;
          return EmitRaised;
        }
        Rotate(0);
        files := Opened(files);
      }
      if fault.WriteFails? {
        if fault.written > 0 {
          files := Append(files, Fragment(fault.written));
        }
        failed := true;
        return EmitRaised;
      }
      files := Append(files, Whole(record, m.size));
      if fault.SyncFails? {
        failed := true;
        return EmitRaised;
      }
      sequences := sequences[m.tenant := sequence];
      r := Written(sequence);
    }

    method Read(q: Query) returns (r: ReadResult)
      ensures r == ReadOf(State(), q)
    {
      if closed || failed || !ValidGenerations(q.generations) || q.workspace != workspace || q.host != hostInstance
         || !(1 <= q.limit <= MAX_BATCH) {
        return ReadDenied;
      }
      var anchor: Option<Record> := None;
      if q.cursor.Some? {
        var token := q.cursor.value;
        if token.workspace != workspace || token.tenant != q.tenant || token.generations != q.generations {
          return ReadDenied;
        }
        anchor := Some(token.anchor);
      }
      var retained := ReadRetained(files, workspace);
      if retained.Err? {
        return ReadDenied;
      }
      var found, selected, last, gap := Select(retained.value, q.tenant, q.generations, anchor, q.limit);
      if !found {
        return RetentionGap;
      }
      var cursor := None;
      if last.Some? {
        cursor := Some(Token(workspace, q.tenant, q.generations, last.value));
      }
      ReadIs(State(), q, selected, last, cursor, gap);
      r := ReadResult.Read(Batch(selected, cursor, gap));
    }

    method Close()
      modifies this
      ensures State() == old(State()).(closed := true, sequences := if old(closed) then old(sequences) else map[])
    {
      if !closed {
        closed := true;
        sequences := map[];
      }
    }
  }
}
