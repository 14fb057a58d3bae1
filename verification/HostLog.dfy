/**
 The retained host log: five rotating files of JSON lines, what the sink writes
 to them, and what the reader accepts and replays.

 The encoded size of a line is an input of each emit. A position is the SHA-256
 digest of a line, so it is modelled by the record the line encodes.
 */
module HostLog {
  import opened Common

  const MAX_FILE: nat := 10 * 1024 * 1024
  const MIN_FILE: nat := 1024
  const MAX_LINE: nat := 16384
  const MAX_TENANTS: nat := 64
  const MAX_SCOPES: nat := 4096
  const MAX_SEQUENCE: nat := 0x7FFF_FFFF_FFFF_FFFF
  const MAX_BATCH: nat := 128
  const MAX_GENERATIONS: nat := 32
  const MAX_NAME: nat := 128

  datatype Record = Record(tenant: string, workspace: string, host: string, request: string, message: string,
                           sequence: nat, stamp: real)

  /** A line of a file: a whole record, or what an interrupted write left behind. */
  datatype Line = Whole(record: Record, size: nat) | Fragment(size: nat)

  type File = seq<Line>

  /** Index 0 is server.log, index i is server.log.i. */
  type Files = f: seq<Option<File>> | |f| == 5 witness [None, None, None, None, None]

  const NO_FILES: Files := [None, None, None, None, None]

  type Scope = (string, string)

  function ScopeOf(r: Record): Scope {
    (r.tenant, r.host)
  }

  function Contents(f: Option<File>): File {
    if f.Some? then f.value else []
  }

  /** All lines, oldest first: server.log.4 down to server.log. */
  function Retained(f: Files): seq<Line> {
    Contents(f[4]) + Contents(f[3]) + Contents(f[2]) + Contents(f[1]) + Contents(f[0])
  }

  function Records(lines: seq<Line>): seq<Record> {
    if lines == [] then []
    else Records(lines[..|lines| - 1]) + (if lines[|lines| - 1].Whole? then [lines[|lines| - 1].record] else [])
  }

  function Size(file: File): nat {
    if file == [] then 0 else Size(file[..|file| - 1]) + file[|file| - 1].size
  }

  /** The records of one tenant in the given generations, in order. */
  function Stream(records: seq<Record>, tenant: string, generations: set<string>): seq<Record> {
    if records == [] then []
    else
      var r := records[|records| - 1];
      Stream(records[..|records| - 1], tenant, generations)
      + (if r.tenant == tenant && r.host in generations then [r] else [])
  }

  /** Within every scope the sequence numbers run without a gap. */
  ghost predicate GapFree(records: seq<Record>) {
    forall tenant, host :: Counted(OfScope(records, tenant, host))
  }

  function OfScope(records: seq<Record>, tenant: string, host: string): seq<Record> {
    Stream(records, tenant, {host})
  }

  predicate Counted(s: seq<Record>) {
    forall k :: 0 <= k < |s| ==> s[k].sequence == s[0].sequence + k
  }

  function Scopes(records: seq<Record>): set<Scope> {
    set r | r in records :: ScopeOf(r)
  }

  // ---------- what the reader accepts ----------

  /** str.isspace */
  predicate IsSpace(c: char) {
    var n := c as int;
    || 9 <= n <= 13 || 28 <= n <= 32 || n == 0x85 || n == 0xA0 || n == 0x1680 || 0x2000 <= n <= 0x200A
    || n == 0x2028 || n == 0x2029 || n == 0x202F || n == 0x205F || n == 0x3000
  }

  predicate ValidName(name: string) {
    && 1 <= |name| <= MAX_NAME
    && name != "*" && name != "latest" && name != "prior"
    && (forall i :: 0 <= i < |name| ==> !IsSpace(name[i]) && name[i] as int >= 32)
  }

  predicate ValidGenerations(names: seq<string>) {
    && 1 <= |names| <= MAX_GENERATIONS
    && (forall i :: 0 <= i < |names| ==> ValidName(names[i]))
    && (forall i, j :: 0 <= i < j < |names| ==> names[i] != names[j])
  }

  /** decode_record on the line of a record. */
  predicate Decodes(r: Record, workspace: string) {
    r.workspace == workspace && ValidName(r.host) && r.tenant != "" && 1 <= r.sequence <= MAX_SEQUENCE
  }

  predicate LineOk(line: Line, workspace: string) {
    line.Whole? && line.size <= MAX_LINE && Decodes(line.record, workspace)
  }

  /** What retained_records lets through without raising. */
  ghost predicate Acceptable(files: Files, workspace: string) {
    && (forall i :: 0 <= i < 5 ==> Size(Contents(files[i])) <= MAX_FILE)
    && (forall i :: 0 <= i < |Retained(files)| ==> LineOk(Retained(files)[i], workspace))
    && GapFree(Records(Retained(files)))
    && |Scopes(Records(Retained(files)))| <= MAX_SCOPES
  }

  // ---------- writing ----------

  datatype Sink = Sink(workspace: string, host: string, maxBytes: nat, files: Files, sequences: map<string, nat>,
                       failed: bool, closed: bool)

  /** One call of emit after redaction; `size` is the length of its encoded line. */
  datatype Message = Message(tenant: string, request: string, text: string, stamp: real, size: nat)

  /** Where the operating system fails an emit. `RotateFails(0)` fails after the last rename. */
  datatype Fault = NoFault | OpenFails | RotateFails(at: nat) | WriteFails(written: nat) | SyncFails

  datatype EmitResult = Written(sequence: nat) | EmitDenied | EmitRaised

  /** The file rotation, stopped in front of the rename onto index `stop`. */
  function RotatedTo(f: Files, stop: nat): Files
    requires stop <= 4
  {
    seq(5, i requires 0 <= i < 5 =>
      if i < stop || stop == 4 then f[i]
      else if i == stop then None
      else if i == 4 then (if f[3].Some? then f[3] else f[4])
      else f[i - 1])
  }

  function Opened(f: Files): Files {
    f[0 := Some(Contents(f[0]))]
  }

  function Append(f: Files, line: Line): Files {
    f[0 := Some(Contents(f[0]) + [line])]
  }

  function LineLimit(k: Sink): nat {
    if k.maxBytes < MAX_LINE then k.maxBytes else MAX_LINE
  }

  predicate Admits(k: Sink, m: Message) {
    && !k.closed && !k.failed
    && (m.tenant in k.sequences || |k.sequences| < MAX_TENANTS)
    && m.size <= LineLimit(k)
  }

  function NextSequence(k: Sink, tenant: string): nat {
    (if tenant in k.sequences then k.sequences[tenant] else 0) + 1
  }

  function NextRecord(k: Sink, m: Message): Record {
    Record(m.tenant, k.workspace, k.host, m.request, m.text, NextSequence(k, m.tenant), m.stamp)
  }

  predicate Rotates(k: Sink, m: Message) {
    Size(Contents(k.files[0])) + m.size > k.maxBytes
  }

  /** server.log as the write finds it. */
  function Prepared(k: Sink, m: Message): Files {
    if Rotates(k, m) then Opened(RotatedTo(Opened(k.files), 0)) else Opened(k.files)
  }

  function AfterEmit(k: Sink, m: Message, fault: Fault): (Sink, EmitResult)
    requires fault.RotateFails? ==> fault.at <= 4
    requires fault.WriteFails? ==> fault.written < m.size
  {
    var line := Whole(NextRecord(k, m), m.size);
    if !Admits(k, m) then (k, EmitDenied)
    else if fault.OpenFails? then (k, EmitRaised)
    else if fault.RotateFails? && Rotates(k, m) then
      (k.(files := RotatedTo(Opened(k.files), fault.at), failed := true), EmitRaised)
    else if fault.WriteFails? then
      (k.(files := if fault.written == 0 then Prepared(k, m) else Append(Prepared(k, m), Fragment(fault.written)), failed := true),
       EmitRaised)
    else if fault.SyncFails? then
      (k.(files := Append(Prepared(k, m), line), failed := true), EmitRaised)
    else
      (k.(files := Append(Prepared(k, m), line), sequences := k.sequences[m.tenant := NextSequence(k, m.tenant)]),
       Written(NextSequence(k, m.tenant)))
  }

  /** The constructor: a valid configuration over a readable log without this generation. */
  ghost predicate CanOpen(files: Files, workspace: string, host: string, maxBytes: nat) {
    && host != "" && MIN_FILE <= maxBytes <= MAX_FILE
    && Acceptable(files, workspace)
    && (forall r :: r in Records(Retained(files)) ==> r.host != host)
  }

  function Fresh(files: Files, workspace: string, host: string, maxBytes: nat): Sink {
    Sink(workspace, host, maxBytes, Opened(files), map[], false, false)
  }

  // ---------- reading ----------

  /** A resume cursor: signed, so only the sinks of one directory issue them. */
  datatype Token = Token(workspace: string, tenant: string, generations: seq<string>, anchor: Record)

  datatype Batch = Batch(records: seq<Record>, cursor: Option<Token>, gap: bool)

  datatype ReadResult = ReadDenied | RetentionGap | Read(batch: Batch)

  datatype Query = Query(workspace: string, host: string, tenant: string, generations: seq<string>, cursor: Option<Token>, limit: nat)

  function Names(generations: seq<string>): set<string> {
    set g | g in generations
  }

  function IndexOf(s: seq<Record>, r: Record): (k: nat)
    requires r in s
    ensures k < |s| && s[k] == r && r !in s[..k]
  {
    if s[0] == r then 0 else 1 + IndexOf(s[1..], r)
  }

  /** The part of the stream a reader still has to get. */
  function Pending(s: seq<Record>, anchor: Option<Record>): seq<Record> {
    match anchor
    case None => s
    case Some(p) => if p in s then s[IndexOf(s, p) + 1..] else []
  }

  function Take(s: seq<Record>, limit: nat): seq<Record> {
    if |s| <= limit then s else s[..limit]
  }

  function LastOf(s: seq<Record>, anchor: Option<Record>): Option<Record> {
    if s == [] then anchor else Some(s[|s| - 1])
  }

  /** A generation of the stream starts after its first record. */
  ghost predicate Beheaded(s: seq<Record>) {
    exists i :: 0 <= i < |s| && s[i].sequence > 1 && forall j :: 0 <= j < i ==> s[j].host != s[i].host
  }

  ghost predicate Refused(k: Sink, q: Query) {
    || k.closed || k.failed || !ValidGenerations(q.generations)
    || q.workspace != k.workspace || q.host != k.host
    || !(1 <= q.limit <= MAX_BATCH)
    || (q.cursor.Some? && (q.cursor.value.workspace, q.cursor.value.tenant, q.cursor.value.generations)
                          != (q.workspace, q.tenant, q.generations))
    || !Acceptable(k.files, k.workspace)
  }

  function Anchor(q: Query): Option<Record> {
    if q.cursor.Some? then Some(q.cursor.value.anchor) else None
  }

  /** What one read of the retained stream answers, by filtering and slicing. */
  ghost function ReadOf(k: Sink, q: Query): ReadResult {
    var s := Stream(Records(Retained(k.files)), q.tenant, Names(q.generations));
    var anchor := Anchor(q);
    if Refused(k, q) then ReadDenied
    else if anchor.Some? && anchor.value !in s then RetentionGap
    else
      var batch := Take(Pending(s, anchor), q.limit);
      var last := LastOf(batch, anchor);
      Read(Batch(
        batch,
        if last.Some? then Some(Token(q.workspace, q.tenant, q.generations, last.value)) else None,
        anchor.None? && Beheaded(s)))
  }
}
