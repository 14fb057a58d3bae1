/** Exactly what a read answers, and when it is refused. */
module HostLogAnswers {
  import opened Common
  import opened HostLog
  import opened HostLogLaws
  import opened HostLogRetention
  import opened HostLogRun

  // ---------- the stream of a tenant ----------

  /** The records of the tenant in the listed generations, picked from the front. */
  function Picked(records: seq<Record>, tenant: string, generations: seq<string>): seq<Record> {
    if records == [] then []
    else
      (if records[0].tenant == tenant && records[0].host in generations then [records[0]] else [])
      + Picked(records[1..], tenant, generations)
  }

  lemma {:induction false} StreamIsPicked(records: seq<Record>, tenant: string, generations: seq<string>)
    ensures Stream(records, tenant, Names(generations)) == Picked(records, tenant, generations)
  {
    if records != [] {
      StreamIsPicked(records[1..], tenant, generations);
      StreamConcat([records[0]], records[1..], tenant, Names(generations));
      assert records == [records[0]] + records[1..];
      StreamAppend([], records[0], tenant, Names(generations));
      assert [] + [records[0]] == [records[0]];
    }
  }

  /** The whole records of the lines, from the front. */
  function RecordsOfLines(lines: seq<Line>): seq<Record> {
    if lines == [] then [] else (if lines[0].Whole? then [lines[0].record] else []) + RecordsOfLines(lines[1..])
  }

  lemma {:induction false} RecordsInOrder(lines: seq<Line>)
    ensures Records(lines) == RecordsOfLines(lines)
  {
    if lines != [] {
      RecordsInOrder(lines[1..]);
      RecordsConcat([lines[0]], lines[1..]);
      assert lines == [lines[0]] + lines[1..];
      assert [lines[0]][..0] == [] && Records([]) == [];
    }
  }

  /** What the files hold for the query: oldest file first, each from its first line. */
  function Held(k: Sink, q: Query): seq<Record> {
    Picked(RecordsOfLines(Contents(k.files[4]) + Contents(k.files[3]) + Contents(k.files[2]) + Contents(k.files[1]) + Contents(k.files[0])),
           q.tenant, q.generations)
  }

  lemma HeldIsStream(k: Sink, q: Query)
    ensures Stream(Records(Retained(k.files)), q.tenant, Names(q.generations)) == Held(k, q)
  {
    RecordsInOrder(Retained(k.files));
    StreamIsPicked(Records(Retained(k.files)), q.tenant, q.generations);
  }

  // ---------- refusals ----------

  /** At most 32 generations, each once, under names that can be listed. */
  predicate Listable(generations: seq<string>) {
    && 1 <= |generations| <= 32
    && (forall i, j :: 0 <= i < j < |generations| ==> generations[i] != generations[j])
    && forall i :: 0 <= i < |generations| ==>
         1 <= |generations[i]| <= 128 && generations[i] !in {"*", "latest", "prior"}
         && forall n :: 0 <= n < |generations[i]| ==> !IsSpace(generations[i][n]) && generations[i][n] as int >= 32
  }

  /** The cursor, if there is one, was issued for this very workspace, tenant and list. */
  predicate CursorFits(q: Query) {
    q.cursor.Some? ==>
      q.cursor.value.workspace == q.workspace && q.cursor.value.tenant == q.tenant && q.cursor.value.generations == q.generations
  }

  /** A read is refused if and only if the log is closed, failed or unreadable, or the query is not in order. */
  lemma DeniedExactly(k: Sink, q: Query)
    ensures ReadOf(k, q) == ReadDenied <==>
      || k.closed || k.failed || !Acceptable(k.files, k.workspace)
      || q.workspace != k.workspace || q.host != k.host || !Listable(q.generations) || !(1 <= q.limit <= 128) || !CursorFits(q)
  {
    ListableMeans(q.generations);
    RefusedMeans(k, q);
    RefusedIsDenied(k, q);
  }

  lemma RefusedIsDenied(k: Sink, q: Query)
    ensures ReadOf(k, q) == ReadDenied <==> Refused(k, q)
  {
  }

  lemma RefusedMeans(k: Sink, q: Query)
    ensures Refused(k, q) <==>
      || k.closed || k.failed || !Acceptable(k.files, k.workspace)
      || q.workspace != k.workspace || q.host != k.host || !ValidGenerations(q.generations) || !(1 <= q.limit <= 128) || !CursorFits(q)
  {
  }

  lemma ListableMeans(generations: seq<string>)
    ensures Listable(generations) <==> ValidGenerations(generations)
  {
  }

  // ---------- answers ----------

  /** The cursor stands right after the first `n` records of the stream. */
  predicate StandsAfter(held: seq<Record>, cursor: Token, n: nat) {
    0 < n <= |held| && held[n - 1] == cursor.anchor && forall i :: 0 <= i < n - 1 ==> held[i] != cursor.anchor
  }

  lemma {:induction false} IndexIsFirst(s: seq<Record>, r: Record)
    requires r in s
    ensures IndexOf(s, r) < |s| && s[IndexOf(s, r)] == r && forall i :: 0 <= i < IndexOf(s, r) ==> s[i] != r
  {
    if s[0] != r {
      IndexIsFirst(s[1..], r);
      assert forall i :: 0 < i < |s| ==> s[i] == s[1..][i - 1];
    }
  }

  /** The batch continues the stream after its first `n` records, and its cursor stands at its last record. */
  predicate Continues(held: seq<Record>, n: nat, q: Query, b: Batch) {
    && n <= |held|
    && b.records == (if |held| - n <= q.limit then held[n..] else held[n..n + q.limit])
    && b.cursor == (if b.records != [] then Some(Token(q.workspace, q.tenant, q.generations, b.records[|b.records| - 1])) else q.cursor)
  }

  /** A read that is not refused, in terms of what the files hold. */
  lemma ReadUnfold(k: Sink, q: Query, held: seq<Record>)
    requires ReadOf(k, q) != ReadDenied && held == Stream(Records(Retained(k.files)), q.tenant, Names(q.generations))
    ensures var anchor := Anchor(q); var batch := Take(Pending(held, anchor), q.limit); var last := LastOf(batch, anchor);
      if anchor.Some? && anchor.value !in held then ReadOf(k, q) == RetentionGap
      else
        && ReadOf(k, q).Read? && ReadOf(k, q).batch.records == batch
        && ReadOf(k, q).batch.cursor == if last.Some? then Some(Token(q.workspace, q.tenant, q.generations, last.value)) else None
  {
  }

  /** What is pending after the cursor, continued. */
  lemma PendingContinues(held: seq<Record>, q: Query, n: nat, b: Batch)
    requires n <= |held| && CursorFits(q) && Pending(held, Anchor(q)) == held[n..]
    requires b.records == Take(held[n..], q.limit)
    requires var last := LastOf(b.records, Anchor(q));
      b.cursor == if last.Some? then Some(Token(q.workspace, q.tenant, q.generations, last.value)) else None
    ensures Continues(held, n, q, b)
  {
    TakenFrom(held, n, q.limit);
    if b.records == [] && q.cursor.Some? {
      assert q.cursor.value == Token(q.workspace, q.tenant, q.generations, q.cursor.value.anchor);
    }
  }

  lemma CursorAfter(held: seq<Record>, q: Query) returns (n: nat)
    requires q.cursor.Some? && q.cursor.value.anchor in held
    ensures StandsAfter(held, q.cursor.value, n) && Pending(held, Anchor(q)) == held[n..]
  {
    IndexIsFirst(held, q.cursor.value.anchor);
    n := IndexOf(held, q.cursor.value.anchor) + 1;
  }

  /**
   A read that is not refused: without a cursor it hands out the oldest records held;
   with one, those after the record the cursor stands at, or it reports a retention gap
   if and only if that record is no longer held.
   */
  lemma AnswersExactly(k: Sink, q: Query)
    requires ReadOf(k, q) != ReadDenied
    ensures var held := Held(k, q);
      && (q.cursor.None? ==> ReadOf(k, q).Read? && Continues(held, 0, q, ReadOf(k, q).batch))
      && (q.cursor.Some? && q.cursor.value.anchor !in held ==> ReadOf(k, q) == RetentionGap)
      && (q.cursor.Some? && q.cursor.value.anchor in held ==>
            ReadOf(k, q).Read? && exists n: nat :: StandsAfter(held, q.cursor.value, n) && Continues(held, n, q, ReadOf(k, q).batch))
  {
    HeldIsStream(k, q);
    RefusedMeans(k, q);
    RefusedIsDenied(k, q);
    AnswersFrom(k, q, Held(k, q), ReadOf(k, q));
  }

  lemma AnswersFrom(k: Sink, q: Query, held: seq<Record>, r: ReadResult)
    requires r == ReadOf(k, q) && r != ReadDenied && CursorFits(q)
    requires held == Stream(Records(Retained(k.files)), q.tenant, Names(q.generations))
    ensures q.cursor.None? ==> r.Read? && Continues(held, 0, q, r.batch)
    ensures q.cursor.Some? && q.cursor.value.anchor !in held ==> r == RetentionGap
    ensures q.cursor.Some? && q.cursor.value.anchor in held ==>
      r.Read? && exists n: nat :: StandsAfter(held, q.cursor.value, n) && Continues(held, n, q, r.batch)
  {
    ReadUnfold(k, q, held);
    if q.cursor.None? {
      assert held[0..] == held;
      PendingContinues(held, q, 0, r.batch);
    } else if q.cursor.value.anchor in held {
      var n := CursorAfter(held, q);
      PendingContinues(held, q, n, r.batch);
    }
  }

  lemma TakenFrom(held: seq<Record>, n: nat, limit: nat)
    requires n <= |held|
    ensures Take(held[n..], limit) == if |held| - n <= limit then held[n..] else held[n..n + limit]
  {
  }

  // ---------- opening ----------

  /** A sink opens if and only if its name is not empty and new to the log, the file bound is between 1 KiB and 10 MiB, and the log is readable. */
  lemma OpensExactly(files: Files, workspace: string, host: string, maxBytes: nat)
    ensures CanOpen(files, workspace, host, maxBytes) <==>
      && host != "" && 1024 <= maxBytes <= 10_485_760 && Acceptable(files, workspace)
      && forall r :: r in RecordsOfLines(Retained(files)) ==> r.host != host
  {
    RecordsInOrder(Retained(files));
  }

  /** It starts with the files as they are, its own number for every tenant, and neither failed nor closed. */
  lemma OpensFresh(files: Files, workspace: string, host: string, maxBytes: nat)
    ensures var k := Fresh(files, workspace, host, maxBytes);
      && k.workspace == workspace && k.host == host && k.maxBytes == maxBytes && k.sequences == map[] && !k.failed && !k.closed
      && Retained(k.files) == Retained(files) && k.files[0].Some?
  {
    OpenedKeeps(files);
  }
}
