/** Laws of the retained stream that the sink, the reader and the replay rest on. */
module HostLogLaws {
  import opened Common
  import opened HostLog

  lemma {:induction false} RecordsConcat(a: seq<Line>, b: seq<Line>)
    ensures Records(a + b) == Records(a) + Records(b)
  {
    if b == [] {
      assert a + b == a;
    } else {
      RecordsConcat(a, b[..|b| - 1]);
      assert (a + b)[..|a + b| - 1] == a + b[..|b| - 1];
    }
  }

  lemma {:induction false} StreamConcat(a: seq<Record>, b: seq<Record>, tenant: string, generations: set<string>)
    ensures Stream(a + b, tenant, generations) == Stream(a, tenant, generations) + Stream(b, tenant, generations)
  {
    if b == [] {
      assert a + b == a;
    } else {
      StreamConcat(a, b[..|b| - 1], tenant, generations);
      assert (a + b)[..|a + b| - 1] == a + b[..|b| - 1];
    }
  }

  lemma StreamAppend(a: seq<Record>, r: Record, tenant: string, generations: set<string>)
    ensures Stream(a + [r], tenant, generations)
         == Stream(a, tenant, generations) + if r.tenant == tenant && r.host in generations then [r] else []
  {
    assert (a + [r])[..|a|] == a;
  }

  lemma {:induction false} StreamHas(records: seq<Record>, tenant: string, generations: set<string>, r: Record)
    ensures r in Stream(records, tenant, generations) <==> r in records && r.tenant == tenant && r.host in generations
  {
    if records != [] {
      var n := |records| - 1;
      StreamHas(records[..n], tenant, generations, r);
      assert records == records[..n] + [records[n]];
    }
  }

  // ---------- gap freedom ----------

  lemma CountedParts(a: seq<Record>, b: seq<Record>)
    requires Counted(a + b)
    ensures Counted(a) && Counted(b)
  {
    assert forall k :: 0 <= k < |a| ==> (a + b)[k] == a[k];
    assert forall k :: 0 <= k < |b| ==> (a + b)[|a| + k] == b[k];
  }

  lemma CountedAppend(a: seq<Record>, r: Record)
    requires Counted(a)
    ensures Counted(a + [r]) <==> a == [] || r.sequence == a[|a| - 1].sequence + 1
  {
    if a != [] {
      assert a[|a| - 1].sequence == a[0].sequence + |a| - 1;
      if Counted(a + [r]) {
        assert (a + [r])[|a|].sequence == (a + [r])[0].sequence + |a|;
      }
    }
  }

  lemma GapFreeParts(a: seq<Record>, b: seq<Record>)
    requires GapFree(a + b)
    ensures GapFree(a) && GapFree(b)
  {
    forall tenant, host
      ensures Counted(OfScope(a, tenant, host)) && Counted(OfScope(b, tenant, host))
    {
      StreamConcat(a, b, tenant, {host});
      assert Counted(OfScope(a + b, tenant, host));
      CountedParts(OfScope(a, tenant, host), OfScope(b, tenant, host));
    }
  }

  /** The last sequence number of a scope, which the reader keeps in a dictionary. */
  function Newest(records: seq<Record>, tenant: string, host: string): Option<nat> {
    var s := OfScope(records, tenant, host);
    if s == [] then None else Some(s[|s| - 1].sequence)
  }

  predicate Continues(records: seq<Record>, r: Record) {
    var newest := Newest(records, r.tenant, r.host);
    newest.None? || r.sequence == newest.value + 1
  }

  /** One more record leaves the log gap-free exactly when it continues its scope. */
  lemma GapFreeAppend(a: seq<Record>, r: Record)
    requires GapFree(a)
    ensures GapFree(a + [r]) <==> Continues(a, r)
  {
    forall tenant, host
      ensures Counted(OfScope(a + [r], tenant, host)) <==> (tenant == r.tenant && host == r.host ==> Continues(a, r))
    {
      StreamAppend(a, r, tenant, {host});
      assert Counted(OfScope(a, tenant, host));
      if tenant == r.tenant && host == r.host {
        CountedAppend(OfScope(a, tenant, host), r);
      } else {
        assert OfScope(a + [r], tenant, host) == OfScope(a, tenant, host);
      }
    }
    assert GapFree(a + [r]) ==> Counted(OfScope(a + [r], r.tenant, r.host));
  }

  lemma StreamAt(records: seq<Record>, tenant: string, generations: set<string>, k: nat)
    requires k < |Stream(records, tenant, generations)|
    ensures Stream(records, tenant, generations)[k].tenant == tenant
    ensures Stream(records, tenant, generations)[k].host in generations
    ensures Stream(records, tenant, generations)[k] in records
  {
    StreamHas(records, tenant, generations, Stream(records, tenant, generations)[k]);
  }

  ghost predicate Distinct(records: seq<Record>) {
    forall i, j :: 0 <= i < j < |records| ==> records[i] != records[j]
  }

  lemma NewestIsNewer(a: seq<Record>, r: Record)
    requires GapFree(a) && r in a
    ensures Newest(a, r.tenant, r.host).Some? && r.sequence <= Newest(a, r.tenant, r.host).value
  {
    var s := OfScope(a, r.tenant, r.host);
    StreamHas(a, r.tenant, {r.host}, r);
    assert Counted(s);
    var k :| 0 <= k < |s| && s[k] == r;
    assert s[k].sequence == s[0].sequence + k && s[|s| - 1].sequence == s[0].sequence + |s| - 1;
  }

  /** A gap-free log never holds a record twice. */
  lemma {:induction false} GapFreeDistinct(records: seq<Record>)
    requires GapFree(records)
    ensures Distinct(records)
  {
    if records != [] {
      var n := |records| - 1;
      var a, r := records[..n], records[n];
      assert records == a + [r];
      GapFreeParts(a, [r]);
      GapFreeDistinct(a);
      GapFreeAppend(a, r);
      if r in a {
        NewestIsNewer(a, r);
      }
      assert forall i, j :: 0 <= i < j < n ==> a[i] != a[j];
      assert forall i :: 0 <= i < n ==> a[i] == records[i];
    }
  }

  lemma {:induction false} StreamDistinct(records: seq<Record>, tenant: string, generations: set<string>)
    requires Distinct(records)
    ensures Distinct(Stream(records, tenant, generations))
  {
    if records != [] {
      var n := |records| - 1;
      StreamDistinct(records[..n], tenant, generations);
      StreamHas(records[..n], tenant, generations, records[n]);
    }
  }

  // ---------- rotation ----------

  /** What a rotation that reached index `stop` throws away. */
  function Dropped(f: Files, stop: nat): File {
    if stop < 4 && f[3].Some? then Contents(f[4]) else []
  }

  /**
   Wherever the renames stop, and whatever files are missing, a rotation only
   drops server.log.4, and only if another file takes its place.
   */
  lemma RotationDrops(f: Files, stop: nat)
    requires stop <= 4
    ensures Retained(f) == Dropped(f, stop) + Retained(RotatedTo(f, stop))
  {
    var g := RotatedTo(f, stop);
    var top := if f[3].Some? then f[3] else f[4];
    assert Contents(f[4]) + Contents(f[3]) == Dropped(f, 0) + Contents(top);
    if stop == 0 {
      Shift(f, g, top, Contents(f[2]), Contents(f[1]), Contents(f[0]), []);
    } else if stop == 1 {
      Shift(f, g, top, Contents(f[2]), Contents(f[1]), [], Contents(f[0]));
    } else if stop == 2 {
      Shift(f, g, top, Contents(f[2]), [], Contents(f[1]), Contents(f[0]));
    } else if stop == 3 {
      Shift(f, g, top, [], Contents(f[2]), Contents(f[1]), Contents(f[0]));
    } else {
      assert g == f;
    }
  }

  /** A rotation moves whole files. */
  lemma RotationMoves(f: Files, stop: nat)
    requires stop <= 4
    ensures forall i :: 0 <= i < 5 ==> RotatedTo(f, stop)[i].None? || RotatedTo(f, stop)[i] in f
    ensures stop == 0 ==> RotatedTo(f, stop)[0].None?
  {
    assert forall i :: 0 <= i < 5 ==> f[i] in f;
  }

  lemma Shift(f: Files, g: Files, top: Option<File>, c3: File, c2: File, c1: File, c0: File)
    requires Contents(f[4]) + Contents(f[3]) == Dropped(f, 0) + Contents(top)
    requires Contents(f[2]) + Contents(f[1]) + Contents(f[0]) == c3 + c2 + c1 + c0
    requires g[4] == top && Contents(g[3]) == c3 && Contents(g[2]) == c2 && Contents(g[1]) == c1 && Contents(g[0]) == c0
    ensures Retained(f) == Dropped(f, 0) + Retained(g)
  {
    var low := c3 + c2 + c1 + c0;
    Regroup(Contents(f[4]), Contents(f[3]), Contents(f[2]), Contents(f[1]), Contents(f[0]));
    Group(Contents(top), c3, c2, c1, c0);
    assert Dropped(f, 0) + (Contents(top) + low) == (Dropped(f, 0) + Contents(top)) + low;
  }

  lemma Regroup(a: File, b: File, c: File, d: File, e: File)
    ensures a + b + c + d + e == (a + b) + (c + d + e)
  {
  }

  lemma Group(a: File, b: File, c: File, d: File, e: File)
    ensures a + b + c + d + e == a + (b + c + d + e)
  {
  }

  lemma OpenedKeeps(f: Files)
    ensures Retained(Opened(f)) == Retained(f)
    ensures forall i :: 0 <= i < 5 ==> Contents(Opened(f)[i]) == Contents(f[i])
  {
  }

  lemma AppendRetains(f: Files, line: Line)
    ensures Retained(Append(f, line)) == Retained(f) + [line]
    ensures Size(Contents(Append(f, line)[0])) == Size(Contents(f[0])) + line.size
  {
    var file := Contents(f[0]);
    assert (file + [line])[..|file|] == file;
  }

  // ---------- the gap flag ----------

  /** The first record of a generation decides whether the generation lost its beginning. */
  lemma BeheadedGrows(s: seq<Record>, r: Record)
    ensures Beheaded(s + [r]) <==> Beheaded(s) || (r.sequence > 1 && forall j :: 0 <= j < |s| ==> s[j].host != r.host)
  {
    var t := s + [r];
    assert t[|s|] == r && forall j :: 0 <= j < |s| ==> t[j] == s[j];
    if Beheaded(s) {
      var i :| 0 <= i < |s| && s[i].sequence > 1 && forall j :: 0 <= j < i ==> s[j].host != s[i].host;
      assert t[i].sequence > 1 && forall j :: 0 <= j < i ==> t[j].host != t[i].host;
    }
    if r.sequence > 1 && forall j :: 0 <= j < |s| ==> s[j].host != r.host {
      assert t[|s|].sequence > 1 && forall j :: 0 <= j < |s| ==> t[j].host != t[|s|].host;
    }
    if Beheaded(t) {
      var i :| 0 <= i < |t| && t[i].sequence > 1 && forall j :: 0 <= j < i ==> t[j].host != t[i].host;
      if i < |s| {
        assert s[i].sequence > 1 && forall j :: 0 <= j < i ==> s[j].host != s[i].host;
      } else {
        assert forall j :: 0 <= j < |s| ==> s[j].host == t[j].host;
      }
    }
  }
}
