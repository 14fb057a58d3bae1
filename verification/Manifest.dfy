/**
 build_asset_manifest, _manifest_digest and resolve_managed_generation.

 A path is its UTF-8 bytes, whose order is that of its code points (PathOrder). SHA-256 is
 injective, so the content digest is modelled by the bytes fed to it.
 */
module Manifest {
  import opened Common
  import opened Sorting
  import opened CanonicalJson
  import opened CanonicalPrinting
  import opened CanonicalReader
  import opened CanonicalTheorems

  const MAX_BYTES: nat := 128 * 1024 * 1024
  const DIGEST_LENGTH: nat := 32

  datatype Entry = Entry(path: Text, size: nat, mode: nat, digest: Text)

  predicate ValidEntry(e: Entry) {
    0 !in e.path && |e.digest| == DIGEST_LENGTH
  }

  /** What the directory scan makes of one file. */
  datatype Found = Skipped | Unsafe | Selected(entry: Entry, required: bool)

  datatype AssetManifest = AssetManifest(entries: seq<Entry>, content: Text, files: nat, bytes: nat)

  predicate PathLess(a: Entry, b: Entry) {
    Less(a.path, b.path)
  }

  // ---------- _manifest_digest ----------

  function Frame(e: Entry): Text {
    e.path + ([0] + (Digits(e.mode) + ([0] + (Digits(e.size) + ([0] + e.digest)))))
  }

  function Frames(entries: seq<Entry>): Text {
    if entries == [] then [] else Frame(entries[0]) + Frames(entries[1..])
  }

  // ---------- build_asset_manifest ----------

  function EntriesOf(scan: seq<Found>): seq<Entry> {
    if scan == [] then []
    else
      var f := scan[|scan| - 1];
      EntriesOf(scan[..|scan| - 1]) + (if f.Selected? then [f.entry] else [])
  }

  function TotalSize(entries: seq<Entry>): nat {
    if entries == [] then 0 else TotalSize(entries[..|entries| - 1]) + entries[|entries| - 1].size
  }

  predicate AnyRequired(scan: seq<Found>) {
    exists i :: 0 <= i < |scan| && scan[i].Selected? && scan[i].required
  }

  function ManifestOf(scan: seq<Found>): Result<AssetManifest> {
    var entries := EntriesOf(scan);
    if Unsafe in scan || TotalSize(entries) > MAX_BYTES || !AnyRequired(scan) then Err
    else
      var ordered := Sort(entries, PathLess);
      Ok(AssetManifest(ordered, Frames(ordered), |ordered|, TotalSize(entries)))
  }

  lemma PrefixIsSmaller(scan: seq<Found>, i: nat)
    requires i <= |scan|
    ensures TotalSize(EntriesOf(scan[..i])) <= TotalSize(EntriesOf(scan))
    decreases |scan| - i
  {
    if i < |scan| {
      PrefixIsSmaller(scan, i + 1);
      OneMore(scan, i);
    } else {
      assert scan[..i] == scan;
    }
  }

  lemma OneMore(scan: seq<Found>, i: nat)
    requires i < |scan|
    ensures EntriesOf(scan[..i + 1]) == EntriesOf(scan[..i]) + if scan[i].Selected? then [scan[i].entry] else []
    ensures TotalSize(EntriesOf(scan[..i + 1])) == TotalSize(EntriesOf(scan[..i])) + if scan[i].Selected? then scan[i].entry.size else 0
  {
    assert scan[..i + 1][..i] == scan[..i];
    if scan[i].Selected? {
      var before := EntriesOf(scan[..i]);
      assert (before + [scan[i].entry])[..|before|] == before;
    } else {
      assert EntriesOf(scan[..i]) + [] == EntriesOf(scan[..i]);
    }
  }

  /** The loop over the files, then the sort and the digest. */
  method BuildAssetManifest(scan: seq<Found>) returns (r: Result<AssetManifest>)
    ensures r == ManifestOf(scan)
  {
    var entries: seq<Entry> := [];
    var required, bytes := false, 0;
    for i := 0 to |scan|
      invariant entries == EntriesOf(scan[..i]) && bytes == TotalSize(entries) && bytes <= MAX_BYTES
      invariant required == exists j :: 0 <= j < i && scan[j].Selected? && scan[j].required
      invariant Unsafe !in scan[..i]
    {
      OneMore(scan, i);
      match scan[i]
      case Unsafe =>
        return Err;
      case Skipped =>
      case Selected(entry, marks) =>
        bytes := bytes + entry.size;
        if bytes > MAX_BYTES {
          PrefixIsSmaller(scan, i + 1);
          return Err;
        }
        entries := entries + [entry];
        required := required || marks;
    }
    assert scan[..|scan|] == scan;
    if entries == [] || !required {
      NoneRequired(scan);
      return Err;
    }
    var ordered := Sort(entries, PathLess);
    r := Ok(AssetManifest(ordered, Frames(ordered), |ordered|, bytes));
  }

  lemma {:induction false} NoneRequired(scan: seq<Found>)
    ensures EntriesOf(scan) == [] ==> !AnyRequired(scan)
  {
    if scan != [] {
      NoneRequired(scan[..|scan| - 1]);
    }
  }

  // ---------- framing ----------

  lemma {:induction false} SamePath(p: Text, q: Text, x: Text, y: Text)
    requires 0 !in p && 0 !in q && p + ([0] + x) == q + ([0] + y)
    ensures p == q && x == y
  {
    PathHead(p, x);
    PathHead(q, y);
    if p == [] {
      SameHead(0, 0, x, y);
    } else {
      var a, b := p + ([0] + x), q + ([0] + y);
      assert a[1..] == p[1..] + ([0] + x) && b[1..] == q[1..] + ([0] + y);
      SamePath(p[1..], q[1..], x, y);
      SameParts(p, q);
    }
  }

  lemma PathHead(p: Text, x: Text)
    requires 0 !in p
    ensures if p == [] then p + ([0] + x) == [0] + x else (p + ([0] + x))[0] == p[0] && p[0] != 0
  {
  }

  /** A number, the zero byte after it, and the rest. */
  lemma SameCount(n: nat, m: nat, x: Text, y: Text)
    requires Digits(n) + ([0] + x) == Digits(m) + ([0] + y)
    ensures n == m && x == y
  {
    DigitsValue(n);
    DigitsValue(m);
    SameRun(Digits(n), Digits(m), [0] + x, [0] + y);
    SameHead(0, 0, x, y);
  }

  lemma FrameUnfold(e: Entry, x: Text)
    ensures Frame(e) + x == e.path + ([0] + (Digits(e.mode) + ([0] + (Digits(e.size) + ([0] + (e.digest + x))))))
  {
    var m, s := Digits(e.mode), Digits(e.size);
    Join([0], e.digest, x);
    Join(s, [0] + e.digest, x);
    Join([0], s + ([0] + e.digest), x);
    Join(m, [0] + (s + ([0] + e.digest)), x);
    Join([0], m + ([0] + (s + ([0] + e.digest))), x);
    Join(e.path, [0] + (m + ([0] + (s + ([0] + e.digest)))), x);
  }

  lemma SameFrame(d: Entry, e: Entry, x: Text, y: Text)
    requires ValidEntry(d) && ValidEntry(e) && Frame(d) + x == Frame(e) + y
    ensures d == e && x == y
  {
    FrameUnfold(d, x);
    FrameUnfold(e, y);
    SamePath(d.path, e.path, Digits(d.mode) + ([0] + (Digits(d.size) + ([0] + (d.digest + x)))),
             Digits(e.mode) + ([0] + (Digits(e.size) + ([0] + (e.digest + y)))));
    SameCount(d.mode, e.mode, Digits(d.size) + ([0] + (d.digest + x)), Digits(e.size) + ([0] + (e.digest + y)));
    SameCount(d.size, e.size, d.digest + x, e.digest + y);
    assert (d.digest + x)[..DIGEST_LENGTH] == d.digest && (e.digest + y)[..DIGEST_LENGTH] == e.digest;
    assert (d.digest + x)[DIGEST_LENGTH..] == x && (e.digest + y)[DIGEST_LENGTH..] == y;
  }

  predicate ValidEntries(entries: seq<Entry>) {
    forall i :: 0 <= i < |entries| ==> ValidEntry(entries[i])
  }

  /** The bytes fed to the content digest determine the list of entries. */
  lemma {:induction false} FramesDetermineEntries(a: seq<Entry>, b: seq<Entry>)
    requires ValidEntries(a) && ValidEntries(b) && Frames(a) == Frames(b)
    ensures a == b
  {
    if a != [] && b != [] {
      SameFrame(a[0], b[0], Frames(a[1..]), Frames(b[1..]));
      FramesDetermineEntries(a[1..], b[1..]);
      assert a == [a[0]] + a[1..] && b == [b[0]] + b[1..];
    }
  }

  // ---------- the scan order ----------

  /** The files of one directory tree: safe names, and every path once. */
  ghost predicate Tree(scan: seq<Found>) {
    ValidEntries(EntriesOf(scan))
    && forall i, j :: 0 <= i < j < |EntriesOf(scan)| ==> EntriesOf(scan)[i].path != EntriesOf(scan)[j].path
  }

  lemma {:induction false} EntriesHas(scan: seq<Found>, e: Entry)
    ensures e in EntriesOf(scan) <==> exists required :: Selected(e, required) in scan
  {
    if scan != [] {
      var n := |scan| - 1;
      EntriesHas(scan[..n], e);
      assert scan == scan[..n] + [scan[n]];
      if scan[n].Selected? && scan[n].entry == e {
        assert Selected(e, scan[n].required) in scan;
      }
    }
  }

  lemma PathsOrdered(entries: seq<Entry>)
    requires forall i, j :: 0 <= i < j < |entries| ==> entries[i].path != entries[j].path
    ensures Orders(entries, PathLess)
  {
    forall a: Entry
      ensures !PathLess(a, a)
    {
      LessIrreflexive(a.path);
    }
    forall a: Entry, b: Entry, c: Entry | PathLess(a, b) && PathLess(b, c)
      ensures PathLess(a, c)
    {
      LessTransitive(a.path, b.path, c.path);
    }
    forall a, b | a in entries && b in entries && a != b
      ensures PathLess(a, b) || PathLess(b, a)
    {
      LessTotal(a.path, b.path);
    }
  }

  lemma {:induction false} TotalInsert(e: Entry, s: seq<Entry>)
    ensures TotalOf(Insert(e, s, PathLess)) == e.size + TotalOf(s)
  {
    if s != [] && !PathLess(e, s[0]) {
      TotalInsert(e, s[1..]);
      assert Insert(e, s, PathLess)[1..] == Insert(e, s[1..], PathLess);
    } else {
      assert ([e] + s)[1..] == s;
    }
  }

  function TotalOf(entries: seq<Entry>): nat {
    if entries == [] then 0 else entries[0].size + TotalOf(entries[1..])
  }

  lemma {:induction false} TotalsAgree(entries: seq<Entry>)
    ensures TotalSize(entries) == TotalOf(entries)
  {
    if |entries| > 1 {
      var n := |entries| - 1;
      TotalsAgree(entries[..n]);
      TotalsAgree(entries[1..]);
      TotalsAgree(entries[1..n]);
      assert entries[..n][1..] == entries[1..n] && entries[1..][..n - 1] == entries[1..n];
    }
  }

  lemma {:induction false} TotalSorted(entries: seq<Entry>)
    ensures TotalOf(Sort(entries, PathLess)) == TotalOf(entries)
  {
    if entries != [] {
      TotalInsert(entries[0], Sort(entries[1..], PathLess));
      TotalSorted(entries[1..]);
    }
  }

  /** The manifest, digest included, does not depend on the order in which a tree is scanned. */
  lemma ScanOrderIsIrrelevant(a: seq<Found>, b: seq<Found>)
    requires Tree(a) && Tree(b) && forall f :: f in a <==> f in b
    ensures ManifestOf(a) == ManifestOf(b)
  {
    var d, e := EntriesOf(a), EntriesOf(b);
    forall x
      ensures x in d <==> x in e
    {
      EntriesHas(a, x);
      EntriesHas(b, x);
    }
    PathsOrdered(d);
    SameSort(d, e, PathLess, d);
    TotalsAgree(d);
    TotalsAgree(e);
    TotalSorted(d);
    TotalSorted(e);
    SameRequired(a, b);
    SameRequired(b, a);
  }

  lemma SameRequired(a: seq<Found>, b: seq<Found>)
    requires forall f :: f in a ==> f in b
    ensures AnyRequired(a) ==> AnyRequired(b)
  {
    if i :| 0 <= i < |a| && a[i].Selected? && a[i].required {
      assert a[i] in b;
    }
  }

  // ---------- resolve_managed_generation ----------

  datatype Marker = Marker(active: bool, registration: nat, content: Text, files: nat, bytes: nat)

  /** Whether the generation is returned; `generation` is the manifest of its directory. */
  predicate Resolves(marker: Option<Marker>, registration: nat, source: AssetManifest, generation: Result<AssetManifest>) {
    && marker.Some? && marker.value.active
    && marker.value.registration == registration && marker.value.content == source.content
    && marker.value.files == source.files && marker.value.bytes == source.bytes
    && generation.Ok?
    && generation.value.content == marker.value.content
    && generation.value.files == marker.value.files && generation.value.bytes == marker.value.bytes
  }

  predicate Current(m: Option<Marker>, registration: nat, source: AssetManifest) {
    m == Some(Marker(true, registration, source.content, source.files, source.bytes))
  }

  /** A manifest lists exactly the selected files of its scan. */
  lemma ManifestLists(scan: seq<Found>)
    requires ManifestOf(scan).Ok?
    ensures forall e :: e in ManifestOf(scan).value.entries <==> e in EntriesOf(scan)
  {
    forall e
      ensures e in Sort(EntriesOf(scan), PathLess) <==> e in EntriesOf(scan)
    {
      SortHas(EntriesOf(scan), PathLess, e);
    }
  }

  lemma SortedValid(scan: seq<Found>)
    requires Tree(scan) && ManifestOf(scan).Ok?
    ensures ValidEntries(ManifestOf(scan).value.entries)
  {
    ManifestLists(scan);
    var entries := ManifestOf(scan).value.entries;
    forall i | 0 <= i < |entries|
      ensures ValidEntry(entries[i])
    {
      assert entries[i] in EntriesOf(scan);
    }
  }

  /**
   A generation is returned if and only if the marker is current and the generation
   holds exactly the paths, modes, sizes and file digests of the source.
   */
  lemma ResolvedExactly(marker: Option<Marker>, registration: nat, source: seq<Found>, generation: seq<Found>)
    requires Tree(source) && Tree(generation) && ManifestOf(source).Ok?
    ensures Resolves(marker, registration, ManifestOf(source).value, ManifestOf(generation))
      <==> Current(marker, registration, ManifestOf(source).value) && ManifestOf(generation).Ok?
           && forall e :: e in EntriesOf(source) <==> e in EntriesOf(generation)
  {
    var s := ManifestOf(source).value;
    if ManifestOf(generation).Ok? {
      var g := ManifestOf(generation).value;
      SortedValid(source);
      SortedValid(generation);
      PathsOrdered(EntriesOf(source));
      SameSort(EntriesOf(source), EntriesOf(generation), PathLess, EntriesOf(source));
      if g.content == s.content {
        FramesDetermineEntries(g.entries, s.entries);
      }
      SameTotals(EntriesOf(source), EntriesOf(generation));
    }
  }

  lemma SameTotals(d: seq<Entry>, e: seq<Entry>)
    ensures Sort(d, PathLess) == Sort(e, PathLess) ==> TotalSize(d) == TotalSize(e)
  {
    TotalsAgree(d);
    TotalsAgree(e);
    TotalSorted(d);
    TotalSorted(e);
  }

  // ---------- what is built ----------

  /** The bytes of the selected files, counted from the front. */
  function SelectedBytes(scan: seq<Found>): nat {
    if scan == [] then 0 else (if scan[0].Selected? then scan[0].entry.size else 0) + SelectedBytes(scan[1..])
  }

  function SelectedCount(scan: seq<Found>): nat {
    if scan == [] then 0 else (if scan[0].Selected? then 1 else 0) + SelectedCount(scan[1..])
  }

  lemma {:induction false} EntriesFromFront(scan: seq<Found>)
    requires scan != []
    ensures EntriesOf(scan) == (if scan[0].Selected? then [scan[0].entry] else []) + EntriesOf(scan[1..])
  {
    var n := |scan| - 1;
    var first := if scan[0].Selected? then [scan[0].entry] else [];
    var last := if scan[n].Selected? then [scan[n].entry] else [];
    if n > 0 {
      EntriesFromFront(scan[..n]);
      assert scan[..n][1..] == scan[1..][..n - 1] && scan[1..][n - 1] == scan[n] && scan[..n][0] == scan[0];
      assert (first + EntriesOf(scan[1..][..n - 1])) + last == first + (EntriesOf(scan[1..][..n - 1]) + last);
    } else {
      assert scan[..0] == [] && EntriesOf([]) == [] && scan[1..] == [];
      assert [] + last == last + [];
    }
  }

  lemma {:induction false} CountsAgree(scan: seq<Found>)
    ensures TotalOf(EntriesOf(scan)) == SelectedBytes(scan) && |EntriesOf(scan)| == SelectedCount(scan)
  {
    if scan != [] {
      EntriesFromFront(scan);
      CountsAgree(scan[1..]);
      if scan[0].Selected? {
        assert EntriesOf(scan)[1..] == EntriesOf(scan[1..]);
      } else {
        assert EntriesOf(scan) == EntriesOf(scan[1..]);
      }
    }
  }

  /** A tree is refused if and only if a file is unsafe, the selected files exceed 128 MiB, or none of them is required. */
  lemma RefusedExactly(scan: seq<Found>)
    ensures ManifestOf(scan).Err? <==>
      || (exists i :: 0 <= i < |scan| && scan[i].Unsafe?)
      || SelectedBytes(scan) > 134_217_728
      || (forall i :: 0 <= i < |scan| ==> !(scan[i].Selected? && scan[i].required))
  {
    TotalsAgree(EntriesOf(scan));
    CountsAgree(scan);
    assert Unsafe in scan <==> exists i :: 0 <= i < |scan| && scan[i].Unsafe?;
  }

  lemma BuiltFrom(scan: seq<Found>)
    requires ManifestOf(scan).Ok?
    ensures var m := ManifestOf(scan).value; var ordered := Sort(EntriesOf(scan), PathLess);
      m == AssetManifest(ordered, Frames(ordered), |ordered|, TotalSize(EntriesOf(scan)))
  {
  }

  lemma PathsAscend(entries: seq<Entry>)
    requires forall i, j :: 0 <= i < j < |entries| ==> entries[i].path != entries[j].path
    ensures var ordered := Sort(entries, PathLess);
      forall i, j :: 0 <= i < j < |ordered| ==> Less(ordered[i].path, ordered[j].path)
  {
    PathsOrdered(entries);
    SortSorted(entries, PathLess, entries);
    var ordered := Sort(entries, PathLess);
    forall i, j | 0 <= i < j < |ordered|
      ensures Less(ordered[i].path, ordered[j].path)
    {
      assert PathLess(ordered[i], ordered[j]);
    }
  }

  lemma Lists(scan: seq<Found>, e: Entry)
    ensures e in Sort(EntriesOf(scan), PathLess) <==> exists required :: Selected(e, required) in scan
  {
    SortHas(EntriesOf(scan), PathLess, e);
    EntriesHas(scan, e);
  }

  lemma CountsRight(scan: seq<Found>)
    ensures |Sort(EntriesOf(scan), PathLess)| == SelectedCount(scan) && TotalSize(EntriesOf(scan)) == SelectedBytes(scan)
  {
    TotalsAgree(EntriesOf(scan));
    CountsAgree(scan);
    SortLength(EntriesOf(scan), PathLess);
  }

  /** The manifest lists exactly the selected files, ascending by path, and counts them and their bytes. */
  lemma ListedExactly(scan: seq<Found>)
    requires Tree(scan) && ManifestOf(scan).Ok?
    ensures var m := ManifestOf(scan).value;
      && (forall e :: e in m.entries <==> exists required :: Selected(e, required) in scan)
      && (forall i, j :: 0 <= i < j < |m.entries| ==> Less(m.entries[i].path, m.entries[j].path))
      && m.files == |m.entries| == SelectedCount(scan) && m.bytes == SelectedBytes(scan) && m.content == Frames(m.entries)
  {
    BuiltFrom(scan);
    PathsAscend(EntriesOf(scan));
    CountsRight(scan);
    forall e
      ensures e in ManifestOf(scan).value.entries <==> exists required :: Selected(e, required) in scan
    {
      Lists(scan, e);
    }
  }

  // ---------- what the digest is fed ----------

  /** The bytes up to the next zero byte, and those after it. */
  function UpToZero(s: Text): Reading<Text> {
    if s == [] then Malformed
    else if s[0] == 0 then Read([], s[1..])
    else
      var more := UpToZero(s[1..]);
      if more.Malformed? then Malformed else Read([s[0]] + more.value, more.rest)
  }

  /** A decimal number, and the zero byte after it. */
  function CountUpToZero(s: Text): Reading<int> {
    var digits := ReadDigits(s);
    if digits.Malformed? || digits.rest == [] || digits.rest[0] != 0 then Malformed else Read(digits.value, digits.rest[1..])
  }

  lemma {:induction false} ReadsUpToZero(p: Text, x: Text)
    requires 0 !in p
    ensures UpToZero(p + ([0] + x)) == Read(p, x)
  {
    if p == [] {
      assert p + ([0] + x) == [0] + x && ([0] + x)[1..] == x;
    } else {
      assert (p + ([0] + x))[1..] == p[1..] + ([0] + x);
      ReadsUpToZero(p[1..], x);
      assert p == [p[0]] + p[1..];
    }
  }

  lemma ReadsCount(n: nat, x: Text)
    ensures CountUpToZero(Digits(n) + ([0] + x)) == Read(n, x)
  {
    ReadsDigits(n, [0] + x);
    assert ([0] + x)[1..] == x;
  }

  /**
   The digest is fed, entry by entry: the path up to a zero byte, the mode and then the
   size in decimal up to a zero byte each, and the 32 bytes of the file digest.
   */
  lemma FrameReads(e: Entry, x: Text)
    requires ValidEntry(e)
    ensures var path := UpToZero(Frame(e) + x);
      path.Read? && path.value == e.path
      && (var mode := CountUpToZero(path.rest);
          mode.Read? && mode.value == e.mode
          && (var size := CountUpToZero(mode.rest);
              size.Read? && size.value == e.size && size.rest == e.digest + x))
    ensures |e.digest| == 32
  {
    FrameUnfold(e, x);
    ReadsUpToZero(e.path, Digits(e.mode) + ([0] + (Digits(e.size) + ([0] + (e.digest + x)))));
    ReadsCount(e.mode, Digits(e.size) + ([0] + (e.digest + x)));
    ReadsCount(e.size, e.digest + x);
  }

  // ---------- paths as bytes ----------

  /** str.encode("utf-8") of one character. */
  function Utf8Of(c: CodePoint): Text {
    if c < 0x80 then [c]
    else if c < 0x800 then [0xC0 + c / 0x40, 0x80 + c % 0x40]
    else if c < 0x10000 then [0xE0 + c / 0x40 / 0x40, 0x80 + c / 0x40 % 0x40, 0x80 + c % 0x40]
    else [0xF0 + c / 0x40 / 0x40 / 0x40, 0x80 + c / 0x40 / 0x40 % 0x40, 0x80 + c / 0x40 % 0x40, 0x80 + c % 0x40]
  }

  function Utf8(t: Text): Text {
    if t == [] then [] else Utf8Of(t[0]) + Utf8(t[1..])
  }

  lemma LessAt(a: Text, b: Text, i: nat)
    requires i < |a| && i < |b| && a[..i] == b[..i] && a[i] < b[i]
    ensures Less(a, b)
  {
    assert a == a[..i] + a[i..] && b == b[..i] + b[i..];
    LessPrefix(a[..i], a[i..], b[i..]);
  }

  /** Two numbers compare like their quotients, or like their remainders if these are equal. */
  lemma Quotients(c: nat, d: nat)
    requires c < d
    ensures c / 0x40 < d / 0x40 || (c / 0x40 == d / 0x40 && c % 0x40 < d % 0x40)
  {
  }

  /** The first byte in which two different characters differ decides like the characters. */
  lemma FirstByte(c: CodePoint, d: CodePoint) returns (i: nat)
    requires c < d
    ensures i < |Utf8Of(c)| && i < |Utf8Of(d)| && Utf8Of(c)[..i] == Utf8Of(d)[..i] && Utf8Of(c)[i] < Utf8Of(d)[i]
  {
    Quotients(c, d);
    if |Utf8Of(c)| != |Utf8Of(d)| {
      i := 0;
    } else if c / 0x40 == d / 0x40 {
      i := |Utf8Of(c)| - 1;
    } else {
      Quotients(c / 0x40, d / 0x40);
      if c < 0x800 {
        i := 0;
      } else if c / 0x40 / 0x40 == d / 0x40 / 0x40 {
        i := |Utf8Of(c)| - 2;
      } else {
        Quotients(c / 0x40 / 0x40, d / 0x40 / 0x40);
        i := if c < 0x10000 || c / 0x40 / 0x40 / 0x40 != d / 0x40 / 0x40 / 0x40 then 0 else 1;
      }
    }
  }

  lemma LowerCharacter(c: CodePoint, d: CodePoint, x: Text, y: Text)
    requires c < d
    ensures Less(Utf8Of(c) + x, Utf8Of(d) + y)
  {
    var i := FirstByte(c, d);
    var a, b := Utf8Of(c) + x, Utf8Of(d) + y;
    assert a[..i] == Utf8Of(c)[..i] && b[..i] == Utf8Of(d)[..i];
    LessAt(a, b, i);
  }

  lemma NotBoth(a: Text, b: Text)
    ensures !(Less(a, b) && Less(b, a))
  {
    if Less(a, b) && Less(b, a) {
      LessTransitive(a, b, a);
      LessIrreflexive(a);
    }
  }

  /** Sorting paths as Python sorts strings, by code points, is sorting their UTF-8 bytes. */
  lemma {:induction false} PathOrder(a: Text, b: Text)
    ensures Less(Utf8(a), Utf8(b)) <==> Less(a, b)
  {
    if a != [] && b != [] {
      if a[0] < b[0] {
        LowerCharacter(a[0], b[0], Utf8(a[1..]), Utf8(b[1..]));
      } else if a[0] > b[0] {
        LowerCharacter(b[0], a[0], Utf8(b[1..]), Utf8(a[1..]));
        NotBoth(Utf8(a), Utf8(b));
      } else {
        LessPrefix(Utf8Of(a[0]), Utf8(a[1..]), Utf8(b[1..]));
        PathOrder(a[1..], b[1..]);
      }
    }
  }
}
