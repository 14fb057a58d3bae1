/** canonical_json is injective and blind to key order and to list versus tuple. */
module CanonicalTheorems {
  import opened Common
  import opened Sorting
  import opened CanonicalJson
  import opened CanonicalPrinting

  // ---------- the key order ----------

  lemma {:induction false} LessIrreflexive(a: seq<nat>)
    ensures !Less(a, a)
  {
    if a != [] {
      LessIrreflexive(a[1..]);
    }
  }

  lemma {:induction false} LessTransitive(a: seq<nat>, b: seq<nat>, c: seq<nat>)
    requires Less(a, b) && Less(b, c)
    ensures Less(a, c)
  {
    if a != [] && a[0] == b[0] && b[0] == c[0] {
      LessTransitive(a[1..], b[1..], c[1..]);
    }
  }

  lemma {:induction false} LessTotal(a: seq<nat>, b: seq<nat>)
    ensures a == b || Less(a, b) || Less(b, a)
  {
    if a != [] && b != [] && a[0] == b[0] {
      LessTotal(a[1..], b[1..]);
      assert a == [a[0]] + a[1..] && b == [b[0]] + b[1..];
    }
  }

  predicate AreUnits(units: seq<nat>) {
    forall i :: 0 <= i < |units| ==> units[i] < 0x10000
  }

  /**
   Comparing UTF-16BE bytes is comparing UTF-16 code units, the property order of
   section 3.2.3 of RFC 8785.
   */
  lemma {:induction false} ByteOrderIsUnitOrder(a: seq<nat>, b: seq<nat>)
    requires AreUnits(a) && AreUnits(b)
    ensures Less(BigEndian(a), BigEndian(b)) <==> Less(a, b)
  {
    if a != [] && b != [] {
      var x, y := BigEndian(a), BigEndian(b);
      assert x[0] == a[0] / 256 && x[1] == a[0] % 256 && x[1..][1..] == BigEndian(a[1..]);
      assert y[0] == b[0] / 256 && y[1] == b[0] % 256 && y[1..][1..] == BigEndian(b[1..]);
      ByteOrderIsUnitOrder(a[1..], b[1..]);
    }
  }

  lemma {:induction false} Utf16Units(t: Text)
    ensures AreUnits(Utf16(t))
  {
    if t != [] {
      Utf16Units(t[1..]);
    }
  }

  lemma KeyOrderIsUnitOrder(a: Text, b: Text)
    ensures KeyLess(a, b) <==> Less(Utf16(a), Utf16(b))
  {
    Utf16Units(a);
    Utf16Units(b);
    ByteOrderIsUnitOrder(Utf16(a), Utf16(b));
  }

  lemma SameUnits(c: CodePoint, d: CodePoint, x: seq<nat>, y: seq<nat>)
    requires Units(c) + x == Units(d) + y && !(0xD800 <= c <= 0xDFFF) && !(0xD800 <= d <= 0xDFFF)
    ensures c == d && x == y
  {
    var s := Units(c) + x;
    assert s[0] == Units(c)[0] && s[0] == Units(d)[0];
    assert |Units(c)| == |Units(d)|;
    if |Units(c)| == 2 {
      assert s[1] == Units(c)[1] && s[1] == Units(d)[1];
    }
    assert c == d;
    assert s[|Units(c)|..] == x && s[|Units(d)|..] == y;
  }

  /** Valid text is determined by its UTF-16 code units. */
  lemma {:induction false} Utf16Injective(a: Text, b: Text)
    requires ValidText(a) && ValidText(b) && Utf16(a) == Utf16(b)
    ensures a == b
  {
    if a != [] && b != [] {
      SameUnits(a[0], b[0], Utf16(a[1..]), Utf16(b[1..]));
      Utf16Injective(a[1..], b[1..]);
      assert a == [a[0]] + a[1..] && b == [b[0]] + b[1..];
    }
  }

  lemma KeysTotal(a: Text, b: Text)
    requires ValidText(a) && ValidText(b)
    ensures a == b || KeyLess(a, b) || KeyLess(b, a)
  {
    KeyOrderIsUnitOrder(a, b);
    KeyOrderIsUnitOrder(b, a);
    LessTotal(Utf16(a), Utf16(b));
    if Utf16(a) == Utf16(b) {
      Utf16Injective(a, b);
    }
  }

  lemma KeysTransitive(a: Text, b: Text, c: Text)
    requires KeyLess(a, b) && KeyLess(b, c)
    ensures KeyLess(a, c)
  {
    LessTransitive(BigEndian(Utf16(a)), BigEndian(Utf16(b)), BigEndian(Utf16(c)));
  }

  lemma {:induction false} LessPrefix(p: seq<nat>, a: seq<nat>, b: seq<nat>)
    ensures Less(p + a, p + b) <==> Less(a, b)
  {
    if p == [] {
      assert p + a == a && p + b == b;
    } else {
      assert (p + a)[1..] == p[1..] + a && (p + b)[1..] == p[1..] + b;
      LessPrefix(p[1..], a, b);
    }
  }

  lemma {:induction false} Utf16Concat(a: Text, b: Text)
    ensures Utf16(a + b) == Utf16(a) + Utf16(b)
  {
    if a == [] {
      assert a + b == b;
    } else {
      assert (a + b)[1..] == a[1..] + b;
      Utf16Concat(a[1..], b);
    }
  }

  /** One character above the surrogates inside the first 65536, the other beyond them. */
  predicate Crosses(c: CodePoint, d: CodePoint) {
    (0xE000 <= c <= 0xFFFF && d >= 0x10000) || (0xE000 <= d <= 0xFFFF && c >= 0x10000)
  }

  /**
   This is Python's own order of str, which compares code points, for two texts that
   first differ in `c` and `d` if and only if these do not lie on both sides of the
   end of the first 65536 characters.
   */
  lemma CodePointOrderExactly(p: Text, c: CodePoint, d: CodePoint, x: Text, y: Text)
    requires c != d && ValidText([c]) && ValidText([d])
    ensures (KeyLess(p + ([c] + x), p + ([d] + y)) <==> Less(p + ([c] + x), p + ([d] + y))) <==> !Crosses(c, d)
  {
    KeyOrderIsUnitOrder(p + ([c] + x), p + ([d] + y));
    Utf16Concat(p, [c] + x);
    Utf16Concat(p, [d] + y);
    LessPrefix(Utf16(p), Utf16([c] + x), Utf16([d] + y));
    LessPrefix(p, [c] + x, [d] + y);
    assert ([c] + x)[1..] == x && ([d] + y)[1..] == y;
    FirstUnits(c, d, Utf16(x), Utf16(y));
  }

  lemma FirstUnits(c: CodePoint, d: CodePoint, x: seq<nat>, y: seq<nat>)
    requires c != d && ValidText([c]) && ValidText([d])
    ensures Less(Units(c) + x, Units(d) + y) <==> if Crosses(c, d) then c > d else c < d
  {
    var a, b := Units(c) + x, Units(d) + y;
    assert ValidText([c]) ==> [c][0] == c;
    assert ValidText([d]) ==> [d][0] == d;
    assert a[0] == Units(c)[0] && b[0] == Units(d)[0];
    if a[0] == b[0] {
      assert |Units(c)| == 2 && |Units(d)| == 2;
      assert a[1..][0] == Units(c)[1] && b[1..][0] == Units(d)[1];
    }
  }

  // ---------- sorting ----------

  predicate ValidFields(fields: seq<Field>) {
    && (forall i :: 0 <= i < |fields| ==> ValidText(fields[i].key))
    && (forall i, j :: 0 <= i < j < |fields| ==> fields[i].key != fields[j].key)
  }

  lemma FieldsOrdered(fields: seq<Field>)
    requires ValidFields(fields)
    ensures Orders(fields, FieldLess)
  {
    forall f
      ensures !FieldLess(f, f)
    {
      LessIrreflexive(BigEndian(Utf16(f.key)));
    }
    forall f, g, h | FieldLess(f, g) && FieldLess(g, h)
      ensures FieldLess(f, h)
    {
      KeysTransitive(f.key, g.key, h.key);
    }
    forall f, g | f in fields && g in fields && f != g
      ensures FieldLess(f, g) || FieldLess(g, f)
    {
      KeysTotal(f.key, g.key);
    }
  }

  /** The sorted fields of two objects agree exactly when the objects have the same fields. */
  lemma SameFieldOrder(a: seq<Field>, b: seq<Field>)
    requires ValidFields(a) && ValidFields(b)
    ensures Sort(a, FieldLess) == Sort(b, FieldLess) <==> forall x :: x in a <==> x in b
  {
    FieldsOrdered(a);
    SameSort(a, b, FieldLess, a);
  }

  // ---------- equal text ----------

  lemma {:induction false} ItemsAt(items: seq<Value>)
    requires CanonicalItems(items).Some?
    ensures |CanonicalItems(items).value| == |items|
    ensures forall i :: 0 <= i < |items| ==> Canonical(items[i]) == Some(CanonicalItems(items).value[i])
  {
    if items != [] {
      ItemsAt(items[1..]);
      assert forall i :: 1 <= i < |items| ==> items[i] == items[1..][i - 1];
    }
  }

  lemma {:induction false} FieldsAt(entries: seq<Entry>)
    requires CanonicalFields(entries).Some?
    ensures |CanonicalFields(entries).value| == |entries|
    ensures forall i :: 0 <= i < |entries| ==>
      var f := CanonicalFields(entries).value[i];
      && GoodKey(entries[i].key) && f.key == entries[i].key.text && Canonical(entries[i].value) == Some(f.value)
  {
    if entries != [] {
      FieldsAt(entries[1..]);
      assert forall i :: 1 <= i < |entries| ==> entries[i] == entries[1..][i - 1];
    }
  }

  lemma FieldsValid(entries: seq<Entry>)
    requires CanonicalFields(entries).Some? && DistinctKeys(entries)
    ensures ValidFields(CanonicalFields(entries).value)
  {
    FieldsAt(entries);
    var fields := CanonicalFields(entries).value;
    forall i, j | 0 <= i < j < |fields|
      ensures fields[i].key != fields[j].key
    {
      assert entries[i].key != entries[j].key;
    }
  }

  /** Canonicalization identifies exactly the values that are the same up to key order and list or tuple. */
  lemma {:induction false} CanonicalSame(v: Value, w: Value)
    requires IsPython(v) && IsPython(w) && Canonical(v).Some? && Canonical(w).Some?
    ensures Canonical(v) == Canonical(w) <==> Same(v, w)
    decreases v, 1
  {
    match v
    case List(items) => SameArrays(v, w);
    case Tuple(items) => SameArrays(v, w);
    case Dict(entries) => if w.Dict? { SameDicts(v, w); }
    case _ =>
  }

  lemma {:induction false} SameArrays(v: Value, w: Value)
    requires v.List? || v.Tuple?
    requires IsPython(v) && IsPython(w) && Canonical(v).Some? && Canonical(w).Some?
    ensures Canonical(v) == Canonical(w) <==> Same(v, w)
    decreases v, 0
  {
    if w.List? || w.Tuple? {
      ItemsAt(v.items);
      ItemsAt(w.items);
      var a, b := CanonicalItems(v.items).value, CanonicalItems(w.items).value;
      if |v.items| == |w.items| {
        forall i | 0 <= i < |v.items|
          ensures a[i] == b[i] <==> Same(v.items[i], w.items[i])
        {
          CanonicalSame(v.items[i], w.items[i]);
        }
        SameSeq(a, b);
      }
    }
  }

  lemma SameSeq(a: seq<Json>, b: seq<Json>)
    requires |a| == |b|
    ensures a == b <==> forall i :: 0 <= i < |a| ==> a[i] == b[i]
  {
  }

  lemma {:induction false} SameDicts(v: Value, w: Value)
    requires v.Dict? && w.Dict?
    requires IsPython(v) && IsPython(w) && Canonical(v).Some? && Canonical(w).Some?
    ensures Canonical(v) == Canonical(w) <==> Same(v, w)
    decreases v, 0
  {
    var f, g := CanonicalFields(v.entries).value, CanonicalFields(w.entries).value;
    FieldsAt(v.entries);
    FieldsAt(w.entries);
    FieldsValid(v.entries);
    FieldsValid(w.entries);
    SameFieldOrder(f, g);
    forall i, j | 0 <= i < |f| && 0 <= j < |g|
      ensures f[i] == g[j] <==> SameEntry(v.entries[i], w.entries[j])
    {
      var e := v.entries[i];
      assert e.value < e;
      CanonicalSame(e.value, w.entries[j].value);
    }
    SameFields(v.entries, w.entries, f, g);
  }

  ghost predicate Pairwise(d: seq<Entry>, e: seq<Entry>, f: seq<Field>, g: seq<Field>) {
    && |f| == |d| && |g| == |e|
    && (forall i, j :: 0 <= i < |f| && 0 <= j < |g| ==> (f[i] == g[j] <==> SameEntry(d[i], e[j])))
  }

  lemma EntryHas(d: seq<Entry>, e: seq<Entry>, f: seq<Field>, g: seq<Field>, i: nat)
    requires Pairwise(d, e, f, g) && i < |d|
    ensures f[i] in g <==> LeftMatch(d[i], e)
  {
    if f[i] in g {
      var j :| 0 <= j < |g| && g[j] == f[i];
      assert SameEntry(d[i], e[j]);
    }
    if j :| 0 <= j < |e| && SameEntry(d[i], e[j]) {
      assert g[j] == f[i];
    }
  }

  lemma HasEntry(d: seq<Entry>, e: seq<Entry>, f: seq<Field>, g: seq<Field>, j: nat)
    requires Pairwise(d, e, f, g) && j < |e|
    ensures g[j] in f <==> RightMatch(d, e[j])
  {
    if g[j] in f {
      var i :| 0 <= i < |f| && f[i] == g[j];
      assert SameEntry(d[i], e[j]);
    }
    if i :| 0 <= i < |d| && SameEntry(d[i], e[j]) {
      assert f[i] == g[j];
    }
  }

  lemma SameFields(d: seq<Entry>, e: seq<Entry>, f: seq<Field>, g: seq<Field>)
    requires Pairwise(d, e, f, g)
    ensures (forall x :: x in f <==> x in g) <==> Same(Dict(d), Dict(e))
  {
    forall i: nat | i < |d|
      ensures f[i] in g <==> LeftMatch(d[i], e)
    {
      EntryHas(d, e, f, g, i);
    }
    forall j: nat | j < |e|
      ensures g[j] in f <==> RightMatch(d, e[j])
    {
      HasEntry(d, e, f, g, j);
    }
    SameMembers(f, g);
  }

  lemma SameMembers(f: seq<Field>, g: seq<Field>)
    ensures (forall x :: x in f <==> x in g) <==>
      (forall i :: 0 <= i < |f| ==> f[i] in g) && (forall j :: 0 <= j < |g| ==> g[j] in f)
  {
  }

  /**
   Two accepted values print the same text if and only if they are equal up to the
   order of object keys and the choice between list and tuple.
   */
  lemma SameTextExactly(v: Value, w: Value)
    requires IsPython(v) && IsPython(w) && CanonicalText(v).Some? && CanonicalText(w).Some?
    ensures CanonicalText(v) == CanonicalText(w) <==> Same(v, w)
  {
    CanonicalSame(v, w);
    if CanonicalText(v) == CanonicalText(w) {
      PrintInjective(Canonical(v).value, Canonical(w).value);
    }
  }

  /** A value of the closed subset: no floats, no foreign types, safe integers, valid Unicode, text keys. */
  ghost predicate Closed(v: Value) {
    match v
    case Null => true
    case Bool(_) => true
    case Int(n) => -MAX_SAFE_INTEGER <= n <= MAX_SAFE_INTEGER
    case Str(t) => ValidText(t)
    case List(items) => forall i :: 0 <= i < |items| ==> Closed(items[i])
    case Tuple(items) => forall i :: 0 <= i < |items| ==> Closed(items[i])
    case Dict(entries) => forall i :: 0 <= i < |entries| ==> GoodKey(entries[i].key) && Closed(entries[i].value)
    case _ => false
  }

  /** canonical_json accepts exactly the closed subset, at every depth. */
  lemma {:induction false} AcceptedExactly(v: Value)
    ensures CanonicalText(v).Some? <==> Closed(v)
    decreases v
  {
    match v
    case List(items) => AcceptedItems(items);
    case Tuple(items) => AcceptedItems(items);
    case Dict(entries) => AcceptedEntries(entries);
    case _ =>
  }

  lemma {:induction false} AcceptedItems(items: seq<Value>)
    ensures CanonicalItems(items).Some? <==> forall i :: 0 <= i < |items| ==> Closed(items[i])
    decreases items
  {
    if items != [] {
      AcceptedExactly(items[0]);
      AcceptedItems(items[1..]);
      assert forall i :: 1 <= i < |items| ==> items[i] == items[1..][i - 1];
    }
  }

  lemma {:induction false} AcceptedEntries(entries: seq<Entry>)
    ensures CanonicalFields(entries).Some? <==>
      forall i :: 0 <= i < |entries| ==> GoodKey(entries[i].key) && Closed(entries[i].value)
    decreases entries
  {
    if entries != [] {
      var e := entries[0];
      assert e.value < e;
      AcceptedExactly(e.value);
      AcceptedEntries(entries[1..]);
      assert forall i :: 1 <= i < |entries| ==> entries[i] == entries[1..][i - 1];
    }
  }
}
