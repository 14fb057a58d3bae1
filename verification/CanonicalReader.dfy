/**
 A reader of JSON text (RFC 8259, without white space, fractions and exponents), and
 that what is printed reads back as the value it was printed from.
 */
module CanonicalReader {
  import opened Common
  import opened Sorting
  import opened CanonicalJson
  import opened CanonicalPrinting
  import opened CanonicalTheorems

  datatype Reading<T> = Read(value: T, rest: Text) | Malformed

  // ---------- the reader ----------

  /** The text begins with this word. */
  predicate Spells(s: Text, word: string) {
    |word| <= |s| && forall i :: 0 <= i < |word| ==> s[i] as int == word[i] as int
  }

  function ReadWord(s: Text, word: string, value: Json): (r: Reading<Json>)
    requires word != ""
    ensures r.Read? ==> |r.rest| < |s|
  {
    if Spells(s, word) then Read(value, s[|word|..]) else Malformed
  }

  predicate At(s: Text, c: char) {
    s != [] && s[0] as int == c as int
  }

  predicate IsDigit(c: CodePoint) {
    '0' as int <= c as int <= '9' as int
  }

  /** The number of digits the text begins with. */
  function DigitRun(s: Text): (n: nat)
    ensures n <= |s|
  {
    if s == [] || !IsDigit(s[0]) then 0 else 1 + DigitRun(s[1..])
  }

  function Decimal(s: Text): int {
    if s == [] then 0 else 10 * Decimal(s[..|s| - 1]) + (s[|s| - 1] as int - '0' as int)
  }

  function ReadDigits(s: Text): (r: Reading<int>)
    ensures r.Read? ==> |r.rest| < |s|
  {
    var n := DigitRun(s);
    if n == 0 || (n > 1 && At(s, '0')) then Malformed else Read(Decimal(s[..n]), s[n..])
  }

  function ReadNumber(s: Text): (r: Reading<Json>)
    ensures r.Read? ==> |r.rest| < |s|
  {
    var digits := ReadDigits(if At(s, '-') then s[1..] else s);
    if digits.Malformed? then Malformed else Read(JInt(if At(s, '-') then -digits.value else digits.value), digits.rest)
  }

  function HexValue(c: CodePoint): (r: Option<nat>)
    ensures r.Some? ==> r.value < 16
  {
    var n := c as int;
    if '0' as int <= n <= '9' as int then Some(n - '0' as int)
    else if 'a' as int <= n <= 'f' as int then Some(n - 'a' as int + 10)
    else if 'A' as int <= n <= 'F' as int then Some(n - 'A' as int + 10)
    else None
  }

  /** The character after a backslash. */
  function ReadEscape(s: Text): (r: Reading<CodePoint>)
    ensures r.Read? ==> |r.rest| < |s|
  {
    if At(s, '"') then Read('"' as int, s[1..])
    else if At(s, '\\') then Read('\\' as int, s[1..])
    else if At(s, '/') then Read('/' as int, s[1..])
    else if At(s, 'b') then Read(8, s[1..])
    else if At(s, 'f') then Read(12, s[1..])
    else if At(s, 'n') then Read(10, s[1..])
    else if At(s, 'r') then Read(13, s[1..])
    else if At(s, 't') then Read(9, s[1..])
    else if At(s, 'u') && |s| >= 5 then
      var a, b, c, d := HexValue(s[1]), HexValue(s[2]), HexValue(s[3]), HexValue(s[4]);
      if a.Some? && b.Some? && c.Some? && d.Some?
      then Read(a.value * 0x1000 + b.value * 0x100 + c.value * 0x10 + d.value, s[5..]) else Malformed
    else Malformed
  }

  function ReadCharacter(s: Text): (r: Reading<CodePoint>)
    ensures r.Read? ==> |r.rest| < |s|
  {
    if s == [] || s[0] < 32 || At(s, '"') then Malformed
    else if At(s, '\\') then ReadEscape(s[1..])
    else Read(s[0], s[1..])
  }

  /** The rest of a string after its opening quote. */
  function ReadString(s: Text): (r: Reading<Text>)
    ensures r.Read? ==> |r.rest| < |s|
    decreases |s|
  {
    if At(s, '"') then Read([], s[1..])
    else
      var first := ReadCharacter(s);
      if first.Malformed? then Malformed
      else
        var more := ReadString(first.rest);
        if more.Malformed? then Malformed else Read([first.value] + more.value, more.rest)
  }

  function ReadValue(s: Text): (r: Reading<Json>)
    ensures r.Read? ==> |r.rest| < |s|
    decreases |s|, 0
  {
    if At(s, 'n') then ReadWord(s, "null", JNull)
    else if At(s, 't') then ReadWord(s, "true", JBool(true))
    else if At(s, 'f') then ReadWord(s, "false", JBool(false))
    else if At(s, '"') then
      var text := ReadString(s[1..]);
      if text.Malformed? then Malformed else Read(JStr(text.value), text.rest)
    else if At(s, '[') then
      if At(s[1..], ']') then Read(JArray([]), s[2..])
      else
        var items := ReadItems(s[1..]);
        if items.Malformed? then Malformed else Read(JArray(items.value), items.rest)
    else if At(s, '{') then
      if At(s[1..], '}') then Read(JObject([]), s[2..])
      else
        var members := ReadMembers(s[1..]);
        if members.Malformed? then Malformed else Read(JObject(members.value), members.rest)
    else ReadNumber(s)
  }

  function ReadItems(s: Text): (r: Reading<seq<Json>>)
    ensures r.Read? ==> |r.rest| < |s|
    decreases |s|, 1
  {
    var first := ReadValue(s);
    if first.Malformed? then Malformed
    else if At(first.rest, ']') then Read([first.value], first.rest[1..])
    else if At(first.rest, ',') then
      var more := ReadItems(first.rest[1..]);
      if more.Malformed? then Malformed else Read([first.value] + more.value, more.rest)
    else Malformed
  }

  function ReadMembers(s: Text): (r: Reading<seq<Field>>)
    ensures r.Read? ==> |r.rest| < |s|
    decreases |s|, 1
  {
    if !At(s, '"') then Malformed
    else
      var key := ReadString(s[1..]);
      if key.Malformed? || !At(key.rest, ':') then Malformed
      else
        var value := ReadValue(key.rest[1..]);
        if value.Malformed? then Malformed
        else if At(value.rest, '}') then Read([Field(key.value, value.value)], value.rest[1..])
        else if At(value.rest, ',') then
          var more := ReadMembers(value.rest[1..]);
          if more.Malformed? then Malformed else Read([Field(key.value, value.value)] + more.value, more.rest)
        else Malformed
  }

  /** A whole text. */
  function ReadText(s: Text): Option<Json> {
    var r := ReadValue(s);
    if r.Read? && r.rest == [] then Some(r.value) else None
  }

  // ---------- numbers ----------

  lemma {:induction false} RunOf(a: Text, x: Text)
    requires AllDigits(a) && Ends(x)
    ensures DigitRun(a + x) == |a|
  {
    if a == [] {
      assert a + x == x;
    } else {
      assert (a + x)[1..] == a[1..] + x;
      RunOf(a[1..], x);
    }
  }

  lemma {:induction false} DigitsLead(n: nat)
    ensures |Digits(n)| > 1 ==> Digits(n)[0] != 48
  {
    if n >= 10 {
      DigitsLead(n / 10);
      DigitsValue(n / 10);
    }
  }

  lemma {:induction false} SameDecimal(s: Text)
    ensures Decimal(s) == ValueOf(s)
  {
    if s != [] {
      SameDecimal(s[..|s| - 1]);
    }
  }

  lemma ReadsDigits(n: nat, x: Text)
    requires Ends(x)
    ensures ReadDigits(Digits(n) + x) == Read(n, x)
  {
    var s := Digits(n) + x;
    DigitsValue(n);
    DigitsLead(n);
    RunOf(Digits(n), x);
    SameDecimal(Digits(n));
    assert s[..|Digits(n)|] == Digits(n) && s[|Digits(n)|..] == x && s[0] == Digits(n)[0];
  }

  lemma ReadsNumber(n: int, x: Text)
    requires Ends(x)
    ensures ReadNumber(Number(n) + x) == Read(JInt(n), x)
    ensures Number(n) + x != [] && (At(Number(n) + x, '-') || IsDigit((Number(n) + x)[0]))
  {
    var s := Number(n) + x;
    NumberStarts(n, x);
    if n < 0 {
      Join([MINUS], Digits(-n), x);
      assert s[1..] == Digits(-n) + x;
      ReadsDigits(-n, x);
    } else {
      ReadsDigits(n, x);
    }
  }

  // ---------- strings ----------

  lemma ReadsCharacter(c: CodePoint, x: Text)
    ensures ReadCharacter(Escape(c) + x) == Read(c, x) && !At(Escape(c) + x, '"')
  {
    var s := Escape(c) + x;
    assert s[0] == Escape(c)[0] && s[|Escape(c)|..] == x;
    if |Escape(c)| == 2 {
      assert s[1..][0] == Escape(c)[1] && s[1..][1..] == x;
    } else if |Escape(c)| == 6 {
      ReadsUnicode(c, x);
    }
  }

  lemma ReadsUnicode(c: CodePoint, x: Text)
    requires |Escape(c)| == 6
    ensures ReadCharacter(Escape(c) + x) == Read(c, x)
  {
    var s := Escape(c) + x;
    var t := s[1..];
    assert s[0] == Escape(c)[0];
    assert t[0] == Escape(c)[1] && t[1] == Escape(c)[2] && t[2] == Escape(c)[3] && t[3] == Escape(c)[4] && t[4] == Escape(c)[5];
    assert t[5..] == x;
    assert HexValue(Hex(c / 16)) == Some(c / 16) && HexValue(Hex(c % 16)) == Some(c % 16);
    assert ReadCharacter(s) == ReadEscape(t);
  }

  lemma {:induction false} ReadsString(t: Text, x: Text)
    ensures ReadString(Escaped(t) + ([QUOTE] + x)) == Read(t, x)
  {
    EscapedUnfold(t, x);
    if t == [] {
      assert ([QUOTE] + x)[1..] == x;
    } else {
      var rest := Escaped(t[1..]) + ([QUOTE] + x);
      ReadsCharacter(t[0], rest);
      ReadsString(t[1..], x);
      assert t == [t[0]] + t[1..];
    }
  }

  lemma ReadsQuoted(t: Text, x: Text)
    ensures At(Quoted(t) + x, '"') && ReadString((Quoted(t) + x)[1..]) == Read(t, x)
  {
    QuotedUnfold(t, x);
    assert ([QUOTE] + (Escaped(t) + ([QUOTE] + x)))[1..] == Escaped(t) + ([QUOTE] + x);
    ReadsString(t, x);
  }

  /** No character has a shorter spelling than the printed one. */
  lemma EscapeIsShortest(c: CodePoint, e: Text, x: Text)
    requires ReadCharacter(e + x) == Read(c, x)
    ensures |Escape(c)| <= |e|
  {
    var s := e + x;
    assert |s| == |e| + |x|;
    if At(s, '\\') {
      assert |s[1..]| == |s| - 1;
    }
  }

  /** Code units decode to the character (section 2.7 of the Unicode standard's surrogate pairs, RFC 2781). */
  lemma UnitsDecode(c: CodePoint)
    ensures c < 0x10000 ==> Units(c) == [c]
    ensures c >= 0x10000 ==>
      && |Units(c)| == 2 && 0xD800 <= Units(c)[0] <= 0xDBFF && 0xDC00 <= Units(c)[1] <= 0xDFFF
      && 0x10000 + (Units(c)[0] - 0xD800) * 0x400 + (Units(c)[1] - 0xDC00) == c
  {
  }

  /** Two lists of units compare like their first difference; a proper prefix comes first. */
  lemma {:induction false} LessMeans(a: seq<nat>, b: seq<nat>)
    ensures Less(a, b) <==> exists i: nat :: i <= |a| && i < |b| && a[..i] == b[..i] && (i == |a| || a[i] < b[i])
  {
    if a != [] && b != [] && a[0] == b[0] {
      LessMeans(a[1..], b[1..]);
      if i: nat :| i <= |a[1..]| && i < |b[1..]| && a[1..][..i] == b[1..][..i] && (i == |a[1..]| || a[1..][i] < b[1..][i]) {
        assert a[..i + 1] == [a[0]] + a[1..][..i] && b[..i + 1] == [b[0]] + b[1..][..i];
      }
      if i: nat :| i <= |a| && i < |b| && a[..i] == b[..i] && (i == |a| || a[i] < b[i]) {
        assert i > 0;
        assert a[1..][..i - 1] == a[..i][1..] && b[1..][..i - 1] == b[..i][1..];
      }
    } else if b != [] {
      FirstDiffers(a, b);
    }
  }

  lemma FirstDiffers(a: seq<nat>, b: seq<nat>)
    requires b != [] && (a == [] || a[0] != b[0])
    ensures (exists i: nat :: i <= |a| && i < |b| && a[..i] == b[..i] && (i == |a| || a[i] < b[i])) <==> a == [] || a[0] < b[0]
  {
    assert a[..0] == b[..0];
    forall i: nat | 0 < i <= |a| && i < |b|
      ensures a[..i] != b[..i]
    {
      assert a[..i][0] == a[0] && b[..i][0] == b[0];
    }
  }

  // ---------- values ----------

  lemma ReadsWord(t: Text, word: string, value: Json, x: Text)
    requires word != "" && |t| == |word| && forall i :: 0 <= i < |word| ==> t[i] as int == word[i] as int
    ensures ReadWord(t + x, word, value) == Read(value, x)
  {
    assert (t + x)[|word|..] == x;
    assert forall i :: 0 <= i < |word| ==> (t + x)[i] == t[i];
  }

  lemma DelimiterEnds(x: Text)
    requires Delimiter(x)
    ensures Ends(x)
  {
  }

  lemma {:induction false} ReadsValue(j: Json, x: Text)
    requires Delimiter(x)
    ensures ReadValue(Print(j) + x) == Read(j, x)
    decreases j, 2
  {
    DelimiterEnds(x);
    match j
    case JNull => ReadsWord(NULL_TEXT, "null", JNull, x);
    case JBool(b) => if b { ReadsWord(TRUE_TEXT, "true", j, x); } else { ReadsWord(FALSE_TEXT, "false", j, x); }
    case JInt(n) => ReadsNumber(n, x);
    case JStr(t) => ReadsQuoted(t, x);
    case JArray(items) => ReadsArray(j, x);
    case JObject(fields) => ReadsObject(j, x);
  }

  lemma {:induction false} ReadsArray(j: Json, x: Text)
    requires j.JArray?
    ensures ReadValue(Print(j) + x) == Read(j, x)
    decreases j, 1
  {
    var inner := PrintItems(j.items) + ([CLOSE_ARRAY] + x);
    BracketUnfold(OPEN_ARRAY, PrintItems(j.items), CLOSE_ARRAY, x);
    assert ([OPEN_ARRAY] + inner)[1..] == inner;
    EmptyOrNot(j.items, x);
    if j.items == [] {
      ItemsUnfold(j.items, x);
      assert ([OPEN_ARRAY] + inner)[2..] == inner[1..] == x;
    } else {
      ReadsItems(j.items, x);
    }
  }

  lemma {:induction false} ReadsItems(items: seq<Json>, x: Text)
    requires items != []
    ensures ReadItems(PrintItems(items) + ([CLOSE_ARRAY] + x)) == Read(items, x)
    decreases items
  {
    ItemsUnfold(items, x);
    var rest := AfterItem(items, x);
    ReadsValue(items[0], rest);
    if |items| == 1 {
      assert rest[1..] == x && items == [items[0]];
    } else {
      assert rest[1..] == PrintItems(items[1..]) + ([CLOSE_ARRAY] + x);
      ReadsItems(items[1..], x);
      assert items == [items[0]] + items[1..];
    }
  }

  lemma {:induction false} ReadsObject(j: Json, x: Text)
    requires j.JObject?
    ensures ReadValue(Print(j) + x) == Read(j, x)
    decreases j, 1
  {
    var inner := PrintFields(j.fields) + ([CLOSE_OBJECT] + x);
    BracketUnfold(OPEN_OBJECT, PrintFields(j.fields), CLOSE_OBJECT, x);
    assert ([OPEN_OBJECT] + inner)[1..] == inner;
    NoFieldsOrSome(j.fields, x);
    if j.fields == [] {
      FieldsUnfold(j.fields, x);
      assert ([OPEN_OBJECT] + inner)[2..] == inner[1..] == x;
    } else {
      ReadsMembers(j.fields, x);
    }
  }

  /** One member, up to the comma or the brace after it. */
  lemma ReadsMember(f: Field, rest: Text, s: Text)
    requires s == Quoted(f.key) + ([COLON] + (Print(f.value) + rest)) && ReadValue(Print(f.value) + rest) == Read(f.value, rest)
    requires At(rest, '}') || At(rest, ',')
    ensures ReadMembers(s) ==
      if At(rest, '}') then Read([f], rest[1..])
      else
        var more := ReadMembers(rest[1..]);
        if more.Malformed? then Malformed else Read([f] + more.value, more.rest)
  {
    var after := [COLON] + (Print(f.value) + rest);
    ReadsQuoted(f.key, after);
    assert after[1..] == Print(f.value) + rest;
  }

  lemma {:induction false} ReadsMembers(fields: seq<Field>, x: Text)
    requires fields != []
    ensures ReadMembers(PrintFields(fields) + ([CLOSE_OBJECT] + x)) == Read(fields, x)
    decreases fields
  {
    FieldsUnfold(fields, x);
    var f, rest := fields[0], AfterField(fields, x);
    assert f.value < f;
    ReadsValue(f.value, rest);
    MemberRest(fields, x, rest);
    ReadsMember(f, rest, PrintFields(fields) + ([CLOSE_OBJECT] + x));
    if |fields| > 1 {
      ReadsMembers(fields[1..], x);
    } else {
      assert fields == [f];
    }
  }

  lemma MemberRest(fields: seq<Field>, x: Text, rest: Text)
    requires fields != [] && rest == AfterField(fields, x)
    ensures if |fields| == 1 then At(rest, '}') else At(rest, ',') && !At(rest, '}')
    ensures rest[1..] == if |fields| == 1 then x else PrintFields(fields[1..]) + ([CLOSE_OBJECT] + x)
    ensures fields == [fields[0]] + fields[1..]
  {
    if |fields| == 1 {
      assert ([CLOSE_OBJECT] + x)[1..] == x;
    } else {
      var more := PrintFields(fields[1..]) + ([CLOSE_OBJECT] + x);
      assert ([COMMA] + more)[1..] == more;
    }
  }

  // ---------- what the text denotes ----------

  /** In the order of UTF-16 code units every key stands before the ones after it. */
  ghost predicate Ascending(fields: seq<Field>) {
    forall i, j :: 0 <= i < j < |fields| ==> Less(Utf16(fields[i].key), Utf16(fields[j].key))
  }

  /** The JSON value is the Python value: arrays for lists and tuples, objects in key order for dicts. */
  ghost predicate Denotes(v: Value, j: Json)
    decreases v
  {
    match v
    case Null => j == JNull
    case Bool(b) => j == JBool(b)
    case Int(n) => j == JInt(n)
    case Str(t) => j == JStr(t)
    case List(items) => j.JArray? && |j.items| == |items| && forall i :: 0 <= i < |items| ==> Denotes(items[i], j.items[i])
    case Tuple(items) => j.JArray? && |j.items| == |items| && forall i :: 0 <= i < |items| ==> Denotes(items[i], j.items[i])
    case Dict(entries) =>
      && j.JObject? && |j.fields| == |entries| && Ascending(j.fields)
      && (forall i :: 0 <= i < |entries| ==> HasEntryOf(entries[i], j.fields))
    case _ => false
  }

  /** The entry's key stands there with the entry's own value. */
  ghost predicate HasEntryOf(e: Entry, fields: seq<Field>)
    decreases e
  {
    e.key.TextKey? && exists k :: 0 <= k < |fields| && fields[k].key == e.key.text && Denotes(e.value, fields[k].value)
  }

  lemma SortedFieldsAscend(fields: seq<Field>)
    requires ValidFields(fields)
    ensures Ascending(Sort(fields, FieldLess)) && |Sort(fields, FieldLess)| == |fields|
  {
    FieldsOrdered(fields);
    SortSorted(fields, FieldLess, fields);
    SortLength(fields, FieldLess);
    var sorted := Sort(fields, FieldLess);
    forall i, j | 0 <= i < j < |sorted|
      ensures Less(Utf16(sorted[i].key), Utf16(sorted[j].key))
    {
      assert FieldLess(sorted[i], sorted[j]);
      KeyOrderIsUnitOrder(sorted[i].key, sorted[j].key);
    }
  }

  lemma {:induction false} CanonicalDenotes(v: Value)
    requires IsPython(v) && Canonical(v).Some?
    ensures Denotes(v, Canonical(v).value)
    decreases v, 1
  {
    match v
    case List(items) => ItemsDenote(items);
    case Tuple(items) => ItemsDenote(items);
    case Dict(entries) => EntriesDenote(v);
    case _ =>
  }

  lemma {:induction false} ItemsDenote(items: seq<Value>)
    requires CanonicalItems(items).Some? && forall i :: 0 <= i < |items| ==> IsPython(items[i])
    ensures |CanonicalItems(items).value| == |items|
    ensures forall i :: 0 <= i < |items| ==> Denotes(items[i], CanonicalItems(items).value[i])
    decreases items
  {
    ItemsAt(items);
    forall i | 0 <= i < |items|
      ensures Denotes(items[i], CanonicalItems(items).value[i])
    {
      CanonicalDenotes(items[i]);
    }
  }

  lemma {:induction false} EntriesDenote(v: Value)
    requires v.Dict? && IsPython(v) && Canonical(v).Some?
    ensures Denotes(v, Canonical(v).value)
    decreases v, 0
  {
    var fields := CanonicalFields(v.entries).value;
    var sorted := Sort(fields, FieldLess);
    FieldsAt(v.entries);
    FieldsValid(v.entries);
    SortedFieldsAscend(fields);
    forall i | 0 <= i < |v.entries|
      ensures HasEntryOf(v.entries[i], sorted)
    {
      var e := v.entries[i];
      assert e.value < e;
      CanonicalDenotes(e.value);
      SortHas(fields, FieldLess, fields[i]);
      assert fields[i] in sorted;
      var k :| 0 <= k < |sorted| && sorted[k] == fields[i];
    }
  }

  /**
   The canonical text denotes the value: read as JSON it gives back the same truth
   values, integers and code points, the items in order, and each key with its own
   value, the keys ascending in UTF-16 code units and none twice.
   */
  lemma TextDenotes(v: Value)
    requires IsPython(v) && CanonicalText(v).Some?
    ensures ReadText(CanonicalText(v).value).Some? && Denotes(v, ReadText(CanonicalText(v).value).value)
  {
    CanonicalDenotes(v);
    var j := Canonical(v).value;
    ReadsValue(j, []);
    assert Print(j) + [] == Print(j);
  }
}
