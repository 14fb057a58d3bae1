/** canonical_json: the closed JSON subset shared by both ends of browser control. */
module CanonicalJson {
  import opened Common
  import opened Sorting

  type CodePoint = c: int | 0 <= c <= 0x10FFFF

  /** A Python str: code points, lone surrogates included. */
  type Text = seq<CodePoint>

  const MAX_SAFE_INTEGER: int := 9_007_199_254_740_991

  datatype Key = TextKey(text: Text) | OtherKey(id: nat)

  datatype Entry = Entry(key: Key, value: Value)

  /** A Python value; `Other` stands for every type the protocol does not know. */
  datatype Value =
    | Null
    | Bool(truth: bool)
    | Int(number: int)
    | Float
    | Str(text: Text)
    | List(items: seq<Value>)
    | Tuple(items: seq<Value>)
    | Dict(entries: seq<Entry>)
    | Other

  datatype Field = Field(key: Text, value: Json)

  /** What json.dumps gets to see: sorted objects of valid text and safe integers. */
  datatype Json =
    | JNull
    | JBool(truth: bool)
    | JInt(number: int)
    | JStr(text: Text)
    | JArray(items: seq<Json>)
    | JObject(fields: seq<Field>)

  predicate DistinctKeys(entries: seq<Entry>) {
    forall i, j :: 0 <= i < j < |entries| ==> entries[i].key != entries[j].key
  }

  /** Every dict of the value has each key once. */
  predicate IsPython(v: Value) {
    match v
    case List(items) => forall i :: 0 <= i < |items| ==> IsPython(items[i])
    case Tuple(items) => forall i :: 0 <= i < |items| ==> IsPython(items[i])
    case Dict(entries) => DistinctKeys(entries) && forall i :: 0 <= i < |entries| ==> IsPython(entries[i].value)
    case _ => true
  }

  // ---------- the order of object keys ----------

  predicate ValidText(t: Text) {
    forall i :: 0 <= i < |t| ==> !(0xD800 <= t[i] <= 0xDFFF)
  }

  function Units(c: CodePoint): seq<nat> {
    if c < 0x10000 then [c] else [0xD800 + (c - 0x10000) / 0x400, 0xDC00 + (c - 0x10000) % 0x400]
  }

  function Utf16(t: Text): seq<nat> {
    if t == [] then [] else Units(t[0]) + Utf16(t[1..])
  }

  function BigEndian(units: seq<nat>): seq<nat> {
    if units == [] then [] else [units[0] / 256, units[0] % 256] + BigEndian(units[1..])
  }

  predicate Less(a: seq<nat>, b: seq<nat>) {
    b != [] && (a == [] || a[0] < b[0] || (a[0] == b[0] && Less(a[1..], b[1..])))
  }

  /** keys.sort compares the bytes of the UTF-16BE encoding. */
  predicate KeyLess(a: Text, b: Text) {
    Less(BigEndian(Utf16(a)), BigEndian(Utf16(b)))
  }

  predicate FieldLess(f: Field, g: Field) {
    KeyLess(f.key, g.key)
  }

  // ---------- _canonical_value ----------

  function Canonical(v: Value): Option<Json> {
    match v
    case Null => Some(JNull)
    case Bool(b) => Some(JBool(b))
    case Int(n) => if -MAX_SAFE_INTEGER <= n <= MAX_SAFE_INTEGER then Some(JInt(n)) else None
    case Float => None
    case Str(t) => if ValidText(t) then Some(JStr(t)) else None
    case List(items) =>
      var all := CanonicalItems(items);
      if all.Some? then Some(JArray(all.value)) else None
    case Tuple(items) =>
      var all := CanonicalItems(items);
      if all.Some? then Some(JArray(all.value)) else None
    case Dict(entries) =>
      var fields := CanonicalFields(entries);
      if fields.Some? then Some(JObject(Sort(fields.value, FieldLess))) else None
    case Other => None
  }

  function CanonicalItems(items: seq<Value>): Option<seq<Json>> {
    if items == [] then Some([])
    else
      var first, rest := Canonical(items[0]), CanonicalItems(items[1..]);
      if first.Some? && rest.Some? then Some([first.value] + rest.value) else None
  }

  predicate GoodKey(k: Key) {
    k.TextKey? && ValidText(k.text)
  }

  function CanonicalFields(entries: seq<Entry>): Option<seq<Field>> {
    if entries == [] then Some([])
    else
      var e := entries[0];
      assert e.value < e;
      var first, rest := Canonical(e.value), CanonicalFields(entries[1..]);
      if GoodKey(e.key) && first.Some? && rest.Some? then Some([Field(e.key.text, first.value)] + rest.value) else None
  }

  // ---------- json.dumps(ensure_ascii=False, separators=(",", ":")) ----------

  const QUOTE: CodePoint := 34
  const COMMA: CodePoint := 44
  const MINUS: CodePoint := 45
  const COLON: CodePoint := 58
  const OPEN_ARRAY: CodePoint := 91
  const BACKSLASH: CodePoint := 92
  const CLOSE_ARRAY: CodePoint := 93
  const OPEN_OBJECT: CodePoint := 123
  const CLOSE_OBJECT: CodePoint := 125

  function Digits(n: nat): Text {
    if n < 10 then [48 + n] else Digits(n / 10) + [48 + n % 10]
  }

  function Number(n: int): Text {
    if n < 0 then [MINUS] + Digits(-n) else Digits(n)
  }

  function Hex(d: nat): CodePoint
    requires d < 16
  {
    if d < 10 then 48 + d else 87 + d
  }

  function Escape(c: CodePoint): Text {
    if c == QUOTE then [BACKSLASH, QUOTE]
    else if c == BACKSLASH then [BACKSLASH, BACKSLASH]
    else if c == 10 then [BACKSLASH, 110]
    else if c == 13 then [BACKSLASH, 114]
    else if c == 9 then [BACKSLASH, 116]
    else if c == 12 then [BACKSLASH, 102]
    else if c == 8 then [BACKSLASH, 98]
    else if c < 32 then [BACKSLASH, 117, 48, 48, Hex(c / 16), Hex(c % 16)]
    else [c]
  }

  function Escaped(t: Text): Text {
    if t == [] then [] else Escape(t[0]) + Escaped(t[1..])
  }

  function Quoted(t: Text): Text {
    [QUOTE] + Escaped(t) + [QUOTE]
  }

  const NULL_TEXT: Text := [110, 117, 108, 108]
  const TRUE_TEXT: Text := [116, 114, 117, 101]
  const FALSE_TEXT: Text := [102, 97, 108, 115, 101]

  function Print(j: Json): Text {
    match j
    case JNull => NULL_TEXT
    case JBool(b) => if b then TRUE_TEXT else FALSE_TEXT
    case JInt(n) => Number(n)
    case JStr(t) => Quoted(t)
    case JArray(items) => [OPEN_ARRAY] + PrintItems(items) + [CLOSE_ARRAY]
    case JObject(fields) => [OPEN_OBJECT] + PrintFields(fields) + [CLOSE_OBJECT]
  }

  function PrintItems(items: seq<Json>): Text {
    if items == [] then []
    else Print(items[0]) + (if |items| == 1 then [] else [COMMA] + PrintItems(items[1..]))
  }

  function PrintFields(fields: seq<Field>): Text {
    if fields == [] then []
    else
      Quoted(fields[0].key) + [COLON] + Print(fields[0].value)
      + (if |fields| == 1 then [] else [COMMA] + PrintFields(fields[1..]))
  }

  /** canonical_json; None is its ValueError. */
  function CanonicalText(v: Value): Option<Text> {
    var j := Canonical(v);
    if j.Some? then Some(Print(j.value)) else None
  }

  // ---------- what the text should not depend on ----------

  /** Equal up to the order of object keys and the choice between list and tuple. */
  ghost predicate Same(v: Value, w: Value)
    decreases v
  {
    match v
    case List(items) => SameItems(items, w)
    case Tuple(items) => SameItems(items, w)
    case Dict(entries) =>
      && w.Dict?
      && (forall i :: 0 <= i < |entries| ==> LeftMatch(entries[i], w.entries))
      && (forall j :: 0 <= j < |w.entries| ==> RightMatch(entries, w.entries[j]))
    case _ => v == w
  }

  /** The entry has a counterpart among the entries of the other dict. */
  ghost predicate LeftMatch(d: Entry, others: seq<Entry>)
    decreases d, 1
  {
    exists j :: 0 <= j < |others| && SameEntry(d, others[j])
  }

  ghost predicate RightMatch(entries: seq<Entry>, e: Entry)
    decreases entries
  {
    exists i :: 0 <= i < |entries| && SameEntry(entries[i], e)
  }

  ghost predicate SameEntry(d: Entry, e: Entry)
    decreases d, 0
  {
    d.key == e.key && Same(d.value, e.value)
  }

  ghost predicate SameItems(items: seq<Value>, w: Value)
    decreases items
  {
    && (w.List? || w.Tuple?)
    && |items| == |w.items|
    && (forall i :: 0 <= i < |items| ==> Same(items[i], w.items[i]))
  }
}
