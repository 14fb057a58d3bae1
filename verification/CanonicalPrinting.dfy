/** The printed text of a canonical value determines the value. */
module CanonicalPrinting {
  import opened Common
  import opened CanonicalJson

  /** What may follow a value inside a larger text. */
  predicate Delimiter(x: Text) {
    x == [] || x[0] == COMMA || x[0] == CLOSE_ARRAY || x[0] == CLOSE_OBJECT
  }

  lemma SameHead(c: CodePoint, d: CodePoint, x: Text, y: Text)
    requires [c] + x == [d] + y
    ensures c == d && x == y
  {
    assert ([c] + x)[0] == c && ([d] + y)[0] == d;
    assert ([c] + x)[1..] == x && ([d] + y)[1..] == y;
  }

  lemma SameParts<T>(a: seq<T>, b: seq<T>)
    requires a != [] && b != [] && a[0] == b[0] && a[1..] == b[1..]
    ensures a == b
  {
    assert a == [a[0]] + a[1..] && b == [b[0]] + b[1..];
  }

  lemma Join(a: Text, b: Text, c: Text)
    ensures (a + b) + c == a + (b + c)
  {
  }

  lemma NoPrefix(x: Text)
    ensures [] + x == x
  {
  }

  // ---------- numbers ----------

  predicate AllDigits(t: Text) {
    forall i :: 0 <= i < |t| ==> 48 <= t[i] <= 57
  }

  function ValueOf(t: Text): int {
    if t == [] then 0 else 10 * ValueOf(t[..|t| - 1]) + t[|t| - 1] as int - 48
  }

  lemma {:induction false} DigitsValue(n: nat)
    ensures AllDigits(Digits(n)) && Digits(n) != [] && ValueOf(Digits(n)) == n
  {
    if n < 10 {
      assert Digits(n)[..0] == [];
    } else {
      DigitsValue(n / 10);
      var front := Digits(n / 10);
      assert Digits(n)[..|front|] == front;
    }
  }

  predicate Ends(x: Text) {
    x == [] || !(48 <= x[0] <= 57)
  }

  /** Two runs of digits, each followed by something else, are the same run. */
  lemma {:induction false} SameRun(a: Text, b: Text, x: Text, y: Text)
    requires AllDigits(a) && AllDigits(b) && Ends(x) && Ends(y) && a + x == b + y
    ensures a == b && x == y
  {
    RunHead(a, x);
    RunHead(b, y);
    if a != [] && b != [] {
      assert (a + x)[0] == a[0] && (b + y)[0] == b[0];
      assert (a + x)[1..] == a[1..] + x && (b + y)[1..] == b[1..] + y;
      SameRun(a[1..], b[1..], x, y);
      SameParts(a, b);
    }
  }

  lemma RunHead(a: Text, x: Text)
    requires AllDigits(a) && Ends(x)
    ensures Ends(a + x) <==> a == []
    ensures a == [] ==> a + x == x
  {
  }

  lemma SameNumber(n: int, m: int, x: Text, y: Text)
    requires Number(n) + x == Number(m) + y && Ends(x) && Ends(y)
    ensures n == m && x == y
  {
    SameSign(n, m, x, y);
    var p, q := if n < 0 then -n else n, if m < 0 then -m else m;
    DigitsValue(p);
    DigitsValue(q);
    if n < 0 {
      Join([MINUS], Digits(p), x);
      Join([MINUS], Digits(q), y);
      SameHead(MINUS, MINUS, Digits(p) + x, Digits(q) + y);
    }
    SameRun(Digits(p), Digits(q), x, y);
  }

  lemma SameSign(n: int, m: int, x: Text, y: Text)
    requires Number(n) + x == Number(m) + y
    ensures n < 0 <==> m < 0
  {
    NumberStarts(n, x);
    NumberStarts(m, y);
  }

  lemma NumberStarts(n: int, x: Text)
    ensures Number(n) != [] && (Number(n) + x)[0] == Number(n)[0]
    ensures if n < 0 then Number(n)[0] == MINUS else 48 <= Number(n)[0] <= 57
  {
    DigitsValue(if n < 0 then -n else n);
  }

  // ---------- strings ----------

  /** No escape is a prefix of another, and none starts with a quote. */
  lemma SameEscape(c: CodePoint, d: CodePoint, x: Text, y: Text)
    requires Escape(c) + x == Escape(d) + y
    ensures c == d && x == y
  {
    var s := Escape(c) + x;
    assert s[0] == Escape(c)[0] && s[0] == Escape(d)[0];
    if s[0] == BACKSLASH {
      assert s[1] == Escape(c)[1] && s[1] == Escape(d)[1];
      if s[1] == 117 {
        assert s[4] == Escape(c)[4] && s[4] == Escape(d)[4];
        assert s[5] == Escape(c)[5] && s[5] == Escape(d)[5];
      }
    }
    assert c == d;
    assert x == s[|Escape(c)|..] && y == s[|Escape(d)|..];
  }

  lemma EscapeStarts(c: CodePoint, x: Text)
    ensures (Escape(c) + x)[0] != QUOTE
  {
  }

  lemma EscapedUnfold(s: Text, x: Text)
    ensures Escaped(s) + ([QUOTE] + x) == if s == [] then [QUOTE] + x else Escape(s[0]) + (Escaped(s[1..]) + ([QUOTE] + x))
  {
    if s == [] {
      NoPrefix([QUOTE] + x);
    } else {
      Join(Escape(s[0]), Escaped(s[1..]), [QUOTE] + x);
    }
  }

  lemma {:induction false} SameEscaped(s: Text, t: Text, x: Text, y: Text)
    requires Escaped(s) + ([QUOTE] + x) == Escaped(t) + ([QUOTE] + y)
    ensures s == t && x == y
  {
    EscapedUnfold(s, x);
    EscapedUnfold(t, y);
    if s == [] || t == [] {
      if s != [] {
        EscapeStarts(s[0], Escaped(s[1..]) + ([QUOTE] + x));
      }
      if t != [] {
        EscapeStarts(t[0], Escaped(t[1..]) + ([QUOTE] + y));
      }
      SameHead(QUOTE, QUOTE, x, y);
    } else {
      SameEscape(s[0], t[0], Escaped(s[1..]) + ([QUOTE] + x), Escaped(t[1..]) + ([QUOTE] + y));
      SameEscaped(s[1..], t[1..], x, y);
      SameParts(s, t);
    }
  }

  lemma QuotedUnfold(s: Text, x: Text)
    ensures Quoted(s) + x == [QUOTE] + (Escaped(s) + ([QUOTE] + x))
  {
    Join([QUOTE] + Escaped(s), [QUOTE], x);
    Join([QUOTE], Escaped(s), [QUOTE] + x);
  }

  lemma SameQuoted(s: Text, t: Text, x: Text, y: Text)
    requires Quoted(s) + x == Quoted(t) + y
    ensures s == t && x == y
  {
    QuotedUnfold(s, x);
    QuotedUnfold(t, y);
    SameHead(QUOTE, QUOTE, Escaped(s) + ([QUOTE] + x), Escaped(t) + ([QUOTE] + y));
    SameEscaped(s, t, x, y);
  }

  // ---------- values ----------

  /** The first character tells the kind of a value. */
  function Lead(j: Json): set<CodePoint> {
    match j
    case JNull => {110}
    case JBool(b) => if b then {116} else {102}
    case JInt(_) => {MINUS, 48, 49, 50, 51, 52, 53, 54, 55, 56, 57}
    case JStr(_) => {QUOTE}
    case JArray(_) => {OPEN_ARRAY}
    case JObject(_) => {OPEN_OBJECT}
  }

  lemma PrintLeads(j: Json, x: Text)
    ensures Print(j) != [] && (Print(j) + x)[0] == Print(j)[0] && Print(j)[0] in Lead(j)
  {
    if j.JInt? {
      NumberStarts(j.number, x);
    }
  }

  lemma SameKind(a: Json, b: Json, x: Text, y: Text)
    requires Print(a) + x == Print(b) + y
    ensures Lead(a) == Lead(b)
  {
    PrintLeads(a, x);
    PrintLeads(b, y);
  }

  lemma SameLength(a: Text, x: Text, y: Text)
    requires a + x == a + y
    ensures x == y
  {
    assert (a + x)[|a|..] == x && (a + y)[|a|..] == y;
  }

  /** A printed value followed by a delimiter can be read back in only one way. */
  lemma {:induction false} SameValue(a: Json, b: Json, x: Text, y: Text)
    requires Print(a) + x == Print(b) + y && Delimiter(x) && Delimiter(y)
    ensures a == b && x == y
    decreases a, 1
  {
    SameKind(a, b, x, y);
    match a
    case JNull => SameLength(NULL_TEXT, x, y);
    case JBool(t) => SameLength(Print(a), x, y);
    case JInt(n) => SameNumber(n, b.number, x, y);
    case JStr(t) => SameQuoted(t, b.text, x, y);
    case JArray(items) => SameArray(a, b, x, y);
    case JObject(fields) => SameObject(a, b, x, y);
  }

  lemma BracketUnfold(open: CodePoint, inner: Text, close: CodePoint, x: Text)
    ensures ([open] + inner + [close]) + x == [open] + (inner + ([close] + x))
  {
    Join([open] + inner, [close], x);
    Join([open], inner, [close] + x);
  }

  lemma {:induction false} SameArray(a: Json, b: Json, x: Text, y: Text)
    requires a.JArray? && b.JArray? && Print(a) + x == Print(b) + y
    ensures a == b && x == y
    decreases a, 0
  {
    BracketUnfold(OPEN_ARRAY, PrintItems(a.items), CLOSE_ARRAY, x);
    BracketUnfold(OPEN_ARRAY, PrintItems(b.items), CLOSE_ARRAY, y);
    SameHead(OPEN_ARRAY, OPEN_ARRAY, PrintItems(a.items) + ([CLOSE_ARRAY] + x), PrintItems(b.items) + ([CLOSE_ARRAY] + y));
    SameItemsText(a.items, b.items, x, y);
  }

  lemma {:induction false} SameObject(a: Json, b: Json, x: Text, y: Text)
    requires a.JObject? && b.JObject? && Print(a) + x == Print(b) + y
    ensures a == b && x == y
    decreases a, 0
  {
    BracketUnfold(OPEN_OBJECT, PrintFields(a.fields), CLOSE_OBJECT, x);
    BracketUnfold(OPEN_OBJECT, PrintFields(b.fields), CLOSE_OBJECT, y);
    SameHead(OPEN_OBJECT, OPEN_OBJECT, PrintFields(a.fields) + ([CLOSE_OBJECT] + x), PrintFields(b.fields) + ([CLOSE_OBJECT] + y));
    SameFieldsText(a.fields, b.fields, x, y);
  }

  /** What follows the first item of a non-empty array. */
  function AfterItem(items: seq<Json>, x: Text): Text
    requires items != []
  {
    if |items| == 1 then [CLOSE_ARRAY] + x else [COMMA] + (PrintItems(items[1..]) + ([CLOSE_ARRAY] + x))
  }

  lemma ItemsUnfold(items: seq<Json>, x: Text)
    ensures PrintItems(items) + ([CLOSE_ARRAY] + x)
         == if items == [] then [CLOSE_ARRAY] + x else Print(items[0]) + AfterItem(items, x)
    ensures items != [] ==> Delimiter(AfterItem(items, x))
  {
    if items == [] {
      NoPrefix([CLOSE_ARRAY] + x);
    } else if |items| == 1 {
      assert Print(items[0]) + [] == Print(items[0]);
    } else {
      Join(Print(items[0]), [COMMA] + PrintItems(items[1..]), [CLOSE_ARRAY] + x);
      Join([COMMA], PrintItems(items[1..]), [CLOSE_ARRAY] + x);
    }
  }

  lemma EmptyOrNot(items: seq<Json>, x: Text)
    ensures (PrintItems(items) + ([CLOSE_ARRAY] + x))[0] == CLOSE_ARRAY <==> items == []
  {
    ItemsUnfold(items, x);
    if items != [] {
      PrintLeads(items[0], AfterItem(items, x));
    }
  }

  lemma {:induction false} SameItemsText(a: seq<Json>, b: seq<Json>, x: Text, y: Text)
    requires PrintItems(a) + ([CLOSE_ARRAY] + x) == PrintItems(b) + ([CLOSE_ARRAY] + y)
    ensures a == b && x == y
    decreases a
  {
    EmptyOrNot(a, x);
    EmptyOrNot(b, y);
    ItemsUnfold(a, x);
    ItemsUnfold(b, y);
    if a == [] {
      SameHead(CLOSE_ARRAY, CLOSE_ARRAY, x, y);
    } else {
      SameValue(a[0], b[0], AfterItem(a, x), AfterItem(b, y));
      SameItemRest(a, b, x, y);
      if |a| > 1 {
        SameItemsText(a[1..], b[1..], x, y);
      }
      SameParts(a, b);
    }
  }

  lemma SameItemRest(a: seq<Json>, b: seq<Json>, x: Text, y: Text)
    requires a != [] && b != [] && AfterItem(a, x) == AfterItem(b, y)
    ensures |a| == 1 <==> |b| == 1
    ensures if |a| == 1 then x == y else PrintItems(a[1..]) + ([CLOSE_ARRAY] + x) == PrintItems(b[1..]) + ([CLOSE_ARRAY] + y)
  {
    assert AfterItem(a, x)[0] == COMMA <==> |a| > 1;
    assert AfterItem(b, y)[0] == COMMA <==> |b| > 1;
    if |a| == 1 {
      SameHead(CLOSE_ARRAY, CLOSE_ARRAY, x, y);
    } else {
      SameHead(COMMA, COMMA, PrintItems(a[1..]) + ([CLOSE_ARRAY] + x), PrintItems(b[1..]) + ([CLOSE_ARRAY] + y));
    }
  }

  /** What follows the first field of a non-empty object. */
  function AfterField(fields: seq<Field>, x: Text): Text
    requires fields != []
  {
    if |fields| == 1 then [CLOSE_OBJECT] + x else [COMMA] + (PrintFields(fields[1..]) + ([CLOSE_OBJECT] + x))
  }

  lemma FieldsUnfold(fields: seq<Field>, x: Text)
    ensures PrintFields(fields) + ([CLOSE_OBJECT] + x)
         == if fields == [] then [CLOSE_OBJECT] + x
            else Quoted(fields[0].key) + ([COLON] + (Print(fields[0].value) + AfterField(fields, x)))
    ensures fields != [] ==> Delimiter(AfterField(fields, x))
  {
    if fields == [] {
      NoPrefix([CLOSE_OBJECT] + x);
    } else {
      var key, value, tail := Quoted(fields[0].key), Print(fields[0].value), [CLOSE_OBJECT] + x;
      var rest := if |fields| == 1 then [] else [COMMA] + PrintFields(fields[1..]);
      Join(key + [COLON] + value, rest, tail);
      Join(key + [COLON], value, rest + tail);
      Join(key, [COLON], value + (rest + tail));
      if |fields| == 1 {
        NoPrefix(tail);
      } else {
        Join([COMMA], PrintFields(fields[1..]), tail);
      }
    }
  }

  lemma NoFieldsOrSome(fields: seq<Field>, x: Text)
    ensures (PrintFields(fields) + ([CLOSE_OBJECT] + x))[0] == CLOSE_OBJECT <==> fields == []
  {
    FieldsUnfold(fields, x);
  }

  lemma {:induction false} SameFieldsText(a: seq<Field>, b: seq<Field>, x: Text, y: Text)
    requires PrintFields(a) + ([CLOSE_OBJECT] + x) == PrintFields(b) + ([CLOSE_OBJECT] + y)
    ensures a == b && x == y
    decreases a
  {
    NoFieldsOrSome(a, x);
    NoFieldsOrSome(b, y);
    FieldsUnfold(a, x);
    FieldsUnfold(b, y);
    if a == [] {
      SameHead(CLOSE_OBJECT, CLOSE_OBJECT, x, y);
    } else {
      var f, g, p, q := a[0], b[0], AfterField(a, x), AfterField(b, y);
      SameQuoted(f.key, g.key, [COLON] + (Print(f.value) + p), [COLON] + (Print(g.value) + q));
      SameHead(COLON, COLON, Print(f.value) + p, Print(g.value) + q);
      assert f.value < f;
      SameValue(f.value, g.value, p, q);
      SameFieldRest(a, b, x, y);
      if |a| > 1 {
        SameFieldsText(a[1..], b[1..], x, y);
      }
      SameParts(a, b);
    }
  }

  lemma SameFieldRest(a: seq<Field>, b: seq<Field>, x: Text, y: Text)
    requires a != [] && b != [] && AfterField(a, x) == AfterField(b, y)
    ensures |a| == 1 <==> |b| == 1
    ensures if |a| == 1 then x == y else PrintFields(a[1..]) + ([CLOSE_OBJECT] + x) == PrintFields(b[1..]) + ([CLOSE_OBJECT] + y)
  {
    assert AfterField(a, x)[0] == COMMA <==> |a| > 1;
    assert AfterField(b, y)[0] == COMMA <==> |b| > 1;
    if |a| == 1 {
      SameHead(CLOSE_OBJECT, CLOSE_OBJECT, x, y);
    } else {
      SameHead(COMMA, COMMA, PrintFields(a[1..]) + ([CLOSE_OBJECT] + x), PrintFields(b[1..]) + ([CLOSE_OBJECT] + y));
    }
  }

  /** json.dumps is injective on canonical values. */
  lemma PrintInjective(a: Json, b: Json)
    requires Print(a) == Print(b)
    ensures a == b
  {
    assert Print(a) + [] == Print(b) + [];
    SameValue(a, b, [], []);
  }
}
