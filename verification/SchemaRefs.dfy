/** _pointer, _resolve_local_refs and _resolve_reference. */
module SchemaRefs {
  import opened Common
  import opened SchemaJson

  // ---------- JSON pointers ----------

  /** str.split("/") */
  function Split(s: string): (r: seq<string>)
    ensures |r| >= 1
  {
    if s == "" then [""]
    else
      var rest := Split(s[1..]);
      if s[0] == '/' then [""] + rest else [[s[0]] + rest[0]] + rest[1..]
  }

  /** str.lstrip("/") */
  function StripLeft(s: string): string {
    if s != "" && s[0] == '/' then StripLeft(s[1..]) else s
  }

  /** str.replace of a two-character pattern by one character, left to right. */
  function Replace(s: string, second: char, put: char): string {
    if |s| < 2 then s
    else if s[0] == '~' && s[1] == second then [put] + Replace(s[2..], second, put)
    else [s[0]] + Replace(s[1..], second, put)
  }

  function DecodeToken(token: string): string {
    Replace(Replace(token, '1', '/'), '0', '~')
  }

  /** Section 4 of RFC 6901 in one pass; a stray `~` stays. */
  function Unescape(token: string): string {
    if token == "" then ""
    else if |token| >= 2 && token[0] == '~' && token[1] == '0' then "~" + Unescape(token[2..])
    else if |token| >= 2 && token[0] == '~' && token[1] == '1' then "/" + Unescape(token[2..])
    else [token[0]] + Unescape(token[1..])
  }

  /** The loop of _pointer over the tokens of the reference. */
  function Walk(value: Json, tokens: seq<string>): Result<Json> {
    if tokens == [] then Ok(value)
    else if value.Obj? && DecodeToken(tokens[0]) in value.fields then Walk(value.fields[DecodeToken(tokens[0])], tokens[1..])
    else Err
  }

  function Lookup(document: Json, reference: string): Result<Json> {
    if reference == "" || reference[0] != '/' then Err
    else Walk(document, Split(StripLeft(reference)))
  }

  /** _pointer */
  method FindPointer(document: Json, reference: string) returns (r: Result<Json>)
    ensures r == Lookup(document, reference)
  {
    if reference == "" || reference[0] != '/' {
      return Err;
    }
    var value := document;
    var tokens := Split(StripLeft(reference));
    for i := 0 to |tokens|
      invariant Walk(document, tokens) == Walk(value, tokens[i..])
    {
      var token := DecodeToken(tokens[i]);
      if !value.Obj? || token !in value.fields {
        return Err;
      }
      value := value.fields[token];
    }
    return Ok(value);
  }

  // ---------- expansion ----------

  /** The value of every `$ref` key inside a value. */
  function RefsIn(j: Json): set<Json> {
    match j
    case Obj(fields) =>
      (if REF in fields then {fields[REF]} else {}) + (set k, r | k in fields && r in RefsIn(fields[k]) :: r)
    case Arr(items) => set i, r | 0 <= i < |items| && r in RefsIn(items[i]) :: r
    case _ => {}
  }

  /** A reference the resolver follows: a string that starts with `#/`. */
  predicate Safe(r: Json) {
    r.Str? && r.text.Plain? && |r.text.text| >= 2 && r.text.text[..2] == "#/"
  }

  function TargetOf(document: Json, r: Json): Result<Json> {
    if Safe(r) then Lookup(document, r.text.text[1..]) else Err
  }

  lemma {:induction false} WalkRefs(value: Json, tokens: seq<string>)
    ensures Walk(value, tokens).Ok? ==> RefsIn(Walk(value, tokens).value) <= RefsIn(value)
  {
    if tokens != [] && value.Obj? && DecodeToken(tokens[0]) in value.fields {
      WalkRefs(value.fields[DecodeToken(tokens[0])], tokens[1..]);
    }
  }

  lemma TargetRefs(document: Json, r: Json)
    ensures TargetOf(document, r).Ok? ==> RefsIn(TargetOf(document, r).value) <= RefsIn(document)
  {
    if Safe(r) {
      WalkRefs(document, Split(StripLeft(r.text.text[1..])));
    }
  }

  lemma Fewer(all: set<Json>, seen: set<Json>, r: Json)
    requires r in all && r !in seen
    ensures |all - (seen + {r})| < |all - seen|
  {
    assert all - (seen + {r}) == (all - seen) - {r};
  }

  /** `{**a, **b}`; a TypeError if `a` is not an object. */
  function Merge(a: Json, b: Json): Result<Json> {
    if a.Obj? && b.Obj? then Ok(Obj(a.fields + b.fields)) else Err
  }

  /**
   _resolve_local_refs and _resolve_reference. `all` holds every reference that
   can come up; the expansion terminates because each step either follows a
   reference that was not seen yet or goes down into the value.
   */
  function Resolve(value: Json, document: Json, seen: set<Json>, ghost all: set<Json>): Result<Json>
    requires RefsIn(value) <= all && RefsIn(document) <= all
    decreases |all - seen|, value, 2
  {
    match value
    case Arr(items) => ResolveItems(items, document, seen, all)
    case Obj(fields) =>
      if REF in fields then ResolveReference(value, document, seen, all)
      else ResolveChildren(value, document, seen, all)
    case _ => Ok(value)
  }

  function ResolveItems(items: seq<Json>, document: Json, seen: set<Json>, ghost all: set<Json>): Result<Json>
    requires (forall i :: 0 <= i < |items| ==> RefsIn(items[i]) <= all) && RefsIn(document) <= all
    decreases |all - seen|, items, 1
  {
    var results := seq(|items|, i requires 0 <= i < |items| => Resolve(items[i], document, seen, all));
    if exists i :: 0 <= i < |items| && results[i].Err? then Err
    else Ok(Arr(seq(|items|, i requires 0 <= i < |items| && results[i].Ok? => results[i].value)))
  }

  function ResolveReference(value: Json, document: Json, seen: set<Json>, ghost all: set<Json>): Result<Json>
    requires value.Obj? && REF in value.fields && RefsIn(value) <= all && RefsIn(document) <= all
    decreases |all - seen|, value, 1
  {
    var r := value.fields[REF];
    if !Safe(r) then Err
    else if r in seen then Ok(value)
    else
      var target := TargetOf(document, r);
      if target.Err? then Err
      else
        TargetRefs(document, r);
        Fewer(all, seen, r);
        var resolved := Resolve(target.value, document, seen + {r}, all);
        if resolved.Err? then Err
        else
          if OnlyRef(value) then resolved
          else
            var rest := ResolveChildren(value, document, seen, all);
            if rest.Err? then Err else Merge(resolved.value, rest.value)
  }

  /** The expansion of every field but `$ref`. */
  function ResolveChildren(value: Json, document: Json, seen: set<Json>, ghost all: set<Json>): Result<Json>
    requires value.Obj? && RefsIn(value) <= all && RefsIn(document) <= all
    decreases |all - seen|, value, 0
  {
    var results := map k | k in value.fields && k != REF :: Resolve(value.fields[k], document, seen, all);
    if exists k :: k in results && results[k].Err? then Err
    else Ok(Obj(map k | k in results && results[k].Ok? :: results[k].value))
  }
}
