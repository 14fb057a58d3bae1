/** _rewrite_schema_refs and _curated_schema: definitions as named components. */
module SchemaCurated {
  import opened Common
  import opened SchemaJson
  import opened SchemaRefs
  import opened SchemaRefTheorems
  import opened SchemaHoist
  import opened SchemaHoistTheorems

  const DEFS: string := "$defs"
  const DEFS_POINTER: string := "#/$defs/"

  // ---------- _rewrite_schema_refs ----------

  type References = map<Text, Name>

  predicate Local(t: Text) {
    t.Pointer? || (t.text != "" && t.text[0] == '#')
  }

  function NewRef(v: Json, refs: References): Json {
    if v.Str? && v.text in refs then Str(Pointer(refs[v.text])) else v
  }

  function Rewritten(j: Json, refs: References): Json
    decreases j, 2
  {
    if j.Obj?
    then Obj(map k | k in j.fields :: if k == REF then NewRef(j.fields[k], refs) else RewrittenField(k, j.fields[k], refs))
    else j
  }

  function RewrittenField(key: string, v: Json, refs: References): Json
    decreases v, 3
  {
    match PlaceOf(key)
    case ByName => if v.Obj? then Obj(map n | n in v.fields :: Rewritten(v.fields[n], refs)) else v
    case Single => Rewritten(v, refs)
    case Listed => if v.Arr? then Arr(seq(|v.items|, i requires 0 <= i < |v.items| => Rewritten(v.items[i], refs))) else v
    case Verbatim => v
  }

  /** Where the rewriting does not raise. */
  predicate Rewritable(j: Json, refs: References)
    decreases j, 2
  {
    j.Obj? ==>
      && j.fields.Keys !! {"$id", "$anchor", "$dynamicRef", "$dynamicAnchor"}
      && (REF in j.fields && j.fields[REF].Str? && Local(j.fields[REF].text) ==> j.fields[REF].text in refs)
      && (forall k :: k in j.fields ==> RewritableField(k, j.fields[k], refs))
  }

  predicate RewritableField(key: string, v: Json, refs: References)
    decreases v, 3
  {
    match PlaceOf(key)
    case ByName => v.Obj? ==> forall n :: n in v.fields ==> Rewritable(v.fields[n], refs)
    case Single => Rewritable(v, refs)
    case Listed => v.Arr? ==> forall i :: 0 <= i < |v.items| ==> Rewritable(v.items[i], refs)
    case Verbatim => true
  }

  // ---------- _curated_schema ----------

  function Definitions(schema: Json): map<string, Json>
    requires schema.Obj?
  {
    if DEFS in schema.fields && schema.fields[DEFS].Obj? then schema.fields[DEFS].fields else map[]
  }

  /** The component that stands for a definition: named after its expansion. */
  function DefinitionOf(schema: Json, name: string): Result<Name>
    requires schema.Obj? && name in Definitions(schema)
  {
    var expanded := Expand(Definitions(schema)[name], schema);
    if expanded.Ok? then Ok(DefinitionName(expanded.value)) else Err
  }

  predicate AllExpand(schema: Json) {
    schema.Obj? && forall n :: n in Definitions(schema) ==> DefinitionOf(schema, n).Ok?
  }

  function TargetName(schema: Json, name: string): Name
    requires AllExpand(schema) && name in Definitions(schema)
  {
    DefinitionOf(schema, name).value
  }

  function ReferencesOf(schema: Json): References
    requires AllExpand(schema)
  {
    map t: Text | t in (set n | n in Definitions(schema) :: Plain(DEFS_POINTER + n)) && t.Plain? && t.text[|DEFS_POINTER|..] in Definitions(schema)
      :: TargetName(schema, t.text[|DEFS_POINTER|..])
  }

  /** The definition with its references rewritten, as it is about to be stored. */
  function RewrittenDefinition(schema: Json, name: string): Json
    requires AllExpand(schema) && name in Definitions(schema)
  {
    Rewritten(Definitions(schema)[name], ReferencesOf(schema))
  }

  /** The keys of the definitions in the order of the source dictionary. */
  predicate Lists(order: seq<string>, names: set<string>) {
    && (forall n :: n in order ==> n in names) && (forall n :: n in names ==> n in order)
    && (forall i, j :: 0 <= i < j < |order| ==> order[i] != order[j])
  }

  /** `components[target] = _shared_schema(value, components)` for one definition. */
  function StoreDefinition(schema: Json, name: string, table: Table): Table
    requires AllExpand(schema) && name in Definitions(schema)
  {
    var value := RewrittenDefinition(schema, name);
    WithBodies(table, Stored(value))[TargetName(schema, name) := Shared(value)]
  }

  function StoreDefinitions(schema: Json, order: seq<string>, table: Table): Table
    requires AllExpand(schema) && forall n :: n in order ==> n in Definitions(schema)
  {
    if order == [] then table
    else StoreDefinition(schema, order[|order| - 1], StoreDefinitions(schema, order[..|order| - 1], table))
  }

  /** The schema without its definitions, references rewritten. */
  function RewrittenRest(schema: Json): Json
    requires AllExpand(schema)
  {
    Obj(Rewritten(schema, ReferencesOf(schema)).fields - {DEFS})
  }

  /** `$defs` of the result: a pointer for every definition. */
  function WithPointers(shared: Json, schema: Json): Json
    requires AllExpand(schema) && shared.Obj?
  {
    if Definitions(schema) == map[] then shared
    else Obj(shared.fields[DEFS := Obj(map n | n in Definitions(schema) :: Link(TargetName(schema, n)))])
  }

  /** Where nothing raises: `$defs` is an object, every definition expands, and every reference can be rewritten. */
  predicate Curatable(schema: Json) {
    && AllExpand(schema) && (DEFS in schema.fields ==> schema.fields[DEFS].Obj?)
    && Rewritable(schema, ReferencesOf(schema))
  }

  function CuratedValue(schema: Json): Json
    requires AllExpand(schema)
  {
    WithPointers(Shared(RewrittenRest(schema)), schema)
  }

  function CuratedTable(schema: Json, order: seq<string>, table: Table): Table
    requires AllExpand(schema) && forall n :: n in order ==> n in Definitions(schema)
  {
    WithBodies(StoreDefinitions(schema, order, table), Stored(RewrittenRest(schema)))
  }

  /** _curated_schema */
  method CurateSchema(c: Components, schema: Json, order: seq<string>) returns (r: Result<Json>)
    requires schema.Obj? && Lists(order, Definitions(schema).Keys)
    modifies c
    ensures r == if Curatable(schema) then Ok(CuratedValue(schema)) else Err
    ensures c.table == if Curatable(schema) then CuratedTable(schema, order, old(c.table)) else old(c.table)
  {
    if !Curatable(schema) {
      return Err;
    }
    for i := 0 to |order|
      invariant c.table == StoreDefinitions(schema, order[..i], old(c.table))
    {
      assert order[..i + 1][..i] == order[..i];
      assert order[i] in order;
      var value := c.SharedSchema(RewrittenDefinition(schema, order[i]));
      c.table := c.table[TargetName(schema, order[i]) := value];
    }
    assert order[..|order|] == order;
    var shared := c.SharedSchema(RewrittenRest(schema));
    r := Ok(WithPointers(shared, schema));
  }

  // ---------- which definition a component holds ----------

  /** The last definition in the order that expands like `name`. */
  function LastLike(schema: Json, order: seq<string>, name: string): (last: string)
    requires AllExpand(schema) && name in order && forall n :: n in order ==> n in Definitions(schema)
    ensures last in order && TargetName(schema, last) == TargetName(schema, name)
  {
    var n := |order| - 1;
    if TargetName(schema, order[n]) == TargetName(schema, name) then order[n] else LastLike(schema, order[..n], name)
  }

  /** A component of a definition holds the last definition with its expansion. */
  lemma {:induction false} LastStays(schema: Json, order: seq<string>, table: Table, name: string)
    requires AllExpand(schema) && name in order && forall n :: n in order ==> n in Definitions(schema)
    ensures TargetName(schema, name) in StoreDefinitions(schema, order, table)
    ensures StoreDefinitions(schema, order, table)[TargetName(schema, name)] == Shared(RewrittenDefinition(schema, LastLike(schema, order, name)))
  {
    var n := |order| - 1;
    if TargetName(schema, order[n]) != TargetName(schema, name) {
      LastStays(schema, order[..n], table, name);
    }
  }

  lemma FinalComponent(schema: Json, order: seq<string>, table: Table, name: string)
    requires AllExpand(schema) && name in order && forall n :: n in order ==> n in Definitions(schema)
    ensures TargetName(schema, name) in CuratedTable(schema, order, table)
    ensures CuratedTable(schema, order, table)[TargetName(schema, name)] == Shared(RewrittenDefinition(schema, LastLike(schema, order, name)))
  {
    LastStays(schema, order, table, name);
  }

  predicate SameStored(schema: Json, m: string, n: string)
    requires AllExpand(schema) && m in Definitions(schema) && n in Definitions(schema)
  {
    Shared(RewrittenDefinition(schema, m)) == Shared(RewrittenDefinition(schema, n))
  }

  /** The definition is what its component holds at the end. */
  predicate Kept(schema: Json, table: Table, name: string)
    requires AllExpand(schema) && name in Definitions(schema)
  {
    TargetName(schema, name) in table && table[TargetName(schema, name)] == Shared(RewrittenDefinition(schema, name))
  }

  /**
   For every schema: all definitions keep their components if and only if those
   with the same expansion are the same once their references are rewritten.
   */
  lemma DefinitionsKeptExactly(schema: Json, order: seq<string>, table: Table)
    requires AllExpand(schema) && Lists(order, Definitions(schema).Keys)
    ensures (forall n :: n in Definitions(schema) ==> Kept(schema, CuratedTable(schema, order, table), n))
      <==> (forall m, n :: m in Definitions(schema) && n in Definitions(schema) && TargetName(schema, m) == TargetName(schema, n) ==>
              SameStored(schema, m, n))
  {
    var after := CuratedTable(schema, order, table);
    forall n | n in Definitions(schema)
      ensures Kept(schema, after, n) <==> SameStored(schema, LastLike(schema, order, n), n)
    {
      FinalComponent(schema, order, table, n);
    }
    if forall n :: n in Definitions(schema) ==> Kept(schema, after, n) {
      forall m, n | m in Definitions(schema) && n in Definitions(schema) && TargetName(schema, m) == TargetName(schema, n)
        ensures SameStored(schema, m, n)
      {
        assert Kept(schema, after, m) && Kept(schema, after, n);
      }
    }
  }

  // ---------- components that point to themselves ----------

  /** A definition that is nothing but a reference to a definition with the same expansion. */
  predicate Alias(schema: Json, name: string)
    requires AllExpand(schema) && name in Definitions(schema)
  {
    var d := Definitions(schema)[name];
    && OnlyRef(d) && d.fields[REF].Str? && d.fields[REF].text in ReferencesOf(schema)
    && ReferencesOf(schema)[d.fields[REF].text] == TargetName(schema, name)
  }

  lemma BareStaysBare(d: Json, refs: References)
    requires OnlyRef(d)
    ensures Rewritten(d, refs) == Obj(map[REF := NewRef(d.fields[REF], refs)])
  {
    assert Rewritten(d, refs).fields.Keys == {REF};
  }

  /** A definition that expands refers to plain names only. */
  lemma ExpandedRefIsSafe(value: Json, document: Json)
    requires value.Obj? && REF in value.fields && Expand(value, document).Ok?
    ensures Safe(value.fields[REF])
  {
    var all := RefsIn(value) + RefsIn(document);
    assert Resolve(value, document, {}, all) == ResolveReference(value, document, {}, all);
  }

  lemma SharedLinkExactly(schema: Json, name: string)
    requires AllExpand(schema) && name in Definitions(schema)
    ensures Shared(RewrittenDefinition(schema, name)) == Link(TargetName(schema, name)) <==> Alias(schema, name)
  {
    var d, target, refs := Definitions(schema)[name], TargetName(schema, name), ReferencesOf(schema);
    assert Link(target).fields[REF] == Str(Pointer(target));
    if OnlyRef(d) {
      BareStaysBare(d, refs);
      ExpandedRefIsSafe(d, schema);
      assert Rewritten(d, refs).fields[REF] == NewRef(d.fields[REF], refs);
      assert Rewritten(d, refs) == Link(target) <==> NewRef(d.fields[REF], refs) == Str(Pointer(target));
    } else {
      NoLinkFromOthers(d, refs, target);
    }
  }

  lemma NoLinkFromOthers(d: Json, refs: References, target: Name)
    requires !OnlyRef(d) && target.DefinitionName?
    ensures Shared(Rewritten(d, refs)) != Link(target)
  {
    if d.Obj? {
      var value := Rewritten(d, refs);
      assert value.fields.Keys == d.fields.Keys;
      assert Shared(value).fields[REF] == Str(Pointer(SchemaName(Body(value))));
    } else {
      assert Link(target).Obj?;
    }
  }

  /**
   For every schema: a component ends as a pointer to itself if and only if the
   last definition with its expansion is an alias of one with that expansion.
   */
  lemma SelfLinkExactly(schema: Json, order: seq<string>, table: Table, name: string)
    requires AllExpand(schema) && Lists(order, Definitions(schema).Keys) && name in Definitions(schema)
    ensures TargetName(schema, name) in CuratedTable(schema, order, table)
    ensures CuratedTable(schema, order, table)[TargetName(schema, name)] == Link(TargetName(schema, name))
      <==> Alias(schema, LastLike(schema, order, name))
  {
    FinalComponent(schema, order, table, name);
    SharedLinkExactly(schema, LastLike(schema, order, name));
  }

  // ---------- references to definitions ----------

  /** A name that a JSON pointer spells as it is. */
  predicate PlainName(name: string) {
    '/' !in name && '~' !in name
  }

  /** The reference `#/$defs/name` of a definition with a plain name. */
  predicate NamesDefinition(r: Json, schema: Json)
    requires schema.Obj?
  {
    && r.Str? && r.text.Plain? && DEFS_POINTER <= r.text.text
    && r.text.text[|DEFS_POINTER|..] in Definitions(schema) && PlainName(r.text.text[|DEFS_POINTER|..])
  }

  function NamedBy(r: Json, schema: Json): string
    requires schema.Obj? && NamesDefinition(r, schema)
  {
    r.text.text[|DEFS_POINTER|..]
  }

  lemma {:induction false} SplitPlain(s: string, t: string)
    requires '/' !in s
    ensures Split(s) == [s] && Split(s + "/" + t) == [s] + Split(t)
  {
    var all := s + "/" + t;
    if s == "" {
      assert all == "/" + t && all[1..] == t;
    } else {
      assert s == [s[0]] + s[1..];
      SplitPlain(s[1..], t);
      assert all[1..] == s[1..] + "/" + t;
    }
  }

  lemma {:induction false} PlainToken(token: string)
    requires forall i :: 0 <= i < |token| ==> token[i] != '~'
    ensures DecodeToken(token) == token
  {
    DecodeIsUnescape(token);
    PlainUnescape(token);
  }

  lemma {:induction false} PlainUnescape(token: string)
    requires forall i :: 0 <= i < |token| ==> token[i] != '~'
    ensures Unescape(token) == token
  {
    if token != "" {
      PlainUnescape(token[1..]);
      assert token == [token[0]] + token[1..];
    }
  }

  lemma WalkToDefinition(schema: Json, name: string)
    requires schema.Obj? && name in Definitions(schema) && PlainName(name)
    ensures Walk(schema, [DEFS] + [name]) == Ok(Definitions(schema)[name])
  {
    PlainToken(DEFS);
    PlainToken(name);
    assert ([DEFS] + [name])[1..] == [name] && [name][1..] == [];
    assert Walk(schema.fields[DEFS], [name]) == Walk(Definitions(schema)[name], []);
  }

  /** _pointer finds the definition that the reference names. */
  lemma DefinitionFound(schema: Json, r: Json)
    requires schema.Obj? && NamesDefinition(r, schema)
    ensures TargetOf(schema, r) == Ok(Definitions(schema)[NamedBy(r, schema)])
  {
    var name := NamedBy(r, schema);
    assert r.text.text == DEFS_POINTER + name;
    assert r.text.text[1..] == "/" + (DEFS + "/" + name);
    PointerTokens(name);
    WalkToDefinition(schema, name);
  }

  lemma PointerTokens(name: string)
    requires PlainName(name)
    ensures Split(StripLeft("/" + (DEFS + "/" + name))) == [DEFS] + [name]
  {
    var pointer := "/" + (DEFS + "/" + name);
    assert pointer[1..] == DEFS + "/" + name;
    assert StripLeft(pointer) == StripLeft(pointer[1..]) == pointer[1..];
    SplitPlain(DEFS, name);
    SplitPlain(name, "");
  }

  /** And the rewriting replaces it by the component of that definition. */
  lemma DefinitionReferenced(schema: Json, r: Json)
    requires AllExpand(schema) && NamesDefinition(r, schema)
    ensures r.text in ReferencesOf(schema) && ReferencesOf(schema)[r.text] == TargetName(schema, NamedBy(r, schema))
  {
    assert r.text == Plain(DEFS_POINTER + NamedBy(r, schema));
  }

  // ---------- a definition that is an alias of another ----------

  const INTEGER: Json := Obj(map["type" := Str(Plain("integer"))])
  const ALIAS: Json := Obj(map[REF := Str(Plain("#/$defs/B"))])
  const ALIASED: Json := Obj(map[DEFS := Obj(map["B" := INTEGER, "A" := ALIAS])])

  lemma NoReferenceInInteger()
    ensures NoRefs(INTEGER)
  {
    assert forall k :: k in INTEGER.fields ==> k == "type";
    assert "type" != REF;
  }

  /** A bare reference expands to what its target expands to. */
  lemma BareReference(value: Json, document: Json, seen: set<Json>, all: set<Json>, target: Json)
    requires OnlyRef(value) && value.fields[REF] !in seen && RefsIn(value) <= all && RefsIn(document) <= all && RefsIn(target) <= all
    requires TargetOf(document, value.fields[REF]) == Ok(target)
    ensures Resolve(value, document, seen, all) == Resolve(target, document, seen + {value.fields[REF]}, all)
  {
  }

  lemma IntegerExpands()
    ensures Expand(INTEGER, ALIASED) == Ok(INTEGER)
  {
    NoReferenceInInteger();
    NothingToExpand(INTEGER, ALIASED, {}, RefsIn(INTEGER) + RefsIn(ALIASED));
  }

  lemma AliasExpands()
    ensures Expand(ALIAS, ALIASED) == Ok(INTEGER)
  {
    var all := RefsIn(ALIAS) + RefsIn(ALIASED);
    assert ALIAS.fields[REF].text.text == DEFS_POINTER + "B";
    DefinitionFound(ALIASED, ALIAS.fields[REF]);
    NoReferenceInInteger();
    BareReference(ALIAS, ALIASED, {}, all, INTEGER);
    NothingToExpand(INTEGER, ALIASED, {} + {ALIAS.fields[REF]}, all);
  }

  lemma AliasedExpands()
    ensures AllExpand(ALIASED) && TargetName(ALIASED, "B") == TargetName(ALIASED, "A") == DefinitionName(INTEGER)
    ensures Lists(["B", "A"], Definitions(ALIASED).Keys)
  {
    IntegerExpands();
    AliasExpands();
    assert forall n :: n in Definitions(ALIASED) ==> n == "A" || n == "B";
    assert ["B", "A"][0] == "B" && ["B", "A"][1] == "A";
  }

  /**
   A definition that is only an alias overwrites the component it points to with a
   pointer to itself, when it comes later: the body of `B` is no longer reachable.
   */
  lemma AliasOverwritesItsTarget(table: Table)
    ensures AllExpand(ALIASED) && Lists(["B", "A"], Definitions(ALIASED).Keys)
    ensures var name := TargetName(ALIASED, "B");
      var after := CuratedTable(ALIASED, ["B", "A"], table);
      name == DefinitionName(INTEGER) && name in after && after[name] == Link(name)
  {
    AliasedExpands();
    var refs := ReferencesOf(ALIASED);
    assert ALIAS.fields[REF].text.text == DEFS_POINTER + "B";
    DefinitionReferenced(ALIASED, ALIAS.fields[REF]);
    assert Alias(ALIASED, "A");
    assert LastLike(ALIASED, ["B", "A"], "B") == "A";
    SelfLinkExactly(ALIASED, ["B", "A"], table, "B");
  }
}
