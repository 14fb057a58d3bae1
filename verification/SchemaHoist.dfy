/** _shared_schema and _map_schema_children: hoisting subschemas into a component table. */
module SchemaHoist {
  import opened Common
  import opened SchemaJson

  /** How _map_schema_children treats the value of a keyword. */
  datatype Place = ByName | Single | Listed | Verbatim

  function PlaceOf(key: string): Place {
    if key in {"properties", "patternProperties", "$defs", "dependentSchemas"} then ByName
    else if key in {"items", "additionalProperties", "contains", "not", "if", "then", "else", "propertyNames",
                    "unevaluatedProperties", "unevaluatedItems", "contentSchema", "additionalItems"} then Single
    else if key in {"allOf", "anyOf", "oneOf", "prefixItems"} then Listed
    else Verbatim
  }

  /** A schema that _shared_schema moves into the table. */
  predicate Hoistable(j: Json) {
    j.Obj? && !OnlyRef(j)
  }

  /** What _shared_schema returns: a link to the body, whose children are hoisted in turn. */
  function Shared(j: Json): Json
    decreases j, 2
  {
    if Hoistable(j) then Link(SchemaName(Body(j))) else j
  }

  function Body(j: Json): Json
    requires j.Obj?
    decreases j, 1
  {
    Obj(map k | k in j.fields :: SharedField(k, j.fields[k]))
  }

  function SharedField(key: string, v: Json): Json
    decreases v, 3
  {
    match PlaceOf(key)
    case ByName => if v.Obj? then Obj(map n | n in v.fields :: Shared(v.fields[n])) else v
    case Single => Shared(v)
    case Listed => if v.Arr? then Arr(seq(|v.items|, i requires 0 <= i < |v.items| => Shared(v.items[i]))) else v
    case Verbatim => v
  }

  /** The bodies that _shared_schema stores on the way. */
  function Stored(j: Json): set<Json>
    decreases j, 2
  {
    if Hoistable(j) then {Body(j)} + StoredBelow(j) else {}
  }

  function StoredBelow(j: Json): set<Json>
    requires j.Obj?
    decreases j, 1
  {
    set k, b | k in j.fields && b in StoredField(k, j.fields[k]) :: b
  }

  function StoredField(key: string, v: Json): set<Json>
    decreases v, 3
  {
    match PlaceOf(key)
    case ByName => if v.Obj? then StoredNamed(v) else {}
    case Single => Stored(v)
    case Listed => if v.Arr? then StoredListed(v) else {}
    case Verbatim => {}
  }

  function StoredNamed(v: Json): set<Json>
    requires v.Obj?
    decreases v, 2
  {
    set n, b | n in v.fields && b in Stored(v.fields[n]) :: b
  }

  function StoredListed(v: Json): set<Json>
    requires v.Arr?
    decreases v, 2
  {
    set i, b | 0 <= i < |v.items| && b in Stored(v.items[i]) :: b
  }

  lemma AllBelow(j: Json, stored: set<Json>)
    requires j.Obj? && stored <= StoredBelow(j) && forall k :: k in j.fields ==> StoredField(k, j.fields[k]) <= stored
    ensures stored == StoredBelow(j)
  {
    forall b | b in StoredBelow(j)
      ensures b in stored
    {
      var k :| k in j.fields && b in StoredField(k, j.fields[k]);
    }
  }

  lemma AllNamed(v: Json, stored: set<Json>)
    requires v.Obj? && stored <= StoredNamed(v) && forall n :: n in v.fields ==> Stored(v.fields[n]) <= stored
    ensures stored == StoredNamed(v)
  {
    forall b | b in StoredNamed(v)
      ensures b in stored
    {
      var n :| n in v.fields && b in Stored(v.fields[n]);
    }
  }

  lemma AllListed(v: Json, stored: set<Json>)
    requires v.Arr? && stored <= StoredListed(v) && forall i :: 0 <= i < |v.items| ==> Stored(v.items[i]) <= stored
    ensures stored == StoredListed(v)
  {
    forall b | b in StoredListed(v)
      ensures b in stored
    {
      var i :| 0 <= i < |v.items| && b in Stored(v.items[i]);
    }
  }

  type Table = map<Name, Json>

  /** Every schema component sits under the name of its own body. */
  predicate Addressed(table: Table) {
    forall n :: n in table && n.SchemaName? ==> table[n] == n.body
  }

  function NamesOf(bodies: set<Json>): set<Name> {
    set b | b in bodies :: SchemaName(b)
  }

  /** The table after the bodies were stored under their names. */
  function WithBodies(table: Table, bodies: set<Json>): Table {
    table + map n | n in NamesOf(bodies) && n.SchemaName? :: n.body
  }

  lemma WithNone(table: Table)
    ensures WithBodies(table, {}) == table
  {
  }

  lemma WithTwice(table: Table, a: set<Json>, b: set<Json>)
    ensures WithBodies(WithBodies(table, a), b) == WithBodies(table, a + b)
  {
    assert NamesOf(a + b) == NamesOf(a) + NamesOf(b);
  }

  lemma WithOne(table: Table, a: set<Json>, body: Json)
    ensures WithBodies(table, a)[SchemaName(body) := body] == WithBodies(table, {body} + a)
  {
    assert NamesOf({body} + a) == {SchemaName(body)} + NamesOf(a);
  }

  // ---------- the generator ----------

  class Components {
    var table: Table

    constructor ()
      ensures table == map[]
    {
      table := map[];
    }

    /** _shared_schema */
    method SharedSchema(schema: Json) returns (r: Json)
      modifies this
      ensures r == Shared(schema)
      ensures table == WithBodies(old(table), Stored(schema))
      decreases schema, 2
    {
      if !Hoistable(schema) {
        WithNone(table);
        return schema;
      }
      ghost var before := table;
      var body := MapSchemaChildren(schema);
      WithOne(before, StoredBelow(schema), body);
      table := table[SchemaName(body) := body];
      r := Link(SchemaName(body));
    }

    /** _map_schema_children with _shared_schema as its transform. */
    method MapSchemaChildren(schema: Json) returns (r: Json)
      requires schema.Obj?
      modifies this
      ensures r == Body(schema)
      ensures table == WithBodies(old(table), StoredBelow(schema))
      decreases schema, 1
    {
      var result: map<string, Json> := map[];
      var todo := schema.fields.Keys;
      ghost var stored: set<Json> := {};
      WithNone(table);
      while todo != {}
        invariant todo <= schema.fields.Keys
        invariant result == map k | k in schema.fields && k !in todo :: SharedField(k, schema.fields[k])
        invariant forall k :: k in schema.fields && k !in todo ==> StoredField(k, schema.fields[k]) <= stored
        invariant stored <= StoredBelow(schema)
        invariant table == WithBodies(old(table), stored)
      {
        var key :| key in todo;
        var child := MapField(key, schema.fields[key]);
        result := result[key := child];
        WithTwice(old(table), stored, StoredField(key, schema.fields[key]));
        stored := stored + StoredField(key, schema.fields[key]);
        todo := todo - {key};
      }
      AllBelow(schema, stored);
      assert result == Body(schema).fields;
      r := Obj(result);
    }

    method MapField(key: string, v: Json) returns (r: Json)
      modifies this
      ensures r == SharedField(key, v)
      ensures table == WithBodies(old(table), StoredField(key, v))
      decreases v, 3
    {
      r := v;
      WithNone(table);
      match PlaceOf(key)
      case ByName =>
        if v.Obj? {
          r := MapNamed(v);
        }
      case Single =>
        r := SharedSchema(v);
      case Listed =>
        if v.Arr? {
          r := MapListed(v);
        }
      case Verbatim =>
    }

    method MapNamed(v: Json) returns (r: Json)
      requires v.Obj?
      modifies this
      ensures r == Obj(map n | n in v.fields :: Shared(v.fields[n]))
      ensures table == WithBodies(old(table), StoredNamed(v))
      decreases v, 2
    {
      var result: map<string, Json> := map[];
      var todo := v.fields.Keys;
      ghost var stored: set<Json> := {};
      WithNone(table);
      while todo != {}
        invariant todo <= v.fields.Keys
        invariant result == map n | n in v.fields && n !in todo :: Shared(v.fields[n])
        invariant forall n :: n in v.fields && n !in todo ==> Stored(v.fields[n]) <= stored
        invariant stored <= StoredNamed(v)
        invariant table == WithBodies(old(table), stored)
      {
        var name :| name in todo;
        var child := SharedSchema(v.fields[name]);
        result := result[name := child];
        WithTwice(old(table), stored, Stored(v.fields[name]));
        stored := stored + Stored(v.fields[name]);
        todo := todo - {name};
      }
      AllNamed(v, stored);
      r := Obj(result);
    }

    method MapListed(v: Json) returns (r: Json)
      requires v.Arr?
      modifies this
      ensures r == Arr(seq(|v.items|, i requires 0 <= i < |v.items| => Shared(v.items[i])))
      ensures table == WithBodies(old(table), StoredListed(v))
      decreases v, 2
    {
      var result: seq<Json> := [];
      ghost var stored: set<Json> := {};
      WithNone(table);
      for i := 0 to |v.items|
        invariant |result| == i && forall j :: 0 <= j < i ==> result[j] == Shared(v.items[j])
        invariant forall j :: 0 <= j < i ==> Stored(v.items[j]) <= stored
        invariant stored <= StoredListed(v)
        invariant table == WithBodies(old(table), stored)
      {
        var child := SharedSchema(v.items[i]);
        result := result + [child];
        WithTwice(old(table), stored, Stored(v.items[i]));
        stored := stored + Stored(v.items[i]);
      }
      AllListed(v, stored);
      r := Arr(result);
    }
  }

  // ---------- putting the bodies back ----------

  /** A bare link to a schema component of the table. */
  predicate IsLink(j: Json, table: Table) {
    && OnlyRef(j) && j.fields[REF].Str? && j.fields[REF].text.Pointer?
    && j.fields[REF].text.name.SchemaName? && j.fields[REF].text.name in table
  }

  /** Replace every link, at the places where schemas are hoisted, by the component it names. */
  function Inline(j: Json, table: Table): Json
    requires Addressed(table)
    decreases j, 2
  {
    if IsLink(j, table) then Inline(table[j.fields[REF].text.name], table)
    else if Hoistable(j) then InlineBody(j, table)
    else j
  }

  function InlineBody(j: Json, table: Table): Json
    requires j.Obj? && Addressed(table)
    decreases j, 1
  {
    Obj(map k | k in j.fields :: InlineField(k, j.fields[k], table))
  }

  function InlineField(key: string, v: Json, table: Table): Json
    requires Addressed(table)
    decreases v, 3
  {
    match PlaceOf(key)
    case ByName => if v.Obj? then Obj(map n | n in v.fields :: Inline(v.fields[n], table)) else v
    case Single => Inline(v, table)
    case Listed => if v.Arr? then Arr(seq(|v.items|, i requires 0 <= i < |v.items| => Inline(v.items[i], table))) else v
    case Verbatim => v
  }
}
