/** Hoisting schemas into components loses nothing, and no component ever changes. */
module SchemaHoistTheorems {
  import opened Common
  import opened SchemaJson
  import opened SchemaHoist

  /** The schema refers, at a place where schemas are hoisted, to a component of the table. */
  ghost predicate Linked(j: Json, table: Table)
    decreases j, 2
  {
    IsLink(j, table) || (Hoistable(j) && LinkedBelow(j, table))
  }

  ghost predicate LinkedBelow(j: Json, table: Table)
    requires j.Obj?
    decreases j, 1
  {
    exists k :: k in j.fields && LinkedField(k, j.fields[k], table)
  }

  ghost predicate LinkedField(key: string, v: Json, table: Table)
    decreases v, 3
  {
    match PlaceOf(key)
    case ByName => v.Obj? && exists n :: n in v.fields && Linked(v.fields[n], table)
    case Single => Linked(v, table)
    case Listed => v.Arr? && exists i :: 0 <= i < |v.items| && Linked(v.items[i], table)
    case Verbatim => false
  }

  ghost predicate Holds(table: Table, bodies: set<Json>) {
    forall b :: b in bodies ==> SchemaName(b) in table
  }

  /** Inlining leaves no link into the table at the top. */
  lemma {:induction false} InlineIsNoLink(j: Json, table: Table)
    requires Addressed(table)
    ensures !IsLink(Inline(j, table), table)
    decreases j
  {
    if IsLink(j, table) {
      InlineIsNoLink(table[j.fields[REF].text.name], table);
    } else if Hoistable(j) {
      assert InlineBody(j, table).fields.Keys == j.fields.Keys;
    }
  }

  lemma BodyKeys(j: Json, table: Table)
    requires j.Obj? && Addressed(table)
    ensures Body(j).fields.Keys == j.fields.Keys && InlineBody(Body(j), table).fields.Keys == j.fields.Keys
    ensures Hoistable(j) ==> Hoistable(Body(j))
  {
  }

  /**
   Putting the components back restores the schema if and only if the schema had
   no references of its own into the table.
   */
  lemma {:induction false} InlineRestores(j: Json, table: Table)
    requires Addressed(table) && Holds(table, Stored(j))
    ensures Inline(Shared(j), table) == j <==> !Linked(j, table)
    decreases j, 2
  {
    if Hoistable(j) {
      BodyKeys(j, table);
      assert Body(j) in Stored(j);
      InlineRestoresBody(j, table);
    } else if IsLink(j, table) {
      InlineIsNoLink(j, table);
    }
  }

  lemma {:induction false} InlineRestoresBody(j: Json, table: Table)
    requires j.Obj? && Addressed(table) && Holds(table, StoredBelow(j))
    ensures InlineBody(Body(j), table) == j <==> !LinkedBelow(j, table)
    decreases j, 1
  {
    BodyKeys(j, table);
    forall k | k in j.fields
      ensures InlineField(k, SharedField(k, j.fields[k]), table) == j.fields[k] <==> !LinkedField(k, j.fields[k], table)
    {
      assert StoredField(k, j.fields[k]) <= StoredBelow(j);
      InlineRestoresField(k, j.fields[k], table);
    }
    SameFields(j, InlineBody(Body(j), table));
  }

  lemma SameFields(a: Json, b: Json)
    requires a.Obj? && b.Obj? && a.fields.Keys == b.fields.Keys
    ensures b == a <==> forall k :: k in a.fields ==> b.fields[k] == a.fields[k]
  {
    if forall k :: k in a.fields ==> b.fields[k] == a.fields[k] {
      assert a.fields == b.fields;
    }
  }

  lemma {:induction false} InlineRestoresField(key: string, v: Json, table: Table)
    requires Addressed(table) && Holds(table, StoredField(key, v))
    ensures InlineField(key, SharedField(key, v), table) == v <==> !LinkedField(key, v, table)
    decreases v, 3
  {
    match PlaceOf(key)
    case ByName => if v.Obj? { InlineRestoresNamed(key, v, table); }
    case Single => InlineRestores(v, table);
    case Listed => if v.Arr? { InlineRestoresListed(key, v, table); }
    case Verbatim =>
  }

  lemma {:induction false} InlineRestoresNamed(key: string, v: Json, table: Table)
    requires PlaceOf(key).ByName? && v.Obj? && Addressed(table) && Holds(table, StoredNamed(v))
    ensures InlineField(key, SharedField(key, v), table) == v <==> !LinkedField(key, v, table)
    decreases v, 2
  {
    var w := InlineField(key, SharedField(key, v), table);
    assert w.fields.Keys == v.fields.Keys;
    forall n | n in v.fields
      ensures w.fields[n] == v.fields[n] <==> !Linked(v.fields[n], table)
    {
      assert Stored(v.fields[n]) <= StoredNamed(v);
      InlineRestores(v.fields[n], table);
    }
    SameFields(v, w);
  }

  lemma {:induction false} InlineRestoresListed(key: string, v: Json, table: Table)
    requires PlaceOf(key).Listed? && v.Arr? && Addressed(table) && Holds(table, StoredListed(v))
    ensures InlineField(key, SharedField(key, v), table) == v <==> !LinkedField(key, v, table)
    decreases v, 2
  {
    var w := InlineField(key, SharedField(key, v), table);
    assert |w.items| == |v.items|;
    forall i | 0 <= i < |v.items|
      ensures w.items[i] == v.items[i] <==> !Linked(v.items[i], table)
    {
      assert Stored(v.items[i]) <= StoredListed(v);
      InlineRestores(v.items[i], table);
    }
    SameItems(v, w);
  }

  lemma SameItems(a: Json, b: Json)
    requires a.Arr? && b.Arr? && |a.items| == |b.items|
    ensures b == a <==> forall i :: 0 <= i < |a.items| ==> b.items[i] == a.items[i]
  {
    if forall i :: 0 <= i < |a.items| ==> b.items[i] == a.items[i] {
      assert a.items == b.items;
    }
  }

  // ---------- the table ----------

  /** Storing bodies keeps every component as it was, adds exactly the bodies, and keeps the table addressed. */
  lemma TableOnlyGrows(table: Table, bodies: set<Json>)
    requires Addressed(table)
    ensures Addressed(WithBodies(table, bodies)) && Holds(WithBodies(table, bodies), bodies)
    ensures forall n :: n in table ==> n in WithBodies(table, bodies) && WithBodies(table, bodies)[n] == table[n]
    ensures WithBodies(table, bodies).Keys == table.Keys + NamesOf(bodies)
  {
  }

  /** What one call of _shared_schema leaves behind is enough to restore its argument. */
  lemma SharedSchemaRestores(table: Table, schema: Json)
    requires Addressed(table)
    ensures var after := WithBodies(table, Stored(schema));
      Addressed(after) && (Inline(Shared(schema), after) == schema <==> !Linked(schema, after))
  {
    TableOnlyGrows(table, Stored(schema));
    InlineRestores(schema, WithBodies(table, Stored(schema)));
  }

  /** Later calls do not disturb it: in any larger table the links still mean the same bodies. */
  lemma LaterTablesAgree(table: Table, more: set<Json>, schema: Json)
    requires Addressed(table) && Holds(table, Stored(schema)) && !Linked(schema, WithBodies(table, more))
    ensures Inline(Shared(schema), WithBodies(table, more)) == schema
  {
    TableOnlyGrows(table, more);
    InlineRestores(schema, WithBodies(table, more));
  }
}
