/** When a curated schema still means its source: the exact condition. */
module SchemaMeaningTheorems {
  import opened Common
  import opened SchemaJson
  import opened SchemaRefs
  import opened SchemaRefTheorems
  import opened SchemaRefShape
  import opened SchemaHoist
  import opened SchemaHoistTheorems
  import opened SchemaCurated
  import opened SchemaMeaning

  // ---------- schemas whose references are all rewritten ----------

  /**
   Every `$ref` stands where schemas stand and names a definition of the root, as
   opposed to one inside a `const` or `enum`, which stays as it is.
   */
  predicate Clean(j: Json, schema: Json)
    requires schema.Obj?
    decreases j, 2
  {
    if j.Obj? then
      && (REF in j.fields ==> NamesDefinition(j.fields[REF], schema))
      && (forall k :: k in j.fields && k != REF ==> CleanField(k, j.fields[k], schema))
    else NoRefs(j)
  }

  predicate CleanField(key: string, v: Json, schema: Json)
    requires schema.Obj?
    decreases v, 3
  {
    match PlaceOf(key)
    case ByName => if v.Obj? then REF !in v.fields && forall n :: n in v.fields ==> Clean(v.fields[n], schema) else NoRefs(v)
    case Single => Clean(v, schema)
    case Listed => if v.Arr? then forall i :: 0 <= i < |v.items| ==> Clean(v.items[i], schema) else NoRefs(v)
    case Verbatim => NoRefs(v)
  }

  lemma {:induction false} CleanRefs(j: Json, schema: Json, r: Json)
    requires schema.Obj? && Clean(j, schema) && r in RefsIn(j)
    ensures NamesDefinition(r, schema)
    decreases j, 2
  {
    if j.Obj? && !(REF in j.fields && r == j.fields[REF]) {
      var k :| k in j.fields && r in RefsIn(j.fields[k]);
      if k != REF {
        CleanFieldRefs(k, j.fields[k], schema, r);
      }
    }
  }

  lemma {:induction false} CleanFieldRefs(key: string, v: Json, schema: Json, r: Json)
    requires schema.Obj? && CleanField(key, v, schema) && r in RefsIn(v)
    ensures NamesDefinition(r, schema)
    decreases v, 3
  {
    match PlaceOf(key)
    case ByName =>
      if v.Obj? {
        var n :| n in v.fields && r in RefsIn(v.fields[n]);
        CleanRefs(v.fields[n], schema, r);
      }
    case Single => CleanRefs(v, schema, r);
    case Listed =>
      if v.Arr? {
        var i :| 0 <= i < |v.items| && r in RefsIn(v.items[i]);
        CleanRefs(v.items[i], schema, r);
      }
    case Verbatim =>
  }

  // ---------- what the rewritten schema means ----------

  /** The setting: nothing raises, all references are rewritten, and none of them is circular. */
  ghost predicate Setting(schema: Json, rank: map<Json, nat>) {
    Curatable(schema) && Clean(schema, schema) && Acyclic(schema, RefsIn(schema), rank)
  }

  function ComponentOf(schema: Json, r: Json): Name
    requires AllExpand(schema) && NamesDefinition(r, schema)
  {
    TargetName(schema, NamedBy(r, schema))
  }

  /** At this depth the component of the definition can be followed to the end. */
  predicate Ends(schema: Json, name: string, table: Table, depth: nat)
    requires AllExpand(schema) && name in Definitions(schema) && Addressed(table)
  {
    FollowPointer(Str(Pointer(TargetName(schema, name))), table, depth).Ok?
  }

  /** And it means the expansion of the definition. */
  predicate Means(schema: Json, name: string, table: Table, depth: nat)
    requires AllExpand(schema) && name in Definitions(schema) && Addressed(table)
  {
    FollowPointer(Str(Pointer(TargetName(schema, name))), table, depth) == Ok(TargetName(schema, name).resolved)
  }

  /** Expansion of a part of the schema. */
  function ExpandPart(j: Json, schema: Json): Result<Json>
    requires RefsIn(j) <= RefsIn(schema)
  {
    Resolve(j, schema, {}, RefsIn(schema))
  }

  lemma DefinitionRefs(schema: Json, name: string)
    requires schema.Obj? && name in Definitions(schema)
    ensures RefsIn(Definitions(schema)[name]) <= RefsIn(schema)
  {
    ChildRefs(schema, DEFS);
    ChildRefs(schema.fields[DEFS], name);
  }

  lemma DefinitionExpands(schema: Json, name: string)
    requires AllExpand(schema) && name in Definitions(schema)
    ensures RefsIn(Definitions(schema)[name]) <= RefsIn(schema)
    ensures ExpandPart(Definitions(schema)[name], schema) == Ok(TargetName(schema, name).resolved)
  {
    DefinitionRefs(schema, name);
    assert RefsIn(Definitions(schema)[name]) + RefsIn(schema) == RefsIn(schema);
  }

  /** What a reference of the schema resolves to. */
  lemma ReferenceExpands(j: Json, schema: Json, rank: map<Json, nat>)
    requires AllExpand(schema) && Acyclic(schema, RefsIn(schema), rank) && RefsIn(j) <= RefsIn(schema)
    requires j.Obj? && REF in j.fields && NamesDefinition(j.fields[REF], schema)
    ensures ResolveReference(j, schema, {}, RefsIn(schema)) ==
      if OnlyRef(j) then Ok(ComponentOf(schema, j.fields[REF]).resolved)
      else
        var rest := ResolveChildren(j, schema, {}, RefsIn(schema));
        if rest.Err? then Err else Merge(ComponentOf(schema, j.fields[REF]).resolved, rest.value)
  {
    var r, all := j.fields[REF], RefsIn(schema);
    var name := NamedBy(r, schema);
    RefKey(j);
    DefinitionFound(schema, r);
    DefinitionExpands(schema, name);
    OrderedTarget(j, schema, {}, all, rank);
    SeenIrrelevant(Definitions(schema)[name], schema, {} + {r}, {}, all, rank);
  }

  /** Every reference inside means what it should, at this depth. */
  ghost predicate AllMean(j: Json, schema: Json, table: Table, depth: nat)
    requires AllExpand(schema) && Addressed(table)
  {
    forall r :: r in RefsIn(j) && NamesDefinition(r, schema) ==> Means(schema, NamedBy(r, schema), table, depth)
  }

  lemma {:induction false} FollowNothing(j: Json, table: Table, depth: nat)
    requires NoRefs(j) && Addressed(table)
    ensures Follow(j, table, depth) == Ok(j)
    decreases j
  {
    match j
    case Arr(items) =>
      forall i | 0 <= i < |items|
        ensures Follow(items[i], table, depth) == Ok(items[i])
      {
        ItemRefs(items, i);
        FollowNothing(items[i], table, depth);
      }
      assert FollowItems(items, table, depth).Ok?;
      assert FollowItems(items, table, depth).value.items == items;
    case Obj(fields) =>
      RefKey(j);
      forall k | k in fields
        ensures Follow(fields[k], table, depth) == Ok(fields[k])
      {
        ChildRefs(j, k);
        FollowNothing(fields[k], table, depth);
      }
      assert FollowChildren(j, table, depth).Ok?;
      assert FollowChildren(j, table, depth).value.fields == fields;
    case _ =>
  }

  lemma NothingInPart(j: Json, schema: Json)
    requires NoRefs(j)
    ensures ExpandPart(j, schema) == Ok(j)
  {
    NothingToExpand(j, schema, {}, RefsIn(schema));
  }

  /** Two objects with the same keys, one followed and one expanded. */
  lemma FollowedAsExpanded(w: Json, v: Json, schema: Json, table: Table, depth: nat)
    requires w.Obj? && v.Obj? && w.fields.Keys == v.fields.Keys && Addressed(table)
    requires RefsIn(v) <= RefsIn(schema)
    requires forall k :: k in v.fields && k != REF ==>
      RefsIn(v.fields[k]) <= RefsIn(schema) && Follow(w.fields[k], table, depth) == ExpandPart(v.fields[k], schema)
    ensures FollowChildren(w, table, depth) == ResolveChildren(v, schema, {}, RefsIn(schema))
  {
    assert (map k | k in w.fields && k != REF :: Follow(w.fields[k], table, depth))
        == (map k | k in v.fields && k != REF :: Resolve(v.fields[k], schema, {}, RefsIn(schema)));
  }

  lemma ItemsFollowedAsExpanded(w: seq<Json>, v: seq<Json>, schema: Json, table: Table, depth: nat)
    requires |w| == |v| && Addressed(table)
    requires forall i :: 0 <= i < |v| ==>
      RefsIn(v[i]) <= RefsIn(schema) && Follow(w[i], table, depth) == ExpandPart(v[i], schema)
    ensures FollowItems(w, table, depth) == ResolveItems(v, schema, {}, RefsIn(schema))
  {
    assert seq(|w|, i requires 0 <= i < |w| => Follow(w[i], table, depth))
        == seq(|v|, i requires 0 <= i < |v| => Resolve(v[i], schema, {}, RefsIn(schema)));
  }

  /** If every component inside means its definition, a rewritten part means its expansion. */
  lemma {:induction false} RewrittenMeans(j: Json, schema: Json, rank: map<Json, nat>, table: Table, depth: nat)
    requires Setting(schema, rank) && Addressed(table) && Clean(j, schema) && RefsIn(j) <= RefsIn(schema)
    requires AllMean(j, schema, table, depth)
    ensures Follow(Rewritten(j, ReferencesOf(schema)), table, depth) == ExpandPart(j, schema)
    decreases j, 2
  {
    if j.Obj? {
      var w := Rewritten(j, ReferencesOf(schema));
      forall k | k in j.fields && k != REF
        ensures RefsIn(j.fields[k]) <= RefsIn(schema)
        ensures Follow(w.fields[k], table, depth) == ExpandPart(j.fields[k], schema)
      {
        ChildRefs(j, k);
        FieldMeans(k, j.fields[k], schema, rank, table, depth);
      }
      FollowedAsExpanded(w, j, schema, table, depth);
      if REF in j.fields {
        RefKey(j);
        ReferenceExpands(j, schema, rank);
        DefinitionReferenced(schema, j.fields[REF]);
        assert w.fields[REF] == Str(Pointer(ComponentOf(schema, j.fields[REF])));
        assert Means(schema, NamedBy(j.fields[REF], schema), table, depth);
      }
    } else {
      FollowNothing(j, table, depth);
      NothingInPart(j, schema);
    }
  }

  lemma {:induction false} FieldMeans(key: string, v: Json, schema: Json, rank: map<Json, nat>, table: Table, depth: nat)
    requires Setting(schema, rank) && Addressed(table) && CleanField(key, v, schema) && RefsIn(v) <= RefsIn(schema)
    requires AllMean(v, schema, table, depth)
    ensures Follow(RewrittenField(key, v, ReferencesOf(schema)), table, depth) == ExpandPart(v, schema)
    decreases v, 3
  {
    match PlaceOf(key)
    case ByName =>
      if v.Obj? {
        NamedMean(v, RewrittenField(key, v, ReferencesOf(schema)), schema, rank, table, depth);
      } else {
        FollowNothing(v, table, depth);
        NothingInPart(v, schema);
      }
    case Single => RewrittenMeans(v, schema, rank, table, depth);
    case Listed =>
      if v.Arr? {
        ListedMean(v, RewrittenField(key, v, ReferencesOf(schema)), schema, rank, table, depth);
      } else {
        FollowNothing(v, table, depth);
        NothingInPart(v, schema);
      }
    case Verbatim =>
      FollowNothing(v, table, depth);
      NothingInPart(v, schema);
  }

  lemma {:induction false} NamedMean(v: Json, w: Json, schema: Json, rank: map<Json, nat>, table: Table, depth: nat)
    requires Setting(schema, rank) && Addressed(table) && RefsIn(v) <= RefsIn(schema)
    requires v.Obj? && REF !in v.fields && forall n :: n in v.fields ==> Clean(v.fields[n], schema)
    requires w == Obj(map n | n in v.fields :: Rewritten(v.fields[n], ReferencesOf(schema)))
    requires AllMean(v, schema, table, depth)
    ensures Follow(w, table, depth) == ExpandPart(v, schema)
    decreases v, 2
  {
    forall n | n in v.fields
      ensures RefsIn(v.fields[n]) <= RefsIn(schema)
      ensures Follow(w.fields[n], table, depth) == ExpandPart(v.fields[n], schema)
    {
      ChildRefs(v, n);
      RewrittenMeans(v.fields[n], schema, rank, table, depth);
    }
    FollowedAsExpanded(w, v, schema, table, depth);
  }

  lemma {:induction false} ListedMean(v: Json, w: Json, schema: Json, rank: map<Json, nat>, table: Table, depth: nat)
    requires Setting(schema, rank) && Addressed(table) && RefsIn(v) <= RefsIn(schema)
    requires v.Arr? && forall i :: 0 <= i < |v.items| ==> Clean(v.items[i], schema)
    requires w == Arr(seq(|v.items|, i requires 0 <= i < |v.items| => Rewritten(v.items[i], ReferencesOf(schema))))
    requires AllMean(v, schema, table, depth)
    ensures Follow(w, table, depth) == ExpandPart(v, schema)
    decreases v, 2
  {
    forall i | 0 <= i < |v.items|
      ensures RefsIn(v.items[i]) <= RefsIn(schema)
      ensures Follow(w.items[i], table, depth) == ExpandPart(v.items[i], schema)
    {
      ItemRefs(v.items, i);
      RewrittenMeans(v.items[i], schema, rank, table, depth);
    }
    ItemsFollowedAsExpanded(w.items, v.items, schema, table, depth);
  }

  // ---------- and the other way round ----------

  /** If a rewritten part can be followed to the end, so can every component inside. */
  lemma {:induction false} RewrittenEnds(j: Json, schema: Json, table: Table, depth: nat, r: Json)
    requires AllExpand(schema) && Addressed(table) && Clean(j, schema) && r in RefsIn(j) && NamesDefinition(r, schema)
    requires Follow(Rewritten(j, ReferencesOf(schema)), table, depth).Ok?
    ensures Ends(schema, NamedBy(r, schema), table, depth)
    decreases j, 2
  {
    if j.Obj? {
      var w := Rewritten(j, ReferencesOf(schema));
      if REF in j.fields && r == j.fields[REF] {
        DefinitionReferenced(schema, r);
        assert w.fields[REF] == Str(Pointer(ComponentOf(schema, r)));
      } else {
        var k :| k in j.fields && r in RefsIn(j.fields[k]);
        if k != REF {
          assert !OnlyRef(w) by {
            assert k in w.fields;
          }
          ChildFollowed(w, table, depth, k);
          FieldEnds(k, j.fields[k], schema, table, depth, r);
        }
      }
    }
  }

  lemma {:induction false} FieldEnds(key: string, v: Json, schema: Json, table: Table, depth: nat, r: Json)
    requires AllExpand(schema) && Addressed(table) && CleanField(key, v, schema) && r in RefsIn(v) && NamesDefinition(r, schema)
    requires Follow(RewrittenField(key, v, ReferencesOf(schema)), table, depth).Ok?
    ensures Ends(schema, NamedBy(r, schema), table, depth)
    decreases v, 3
  {
    match PlaceOf(key)
    case ByName =>
      if v.Obj? {
        var n :| n in v.fields && r in RefsIn(v.fields[n]);
        ChildFollowed(RewrittenField(key, v, ReferencesOf(schema)), table, depth, n);
        RewrittenEnds(v.fields[n], schema, table, depth, r);
      }
    case Single => RewrittenEnds(v, schema, table, depth, r);
    case Listed =>
      if v.Arr? {
        var i :| 0 <= i < |v.items| && r in RefsIn(v.items[i]);
        ItemFollowed(RewrittenField(key, v, ReferencesOf(schema)).items, table, depth, i);
        RewrittenEnds(v.items[i], schema, table, depth, r);
      }
    case Verbatim =>
  }

  // ---------- the final table ----------

  lemma {:induction false} DefinitionsStored(schema: Json, order: seq<string>, table: Table, name: string)
    requires AllExpand(schema) && name in order && Addressed(table) && forall n :: n in order ==> n in Definitions(schema)
    ensures Addressed(StoreDefinitions(schema, order, table))
    ensures Holds(StoreDefinitions(schema, order, table), Stored(RewrittenDefinition(schema, name)))
  {
    var n := |order| - 1;
    DefinitionsAddressed(schema, order[..n], table);
    if order[n] != name {
      DefinitionsStored(schema, order[..n], table, name);
    }
  }

  lemma {:induction false} DefinitionsAddressed(schema: Json, order: seq<string>, table: Table)
    requires AllExpand(schema) && Addressed(table) && forall n :: n in order ==> n in Definitions(schema)
    ensures Addressed(StoreDefinitions(schema, order, table))
  {
    if order != [] {
      DefinitionsAddressed(schema, order[..|order| - 1], table);
    }
  }

  lemma FinalTable(schema: Json, order: seq<string>, table: Table)
    requires AllExpand(schema) && Addressed(table) && forall n :: n in order ==> n in Definitions(schema)
    ensures Addressed(CuratedTable(schema, order, table))
    ensures Holds(CuratedTable(schema, order, table), Stored(RewrittenRest(schema)))
    ensures forall n :: n in order ==> Holds(CuratedTable(schema, order, table), Stored(RewrittenDefinition(schema, n)))
  {
    DefinitionsAddressed(schema, order, table);
    forall n | n in order
      ensures Holds(CuratedTable(schema, order, table), Stored(RewrittenDefinition(schema, n)))
    {
      DefinitionsStored(schema, order, table, n);
    }
  }

  /** In this table the component of `name` holds the last definition like it, with all that was hoisted out of it. */
  ghost predicate Serves(schema: Json, order: seq<string>, after: Table, name: string)
    requires AllExpand(schema) && Lists(order, Definitions(schema).Keys) && name in Definitions(schema)
  {
    && TargetName(schema, name) in after
    && after[TargetName(schema, name)] == Shared(RewrittenDefinition(schema, LastLike(schema, order, name)))
    && Holds(after, Stored(RewrittenDefinition(schema, LastLike(schema, order, name))))
  }

  ghost predicate ServesAll(schema: Json, order: seq<string>, after: Table)
    requires AllExpand(schema) && Lists(order, Definitions(schema).Keys)
  {
    Addressed(after) && forall n {:trigger Serves(schema, order, after, n)} :: n in Definitions(schema) ==> Serves(schema, order, after, n)
  }

  lemma FinalServes(schema: Json, order: seq<string>, table: Table)
    requires AllExpand(schema) && Addressed(table) && Lists(order, Definitions(schema).Keys)
    ensures ServesAll(schema, order, CuratedTable(schema, order, table))
    ensures Holds(CuratedTable(schema, order, table), Stored(RewrittenRest(schema)))
  {
    FinalTable(schema, order, table);
    forall n | n in Definitions(schema)
      ensures Serves(schema, order, CuratedTable(schema, order, table), n)
    {
      FinalComponent(schema, order, table, n);
    }
  }

  /** Following the component of a definition is following the last definition like it. */
  lemma ComponentFollowed(schema: Json, order: seq<string>, after: Table, name: string, depth: nat)
    requires AllExpand(schema) && Lists(order, Definitions(schema).Keys) && name in Definitions(schema)
    requires Addressed(after) && Serves(schema, order, after, name)
    ensures FollowPointer(Str(Pointer(TargetName(schema, name))), after, depth)
      == if depth == 0 then Err else Follow(RewrittenDefinition(schema, LastLike(schema, order, name)), after, depth - 1)
  {
    if depth > 0 {
      FollowShared(RewrittenDefinition(schema, LastLike(schema, order, name)), after, depth - 1);
    }
  }

  // ---------- the exact condition ----------

  /** Through `name`'s component one comes to the components that its last definition refers to, and these rank below. */
  ghost predicate RefersBelow(schema: Json, order: seq<string>, name: string, last: map<Name, nat>)
    requires AllExpand(schema) && Lists(order, Definitions(schema).Keys) && name in Definitions(schema)
  {
    && TargetName(schema, name) in last
    && forall r :: r in RefsIn(Definitions(schema)[LastLike(schema, order, name)]) && NamesDefinition(r, schema) ==>
         ComponentOf(schema, r) in last && last[ComponentOf(schema, r)] < last[TargetName(schema, name)]
  }

  /** The last definitions refer to each other without a circle, as far as their expansions tell them apart. */
  ghost predicate NoCircle(schema: Json, order: seq<string>, last: map<Name, nat>)
    requires AllExpand(schema) && Lists(order, Definitions(schema).Keys)
  {
    forall n {:trigger RefersBelow(schema, order, n, last)} :: n in Definitions(schema) ==> RefersBelow(schema, order, n, last)
  }

  lemma CleanDefinition(schema: Json, name: string)
    requires schema.Obj? && Clean(schema, schema) && name in Definitions(schema)
    ensures Clean(Definitions(schema)[name], schema)
  {
    assert CleanField(DEFS, schema.fields[DEFS], schema);
  }

  /** One component means its definition, if those that its last definition refers to do, one level deeper. */
  lemma ComponentStep(schema: Json, order: seq<string>, after: Table, rank: map<Json, nat>, name: string, depth: nat)
    requires Setting(schema, rank) && Lists(order, Definitions(schema).Keys) && name in Definitions(schema)
    requires Addressed(after) && Serves(schema, order, after, name)
    requires AllMean(Definitions(schema)[LastLike(schema, order, name)], schema, after, depth)
    ensures Means(schema, name, after, depth + 1)
  {
    var n := LastLike(schema, order, name);
    CleanDefinition(schema, n);
    DefinitionExpands(schema, n);
    RewrittenMeans(Definitions(schema)[n], schema, rank, after, depth);
    ComponentFollowed(schema, order, after, name, depth + 1);
  }

  lemma MeansDeeper(schema: Json, name: string, table: Table, depth: nat, more: nat)
    requires AllExpand(schema) && name in Definitions(schema) && Addressed(table) && Means(schema, name, table, depth) && depth <= more
    ensures Means(schema, name, table, more)
  {
    PointerDeeper(Str(Pointer(TargetName(schema, name))), table, depth, more);
  }

  lemma {:induction false} ComponentMeans(schema: Json, order: seq<string>, after: Table, rank: map<Json, nat>, last: map<Name, nat>, name: string)
    requires Setting(schema, rank) && Lists(order, Definitions(schema).Keys) && NoCircle(schema, order, last)
    requires ServesAll(schema, order, after) && name in Definitions(schema) && TargetName(schema, name) in last
    ensures Means(schema, name, after, last[TargetName(schema, name)] + 1)
    decreases last[TargetName(schema, name)]
  {
    var n, depth := LastLike(schema, order, name), last[TargetName(schema, name)];
    assert RefersBelow(schema, order, name, last) && Serves(schema, order, after, name);
    forall r | r in RefsIn(Definitions(schema)[n]) && NamesDefinition(r, schema)
      ensures Means(schema, NamedBy(r, schema), after, depth)
    {
      ComponentMeans(schema, order, after, rank, last, NamedBy(r, schema));
      MeansDeeper(schema, NamedBy(r, schema), after, last[ComponentOf(schema, r)] + 1, depth);
    }
    ComponentStep(schema, order, after, rank, name, depth);
  }

  /** Conversely, the least depth at which a component can be followed ranks it above those it refers to. */
  lemma EndsBelow(schema: Json, order: seq<string>, after: Table, name: string, depth: nat, r: Json)
    requires AllExpand(schema) && Clean(schema, schema) && Lists(order, Definitions(schema).Keys) && name in Definitions(schema)
    requires Addressed(after) && Serves(schema, order, after, name) && Ends(schema, name, after, depth)
    requires r in RefsIn(Definitions(schema)[LastLike(schema, order, name)]) && NamesDefinition(r, schema)
    ensures depth > 0 && Ends(schema, NamedBy(r, schema), after, depth - 1)
  {
    ComponentFollowed(schema, order, after, name, depth);
    DefinitionEnds(schema, LastLike(schema, order, name), after, depth - 1, r);
  }

  lemma DefinitionEnds(schema: Json, name: string, after: Table, depth: nat, r: Json)
    requires AllExpand(schema) && Clean(schema, schema) && name in Definitions(schema) && Addressed(after)
    requires Follow(RewrittenDefinition(schema, name), after, depth).Ok?
    requires r in RefsIn(Definitions(schema)[name]) && NamesDefinition(r, schema)
    ensures Ends(schema, NamedBy(r, schema), after, depth)
  {
    CleanDefinition(schema, name);
    RewrittenEnds(Definitions(schema)[name], schema, after, depth, r);
  }

  predicate NameEnds(target: Name, table: Table, depth: nat)
    requires Addressed(table)
  {
    FollowPointer(Str(Pointer(target)), table, depth).Ok?
  }

  /** The least depth at which a component can be followed to the end. */
  function Least(target: Name, table: Table, depth: nat): (least: nat)
    requires Addressed(table) && NameEnds(target, table, depth)
    ensures least <= depth && NameEnds(target, table, least) && forall d: nat :: d < least ==> !NameEnds(target, table, d)
  {
    if depth > 0 && NameEnds(target, table, depth - 1) then Least(target, table, depth - 1)
    else
      AllDeeper(target, table, depth);
      depth
  }

  lemma AllDeeper(target: Name, table: Table, depth: nat)
    requires Addressed(table)
    ensures forall d: nat :: d < depth && NameEnds(target, table, d) ==> NameEnds(target, table, depth - 1)
  {
    forall d: nat | d < depth && NameEnds(target, table, d)
      ensures NameEnds(target, table, depth - 1)
    {
      PointerDeeper(Str(Pointer(target)), table, d, depth - 1);
    }
  }

  function Targets(schema: Json): set<Name>
    requires AllExpand(schema)
  {
    set n | n in Definitions(schema) :: TargetName(schema, n)
  }

  function LeastDepths(schema: Json, after: Table, depth: nat): map<Name, nat>
    requires AllExpand(schema) && Addressed(after) && forall n :: n in Definitions(schema) ==> Ends(schema, n, after, depth)
  {
    map target | target in Targets(schema) && NameEnds(target, after, depth) :: Least(target, after, depth)
  }

  lemma LeastRanks(schema: Json, order: seq<string>, after: Table, depth: nat)
    requires AllExpand(schema) && Clean(schema, schema) && Lists(order, Definitions(schema).Keys) && ServesAll(schema, order, after)
    requires forall n :: n in Definitions(schema) ==> Ends(schema, n, after, depth)
    ensures NoCircle(schema, order, LeastDepths(schema, after, depth))
  {
    forall n | n in Definitions(schema)
      ensures RefersBelow(schema, order, n, LeastDepths(schema, after, depth))
    {
      LeastRanksOne(schema, order, after, depth, n);
    }
  }

  lemma LeastOf(schema: Json, after: Table, depth: nat, name: string)
    requires AllExpand(schema) && name in Definitions(schema) && Addressed(after)
    requires forall n :: n in Definitions(schema) ==> Ends(schema, n, after, depth)
    ensures TargetName(schema, name) in LeastDepths(schema, after, depth)
    ensures var least := LeastDepths(schema, after, depth)[TargetName(schema, name)];
      Ends(schema, name, after, least) && forall d: nat :: Ends(schema, name, after, d) ==> least <= d
  {
    assert Ends(schema, name, after, depth);
    var target := TargetName(schema, name);
    assert target in Targets(schema);
    var least := LeastDepths(schema, after, depth)[target];
    forall d: nat | Ends(schema, name, after, d)
      ensures least <= d
    {
      assert NameEnds(target, after, d);
    }
  }

  lemma LeastRanksOne(schema: Json, order: seq<string>, after: Table, depth: nat, name: string)
    requires AllExpand(schema) && Clean(schema, schema) && Lists(order, Definitions(schema).Keys) && name in Definitions(schema)
    requires Addressed(after) && Serves(schema, order, after, name)
    requires forall n :: n in Definitions(schema) ==> Ends(schema, n, after, depth)
    ensures RefersBelow(schema, order, name, LeastDepths(schema, after, depth))
  {
    var last := LeastDepths(schema, after, depth);
    LeastOf(schema, after, depth, name);
    forall r | r in RefsIn(Definitions(schema)[LastLike(schema, order, name)]) && NamesDefinition(r, schema)
      ensures ComponentOf(schema, r) in last && last[ComponentOf(schema, r)] < last[TargetName(schema, name)]
    {
      LeastOf(schema, after, depth, NamedBy(r, schema));
      EndsBelow(schema, order, after, name, last[TargetName(schema, name)], r);
    }
  }

  // ---------- the whole schema ----------

  function Rest(schema: Json): Json
    requires schema.Obj?
  {
    Obj(schema.fields - {DEFS})
  }

  lemma RestRewritten(schema: Json)
    requires AllExpand(schema)
    ensures RewrittenRest(schema) == Rewritten(Rest(schema), ReferencesOf(schema))
    ensures RefsIn(Rest(schema)) <= RefsIn(schema)
    ensures Clean(schema, schema) ==> Clean(Rest(schema), schema)
  {
    assert DEFS != REF;
    assert RewrittenRest(schema).fields == Rewritten(Rest(schema), ReferencesOf(schema)).fields;
  }

  /** A shared object is a bare pointer. */
  lemma SharedIsBare(j: Json)
    requires j.Obj?
    ensures OnlyRef(Shared(j))
  {
  }

  function AddField(j: Result<Json>, key: string, v: Json): Result<Json> {
    if j.Ok? && j.value.Obj? then Ok(Obj(j.value.fields[key := v])) else Err
  }

  function ExpandedDefinitions(schema: Json): Json
    requires AllExpand(schema)
  {
    Obj(map n | n in Definitions(schema) :: TargetName(schema, n).resolved)
  }

  /** A bare pointer beside `$defs` is followed on its own. */
  lemma PointerWithDefinitions(bare: Json, defs: Json, table: Table, depth: nat)
    requires OnlyRef(bare) && Addressed(table)
    ensures Follow(Obj(bare.fields[DEFS := defs]), table, depth)
      == if Follow(defs, table, depth).Ok? then AddField(Follow(bare, table, depth), DEFS, Follow(defs, table, depth).value) else Err
  {
    var both := Obj(bare.fields[DEFS := defs]);
    assert DEFS != REF && DEFS in both.fields && !OnlyRef(both);
    assert both.fields[REF] == bare.fields[REF];
    OnlyChild(both, DEFS, table, depth);
    var resolved, followed := FollowPointer(bare.fields[REF], table, depth), Follow(defs, table, depth);
    if resolved.Ok? && followed.Ok? && resolved.value.Obj? {
      assert resolved.value.fields + map[DEFS := followed.value] == resolved.value.fields[DEFS := followed.value];
    }
  }

  lemma OnlyChild(j: Json, key: string, table: Table, depth: nat)
    requires j.Obj? && key != REF && j.fields.Keys == {REF, key} && Addressed(table)
    ensures FollowChildren(j, table, depth) ==
      if Follow(j.fields[key], table, depth).Ok? then Ok(Obj(map[key := Follow(j.fields[key], table, depth).value])) else Err
  {
    var results := map k | k in j.fields && k != REF :: Follow(j.fields[k], table, depth);
    assert results == map[key := Follow(j.fields[key], table, depth)];
    if Follow(j.fields[key], table, depth).Ok? {
      assert FollowChildren(j, table, depth).Ok?;
      assert FollowChildren(j, table, depth).value.fields == map[key := Follow(j.fields[key], table, depth).value];
    } else {
      assert results[key].Err?;
    }
  }

  /** The children of the schema are those of the rest, and `$defs`. */
  lemma SplitChildren(schema: Json)
    requires schema.Obj? && DEFS in schema.fields
    requires RefsIn(Rest(schema)) <= RefsIn(schema) && RefsIn(schema.fields[DEFS]) <= RefsIn(schema)
    ensures ResolveChildren(schema, schema, {}, RefsIn(schema))
      == if ExpandPart(schema.fields[DEFS], schema).Ok?
         then AddField(ResolveChildren(Rest(schema), schema, {}, RefsIn(schema)), DEFS, ExpandPart(schema.fields[DEFS], schema).value) else Err
  {
    var all := RefsIn(schema);
    var results := map k | k in schema.fields && k != REF :: Resolve(schema.fields[k], schema, {}, all);
    var fewer := map k | k in Rest(schema).fields && k != REF :: Resolve(Rest(schema).fields[k], schema, {}, all);
    assert DEFS != REF && results[DEFS] == ExpandPart(schema.fields[DEFS], schema);
    assert results == fewer[DEFS := results[DEFS]];
    SplitResults(fewer, DEFS, results[DEFS]);
  }

  function Collected(results: map<string, Result<Json>>): Result<Json> {
    if exists k :: k in results && results[k].Err? then Err
    else Ok(Obj(map k | k in results && results[k].Ok? :: results[k].value))
  }

  lemma SplitResults(fewer: map<string, Result<Json>>, key: string, r: Result<Json>)
    requires key !in fewer
    ensures Collected(fewer[key := r]) == if r.Ok? then AddField(Collected(fewer), key, r.value) else Err
  {
    var results := fewer[key := r];
    assert results[key] == r && forall k :: k in fewer ==> results[k] == fewer[k];
    if r.Ok? && Collected(fewer).Ok? {
      assert Collected(results).Ok?;
      assert Collected(results).value.fields == Collected(fewer).value.fields[key := r.value];
    }
  }

  /** A field that is added to the children is added to whatever they are merged over. */
  lemma MergedLater(schema: Json, a: Json, defs: Result<Json>)
    requires schema.Obj? && RefsIn(Rest(schema)) <= RefsIn(schema)
    ensures var rest := ResolveChildren(Rest(schema), schema, {}, RefsIn(schema));
      rest.Ok? ==> rest.value.Obj? && (defs.Ok? ==>
        && AddField(rest, DEFS, defs.value).Ok?
        && Merge(a, AddField(rest, DEFS, defs.value).value) == AddField(Merge(a, rest.value), DEFS, defs.value))
    ensures OnlyRef(Rest(schema)) ==> ResolveChildren(Rest(schema), schema, {}, RefsIn(schema)) == Ok(Obj(map[]))
    ensures Merge(a, Obj(map[])) == if a.Obj? then Ok(a) else Err
  {
    var rest := ResolveChildren(Rest(schema), schema, {}, RefsIn(schema));
    if a.Obj? {
      assert a.fields + map[] == a.fields;
      if rest.Ok? && defs.Ok? {
        assert a.fields + rest.value.fields[DEFS := defs.value] == (a.fields + rest.value.fields)[DEFS := defs.value];
      }
    }
    if OnlyRef(Rest(schema)) {
      assert rest.Ok?;
      assert rest.value.fields == map[];
    }
  }

  /** `$defs` beside the rest is expanded on its own. */
  lemma RestWithDefinitions(schema: Json, rank: map<Json, nat>)
    requires Setting(schema, rank) && DEFS in schema.fields
    ensures RefsIn(Rest(schema)) <= RefsIn(schema) && RefsIn(schema.fields[DEFS]) <= RefsIn(schema)
    ensures ExpandPart(schema, schema)
      == if ExpandPart(schema.fields[DEFS], schema).Ok?
         then AddField(ExpandPart(Rest(schema), schema), DEFS, ExpandPart(schema.fields[DEFS], schema).value) else Err
  {
    RestRewritten(schema);
    ChildRefs(schema, DEFS);
    SplitChildren(schema);
    assert !OnlyRef(schema) by {
      assert DEFS in schema.fields && DEFS != REF;
    }
    if REF in schema.fields {
      ReferenceExpands(schema, schema, rank);
      assert Rest(schema).fields[REF] == schema.fields[REF];
      ReferenceExpands(Rest(schema), schema, rank);
      MergedLater(schema, ComponentOf(schema, schema.fields[REF]).resolved, ExpandPart(schema.fields[DEFS], schema));
    }
  }

  lemma DefinitionsExpand(schema: Json)
    requires AllExpand(schema) && Clean(schema, schema) && Definitions(schema) != map[]
    ensures DEFS in schema.fields && RefsIn(schema.fields[DEFS]) <= RefsIn(schema)
    ensures ExpandPart(schema.fields[DEFS], schema) == Ok(ExpandedDefinitions(schema))
  {
    var defs := schema.fields[DEFS];
    assert CleanField(DEFS, defs, schema);
    ChildRefs(schema, DEFS);
    forall n | n in defs.fields
      ensures RefsIn(defs.fields[n]) <= RefsIn(schema)
      ensures ExpandPart(defs.fields[n], schema) == Ok(ExpandedDefinitions(schema).fields[n])
    {
      DefinitionExpands(schema, n);
    }
    ExpandedByName(defs, ExpandedDefinitions(schema), schema);
  }

  lemma ExpandedByName(j: Json, expanded: Json, schema: Json)
    requires j.Obj? && expanded.Obj? && REF !in j.fields && j.fields.Keys == expanded.fields.Keys && RefsIn(j) <= RefsIn(schema)
    requires forall n :: n in j.fields ==>
      RefsIn(j.fields[n]) <= RefsIn(schema) && ExpandPart(j.fields[n], schema) == Ok(expanded.fields[n])
    ensures ExpandPart(j, schema) == Ok(expanded)
  {
    var all := ResolveChildren(j, schema, {}, RefsIn(schema));
    assert all.Ok?;
    assert all.value.fields == expanded.fields;
  }

  function PublishedDefinitions(schema: Json): Json
    requires AllExpand(schema)
  {
    Obj(map n | n in Definitions(schema) :: Link(TargetName(schema, n)))
  }

  lemma DefinitionsFollowed(schema: Json, after: Table, depth: nat)
    requires AllExpand(schema) && Clean(schema, schema) && Definitions(schema) != map[] && Addressed(after)
    requires forall n :: n in Definitions(schema) ==> Means(schema, n, after, depth)
    ensures Follow(PublishedDefinitions(schema), after, depth) == Ok(ExpandedDefinitions(schema))
  {
    var defs := PublishedDefinitions(schema);
    assert CleanField(DEFS, schema.fields[DEFS], schema);
    forall n | n in defs.fields
      ensures Follow(defs.fields[n], after, depth) == Ok(ExpandedDefinitions(schema).fields[n])
    {
      FollowLink(TargetName(schema, n), after, depth);
      assert Means(schema, n, after, depth);
    }
    FollowedByName(defs, ExpandedDefinitions(schema), after, depth);
  }

  lemma FollowedByName(j: Json, followed: Json, after: Table, depth: nat)
    requires j.Obj? && followed.Obj? && REF !in j.fields && j.fields.Keys == followed.fields.Keys && Addressed(after)
    requires forall n :: n in j.fields ==> Follow(j.fields[n], after, depth) == Ok(followed.fields[n])
    ensures Follow(j, after, depth) == Ok(followed)
  {
    assert FollowChildren(j, after, depth).Ok?;
    assert FollowChildren(j, after, depth).value.fields == followed.fields;
  }

  lemma DefinitionsEnd(schema: Json, after: Table, depth: nat, name: string)
    requires AllExpand(schema) && Clean(schema, schema) && name in Definitions(schema) && Addressed(after)
    requires Follow(PublishedDefinitions(schema), after, depth).Ok?
    ensures Ends(schema, name, after, depth)
  {
    var defs := PublishedDefinitions(schema);
    assert CleanField(DEFS, schema.fields[DEFS], schema);
    ChildFollowed(defs, after, depth, name);
    FollowLink(TargetName(schema, name), after, depth);
  }

  lemma RestMeans(schema: Json, rank: map<Json, nat>, after: Table, depth: nat)
    requires Setting(schema, rank) && Addressed(after) && Holds(after, Stored(RewrittenRest(schema)))
    requires forall n :: n in Definitions(schema) ==> Means(schema, n, after, depth)
    ensures RefsIn(Rest(schema)) <= RefsIn(schema)
    ensures Follow(Shared(RewrittenRest(schema)), after, depth) == ExpandPart(Rest(schema), schema)
  {
    RestRewritten(schema);
    RewrittenMeans(Rest(schema), schema, rank, after, depth);
    FollowShared(RewrittenRest(schema), after, depth);
  }

  /** If every component means its definition, the published schema means the schema. */
  lemma CuratedFollowed(schema: Json, rank: map<Json, nat>, after: Table, depth: nat)
    requires Setting(schema, rank) && Definitions(schema) != map[]
    requires Addressed(after) && Holds(after, Stored(RewrittenRest(schema)))
    requires forall n :: n in Definitions(schema) ==> Means(schema, n, after, depth)
    ensures Follow(CuratedValue(schema), after, depth) == ExpandPart(schema, schema)
  {
    RestMeans(schema, rank, after, depth);
    DefinitionsExpand(schema);
    DefinitionsFollowed(schema, after, depth);
    RestWithDefinitions(schema, rank);
    SharedIsBare(RewrittenRest(schema));
    PointerWithDefinitions(Shared(RewrittenRest(schema)), PublishedDefinitions(schema), after, depth);
  }

  lemma CuratedEnds(schema: Json, after: Table, depth: nat, name: string)
    requires AllExpand(schema) && Clean(schema, schema) && name in Definitions(schema) && Addressed(after)
    requires Follow(CuratedValue(schema), after, depth).Ok?
    ensures Ends(schema, name, after, depth)
  {
    SharedIsBare(RewrittenRest(schema));
    PointerWithDefinitions(Shared(RewrittenRest(schema)), PublishedDefinitions(schema), after, depth);
    DefinitionsEnd(schema, after, depth, name);
  }

  ghost function Highest(last: map<Name, nat>, targets: set<Name>): (bound: nat)
    requires targets <= last.Keys
    ensures forall t :: t in targets ==> last[t] <= bound
  {
    if targets == {} then 0
    else
      var t :| t in targets;
      var rest := Highest(last, targets - {t});
      if last[t] < rest then rest else last[t]
  }

  /** The published schema followed through the final table. */
  function Published(schema: Json, order: seq<string>, table: Table, depth: nat): Result<Json>
    requires AllExpand(schema) && Addressed(table) && Lists(order, Definitions(schema).Keys)
  {
    FinalTable(schema, order, table);
    Follow(CuratedValue(schema), CuratedTable(schema, order, table), depth)
  }

  lemma WholeExpands(schema: Json)
    ensures Expand(schema, schema) == ExpandPart(schema, schema)
  {
    assert RefsIn(schema) + RefsIn(schema) == RefsIn(schema);
  }

  lemma MeansAtTheTop(schema: Json, order: seq<string>, after: Table, rank: map<Json, nat>, last: map<Name, nat>, name: string, depth: nat)
    requires Setting(schema, rank) && Lists(order, Definitions(schema).Keys) && NoCircle(schema, order, last)
    requires ServesAll(schema, order, after) && name in Definitions(schema)
    requires TargetName(schema, name) in last && last[TargetName(schema, name)] < depth
    ensures Means(schema, name, after, depth)
  {
    ComponentMeans(schema, order, after, rank, last, name);
    MeansDeeper(schema, name, after, last[TargetName(schema, name)] + 1, depth);
  }

  lemma RankBelow(schema: Json, last: map<Name, nat>, name: string, depth: nat)
    requires AllExpand(schema) && name in Definitions(schema) && Targets(schema) <= last.Keys && Highest(last, Targets(schema)) < depth
    ensures TargetName(schema, name) in last && last[TargetName(schema, name)] < depth
  {
    assert TargetName(schema, name) in Targets(schema);
  }

  lemma NoCircleMeans(schema: Json, order: seq<string>, table: Table, rank: map<Json, nat>, last: map<Name, nat>, depth: nat)
    requires Setting(schema, rank) && Addressed(table) && Lists(order, Definitions(schema).Keys) && Definitions(schema) != map[]
    requires NoCircle(schema, order, last) && Targets(schema) <= last.Keys && Highest(last, Targets(schema)) < depth
    ensures Published(schema, order, table, depth) == Expand(schema, schema)
  {
    var after := CuratedTable(schema, order, table);
    FinalServes(schema, order, table);
    forall n | n in Definitions(schema)
      ensures Means(schema, n, after, depth)
    {
      RankBelow(schema, last, n, depth);
      MeansAtTheTop(schema, order, after, rank, last, n, depth);
    }
    CuratedFollowed(schema, rank, after, depth);
    WholeExpands(schema);
  }

  lemma RanksAll(schema: Json, order: seq<string>, last: map<Name, nat>)
    requires AllExpand(schema) && Lists(order, Definitions(schema).Keys) && NoCircle(schema, order, last)
    ensures Targets(schema) <= last.Keys
  {
    forall t | t in Targets(schema)
      ensures t in last
    {
      var n :| n in Definitions(schema) && t == TargetName(schema, n);
      assert RefersBelow(schema, order, n, last);
    }
  }

  lemma EndMeansNoCircle(schema: Json, order: seq<string>, table: Table, depth: nat) returns (last: map<Name, nat>)
    requires AllExpand(schema) && Clean(schema, schema) && Addressed(table) && Lists(order, Definitions(schema).Keys)
    requires Published(schema, order, table, depth).Ok?
    ensures NoCircle(schema, order, last)
  {
    var after := CuratedTable(schema, order, table);
    FinalServes(schema, order, table);
    forall n | n in Definitions(schema)
      ensures Ends(schema, n, after, depth)
    {
      CuratedEnds(schema, after, depth, n);
    }
    LeastRanks(schema, order, after, depth);
    last := LeastDepths(schema, after, depth);
  }

  /**
   For every schema without circular references, whatever else the table holds: the
   published schema, followed through the final table, is the expansion of the
   schema if and only if the last definitions refer to each other without a circle.
   */
  lemma CuratedMeansExactly(schema: Json, order: seq<string>, table: Table, rank: map<Json, nat>)
    requires Setting(schema, rank) && Addressed(table) && Lists(order, Definitions(schema).Keys)
    requires Definitions(schema) != map[] && Expand(schema, schema).Ok?
    ensures (exists depth :: Published(schema, order, table, depth) == Expand(schema, schema))
      <==> exists last :: NoCircle(schema, order, last)
  {
    if last :| NoCircle(schema, order, last) {
      RanksAll(schema, order, last);
      NoCircleMeans(schema, order, table, rank, last, Highest(last, Targets(schema)) + 1);
    }
    if depth :| Published(schema, order, table, depth) == Expand(schema, schema) {
      var last := EndMeansNoCircle(schema, order, table, depth);
    }
  }

  /** It never means anything else: what can be followed to the end is the expansion. */
  lemma NothingElseIsMeant(schema: Json, order: seq<string>, table: Table, rank: map<Json, nat>, depth: nat)
    requires Setting(schema, rank) && Addressed(table) && Lists(order, Definitions(schema).Keys) && Definitions(schema) != map[]
    requires Published(schema, order, table, depth).Ok?
    ensures Published(schema, order, table, depth) == Expand(schema, schema)
  {
    var last := EndMeansNoCircle(schema, order, table, depth);
    RanksAll(schema, order, last);
    var deeper := depth + Highest(last, Targets(schema)) + 1;
    NoCircleMeans(schema, order, table, rank, last, deeper);
    FinalTable(schema, order, table);
    MoreDepth(CuratedValue(schema), CuratedTable(schema, order, table), depth, deeper);
  }

  /** A component that its last definition turned into a pointer to itself cannot be followed. */
  lemma AliasIsCircle(schema: Json, order: seq<string>, rank: map<Json, nat>, last: map<Name, nat>, name: string)
    requires Setting(schema, rank) && Lists(order, Definitions(schema).Keys) && name in Definitions(schema)
    requires OnlyRef(Definitions(schema)[LastLike(schema, order, name)])
    ensures !NoCircle(schema, order, last)
  {
    var d := Definitions(schema)[LastLike(schema, order, name)];
    BareExpands(schema, rank, LastLike(schema, order, name));
    if NoCircle(schema, order, last) {
      assert RefersBelow(schema, order, name, last);
      RefKey(d);
    }
  }

  /** A bare reference expands like the definition it names. */
  lemma BareExpands(schema: Json, rank: map<Json, nat>, name: string)
    requires Setting(schema, rank) && name in Definitions(schema) && OnlyRef(Definitions(schema)[name])
    ensures var r := Definitions(schema)[name].fields[REF];
      NamesDefinition(r, schema) && ComponentOf(schema, r) == TargetName(schema, name)
  {
    CleanDefinition(schema, name);
    DefinitionExpands(schema, name);
    ReferenceExpands(Definitions(schema)[name], schema, rank);
  }

  /** Without definitions the schema is published as it is, except that an empty `$defs` is dropped. */
  lemma NoDefinitionsExactly(schema: Json, order: seq<string>, table: Table, rank: map<Json, nat>, depth: nat)
    requires Setting(schema, rank) && Addressed(table) && Lists(order, Definitions(schema).Keys) && Definitions(schema) == map[]
    ensures Published(schema, order, table, depth) == Ok(Rest(schema)) && Expand(schema, schema) == Ok(schema)
    ensures Published(schema, order, table, depth) == Expand(schema, schema) <==> DEFS !in schema.fields
  {
    FinalServes(schema, order, table);
    RestMeans(schema, rank, CuratedTable(schema, order, table), depth);
    NoReferences(schema);
    NothingInPart(schema, schema);
    NothingInPart(Rest(schema), schema);
    WholeExpands(schema);
    if DEFS !in schema.fields {
      assert Rest(schema).fields == schema.fields;
    }
  }

  lemma NoReferences(schema: Json)
    requires schema.Obj? && Clean(schema, schema) && Definitions(schema) == map[] && RefsIn(Rest(schema)) <= RefsIn(schema)
    ensures NoRefs(schema) && NoRefs(Rest(schema))
  {
    forall r | r in RefsIn(schema)
      ensures false
    {
      CleanRefs(schema, schema, r);
    }
  }
}
