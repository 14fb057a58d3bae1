/** Schemas whose references stand alone: the published schema means the schema unless an alias comes last. */
module SchemaMeaningBare {
  import opened Common
  import opened SchemaJson
  import opened SchemaRefs
  import opened SchemaRefTheorems
  import opened SchemaHoist
  import opened SchemaCurated
  import opened SchemaMeaning
  import opened SchemaMeaningTheorems

  // ---------- heights ----------

  predicate HeightAtMost(j: Json, n: nat) {
    n > 0
    && (j.Obj? ==> forall k :: k in j.fields ==> HeightAtMost(j.fields[k], n - 1))
    && (j.Arr? ==> forall i :: 0 <= i < |j.items| ==> HeightAtMost(j.items[i], n - 1))
  }

  lemma {:induction false} Higher(j: Json, n: nat, m: nat)
    requires HeightAtMost(j, n) && n <= m
    ensures HeightAtMost(j, m)
    decreases n
  {
    match j
    case Obj(fields) =>
      forall k | k in fields
        ensures HeightAtMost(fields[k], m - 1)
      {
        Higher(fields[k], n - 1, m - 1);
      }
    case Arr(items) =>
      forall i | 0 <= i < |items|
        ensures HeightAtMost(items[i], m - 1)
      {
        Higher(items[i], n - 1, m - 1);
      }
    case _ =>
  }

  /** Every value is of some height. */
  lemma {:induction false} HasHeight(j: Json) returns (n: nat)
    ensures HeightAtMost(j, n)
    decreases j, 1
  {
    match j
    case Obj(fields) =>
      n := FieldsHeight(j, fields.Keys);
      n := n + 1;
    case Arr(items) =>
      n := ItemsHeight(items, |items|);
      n := n + 1;
    case _ => n := 1;
  }

  lemma {:induction false} FieldsHeight(j: Json, some: set<string>) returns (n: nat)
    requires j.Obj? && some <= j.fields.Keys
    ensures forall k :: k in some ==> HeightAtMost(j.fields[k], n)
    decreases j, 0, some
  {
    n := 0;
    if some != {} {
      var k :| k in some;
      assert j.fields[k] < j;
      var one := HasHeight(j.fields[k]);
      var rest := FieldsHeight(j, some - {k});
      n := if one < rest then rest else one;
      forall x | x in some
        ensures HeightAtMost(j.fields[x], n)
      {
        Higher(j.fields[x], if x == k then one else rest, n);
      }
    }
  }

  lemma {:induction false} ItemsHeight(items: seq<Json>, count: nat) returns (n: nat)
    requires count <= |items|
    ensures forall i :: 0 <= i < count ==> HeightAtMost(items[i], n)
    decreases items, 0, count
  {
    n := 0;
    if count > 0 {
      var one := HasHeight(items[count - 1]);
      var rest := ItemsHeight(items, count - 1);
      n := if one < rest then rest else one;
      forall i | 0 <= i < count
        ensures HeightAtMost(items[i], n)
      {
        Higher(items[i], if i == count - 1 then one else rest, n);
      }
    }
  }

  ghost predicate IsHeight(j: Json, n: nat) {
    HeightAtMost(j, n) && forall m: nat :: HeightAtMost(j, m) ==> n <= m
  }

  lemma {:induction false} LeastHeight(j: Json, n: nat) returns (least: nat)
    requires HeightAtMost(j, n)
    ensures IsHeight(j, least)
  {
    if n > 0 && HeightAtMost(j, n - 1) {
      least := LeastHeight(j, n - 1);
    } else {
      least := n;
      forall m: nat | HeightAtMost(j, m)
        ensures n <= m
      {
        if m < n {
          Higher(j, m, n - 1);
        }
      }
    }
  }

  lemma SomeHeight(j: Json)
    ensures exists n :: IsHeight(j, n)
  {
    var n := HasHeight(j);
    var least := LeastHeight(j, n);
  }

  ghost function Height(j: Json): (n: nat)
    ensures IsHeight(j, n)
  {
    SomeHeight(j);
    var n :| IsHeight(j, n);
    n
  }

  // ---------- references that stand alone ----------

  /** No `$ref` has keywords beside it. */
  predicate Bare(j: Json)
    decreases j
  {
    match j
    case Obj(fields) => (REF in fields ==> OnlyRef(j)) && forall k :: k in fields ==> Bare(fields[k])
    case Arr(items) => forall i :: 0 <= i < |items| ==> Bare(items[i])
    case _ => true
  }

  lemma ResolvedItem(items: seq<Json>, schema: Json, i: nat)
    requires i < |items| && RefsIn(Arr(items)) <= RefsIn(schema) && RefsIn(items[i]) <= RefsIn(schema)
    requires ExpandPart(Arr(items), schema).Ok?
    ensures ExpandPart(items[i], schema).Ok?
    ensures ExpandPart(Arr(items), schema).value.Arr? && i < |ExpandPart(Arr(items), schema).value.items|
    ensures ExpandPart(Arr(items), schema).value.items[i] == ExpandPart(items[i], schema).value
  {
    var all := RefsIn(schema);
    forall x | 0 <= x < |items|
      ensures RefsIn(items[x]) <= all
    {
      ItemRefs(items, x);
    }
    assert ExpandPart(Arr(items), schema) == ResolveItems(items, schema, {}, all);
    assert seq(|items|, x requires 0 <= x < |items| => Resolve(items[x], schema, {}, all))[i] == Resolve(items[i], schema, {}, all);
  }

  lemma ResolvedChild(j: Json, schema: Json, k: string)
    requires j.Obj? && REF !in j.fields && k in j.fields && RefsIn(j) <= RefsIn(schema) && RefsIn(j.fields[k]) <= RefsIn(schema)
    requires ExpandPart(j, schema).Ok?
    ensures ExpandPart(j.fields[k], schema).Ok?
    ensures ExpandPart(j, schema).value.Obj? && k in ExpandPart(j, schema).value.fields
    ensures ExpandPart(j, schema).value.fields[k] == ExpandPart(j.fields[k], schema).value
  {
    var results := map x | x in j.fields && x != REF :: Resolve(j.fields[x], schema, {}, RefsIn(schema));
    assert ExpandPart(j, schema) == ResolveChildren(j, schema, {}, RefsIn(schema));
    assert results[k] == ExpandPart(j.fields[k], schema);
  }

  lemma OnlyOneRef(j: Json, r: Json)
    requires OnlyRef(j) && j.fields[REF].Str? && r in RefsIn(j)
    ensures r == j.fields[REF]
  {
  }

  lemma RefsNameDefinitions(schema: Json)
    requires schema.Obj? && Clean(schema, schema)
    ensures forall r :: r in RefsIn(schema) ==> NamesDefinition(r, schema)
  {
    forall r | r in RefsIn(schema)
      ensures NamesDefinition(r, schema)
    {
      CleanRefs(schema, schema, r);
    }
  }

  /** The expansion of a reference that stands alone is part of the expansion around it. */
  lemma {:induction false} PartIsLower(j: Json, schema: Json, rank: map<Json, nat>, r: Json, n: nat)
    requires Setting(schema, rank) && RefsIn(j) <= RefsIn(schema) && Bare(j) && r in RefsIn(j) && NamesDefinition(r, schema)
    requires ExpandPart(j, schema).Ok? && HeightAtMost(ExpandPart(j, schema).value, n)
    requires forall q :: q in RefsIn(schema) ==> NamesDefinition(q, schema)
    ensures HeightAtMost(ComponentOf(schema, r).resolved, n)
    ensures !OnlyRef(j) ==> n > 0 && HeightAtMost(ComponentOf(schema, r).resolved, n - 1)
    decreases j, 1
  {
    match j
    case Arr(items) => PartOfItems(items, schema, rank, r, n);
    case Obj(fields) =>
      if REF in fields {
        RefKey(j);
        OnlyOneRef(j, r);
        ReferenceExpands(j, schema, rank);
      } else {
        PartOfFields(j, schema, rank, r, n);
      }
    case _ =>
  }

  lemma {:induction false} PartOfItems(items: seq<Json>, schema: Json, rank: map<Json, nat>, r: Json, n: nat)
    requires Setting(schema, rank) && RefsIn(Arr(items)) <= RefsIn(schema) && Bare(Arr(items)) && r in RefsIn(Arr(items)) && NamesDefinition(r, schema)
    requires ExpandPart(Arr(items), schema).Ok? && HeightAtMost(ExpandPart(Arr(items), schema).value, n)
    requires forall q :: q in RefsIn(schema) ==> NamesDefinition(q, schema)
    ensures n > 0 && HeightAtMost(ComponentOf(schema, r).resolved, n - 1) && HeightAtMost(ComponentOf(schema, r).resolved, n)
    decreases items
  {
    var i :| 0 <= i < |items| && r in RefsIn(items[i]);
    ItemRefs(items, i);
    ResolvedItem(items, schema, i);
    PartIsLower(items[i], schema, rank, r, n - 1);
    Higher(ComponentOf(schema, r).resolved, n - 1, n);
  }

  lemma {:induction false} PartOfFields(j: Json, schema: Json, rank: map<Json, nat>, r: Json, n: nat)
    requires Setting(schema, rank) && RefsIn(j) <= RefsIn(schema) && Bare(j) && r in RefsIn(j) && NamesDefinition(r, schema)
    requires j.Obj? && REF !in j.fields
    requires ExpandPart(j, schema).Ok? && HeightAtMost(ExpandPart(j, schema).value, n)
    requires forall q :: q in RefsIn(schema) ==> NamesDefinition(q, schema)
    ensures n > 0 && HeightAtMost(ComponentOf(schema, r).resolved, n - 1) && HeightAtMost(ComponentOf(schema, r).resolved, n)
    decreases j, 0
  {
    var k :| k in j.fields && r in RefsIn(j.fields[k]);
    ChildRefs(j, k);
    ResolvedChild(j, schema, k);
    PartIsLower(j.fields[k], schema, rank, r, n - 1);
    Higher(ComponentOf(schema, r).resolved, n - 1, n);
  }

  /** Components ranked by the height of what they stand for. */
  ghost function Heights(schema: Json): map<Name, nat>
    requires AllExpand(schema)
  {
    map t | t in Targets(schema) && t.DefinitionName? :: Height(t.resolved)
  }

  lemma RanksBelow(schema: Json, rank: map<Json, nat>, name: string, r: Json)
    requires Setting(schema, rank) && Bare(schema) && name in Definitions(schema) && !OnlyRef(Definitions(schema)[name])
    requires r in RefsIn(Definitions(schema)[name]) && NamesDefinition(r, schema)
    ensures Height(ComponentOf(schema, r).resolved) < Height(TargetName(schema, name).resolved)
  {
    DefinitionExpands(schema, name);
    RefsNameDefinitions(schema);
    PartIsLower(Definitions(schema)[name], schema, rank, r, Height(TargetName(schema, name).resolved));
  }

  lemma RankIsHeight(schema: Json, name: string)
    requires AllExpand(schema) && name in Definitions(schema)
    ensures TargetName(schema, name) in Heights(schema)
    ensures Heights(schema)[TargetName(schema, name)] == Height(TargetName(schema, name).resolved)
  {
    assert TargetName(schema, name) in Targets(schema);
  }

  lemma NoAliasRanks(schema: Json, order: seq<string>, rank: map<Json, nat>, name: string)
    requires Setting(schema, rank) && Bare(schema) && Lists(order, Definitions(schema).Keys) && name in Definitions(schema)
    requires !AliasLast(schema, order, name)
    ensures RefersBelow(schema, order, name, Heights(schema))
  {
    var n, last := LastLike(schema, order, name), Heights(schema);
    RankIsHeight(schema, name);
    forall r | r in RefsIn(Definitions(schema)[n]) && NamesDefinition(r, schema)
      ensures ComponentOf(schema, r) in last && last[ComponentOf(schema, r)] < last[TargetName(schema, name)]
    {
      RankIsHeight(schema, NamedBy(r, schema));
      RanksBelow(schema, rank, n, r);
    }
  }

  lemma HeightsRank(schema: Json, order: seq<string>, rank: map<Json, nat>)
    requires Setting(schema, rank) && Bare(schema) && Lists(order, Definitions(schema).Keys) && NoAliasLast(schema, order)
    ensures NoCircle(schema, order, Heights(schema))
  {
    forall n | n in Definitions(schema)
      ensures RefersBelow(schema, order, n, Heights(schema))
    {
      assert !AliasLast(schema, order, n);
      NoAliasRanks(schema, order, rank, n);
    }
  }

  lemma NoCircleIffNoAlias(schema: Json, order: seq<string>, rank: map<Json, nat>)
    requires Setting(schema, rank) && Bare(schema) && Lists(order, Definitions(schema).Keys)
    ensures (exists last :: NoCircle(schema, order, last)) <==> NoAliasLast(schema, order)
  {
    if NoAliasLast(schema, order) {
      HeightsRank(schema, order, rank);
    } else {
      var n :| n in Definitions(schema) && AliasLast(schema, order, n);
      forall last: map<Name, nat>
        ensures !NoCircle(schema, order, last)
      {
        AliasIsCircle(schema, order, rank, last, n);
      }
    }
  }

  /** The last definition that expands like `name` is a bare reference. */
  predicate AliasLast(schema: Json, order: seq<string>, name: string)
    requires AllExpand(schema) && Lists(order, Definitions(schema).Keys) && name in Definitions(schema)
  {
    OnlyRef(Definitions(schema)[LastLike(schema, order, name)])
  }

  predicate NoAliasLast(schema: Json, order: seq<string>)
    requires AllExpand(schema) && Lists(order, Definitions(schema).Keys)
  {
    forall n {:trigger AliasLast(schema, order, n)} :: n in Definitions(schema) ==> !AliasLast(schema, order, n)
  }

  /**
   If all references stand alone: the published schema means the schema if and only
   if no expansion has a bare reference as the last of its definitions.
   */
  lemma BareMeansExactly(schema: Json, order: seq<string>, table: Table, rank: map<Json, nat>)
    requires Setting(schema, rank) && Bare(schema) && Addressed(table) && Lists(order, Definitions(schema).Keys)
    requires Definitions(schema) != map[] && Expand(schema, schema).Ok?
    ensures (exists depth :: Published(schema, order, table, depth) == Expand(schema, schema))
      <==> NoAliasLast(schema, order)
  {
    CuratedMeansExactly(schema, order, table, rank);
    NoCircleIffNoAlias(schema, order, rank);
  }

  // ---------- the alias once more ----------

  lemma AliasedRefs()
    ensures RefsIn(ALIASED) == {ALIAS.fields[REF]} && NoRefs(INTEGER)
  {
    NoReferenceInInteger();
    var defs := ALIASED.fields[DEFS];
    assert RefsIn(ALIAS) == {ALIAS.fields[REF]};
    assert defs.fields["A"] == ALIAS && defs.fields["B"] == INTEGER && defs.fields.Keys == {"A", "B"};
    assert REF !in defs.fields && REF !in ALIASED.fields;
    ChildRefs(defs, "A");
    forall r | r in RefsIn(defs)
      ensures r == ALIAS.fields[REF]
    {
      var k :| k in defs.fields && r in RefsIn(defs.fields[k]);
    }
    ChildRefs(ALIASED, DEFS);
    forall r | r in RefsIn(ALIASED)
      ensures r == ALIAS.fields[REF]
    {
      var k :| k in ALIASED.fields && r in RefsIn(ALIASED.fields[k]);
      assert k == DEFS;
    }
  }

  const NO_RANKS: map<Json, nat> := map[ALIAS.fields[REF] := 0]

  lemma AliasedParts()
    ensures var defs := ALIASED.fields[DEFS];
      defs.fields["A"] == ALIAS && defs.fields["B"] == INTEGER && defs.fields.Keys == {"A", "B"} && REF !in defs.fields
    ensures ALIASED.fields.Keys == {DEFS} && INTEGER.fields.Keys == {"type"} && ALIAS.fields.Keys == {REF}
    ensures PlaceOf("type") == Verbatim && PlaceOf(DEFS) == ByName && NamesDefinition(ALIAS.fields[REF], ALIASED)
    ensures NoRefs(INTEGER) && REF !in ALIASED.fields && NoRefs(INTEGER.fields["type"])
  {
    NoReferenceInInteger();
    assert ALIAS.fields[REF].text.text == DEFS_POINTER + "B";
  }

  lemma AliasedCurates()
    ensures AllExpand(ALIASED) && Curatable(ALIASED)
  {
    AliasedExpands();
    AliasedParts();
    var refs := ReferencesOf(ALIASED);
    DefinitionReferenced(ALIASED, ALIAS.fields[REF]);
    assert Rewritable(ALIAS, refs) && Rewritable(INTEGER, refs);
    assert RewritableField(DEFS, ALIASED.fields[DEFS], refs);
  }

  lemma AliasedClean()
    ensures Clean(ALIASED, ALIASED)
  {
    AliasedParts();
    assert Clean(ALIAS, ALIASED);
    assert CleanField("type", INTEGER.fields["type"], ALIASED);
    assert Clean(INTEGER, ALIASED);
    assert CleanField(DEFS, ALIASED.fields[DEFS], ALIASED);
  }

  lemma AliasedBare()
    ensures Bare(ALIASED)
  {
    AliasedParts();
    assert Bare(ALIAS) && Bare(INTEGER);
    assert Bare(ALIASED.fields[DEFS]);
  }

  lemma AliasedSetting()
    ensures Setting(ALIASED, NO_RANKS)
  {
    AliasedCurates();
    AliasedClean();
    AliasedRefs();
    assert ALIAS.fields[REF].text.text == DEFS_POINTER + "B";
    DefinitionFound(ALIASED, ALIAS.fields[REF]);
  }

  lemma AliasedWhole()
    ensures Expand(ALIASED, ALIASED).Ok? && Definitions(ALIASED) != map[]
  {
    AliasedCurates();
    AliasedClean();
    assert "A" in Definitions(ALIASED);
    DefinitionsExpand(ALIASED);
    WholeExpands(ALIASED);
    AliasedSetting();
    RestWithDefinitions(ALIASED, NO_RANKS);
    assert Rest(ALIASED).fields == map[];
    NothingInPart(Rest(ALIASED), ALIASED);
  }

  lemma AliasedOrders()
    ensures AllExpand(ALIASED) && Lists(["B", "A"], Definitions(ALIASED).Keys) && Lists(["A", "B"], Definitions(ALIASED).Keys)
    ensures !NoAliasLast(ALIASED, ["B", "A"]) && NoAliasLast(ALIASED, ["A", "B"])
  {
    AliasedExpands();
    assert ["A", "B"][0] == "A" && ["A", "B"][1] == "B";
    assert forall n :: n in Definitions(ALIASED) ==> n == "A" || n == "B";
    assert AliasLast(ALIASED, ["B", "A"], "B");
    assert !AliasLast(ALIASED, ["A", "B"], "A") && !AliasLast(ALIASED, ["A", "B"], "B");
  }

  /** The order of the definitions decides: with the alias last the meaning is lost, with the alias first it is kept. */
  lemma OrderDecides(table: Table)
    requires Addressed(table)
    ensures AllExpand(ALIASED) && Lists(["B", "A"], Definitions(ALIASED).Keys) && Lists(["A", "B"], Definitions(ALIASED).Keys)
    ensures forall depth :: Published(ALIASED, ["B", "A"], table, depth) != Expand(ALIASED, ALIASED)
    ensures exists depth :: Published(ALIASED, ["A", "B"], table, depth) == Expand(ALIASED, ALIASED)
  {
    AliasedOrders();
    AliasedBare();
    AliasedSetting();
    AliasedWhole();
    BareMeansExactly(ALIASED, ["B", "A"], table, NO_RANKS);
    BareMeansExactly(ALIASED, ["A", "B"], table, NO_RANKS);
  }
}
