/** What a published schema means: following its pointers through the component table. */
module SchemaMeaning {
  import opened Common
  import opened SchemaJson
  import opened SchemaRefs
  import opened SchemaRefTheorems
  import opened SchemaHoist
  import opened SchemaHoistTheorems
  import opened SchemaCurated

  // ---------- following pointers ----------

  /**
   The expansion of a published value: like _resolve_local_refs, with the component
   table as the document. At most `depth` definitions are entered one inside the
   other; a component named after its own body needs no such bound.
   */
  function Follow(j: Json, table: Table, depth: nat): Result<Json>
    requires Addressed(table)
    decreases depth, j, 2
  {
    match j
    case Arr(items) => FollowItems(items, table, depth)
    case Obj(fields) => if REF in fields then FollowRef(j, table, depth) else FollowChildren(j, table, depth)
    case _ => Ok(j)
  }

  function FollowItems(items: seq<Json>, table: Table, depth: nat): Result<Json>
    requires Addressed(table)
    decreases depth, items, 1
  {
    var results := seq(|items|, i requires 0 <= i < |items| => Follow(items[i], table, depth));
    if exists i :: 0 <= i < |items| && results[i].Err? then Err
    else Ok(Arr(seq(|items|, i requires 0 <= i < |items| && results[i].Ok? => results[i].value)))
  }

  function FollowChildren(j: Json, table: Table, depth: nat): Result<Json>
    requires j.Obj? && Addressed(table)
    decreases depth, j, 0
  {
    var results := map k | k in j.fields && k != REF :: Follow(j.fields[k], table, depth);
    if exists k :: k in results && results[k].Err? then Err
    else Ok(Obj(map k | k in results && results[k].Ok? :: results[k].value))
  }

  function FollowRef(j: Json, table: Table, depth: nat): Result<Json>
    requires j.Obj? && REF in j.fields && Addressed(table)
    decreases depth, j, 1
  {
    var resolved := FollowPointer(j.fields[REF], table, depth);
    if resolved.Err? || OnlyRef(j) then resolved
    else
      var rest := FollowChildren(j, table, depth);
      if rest.Err? then Err else Merge(resolved.value, rest.value)
  }

  /** The value of a `$ref`. */
  function FollowPointer(r: Json, table: Table, depth: nat): Result<Json>
    requires Addressed(table)
    decreases depth, r, 1
  {
    if r.Str? && r.text.Pointer? && r.text.name in table then
      match r.text.name
      case SchemaName(body) => Follow(body, table, depth)
      case DefinitionName(_) => if depth == 0 then Err else Follow(table[r.text.name], table, depth - 1)
    else Err
  }

  // ---------- equal children ----------

  lemma SameFollowed(a: Json, b: Json, table: Table, depth: nat)
    requires a.Obj? && b.Obj? && a.fields.Keys == b.fields.Keys && Addressed(table)
    requires forall k :: k in a.fields && k != REF ==> Follow(a.fields[k], table, depth) == Follow(b.fields[k], table, depth)
    ensures FollowChildren(a, table, depth) == FollowChildren(b, table, depth)
  {
    assert (map k | k in a.fields && k != REF :: Follow(a.fields[k], table, depth))
        == (map k | k in b.fields && k != REF :: Follow(b.fields[k], table, depth));
  }

  lemma SameFollowedItems(a: seq<Json>, b: seq<Json>, table: Table, depth: nat)
    requires |a| == |b| && Addressed(table)
    requires forall i :: 0 <= i < |a| ==> Follow(a[i], table, depth) == Follow(b[i], table, depth)
    ensures FollowItems(a, table, depth) == FollowItems(b, table, depth)
  {
    assert seq(|a|, i requires 0 <= i < |a| => Follow(a[i], table, depth)) == seq(|b|, i requires 0 <= i < |b| => Follow(b[i], table, depth));
  }

  // ---------- hoisting is invisible ----------

  /** A schema moved into the table means what it meant before. */
  lemma {:induction false} FollowShared(j: Json, table: Table, depth: nat)
    requires Addressed(table) && Holds(table, Stored(j))
    ensures Follow(Shared(j), table, depth) == Follow(j, table, depth)
    decreases j, 2
  {
    if Hoistable(j) {
      assert Body(j) in Stored(j);
      FollowLink(SchemaName(Body(j)), table, depth);
      FollowBody(j, table, depth);
    }
  }

  lemma FollowLink(name: Name, table: Table, depth: nat)
    requires Addressed(table)
    ensures Follow(Link(name), table, depth) == FollowPointer(Str(Pointer(name)), table, depth)
  {
    assert Link(name).fields[REF] == Str(Pointer(name));
  }

  lemma {:induction false} FollowBody(j: Json, table: Table, depth: nat)
    requires j.Obj? && Addressed(table) && Holds(table, StoredBelow(j))
    ensures Follow(Body(j), table, depth) == Follow(j, table, depth)
    decreases j, 1
  {
    forall k | k in j.fields
      ensures Follow(Body(j).fields[k], table, depth) == Follow(j.fields[k], table, depth)
    {
      assert StoredField(k, j.fields[k]) <= StoredBelow(j);
      FollowSharedField(k, j.fields[k], table, depth);
    }
    SameFollowed(Body(j), j, table, depth);
    if REF in j.fields {
      assert PlaceOf(REF) == Verbatim;
      assert Body(j).fields[REF] == j.fields[REF];
    }
  }

  lemma {:induction false} FollowSharedField(key: string, v: Json, table: Table, depth: nat)
    requires Addressed(table) && Holds(table, StoredField(key, v))
    ensures Follow(SharedField(key, v), table, depth) == Follow(v, table, depth)
    decreases v, 3
  {
    match PlaceOf(key)
    case ByName => if v.Obj? { FollowSharedNamed(v, SharedField(key, v), table, depth); }
    case Single => FollowShared(v, table, depth);
    case Listed => if v.Arr? { FollowSharedListed(v, SharedField(key, v), table, depth); }
    case Verbatim =>
  }

  lemma {:induction false} FollowSharedNamed(v: Json, w: Json, table: Table, depth: nat)
    requires v.Obj? && Addressed(table) && Holds(table, StoredNamed(v))
    requires w == Obj(map n | n in v.fields :: Shared(v.fields[n]))
    ensures Follow(w, table, depth) == Follow(v, table, depth)
    decreases v, 2
  {
    forall n | n in v.fields
      ensures Follow(w.fields[n], table, depth) == Follow(v.fields[n], table, depth)
    {
      assert Stored(v.fields[n]) <= StoredNamed(v);
      FollowShared(v.fields[n], table, depth);
    }
    SameFollowed(w, v, table, depth);
    if REF in v.fields {
      SharedPointer(v.fields[REF], table, depth);
    }
  }

  /** A property that is called `$ref` by accident. */
  lemma SharedPointer(r: Json, table: Table, depth: nat)
    requires Addressed(table)
    ensures FollowPointer(Shared(r), table, depth) == FollowPointer(r, table, depth)
  {
  }

  lemma {:induction false} FollowSharedListed(v: Json, w: Json, table: Table, depth: nat)
    requires v.Arr? && Addressed(table) && Holds(table, StoredListed(v))
    requires w == Arr(seq(|v.items|, i requires 0 <= i < |v.items| => Shared(v.items[i])))
    ensures Follow(w, table, depth) == Follow(v, table, depth)
    decreases v, 2
  {
    forall i | 0 <= i < |v.items|
      ensures Follow(w.items[i], table, depth) == Follow(v.items[i], table, depth)
    {
      assert Stored(v.items[i]) <= StoredListed(v);
      FollowShared(v.items[i], table, depth);
    }
    SameFollowedItems(w.items, v.items, table, depth);
  }

  // ---------- more depth ----------

  /** What is found with some depth is found with more. */
  lemma {:induction false} MoreDepth(j: Json, table: Table, depth: nat, more: nat)
    requires Addressed(table) && depth <= more && Follow(j, table, depth).Ok?
    ensures Follow(j, table, more) == Follow(j, table, depth)
    decreases depth, j, 2
  {
    match j
    case Arr(items) =>
      forall i | 0 <= i < |items|
        ensures Follow(items[i], table, more) == Follow(items[i], table, depth)
      {
        ItemFollowed(items, table, depth, i);
        MoreDepth(items[i], table, depth, more);
      }
      DeeperItems(items, table, depth, more);
    case Obj(fields) =>
      if REF in fields {
        PointerDeeper(fields[REF], table, depth, more);
        if !OnlyRef(j) {
          ChildrenDeeper(j, table, depth, more);
        }
      } else {
        ChildrenDeeper(j, table, depth, more);
      }
    case _ =>
  }

  lemma ItemFollowed(items: seq<Json>, table: Table, depth: nat, i: nat)
    requires Addressed(table) && FollowItems(items, table, depth).Ok? && i < |items|
    ensures Follow(items[i], table, depth).Ok? && FollowItems(items, table, depth).value.Arr?
    ensures |FollowItems(items, table, depth).value.items| == |items|
    ensures FollowItems(items, table, depth).value.items[i] == Follow(items[i], table, depth).value
  {
    assert seq(|items|, i requires 0 <= i < |items| => Follow(items[i], table, depth))[i] == Follow(items[i], table, depth);
  }

  lemma ChildFollowed(j: Json, table: Table, depth: nat, k: string)
    requires Addressed(table) && j.Obj? && FollowChildren(j, table, depth).Ok? && k in j.fields && k != REF
    ensures Follow(j.fields[k], table, depth).Ok?
  {
    assert (map k | k in j.fields && k != REF :: Follow(j.fields[k], table, depth))[k] == Follow(j.fields[k], table, depth);
  }

  lemma DeeperItems(items: seq<Json>, table: Table, depth: nat, more: nat)
    requires Addressed(table) && forall i :: 0 <= i < |items| ==> Follow(items[i], table, more) == Follow(items[i], table, depth)
    ensures FollowItems(items, table, more) == FollowItems(items, table, depth)
  {
    assert seq(|items|, i requires 0 <= i < |items| => Follow(items[i], table, more)) == seq(|items|, i requires 0 <= i < |items| => Follow(items[i], table, depth));
  }

  lemma {:induction false} ChildrenDeeper(j: Json, table: Table, depth: nat, more: nat)
    requires Addressed(table) && depth <= more && j.Obj? && FollowChildren(j, table, depth).Ok?
    ensures FollowChildren(j, table, more) == FollowChildren(j, table, depth)
    decreases depth, j, 0
  {
    forall k | k in j.fields && k != REF
      ensures Follow(j.fields[k], table, more) == Follow(j.fields[k], table, depth)
    {
      ChildFollowed(j, table, depth, k);
      MoreDepth(j.fields[k], table, depth, more);
    }
    assert (map k | k in j.fields && k != REF :: Follow(j.fields[k], table, more))
        == (map k | k in j.fields && k != REF :: Follow(j.fields[k], table, depth));
  }

  lemma {:induction false} PointerDeeper(r: Json, table: Table, depth: nat, more: nat)
    requires Addressed(table) && depth <= more && FollowPointer(r, table, depth).Ok?
    ensures FollowPointer(r, table, more) == FollowPointer(r, table, depth)
    decreases depth, r, 1
  {
    match r.text.name
    case SchemaName(body) => MoreDepth(body, table, depth, more);
    case DefinitionName(_) => MoreDepth(table[r.text.name], table, depth - 1, more - 1);
  }

  // ---------- the shape of what is followed ----------

  /** The fields that a published value takes over from the component it points to. */
  function PointedTo(j: Json, table: Table, depth: nat): map<string, Json>
    requires Addressed(table)
  {
    if !j.Obj? || REF !in j.fields then map[]
    else
      var target := FollowPointer(j.fields[REF], table, depth);
      if target.Ok? && target.value.Obj? then target.value.fields else map[]
  }

  /** Like Shaped, for a published value; a bare pointer may also lead to something that is no object. */
  ghost predicate FollowShaped(j: Json, e: Json, table: Table, depth: nat)
    requires Addressed(table)
  {
    match j
    case Arr(items) =>
      e.Arr? && |e.items| == |items| && forall i :: 0 <= i < |items| ==> Follow(items[i], table, depth) == Ok(e.items[i])
    case Obj(fields) =>
      if OnlyRef(j) then FollowPointer(fields[REF], table, depth) == Ok(e)
      else
        && e.Obj?
        && (forall k :: k in e.fields <==> (k in fields && k != REF) || k in PointedTo(j, table, depth))
        && (forall k :: k in fields && k != REF ==> Follow(fields[k], table, depth) == Ok(e.fields[k]))
        && (forall k :: k in PointedTo(j, table, depth) && (k !in fields || k == REF) ==> e.fields[k] == PointedTo(j, table, depth)[k])
    case _ => e == j
  }

  lemma FollowedChildren(j: Json, table: Table, depth: nat)
    requires j.Obj? && Addressed(table) && FollowChildren(j, table, depth).Ok?
    ensures var rest := FollowChildren(j, table, depth).value;
      && rest.Obj? && (forall k :: k in rest.fields <==> k in j.fields && k != REF)
      && (forall k :: k in j.fields && k != REF ==> Follow(j.fields[k], table, depth) == Ok(rest.fields[k]))
  {
    var results := map k | k in j.fields && k != REF :: Follow(j.fields[k], table, depth);
    assert forall k :: k in results ==> results[k] == Follow(j.fields[k], table, depth);
  }

  /** What is followed is the published value with its pointers replaced, siblings first. */
  lemma FollowsByShape(j: Json, table: Table, depth: nat)
    requires Addressed(table) && Follow(j, table, depth).Ok?
    ensures FollowShaped(j, Follow(j, table, depth).value, table, depth)
  {
    match j
    case Arr(items) =>
      forall i | 0 <= i < |items|
        ensures Follow(items[i], table, depth) == Ok(Follow(j, table, depth).value.items[i])
      {
        ItemFollowed(items, table, depth, i);
      }
    case Obj(fields) =>
      if REF in fields {
        if !OnlyRef(j) {
          FollowedChildren(j, table, depth);
        }
      } else {
        FollowedChildren(j, table, depth);
      }
    case _ =>
  }
}
