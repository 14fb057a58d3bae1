/** What an expansion looks like: the rule for every value, key by key. */
module SchemaRefShape {
  import opened Common
  import opened SchemaJson
  import opened SchemaRefs
  import opened SchemaRefTheorems

  // ---------- expansion does not depend on what was followed before ----------

  /** Without a cycle, the references already followed make no difference. */
  lemma {:induction false} SeenIrrelevant(value: Json, document: Json, seen: set<Json>, other: set<Json>, all: set<Json>, rank: map<Json, nat>)
    requires Ordered(value, document, seen, all, rank) && Ordered(value, document, other, all, rank)
    ensures Resolve(value, document, seen, all) == Resolve(value, document, other, all)
    decreases |all - seen|, value, 2
  {
    match value
    case Arr(items) =>
      forall i | 0 <= i < |items|
        ensures Resolve(items[i], document, seen, all) == Resolve(items[i], document, other, all)
      {
        ItemRefs(items, i);
        SeenIrrelevant(items[i], document, seen, other, all, rank);
      }
      SameResolvedItems(items, document, seen, other, all);
    case Obj(fields) =>
      SeenIrrelevantBelow(value, document, seen, other, all, rank);
      if REF in fields {
        SeenIrrelevantTarget(value, document, seen, other, all, rank);
      }
    case _ =>
  }

  lemma SameResolvedItems(items: seq<Json>, document: Json, seen: set<Json>, other: set<Json>, all: set<Json>)
    requires RefsIn(document) <= all && forall i :: 0 <= i < |items| ==> RefsIn(items[i]) <= all
    requires forall i :: 0 <= i < |items| ==> Resolve(items[i], document, seen, all) == Resolve(items[i], document, other, all)
    ensures ResolveItems(items, document, seen, all) == ResolveItems(items, document, other, all)
  {
    assert seq(|items|, i requires 0 <= i < |items| => Resolve(items[i], document, seen, all))
        == seq(|items|, i requires 0 <= i < |items| => Resolve(items[i], document, other, all));
  }

  lemma {:induction false} SeenIrrelevantBelow(value: Json, document: Json, seen: set<Json>, other: set<Json>, all: set<Json>, rank: map<Json, nat>)
    requires value.Obj? && Ordered(value, document, seen, all, rank) && Ordered(value, document, other, all, rank)
    ensures ResolveChildren(value, document, seen, all) == ResolveChildren(value, document, other, all)
    decreases |all - seen|, value, 0
  {
    forall k | k in value.fields && k != REF
      ensures RefsIn(value.fields[k]) <= all
      ensures Resolve(value.fields[k], document, seen, all) == Resolve(value.fields[k], document, other, all)
    {
      ChildRefs(value, k);
      SeenIrrelevant(value.fields[k], document, seen, other, all, rank);
    }
    assert (map k | k in value.fields && k != REF :: Resolve(value.fields[k], document, seen, all))
        == (map k | k in value.fields && k != REF :: Resolve(value.fields[k], document, other, all));
  }

  lemma {:induction false} SeenIrrelevantTarget(value: Json, document: Json, seen: set<Json>, other: set<Json>, all: set<Json>, rank: map<Json, nat>)
    requires value.Obj? && REF in value.fields && Ordered(value, document, seen, all, rank) && Ordered(value, document, other, all, rank)
    requires ResolveChildren(value, document, seen, all) == ResolveChildren(value, document, other, all)
    ensures ResolveReference(value, document, seen, all) == ResolveReference(value, document, other, all)
    decreases |all - seen|, value, 1
  {
    var r := value.fields[REF];
    FirstTime(value, document, seen, all, rank);
    FirstTime(value, document, other, all, rank);
    if TargetOf(document, r).Ok? {
      OrderedTarget(value, document, seen, all, rank);
      OrderedTarget(value, document, other, all, rank);
      Fewer(all, seen, r);
      SeenIrrelevant(TargetOf(document, r).value, document, seen + {r}, other + {r}, all, rank);
    }
    SameReference(value, document, seen, other, all);
  }

  lemma FirstTime(value: Json, document: Json, seen: set<Json>, all: set<Json>, rank: map<Json, nat>)
    requires Ordered(value, document, seen, all, rank) && value.Obj? && REF in value.fields
    ensures value.fields[REF] !in seen
  {
    RefKey(value);
  }

  lemma SameReference(value: Json, document: Json, seen: set<Json>, other: set<Json>, all: set<Json>)
    requires value.Obj? && REF in value.fields && RefsIn(value) <= all && RefsIn(document) <= all
    requires value.fields[REF] !in seen && value.fields[REF] !in other
    requires TargetOf(document, value.fields[REF]).Ok? ==>
      && RefsIn(TargetOf(document, value.fields[REF]).value) <= all
      && Resolve(TargetOf(document, value.fields[REF]).value, document, seen + {value.fields[REF]}, all)
        == Resolve(TargetOf(document, value.fields[REF]).value, document, other + {value.fields[REF]}, all)
    requires ResolveChildren(value, document, seen, all) == ResolveChildren(value, document, other, all)
    ensures ResolveReference(value, document, seen, all) == ResolveReference(value, document, other, all)
  {
  }

  /** The set that only bounds the expansion makes no difference. */
  lemma {:induction false} BoundIrrelevant(value: Json, document: Json, seen: set<Json>, all: set<Json>, other: set<Json>)
    requires RefsIn(value) <= all && RefsIn(document) <= all && RefsIn(value) <= other && RefsIn(document) <= other
    ensures Resolve(value, document, seen, all) == Resolve(value, document, seen, other)
    decreases |all - seen|, value, 2
  {
    match value
    case Arr(items) =>
      forall i | 0 <= i < |items|
        ensures RefsIn(items[i]) <= all && RefsIn(items[i]) <= other
        ensures Resolve(items[i], document, seen, all) == Resolve(items[i], document, seen, other)
      {
        ItemRefs(items, i);
        BoundIrrelevant(items[i], document, seen, all, other);
      }
      assert seq(|items|, i requires 0 <= i < |items| => Resolve(items[i], document, seen, all))
          == seq(|items|, i requires 0 <= i < |items| => Resolve(items[i], document, seen, other));
    case Obj(fields) =>
      BoundIrrelevantBelow(value, document, seen, all, other);
      if REF in fields {
        BoundIrrelevantTarget(value, document, seen, all, other);
      }
    case _ =>
  }

  lemma {:induction false} BoundIrrelevantBelow(value: Json, document: Json, seen: set<Json>, all: set<Json>, other: set<Json>)
    requires value.Obj? && RefsIn(value) <= all && RefsIn(document) <= all && RefsIn(value) <= other && RefsIn(document) <= other
    ensures ResolveChildren(value, document, seen, all) == ResolveChildren(value, document, seen, other)
    decreases |all - seen|, value, 0
  {
    forall k | k in value.fields && k != REF
      ensures RefsIn(value.fields[k]) <= all && RefsIn(value.fields[k]) <= other
      ensures Resolve(value.fields[k], document, seen, all) == Resolve(value.fields[k], document, seen, other)
    {
      ChildRefs(value, k);
      BoundIrrelevant(value.fields[k], document, seen, all, other);
    }
    assert (map k | k in value.fields && k != REF :: Resolve(value.fields[k], document, seen, all))
        == (map k | k in value.fields && k != REF :: Resolve(value.fields[k], document, seen, other));
  }

  lemma {:induction false} BoundIrrelevantTarget(value: Json, document: Json, seen: set<Json>, all: set<Json>, other: set<Json>)
    requires value.Obj? && REF in value.fields
    requires RefsIn(value) <= all && RefsIn(document) <= all && RefsIn(value) <= other && RefsIn(document) <= other
    requires ResolveChildren(value, document, seen, all) == ResolveChildren(value, document, seen, other)
    ensures ResolveReference(value, document, seen, all) == ResolveReference(value, document, seen, other)
    decreases |all - seen|, value, 1
  {
    var r := value.fields[REF];
    RefKey(value);
    TargetRefs(document, r);
    if TargetOf(document, r).Ok? && r !in seen {
      Fewer(all, seen, r);
      BoundIrrelevant(TargetOf(document, r).value, document, seen + {r}, all, other);
    }
    SameBound(value, document, seen, all, other);
  }

  lemma SameBound(value: Json, document: Json, seen: set<Json>, all: set<Json>, other: set<Json>)
    requires value.Obj? && REF in value.fields
    requires RefsIn(value) <= all && RefsIn(document) <= all && RefsIn(value) <= other && RefsIn(document) <= other
    requires ResolveChildren(value, document, seen, all) == ResolveChildren(value, document, seen, other)
    requires var r := value.fields[REF]; TargetOf(document, r).Ok? && r !in seen ==>
      && RefsIn(TargetOf(document, r).value) <= all && RefsIn(TargetOf(document, r).value) <= other
      && Resolve(TargetOf(document, r).value, document, seen + {r}, all) == Resolve(TargetOf(document, r).value, document, seen + {r}, other)
    ensures ResolveReference(value, document, seen, all) == ResolveReference(value, document, seen, other)
  {
  }

  // ---------- the shape of an expansion ----------

  /** The references that can come up are followable, name objects, and are not circular. */
  ghost predicate Expandable(value: Json, document: Json, rank: map<Json, nat>) {
    var all := RefsIn(value) + RefsIn(document);
    Sound(document, all) && Acyclic(document, all, rank)
  }

  /** The fields that a value takes over from the object it refers to, expanded. */
  function TakenOver(value: Json, document: Json): map<string, Json> {
    if !value.Obj? || REF !in value.fields || TargetOf(document, value.fields[REF]).Err? then map[]
    else
      var target := Expand(TargetOf(document, value.fields[REF]).value, document);
      if target.Ok? && target.value.Obj? then target.value.fields else map[]
  }

  /**
   `e` is `value` with references replaced by what they name: an array item by item,
   an object key by key, where a key of the value itself counts before the same key of
   the object it refers to, and everything else unchanged.
   */
  ghost predicate Shaped(value: Json, e: Json, document: Json) {
    match value
    case Arr(items) =>
      e.Arr? && |e.items| == |items| && forall i :: 0 <= i < |items| ==> Expand(items[i], document) == Ok(e.items[i])
    case Obj(fields) =>
      && e.Obj?
      && (forall k :: k in e.fields <==> (k in fields && k != REF) || k in TakenOver(value, document))
      && (forall k :: k in fields && k != REF ==> Expand(fields[k], document) == Ok(e.fields[k]))
      && (forall k :: k in TakenOver(value, document) && (k !in fields || k == REF) ==> e.fields[k] == TakenOver(value, document)[k])
    case _ => e == value
  }

  lemma PartExpands(value: Json, part: Json, document: Json)
    requires RefsIn(part) <= RefsIn(value) + RefsIn(document)
    ensures Expand(part, document) == Resolve(part, document, {}, RefsIn(value) + RefsIn(document))
  {
    BoundIrrelevant(part, document, {}, RefsIn(part) + RefsIn(document), RefsIn(value) + RefsIn(document));
  }

  lemma ItemsShape(items: seq<Json>, document: Json)
    requires Expand(Arr(items), document).Ok?
    ensures Shaped(Arr(items), Expand(Arr(items), document).value, document)
  {
    var all := RefsIn(Arr(items)) + RefsIn(document);
    forall i | 0 <= i < |items|
      ensures RefsIn(items[i]) <= all && Expand(items[i], document) == Resolve(items[i], document, {}, all)
    {
      ItemRefs(items, i);
      PartExpands(Arr(items), items[i], document);
    }
    var results := seq(|items|, i requires 0 <= i < |items| => Resolve(items[i], document, {}, all));
    assert Expand(Arr(items), document) == ResolveItems(items, document, {}, all);
    assert forall i :: 0 <= i < |items| ==> results[i] == Expand(items[i], document);
  }

  /** The siblings of a reference, or all fields of another object. */
  lemma ChildrenShape(value: Json, document: Json)
    requires value.Obj?
    ensures var all := RefsIn(value) + RefsIn(document); var rest := ResolveChildren(value, document, {}, all);
      rest.Ok? ==>
        && rest.value.Obj? && (forall k :: k in rest.value.fields <==> k in value.fields && k != REF)
        && (forall k :: k in value.fields && k != REF ==> Expand(value.fields[k], document) == Ok(rest.value.fields[k]))
  {
    var all := RefsIn(value) + RefsIn(document);
    forall k | k in value.fields && k != REF
      ensures RefsIn(value.fields[k]) <= all && Expand(value.fields[k], document) == Resolve(value.fields[k], document, {}, all)
    {
      ChildRefs(value, k);
      PartExpands(value, value.fields[k], document);
    }
    var results := map k | k in value.fields && k != REF :: Resolve(value.fields[k], document, {}, all);
    assert forall k :: k in results ==> results[k] == Expand(value.fields[k], document);
  }

  /** What the reference of a value resolves to. */
  lemma TargetShape(value: Json, document: Json, rank: map<Json, nat>)
    requires Expandable(value, document, rank) && value.Obj? && REF in value.fields
    ensures TargetOf(document, value.fields[REF]).Ok?
    ensures var all := RefsIn(value) + RefsIn(document); var r := value.fields[REF]; var target := TargetOf(document, r).value;
      && RefsIn(target) <= all && Expand(target, document).Ok? && Expand(target, document).value.Obj?
      && Resolve(target, document, {} + {r}, all) == Expand(target, document)
  {
    var all, r := RefsIn(value) + RefsIn(document), value.fields[REF];
    RefKey(value);
    var target := TargetOf(document, r).value;
    TargetRefs(document, r);
    OrderedTarget(value, document, {}, all, rank);
    SeenIrrelevant(target, document, {} + {r}, {}, all, rank);
    PartExpands(value, target, document);
    SoundResolves(target, document, {}, all);
  }

  lemma ReferenceShape(value: Json, document: Json, rank: map<Json, nat>)
    requires Expandable(value, document, rank) && value.Obj? && REF in value.fields && Expand(value, document).Ok?
    ensures Shaped(value, Expand(value, document).value, document)
  {
    var all := RefsIn(value) + RefsIn(document);
    TargetShape(value, document, rank);
    ChildrenShape(value, document);
    assert Expand(value, document) == ResolveReference(value, document, {}, all);
  }

  lemma ObjectShape(value: Json, document: Json)
    requires value.Obj? && REF !in value.fields && Expand(value, document).Ok?
    ensures Shaped(value, Expand(value, document).value, document)
  {
    ChildrenShape(value, document);
    assert Expand(value, document) == ResolveChildren(value, document, {}, RefsIn(value) + RefsIn(document));
  }

  /**
   References that are not circular and name objects: the expansion succeeds, and is
   the value with its references replaced, siblings first.
   */
  lemma ExpandsByShape(value: Json, document: Json, rank: map<Json, nat>)
    requires Expandable(value, document, rank)
    ensures Expand(value, document).Ok? && Shaped(value, Expand(value, document).value, document)
  {
    SoundResolves(value, document, {}, RefsIn(value) + RefsIn(document));
    match value
    case Arr(items) => ItemsShape(items, document);
    case Obj(fields) => if REF in fields { ReferenceShape(value, document, rank); } else { ObjectShape(value, document); }
    case _ =>
  }

  // ---------- when an expansion raises ----------

  /** Why the expansion of a value raises, with the references in `seen` being followed already. */
  ghost predicate RaisesHere(value: Json, document: Json, seen: set<Json>, all: set<Json>)
    requires RefsIn(value) <= all && RefsIn(document) <= all
  {
    match value
    case Arr(items) => exists i :: 0 <= i < |items| && ItemRaises(items, i, document, seen, all)
    case Obj(fields) =>
      if REF !in fields then ChildRaises(value, document, seen, all)
      else
        var r := fields[REF];
        || !Safe(r)
        || (r !in seen && TargetOf(document, r).Err?)
        || (r !in seen && TargetRaises(value, document, seen, all))
        || (r !in seen && !OnlyRef(value) && ChildRaises(value, document, seen, all))
        || (r !in seen && !OnlyRef(value) && !TargetIsObject(value, document, seen, all))
    case _ => false
  }

  ghost predicate ItemRaises(items: seq<Json>, i: nat, document: Json, seen: set<Json>, all: set<Json>)
    requires i < |items| && RefsIn(Arr(items)) <= all && RefsIn(document) <= all
  {
    ItemRefs(items, i);
    Resolve(items[i], document, seen, all).Err?
  }

  ghost predicate ChildRaises(value: Json, document: Json, seen: set<Json>, all: set<Json>)
    requires value.Obj? && RefsIn(value) <= all && RefsIn(document) <= all
  {
    exists k :: k in value.fields && k != REF && FieldRaises(value, k, document, seen, all)
  }

  ghost predicate FieldRaises(value: Json, k: string, document: Json, seen: set<Json>, all: set<Json>)
    requires value.Obj? && k in value.fields && RefsIn(value) <= all && RefsIn(document) <= all
  {
    ChildRefs(value, k);
    Resolve(value.fields[k], document, seen, all).Err?
  }

  ghost predicate TargetRaises(value: Json, document: Json, seen: set<Json>, all: set<Json>)
    requires value.Obj? && REF in value.fields && RefsIn(document) <= all
  {
    var r := value.fields[REF];
    TargetRefs(document, r);
    TargetOf(document, r).Ok? && Resolve(TargetOf(document, r).value, document, seen + {r}, all).Err?
  }

  ghost predicate TargetIsObject(value: Json, document: Json, seen: set<Json>, all: set<Json>)
    requires value.Obj? && REF in value.fields && RefsIn(document) <= all
  {
    var r := value.fields[REF];
    TargetRefs(document, r);
    TargetOf(document, r).Ok?
    && var target := Resolve(TargetOf(document, r).value, document, seen + {r}, all); target.Ok? && target.value.Obj?
  }

  lemma ChildrenRaise(value: Json, document: Json, seen: set<Json>, all: set<Json>)
    requires value.Obj? && RefsIn(value) <= all && RefsIn(document) <= all
    ensures ResolveChildren(value, document, seen, all).Err? <==> ChildRaises(value, document, seen, all)
    ensures ResolveChildren(value, document, seen, all).Ok? ==> ResolveChildren(value, document, seen, all).value.Obj?
  {
    forall k | k in value.fields
      ensures RefsIn(value.fields[k]) <= all
    {
      ChildRefs(value, k);
    }
    var results := map k | k in value.fields && k != REF :: Resolve(value.fields[k], document, seen, all);
    forall k | k in results
      ensures results[k].Err? <==> FieldRaises(value, k, document, seen, all)
    {
    }
    if k :| k in value.fields && k != REF && FieldRaises(value, k, document, seen, all) {
      assert k in results;
    }
  }

  /**
   An expansion raises if and only if something inside raises, a reference is unsafe or
   not found, or siblings stand beside a reference to something that is no object; a
   circular reference never raises by itself.
   */
  lemma RaisesExactly(value: Json, document: Json, seen: set<Json>, all: set<Json>)
    requires RefsIn(value) <= all && RefsIn(document) <= all
    ensures Resolve(value, document, seen, all).Err? <==> RaisesHere(value, document, seen, all)
  {
    match value
    case Arr(items) => ItemsRaise(items, document, seen, all);
    case Obj(fields) =>
      ChildrenRaise(value, document, seen, all);
      if REF in fields {
        TargetRefs(document, fields[REF]);
      }
    case _ =>
  }

  lemma ItemsRaise(items: seq<Json>, document: Json, seen: set<Json>, all: set<Json>)
    requires RefsIn(Arr(items)) <= all && RefsIn(document) <= all
    ensures Resolve(Arr(items), document, seen, all).Err? <==> exists i :: 0 <= i < |items| && ItemRaises(items, i, document, seen, all)
  {
    forall i | 0 <= i < |items|
      ensures RefsIn(items[i]) <= all
    {
      ItemRefs(items, i);
    }
    var results := seq(|items|, i requires 0 <= i < |items| => Resolve(items[i], document, seen, all));
    assert Resolve(Arr(items), document, seen, all) == ResolveItems(items, document, seen, all);
    forall i | 0 <= i < |items|
      ensures results[i].Err? <==> ItemRaises(items, i, document, seen, all)
    {
    }
    if i :| 0 <= i < |items| && ItemRaises(items, i, document, seen, all) {
      assert results[i].Err?;
    }
  }

  /** A reference that is being followed already is kept as it is. */
  lemma CircularIsKept(value: Json, document: Json, seen: set<Json>, all: set<Json>)
    requires RefsIn(value) <= all && RefsIn(document) <= all
    requires value.Obj? && REF in value.fields && Safe(value.fields[REF]) && value.fields[REF] in seen
    ensures Resolve(value, document, seen, all) == Ok(value)
  {
  }
}
