/** Keyword by keyword: where schemas are hoisted and references rewritten, and that nothing is left there. */
module SchemaKeywords {
  import opened Common
  import opened SchemaJson
  import opened SchemaHoist
  import opened SchemaCurated

  /** The keywords whose value is an object of schemas, by name. */
  const NAMED: set<string> := {"properties", "patternProperties", "$defs", "dependentSchemas"}

  /** The keywords whose value is a schema. */
  const SINGLE: set<string> :=
    {"items", "additionalProperties", "contains", "not", "if", "then", "else", "propertyNames",
     "unevaluatedProperties", "unevaluatedItems", "contentSchema", "additionalItems"}

  /** The keywords whose value is a list of schemas. */
  const LISTED: set<string> := {"allOf", "anyOf", "oneOf", "prefixItems"}

  /** An object that is more than a bare reference. */
  ghost predicate Unhoisted(j: Json) {
    j.Obj? && !(forall k :: k in j.fields <==> k == "$ref")
  }

  lemma UnhoistedMeans(j: Json)
    ensures Unhoisted(j) <==> Hoistable(j)
  {
    if j.Obj? && forall k :: k in j.fields <==> k == "$ref" {
      assert j.fields.Keys == {REF};
    }
  }

  // ---------- hoisting ----------

  /** The field holds no schema any more, only pointers. */
  ghost predicate Emptied(key: string, was: Json, now: Json) {
    if key in NAMED && was.Obj? then
      now.Obj? && now.fields.Keys == was.fields.Keys && forall n :: n in now.fields ==> !Unhoisted(now.fields[n])
    else if key in SINGLE then !Unhoisted(now)
    else if key in LISTED && was.Arr? then
      now.Arr? && |now.items| == |was.items| && forall i :: 0 <= i < |now.items| ==> !Unhoisted(now.items[i])
    else now == was
  }

  lemma SharedIsHoisted(j: Json)
    ensures !Unhoisted(Shared(j))
  {
    UnhoistedMeans(j);
    UnhoistedMeans(Shared(j));
  }

  lemma FieldEmptied(key: string, v: Json)
    ensures Emptied(key, v, SharedField(key, v))
  {
    match PlaceOf(key)
    case ByName =>
      if v.Obj? {
        forall n | n in v.fields
          ensures !Unhoisted(SharedField(key, v).fields[n])
        {
          SharedIsHoisted(v.fields[n]);
        }
      }
    case Single => SharedIsHoisted(v);
    case Listed =>
      if v.Arr? {
        forall i | 0 <= i < |v.items|
          ensures !Unhoisted(SharedField(key, v).items[i])
        {
          SharedIsHoisted(v.items[i]);
        }
      }
    case Verbatim =>
  }

  /** Every stored body has the keys of its schema, no schema left inside under any of these keywords, and everything else unchanged. */
  lemma BodiesHoldNoSchemas(j: Json)
    requires j.Obj?
    ensures Body(j).Obj? && Body(j).fields.Keys == j.fields.Keys
    ensures forall k :: k in j.fields ==> Emptied(k, j.fields[k], Body(j).fields[k])
  {
    forall k | k in j.fields
      ensures Emptied(k, j.fields[k], Body(j).fields[k])
    {
      FieldEmptied(k, j.fields[k]);
    }
  }

  // ---------- rewriting ----------

  /** At none of these keywords, however deep, a `$ref` is left that has a component. */
  predicate NoneLeft(j: Json, refs: References)
    decreases j, 2
  {
    j.Obj? ==>
      && ("$ref" in j.fields && j.fields["$ref"].Str? ==> j.fields["$ref"].text !in refs)
      && (forall k :: k in j.fields ==> NoneLeftUnder(k, j.fields[k], refs))
  }

  predicate NoneLeftUnder(key: string, v: Json, refs: References)
    decreases v, 3
  {
    && (key in NAMED && v.Obj? ==> forall n :: n in v.fields ==> NoneLeft(v.fields[n], refs))
    && (key in SINGLE ==> NoneLeft(v, refs))
    && (key in LISTED && v.Arr? ==> forall i :: 0 <= i < |v.items| ==> NoneLeft(v.items[i], refs))
  }

  ghost predicate PlainKeys(refs: References) {
    forall t :: t in refs ==> t.Plain?
  }

  lemma {:induction false} RewrittenNoneLeft(j: Json, refs: References)
    requires PlainKeys(refs)
    ensures NoneLeft(Rewritten(j, refs), refs)
    decreases j, 2
  {
    if j.Obj? {
      var w := Rewritten(j, refs);
      forall k | k in w.fields
        ensures NoneLeftUnder(k, w.fields[k], refs)
      {
        if k != REF {
          FieldNoneLeft(k, j.fields[k], refs);
        }
      }
    }
  }

  lemma {:induction false} FieldNoneLeft(key: string, v: Json, refs: References)
    requires PlainKeys(refs)
    ensures NoneLeftUnder(key, RewrittenField(key, v, refs), refs)
    decreases v, 3
  {
    match PlaceOf(key)
    case ByName =>
      if v.Obj? {
        forall n | n in v.fields
          ensures NoneLeft(RewrittenField(key, v, refs).fields[n], refs)
        {
          RewrittenNoneLeft(v.fields[n], refs);
        }
      }
    case Single => RewrittenNoneLeft(v, refs);
    case Listed =>
      if v.Arr? {
        forall i | 0 <= i < |v.items|
          ensures NoneLeft(RewrittenField(key, v, refs).items[i], refs)
        {
          RewrittenNoneLeft(v.items[i], refs);
        }
      }
    case Verbatim =>
  }

  /** No stored definition and no curated schema refers to a `#/$defs/` name of the schema at any of these keywords. */
  lemma NoDefinitionReferenceLeft(schema: Json, name: string)
    requires AllExpand(schema)
    ensures NoneLeft(Rewritten(schema, ReferencesOf(schema)), ReferencesOf(schema))
    ensures name in Definitions(schema) ==> NoneLeft(RewrittenDefinition(schema, name), ReferencesOf(schema))
    ensures name in Definitions(schema) ==> Plain("#/$defs/" + name) in ReferencesOf(schema)
  {
    assert PlainKeys(ReferencesOf(schema));
    RewrittenNoneLeft(schema, ReferencesOf(schema));
    if name in Definitions(schema) {
      RewrittenNoneLeft(Definitions(schema)[name], ReferencesOf(schema));
      assert DEFS_POINTER + name == "#/$defs/" + name && (DEFS_POINTER + name)[|DEFS_POINTER|..] == name;
    }
  }

  // ---------- what is refused ----------

  /** `p` is the schema itself or stands inside it, at these keywords. */
  predicate Part(j: Json, p: Json)
    decreases j, 2
  {
    p == j || (j.Obj? && exists k :: k in j.fields && PartUnder(k, j.fields[k], p))
  }

  predicate PartUnder(key: string, v: Json, p: Json)
    decreases v, 3
  {
    || (key in NAMED && v.Obj? && exists n :: n in v.fields && Part(v.fields[n], p))
    || (key in SINGLE && Part(v, p))
    || (key in LISTED && v.Arr? && exists i :: 0 <= i < |v.items| && Part(v.items[i], p))
  }

  /** It names a scope of its own, or refers to a place in the document that is no definition. */
  predicate Unfit(p: Json, names: set<string>) {
    && p.Obj?
    && (|| "$id" in p.fields || "$anchor" in p.fields || "$dynamicRef" in p.fields || "$dynamicAnchor" in p.fields
        || ("$ref" in p.fields && p.fields["$ref"].Str? && IntoDocument(p.fields["$ref"].text) && !ToDefinition(p.fields["$ref"].text, names)))
  }

  predicate IntoDocument(t: Text) {
    match t
    case Pointer(_) => true
    case Plain(text) => text != "" && text[0] == '#'
  }

  predicate ToDefinition(t: Text, names: set<string>) {
    exists n :: n in names && t == Plain("#/$defs/" + n)
  }

  lemma ReferencesAreDefinitions(schema: Json, t: Text)
    requires AllExpand(schema)
    ensures t in ReferencesOf(schema) <==> ToDefinition(t, Definitions(schema).Keys)
  {
    if t in ReferencesOf(schema) {
      var n :| n in Definitions(schema) && t == Plain(DEFS_POINTER + n);
    }
    if n :| n in Definitions(schema) && t == Plain("#/$defs/" + n) {
      assert DEFS_POINTER + n == "#/$defs/" + n && (DEFS_POINTER + n)[|DEFS_POINTER|..] == n;
    }
  }

  /** The references are those to the definitions. */
  ghost predicate RefersTo(refs: References, names: set<string>) {
    forall t :: t in refs <==> ToDefinition(t, names)
  }

  lemma {:induction false} PartsAreFit(j: Json, refs: References, names: set<string>, p: Json)
    requires RefersTo(refs, names) && Rewritable(j, refs) && Part(j, p)
    ensures !Unfit(p, names)
    decreases j, 2
  {
    if p != j {
      var k :| k in j.fields && PartUnder(k, j.fields[k], p);
      assert RewritableField(k, j.fields[k], refs);
      PartsUnderAreFit(k, j.fields[k], refs, names, p);
    }
  }

  lemma {:induction false} PartsUnderAreFit(key: string, v: Json, refs: References, names: set<string>, p: Json)
    requires RefersTo(refs, names) && RewritableField(key, v, refs) && PartUnder(key, v, p)
    ensures !Unfit(p, names)
    decreases v, 3
  {
    if key in NAMED {
      var n :| n in v.fields && Part(v.fields[n], p);
      PartsAreFit(v.fields[n], refs, names, p);
    } else if key in SINGLE {
      PartsAreFit(v, refs, names, p);
    } else {
      var i :| 0 <= i < |v.items| && Part(v.items[i], p);
      PartsAreFit(v.items[i], refs, names, p);
    }
  }

  lemma {:induction false} UnfitPart(j: Json, refs: References, names: set<string>) returns (p: Json)
    requires RefersTo(refs, names) && !Rewritable(j, refs)
    ensures Part(j, p) && Unfit(p, names)
    decreases j, 2
  {
    if Unfit(j, names) {
      p := j;
    } else {
      var k :| k in j.fields && !RewritableField(k, j.fields[k], refs);
      p := UnfitPartUnder(k, j.fields[k], refs, names);
      assert PartUnder(k, j.fields[k], p);
    }
  }

  lemma {:induction false} UnfitPartUnder(key: string, v: Json, refs: References, names: set<string>) returns (p: Json)
    requires RefersTo(refs, names) && !RewritableField(key, v, refs)
    ensures PartUnder(key, v, p) && Unfit(p, names)
    decreases v, 3
  {
    match PlaceOf(key)
    case ByName =>
      var n :| n in v.fields && !Rewritable(v.fields[n], refs);
      p := UnfitPart(v.fields[n], refs, names);
    case Single => p := UnfitPart(v, refs, names);
    case Listed =>
      var i :| 0 <= i < |v.items| && !Rewritable(v.items[i], refs);
      p := UnfitPart(v.items[i], refs, names);
  }

  /**
   A schema is refused if and only if `$defs` is no object, a definition cannot be
   expanded, or some part of it names a scope of its own or refers into the document to
   something that is no definition.
   */
  lemma RefusedExactly(schema: Json)
    requires schema.Obj?
    ensures Curatable(schema) <==>
      && AllExpand(schema) && ("$defs" in schema.fields ==> schema.fields["$defs"].Obj?)
      && forall p :: Part(schema, p) ==> !Unfit(p, Definitions(schema).Keys)
  {
    if AllExpand(schema) {
      var refs, names := ReferencesOf(schema), Definitions(schema).Keys;
      forall t
        ensures t in refs <==> ToDefinition(t, names)
      {
        ReferencesAreDefinitions(schema, t);
      }
      if Rewritable(schema, refs) {
        forall p | Part(schema, p)
          ensures !Unfit(p, names)
        {
          PartsAreFit(schema, refs, names, p);
        }
      } else {
        var p := UnfitPart(schema, refs, names);
        assert Part(schema, p);
      }
    }
  }
}
