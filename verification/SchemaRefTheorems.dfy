/** Pointer tokens, termination and completeness of reference expansion. */
module SchemaRefTheorems {
  import opened Common
  import opened SchemaJson
  import opened SchemaRefs

  // ---------- tokens ----------

  lemma ReplaceHead(s: string, second: char, put: char)
    ensures s != "" && !(|s| >= 2 && s[0] == '~' && s[1] == second) ==>
      Replace(s, second, put) == [s[0]] + Replace(s[1..], second, put)
    ensures |s| >= 2 && s[0] == '~' && s[1] == second ==> Replace(s, second, put) == [put] + Replace(s[2..], second, put)
  {
    if |s| == 1 {
      assert s == [s[0]] + s[1..];
    }
  }

  /** The two passes over a token decode it as section 4 of RFC 6901 requires. */
  lemma {:induction false} DecodeIsUnescape(token: string)
    ensures DecodeToken(token) == Unescape(token)
  {
    var inner := Replace(token, '1', '/');
    ReplaceHead(token, '1', '/');
    if token == "" {
    } else if |token| >= 2 && token[0] == '~' && token[1] == '1' {
      DecodeIsUnescape(token[2..]);
      assert inner[1..] == Replace(token[2..], '1', '/');
      ReplaceHead(inner, '0', '~');
    } else if |token| >= 2 && token[0] == '~' && token[1] == '0' {
      DecodeIsUnescape(token[2..]);
      ReplaceHead(token[1..], '1', '/');
      assert token[1..][1..] == token[2..];
      assert inner[1..] == Replace(token[1..], '1', '/') && inner[2..] == Replace(token[2..], '1', '/');
      ReplaceHead(inner, '0', '~');
    } else {
      DecodeIsUnescape(token[1..]);
      ReplaceHead(token[1..], '1', '/');
      assert inner[1..] == Replace(token[1..], '1', '/');
      ReplaceHead(inner, '0', '~');
    }
  }

  lemma {:induction false} StripSplits(s: string)
    ensures |Split(StripLeft(s))| <= |Split(s)|
  {
    if s != "" && s[0] == '/' {
      StripSplits(s[1..]);
    }
  }

  /** _pointer splits a reference as section 3 of RFC 6901 does, unless it starts with two slashes. */
  lemma TokensAgreeExactly(reference: string)
    requires reference != "" && reference[0] == '/'
    ensures Split(StripLeft(reference)) == Split(reference[1..]) <==> !(|reference| >= 2 && reference[1] == '/')
  {
    var rest := reference[1..];
    assert StripLeft(reference) == StripLeft(rest);
    if |reference| >= 2 && reference[1] == '/' {
      StripSplits(rest[1..]);
      assert StripLeft(rest) == StripLeft(rest[1..]);
      assert |Split(rest)| == 1 + |Split(rest[1..])|;
    }
  }

  predicate IsIndex(token: string) {
    && token != "" && (token[0] != '0' || token == "0")
    && forall i :: 0 <= i < |token| ==> '0' <= token[i] <= '9'
  }

  function IndexOf(token: string): nat
    requires forall i :: 0 <= i < |token| ==> '0' <= token[i] <= '9'
  {
    if token == "" then 0 else 10 * IndexOf(token[..|token| - 1]) + (token[|token| - 1] - '0') as nat
  }

  /** Evaluation by RFC 6901, array indices included. */
  function Evaluate(value: Json, tokens: seq<string>): Result<Json> {
    if tokens == [] then Ok(value)
    else
      var token := Unescape(tokens[0]);
      match value
      case Obj(fields) => if token in fields then Evaluate(fields[token], tokens[1..]) else Err
      case Arr(items) => if IsIndex(token) && IndexOf(token) < |items| then Evaluate(items[IndexOf(token)], tokens[1..]) else Err
      case _ => Err
  }

  lemma {:induction false} WalkEvaluates(value: Json, tokens: seq<string>)
    ensures Walk(value, tokens).Ok? ==> Evaluate(value, tokens) == Walk(value, tokens)
  {
    if tokens != [] && value.Obj? && DecodeToken(tokens[0]) in value.fields {
      DecodeIsUnescape(tokens[0]);
      WalkEvaluates(value.fields[DecodeToken(tokens[0])], tokens[1..]);
    }
  }

  /** What _pointer finds is what RFC 6901 finds, if the reference does not start with two slashes. */
  lemma PointerEvaluates(document: Json, reference: string)
    requires Lookup(document, reference).Ok? && !(|reference| >= 2 && reference[1] == '/')
    ensures Evaluate(document, Split(reference[1..])) == Lookup(document, reference)
  {
    TokensAgreeExactly(reference);
    WalkEvaluates(document, Split(StripLeft(reference)));
  }

  /** The tokens of a pointer, put together again. */
  function Joined(tokens: seq<string>): string {
    if tokens == [] then ""
    else if |tokens| == 1 then tokens[0]
    else tokens[0] + "/" + Joined(tokens[1..])
  }

  /** The tokens are what stands between the slashes. */
  lemma {:induction false} SplitJoins(s: string)
    ensures Joined(Split(s)) == s
    ensures forall i :: 0 <= i < |Split(s)| ==> '/' !in Split(s)[i]
  {
    if s != "" {
      SplitJoins(s[1..]);
      var rest := Split(s[1..]);
      if s[0] == '/' {
        assert Split(s)[1..] == rest && Joined(Split(s)) == "" + "/" + Joined(rest);
      } else {
        assert Split(s)[1..] == rest[1..] && Split(s)[0] == [s[0]] + rest[0];
        assert Joined(Split(s)) == [s[0]] + Joined(rest);
      }
      assert s == [s[0]] + s[1..];
    }
  }

  /** The way along the tokens comes to an array before it ends. */
  predicate MeetsArray(value: Json, tokens: seq<string>) {
    && tokens != []
    && (value.Arr? || (value.Obj? && Unescape(tokens[0]) in value.fields && MeetsArray(value.fields[Unescape(tokens[0])], tokens[1..])))
  }

  lemma {:induction false} WalksExactly(value: Json, tokens: seq<string>)
    ensures Walk(value, tokens).Ok? <==> Evaluate(value, tokens).Ok? && !MeetsArray(value, tokens)
  {
    if tokens != [] {
      DecodeIsUnescape(tokens[0]);
      if value.Obj? && Unescape(tokens[0]) in value.fields {
        WalksExactly(value.fields[Unescape(tokens[0])], tokens[1..]);
      }
    }
  }

  /**
   A reference is followed if and only if it is a string that starts with `#/`; if no
   other slash comes next, it is found if and only if RFC 6901 finds it without going
   through an array, and then it is what RFC 6901 finds.
   */
  lemma FollowedExactly(document: Json, r: Json)
    ensures Safe(r) <==> exists p :: r == Str(Plain("#/" + p))
    ensures !Safe(r) ==> TargetOf(document, r).Err?
    ensures forall p: string :: r == Str(Plain("#/" + p)) && !(p != "" && p[0] == '/') ==>
      && (TargetOf(document, r).Ok? <==> Evaluate(document, Split(p)).Ok? && !MeetsArray(document, Split(p)))
      && (TargetOf(document, r).Ok? ==> TargetOf(document, r) == Evaluate(document, Split(p)))
  {
    if Safe(r) {
      assert r.text.text == "#/" + r.text.text[2..];
      assert r == Str(Plain("#/" + r.text.text[2..]));
    }
    forall p: string | r == Str(Plain("#/" + p)) && !(p != "" && p[0] == '/')
      ensures TargetOf(document, r).Ok? <==> Evaluate(document, Split(p)).Ok? && !MeetsArray(document, Split(p))
      ensures TargetOf(document, r).Ok? ==> TargetOf(document, r) == Evaluate(document, Split(p))
    {
      FoundExactly(document, r, p);
    }
  }

  lemma FoundExactly(document: Json, r: Json, p: string)
    requires r == Str(Plain("#/" + p)) && !(p != "" && p[0] == '/')
    ensures Safe(r)
    ensures TargetOf(document, r).Ok? <==> Evaluate(document, Split(p)).Ok? && !MeetsArray(document, Split(p))
    ensures TargetOf(document, r).Ok? ==> TargetOf(document, r) == Evaluate(document, Split(p))
  {
    var reference := r.text.text[1..];
    assert reference == "/" + p && reference[1..] == p;
    TokensAgreeExactly(reference);
    WalksExactly(document, Split(p));
    WalkEvaluates(document, Split(p));
  }

  /** With two slashes it can find something else: the member `a`, where the standard asks for the member `` first. */
  lemma DoubleSlashDiffers()
    ensures var document := Obj(map["a" := Scalar(1)]);
      Lookup(document, "//a") == Ok(Scalar(1)) && Evaluate(document, Split("//a"[1..])) == Err
  {
    var document := Obj(map["a" := Scalar(1)]);
    assert "//a"[1..] == "/a" && "/a"[1..] == "a" && "a"[1..] == "";
    assert Split("") == [""] && [""][1..] == [] && ['a'] + "" == "a";
    assert Split("a") == ["a"] && Split("/a") == ["", "a"];
    assert StripLeft("//a") == "a";
    DecodeIsUnescape("a");
    assert Unescape("a") == "a";
    assert Unescape("") == "";
  }

  // ---------- expansion ----------

  /** No reference cycle: every reference ranks above the references inside its target. */
  ghost predicate Acyclic(document: Json, all: set<Json>, rank: map<Json, nat>) {
    && all <= rank.Keys
    && (forall r, q :: r in all && TargetOf(document, r).Ok? && q in RefsIn(TargetOf(document, r).value) && q in all ==> rank[q] < rank[r])
  }

  /** Every reference still inside ranks below every reference already followed. */
  ghost predicate Below(refs: set<Json>, seen: set<Json>, rank: map<Json, nat>)
    requires refs <= rank.Keys && seen <= rank.Keys
  {
    forall q, r :: q in refs && r in seen ==> rank[q] < rank[r]
  }

  ghost predicate Ordered(value: Json, document: Json, seen: set<Json>, all: set<Json>, rank: map<Json, nat>) {
    && RefsIn(value) <= all && RefsIn(document) <= all && seen <= all
    && Acyclic(document, all, rank) && Below(RefsIn(value), seen, rank)
  }

  predicate NoRefs(j: Json) {
    RefsIn(j) == {}
  }

  lemma OrderedTarget(value: Json, document: Json, seen: set<Json>, all: set<Json>, rank: map<Json, nat>)
    requires Ordered(value, document, seen, all, rank) && value.Obj? && REF in value.fields
    requires TargetOf(document, value.fields[REF]).Ok?
    ensures value.fields[REF] !in seen
    ensures Ordered(TargetOf(document, value.fields[REF]).value, document, seen + {value.fields[REF]}, all, rank)
  {
    var r := value.fields[REF];
    assert r in RefsIn(value);
    TargetRefs(document, r);
    var target := TargetOf(document, r).value;
    forall q, s | q in RefsIn(target) && s in seen + {r}
      ensures rank[q] < rank[s]
    {
      assert rank[q] < rank[r];
      if s in seen {
        assert rank[r] < rank[s];
      }
    }
  }

  lemma ChildRefs(value: Json, k: string)
    requires value.Obj? && k in value.fields
    ensures RefsIn(value.fields[k]) <= RefsIn(value)
  {
  }

  /** Without a cycle, what expansion returns contains no reference at all. */
  lemma {:induction false} NoRefsLeft(value: Json, document: Json, seen: set<Json>, all: set<Json>, rank: map<Json, nat>)
    requires Ordered(value, document, seen, all, rank)
    ensures Resolve(value, document, seen, all).Ok? ==> NoRefs(Resolve(value, document, seen, all).value)
    decreases |all - seen|, value, 2
  {
    match value
    case Arr(items) => NoRefsInItems(items, document, seen, all, rank);
    case Obj(fields) =>
      if REF in fields {
        NoRefsInTarget(value, document, seen, all, rank);
      } else {
        NoRefsInChildren(value, document, seen, all, rank);
      }
    case _ =>
  }

  lemma {:induction false} NoRefsInItems(items: seq<Json>, document: Json, seen: set<Json>, all: set<Json>, rank: map<Json, nat>)
    requires Ordered(Arr(items), document, seen, all, rank)
    ensures var r := ResolveItems(items, document, seen, all); r.Ok? ==> NoRefs(r.value)
    decreases |all - seen|, items, 1
  {
    forall i | 0 <= i < |items|
      ensures var r := Resolve(items[i], document, seen, all); r.Ok? ==> NoRefs(r.value)
    {
      NoRefsLeft(items[i], document, seen, all, rank);
    }
  }

  lemma {:induction false} NoRefsInChildren(value: Json, document: Json, seen: set<Json>, all: set<Json>, rank: map<Json, nat>)
    requires value.Obj? && Ordered(value, document, seen, all, rank)
    ensures var r := ResolveChildren(value, document, seen, all); r.Ok? ==> r.value.Obj? && REF !in r.value.fields && NoRefs(r.value)
    decreases |all - seen|, value, 0
  {
    forall k | k in value.fields
      ensures var r := Resolve(value.fields[k], document, seen, all); r.Ok? ==> NoRefs(r.value)
    {
      ChildRefs(value, k);
      NoRefsLeft(value.fields[k], document, seen, all, rank);
    }
  }

  lemma RefKey(j: Json)
    requires j.Obj?
    ensures REF in j.fields ==> j.fields[REF] in RefsIn(j)
  {
  }

  lemma MergeNoRefs(a: Json, b: Json)
    requires NoRefs(a) && NoRefs(b)
    ensures Merge(a, b).Ok? ==> NoRefs(Merge(a, b).value)
  {
    if a.Obj? && b.Obj? {
      var m := Merge(a, b).value;
      RefKey(a);
      RefKey(b);
      forall k | k in m.fields
        ensures RefsIn(m.fields[k]) == {}
      {
        if k in b.fields {
          ChildRefs(b, k);
        } else {
          ChildRefs(a, k);
        }
      }
    }
  }

  lemma {:induction false} NoRefsInTarget(value: Json, document: Json, seen: set<Json>, all: set<Json>, rank: map<Json, nat>)
    requires value.Obj? && REF in value.fields && Ordered(value, document, seen, all, rank)
    ensures var r := ResolveReference(value, document, seen, all); r.Ok? ==> NoRefs(r.value)
    decreases |all - seen|, value, 1
  {
    var r := value.fields[REF];
    assert r in RefsIn(value);
    if TargetOf(document, r).Ok? {
      OrderedTarget(value, document, seen, all, rank);
      Fewer(all, seen, r);
      NoRefsLeft(TargetOf(document, r).value, document, seen + {r}, all, rank);
      NoRefsInChildren(value, document, seen, all, rank);
    }
    FollowedNoRefs(value, document, seen, all);
  }

  lemma FollowedNoRefs(value: Json, document: Json, seen: set<Json>, all: set<Json>)
    requires value.Obj? && REF in value.fields && RefsIn(value) <= all && RefsIn(document) <= all
    requires TargetOf(document, value.fields[REF]).Ok? ==>
      && value.fields[REF] !in seen
      && RefsIn(TargetOf(document, value.fields[REF]).value) <= all
      && (var resolved := Resolve(TargetOf(document, value.fields[REF]).value, document, seen + {value.fields[REF]}, all);
          resolved.Ok? ==> NoRefs(resolved.value))
      && (var rest := ResolveChildren(value, document, seen, all); rest.Ok? ==> NoRefs(rest.value))
    requires TargetOf(document, value.fields[REF]).Err? ==> value.fields[REF] !in seen
    ensures var r := ResolveReference(value, document, seen, all); r.Ok? ==> NoRefs(r.value)
  {
    var r := value.fields[REF];
    if TargetOf(document, r).Ok? {
      var resolved, rest := Resolve(TargetOf(document, r).value, document, seen + {r}, all), ResolveChildren(value, document, seen, all);
      if resolved.Ok? && rest.Ok? {
        MergeNoRefs(resolved.value, rest.value);
      }
    }
  }

  // ---------- when expansion succeeds ----------

  /** Every reference is followable and names an object. */
  ghost predicate Sound(document: Json, all: set<Json>) {
    forall r :: r in all ==> TargetOf(document, r).Ok? && TargetOf(document, r).value.Obj?
  }

  /** With sound references, expansion never raises, and turns objects into objects. */
  lemma {:induction false} SoundResolves(value: Json, document: Json, seen: set<Json>, all: set<Json>)
    requires RefsIn(value) <= all && RefsIn(document) <= all && Sound(document, all)
    ensures Resolve(value, document, seen, all).Ok?
    ensures value.Obj? ==> Resolve(value, document, seen, all).value.Obj?
    decreases |all - seen|, value, 2
  {
    match value
    case Arr(items) =>
      forall i | 0 <= i < |items|
        ensures Resolve(items[i], document, seen, all).Ok?
      {
        SoundResolves(items[i], document, seen, all);
      }
    case Obj(fields) =>
      SoundChildren(value, document, seen, all);
      if REF in fields {
        SoundTarget(value, document, seen, all);
      }
    case _ =>
  }

  lemma {:induction false} SoundChildren(value: Json, document: Json, seen: set<Json>, all: set<Json>)
    requires value.Obj? && RefsIn(value) <= all && RefsIn(document) <= all && Sound(document, all)
    ensures ResolveChildren(value, document, seen, all).Ok? && ResolveChildren(value, document, seen, all).value.Obj?
    decreases |all - seen|, value, 0
  {
    forall k | k in value.fields
      ensures Resolve(value.fields[k], document, seen, all).Ok?
    {
      ChildRefs(value, k);
      SoundResolves(value.fields[k], document, seen, all);
    }
  }

  lemma {:induction false} SoundTarget(value: Json, document: Json, seen: set<Json>, all: set<Json>)
    requires value.Obj? && REF in value.fields && RefsIn(value) <= all && RefsIn(document) <= all && Sound(document, all)
    requires ResolveChildren(value, document, seen, all).Ok? && ResolveChildren(value, document, seen, all).value.Obj?
    ensures ResolveReference(value, document, seen, all).Ok? && ResolveReference(value, document, seen, all).value.Obj?
    decreases |all - seen|, value, 1
  {
    var r := value.fields[REF];
    RefKey(value);
    assert TargetOf(document, r).Ok? && TargetOf(document, r).value.Obj?;
    TargetRefs(document, r);
    if r !in seen {
      Fewer(all, seen, r);
      SoundResolves(TargetOf(document, r).value, document, seen + {r}, all);
      FollowedSound(value, document, seen, all, TargetOf(document, r).value);
    }
  }

  lemma FollowedSound(value: Json, document: Json, seen: set<Json>, all: set<Json>, target: Json)
    requires value.Obj? && REF in value.fields && RefsIn(value) <= all && RefsIn(document) <= all
    requires TargetOf(document, value.fields[REF]) == Ok(target) && RefsIn(target) <= all && value.fields[REF] !in seen
    requires ResolveChildren(value, document, seen, all).Ok? && ResolveChildren(value, document, seen, all).value.Obj?
    requires var resolved := Resolve(target, document, seen + {value.fields[REF]}, all); resolved.Ok? && resolved.value.Obj?
    ensures ResolveReference(value, document, seen, all).Ok? && ResolveReference(value, document, seen, all).value.Obj?
  {
  }

  /** _resolve_local_refs as its callers start it. */
  function Expand(value: Json, document: Json): Result<Json> {
    Resolve(value, document, {}, RefsIn(value) + RefsIn(document))
  }

  /**
   A document whose references are acyclic and name objects expands completely:
   the expansion succeeds and no `$ref` is left in it.
   */
  lemma ExpandsFully(value: Json, document: Json, rank: map<Json, nat>)
    requires var all := RefsIn(value) + RefsIn(document); Sound(document, all) && Acyclic(document, all, rank)
    ensures Expand(value, document).Ok? && NoRefs(Expand(value, document).value)
  {
    var all := RefsIn(value) + RefsIn(document);
    SoundResolves(value, document, {}, all);
    NoRefsLeft(value, document, {}, all, rank);
  }

  // ---------- values without references ----------

  /** A value without references expands to itself, so an expansion without cycles is idempotent. */
  lemma {:induction false} NothingToExpand(value: Json, document: Json, seen: set<Json>, all: set<Json>)
    requires NoRefs(value) && RefsIn(document) <= all
    ensures Resolve(value, document, seen, all) == Ok(value)
    decreases value
  {
    match value
    case Arr(items) =>
      forall i | 0 <= i < |items|
        ensures NoRefs(items[i]) && Resolve(items[i], document, seen, all) == Ok(items[i])
      {
        ItemRefs(items, i);
        NothingToExpand(items[i], document, seen, all);
      }
      SameItems(items, document, seen, all);
    case Obj(fields) =>
      forall k | k in fields
        ensures k != REF && NoRefs(fields[k]) && Resolve(fields[k], document, seen, all) == Ok(fields[k])
      {
        ChildRefs(value, k);
        RefKey(value);
        NothingToExpand(fields[k], document, seen, all);
      }
      SameChildren(value, document, seen, all);
    case _ =>
  }

  lemma ItemRefs(items: seq<Json>, i: nat)
    requires i < |items|
    ensures RefsIn(items[i]) <= RefsIn(Arr(items))
  {
  }

  lemma SameItems(items: seq<Json>, document: Json, seen: set<Json>, all: set<Json>)
    requires RefsIn(document) <= all && forall i :: 0 <= i < |items| ==> RefsIn(items[i]) <= all
    requires forall i :: 0 <= i < |items| ==> Resolve(items[i], document, seen, all) == Ok(items[i])
    ensures ResolveItems(items, document, seen, all) == Ok(Arr(items))
  {
    assert ResolveItems(items, document, seen, all).Ok?;
    assert ResolveItems(items, document, seen, all).value.items == items;
  }

  lemma SameChildren(value: Json, document: Json, seen: set<Json>, all: set<Json>)
    requires value.Obj? && REF !in value.fields && RefsIn(value) <= all && RefsIn(document) <= all
    requires forall k :: k in value.fields ==>
      RefsIn(value.fields[k]) <= all && Resolve(value.fields[k], document, seen, all) == Ok(value.fields[k])
    ensures ResolveChildren(value, document, seen, all) == Ok(value)
  {
    assert ResolveChildren(value, document, seen, all).Ok?;
    assert ResolveChildren(value, document, seen, all).value.fields == value.fields;
  }
}
