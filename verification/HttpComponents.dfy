/** _shared_http_components: repeated request bodies and responses become components, in place. */
module HttpComponents {
  import opened Common

  datatype Group = RequestBodies | Responses

  /**
   A request body or response, or `{"$ref": ...}` to a component of a group. The
   component is named by the digest of what it holds, so the pointer is modelled by
   that content.
   */
  datatype Content = Plain(id: nat) | Ref(group: Group, target: Content)

  /** One place of the paths document that holds a request body or a response. */
  datatype Slot = Slot(group: Group, content: Content)

  type Components = map<Slot, Content>

  /** The same content stands in at least two places of its group. */
  ghost predicate Repeated(slots: seq<Slot>, s: Slot) {
    exists i, j :: 0 <= i < j < |slots| && slots[i] == s && slots[j] == s
  }

  function Reference(s: Slot): Slot {
    Slot(s.group, Ref(s.group, s.content))
  }

  /** The places of each content, in order of appearance. */
  ghost predicate Indexed(uses: map<Slot, seq<nat>>, slots: seq<Slot>) {
    && (forall i :: 0 <= i < |slots| ==> slots[i] in uses && i in uses[slots[i]])
    && (forall s :: s in uses ==>
          && 0 < |uses[s]|
          && (forall k :: 0 <= k < |uses[s]| ==> uses[s][k] < |slots| && slots[uses[s][k]] == s)
          && (forall k, l :: 0 <= k < l < |uses[s]| ==> uses[s][k] < uses[s][l]))
  }

  lemma RepeatedIsTwoUses(uses: map<Slot, seq<nat>>, slots: seq<Slot>, s: Slot)
    requires Indexed(uses, slots) && s in uses
    ensures |uses[s]| > 1 <==> Repeated(slots, s)
  {
    if |uses[s]| > 1 {
      assert slots[uses[s][0]] == s && slots[uses[s][1]] == s;
    }
    if i, j :| 0 <= i < j < |slots| && slots[i] == s && slots[j] == s {
      assert i in uses[s] && j in uses[s];
    }
  }

  /** The first loop: where every content is used. */
  method CollectUses(slots: seq<Slot>) returns (uses: map<Slot, seq<nat>>)
    ensures Indexed(uses, slots)
  {
    uses := map[];
    for i := 0 to |slots|
      invariant Indexed(uses, slots[..i])
    {
      var before := if slots[i] in uses then uses[slots[i]] else [];
      IndexOneMore(uses, slots, i, before);
      uses := uses[slots[i] := before + [i]];
    }
    assert slots[..|slots|] == slots;
  }

  lemma IndexOneMore(uses: map<Slot, seq<nat>>, slots: seq<Slot>, i: nat, before: seq<nat>)
    requires i < |slots| && Indexed(uses, slots[..i])
    requires before == if slots[i] in uses then uses[slots[i]] else []
    ensures Indexed(uses[slots[i] := before + [i]], slots[..i + 1])
  {
    var next, more := uses[slots[i] := before + [i]], slots[..i + 1];
    assert forall j :: 0 <= j < i ==> more[j] == slots[..i][j];
    forall j | 0 <= j < |more|
      ensures more[j] in next && j in next[more[j]]
    {
      if j < i {
        assert j in uses[more[j]];
      } else {
        assert (before + [i])[|before|] == i;
      }
    }
  }

  /** The place after the rewriting: a reference where the content is repeated. */
  ghost predicate Rewritten(was: seq<Slot>, i: nat, now: Slot)
    requires i < |was|
  {
    now == if Repeated(was, was[i]) then Reference(was[i]) else was[i]
  }

  /** _shared_http_components over the places of a paths document. */
  method ShareComponents(slots: array<Slot>) returns (shared: Components)
    modifies slots
    ensures forall i :: 0 <= i < slots.Length ==> Rewritten(old(slots[..]), i, slots[i])
    ensures forall s :: s in shared <==> s in old(slots[..]) && Repeated(old(slots[..]), s)
    ensures forall s :: s in shared ==> shared[s] == s.content
  {
    ghost var was := slots[..];
    var uses := CollectUses(slots[..]);
    shared := map[];
    var todo := uses.Keys;
    while todo != {}
      invariant todo <= uses.Keys
      invariant forall i :: 0 <= i < slots.Length ==>
        if was[i] in todo then slots[i] == was[i] else Rewritten(was, i, slots[i])
      invariant forall s :: s in shared <==> s in uses && s !in todo && Repeated(was, s)
      invariant forall s :: s in shared ==> shared[s] == s.content
    {
      var s :| s in todo;
      RepeatedIsTwoUses(uses, was, s);
      if |uses[s]| > 1 {
        shared := shared[s := slots[uses[s][0]].content];
        Rewrite(slots, uses[s], s, was, todo, uses);
      }
      todo := todo - {s};
    }
  }

  /** The inner loop: every use of one content becomes a reference. */
  method Rewrite(slots: array<Slot>, places: seq<nat>, s: Slot, ghost was: seq<Slot>, ghost todo: set<Slot>, ghost uses: map<Slot, seq<nat>>)
    requires |was| == slots.Length && Indexed(uses, was) && s in uses && places == uses[s]
    modifies slots
    ensures forall i :: 0 <= i < slots.Length ==>
      slots[i] == if was[i] == s then Reference(s) else old(slots[i])
  {
    for k := 0 to |places|
      invariant forall i :: 0 <= i < slots.Length ==> slots[i] == if i in places[..k] then Reference(s) else old(slots[i])
    {
      slots[places[k]] := Slot(s.group, Ref(s.group, s.content));
      assert places[..k + 1] == places[..k] + [places[k]];
    }
    assert places[..|places|] == places;
  }

  // ---------- putting the components back ----------

  function Dereference(s: Slot, shared: Components): Slot {
    if s.content.Ref? && s.content.group == s.group && Slot(s.group, s.content.target) in shared
    then Slot(s.group, shared[Slot(s.group, s.content.target)]) else s
  }

  /** The place already held a reference to one of the new components. */
  predicate RefersInto(s: Slot, shared: Components) {
    s.content.Ref? && s.content.group == s.group && Slot(s.group, s.content.target) in shared
  }

  /**
   Dereferencing restores a place if and only if it did not itself already refer,
   unshared, to one of the components.
   */
  lemma DereferenceRestores(was: seq<Slot>, i: nat, now: Slot, shared: Components)
    requires i < |was| && Rewritten(was, i, now)
    requires forall s :: s in shared <==> s in was && Repeated(was, s)
    requires forall s :: s in shared ==> shared[s] == s.content
    ensures Dereference(now, shared) == was[i] <==> Repeated(was, was[i]) || !RefersInto(was[i], shared)
  {
    assert was[i] in was;
    if !Repeated(was, was[i]) && RefersInto(was[i], shared) {
      NoSelfReference(was[i].content);
    }
  }

  function Depth(c: Content): nat {
    if c.Ref? then 1 + Depth(c.target) else 0
  }

  lemma NoSelfReference(c: Content)
    requires c.Ref?
    ensures c.target != c
  {
    assert Depth(c) == 1 + Depth(c.target);
  }
}
