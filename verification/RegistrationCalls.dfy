/** What register_catalog, retire_catalog and active_registration_matches do when nothing interferes. */
module RegistrationCalls {
  import opened Common
  import opened Registration
  import opened RegistrationTheorems

  function StepsLeft(pc: Pc): nat {
    match pc
    case Ensure(_, _) => 9
    case EnsureRead(_, _) => 8
    case Activate(_) => 7
    case ActivateRead(_) => 6
    case Advance(_, _) => 5
    case RetirePrevious(_, _) => 4
    case RetiredRead(_, _) => 3
    case Publish(_, _) => 2
    case PublishRead(_, _) => 1
    case RetireLook(_) => 7
    case RetirePending(j) => if j.second then 3 else 6
    case RetirePublished(j) => if j.second then 2 else 5
    case RetireCheck(j) => if j.second then 1 else 4
    case MatchDocument(_) => 2
    case MatchRegistration(_, _) => 1
    case _ => 0
  }

  /** The call runs to its end without interference. */
  function Undisturbed(s: Authority, pc: Pc): (Authority, Pc)
    decreases StepsLeft(pc)
  {
    if Over(pc) then (s, pc) else Undisturbed(Step(s, pc).0, Step(s, pc).1)
  }

  lemma Ended(s: Authority, pc: Pc)
    requires Over(pc)
    ensures Undisturbed(s, pc) == (s, pc)
  {
  }

  // ---------- active_registration_matches ----------

  /** True if and only if the document stands at the binding and the registration it names is published with that binding. */
  lemma MatchAlone(s: Authority, b: Binding)
    ensures Undisturbed(s, MatchDocument(b)) ==
      (s, Matched(b, DocumentOf(b) in s.documents && s.documents[DocumentOf(b)].binding == b
                     && (var id := s.documents[DocumentOf(b)].registration;
                         id in s.registrations && s.registrations[id].binding == b && s.registrations[id].status == Published)))
  {
    var pc := Step(s, MatchDocument(b)).1;
    if pc.MatchRegistration? {
      Ended(s, Step(s, pc).1);
    }
  }

  // ---------- retire_catalog ----------

  /** A registration that is there becomes retired, whatever it was. */
  function RetiredIn(s: Authority, id: RegistrationId): Authority {
    if id in s.registrations then s.(registrations := s.registrations[id := s.registrations[id].(status := Retired)]) else s
  }

  lemma SecondRetired(s: Authority, j: Job)
    requires j.second && j.predecessor.Some? && j.predecessor.value in s.registrations
    ensures Undisturbed(s, RetirePending(j)) == (RetiredIn(s, j.predecessor.value), RetireDone(j))
  {
    var id := j.predecessor.value;
    if s.registrations[id].status == Retired {
      assert s.registrations[id := s.registrations[id]] == s.registrations;
      assert Undisturbed(s, RetirePublished(j)) == Undisturbed(s, RetireCheck(j));
      assert Undisturbed(s, RetireCheck(j)) == Undisturbed(s, RetireDone(j));
    } else if s.registrations[id].status == Published {
      assert Undisturbed(s, RetirePublished(j)) == Undisturbed(RetiredIn(s, id), RetireDone(j));
    } else {
      assert Undisturbed(s, RetirePending(j)) == Undisturbed(RetiredIn(s, id), RetireDone(j));
    }
  }

  /** The first half: its own registration, which may be missing. */
  lemma FirstRetired(s: Authority, j: Job)
    requires !j.second && !j.missing
    ensures Undisturbed(s, RetirePending(j))
      == Undisturbed(RetiredIn(s, j.own), AfterRetire(j.(missing := j.own !in s.registrations)))
  {
    var id := j.own;
    if id !in s.registrations {
      assert Undisturbed(s, RetirePublished(j)) == Undisturbed(s, RetireCheck(j));
    } else if s.registrations[id].status == Retired {
      assert s.registrations[id := s.registrations[id]] == s.registrations;
      assert Undisturbed(s, RetirePublished(j)) == Undisturbed(s, RetireCheck(j));
      assert j.(missing := false) == j;
    } else if s.registrations[id].status == Published {
      assert Undisturbed(s, RetirePending(j)) == Undisturbed(s, RetirePublished(j));
      assert j.(missing := false) == j;
    } else {
      assert j.(missing := false) == j;
    }
  }

  /**
   The registration of the binding is retired if it is there, and so is the
   predecessor that the document names while it still stands at this binding;
   everything else is left alone.
   */
  lemma RetireAlone(s: Authority, b: Binding)
    requires AuthorityInv(s)
    ensures var d := DocumentOf(b); var own := RegistrationOf(b);
      var current := d in s.documents && s.documents[d].binding == b;
      var previous := if current && s.documents[d].previous != Some(own) then s.documents[d].previous else None;
      var t := Undisturbed(s, RetireLook(b)).0; var pc := Undisturbed(s, RetireLook(b)).1;
      && pc.RetireDone? && pc.job.own == own && pc.job.missing == (own !in s.registrations)
      && t.documents == s.documents && t.registrations.Keys == s.registrations.Keys
      && forall id :: id in s.registrations ==>
           t.registrations[id] == if id == own || Some(id) == previous then s.registrations[id].(status := Retired) else s.registrations[id]
  {
    var j := Job(RegistrationOf(b), PreviousOf(s, b), false, false);
    assert Undisturbed(s, RetireLook(b)) == Undisturbed(s, RetirePending(j));
    FirstRetired(s, j);
    var k := j.(missing := j.own !in s.registrations);
    if j.predecessor.Some? {
      SecondRetired(RetiredIn(s, j.own), k.(second := true));
    } else {
      Ended(RetiredIn(s, j.own), RetireDone(k));
    }
  }

  // ---------- register_catalog ----------

  /** The registration of the binding is new, or this very registration and not retired. */
  predicate Acceptable(s: Authority, b: Binding, descriptors: nat) {
    RegistrationOf(b) in s.registrations ==>
      && s.registrations[RegistrationOf(b)].binding == b && s.registrations[RegistrationOf(b)].descriptors == descriptors
      && s.registrations[RegistrationOf(b)].status != Retired
  }

  /** The predecessor that the document names once it stands at the binding. */
  function Predecessor(s: Authority, b: Binding): Option<RegistrationId> {
    var d := DocumentOf(b);
    if d !in s.documents then None
    else if s.documents[d].binding == b then s.documents[d].previous
    else Some(s.documents[d].registration)
  }

  /** The document is free or of the same authority, and the predecessor is published or retired. */
  predicate Replaceable(s: Authority, b: Binding) {
    var d, previous := DocumentOf(b), Predecessor(s, b);
    && (d in s.documents ==> s.documents[d].binding.identity == b.identity)
    && (previous.Some? && previous.value != RegistrationOf(b) ==>
          previous.value in s.registrations && s.registrations[previous.value].status != Pending)
  }

  /** The registration and the document after the first two operations. */
  function Placed(s: Authority, b: Binding, descriptors: nat): Authority {
    var id, d := RegistrationOf(b), DocumentOf(b);
    Authority(if id in s.registrations then s.registrations else s.registrations[id := Node(b, descriptors, Pending)],
              if d in s.documents && s.documents[d].binding == b then s.documents
              else s.documents[d := Document(b, id, Predecessor(s, b))])
  }

  lemma EnsureAlone(s: Authority, b: Binding, descriptors: nat)
    ensures Undisturbed(s, Ensure(b, descriptors)) ==
      if Acceptable(s, b, descriptors)
      then Undisturbed(s.(registrations := Placed(s, b, descriptors).registrations), Activate(b)) else (s, Raised)
  {
    if RegistrationOf(b) in s.registrations {
      assert s.(registrations := s.registrations) == s;
      assert Undisturbed(s, Ensure(b, descriptors)) == Undisturbed(s, EnsureRead(b, descriptors));
      Ended(s, Raised);
    }
  }

  lemma ActivateAlone(s: Authority, b: Binding)
    ensures var d := DocumentOf(b);
      var documents := if d in s.documents && s.documents[d].binding == b then s.documents
                       else s.documents[d := Document(b, RegistrationOf(b), Predecessor(s, b))];
      Undisturbed(s, Activate(b)) ==
        if d in s.documents && s.documents[d].binding.identity != b.identity then (s, Raised)
        else Undisturbed(s.(documents := documents), RetirePrevious(b, Predecessor(s, b)))
  {
    var d := DocumentOf(b);
    if d in s.documents {
      var seen := s.documents[d];
      assert Undisturbed(s, Activate(b)) == Undisturbed(s, ActivateRead(b));
      if seen.binding == b {
        assert s.(documents := s.documents) == s;
      } else if seen.binding.identity == b.identity {
        assert b.(identity := seen.binding.identity) == b;
        assert Undisturbed(s, ActivateRead(b)) == Undisturbed(s, Advance(b, seen));
      } else {
        Ended(s, Raised);
      }
    }
  }

  lemma PublishAlone(s: Authority, b: Binding, previous: Option<RegistrationId>)
    requires RegistrationOf(b) in s.registrations && s.registrations[RegistrationOf(b)].status != Retired
    ensures Undisturbed(s, Publish(b, previous))
      == (s.(registrations := s.registrations[RegistrationOf(b) := s.registrations[RegistrationOf(b)].(status := Published)]), Registered(b, previous))
  {
    var id := RegistrationOf(b);
    if s.registrations[id].status == Published {
      assert s.registrations[id := s.registrations[id].(status := Published)] == s.registrations;
      assert Undisturbed(s, Publish(b, previous)) == Undisturbed(s, PublishRead(b, previous));
      Ended(s, Registered(b, previous));
    } else {
      Ended(SetStatus(s, id, Published), Registered(b, previous));
    }
  }

  lemma PreviousAlone(s: Authority, b: Binding, previous: Option<RegistrationId>)
    ensures Undisturbed(s, RetirePrevious(b, previous)) ==
      if previous.None? || previous.value == RegistrationOf(b) then Undisturbed(s, Publish(b, previous))
      else if previous.value in s.registrations && s.registrations[previous.value].status != Pending
      then Undisturbed(RetiredIn(s, previous.value), Publish(b, previous))
      else (s, Raised)
  {
    if previous.Some? && previous.value != RegistrationOf(b) && !Has(s, previous.value, Published) {
      assert Undisturbed(s, RetirePrevious(b, previous)) == Undisturbed(s, RetiredRead(b, previous.value));
      if Has(s, previous.value, Retired) {
        assert s.registrations[previous.value := s.registrations[previous.value]] == s.registrations;
      } else {
        Ended(s, Raised);
      }
    }
  }

  /**
   register_catalog succeeds if and only if the registration is acceptable and the
   document can be moved to it; then the document names it, it is published with these
   descriptors, its predecessor is retired, and everything else is left alone.
   */
  lemma RegisterAlone(s: Authority, b: Binding, descriptors: nat)
    ensures var t := Undisturbed(s, Ensure(b, descriptors)).0; var pc := Undisturbed(s, Ensure(b, descriptors)).1;
      var previous := Predecessor(s, b); var id := RegistrationOf(b);
      if Acceptable(s, b, descriptors) && Replaceable(s, b) then
        && pc == Registered(b, previous)
        && t.documents == Placed(s, b, descriptors).documents
        && t.registrations.Keys == s.registrations.Keys + {id}
        && t.registrations[id] == Node(b, descriptors, Published)
        && forall x :: x in s.registrations && x != id ==>
             t.registrations[x] == if Some(x) == previous then s.registrations[x].(status := Retired) else s.registrations[x]
      else pc == Raised
  {
    var id, previous := RegistrationOf(b), Predecessor(s, b);
    EnsureAlone(s, b, descriptors);
    var s1 := s.(registrations := Placed(s, b, descriptors).registrations);
    if Acceptable(s, b, descriptors) {
      ActivateAlone(s1, b);
      var s2 := Placed(s, b, descriptors);
      if DocumentOf(b) !in s.documents || s.documents[DocumentOf(b)].binding.identity == b.identity {
        assert s1.(documents := s2.documents) == s2;
        PreviousAlone(s2, b, previous);
        RegisterEnds(s, b, descriptors);
      }
    }
  }

  lemma RegisterEnds(s: Authority, b: Binding, descriptors: nat)
    requires Acceptable(s, b, descriptors)
    ensures var s2 := Placed(s, b, descriptors); var previous := Predecessor(s, b);
      && RegistrationOf(b) in s2.registrations && s2.registrations[RegistrationOf(b)].status != Retired
      && (previous.Some? && previous.value != RegistrationOf(b) && previous.value in s2.registrations ==>
            previous.value in s.registrations && s.registrations[previous.value] == s2.registrations[previous.value])
    ensures var s2 := Placed(s, b, descriptors); var previous := Predecessor(s, b);
      var s3 := if previous.Some? && previous.value != RegistrationOf(b) then RetiredIn(s2, previous.value) else s2;
      Undisturbed(s3, Publish(b, previous))
        == (s3.(registrations := s3.registrations[RegistrationOf(b) := Node(b, descriptors, Published)]), Registered(b, previous))
  {
    var s2, previous := Placed(s, b, descriptors), Predecessor(s, b);
    var s3 := if previous.Some? && previous.value != RegistrationOf(b) then RetiredIn(s2, previous.value) else s2;
    PublishAlone(s3, b, previous);
    assert s3.registrations[RegistrationOf(b)].(status := Published) == Node(b, descriptors, Published);
  }
}
