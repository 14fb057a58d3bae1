/** When a binding can still come to match, and so exactly what an early retirement bars. */
module RegistrationReach {
  import opened Common
  import opened Registration
  import opened RegistrationTheorems

  // ---------- continuations ----------

  ghost predicate Continues(states: seq<State>, s: State, t: State) {
    0 < |states| && states[0] == s && states[|states| - 1] == t && forall i :: StepAt(states, i)
  }

  /** Some interleaving leads from `s` to `t`. */
  ghost predicate Leads(s: State, t: State) {
    exists states :: Continues(states, s, t)
  }

  lemma Here(s: State)
    ensures Leads(s, s)
  {
    assert Continues([s], s, s);
  }

  lemma OneStep(s: State, t: State, u: State)
    requires Leads(s, t) && Next(t, u)
    ensures Leads(s, u)
  {
    var states :| Continues(states, s, t);
    var longer := states + [u];
    forall i: nat
      ensures StepAt(longer, i)
    {
      assert StepAt(states, i);
    }
    assert Continues(longer, s, u);
  }

  /** A call makes its next operation. */
  lemma Go(from: State, s: State, w: Worker) returns (t: State)
    requires Leads(from, s) && Inv(s) && w in s.workers && !Over(s.workers[w])
    ensures t == Stepped(s, w) && Leads(from, t) && Inv(t)
  {
    t := Stepped(s, w);
    OneStep(from, s, t);
    NextKeeps(s, t);
  }

  lemma Begin(from: State, s: State, pc: Pc) returns (t: State, w: Worker)
    requires Leads(from, s) && Inv(s) && Starting(pc)
    ensures w !in s.workers && t == s.(workers := s.workers[w := pc]) && Leads(from, t) && Inv(t)
  {
    w := Unused(s.workers.Keys);
    t := s.(workers := s.workers[w := pc]);
    OneStep(from, s, t);
    NextKeeps(s, t);
  }

  // ---------- the condition ----------

  /** Nothing final stands in the way of the binding: neither its registration nor its document. */
  predicate Open(s: Authority, b: Binding) {
    && (RegistrationOf(b) in s.registrations ==> Holds(s, b) && !Gone(s, RegistrationOf(b)))
    && (DocumentOf(b) in s.documents ==> s.documents[DocumentOf(b)].binding.identity == b.identity)
  }

  /** A call that has not started yet can come to match. */
  ghost predicate CanMatch(s: State, b: Binding) {
    exists t, w :: Leads(s, t) && w !in s.workers && w in t.workers && t.workers[w] == Matched(b, true)
  }

  // ---------- an open binding can come to match ----------

  /** The pointer stands at the binding, and its registration is not retired. */
  predicate Pointed(s: Authority, b: Binding) {
    && Holds(s, b) && !Gone(s, RegistrationOf(b))
    && DocumentOf(b) in s.documents && s.documents[DocumentOf(b)].binding == b
  }

  /** A registration call creates or finds the registration of an open binding. */
  lemma Ensured(from: State, s: State, b: Binding) returns (t: State, w: Worker)
    requires Leads(from, s) && Inv(s) && Open(s.authority, b)
    ensures Leads(from, t) && Inv(t) && w in t.workers && t.workers[w] == Activate(b) && w !in s.workers
    ensures forall v :: v in s.workers ==> v in t.workers
    ensures Holds(t.authority, b) && !Gone(t.authority, RegistrationOf(b)) && t.authority.documents == s.authority.documents
  {
    var id := RegistrationOf(b);
    var descriptors := if id in s.authority.registrations then s.authority.registrations[id].descriptors else 0;
    t, w := Begin(from, s, Ensure(b, descriptors));
    t := Go(from, t, w);
    if id in s.authority.registrations {
      t := Go(from, t, w);
    }
  }

  /** And moves the pointer of its document to it. */
  lemma Activated(from: State, s: State, w: Worker, b: Binding) returns (t: State, previous: Option<RegistrationId>)
    requires Leads(from, s) && Inv(s) && w in s.workers && s.workers[w] == Activate(b)
    requires Holds(s.authority, b) && !Gone(s.authority, RegistrationOf(b))
    requires DocumentOf(b) in s.authority.documents ==> s.authority.documents[DocumentOf(b)].binding.identity == b.identity
    ensures Leads(from, t) && Inv(t) && w in t.workers && t.workers[w] == RetirePrevious(b, previous)
    ensures forall v :: v in s.workers ==> v in t.workers
    ensures Pointed(t.authority, b)
  {
    t := Go(from, s, w);
    if DocumentOf(b) in s.authority.documents {
      var seen := s.authority.documents[DocumentOf(b)];
      t := Go(from, t, w);
      if seen.binding == b {
        previous := seen.previous;
      } else {
        assert b.(identity := seen.binding.identity) == b;
        t := Go(from, t, w);
        previous := Some(seen.registration);
      }
    } else {
      previous := None;
    }
  }

  /** A predecessor that is still pending is retired by a call of its own. */
  lemma Helped(from: State, s: State, w: Worker, b: Binding, predecessor: RegistrationId) returns (t: State)
    requires Leads(from, s) && Inv(s) && w in s.workers && s.workers[w] == RetirePrevious(b, Some(predecessor))
    requires Has(s.authority, predecessor, Pending) && predecessor != RegistrationOf(b) && Pointed(s.authority, b)
    ensures Leads(from, t) && Inv(t) && w in t.workers && t.workers[w] == s.workers[w] && Pointed(t.authority, b)
    ensures Gone(t.authority, predecessor)
    ensures forall v :: v in s.workers ==> v in t.workers
  {
    var other: Worker;
    t, other := Begin(from, s, RetireLook(s.authority.registrations[predecessor].binding));
    t := Go(from, t, other);
    t := Go(from, t, other);
  }

  lemma Cleared(from: State, s: State, w: Worker, b: Binding, previous: Option<RegistrationId>) returns (t: State)
    requires Leads(from, s) && Inv(s) && w in s.workers && s.workers[w] == RetirePrevious(b, previous) && Pointed(s.authority, b)
    requires previous.Some? ==> previous.value in s.authority.registrations
    ensures Leads(from, t) && Inv(t) && w in t.workers && t.workers[w] == Publish(b, previous) && Pointed(t.authority, b)
    ensures forall v :: v in s.workers ==> v in t.workers
  {
    t := s;
    if previous.Some? && previous.value != RegistrationOf(b) && !Has(s.authority, previous.value, Published) {
      if Has(s.authority, previous.value, Pending) {
        t := Helped(from, s, w, b, previous.value);
      }
      t := Go(from, t, w);
    }
    t := Go(from, t, w);
  }

  lemma Opened(from: State, s: State, w: Worker, b: Binding, previous: Option<RegistrationId>) returns (t: State)
    requires Leads(from, s) && Inv(s) && w in s.workers && s.workers[w] == Publish(b, previous) && Pointed(s.authority, b)
    ensures Leads(from, t) && Inv(t) && Pointed(t.authority, b) && Has(t.authority, RegistrationOf(b), Published)
    ensures forall v :: v in s.workers ==> v in t.workers
  {
    t := Go(from, s, w);
  }

  lemma Matches(from: State, s: State, b: Binding) returns (t: State, w: Worker)
    requires Leads(from, s) && Inv(s) && Pointed(s.authority, b) && Has(s.authority, RegistrationOf(b), Published)
    ensures Leads(from, t) && w !in s.workers && w in t.workers && t.workers[w] == Matched(b, true)
  {
    t, w := Begin(from, s, MatchDocument(b));
    t := Go(from, t, w);
    t := Go(from, t, w);
  }

  /** From any consistent state an open binding can be registered, and then matches. */
  lemma OpenCanMatch(s: State, b: Binding)
    requires Inv(s) && Open(s.authority, b)
    ensures CanMatch(s, b)
  {
    Here(s);
    var t, w := Ensured(s, s, b);
    var previous: Option<RegistrationId>;
    t, previous := Activated(s, t, w, b);
    assert PcOk(t.authority, t.workers[w]);
    t := Cleared(s, t, w, b, previous);
    t := Opened(s, t, w, b, previous);
    t, w := Matches(s, t, b);
  }

  // ---------- and no other can ----------

  /** A run to `s` and on to `t`. */
  lemma Joined(s: State, t: State) returns (states: seq<State>, i: nat)
    requires Reachable(s) && Leads(s, t)
    ensures Run(states) && i < |states| && states[i] == s && states[|states| - 1] == t
  {
    var first :| Run(first) && first[|first| - 1] == s;
    var second :| Continues(second, s, t);
    states := first + second[1..];
    i := |first| - 1;
    forall k: nat
      ensures StepAt(states, k)
    {
      assert StepAt(first, k);
      if k >= |first| {
        assert StepAt(second, k - i);
      }
    }
  }

  lemma CanMatchIsOpen(s: State, b: Binding)
    requires Reachable(s) && CanMatch(s, b)
    ensures Open(s.authority, b)
  {
    var t, w :| Leads(s, t) && w !in s.workers && w in t.workers && t.workers[w] == Matched(b, true);
    var states, i := Joined(s, t);
    var j := |states| - 1;
    if Gone(s.authority, RegistrationOf(b)) {
      NoMatchAfterRetirement(states, i, j, w, b);
    }
    var d, r := MatchWitness(states, j, w, b);
    SameOverTime(states, if d < i then d else i, if d < i then i else d, b);
    SameOverTime(states, if r < i then r else i, if r < i then i else r, b);
  }

  /** Between two states of a run neither the binding of a registration nor the authority of a document changes. */
  lemma SameOverTime(states: seq<State>, i: nat, j: nat, b: Binding)
    requires Run(states) && i <= j < |states|
    ensures var s, t := states[i].authority, states[j].authority;
      && (RegistrationOf(b) in s.registrations ==>
            RegistrationOf(b) in t.registrations && t.registrations[RegistrationOf(b)].binding == s.registrations[RegistrationOf(b)].binding)
      && (DocumentOf(b) in s.documents ==>
            DocumentOf(b) in t.documents && t.documents[DocumentOf(b)].binding.identity == s.documents[DocumentOf(b)].binding.identity)
  {
    HistoryIsForward(states, i, j);
  }

  lemma ReachableInv(s: State)
    requires Reachable(s)
    ensures Inv(s)
  {
    var states :| Run(states) && states[|states| - 1] == s;
    RunInv(states, |states| - 1);
  }

  /**
   In every reachable state: a later match call can still turn true if and only if
   the registration is absent, or is the binding's own and not retired, and the
   document is absent or has the binding's own authority.
   */
  lemma CanMatchExactly(s: State, b: Binding)
    requires Reachable(s)
    ensures CanMatch(s, b) <==> Open(s.authority, b)
  {
    ReachableInv(s);
    if Open(s.authority, b) {
      OpenCanMatch(s, b);
    }
    if CanMatch(s, b) {
      CanMatchIsOpen(s, b);
    }
  }

  /**
   The step in which a retirement finds no registration of its binding: it bars
   later matches if and only if the document belongs to another authority.
   */
  lemma EarlyRetirementBarsExactly(s: State, w: Worker, job: Job, b: Binding)
    requires Reachable(s) && w in s.workers && s.workers[w] == RetireCheck(job) && !job.second
    requires job.own == RegistrationOf(b) && job.own !in s.authority.registrations
    ensures Reachable(Stepped(s, w)) && Stepped(s, w).workers[w] == AfterRetire(job.(missing := true))
    ensures CanMatch(Stepped(s, w), b) <==>
      (DocumentOf(b) !in s.authority.documents || s.authority.documents[DocumentOf(b)].binding.identity == b.identity)
  {
    Extend(s, Stepped(s, w));
    CanMatchExactly(Stepped(s, w), b);
  }
}
