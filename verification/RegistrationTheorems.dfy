/** What registrations, retirements and matches keep in every interleaving. */
module RegistrationTheorems {
  import opened Common
  import opened Registration

  predicate Gone(s: Authority, id: RegistrationId) {
    id in s.registrations && s.registrations[id].status == Retired
  }

  predicate Holds(s: Authority, b: Binding) {
    RegistrationOf(b) in s.registrations && s.registrations[RegistrationOf(b)].binding == b
  }

  /**
   Every registration sits under the name of its own binding, and the pointer of a
   document names the registration of exactly the binding it stores.
   */
  ghost predicate AuthorityInv(s: Authority) {
    && (forall id :: id in s.registrations ==> RegistrationOf(s.registrations[id].binding) == id)
    && (forall d :: d in s.documents ==>
          && DocumentOf(s.documents[d].binding) == d
          && s.documents[d].registration == RegistrationOf(s.documents[d].binding)
          && Holds(s, s.documents[d].binding)
          && (s.documents[d].previous.Some? ==> s.documents[d].previous.value in s.registrations))
  }

  predicate Succeeds(s: Authority, b: Binding, previous: Option<RegistrationId>) {
    previous.Some? && previous.value != RegistrationOf(b) ==> Gone(s, previous.value)
  }

  predicate JobOk(s: Authority, j: Job) {
    && (j.second ==> j.predecessor.Some? && (j.missing || Gone(s, j.own)))
    && (j.predecessor.Some? ==> j.predecessor.value in s.registrations)
    && (j.missing ==> j.second || j.predecessor.None?)
  }

  /** What a suspended or finished call knows. */
  predicate PcOk(s: Authority, pc: Pc) {
    match pc
    case Ensure(_, _) => true
    case EnsureRead(_, _) => true
    case Activate(b) => Holds(s, b)
    case ActivateRead(b) => Holds(s, b)
    case Advance(b, seen) => Holds(s, b) && seen.binding.identity == b.identity && seen.registration in s.registrations
    case RetirePrevious(b, previous) => Holds(s, b) && (previous.Some? ==> previous.value in s.registrations)
    case RetiredRead(b, predecessor) => Holds(s, b)
    case Publish(b, previous) => Holds(s, b) && Succeeds(s, b, previous)
    case PublishRead(b, previous) => Holds(s, b) && Succeeds(s, b, previous)
    case Registered(b, previous) =>
      Holds(s, b) && Succeeds(s, b, previous) && s.registrations[RegistrationOf(b)].status != Pending
    case RetirePending(j) => JobOk(s, j)
    case RetirePublished(j) => JobOk(s, j)
    case RetireCheck(j) => JobOk(s, j)
    case RetireDone(j) =>
      (j.missing || Gone(s, j.own)) && (j.predecessor.Some? ==> Gone(s, j.predecessor.value))
    case MatchRegistration(b, id) => id == RegistrationOf(b)
    case _ => true
  }

  predicate Forward(a: Status, b: Status) {
    a == b || a == Pending || (a == Published && b == Retired)
  }

  /** Registrations are never deleted or changed except forward in status; documents keep their authority. */
  ghost predicate Evolves(s: Authority, t: Authority) {
    && (forall id :: id in s.registrations ==>
          && id in t.registrations
          && t.registrations[id].binding == s.registrations[id].binding
          && t.registrations[id].descriptors == s.registrations[id].descriptors
          && Forward(s.registrations[id].status, t.registrations[id].status))
    && (forall d :: d in s.documents ==>
          d in t.documents && t.documents[d].binding.identity == s.documents[d].binding.identity)
  }

  lemma PcGrows(s: Authority, t: Authority, pc: Pc)
    requires PcOk(s, pc) && Evolves(s, t)
    ensures PcOk(t, pc)
  {
  }

  lemma StepEvolves(s: Authority, pc: Pc)
    requires AuthorityInv(s) && PcOk(s, pc) && !Over(pc)
    ensures Evolves(s, Step(s, pc).0)
  {
  }

  lemma StepKeepsAuthority(s: Authority, pc: Pc)
    requires AuthorityInv(s) && PcOk(s, pc) && !Over(pc)
    ensures AuthorityInv(Step(s, pc).0)
  {
  }

  lemma StepKnows(s: Authority, pc: Pc)
    requires AuthorityInv(s) && PcOk(s, pc) && !Over(pc)
    ensures PcOk(Step(s, pc).0, Step(s, pc).1)
  {
  }

  // ---------- every run ----------

  ghost predicate Inv(s: State) {
    && AuthorityInv(s.authority)
    && (forall w :: w in s.workers ==> PcOk(s.authority, s.workers[w]))
  }

  lemma SteppedKeeps(s: State, w: Worker)
    requires Inv(s) && w in s.workers && !Over(s.workers[w])
    ensures Inv(Stepped(s, w)) && Evolves(s.authority, Stepped(s, w).authority)
  {
    StepEvolves(s.authority, s.workers[w]);
    StepKeepsAuthority(s.authority, s.workers[w]);
    StepKnows(s.authority, s.workers[w]);
    forall v | v in s.workers
      ensures PcOk(Stepped(s, w).authority, s.workers[v])
    {
      PcGrows(s.authority, Stepped(s, w).authority, s.workers[v]);
    }
  }

  lemma NextKeeps(s: State, s': State)
    requires Inv(s) && Next(s, s')
    ensures Inv(s') && Evolves(s.authority, s'.authority)
  {
    if w :| w in s.workers && !Over(s.workers[w]) && s' == Stepped(s, w) {
      SteppedKeeps(s, w);
    } else {
      WorkersKeep(s, s');
    }
  }

  /** A call starts or dies. */
  lemma WorkersKeep(s: State, s': State)
    requires Inv(s) && s' == s.(workers := s'.workers)
    requires forall w :: w in s'.workers ==> s'.workers[w] == Raised || Starting(s'.workers[w]) || (w in s.workers && s'.workers[w] == s.workers[w])
    ensures Inv(s') && Evolves(s.authority, s'.authority)
  {
  }

  lemma RunInv(states: seq<State>, i: nat)
    requires Run(states) && i < |states|
    ensures Inv(states[i])
  {
    var inv := (s: State) => Inv(s);
    forall k | 0 < k < |states| && inv(states[k - 1])
      ensures inv(states[k])
    {
      assert StepAt(states, k);
      NextKeeps(states[k - 1], states[k]);
    }
    Induction(states, inv, i);
  }

  lemma RunNext(states: seq<State>, i: nat)
    requires Run(states) && 0 < i < |states|
    ensures Inv(states[i - 1]) && Next(states[i - 1], states[i]) && Evolves(states[i - 1].authority, states[i].authority)
  {
    RunInv(states, i - 1);
    assert StepAt(states, i);
    NextKeeps(states[i - 1], states[i]);
  }

  /**
   Whatever interleaves: no registration is lost, changed or taken back from
   `retired`, and no document changes its authority.
   */
  lemma {:induction false} HistoryIsForward(states: seq<State>, i: nat, j: nat)
    requires Run(states) && i <= j < |states|
    ensures Evolves(states[i].authority, states[j].authority)
  {
    if i < j {
      HistoryIsForward(states, i, j - 1);
      RunNext(states, j);
    }
  }

  lemma RetiredIsFinal(states: seq<State>, i: nat, j: nat, id: RegistrationId)
    requires Run(states) && i <= j < |states| && Gone(states[i].authority, id)
    ensures Gone(states[j].authority, id)
  {
    HistoryIsForward(states, i, j);
  }

  /** The pointer always names the registration of the binding it stores. */
  lemma PointerNamesItsBinding(states: seq<State>, i: nat, d: DocumentId)
    requires Run(states) && i < |states| && d in states[i].authority.documents
    ensures var s := states[i].authority; var document := s.documents[d];
      && DocumentOf(document.binding) == d
      && document.registration == RegistrationOf(document.binding)
      && document.registration in s.registrations
      && s.registrations[document.registration].binding == document.binding
  {
    RunInv(states, i);
  }

  /** register_catalog returns normally only with its own binding activated and its predecessor retired for good. */
  lemma RegisteredMeans(states: seq<State>, i: nat, j: nat, w: Worker, b: Binding, previous: Option<RegistrationId>)
    requires Run(states) && i <= j < |states| && w in states[i].workers && states[i].workers[w] == Registered(b, previous)
    ensures previous.Some? && previous.value != RegistrationOf(b) ==> Gone(states[j].authority, previous.value)
    ensures Holds(states[j].authority, b) && states[j].authority.registrations[RegistrationOf(b)].status != Pending
  {
    RunInv(states, i);
    HistoryIsForward(states, i, j);
  }

  // ---------- matches ----------

  /** A match that turns true reads the registration as published in that very step. */
  lemma NewMatch(s: State, s': State, w: Worker, b: Binding)
    requires Inv(s) && Next(s, s') && w in s'.workers && s'.workers[w] == Matched(b, true)
    ensures w in s.workers
    ensures s.workers[w] == Matched(b, true)
      || (s.workers[w] == MatchRegistration(b, RegistrationOf(b)) && Has(s.authority, RegistrationOf(b), Published))
  {
  }

  lemma MatchBefore(states: seq<State>, j: nat, w: Worker, b: Binding)
    requires Run(states) && j < |states| && w in states[j].workers && states[j].workers[w] == Matched(b, true)
    ensures 0 < j && w in states[j - 1].workers
    ensures states[j - 1].workers[w] == Matched(b, true)
      || (states[j - 1].workers[w] == MatchRegistration(b, RegistrationOf(b)) && Has(states[j - 1].authority, RegistrationOf(b), Published))
  {
    RunNext(states, j);
    NewMatch(states[j - 1], states[j], w, b);
  }

  /** After a binding's registration is retired, no call of active_registration_matches turns true for it. */
  lemma {:induction false} NoMatchAfterRetirement(states: seq<State>, i: nat, j: nat, w: Worker, b: Binding)
    requires Run(states) && i <= j < |states| && Gone(states[i].authority, RegistrationOf(b))
    requires w in states[j].workers && states[j].workers[w] == Matched(b, true)
    ensures w in states[i].workers && states[i].workers[w] == Matched(b, true)
  {
    if i < j {
      MatchBefore(states, j, w, b);
      RetiredIsFinal(states, i, j - 1, RegistrationOf(b));
      NoMatchAfterRetirement(states, i, j - 1, w, b);
    }
  }

  /** A retirement that found its registration bars every later match of the binding. */
  lemma RetirementBars(states: seq<State>, i: nat, j: nat, v: Worker, job: Job, w: Worker, b: Binding)
    requires Run(states) && i <= j < |states|
    requires v in states[i].workers && states[i].workers[v] == RetireDone(job) && job.own == RegistrationOf(b) && !job.missing
    requires w in states[j].workers && states[j].workers[w] == Matched(b, true)
    ensures w in states[i].workers && states[i].workers[w] == Matched(b, true)
  {
    RunInv(states, i);
    NoMatchAfterRetirement(states, i, j, w, b);
  }

  lemma {:induction false} PointerSeen(states: seq<State>, j: nat, w: Worker, b: Binding, id: RegistrationId) returns (d: nat)
    requires Run(states) && j < |states| && w in states[j].workers && states[j].workers[w] == MatchRegistration(b, id)
    ensures d < j && DocumentOf(b) in states[d].authority.documents && states[d].authority.documents[DocumentOf(b)].binding == b
  {
    PointerBefore(states, j, w, b, id);
    if states[j - 1].workers[w] == MatchRegistration(b, id) {
      d := PointerSeen(states, j - 1, w, b, id);
    } else {
      d := j - 1;
    }
  }

  lemma PointerBefore(states: seq<State>, j: nat, w: Worker, b: Binding, id: RegistrationId)
    requires Run(states) && j < |states| && w in states[j].workers && states[j].workers[w] == MatchRegistration(b, id)
    ensures 0 < j && w in states[j - 1].workers
    ensures states[j - 1].workers[w] == MatchRegistration(b, id)
      || (var s := states[j - 1].authority; DocumentOf(b) in s.documents && s.documents[DocumentOf(b)].binding == b)
  {
    RunNext(states, j);
    PointerStep(states[j - 1], states[j], w, b, id);
  }

  lemma PointerStep(s: State, s': State, w: Worker, b: Binding, id: RegistrationId)
    requires Next(s, s') && w in s'.workers && s'.workers[w] == MatchRegistration(b, id)
    ensures w in s.workers
    ensures s.workers[w] == MatchRegistration(b, id)
      || (DocumentOf(b) in s.authority.documents && s.authority.documents[DocumentOf(b)].binding == b)
  {
  }

  /**
   A match is true only if the document pointed at the binding at one moment of
   the call and the registration was published, with that binding, at a later one.
   */
  lemma {:induction false} MatchWitness(states: seq<State>, j: nat, w: Worker, b: Binding) returns (d: nat, r: nat)
    requires Run(states) && j < |states| && w in states[j].workers && states[j].workers[w] == Matched(b, true)
    ensures d < r < j
    ensures DocumentOf(b) in states[d].authority.documents && states[d].authority.documents[DocumentOf(b)].binding == b
    ensures Has(states[r].authority, RegistrationOf(b), Published)
    ensures states[r].authority.registrations[RegistrationOf(b)].binding == b
  {
    MatchBefore(states, j, w, b);
    if states[j - 1].workers[w] == Matched(b, true) {
      d, r := MatchWitness(states, j - 1, w, b);
    } else {
      r := j - 1;
      d := PointerSeen(states, r, w, b, RegistrationOf(b));
      PublishedBinding(states, r, b, d);
    }
  }

  lemma PublishedBinding(states: seq<State>, r: nat, b: Binding, d: nat)
    requires Run(states) && d <= r < |states| && RegistrationOf(b) in states[r].authority.registrations
    requires DocumentOf(b) in states[d].authority.documents && states[d].authority.documents[DocumentOf(b)].binding == b
    ensures states[r].authority.registrations[RegistrationOf(b)].binding == b
  {
    PointerNamesItsBinding(states, d, DocumentOf(b));
    HistoryIsForward(states, d, r);
  }

  // ---------- a retirement that comes too early ----------

  ghost predicate Reachable(s: State) {
    exists states :: Run(states) && states[|states| - 1] == s
  }

  lemma Extend(s: State, s': State)
    requires Reachable(s) && Next(s, s')
    ensures Reachable(s')
  {
    var states :| Run(states) && states[|states| - 1] == s;
    var longer := states + [s'];
    forall i: nat
      ensures StepAt(longer, i)
    {
      assert StepAt(states, i);
    }
    assert Run(longer) && longer[|longer| - 1] == s';
  }

  lemma Start(s: State, w: Worker, pc: Pc)
    requires Reachable(s) && w !in s.workers && Starting(pc)
    ensures Reachable(s.(workers := s.workers[w := pc]))
  {
    Extend(s, s.(workers := s.workers[w := pc]));
  }

  /** One operation of worker `w`, whose program counter is `pc`. */
  lemma Proceed(a: Authority, workers: map<Worker, Pc>, w: Worker, pc: Pc)
    requires Reachable(State(a, workers[w := pc])) && !Over(pc)
    ensures Reachable(State(Step(a, pc).0, workers[w := Step(a, pc).1]))
  {
    var s := State(a, workers[w := pc]);
    assert workers[w := pc][w := Step(a, pc).1] == workers[w := Step(a, pc).1];
    Extend(s, Stepped(s, w));
  }

  const EMPTY := Authority(map[], map[])

  lemma EarlyRetirement(b: Binding)
    ensures Reachable(State(EMPTY, map[][0 := RetireDone(Job(RegistrationOf(b), None, false, true))]))
  {
    assert Run([State(EMPTY, map[])]);
    var j := Job(RegistrationOf(b), None, false, false);
    Start(State(EMPTY, map[]), 0, RetireLook(b));
    Proceed(EMPTY, map[], 0, RetireLook(b));
    Proceed(EMPTY, map[], 0, RetirePending(j));
    Proceed(EMPTY, map[], 0, RetirePublished(j));
    Proceed(EMPTY, map[], 0, RetireCheck(j));
  }

  /** register_catalog on an empty authority, next to other finished calls. */
  lemma FreshRegistration(workers: map<Worker, Pc>, b: Binding, descriptors: nat) returns (a: Authority)
    requires Reachable(State(EMPTY, workers)) && 1 !in workers
    ensures Reachable(State(a, workers[1 := Registered(b, None)]))
    ensures Has(a, RegistrationOf(b), Published) && a.registrations[RegistrationOf(b)].binding == b
    ensures DocumentOf(b) in a.documents && a.documents[DocumentOf(b)] == Document(b, RegistrationOf(b), None)
  {
    Start(State(EMPTY, workers), 1, Ensure(b, descriptors));
    Proceed(EMPTY, workers, 1, Ensure(b, descriptors));
    var a1 := Step(EMPTY, Ensure(b, descriptors)).0;
    Proceed(a1, workers, 1, Activate(b));
    var a2 := Step(a1, Activate(b)).0;
    Proceed(a2, workers, 1, RetirePrevious(b, None));
    Proceed(a2, workers, 1, Publish(b, None));
    a := Step(a2, Publish(b, None)).0;
  }

  /**
   retire_catalog is allowed to find no registration, and then bars nothing: the
   run retires the binding, registers it, and active_registration_matches holds.
   */
  lemma EarlyRetirementBarsNothing(b: Binding) returns (s: State)
    ensures Reachable(s) && 0 in s.workers && 2 in s.workers
    ensures s.workers[0].RetireDone? && s.workers[0].job.own == RegistrationOf(b) && s.workers[0].job.missing
    ensures s.workers[2] == Matched(b, true)
  {
    EarlyRetirement(b);
    var workers: map<Worker, Pc> := map[][0 := RetireDone(Job(RegistrationOf(b), None, false, true))];
    var a := FreshRegistration(workers, b, 0);
    var more := workers[1 := Registered(b, None)];
    Start(State(a, more), 2, MatchDocument(b));
    Proceed(a, more, 2, MatchDocument(b));
    Proceed(a, more, 2, MatchRegistration(b, RegistrationOf(b)));
    s := State(a, more[2 := Matched(b, true)]);
  }
}
