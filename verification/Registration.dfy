/**
 Catalog registrations behind a document pointer: register_catalog,
 retire_catalog and active_registration_matches as interleaved coroutines over an
 authority with atomic read, create-if-absent and compare-and-set.

 Node identifiers are hashes of the fields they are built from, so they are
 modelled by those fields. `owner` stands for the other immutable authority
 fields and `extra` for the remaining binding fields.
 */
module Registration {
  import opened Common

  datatype Identity = Identity(tenant: nat, document: nat, owner: nat)

  datatype Binding = Binding(identity: Identity, generation: nat, arm: nat, catalog: nat, scope: nat, extra: nat)

  datatype DocumentId = DocumentId(tenant: nat, document: nat)

  datatype RegistrationId = RegistrationId(tenant: nat, document: nat, generation: nat, arm: nat, catalog: nat)

  datatype Status = Pending | Published | Retired

  /** BrowserControlRegistration. */
  datatype Node = Node(binding: Binding, descriptors: nat, status: Status)

  /** BrowserControlDocument; its status field is always `active`. */
  datatype Document = Document(binding: Binding, registration: RegistrationId, previous: Option<RegistrationId>)

  datatype Authority = Authority(registrations: map<RegistrationId, Node>, documents: map<DocumentId, Document>)

  function DocumentOf(b: Binding): DocumentId {
    DocumentId(b.identity.tenant, b.identity.document)
  }

  function RegistrationOf(b: Binding): RegistrationId {
    RegistrationId(b.identity.tenant, b.identity.document, b.generation, b.arm, b.catalog)
  }

  /** A retirement: its own registration, then perhaps the predecessor. */
  datatype Job = Job(own: RegistrationId, predecessor: Option<RegistrationId>, second: bool, missing: bool)

  function Target(j: Job): RegistrationId {
    if j.second && j.predecessor.Some? then j.predecessor.value else j.own
  }

  /** Where a call is: each constructor names the next atomic operation. */
  datatype Pc =
    | Ensure(b: Binding, descriptors: nat)                       // create the registration if absent
    | EnsureRead(b: Binding, descriptors: nat)
    | Activate(b: Binding)                                       // create the document if absent
    | ActivateRead(b: Binding)
    | Advance(b: Binding, seen: Document)                        // move the pointer if nothing changed
    | RetirePrevious(b: Binding, previous: Option<RegistrationId>)
    | RetiredRead(b: Binding, predecessor: RegistrationId)
    | Publish(b: Binding, previous: Option<RegistrationId>)
    | PublishRead(b: Binding, previous: Option<RegistrationId>)
    | Registered(b: Binding, previous: Option<RegistrationId>)
    | RetireLook(b: Binding)
    | RetirePending(job: Job)
    | RetirePublished(job: Job)
    | RetireCheck(job: Job)
    | RetireDone(job: Job)
    | MatchDocument(b: Binding)
    | MatchRegistration(b: Binding, registration: RegistrationId)
    | Matched(b: Binding, result: bool)
    | Raised

  predicate Over(pc: Pc) {
    pc.Registered? || pc.RetireDone? || pc.Matched? || pc.Raised?
  }

  predicate Has(s: Authority, id: RegistrationId, status: Status) {
    id in s.registrations && s.registrations[id].status == status
  }

  function SetStatus(s: Authority, id: RegistrationId, status: Status): Authority
    requires id in s.registrations
  {
    s.(registrations := s.registrations[id := s.registrations[id].(status := status)])
  }

  /** One atomic operation of a call that is not over, and where it continues. */
  function Step(s: Authority, pc: Pc): (Authority, Pc)
    requires !Over(pc)
  {
    match pc
    case Ensure(b, descriptors) =>
      if RegistrationOf(b) in s.registrations then (s, EnsureRead(b, descriptors))
      else (s.(registrations := s.registrations[RegistrationOf(b) := Node(b, descriptors, Pending)]), Activate(b))
    case EnsureRead(b, descriptors) =>
      var id := RegistrationOf(b);
      if id in s.registrations && s.registrations[id].status != Retired
         && s.registrations[id].binding == b && s.registrations[id].descriptors == descriptors
      then (s, Activate(b)) else (s, Raised)
    case Activate(b) =>
      if DocumentOf(b) in s.documents then (s, ActivateRead(b))
      else (s.(documents := s.documents[DocumentOf(b) := Document(b, RegistrationOf(b), None)]), RetirePrevious(b, None))
    case ActivateRead(b) =>
      if DocumentOf(b) !in s.documents then (s, Raised)
      else
        var seen := s.documents[DocumentOf(b)];
        if seen.binding == b then (s, RetirePrevious(b, seen.previous))
        else if seen.binding.identity != b.identity then (s, Raised)
        else (s, Advance(b, seen))
    case Advance(b, seen) =>
      if DocumentOf(b) in s.documents && s.documents[DocumentOf(b)] == seen then
        (s.(documents := s.documents[DocumentOf(b) :=
             Document(b.(identity := seen.binding.identity), RegistrationOf(b), Some(seen.registration))]),
         RetirePrevious(b, Some(seen.registration)))
      else (s, Raised)
    case RetirePrevious(b, previous) =>
      if previous.None? || previous.value == RegistrationOf(b) then (s, Publish(b, previous))
      else if Has(s, previous.value, Published) then (SetStatus(s, previous.value, Retired), Publish(b, previous))
      else (s, RetiredRead(b, previous.value))
    case RetiredRead(b, predecessor) =>
      if Has(s, predecessor, Retired) then (s, Publish(b, Some(predecessor))) else (s, Raised)
    case Publish(b, previous) =>
      var id := RegistrationOf(b);
      if Has(s, id, Pending) then (SetStatus(s, id, Published), Registered(b, previous)) else (s, PublishRead(b, previous))
    case PublishRead(b, previous) =>
      if Has(s, RegistrationOf(b), Published) then (s, Registered(b, previous)) else (s, Raised)
    case RetireLook(b) => (s, RetirePending(Job(RegistrationOf(b), PreviousOf(s, b), false, false)))
    case RetirePending(j) =>
      if Has(s, Target(j), Pending) then (SetStatus(s, Target(j), Retired), AfterRetire(j)) else (s, RetirePublished(j))
    case RetirePublished(j) =>
      if Has(s, Target(j), Published) then (SetStatus(s, Target(j), Retired), AfterRetire(j)) else (s, RetireCheck(j))
    case RetireCheck(j) =>
      if Has(s, Target(j), Retired) then (s, AfterRetire(j))
      else if Target(j) !in s.registrations && !j.second then (s, AfterRetire(j.(missing := true)))
      else (s, Raised)
    case MatchDocument(b) =>
      if DocumentOf(b) in s.documents && s.documents[DocumentOf(b)].binding == b
      then (s, MatchRegistration(b, s.documents[DocumentOf(b)].registration))
      else (s, Matched(b, false))
    case MatchRegistration(b, id) =>
      (s, Matched(b, id in s.registrations && s.registrations[id].binding == b && s.registrations[id].status == Published))
  }

  /** The predecessor a retirement also retires: only if the document still names this binding. */
  function PreviousOf(s: Authority, b: Binding): Option<RegistrationId> {
    if DocumentOf(b) in s.documents
       && s.documents[DocumentOf(b)].binding == b && s.documents[DocumentOf(b)].registration == RegistrationOf(b)
       && s.documents[DocumentOf(b)].previous != Some(RegistrationOf(b))
    then s.documents[DocumentOf(b)].previous else None
  }

  function AfterRetire(j: Job): Pc {
    if j.predecessor.Some? && !j.second then RetirePending(j.(second := true)) else RetireDone(j)
  }

  // ---------- runs ----------

  type Worker = nat

  datatype State = State(authority: Authority, workers: map<Worker, Pc>)

  predicate Starting(pc: Pc) {
    pc.Ensure? || pc.RetireLook? || pc.MatchDocument?
  }

  /** A call starts, makes one operation, or dies before its next one. */
  ghost predicate Next(s: State, s': State) {
    || (exists w: Worker, pc :: w !in s.workers && Starting(pc) && s' == s.(workers := s.workers[w := pc]))
    || (exists w :: w in s.workers && !Over(s.workers[w]) && s' == Stepped(s, w))
    || (exists w :: w in s.workers && !Over(s.workers[w]) && s' == s.(workers := s.workers[w := Raised]))
  }

  function Stepped(s: State, w: Worker): State
    requires w in s.workers && !Over(s.workers[w])
  {
    var (authority, pc) := Step(s.authority, s.workers[w]);
    State(authority, s.workers[w := pc])
  }

  ghost predicate StepAt(states: seq<State>, i: nat) {
    0 < i < |states| ==> Next(states[i - 1], states[i])
  }

  ghost predicate Run(states: seq<State>) {
    && 0 < |states| && states[0] == State(Authority(map[], map[]), map[])
    && (forall i :: StepAt(states, i))
  }
}
