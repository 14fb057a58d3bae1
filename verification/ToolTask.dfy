/**
 run_tool_task: workers that race for one WorkItem, execute a tool call under its
 lease and commit only proven outcomes.

 The dispatcher answers anything. The engine grants a claim to one worker at a
 time, may take it away whenever it likes, and commits only under a current claim;
 the owner may close the item from outside.
 */
module ToolTask {
  import opened Common

  type Worker = nat
  type Claim = nat

  datatype Carrier = Carrier(job: nat, payload: nat, tenant: nat, session: nat, tools: seq<nat>, deadline: Option<real>)

  /** `ref` is the digest of the request. */
  datatype Request = Request(ref: nat, tenant: nat, session: nat, operation: nat, principal: nat)

  datatype Reported = Completed | Failed | Refused | Indeterminate

  datatype Result = Result(job: nat, requestRef: nat, principal: nat, outcome: Reported, receipt: nat)

  datatype Outcome = RanCompleted | RanFailed | RanRefused | RanIndeterminate | Fenced | Skipped | Rejected

  /** What the dispatcher makes of the payload reference. */
  datatype Resolution = Resolved(request: Request) | NotARequest | RaisedRefusal | RaisedError

  /** What dispatcher.execute does. */
  datatype Answer = Returned(result: Result) | NotAResult | LeaseLost | Exception

  datatype Item = Item(payload: nat, tenant: nat, terminal: bool, holder: Option<Claim>)

  /** A terminal result as it was committed. */
  datatype Write = Write(worker: Worker, carrier: Carrier, request: Option<Request>, result: Option<Result>, succeeded: bool)

  datatype Pc =
    | Precheck(now: real)
    | ToClaim
    | NotClaimed
    | FirstCheck(claim: Claim)
    | Resolve(claim: Claim)
    | SecondCheck(claim: Claim, request: Request)
    | Execute(claim: Claim, request: Request)
    | ThirdCheck(claim: Claim, request: Request, result: Result)
    | Commit(claim: Claim, request: Request, result: Result)
    | CommitRefusal(claim: Claim)
    | Done(outcome: Outcome)
    | Crashed

  /** `started` records that execute was entered. */
  datatype Task = Task(carrier: Carrier, pc: Pc, started: bool)

  datatype State = State(item: Option<Item>, tasks: map<Worker, Task>, writes: seq<Write>, ownerClosed: bool)

  predicate Acknowledged(o: Outcome) {
    o == RanCompleted || o == RanFailed || o == RanRefused || o == Skipped
  }

  predicate Terminal(s: State) {
    s.item.Some? && s.item.value.terminal
  }

  predicate Current(s: State, claim: Claim) {
    s.item.Some? && !s.item.value.terminal && s.item.value.holder == Some(claim)
  }

  /** _precheck */
  function Admit(c: Carrier, item: Option<Item>, now: real): Option<Outcome> {
    if item.None? || item.value.payload != c.payload || item.value.tenant != c.tenant then Some(Rejected)
    else if item.value.terminal then Some(Skipped)
    else if c.deadline.Some? && now > c.deadline.value then Some(RanIndeterminate)
    else None
  }

  /** The checks of _resolve. */
  predicate Matches(c: Carrier, r: Request) {
    r.ref == c.payload && r.tenant == c.tenant && r.session == c.session && c.tools == [r.operation]
  }

  /** _bound */
  predicate Bound(c: Carrier, request: Request, r: Result) {
    r.job == c.job && r.requestRef == c.payload && r.principal == request.principal
  }

  function OutcomeOf(r: Reported): Outcome {
    match r
    case Completed => RanCompleted
    case Failed => RanFailed
    case Refused => RanRefused
    case Indeterminate => RanIndeterminate
  }

  datatype Step =
    | Submit(item: Item)
    | Deliver(w: Worker, carrier: Carrier, now: real)
    | LoseLease
    | OwnerCloses
    | Crash(w: Worker)
    | Look(w: Worker)
    | ClaimGranted(w: Worker, claim: Claim)
    | ClaimDenied(w: Worker)
    | LookAgain(w: Worker)
    | Check(w: Worker)
    | Resolves(w: Worker, resolution: Resolution)
    | Executes(w: Worker, answer: Answer)
    | Commits(w: Worker)

  predicate At(s: State, w: Worker) {
    w in s.tasks
  }

  predicate NewClaim(s: State, claim: Claim) {
    forall v :: v in s.tasks ==> ClaimOf(s.tasks[v].pc) != Some(claim)
  }

  function ClaimOf(pc: Pc): Option<Claim> {
    if pc.FirstCheck? || pc.Resolve? || pc.SecondCheck? || pc.Execute? || pc.ThirdCheck? || pc.Commit? || pc.CommitRefusal?
    then Some(pc.claim) else None
  }

  predicate Can(s: State, step: Step) {
    match step
    case Submit(item) => s.item.None? && !item.terminal && item.holder.None?
    case Deliver(w, _, _) => w !in s.tasks
    case LoseLease => s.item.Some?
    case OwnerCloses => s.item.Some? && !Terminal(s)
    case Crash(w) => At(s, w) && !s.tasks[w].pc.Done?
    case Look(w) => At(s, w) && s.tasks[w].pc.Precheck?
    case ClaimGranted(w, claim) =>
      && At(s, w) && s.tasks[w].pc.ToClaim? && s.item.Some? && !Terminal(s) && s.item.value.holder.None? && NewClaim(s, claim)
    case ClaimDenied(w) => At(s, w) && s.tasks[w].pc.ToClaim?
    case LookAgain(w) => At(s, w) && s.tasks[w].pc.NotClaimed?
    case Check(w) => At(s, w) && (s.tasks[w].pc.FirstCheck? || s.tasks[w].pc.SecondCheck? || s.tasks[w].pc.ThirdCheck?)
    case Resolves(w, _) => At(s, w) && s.tasks[w].pc.Resolve?
    case Executes(w, _) => At(s, w) && s.tasks[w].pc.Execute?
    case Commits(w) => At(s, w) && (s.tasks[w].pc.Commit? || s.tasks[w].pc.CommitRefusal?)
  }

  function Goto(s: State, w: Worker, pc: Pc): State
    requires w in s.tasks
  {
    s.(tasks := s.tasks[w := s.tasks[w].(pc := pc)])
  }

  /** One await of run_tool_task, or a move of the world around it. */
  function After(s: State, step: Step): State
    requires Can(s, step)
  {
    match step
    case Submit(item) => s.(item := Some(item))
    case Deliver(w, c, now) => s.(tasks := s.tasks[w := Task(c, Precheck(now), false)])
    case LoseLease => s.(item := Some(s.item.value.(holder := None)))
    case OwnerCloses => s.(item := Some(s.item.value.(terminal := true, holder := None)), ownerClosed := true)
    case Crash(w) => Goto(s, w, Crashed)
    case Look(w) =>
      var early := Admit(s.tasks[w].carrier, s.item, s.tasks[w].pc.now);
      Goto(s, w, if early.Some? then Done(early.value) else ToClaim)
    case ClaimGranted(w, claim) => Goto(s, w, FirstCheck(claim)).(item := Some(s.item.value.(holder := Some(claim))))
    case ClaimDenied(w) => Goto(s, w, NotClaimed)
    case LookAgain(w) => Goto(s, w, Done(if Terminal(s) then Skipped else Fenced))
    case Check(w) => AfterCheck(s, w, s.tasks[w].pc)
    case Resolves(w, r) => Goto(s, w, AfterResolve(s.tasks[w].carrier, s.tasks[w].pc.claim, r))
    case Executes(w, a) => Goto(s, w, AfterExecute(s.tasks[w].carrier, s.tasks[w].pc.claim, s.tasks[w].pc.request, a))
    case Commits(w) => AfterCommit(s, w, s.tasks[w].pc)
  }

  /** require_current: renew the lease or stop. */
  function AfterCheck(s: State, w: Worker, pc: Pc): State
    requires At(s, w) && (pc.FirstCheck? || pc.SecondCheck? || pc.ThirdCheck?)
  {
    if !Current(s, pc.claim) then Goto(s, w, Done(Fenced))
    else if pc.FirstCheck? then Goto(s, w, Resolve(pc.claim))
    else if pc.ThirdCheck? then Goto(s, w, Commit(pc.claim, pc.request, pc.result))
    else s.(tasks := s.tasks[w := s.tasks[w].(pc := Execute(pc.claim, pc.request), started := true)])
  }

  function AfterResolve(c: Carrier, claim: Claim, r: Resolution): Pc {
    match r
    case Resolved(request) => if Matches(c, request) then SecondCheck(claim, request) else CommitRefusal(claim)
    case NotARequest => CommitRefusal(claim)
    case RaisedRefusal => CommitRefusal(claim)
    case RaisedError => Crashed
  }

  function AfterExecute(c: Carrier, claim: Claim, request: Request, a: Answer): Pc {
    match a
    case Returned(r) =>
      if !Bound(c, request, r) || r.outcome == Indeterminate then Done(RanIndeterminate) else ThirdCheck(claim, request, r)
    case NotAResult => Done(RanIndeterminate)
    case LeaseLost => Done(Fenced)
    case Exception => Done(RanIndeterminate)
  }

  /** commit under the claim; a stale claim raises WorkItemLeaseLost. */
  function AfterCommit(s: State, w: Worker, pc: Pc): State
    requires At(s, w) && (pc.Commit? || pc.CommitRefusal?)
  {
    if !Current(s, pc.claim) then Goto(s, w, Done(Fenced))
    else
      var write :=
        if pc.Commit? then Write(w, s.tasks[w].carrier, Some(pc.request), Some(pc.result), pc.result.outcome == Completed)
        else Write(w, s.tasks[w].carrier, None, None, false);
      Goto(s, w, Done(if pc.Commit? then OutcomeOf(pc.result.outcome) else RanRefused)).(
        item := Some(s.item.value.(terminal := true, holder := None)), writes := s.writes + [write])
  }

  ghost predicate Next(s: State, s': State) {
    exists step :: Can(s, step) && s' == After(s, step)
  }

  ghost predicate StepAt(run: seq<State>, i: nat) {
    0 < i < |run| ==> Next(run[i - 1], run[i])
  }

  ghost predicate Run(run: seq<State>) {
    0 < |run| && run[0] == State(None, map[], [], false) && forall i :: StepAt(run, i)
  }
}
