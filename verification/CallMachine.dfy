/**
 The browser-control service as a step machine over all of its calls.

 Durable: the lease rows and the WorkItem engine, both with atomic operations.
 Volatile: the `_ActiveCall` objects, `_active_calls`, `_completed`, the channels,
 the service lock and the revoke_lease tasks. A crash ends every coroutine and
 empties the volatile tables; the records of the calls stay as history.
 */
module CallMachine {
  import opened Common
  import opened CallState

  type Document = nat

  const COMPLETED_CACHE_SIZE: nat := 256
  const DEFAULT_LEASE_SECONDS: real := 300.0
  const MAX_LEASE_SECONDS: real := 900.0
  const MIN_REMAINING: real := 0.001

  datatype ItemStatus = ItemReady | ItemLeased | ItemSucceeded | ItemFailed | ItemCancelled | ItemDead

  /** A fence row: the WorkItem of one request digest and its stored admission reference. */
  datatype Item = Item(owner: Nonce, status: ItemStatus)

  datatype Channel = Channel(document: Document, closed: bool)

  datatype Revoker =
    | RevokeRead(lease: LeaseId)
    | RevokeCas(lease: LeaseId)
    | RevokeExpire(lease: LeaseId)
    | RevokeScan(lease: LeaseId)
    | RevokeLoop(lease: LeaseId, todo: set<Nonce>, waiting: Option<(Nonce, Tid)>)
    | RevokeOver

  /** One delivered `control.call`. */
  datatype SentCall = SentCall(call: Nonce, digest: Digest, lease: LeaseId, checkedAt: real, deadline: real, open: bool)

  datatype State = State(
    clock: real,
    leases: map<LeaseId, Lease>,
    items: map<Digest, Item>,
    calls: map<Nonce, Call>,
    registry: map<Digest, Nonce>,
    completed: seq<(Digest, Receipt)>,
    serviceLock: Option<Nonce>,
    channels: map<ChannelId, Channel>,
    documents: map<Document, ChannelId>,
    revokers: map<nat, Revoker>,
    returned: set<LeaseId>,
    log: seq<SentCall>)

  predicate Closed(i: ItemStatus) {
    i.ItemSucceeded? || i.ItemFailed? || i.ItemCancelled? || i.ItemDead?
  }

  predicate Owned(s: State, a: Nonce, d: Digest) {
    d in s.items && s.items[d].owner == a
  }

  predicate Done(s: State, d: Digest) {
    d in s.items && Closed(s.items[d].status)
  }

  predicate Open(s: State, ch: ChannelId) {
    && ch in s.channels && !s.channels[ch].closed
    && s.channels[ch].document in s.documents && s.documents[s.channels[ch].document] == ch
  }

  function Init(): State {
    State(0.0, map[], map[], map[], map[], [], None, map[], map[], map[], {}, [])
  }

  // ---------- the completed cache ----------

  function Recall(cache: seq<(Digest, Receipt)>, d: Digest): (r: Option<Receipt>)
    ensures r.Some? ==> (d, r.value) in cache
  {
    if cache == [] then None
    else if cache[0].0 == d then Some(cache[0].1)
    else Recall(cache[1..], d)
  }

  function Without(cache: seq<(Digest, Receipt)>, d: Digest): (r: seq<(Digest, Receipt)>)
    ensures forall e :: e in r ==> e in cache && e.0 != d
  {
    if cache == [] then []
    else (if cache[0].0 == d then [] else [cache[0]]) + Without(cache[1..], d)
  }

  /** Store, move to the end, then drop the oldest entries above the bound. */
  function Remember(cache: seq<(Digest, Receipt)>, d: Digest, r: Receipt): (c: seq<(Digest, Receipt)>)
    ensures |c| <= COMPLETED_CACHE_SIZE
    ensures (d, r) in c
    ensures forall e :: e in c ==> e in cache || e == (d, r)
  {
    var kept := Without(cache, d) + [(d, r)];
    assert kept[|kept| - 1] == (d, r);
    if |kept| <= COMPLETED_CACHE_SIZE then kept else kept[|kept| - COMPLETED_CACHE_SIZE..]
  }

  // ---------- steps ----------

  /** The clock, the durable authorities, the channels and the process itself. */
  datatype WorldStep =
    | Tick(now: real)
    | IssueLease(lease: LeaseId, ttl: real, arm: real, token: real)
    | ExpireLease(lease: LeaseId)
    | OpenChannel(channel: ChannelId, document: Document)
    | CloseChannel(channel: ChannelId)
    | EngineMoves(digest: Digest, status: ItemStatus)
    | Crash

  /** The steps of the coroutines that work on one call and touch shared state. */
  datatype CallStep =
    | Begin(call: Nonce, record: Call)
    | Local(call: Nonce, t: Tid, u: Tid, op: Op)
    | SubmitFence(call: Nonce, t: Tid)
    | ReplyFence(call: Nonce, t: Tid)
    | RegisterCall(call: Nonce, t: Tid)
    | ReadLease(call: Nonce)
    | CheckLease(call: Nonce)
    | ClaimItem(call: Nonce, granted: bool)
    | EnterSend(call: Nonce)
    | Deliver(call: Nonce)
    | FailSend(call: Nonce, u: Tid, op: Op)
    | CommitOutcome(call: Nonce, t: Tid, ok: bool)
    | CommitReap(call: Nonce, t: Tid)
    | StoreTerminal(call: Nonce, t: Tid)

  /** Browser messages and requests that start a coroutine on a call. */
  datatype OutsideStep =
    | BrowserConfirms(call: Nonce, confirmation: Confirmation)
    | BrowserAnswers(call: Nonce, answer: BrowserResult, u: Tid)
    | BrowserAcks(call: Nonce, e: Effect)
    | StartCancel(call: Nonce, u: Tid)
    | StartDisconnect(call: Nonce, u: Tid)
    | StartReconcile(call: Nonce, u: Tid)
    | StartReaper(call: Nonce, u: Tid)

  /** revoke_lease. */
  datatype RevokeStep =
    | StartRevoke(r: nat, lease: LeaseId)
    | RevokerReads(r: nat)
    | RevokerSwaps(r: nat)
    | RevokerScans(r: nat)
    | RevokerCancels(r: nat, call: Nonce, u: Tid)
    | RevokerJoins(r: nat)
    | RevokerReturns(r: nat)
    | RevokerRaises(r: nat)

  datatype Step = World(world: WorldStep) | OfCall(step: CallStep) | Outside(outside: OutsideStep) | Revoke(revoke: RevokeStep)

  predicate At(s: State, a: Nonce, t: Tid) {
    a in s.calls && t in s.calls[a].threads && !s.calls[a].threads[t].pc.End?
  }

  function PcOf(s: State, a: Nonce, t: Tid): Pc
    requires At(s, a, t)
  {
    s.calls[a].threads[t].pc
  }

  predicate Registered(s: State, a: Nonce) {
    a in s.calls && s.calls[a].digest in s.registry && s.registry[s.calls[a].digest] == a
  }

  predicate Fresh(s: State, a: Nonce, u: Tid) {
    a in s.calls && MAIN in s.calls[a].threads && u !in s.calls[a].threads
  }

  /** A new `_ActiveCall` with its execute_call task about to submit the fence. */
  predicate NewCall(c: Call) {
    && c.confirmedBy.None? && c.result.None? && c.cancelAck.None? && c.terminal.None?
    && !c.claim && !c.dispatched && !c.timedOut && !c.cancelRequested && !c.unsolicited
    && !c.dispatchLock && c.finalizeLock.None?
    && c.threads == map[MAIN := Thread(Execute, FirstPc(c))]
  }

  function FirstPc(c: Call): Pc {
    if Authorized(c) then Admit(FenceSubmit)
    else End(Returned(Receipt(Denied, NoEffect, None, PolicyDenied), None))
  }

  predicate NeedsCommit(c: Call, r: Receipt) {
    c.claim && r.status != Unknown
  }

  predicate NeedsCancel(c: Call, r: Receipt) {
    !c.claim && r.status == Cancelled
  }

  predicate CanWorld(s: State, step: WorldStep) {
    match step
    case Tick(now) => s.clock <= now
    case IssueLease(l, ttl, arm, token) => l !in s.leases && 0.0 < ttl && 0.0 < s.clock < arm <= token
    case ExpireLease(l) => l in s.leases && s.leases[l].status == Active && s.leases[l].expires <= s.clock
    case OpenChannel(ch, doc) =>
      && s.serviceLock.None? && ch !in s.channels
      && (doc in s.documents ==> s.documents[doc] in s.channels && s.channels[s.documents[doc]].closed)
    case CloseChannel(ch) => s.serviceLock.None? && ch in s.channels
    case EngineMoves(d, status) => d in s.items && (Closed(s.items[d].status) ==> status == s.items[d].status)
    case Crash => true
  }

  predicate CanCall(s: State, step: CallStep) {
    match step
    case Begin(a, c) => a !in s.calls && c.lease in s.leases && NewCall(c)
    case Local(a, t, u, op) =>
      && a in s.calls && Enabled(s.calls[a], t, u, op)
      && (op.ReapEnter? ==> op.mine == Registered(s, a))
    case SubmitFence(a, t) => At(s, a, t) && (PcOf(s, a, t) == Admit(FenceSubmit) || PcOf(s, a, t) == Aborting(AbortSubmit))
    case ReplyFence(a, t) => At(s, a, t) && s.calls[a].digest in s.items && AtFenceRead(PcOf(s, a, t))
    case RegisterCall(a, t) =>
      && At(s, a, t) && s.serviceLock.None?
      && (PcOf(s, a, t) == Admit(Register) || PcOf(s, a, t) == Aborting(AbortRegister))
    case ReadLease(a) =>
      && At(s, a, MAIN) && PcOf(s, a, MAIN) == Admit(LeaseRead)
      && s.calls[a].lease in s.leases && s.leases[s.calls[a].lease].status == Active
    case CheckLease(a) =>
      && At(s, a, MAIN) && PcOf(s, a, MAIN).Risk? && PcOf(s, a, MAIN).risk.LeaseSeen?
      && var l := PcOf(s, a, MAIN).risk.lease;
      && s.clock < l.expires && Deadline(l) - s.clock >= MIN_REMAINING
    case ClaimItem(a, granted) =>
      && At(s, a, MAIN) && PcOf(s, a, MAIN).Risk? && PcOf(s, a, MAIN).risk.Claiming?
      && (granted ==> s.calls[a].digest in s.items && s.items[s.calls[a].digest].status.ItemReady?)
    case EnterSend(a) =>
      && At(s, a, MAIN) && s.serviceLock.None?
      && PcOf(s, a, MAIN).Risk? && PcOf(s, a, MAIN).risk.ServiceLock?
    case Deliver(a) => At(s, a, MAIN) && InSend(PcOf(s, a, MAIN))
    case FailSend(a, u, op) =>
      && At(s, a, MAIN) && InSend(PcOf(s, a, MAIN)) && u !in s.calls[a].threads && (op.Fail? || op.Interrupt?)
    case CommitOutcome(a, t, ok) =>
      && At(s, a, t) && PcOf(s, a, t).Finalizing? && PcOf(s, a, t).phase.FinalEngine?
      && s.calls[a].digest in s.items
      && (ok && NeedsCancel(s.calls[a], PcOf(s, a, t).outcome) ==>
            var st := s.items[s.calls[a].digest].status; st.ItemReady? || st.ItemCancelled?)
    case CommitReap(a, t) =>
      && At(s, a, t) && PcOf(s, a, t) == Reaping(ReapEngine) && s.calls[a].digest in s.items
      && (s.calls[a].claim || !s.items[s.calls[a].digest].status.ItemLeased?)
    case StoreTerminal(a, t) => At(s, a, t) && s.serviceLock.None? && AtStore(PcOf(s, a, t))
  }

  predicate CanOutside(s: State, step: OutsideStep) {
    match step
    case BrowserConfirms(a, m) =>
      && a in s.calls && MAIN in s.calls[a].threads && s.calls[a].mutates
      && m == Confirmation(s.calls[a].policyRef, s.calls[a].digest)
    case BrowserAnswers(a, m, u) => Fresh(s, a, u) && Owned(s, a, s.calls[a].digest)
    case BrowserAcks(a, e) => a in s.calls && MAIN in s.calls[a].threads
    case StartCancel(a, u) => Fresh(s, a, u) && CanCancel(s, a)
    case StartDisconnect(a, u) => Fresh(s, a, u) && Registered(s, a)
    case StartReconcile(a, u) => Fresh(s, a, u) && CanCancel(s, a)
    case StartReaper(a, u) => Fresh(s, a, u) && s.calls[a].timedOut && Owned(s, a, s.calls[a].digest)
  }

  predicate CanRevoke(s: State, step: RevokeStep) {
    match step
    case StartRevoke(r, l) => r !in s.revokers && l in s.leases
    case RevokerReads(r) => r in s.revokers && s.revokers[r].RevokeRead? && s.revokers[r].lease in s.leases
    case RevokerSwaps(r) =>
      r in s.revokers && (s.revokers[r].RevokeCas? || s.revokers[r].RevokeExpire?) && s.revokers[r].lease in s.leases
    case RevokerScans(r) => r in s.revokers && s.revokers[r].RevokeScan?
    case RevokerCancels(r, a, u) =>
      && r in s.revokers && s.revokers[r].RevokeLoop? && s.revokers[r].waiting.None? && a in s.revokers[r].todo
      && Fresh(s, a, u) && CanCancel(s, a)
    case RevokerJoins(r) =>
      && r in s.revokers && s.revokers[r].RevokeLoop? && s.revokers[r].waiting.Some?
      && var (a, t) := s.revokers[r].waiting.value;
      && a in s.calls && t in s.calls[a].threads
      && s.calls[a].threads[t].pc.End? && s.calls[a].threads[t].pc.end.Returned?
    case RevokerReturns(r) => r in s.revokers && s.revokers[r].RevokeLoop? && s.revokers[r].todo == {}
    case RevokerRaises(r) => r in s.revokers
  }

  predicate Can(s: State, step: Step) {
    match step
    case World(w) => CanWorld(s, w)
    case OfCall(c) => CanCall(s, c)
    case Outside(o) => CanOutside(s, o)
    case Revoke(r) => CanRevoke(s, r)
  }

  predicate AtFenceRead(pc: Pc) {
    (pc.Admit? && pc.admit.FenceRead?) || (pc.Aborting? && pc.abort.AbortRead?)
  }

  predicate AtStore(pc: Pc) {
    (pc.Finalizing? && pc.phase.FinalStore?) || pc == Reaping(ReapStore)
  }

  /** cancel_call and reconcile_call find a cached receipt or a registered call. */
  predicate CanCancel(s: State, a: Nonce) {
    a in s.calls && (Registered(s, a) || (Recall(s.completed, s.calls[a].digest).Some? && Owned(s, a, s.calls[a].digest)))
  }

  function ContextPc(s: State, a: Nonce, live: ContextPoint): Pc
    requires a in s.calls
  {
    var cached := Recall(s.completed, s.calls[a].digest);
    Context(if cached.Some? then CachedContext(cached.value) else live)
  }

  // ---------- what a step does ----------

  function SetCall(s: State, a: Nonce, c: Call): State {
    s.(calls := s.calls[a := c])
  }

  function MoveCall(s: State, a: Nonce, t: Tid, m: Move): State
    requires a in s.calls && t in s.calls[a].threads
  {
    SetCall(s, a, Perform(s.calls[a], t, t, m))
  }

  function SpawnThread(s: State, a: Nonce, u: Tid, kind: Kind, pc: Pc): State
    requires a in s.calls
  {
    SetCall(s, a, s.calls[a].(threads := s.calls[a].threads[u := Thread(kind, pc)]))
  }

  function Killed(c: Call): Call {
    c.(threads := map[], dispatchLock := false, finalizeLock := None)
  }

  function AfterWorld(s: State, step: WorldStep): State
    requires CanWorld(s, step)
  {
    match step
    case Tick(now) => s.(clock := now)
    case IssueLease(l, ttl, arm, token) => s.(leases := s.leases[l := NewLease(s.clock, ttl, arm, token)])
    case ExpireLease(l) => s.(leases := s.leases[l := s.leases[l].(status := Expired)])
    case OpenChannel(ch, doc) =>
      s.(channels := s.channels[ch := Channel(doc, false)], documents := s.documents[doc := ch])
    case CloseChannel(ch) => AfterClose(s, ch)
    case EngineMoves(d, status) => s.(items := s.items[d := s.items[d].(status := status)])
    case Crash =>
      s.(calls := map a | a in s.calls :: Killed(s.calls[a]), registry := map[], completed := [], serviceLock := None,
         channels := map[], documents := map[], revokers := map[])
  }

  function AfterCall(s: State, step: CallStep): State
    requires CanCall(s, step)
  {
    match step
    case Begin(a, c) => SetCall(s, a, c)
    case Local(a, t, u, op) => SetCall(s, a, Apply(s.calls[a], t, u, op))
    case SubmitFence(a, t) => AfterSubmit(s, a, t)
    case ReplyFence(a, t) => AfterReply(s, a, t)
    case RegisterCall(a, t) => AfterRegister(s, a, t)
    case ReadLease(a) => MoveCall(s, a, MAIN, Goto(s.calls[a], Risk(LeaseSeen(s.leases[s.calls[a].lease]))))
    case CheckLease(a) => MoveCall(s, a, MAIN, Goto(s.calls[a], Risk(Claiming(Deadline(PcOf(s, a, MAIN).risk.lease)))))
    case ClaimItem(a, granted) => AfterClaim(s, a, granted)
    case EnterSend(a) => AfterEnterSend(s, a)
    case Deliver(a) => AfterDeliver(s, a)
    case FailSend(a, u, op) => AfterFailSend(s, a, u, op)
    case CommitOutcome(a, t, ok) => AfterOutcome(s, a, t, ok)
    case CommitReap(a, t) => AfterReap(s, a, t)
    case StoreTerminal(a, t) => AfterStore(s, a, t)
  }

  function AfterOutside(s: State, step: OutsideStep): State
    requires CanOutside(s, step)
  {
    match step
    case BrowserConfirms(a, m) => SetCall(s, a, s.calls[a].(confirmedBy := Some(m)))
    case BrowserAnswers(a, m, u) => SetCall(s, a, Answered(s.calls[a], m, u))
    case BrowserAcks(a, e) => SetCall(s, a, Acked(s.calls[a], e))
    case StartCancel(a, u) => SpawnThread(s, a, u, Cancel, ContextPc(s, a, CancelContext))
    case StartDisconnect(a, u) => SpawnThread(s, a, u, Cancel, Cancelling(CancelEntry))
    case StartReconcile(a, u) => SpawnThread(s, a, u, Reconcile, ContextPc(s, a, ReconcileContext))
    case StartReaper(a, u) => SpawnThread(s, a, u, Reaper, Reaping(ReapLock))
  }

  function AfterRevoke(s: State, step: RevokeStep): State
    requires CanRevoke(s, step)
  {
    match step
    case StartRevoke(r, l) => SetRevoker(s, r, RevokeRead(l))
    case RevokerReads(r) => AfterRevokeRead(s, r)
    case RevokerSwaps(r) => AfterRevokeSwap(s, r)
    case RevokerScans(r) => SetRevoker(s, r, RevokeLoop(s.revokers[r].lease, Holding(s, s.revokers[r].lease), None))
    case RevokerCancels(r, a, u) =>
      SetRevoker(SpawnThread(s, a, u, Cancel, ContextPc(s, a, CancelContext)), r, s.revokers[r].(waiting := Some((a, u))))
    case RevokerJoins(r) =>
      SetRevoker(s, r, s.revokers[r].(todo := s.revokers[r].todo - {s.revokers[r].waiting.value.0}, waiting := None))
    case RevokerReturns(r) => SetRevoker(s, r, RevokeOver).(returned := s.returned + {s.revokers[r].lease})
    case RevokerRaises(r) => SetRevoker(s, r, RevokeOver)
  }

  function After(s: State, step: Step): State
    requires Can(s, step)
  {
    match step
    case World(w) => AfterWorld(s, w)
    case OfCall(c) => AfterCall(s, c)
    case Outside(o) => AfterOutside(s, o)
    case Revoke(r) => AfterRevoke(s, r)
  }

  /** issue_lease: five minutes at most, inside the hard cap and the attended arm. */
  function NewLease(now: real, ttl: real, arm: real, token: real): Lease {
    var hard := Min(now + MAX_LEASE_SECONDS, arm);
    Lease(Active, now, Min(now + Min(ttl, DEFAULT_LEASE_SECONDS), hard), hard, arm, token)
  }

  function AfterClose(s: State, ch: ChannelId): State
    requires ch in s.channels
  {
    var doc := s.channels[ch].document;
    s.(channels := s.channels[ch := s.channels[ch].(closed := true)],
       documents := if doc in s.documents && s.documents[doc] == ch then s.documents - {doc} else s.documents)
  }

  /** submit_work_item_atomic: create the fence row only if it is absent. */
  function AfterSubmit(s: State, a: Nonce, t: Tid): State
    requires At(s, a, t)
  {
    var d := s.calls[a].digest;
    var created := d !in s.items;
    var pc := if PcOf(s, a, t).Admit? then Admit(FenceRead(created)) else Aborting(AbortRead(created));
    MoveCall(s, a, t, Goto(s.calls[a], pc)).(items := if created then s.items[d := Item(a, ItemReady)] else s.items)
  }

  /** The row decides ownership by its stored admission reference. */
  function AfterReply(s: State, a: Nonce, t: Tid): State
    requires At(s, a, t) && s.calls[a].digest in s.items && AtFenceRead(PcOf(s, a, t))
  {
    var main := PcOf(s, a, t).Admit?;
    var created := if main then PcOf(s, a, t).admit.created else PcOf(s, a, t).abort.created;
    var own := created || s.items[s.calls[a].digest].owner == a;
    var pc :=
      if main then (if own then Admit(PendingAudit) else End(Replayed))
      else (if own then Aborting(AbortRegister) else End(Stopped));
    MoveCall(s, a, t, Goto(s.calls[a], pc))
  }

  function AfterRegister(s: State, a: Nonce, t: Tid): State
    requires At(s, a, t)
  {
    var c := s.calls[a];
    if PcOf(s, a, t).Admit? then
      MoveCall(s, a, t, Goto(c, Admit(if c.mutates then ConfirmSend else LeaseRead))).(registry := s.registry[c.digest := a])
    else
      MoveCall(s, a, t, Goto(c, Cancelling(CancelEntry)).(timedOut := true)).(
        registry := if c.digest in s.registry then s.registry else s.registry[c.digest := a])
  }

  function AfterClaim(s: State, a: Nonce, granted: bool): State
    requires CanCall(s, ClaimItem(a, granted))
  {
    var d := s.calls[a].digest;
    MoveCall(s, a, MAIN, Goto(s.calls[a], Risk(ClaimReply(granted, PcOf(s, a, MAIN).risk.deadline)))).(
      items := if granted then s.items[d := s.items[d].(status := ItemLeased)] else s.items)
  }

  /** _dispatch inside both locks, up to the send. */
  function SendPlan(s: State, c: Call, deadline: real): Move {
    if c.cancelRequested || c.terminal.Some? then
      (if c.terminal.Some? then Return(c, c.terminal.value) else Finalize(c, OfEffect(NoEffect))).(dispatchLock := false)
    else if !Open(s, c.channel) || s.clock >= deadline then
      FailAdmitted(c, false).(dispatchLock := false)
    else
      Goto(c, Risk(Sending(deadline, s.clock)))
  }

  function AfterEnterSend(s: State, a: Nonce): State
    requires CanCall(s, EnterSend(a))
  {
    var m := SendPlan(s, s.calls[a], PcOf(s, a, MAIN).risk.deadline);
    MoveCall(s, a, MAIN, m).(serviceLock := if InSend(m.pc) then Some(a) else None)
  }

  function SentOff(c: Call): Call
    requires MAIN in c.threads
  {
    Perform(c, MAIN, MAIN, Goto(c, Sent(DispatchAuditLock)).(dispatchLock := false)).(dispatched := true)
  }

  function AfterDeliver(s: State, a: Nonce): State
    requires CanCall(s, Deliver(a))
  {
    var c := s.calls[a];
    var p := PcOf(s, a, MAIN).risk;
    SetCall(s, a, SentOff(c)).(
      serviceLock := None,
      log := s.log + [SentCall(a, c.digest, c.lease, p.checkedAt, p.deadline, Open(s, c.channel))])
  }

  /** The send raised or was interrupted without delivering. */
  function SendFailure(c: Call, op: Op): Move
    requires op.Fail? || op.Interrupt?
  {
    (if op.Fail? then FailAdmitted(c, op.timeout)
     else Goto(c, End(Raised)).(child := Some(Thread(Abort, Aborting(AbortRegister))))).(dispatchLock := false)
  }

  function AfterFailSend(s: State, a: Nonce, u: Tid, op: Op): State
    requires CanCall(s, FailSend(a, u, op))
  {
    SetCall(s, a, Perform(s.calls[a], MAIN, u, SendFailure(s.calls[a], op))).(serviceLock := None)
  }

  /** commit_call_outcome or cancel_work_item, as _terminalize_work_item chooses. */
  function EngineResult(c: Call, i: ItemStatus, r: Receipt, ok: bool): (ItemStatus, Receipt) {
    if NeedsCommit(c, r) then
      if !ok then (i, Receipt(Unknown, r.effect, r.result, CommitUnavailable))
      else if Closed(i) then (i, r)
      else (match r.status case Succeeded => ItemSucceeded case Cancelled => ItemCancelled case _ => ItemFailed, r)
    else if NeedsCancel(c, r) then
      if ok then (ItemCancelled, r) else (i, Receipt(Unknown, UncertainEffect, r.result, CancelUnavailable))
    else (i, r)
  }

  function OutcomeMove(c: Call, next: Receipt): Move {
    if next.error == CommitUnavailable || next.error == CancelUnavailable then Goto(c, Finalizing(FinalAuditAgain, next))
    else if next.status == Unknown then FinishUnknown(c, next)
    else Goto(c, Finalizing(FinalStore, next))
  }

  function AfterOutcome(s: State, a: Nonce, t: Tid, ok: bool): State
    requires CanCall(s, CommitOutcome(a, t, ok))
  {
    var c := s.calls[a];
    var item := s.items[c.digest];
    var (status, next) := EngineResult(c, item.status, PcOf(s, a, t).outcome, ok);
    MoveCall(s, a, t, OutcomeMove(c, next)).(items := s.items[c.digest := item.(status := status)])
  }

  /** _close_reaped_work_item succeeding. */
  function AfterReap(s: State, a: Nonce, t: Tid): State
    requires CanCall(s, CommitReap(a, t))
  {
    var c := s.calls[a];
    var item := s.items[c.digest];
    var status := if Closed(item.status) then item.status else if c.claim then ItemFailed else ItemCancelled;
    MoveCall(s, a, t, Goto(c, Reaping(ReapStore))).(items := s.items[c.digest := item.(status := status)])
  }

  function StoredReceipt(pc: Pc): Receipt
    requires AtStore(pc)
  {
    if pc.Finalizing? then pc.outcome else REAPED
  }

  function Settled(c: Call, t: Tid, r: Receipt): Call
    requires t in c.threads
  {
    Perform(c, t, t, Goto(c, End(Returned(r, Some(r)))).(finalizeLock := None)).(terminal := Some(r))
  }

  /** _store_terminal: cache, unregister and resolve terminal_future in one step. */
  function AfterStore(s: State, a: Nonce, t: Tid): State
    requires CanCall(s, StoreTerminal(a, t))
  {
    var r := StoredReceipt(PcOf(s, a, t));
    var d := s.calls[a].digest;
    SetCall(s, a, Settled(s.calls[a], t, r)).(
      completed := Remember(s.completed, d, r),
      registry := s.registry - {d})
  }

  /** _receive_result: resolve result_future, and finalize at once if the call timed out. */
  function Answered(c: Call, m: BrowserResult, u: Tid): Call {
    c.(
      result := if c.result.Some? then c.result else Some(m),
      unsolicited := c.unsolicited || !c.dispatched,
      threads := if c.timedOut then c.threads[u := Thread(Receive, Finalizing(FinalLock, OfResult(m)))] else c.threads)
  }

  function Acked(c: Call, e: Effect): Call {
    c.(cancelAck := if c.cancelAck.Some? then c.cancelAck else Some(e), unsolicited := c.unsolicited || !c.dispatched)
  }

  function SetRevoker(s: State, r: nat, v: Revoker): State {
    s.(revokers := s.revokers[r := v])
  }

  /** list(_active_calls.values()) restricted to the lease. */
  function Holding(s: State, l: LeaseId): set<Nonce> {
    set a | a in s.calls && Registered(s, a) && s.calls[a].lease == l
  }

  function AfterRevokeRead(s: State, r: nat): State
    requires CanRevoke(s, RevokerReads(r))
  {
    var l := s.revokers[r].lease;
    SetRevoker(s, r,
      if s.leases[l].status != Active then RevokeScan(l)
      else if s.leases[l].expires > s.clock then RevokeCas(l)
      else RevokeExpire(l))
  }

  /** The compare-and-set of transition_lease against the row that was read. */
  function AfterRevokeSwap(s: State, r: nat): State
    requires CanRevoke(s, RevokerSwaps(r))
  {
    var v := s.revokers[r];
    var active := s.leases[v.lease].status == Active;
    var next := if v.RevokeCas? && !active then RevokeOver else RevokeScan(v.lease);
    SetRevoker(s, r, next).(
      leases :=
        if !active then s.leases
        else s.leases[v.lease := s.leases[v.lease].(status := if v.RevokeCas? then Revoked else Expired)])
  }

  // ---------- runs ----------

  ghost predicate Next(s: State, s': State) {
    exists step :: Can(s, step) && s' == After(s, step)
  }

  ghost predicate StepAt(states: seq<State>, i: nat) {
    0 < i < |states| ==> Next(states[i - 1], states[i])
  }

  /** A finite run of the service from its initial state. */
  ghost predicate Run(states: seq<State>) {
    && 0 < |states|
    && states[0] == Init()
    && (forall i :: StepAt(states, i))
  }
}
