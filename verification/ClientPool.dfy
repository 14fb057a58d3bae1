/**
 EpistemicClientPool: check, connect, re-check under a lock, and close, as
 interleaved calls. Connecting may fail; closing a transport succeeds.
 */
module ClientPool {
  import opened Common

  type Graph = nat
  type Tenant = nat
  type Loop = nat
  type Client = nat
  type Worker = nat

  /** Who connected a transport, and for which graph. */
  datatype Origin = Origin(graph: Graph, tenant: Tenant, loop: Loop)

  /** Where a transport is; `Lost` ones are neither pooled nor ever closed. */
  datatype Place = Pooled | Surplus(holder: Worker) | ToClose(holder: Worker) | Closed | Lost

  datatype Pc =
    | Connecting(origin: Origin)
    | Dropping(origin: Origin, surplus: Client, instead: Option<Client>)   // closing its own transport
    | Served(origin: Origin, client: Client)
    | Refused
    | Closing(todo: set<Client>)
    | CloseDone

  datatype Pool = Pool(
    clients: map<Graph, Client>,
    loops: map<Graph, Loop>,
    tenants: map<Graph, Tenant>,
    closed: bool,
    workers: map<Worker, Pc>,
    origins: map<Client, Origin>,   // every transport ever opened
    places: map<Client, Place>,
    closes: seq<Client>)          // every close() of a transport, in order

  const EMPTY := Pool(map[], map[], map[], false, map[], map[], map[], [])

  /** _check_binding */
  predicate Allowed(p: Pool, o: Origin) {
    !p.closed && (o.graph in p.tenants ==> p.tenants[o.graph] == o.tenant)
  }

  predicate Reusable(p: Pool, o: Origin) {
    o.graph in p.clients && o.graph in p.loops && p.loops[o.graph] == o.loop
  }

  datatype Step =
    | Start(w: Worker, origin: Origin)
    | ConnectFails(w: Worker)
    | Connected(w: Worker, client: Client)
    | DropSurplus(w: Worker)
    | StartClose(w: Worker, loop: Loop)
    | CloseOne(w: Worker, client: Client)
    | FinishClose(w: Worker)

  predicate At(p: Pool, w: Worker) {
    w in p.workers
  }

  predicate Can(p: Pool, step: Step) {
    match step
    case Start(w, _) => w !in p.workers
    case ConnectFails(w) => At(p, w) && p.workers[w].Connecting?
    case Connected(w, c) => At(p, w) && p.workers[w].Connecting? && c !in p.origins
    case DropSurplus(w) => At(p, w) && p.workers[w].Dropping?
    case StartClose(w, _) => w !in p.workers
    case CloseOne(w, c) => At(p, w) && p.workers[w].Closing? && c in p.workers[w].todo
    case FinishClose(w) => At(p, w) && p.workers[w].Closing? && p.workers[w].todo == {}
  }

  function SetWorker(p: Pool, w: Worker, pc: Pc): Pool {
    p.(workers := p.workers[w := pc])
  }

  function After(p: Pool, step: Step): Pool
    requires Can(p, step)
  {
    match step
    case Start(w, o) =>
      if !Allowed(p, o) then SetWorker(p, w, Refused)
      else if Reusable(p, o) then SetWorker(p, w, Served(o, p.clients[o.graph]))
      else SetWorker(p, w, Connecting(o))
    case ConnectFails(w) => SetWorker(p, w, Refused)
    case Connected(w, c) => AfterConnect(p, w, p.workers[w].origin, c)
    case DropSurplus(w) =>
      var pc := p.workers[w];
      SetWorker(p, w, if pc.instead.Some? then Served(pc.origin, pc.instead.value) else Refused).(
        places := p.places[pc.surplus := Closed], closes := p.closes + [pc.surplus])
    case StartClose(w, loop) => if p.closed then SetWorker(p, w, CloseDone) else AfterStartClose(p, w, loop)
    case CloseOne(w, c) =>
      SetWorker(p, w, Closing(p.workers[w].todo - {c})).(places := p.places[c := Closed], closes := p.closes + [c])
    case FinishClose(w) => SetWorker(p, w, CloseDone)
  }

  /** The second locked section: refuse, prefer the client that came first, or enter the pool. */
  function AfterConnect(p: Pool, w: Worker, o: Origin, c: Client): Pool {
    var known := p.(origins := p.origins[c := o]);
    if !Allowed(p, o) then
      SetWorker(known, w, Dropping(o, c, None)).(places := p.places[c := Surplus(w)])
    else if Reusable(p, o) then
      SetWorker(known, w, Dropping(o, c, Some(p.clients[o.graph]))).(places := p.places[c := Surplus(w)])
    else
      var displaced := if o.graph in p.clients then p.places[p.clients[o.graph] := Lost] else p.places;
      SetWorker(known, w, Served(o, c)).(
        clients := p.clients[o.graph := c], loops := p.loops[o.graph := o.loop], tenants := p.tenants[o.graph := o.tenant],
        places := displaced[c := Pooled])
  }

  /** The pooled transports of the closing loop. */
  function Owned(p: Pool, loop: Loop): set<Client> {
    set g | g in p.clients && g in p.loops && p.loops[g] == loop :: p.clients[g]
  }

  function AfterStartClose(p: Pool, w: Worker, loop: Loop): Pool {
    var mine := Owned(p, loop);
    SetWorker(p, w, Closing(mine)).(
      closed := true, clients := map[], loops := map[], tenants := map[],
      places := map c | c in p.places ::
        if c in mine then ToClose(w) else if p.places[c] == Pooled then Lost else p.places[c])
  }

  predicate LoopIn(step: Step, loops: set<Loop>) {
    (step.Start? ==> step.origin.loop in loops) && (step.StartClose? ==> step.loop in loops)
  }

  ghost predicate Next(p: Pool, q: Pool, loops: set<Loop>) {
    exists step :: Can(p, step) && LoopIn(step, loops) && q == After(p, step)
  }

  ghost predicate StepAt(run: seq<Pool>, i: nat, loops: set<Loop>) {
    0 < i < |run| ==> Next(run[i - 1], run[i], loops)
  }

  /** A run whose calls are made on the given event loops. */
  ghost predicate Run(run: seq<Pool>, loops: set<Loop>) {
    0 < |run| && run[0] == EMPTY && forall i :: StepAt(run, i, loops)
  }
}
