/** Tenant binding and transport ownership of the client pool over every run. */
module ClientPoolTheorems {
  import opened Common
  import opened ClientPool

  /** The tables agree with each other and with where the pooled transports are. */
  ghost predicate TablesInv(p: Pool, loops: set<Loop>) {
    && p.clients.Keys == p.loops.Keys && p.clients.Keys == p.tenants.Keys
    && (p.closed ==> p.clients == map[])
    && p.places.Keys == p.origins.Keys
    && (forall g :: g in p.clients ==>
          && p.loops[g] in loops
          && p.clients[g] in p.origins && p.origins[p.clients[g]] == Origin(g, p.tenants[g], p.loops[g])
          && p.places[p.clients[g]] == Pooled)
    && (forall c :: c in p.places && p.places[c] == Pooled ==>
          p.origins[c].graph in p.clients && p.clients[p.origins[c].graph] == c)
  }

  predicate PlaceOk(p: Pool, c: Client, place: Place, loops: set<Loop>) {
    match place
    case Surplus(w) => w in p.workers && p.workers[w].Dropping? && p.workers[w].surplus == c
    case ToClose(w) => w in p.workers && p.workers[w].Closing? && c in p.workers[w].todo
    case Closed => c in p.closes
    case Lost => |loops| != 1
    case Pooled => true
  }

  /** A transport is held by at most one call, and closed at most once. */
  ghost predicate PlacesInv(p: Pool, loops: set<Loop>) {
    && p.places.Keys == p.origins.Keys
    && (forall c :: c in p.places ==> PlaceOk(p, c, p.places[c], loops))
    && (forall c :: c in p.closes ==> c in p.places && p.places[c] == Closed)
    && (forall i, j :: 0 <= i < j < |p.closes| ==> p.closes[i] != p.closes[j])
  }

  /** The transport belongs to the graph and the tenant of the call. */
  predicate Fits(p: Pool, o: Origin, c: Client) {
    c in p.origins && p.origins[c].graph == o.graph && p.origins[c].tenant == o.tenant
  }

  predicate WorkerOk(p: Pool, w: Worker, pc: Pc, loops: set<Loop>) {
    match pc
    case Connecting(o) => o.loop in loops
    case Dropping(o, c, instead) => c in p.places && p.places[c] == Surplus(w) && (instead.Some? ==> Fits(p, o, instead.value))
    case Served(o, c) => Fits(p, o, c)
    case Closing(todo) => forall c :: c in todo ==> c in p.places && p.places[c] == ToClose(w)
    case _ => true
  }

  ghost predicate WorkersInv(p: Pool, loops: set<Loop>) {
    forall w :: w in p.workers ==> WorkerOk(p, w, p.workers[w], loops)
  }

  ghost predicate Inv(p: Pool, loops: set<Loop>) {
    TablesInv(p, loops) && PlacesInv(p, loops) && WorkersInv(p, loops)
  }

  /** The worker's next program counter, when no transport changes place. */
  lemma WorkerMoves(p: Pool, w: Worker, pc: Pc, loops: set<Loop>)
    requires Inv(p, loops) && WorkerOk(p, w, pc, loops)
    requires w in p.workers ==> p.workers[w].Connecting?
    ensures Inv(SetWorker(p, w, pc), loops)
  {
  }

  lemma Only(loops: set<Loop>, a: Loop, b: Loop)
    requires |loops| == 1 && a in loops && b in loops
    ensures a == b
  {
    assert |loops - {a}| == 0;
    assert loops == (loops - {a}) + {a};
  }

  lemma ConnectedKeepsTables(p: Pool, w: Worker, o: Origin, c: Client, loops: set<Loop>)
    requires TablesInv(p, loops) && o.loop in loops && c !in p.origins
    ensures TablesInv(AfterConnect(p, w, o, c), loops)
  {
    if Allowed(p, o) && !Reusable(p, o) {
      PooledKeepsTables(p, w, o, c, loops);
    }
  }

  lemma PooledKeepsTables(p: Pool, w: Worker, o: Origin, c: Client, loops: set<Loop>)
    requires TablesInv(p, loops) && o.loop in loops && c !in p.origins && Allowed(p, o) && !Reusable(p, o)
    ensures TablesInv(AfterConnect(p, w, o, c), loops)
  {
    var q := AfterConnect(p, w, o, c);
    PooledOthers(p, q, o, c, loops);
  }

  /** One graph gets a new client; a transport it displaces is no longer pooled. */
  lemma PooledOthers(p: Pool, q: Pool, o: Origin, c: Client, loops: set<Loop>)
    requires TablesInv(p, loops) && o.loop in loops && c !in p.origins && !q.closed
    requires q.clients == p.clients[o.graph := c] && q.loops == p.loops[o.graph := o.loop] && q.tenants == p.tenants[o.graph := o.tenant]
    requires q.origins == p.origins[c := o] && q.places.Keys == q.origins.Keys && q.places[c] == Pooled
    requires forall x :: x in p.places ==>
      q.places[x] == if o.graph in p.clients && x == p.clients[o.graph] then Lost else p.places[x]
    ensures TablesInv(q, loops)
  {
    forall g | g in q.clients && g != o.graph
      ensures q.places[q.clients[g]] == Pooled
    {
      assert p.origins[p.clients[g]].graph == g;
    }
    forall x | x in q.places && q.places[x] == Pooled
      ensures q.origins[x].graph in q.clients && q.clients[q.origins[x].graph] == x
    {
      if x != c {
        assert p.places[x] == Pooled;
        assert p.clients[p.origins[x].graph] == x;
      }
    }
  }

  /** A new transport gets its place; a displaced one is lost, which takes a second loop. */
  lemma NewPlace(p: Pool, q: Pool, w: Worker, c: Client, loops: set<Loop>)
    requires PlacesInv(p, loops) && w in p.workers && p.workers[w].Connecting? && c !in p.origins
    requires w in q.workers && q.workers == p.workers[w := q.workers[w]] && q.closes == p.closes
    requires q.origins.Keys == p.origins.Keys + {c} && q.places.Keys == q.origins.Keys
    requires forall x :: x in p.places ==>
      q.places[x] == p.places[x] || (p.places[x] == Pooled && q.places[x] == Lost && |loops| != 1)
    requires q.places[c] != Closed && PlaceOk(q, c, q.places[c], loops)
    ensures PlacesInv(q, loops)
  {
    forall x | x in q.places
      ensures PlaceOk(q, x, q.places[x], loops)
    {
      if x != c {
        assert PlaceOk(p, x, p.places[x], loops);
      }
    }
  }

  lemma ConnectedKeepsPlaces(p: Pool, w: Worker, o: Origin, c: Client, loops: set<Loop>)
    requires Inv(p, loops) && At(p, w) && p.workers[w] == Connecting(o) && o.loop in loops && c !in p.origins
    ensures PlacesInv(AfterConnect(p, w, o, c), loops)
  {
    if Allowed(p, o) && !Reusable(p, o) && o.graph in p.clients && |loops| == 1 {
      Only(loops, p.loops[o.graph], o.loop);
    }
    NewPlace(p, AfterConnect(p, w, o, c), w, c, loops);
  }

  /** A call that this step leaves alone keeps what it knows. */
  lemma OthersKeep(p: Pool, q: Pool, v: Worker, pc: Pc, loops: set<Loop>)
    requires WorkerOk(p, v, pc, loops)
    requires forall c :: c in p.origins ==> c in q.origins && q.origins[c] == p.origins[c]
    requires forall c :: c in p.places && (p.places[c] == Surplus(v) || p.places[c] == ToClose(v)) ==>
      c in q.places && q.places[c] == p.places[c]
    ensures WorkerOk(q, v, pc, loops)
  {
  }

  lemma ConnectedKeepsWorkers(p: Pool, w: Worker, o: Origin, c: Client, loops: set<Loop>)
    requires Inv(p, loops) && At(p, w) && p.workers[w] == Connecting(o) && c !in p.origins
    ensures WorkersInv(AfterConnect(p, w, o, c), loops)
  {
    ConnectorKnows(p, w, o, c, loops);
    OthersUnmoved(p, AfterConnect(p, w, o, c), w, loops);
  }

  lemma OthersUnmoved(p: Pool, q: Pool, w: Worker, loops: set<Loop>)
    requires WorkersInv(p, loops) && w in q.workers && q.workers == p.workers[w := q.workers[w]]
    requires WorkerOk(q, w, q.workers[w], loops)
    requires forall c :: c in p.origins ==> c in q.origins && q.origins[c] == p.origins[c]
    requires forall c :: c in p.places && p.places[c] != Pooled ==> c in q.places && q.places[c] == p.places[c]
    ensures WorkersInv(q, loops)
  {
    forall v | v in q.workers && v != w
      ensures WorkerOk(q, v, q.workers[v], loops)
    {
      OthersKeep(p, q, v, p.workers[v], loops);
    }
  }

  lemma ConnectorKnows(p: Pool, w: Worker, o: Origin, c: Client, loops: set<Loop>)
    requires TablesInv(p, loops) && c !in p.origins
    ensures WorkerOk(AfterConnect(p, w, o, c), w, AfterConnect(p, w, o, c).workers[w], loops)
  {
  }

  lemma OwnedArePooled(p: Pool, loop: Loop, loops: set<Loop>)
    requires TablesInv(p, loops) && loop in loops
    ensures forall c :: c in Owned(p, loop) ==> c in p.places && p.places[c] == Pooled
    ensures |loops| == 1 ==> forall c :: c in p.places && p.places[c] == Pooled ==> c in Owned(p, loop)
  {
    forall c | c in p.places && p.places[c] == Pooled && |loops| == 1
      ensures c in Owned(p, loop)
    {
      Only(loops, p.loops[p.origins[c].graph], loop);
    }
  }

  lemma CloseStartsKeepPlaces(p: Pool, w: Worker, loop: Loop, loops: set<Loop>)
    requires Inv(p, loops) && w !in p.workers && !p.closed && loop in loops
    ensures TablesInv(AfterStartClose(p, w, loop), loops) && PlacesInv(AfterStartClose(p, w, loop), loops)
  {
    OwnedArePooled(p, loop, loops);
    var q := AfterStartClose(p, w, loop);
    forall c | c in q.places
      ensures PlaceOk(q, c, q.places[c], loops)
    {
      assert PlaceOk(p, c, p.places[c], loops);
    }
  }

  lemma CloseStartsKeep(p: Pool, w: Worker, loop: Loop, loops: set<Loop>)
    requires Inv(p, loops) && w !in p.workers && !p.closed && loop in loops
    ensures Inv(AfterStartClose(p, w, loop), loops)
  {
    CloseStartsKeepPlaces(p, w, loop, loops);
    OwnedArePooled(p, loop, loops);
    var q := AfterStartClose(p, w, loop);
    forall v | v in q.workers
      ensures WorkerOk(q, v, q.workers[v], loops)
    {
      if v != w {
        OthersKeep(p, q, v, p.workers[v], loops);
      }
    }
  }

  /** The call `w` holds the transport and moves on to `pc` after closing it. */
  predicate GivesUp(p: Pool, w: Worker, c: Client, pc: Pc) {
    && w in p.workers && c in p.places && c in p.origins
    && ((p.places[c] == Surplus(w) && p.workers[w].Dropping? && (pc.Served? || pc.Refused?))
        || (p.places[c] == ToClose(w) && p.workers[w].Closing? && pc == Closing(p.workers[w].todo - {c})))
    && (pc.Served? ==> Fits(p, pc.origin, pc.client))
  }

  function ClosedBy(p: Pool, w: Worker, c: Client, pc: Pc): Pool
    requires c in p.places
  {
    SetWorker(p, w, pc).(places := p.places[c := Closed], closes := p.closes + [c])
  }

  lemma ClosedPlaces(p: Pool, w: Worker, c: Client, pc: Pc, loops: set<Loop>)
    requires Inv(p, loops) && GivesUp(p, w, c, pc)
    ensures PlacesInv(ClosedBy(p, w, c, pc), loops)
  {
    var q := ClosedBy(p, w, c, pc);
    assert c !in p.closes;
    ClosesGrow(p.closes, c);
    forall x | x in q.places
      ensures PlaceOk(q, x, q.places[x], loops)
    {
      assert PlaceOk(p, x, p.places[x], loops);
      if p.places[x] == Surplus(w) || p.places[x] == ToClose(w) {
        assert WorkerOk(p, w, p.workers[w], loops);
      }
    }
  }

  lemma ClosesGrow(closes: seq<Client>, c: Client)
    requires c !in closes && forall i, j :: 0 <= i < j < |closes| ==> closes[i] != closes[j]
    ensures forall i, j :: 0 <= i < j < |closes + [c]| ==> (closes + [c])[i] != (closes + [c])[j]
    ensures forall x :: x in closes + [c] <==> x in closes || x == c
  {
  }

  /** A transport that its holder gives up is closed once. */
  lemma ClosedOnce(p: Pool, w: Worker, c: Client, pc: Pc, loops: set<Loop>)
    requires Inv(p, loops) && GivesUp(p, w, c, pc)
    ensures Inv(ClosedBy(p, w, c, pc), loops)
  {
    var q := ClosedBy(p, w, c, pc);
    ClosedPlaces(p, w, c, pc, loops);
    forall v | v in q.workers
      ensures WorkerOk(q, v, q.workers[v], loops)
    {
      assert WorkerOk(p, v, p.workers[v], loops);
      if v != w {
        OthersKeep(p, q, v, p.workers[v], loops);
      }
    }
  }

  lemma StepKeeps(p: Pool, step: Step, loops: set<Loop>)
    requires Inv(p, loops) && Can(p, step) && LoopIn(step, loops)
    ensures Inv(After(p, step), loops)
  {
    match step
    case Start(w, o) => WorkerMoves(p, w, After(p, step).workers[w], loops);
    case ConnectFails(w) => WorkerMoves(p, w, Refused, loops);
    case Connected(w, c) =>
      assert WorkerOk(p, w, p.workers[w], loops);
      ConnectedKeepsTables(p, w, p.workers[w].origin, c, loops);
      ConnectedKeepsPlaces(p, w, p.workers[w].origin, c, loops);
      ConnectedKeepsWorkers(p, w, p.workers[w].origin, c, loops);
    case DropSurplus(w) =>
      assert WorkerOk(p, w, p.workers[w], loops);
      ClosedOnce(p, w, p.workers[w].surplus, After(p, step).workers[w], loops);
    case StartClose(w, loop) =>
      if p.closed {
        WorkerMoves(p, w, CloseDone, loops);
      } else {
        CloseStartsKeep(p, w, loop, loops);
      }
    case CloseOne(w, c) =>
      assert WorkerOk(p, w, p.workers[w], loops);
      ClosedOnce(p, w, c, Closing(p.workers[w].todo - {c}), loops);
    case FinishClose(w) => FinishKeeps(p, w, loops);
  }

  lemma FinishKeeps(p: Pool, w: Worker, loops: set<Loop>)
    requires Inv(p, loops) && w in p.workers && p.workers[w].Closing? && p.workers[w].todo == {}
    ensures Inv(SetWorker(p, w, CloseDone), loops)
  {
  }

  lemma RunInv(run: seq<Pool>, i: nat, loops: set<Loop>)
    requires Run(run, loops) && i < |run|
    ensures Inv(run[i], loops)
  {
    var inv := (p: Pool) => Inv(p, loops);
    forall k | 0 < k < |run| && inv(run[k - 1])
      ensures inv(run[k])
    {
      assert StepAt(run, k, loops);
      NextKeeps(run[k - 1], run[k], loops);
    }
    Induction(run, inv, i);
  }

  lemma NextKeeps(p: Pool, q: Pool, loops: set<Loop>)
    requires Inv(p, loops) && Next(p, q, loops)
    ensures Inv(q, loops)
  {
    var step :| Can(p, step) && LoopIn(step, loops) && q == After(p, step);
    StepKeeps(p, step, loops);
  }

  // ---------- tenants ----------

  /** Whoever is served gets a transport that was connected for its own graph and tenant. */
  lemma ServedOwnTenant(run: seq<Pool>, i: nat, w: Worker, loops: set<Loop>)
    requires Run(run, loops) && i < |run| && w in run[i].workers && run[i].workers[w].Served?
    ensures var pc := run[i].workers[w];
      && pc.client in run[i].origins
      && run[i].origins[pc.client].graph == pc.origin.graph && run[i].origins[pc.client].tenant == pc.origin.tenant
  {
    RunInv(run, i, loops);
    assert WorkerOk(run[i], w, run[i].workers[w], loops);
  }

  lemma StepKeepsTenants(p: Pool, step: Step, g: Graph)
    requires Can(p, step) && g in p.tenants && !After(p, step).closed
    ensures g in After(p, step).tenants && After(p, step).tenants[g] == p.tenants[g] && !p.closed
  {
  }

  /** Until the pool is closed, a graph keeps the tenant of its first use. */
  lemma {:induction false} TenantIsFixed(run: seq<Pool>, i: nat, j: nat, g: Graph, loops: set<Loop>)
    requires Run(run, loops) && i <= j < |run| && g in run[i].tenants && !run[j].closed
    ensures g in run[j].tenants && run[j].tenants[g] == run[i].tenants[g] && !run[i].closed
  {
    if i < j {
      assert StepAt(run, j, loops);
      OpenBefore(run[j - 1], run[j], loops);
      TenantIsFixed(run, i, j - 1, g, loops);
      var step :| Can(run[j - 1], step) && LoopIn(step, loops) && run[j] == After(run[j - 1], step);
      StepKeepsTenants(run[j - 1], step, g);
    }
  }

  lemma OpenBefore(p: Pool, q: Pool, loops: set<Loop>)
    requires Next(p, q, loops)
    ensures p.closed ==> q.closed
  {
    var step :| Can(p, step) && LoopIn(step, loops) && q == After(p, step);
    if p.closed {
      StepNeverReopens(p, step);
    }
  }

  lemma StepNeverReopens(p: Pool, step: Step)
    requires Can(p, step) && p.closed
    ensures After(p, step).closed
  {
  }

  // ---------- transports ----------

  predicate Quiet(p: Pool) {
    forall w :: w in p.workers ==> p.workers[w].Served? || p.workers[w].Refused? || p.workers[w].CloseDone?
  }

  /**
   On one event loop, every transport ever opened is at each moment either pooled,
   or held by exactly one call that is about to close it, or closed; and none is
   closed twice.
   */
  lemma NothingLost(run: seq<Pool>, i: nat, loop: Loop, c: Client)
    requires Run(run, {loop}) && i < |run| && c in run[i].origins
    ensures var p := run[i];
      && c in p.places && p.places[c] != Lost
      && (p.places[c] == Closed <==> c in p.closes)
      && (p.places[c] == Pooled <==> c in p.clients.Values)
    ensures forall a, b :: 0 <= a < b < |run[i].closes| ==> run[i].closes[a] != run[i].closes[b]
  {
    RunInv(run, i, {loop});
    var p := run[i];
    assert PlaceOk(p, c, p.places[c], {loop});
    if p.places[c] == Pooled {
      assert p.clients[p.origins[c].graph] == c;
    }
  }

  /** After close, once the pending calls are over, exactly the opened transports have been closed, each once. */
  lemma AllClosedOnce(run: seq<Pool>, i: nat, loop: Loop)
    requires Run(run, {loop}) && i < |run| && run[i].closed && Quiet(run[i])
    ensures forall c :: c in run[i].origins <==> c in run[i].closes
    ensures |run[i].closes| == |run[i].origins|
  {
    RunInv(run, i, {loop});
    var p := run[i];
    forall c | c in p.origins
      ensures c in p.closes
    {
      assert PlaceOk(p, c, p.places[c], {loop});
    }
    CountDistinct(p.closes, p.origins.Keys);
  }

  lemma {:induction false} CountDistinct(s: seq<Client>, all: set<Client>)
    requires forall i, j :: 0 <= i < j < |s| ==> s[i] != s[j]
    requires forall c :: c in s <==> c in all
    ensures |s| == |all|
  {
    if s != [] {
      var n := |s| - 1;
      assert forall c :: c in s[..n] <==> c in all - {s[n]};
      CountDistinct(s[..n], all - {s[n]});
    } else {
      assert all == {};
    }
  }

  // ---------- when a transport is lost ----------

  predicate IsLost(p: Pool, c: Client) {
    c in p.places && p.places[c] == Lost
  }

  /**
   The two ways to lose the pooled transport `c`: a call from another loop enters
   its own one for the same graph, or close runs on another loop.
   */
  predicate Drops(p: Pool, step: Step, c: Client)
    requires Can(p, step)
  {
    match step
    case Connected(w, _) =>
      var o := p.workers[w].origin;
      Allowed(p, o) && o.graph in p.clients && p.clients[o.graph] == c && o.graph in p.loops && p.loops[o.graph] != o.loop
    case StartClose(_, loop) =>
      !p.closed && exists g :: g in p.clients && p.clients[g] == c && g in p.loops && p.loops[g] != loop
    case _ => false
  }

  /** A pooled transport is owned by the loop that its graph is entered for. */
  lemma OwnedByItsLoop(p: Pool, loop: Loop, loops: set<Loop>, g: Graph)
    requires TablesInv(p, loops) && g in p.clients
    ensures p.clients[g] in Owned(p, loop) <==> p.loops[g] == loop
  {
    if p.clients[g] in Owned(p, loop) {
      var h :| h in p.clients && h in p.loops && p.loops[h] == loop && p.clients[h] == p.clients[g];
      assert p.origins[p.clients[h]].graph == h && p.origins[p.clients[g]].graph == g;
    }
  }

  lemma CloseDrops(p: Pool, w: Worker, loop: Loop, loops: set<Loop>, c: Client)
    requires Inv(p, loops) && Can(p, StartClose(w, loop)) && !p.closed
    ensures IsLost(AfterStartClose(p, w, loop), c) <==> IsLost(p, c) || Drops(p, StartClose(w, loop), c)
  {
    if c in p.places && p.places[c] == Pooled {
      OwnedByItsLoop(p, loop, loops, p.origins[c].graph);
    }
    if Drops(p, StartClose(w, loop), c) {
      var g :| g in p.clients && p.clients[g] == c && g in p.loops && p.loops[g] != loop;
      OwnedByItsLoop(p, loop, loops, g);
    }
    if c in Owned(p, loop) {
      assert p.places[c] == Pooled;
    }
  }

  /** No other step loses a transport, and none that is lost comes back. */
  lemma StepLosesExactly(p: Pool, step: Step, loops: set<Loop>, c: Client)
    requires Inv(p, loops) && Can(p, step)
    ensures IsLost(After(p, step), c) <==> IsLost(p, c) || Drops(p, step, c)
  {
    match step
    case StartClose(w, loop) => if !p.closed { CloseDrops(p, w, loop, loops, c); }
    case DropSurplus(w) => assert WorkerOk(p, w, p.workers[w], loops);
    case CloseOne(w, x) => assert WorkerOk(p, w, p.workers[w], loops);
    case _ =>
  }

  /** A finished connect loses a transport if and only if the graph is pooled for another loop and the binding check passes. */
  lemma ConnectLosesExactly(p: Pool, w: Worker, n: Client, loops: set<Loop>)
    requires Inv(p, loops) && Can(p, Connected(w, n))
    ensures var o := p.workers[w].origin;
      (exists c :: !IsLost(p, c) && IsLost(After(p, Connected(w, n)), c))
      <==> Allowed(p, o) && o.graph in p.clients && p.loops[o.graph] != o.loop
  {
    var o := p.workers[w].origin;
    forall c
      ensures IsLost(After(p, Connected(w, n)), c) <==> IsLost(p, c) || Drops(p, Connected(w, n), c)
    {
      StepLosesExactly(p, Connected(w, n), loops, c);
    }
    if Allowed(p, o) && o.graph in p.clients && p.loops[o.graph] != o.loop {
      assert Drops(p, Connected(w, n), p.clients[o.graph]) && !IsLost(p, p.clients[o.graph]);
    }
  }

  /** The first close loses a transport if and only if some graph is pooled for another loop. */
  lemma CloseLosesExactly(p: Pool, w: Worker, loop: Loop, loops: set<Loop>)
    requires Inv(p, loops) && Can(p, StartClose(w, loop))
    ensures (exists c :: !IsLost(p, c) && IsLost(After(p, StartClose(w, loop)), c))
      <==> !p.closed && exists g :: g in p.clients && p.loops[g] != loop
  {
    forall c
      ensures IsLost(After(p, StartClose(w, loop)), c) <==> IsLost(p, c) || Drops(p, StartClose(w, loop), c)
    {
      StepLosesExactly(p, StartClose(w, loop), loops, c);
    }
    if !p.closed && exists g :: g in p.clients && p.loops[g] != loop {
      var g :| g in p.clients && p.loops[g] != loop;
      assert Drops(p, StartClose(w, loop), p.clients[g]) && !IsLost(p, p.clients[g]);
    }
  }

  /** The k-th step of the run lost the transport. */
  ghost predicate DroppedAt(run: seq<Pool>, k: nat, loops: set<Loop>, c: Client) {
    0 < k < |run|
    && exists step :: Can(run[k - 1], step) && LoopIn(step, loops) && run[k] == After(run[k - 1], step) && Drops(run[k - 1], step, c)
  }

  /** Over every run, on any number of loops: a transport is lost if and only if one of the two ways has been taken for it. */
  lemma {:induction false} LostExactly(run: seq<Pool>, i: nat, loops: set<Loop>, c: Client)
    requires Run(run, loops) && i < |run|
    ensures IsLost(run[i], c) <==> exists k :: 0 < k <= i && DroppedAt(run, k, loops, c)
  {
    if i > 0 {
      LostExactly(run, i - 1, loops, c);
      RunInv(run, i - 1, loops);
      assert StepAt(run, i, loops);
      LostAt(run, i, loops, c);
    }
  }

  lemma LostAt(run: seq<Pool>, i: nat, loops: set<Loop>, c: Client)
    requires 0 < i < |run| && Inv(run[i - 1], loops) && Next(run[i - 1], run[i], loops)
    ensures IsLost(run[i], c) <==> IsLost(run[i - 1], c) || DroppedAt(run, i, loops, c)
  {
    if DroppedAt(run, i, loops, c) {
      var step :| Can(run[i - 1], step) && LoopIn(step, loops) && run[i] == After(run[i - 1], step) && Drops(run[i - 1], step, c);
      StepLosesExactly(run[i - 1], step, loops, c);
    }
    var step :| Can(run[i - 1], step) && LoopIn(step, loops) && run[i] == After(run[i - 1], step);
    StepLosesExactly(run[i - 1], step, loops, c);
  }

  /**
   After close, once the pending calls are over, on any number of loops: an opened
   transport has been closed if and only if no step of the run lost it.
   */
  lemma ClosedUnlessDropped(run: seq<Pool>, i: nat, loops: set<Loop>, c: Client)
    requires Run(run, loops) && i < |run| && run[i].closed && Quiet(run[i]) && c in run[i].origins
    ensures c in run[i].closes <==> !exists k :: 0 < k <= i && DroppedAt(run, k, loops, c)
  {
    RunInv(run, i, loops);
    LostExactly(run, i, loops, c);
    assert PlaceOk(run[i], c, run[i].places[c], loops);
  }

  // ---------- two event loops ----------

  function Pair(): seq<Step> {
    [Start(0, Origin(7, 1, 0)), Connected(0, 10), Start(1, Origin(7, 1, 1)), Connected(1, 11)]
  }

  /**
   With two loops a transport can get lost: a second loop replaces the pooled
   client of the first one, and nobody holds or closes it any more.
   */
  lemma SecondLoopLosesTransport() returns (run: seq<Pool>)
    ensures Run(run, {0, 1}) && |run| == 5
    ensures var p := run[4]; 10 in p.origins && 10 !in p.closes && 10 !in p.clients.Values && 10 in p.places && p.places[10] == Lost && Quiet(p)
  {
    var p1 := After(EMPTY, Pair()[0]);
    var p2 := After(p1, Pair()[1]);
    var p3 := After(p2, Pair()[2]);
    var p4 := After(p3, Pair()[3]);
    run := [EMPTY, p1, p2, p3, p4];
    assert p4.clients == map[7 := 11];
    forall i: nat
      ensures StepAt(run, i, {0, 1})
    {
      if 0 < i < 5 {
        assert Can(run[i - 1], Pair()[i - 1]) && run[i] == After(run[i - 1], Pair()[i - 1]);
      }
    }
  }

  /** Closing from another loop loses the transport as well: nothing is left to close it. */
  lemma CloseElsewhereLosesTransport() returns (run: seq<Pool>)
    ensures Run(run, {0, 1}) && |run| == 5
    ensures var p := run[4]; p.closed && Quiet(p) && 10 in p.origins && 10 !in p.closes && IsLost(p, 10)
  {
    var p1 := After(EMPTY, Start(0, Origin(7, 1, 0)));
    var p2 := After(p1, Connected(0, 10));
    assert Owned(p2, 1) == {};
    var p3 := After(p2, StartClose(1, 1));
    var p4 := After(p3, FinishClose(1));
    run := [EMPTY, p1, p2, p3, p4];
    forall i: nat
      ensures StepAt(run, i, {0, 1})
    {
      if 0 < i < 5 {
        var step := [Start(0, Origin(7, 1, 0)), Connected(0, 10), StartClose(1, 1), FinishClose(1)][i - 1];
        assert Can(run[i - 1], step) && LoopIn(step, {0, 1}) && run[i] == After(run[i - 1], step);
      }
    }
  }
}
