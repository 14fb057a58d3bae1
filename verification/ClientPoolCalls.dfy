/** Exactly what each locked section of the pool does, and that an allowed call is served. */
module ClientPoolCalls {
  import opened Common
  import opened ClientPool
  import opened ClientPoolTheorems

  /** The pool is open, and the graph is unbound or bound to this tenant. */
  predicate MayUse(p: Pool, o: Origin) {
    !p.closed && (o.graph !in p.tenants || p.tenants[o.graph] == o.tenant)
  }

  /** A transport of the graph is pooled for the loop of the call. */
  predicate PooledHere(p: Pool, o: Origin) {
    o.graph in p.clients && o.graph in p.loops && p.loops[o.graph] == o.loop
  }

  /** The tables of the pool and the transports are as they were. */
  predicate SameTables(p: Pool, q: Pool) {
    && q.clients == p.clients && q.loops == p.loops && q.tenants == p.tenants && q.closed == p.closed
    && q.origins == p.origins && q.places == p.places && q.closes == p.closes
  }

  /** The first locked section refuses what may not use the pool, serves what is pooled for this loop, and connects for the rest. */
  lemma StartsExactly(p: Pool, w: Worker, o: Origin)
    requires Can(p, Start(w, o))
    ensures var q := After(p, Start(w, o));
      && SameTables(p, q) && q.workers.Keys == p.workers.Keys + {w} && (forall v :: v in p.workers ==> q.workers[v] == p.workers[v])
      && q.workers[w] ==
           if !MayUse(p, o) then Refused
           else if PooledHere(p, o) then Served(o, p.clients[o.graph])
           else Connecting(o)
  {
  }

  /**
   The second one, after connecting: the transport is given up if the pool has been
   closed or the graph bound to another tenant meanwhile, or if one was pooled for this
   loop meanwhile, which is served instead; otherwise it enters the pool and is served.
   */
  lemma ConnectsExactly(p: Pool, w: Worker, c: Client)
    requires Can(p, Connected(w, c))
    ensures var q := After(p, Connected(w, c)); var o := p.workers[w].origin;
      && c in q.origins && q.origins[c] == o && q.closes == p.closes && q.closed == p.closed
      && (if !MayUse(p, o) || PooledHere(p, o) then
            && q.clients == p.clients && q.loops == p.loops && q.tenants == p.tenants
            && q.workers[w] == Dropping(o, c, if MayUse(p, o) then Some(p.clients[o.graph]) else None)
          else
            && q.workers[w] == Served(o, c) && o.graph in q.clients && q.clients[o.graph] == c
            && PooledHere(q, o) && q.tenants == p.tenants[o.graph := o.tenant]
            && q.clients.Keys == p.clients.Keys + {o.graph}
            && forall g :: g in p.clients && g != o.graph ==> q.clients[g] == p.clients[g])
  {
  }

  /** A transport that was given up is closed, and the call goes on as it was decided. */
  lemma DropsExactly(p: Pool, w: Worker)
    requires Can(p, DropSurplus(w))
    ensures var q := After(p, DropSurplus(w)); var pc := p.workers[w];
      && q.closes == p.closes + [pc.surplus] && q.clients == p.clients && q.loops == p.loops && q.tenants == p.tenants
      && q.workers[w] == if pc.instead.Some? then Served(pc.origin, pc.instead.value) else Refused
  {
  }

  /** The first close empties the tables for good and takes the transports pooled for its loop; a later one does nothing. */
  lemma ClosesExactly(p: Pool, w: Worker, loop: Loop)
    requires Can(p, StartClose(w, loop))
    ensures var q := After(p, StartClose(w, loop));
      && q.closed && q.closes == p.closes && q.origins == p.origins
      && (p.closed ==> SameTables(p, q) && q.workers[w] == CloseDone)
      && (!p.closed ==>
            && q.clients == map[] && q.loops == map[] && q.tenants == map[] && q.workers[w].Closing?
            && forall c :: c in q.workers[w].todo <==> exists g :: g in p.clients && p.clients[g] == c && g in p.loops && p.loops[g] == loop)
  {
  }

  /**
   In every state of the pool: a call that may use it is served, if nothing interferes
   and its connection succeeds - with the transport pooled for its loop, or with its own
   fresh one, which is pooled from then on.
   */
  lemma ServedAlone(p: Pool, w: Worker, o: Origin, c: Client) returns (q: Pool)
    requires w !in p.workers && c !in p.origins && MayUse(p, o)
    ensures Can(p, Start(w, o)) && PooledHere(q, o) && w in q.workers
    ensures PooledHere(p, o) ==> q == After(p, Start(w, o)) && q.workers[w] == Served(o, p.clients[o.graph])
    ensures !PooledHere(p, o) ==>
      && Can(After(p, Start(w, o)), Connected(w, c)) && q == After(After(p, Start(w, o)), Connected(w, c))
      && q.workers[w] == Served(o, c) && q.clients[o.graph] == c
  {
    StartsExactly(p, w, o);
    q := After(p, Start(w, o));
    if !PooledHere(p, o) {
      ConnectsExactly(q, w, c);
      q := After(q, Connected(w, c));
    }
  }
}
