/** The invariant of the whole browser-control machine and its preservation. */
module CallSafety {
  import opened Common
  import opened CallState
  import opened CallInvariant
  import opened CallMachine

  ghost predicate CallsInv(s: State) {
    forall a :: a in s.calls ==>
      && s.calls[a].lease in s.leases
      && CallInv(s.calls[a], Owned(s, a, s.calls[a].digest), Done(s, s.calls[a].digest))
  }

  /** A fence row belongs to one call of its digest. */
  ghost predicate ItemsInv(s: State) {
    forall d :: d in s.items ==> s.items[d].owner in s.calls && s.calls[s.items[d].owner].digest == d
  }

  /** `_active_calls` holds fence owners only, and every call that may still send. */
  ghost predicate RegistryInv(s: State) {
    && (forall d :: d in s.registry ==> Owned(s, s.registry[d], d))
    && (forall a :: a in s.calls && OnSendPath(s.calls[a]) && s.calls[a].terminal.None? ==> Registered(s, a))
  }

  ghost predicate CompletedInv(s: State) {
    && |s.completed| <= COMPLETED_CACHE_SIZE
    && (forall e :: e in s.completed ==>
          && e.0 in s.items && s.items[e.0].owner in s.calls
          && s.calls[s.items[e.0].owner].terminal == Some(e.1))
  }

  predicate SendOk(s: State, a: Nonce, c: Call) {
    && (AtRisk(c) ==> c.lease in s.leases && DeadlineOf(c.threads[MAIN].pc.risk) == Deadline(s.leases[c.lease]))
    && (AtRisk(c) && InSend(c.threads[MAIN].pc) ==>
          && s.serviceLock == Some(a)
          && Open(s, c.channel)
          && c.threads[MAIN].pc.risk.checkedAt < c.threads[MAIN].pc.risk.deadline)
  }

  ghost predicate SendInv(s: State) {
    forall a :: a in s.calls ==> SendOk(s, a, s.calls[a])
  }

  predicate EntryOk(s: State, e: SentCall) {
    && e.call in s.calls && s.calls[e.call].dispatched
    && e.digest == s.calls[e.call].digest && e.lease == s.calls[e.call].lease
    && e.lease in s.leases && e.deadline == Deadline(s.leases[e.lease])
    && e.checkedAt < e.deadline && e.open
  }

  ghost predicate LogInv(s: State) {
    && (forall i :: 0 <= i < |s.log| ==> EntryOk(s, s.log[i]))
    && (forall i, j :: 0 <= i < j < |s.log| ==> s.log[i].call != s.log[j].call)
  }

  predicate LeaseOk(l: Lease) {
    l.issued <= l.expires <= l.hard <= l.arm <= l.token && l.expires <= l.issued + DEFAULT_LEASE_SECONDS
  }

  ghost predicate LeasesInv(s: State) {
    forall l :: l in s.leases ==> LeaseOk(s.leases[l])
  }

  predicate Dead(s: State, l: LeaseId) {
    l in s.leases && s.leases[l].status != Active
  }

  /** The call can no longer pass the checks in front of its send. */
  predicate Halted(c: Call) {
    c.cancelRequested || c.terminal.Some? || c.unsolicited
  }

  ghost predicate Barred(s: State, l: LeaseId, todo: set<Nonce>) {
    Dead(s, l) && forall a :: a in s.calls && s.calls[a].lease == l && AtRisk(s.calls[a]) ==> Halted(s.calls[a]) || a in todo
  }

  ghost predicate RevokerOk(s: State, v: Revoker) {
    match v
    case RevokeScan(l) => Dead(s, l)
    case RevokeLoop(l, todo, waiting) =>
      && Barred(s, l, todo)
      && (waiting.Some? ==>
            var (a, t) := waiting.value;
            a in s.calls && t in s.calls[a].threads && s.calls[a].threads[t].kind == Cancel)
    case _ => true
  }

  ghost predicate RevokeInv(s: State) {
    && (forall r :: r in s.revokers ==> RevokerOk(s, s.revokers[r]))
    && (forall l :: l in s.returned ==> Barred(s, l, {}))
  }

  ghost predicate Inv(s: State) {
    CallsInv(s) && ItemsInv(s) && RegistryInv(s) && CompletedInv(s)
    && SendInv(s) && LogInv(s) && LeasesInv(s) && RevokeInv(s)
  }

  /** A call only evolves; a crash ends its coroutines and keeps its record. */
  ghost predicate Follows(c: Call, d: Call) {
    Evolves(c, d) || d == Killed(c)
  }

  ghost predicate History(s: State, s': State) {
    forall a :: a in s.calls ==> a in s'.calls && Follows(s.calls[a], s'.calls[a])
  }

  lemma InitInv()
    ensures Inv(Init())
  {
  }

  lemma UpdateHistory(s: State, s': State, a: Nonce, d: Call)
    requires a in s.calls && s'.calls == s.calls[a := d] && Evolves(s.calls[a], d)
    ensures History(s, s')
  {
  }

  // ---------- growth of the shared state ----------

  /** Durable rows only move forward; a new fence row belongs to the call that submits it. */
  ghost predicate ItemsForward(s: State, items: map<Digest, Item>, a: Nonce) {
    && (forall d :: d in s.items ==>
          d in items && items[d].owner == s.items[d].owner && (Closed(s.items[d].status) ==> Closed(items[d].status)))
    && (forall d :: d in items && d !in s.items ==> items[d].owner == a && a in s.calls && s.calls[a].digest == d)
  }

  lemma CallInvGrows(c: Call, owned: bool, done: bool, owned': bool, done': bool)
    requires CallInv(c, owned, done) && (owned ==> owned') && (done ==> done') && (owned' ==> Authorized(c))
    ensures CallInv(c, owned', done')
  {
    forall t | t in c.threads
      ensures ThreadOk(c, t, c.threads[t], owned', done')
    {
      assert ThreadOk(c, t, c.threads[t], owned, done);
    }
  }

  /** Replacing one call, and moving the items forward, keeps the invariant of every call. */
  lemma ReplaceKeepsCalls(s: State, s': State, a: Nonce, d: Call)
    requires CallsInv(s) && ItemsInv(s) && a in s.calls
    requires s'.calls == s.calls[a := d] && s'.leases.Keys >= s.leases.Keys && ItemsForward(s, s'.items, a)
    requires d.digest == s.calls[a].digest && d.lease == s.calls[a].lease
    requires CallInv(d, Owned(s', a, d.digest), Done(s', d.digest))
    ensures CallsInv(s') && ItemsInv(s')
  {
    forall b | b in s'.calls
      ensures s'.calls[b].lease in s'.leases
      ensures CallInv(s'.calls[b], Owned(s', b, s'.calls[b].digest), Done(s', s'.calls[b].digest))
    {
      if b != a {
        var g := s.calls[b].digest;
        assert RecordOk(s.calls[b], Owned(s, b, g), Done(s, g));
        CallInvGrows(s.calls[b], Owned(s, b, g), Done(s, g), Owned(s', b, g), Done(s', g));
      }
    }
  }

  /** One call is replaced by a successor and the items move forward. */
  ghost predicate Update(s: State, s': State, a: Nonce, d: Call) {
    && a in s.calls && s'.calls == s.calls[a := d] && Evolves(s.calls[a], d)
    && s'.leases == s.leases && ItemsForward(s, s'.items, a)
  }

  lemma CalmKeepsRegistry(s: State, s': State, a: Nonce, d: Call)
    requires RegistryInv(s) && Update(s, s', a, d) && Calm(s.calls[a], d) && s'.registry == s.registry
    ensures RegistryInv(s')
  {
  }

  lemma UpdateKeepsCompleted(s: State, s': State, a: Nonce, d: Call)
    requires CompletedInv(s) && Update(s, s', a, d) && s'.completed == s.completed
    ensures CompletedInv(s')
  {
  }

  lemma CalmKeepsSend(s: State, s': State, a: Nonce, d: Call)
    requires SendInv(s) && Update(s, s', a, d) && RiskCalm(s.calls[a], d)
    requires s'.serviceLock == s.serviceLock && s'.channels == s.channels && s'.documents == s.documents
    ensures SendInv(s')
  {
    forall b | b in s'.calls
      ensures SendOk(s', b, s'.calls[b])
    {
      assert SendOk(s, b, s.calls[b]);
    }
  }

  lemma UpdateKeepsLog(s: State, s': State, a: Nonce, d: Call)
    requires LogInv(s) && Update(s, s', a, d) && s'.log == s.log
    ensures LogInv(s')
  {
    forall i | 0 <= i < |s'.log|
      ensures EntryOk(s', s'.log[i])
    {
      assert EntryOk(s, s.log[i]);
    }
  }

  lemma CalmKeepsBar(s: State, s': State, a: Nonce, d: Call, l: LeaseId, todo: set<Nonce>)
    requires Barred(s, l, todo) && Update(s, s', a, d) && RiskCalm(s.calls[a], d)
    ensures Barred(s', l, todo)
  {
  }

  lemma CalmKeepsRevoke(s: State, s': State, a: Nonce, d: Call)
    requires RevokeInv(s) && Update(s, s', a, d) && RiskCalm(s.calls[a], d) && s'.revokers == s.revokers && s'.returned == s.returned
    ensures RevokeInv(s')
  {
    forall r | r in s'.revokers
      ensures RevokerOk(s', s'.revokers[r])
    {
      assert RevokerOk(s, s.revokers[r]);
      if s.revokers[r].RevokeLoop? {
        CalmKeepsBar(s, s', a, d, s.revokers[r].lease, s.revokers[r].todo);
      }
    }
    forall l | l in s'.returned
      ensures Barred(s', l, {})
    {
      CalmKeepsBar(s, s', a, d, l, {});
    }
  }

  /** A step that only replaces one call by a calm successor keeps everything. */
  lemma CalmKeeps(s: State, s': State, a: Nonce, d: Call)
    requires Inv(s) && a in s.calls
    requires s' == s.(calls := s.calls[a := d], items := s'.items) && ItemsForward(s, s'.items, a)
    requires Calm(s.calls[a], d) && CallInv(d, Owned(s', a, d.digest), Done(s', d.digest))
    ensures Inv(s')
    ensures History(s, s')
  {
    UpdateHistory(s, s', a, d);
    ReplaceKeepsCalls(s, s', a, d);
    CalmKeepsRegistry(s, s', a, d);
    UpdateKeepsCompleted(s, s', a, d);
    CalmKeepsShared(s, s', a, d);
  }

  lemma CalmKeepsShared(s: State, s': State, a: Nonce, d: Call)
    requires SendInv(s) && LogInv(s) && RevokeInv(s) && Update(s, s', a, d) && RiskCalm(s.calls[a], d)
    requires s'.serviceLock == s.serviceLock && s'.channels == s.channels && s'.documents == s.documents
    requires s'.log == s.log && s'.revokers == s.revokers && s'.returned == s.returned
    ensures SendInv(s') && LogInv(s') && RevokeInv(s')
  {
    CalmKeepsSend(s, s', a, d);
    UpdateKeepsLog(s, s', a, d);
    CalmKeepsRevoke(s, s', a, d);
  }
}
