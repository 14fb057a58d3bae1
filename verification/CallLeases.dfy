/** Where a lease row comes from, and how long it lasts. */
module CallLeases {
  import opened Common
  import opened CallState
  import opened CallMachine
  import opened CallReceipts

  /** The lease ends at the first of: the requested time, five minutes, fifteen minutes and the end of the arm, counted from its issue. */
  predicate EndsFirst(l: Lease, ttl: real) {
    && l.expires <= l.issued + ttl && l.expires <= l.issued + 300.0 && l.expires <= l.issued + 900.0 && l.expires <= l.arm
    && (l.expires == l.issued + ttl || l.expires == l.issued + 300.0 || l.expires == l.issued + 900.0 || l.expires == l.arm)
    && l.hard <= l.issued + 900.0 && l.hard <= l.arm && (l.hard == l.issued + 900.0 || l.hard == l.arm)
  }

  /** Everything but the status. */
  predicate SameTerms(l: Lease, m: Lease) {
    l.issued == m.issued && l.expires == m.expires && l.hard == m.hard && l.arm == m.arm && l.token == m.token
  }

  /** An earlier issue_lease set the terms. */
  ghost predicate Issued(states: seq<State>, i: nat, id: LeaseId, l: Lease) {
    exists j: nat, ttl: real ::
      j <= i && Took(states, j, World(IssueLease(id, ttl, l.arm, l.token))) && l.issued == states[j - 1].clock && EndsFirst(l, ttl)
  }

  lemma IssueTerms(now: real, ttl: real, arm: real, token: real)
    requires 0.0 < ttl && now < arm
    ensures var l := NewLease(now, ttl, arm, token);
      l.status == Active && l.issued == now && l.arm == arm && l.token == token && EndsFirst(l, ttl)
  {
  }

  /** A step issues the lease, or leaves its terms alone; and only an active lease changes its status. */
  lemma LeaseStep(s: State, step: Step, id: LeaseId)
    requires Can(s, step)
    ensures id in s.leases ==> id in After(s, step).leases && SameTerms(s.leases[id], After(s, step).leases[id])
    ensures id in s.leases && s.leases[id].status != Active ==> After(s, step).leases[id] == s.leases[id]
    ensures id in After(s, step).leases && id !in s.leases ==> step.World? && step.world.IssueLease? && step.world.lease == id
  {
    match step
    case World(w) => WorldLeases(s, w, id);
    case OfCall(c) => CallLeavesLeases(s, c);
    case Outside(o) => OutsideLeavesLeases(s, o);
    case Revoke(r) => RevokeLeases(s, r, id);
  }

  lemma WorldLeases(s: State, step: WorldStep, id: LeaseId)
    requires CanWorld(s, step)
    ensures id in s.leases ==> id in AfterWorld(s, step).leases && SameTerms(s.leases[id], AfterWorld(s, step).leases[id])
    ensures id in s.leases && s.leases[id].status != Active ==> AfterWorld(s, step).leases[id] == s.leases[id]
    ensures id in AfterWorld(s, step).leases && id !in s.leases ==> step.IssueLease? && step.lease == id
  {
  }

  lemma RevokeLeases(s: State, step: RevokeStep, id: LeaseId)
    requires CanRevoke(s, step)
    ensures AfterRevoke(s, step).leases.Keys == s.leases.Keys
    ensures id in s.leases ==> SameTerms(s.leases[id], AfterRevoke(s, step).leases[id])
    ensures id in s.leases && s.leases[id].status != Active ==> AfterRevoke(s, step).leases[id] == s.leases[id]
  {
    if step.RevokerSwaps? {
      assert AfterRevoke(s, step) == AfterRevokeSwap(s, step.r);
    }
  }

  lemma CallLeavesLeases(s: State, step: CallStep)
    requires CanCall(s, step)
    ensures AfterCall(s, step).leases == s.leases
  {
    match step
    case EnterSend(a) => assert AfterCall(s, step) == AfterEnterSend(s, a);
    case Deliver(a) => assert AfterCall(s, step) == AfterDeliver(s, a);
    case FailSend(a, u, op) => assert AfterCall(s, step) == AfterFailSend(s, a, u, op);
    case CommitOutcome(a, t, ok) => assert AfterCall(s, step) == AfterOutcome(s, a, t, ok);
    case CommitReap(a, t) => assert AfterCall(s, step) == AfterReap(s, a, t);
    case StoreTerminal(a, t) => assert AfterCall(s, step) == AfterStore(s, a, t);
    case RegisterCall(a, t) => assert AfterCall(s, step) == AfterRegister(s, a, t);
    case SubmitFence(a, t) => assert AfterCall(s, step) == AfterSubmit(s, a, t);
    case ReplyFence(a, t) => assert AfterCall(s, step) == AfterReply(s, a, t);
    case ClaimItem(a, granted) => assert AfterCall(s, step) == AfterClaim(s, a, granted);
    case _ =>
  }

  lemma OutsideLeavesLeases(s: State, step: OutsideStep)
    requires CanOutside(s, step)
    ensures AfterOutside(s, step).leases == s.leases
  {
  }

  /** Every lease of every run was issued for a requested time that it does not outlast. */
  lemma {:induction false} LeasesWereIssued(states: seq<State>, i: nat, id: LeaseId)
    requires Run(states) && i < |states| && id in states[i].leases
    ensures Issued(states, i, id, states[i].leases[id])
  {
    if i > 0 {
      assert StepAt(states, i);
      var step :| Can(states[i - 1], step) && states[i] == After(states[i - 1], step);
      assert Took(states, i, step);
      LeaseStep(states[i - 1], step, id);
      if id in states[i - 1].leases {
        LeasesWereIssued(states, i - 1, id);
        SameIssue(states, i, id, states[i - 1].leases[id], states[i].leases[id]);
      } else {
        IssueTerms(states[i - 1].clock, step.world.ttl, step.world.arm, step.world.token);
      }
    }
  }

  lemma SameIssue(states: seq<State>, i: nat, id: LeaseId, l: Lease, m: Lease)
    requires 0 < i && Issued(states, i - 1, id, l) && SameTerms(l, m)
    ensures Issued(states, i, id, m)
  {
    var j: nat, ttl: real :|
      j <= i - 1 && Took(states, j, World(IssueLease(id, ttl, l.arm, l.token))) && l.issued == states[j - 1].clock && EndsFirst(l, ttl);
    assert Took(states, j, World(IssueLease(id, ttl, m.arm, m.token))) && EndsFirst(m, ttl);
  }

  /** A lease that is revoked or expired stays exactly as it is. */
  lemma {:induction false} EndedLeaseStays(states: seq<State>, i: nat, j: nat, id: LeaseId)
    requires Run(states) && i <= j < |states| && id in states[i].leases
    ensures id in states[j].leases && SameTerms(states[i].leases[id], states[j].leases[id])
    ensures states[i].leases[id].status != Active ==> states[j].leases[id] == states[i].leases[id]
  {
    if i < j {
      EndedLeaseStays(states, i, j - 1, id);
      assert StepAt(states, j);
      var step :| Can(states[j - 1], step) && states[j] == After(states[j - 1], step);
      LeaseStep(states[j - 1], step, id);
    }
  }
}
