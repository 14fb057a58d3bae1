/** The lease arithmetic of claim_specific, and what the dispatch of a call asks of it. */
module WorkItemLease {
  import opened Common
  import opened CallState
  import opened CallMachine

  /** Python's int(): toward zero. */
  function Truncate(x: real): int {
    if x >= 0.0 then x.Floor else -((-x).Floor)
  }

  /** _now_ms */
  function NowMs(now: real): int {
    Truncate(now * 1000.0)
  }

  function LeaseMs(ttl: real): int {
    if Truncate(ttl * 1000.0) > 1 then Truncate(ttl * 1000.0) else 1
  }

  /** lease_ttl_s of _dispatch_and_wait. */
  function Ttl(timeout: real, deadline: real, now: real): real {
    Min(timeout, deadline - now)
  }

  function LeaseEnd(timeout: real, deadline: real, now: real): int {
    NowMs(now) + LeaseMs(Ttl(timeout, deadline, now))
  }

  /**
   The rounded WorkItem lease lasts at least a millisecond and never reaches past
   the authority deadline, given that a millisecond of authority remains.
   */
  lemma LeaseWithinAuthority(timeout: real, deadline: real, now: real)
    requires 0.0 <= now && deadline - now >= MIN_REMAINING
    ensures LeaseMs(Ttl(timeout, deadline, now)) >= 1
    ensures LeaseEnd(timeout, deadline, now) as real <= deadline * 1000.0
    ensures 0.0 <= timeout ==> LeaseMs(Ttl(timeout, deadline, now)) as real <= 1.0 || LeaseMs(Ttl(timeout, deadline, now)) as real <= timeout * 1000.0
  {
    var ttl := Ttl(timeout, deadline, now);
    assert NowMs(now) as real <= now * 1000.0;
    assert ttl * 1000.0 <= deadline * 1000.0 - now * 1000.0;
    if ttl >= 0.0 {
      assert Truncate(ttl * 1000.0) as real <= ttl * 1000.0;
    } else {
      assert Truncate(ttl * 1000.0) <= 0;
    }
  }

  /** The check against a millisecond is needed: with less left, the lease outlives the authority. */
  lemma LeaseOutlivesShortAuthority(timeout: real, deadline: real, ms: nat)
    requires ms as real / 1000.0 < deadline < (ms + 1) as real / 1000.0 && 0.0 < timeout
    ensures LeaseEnd(timeout, deadline, ms as real / 1000.0) as real > deadline * 1000.0
  {
    var now := ms as real / 1000.0;
    assert NowMs(now) == ms;
  }

  /** Every claim that the call machine makes is for a lease inside the authority its call has seen. */
  lemma ClaimedLeaseIsCovered(s: State, a: Nonce, timeout: real)
    requires CanCall(s, CheckLease(a)) && 0.0 <= s.clock
    ensures var l := PcOf(s, a, MAIN).risk.lease; var end := LeaseEnd(timeout, Deadline(l), s.clock) as real;
      end <= l.expires * 1000.0 && end <= l.hard * 1000.0 && end <= l.arm * 1000.0 && end <= l.token * 1000.0
  {
    LeaseWithinAuthority(timeout, Deadline(PcOf(s, a, MAIN).risk.lease), s.clock);
  }

  /** Rounding takes less than a millisecond off the lease, and less than two off its end. */
  lemma LeaseIsLongEnough(timeout: real, deadline: real, now: real)
    requires 0.0 <= now
    ensures LeaseMs(Ttl(timeout, deadline, now)) as real > Ttl(timeout, deadline, now) * 1000.0 - 1.0
    ensures LeaseEnd(timeout, deadline, now) as real > now * 1000.0 + Ttl(timeout, deadline, now) * 1000.0 - 2.0
    ensures Ttl(timeout, deadline, now) <= timeout && Ttl(timeout, deadline, now) <= deadline - now
    ensures Ttl(timeout, deadline, now) == timeout || Ttl(timeout, deadline, now) == deadline - now
  {
    var ttl := Ttl(timeout, deadline, now) * 1000.0;
    assert NowMs(now) as real > now * 1000.0 - 1.0;
    if ttl >= 0.0 {
      assert Truncate(ttl) as real > ttl - 1.0;
    }
  }
}
