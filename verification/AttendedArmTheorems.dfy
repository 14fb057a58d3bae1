/** An attended arm is used at most once, whoever races for it. */
module AttendedArmTheorems {
  import opened Common
  import opened AttendedArm

  function Rank(status: Status): nat {
    match status
    case RecentAuth => 0
    case Active => 1
    case Consumed => 2
    case _ => 3
  }

  predicate Ended(status: Status) {
    status == Revoked || status == Expired
  }

  /** Receipts are never deleted, their status only moves forward, and a binding is final. */
  ghost predicate Forward(s: Authority, t: Authority) {
    forall a :: a in s ==>
      && a in t
      && Rank(s[a].status) <= Rank(t[a].status)
      && (Ended(s[a].status) ==> t[a].status == s[a].status)
      && (s[a].binding.Some? ==> t[a].binding == s[a].binding)
  }

  ghost predicate Bound(s: Authority) {
    forall a :: a in s ==> (s[a].binding.None? <==> s[a].status == RecentAuth)
  }

  /** What the record of events implies for the receipts. */
  predicate EventOk(s: Authority, e: Event) {
    match e
    case NoEvent => false
    case FinalizedNow(a) => a in s && Rank(s[a].status) >= 1
    case ConsumedNow(a) => a in s && Rank(s[a].status) >= 2
  }

  ghost predicate EventsInv(s: State) {
    && (forall i :: 0 <= i < |s.events| ==> EventOk(s.authority, s.events[i]))
    && (forall i, j :: 0 <= i < j < |s.events| ==> s.events[i] != s.events[j])
    && (forall a :: a in s.authority && Rank(s.authority[a].status) >= 1 ==> FinalizedNow(a) in s.events)
    && (forall j :: 0 <= j < |s.events| && s.events[j].ConsumedNow? ==> FinalizedNow(s.events[j].arm) in s.events[..j])
  }

  predicate EndedAt(s: Authority, b: Binding, status: Status) {
    ExactAt(s, b, status) && Ended(status)
  }

  /** What a finished or suspended call knows about its receipt. */
  predicate PcOk(s: Authority, pc: Pc) {
    match pc
    case Finalized(a, b) => a in s && s[a].binding == Some(b)
    case ConsumeSwap(b, now) => Exact(s, b) && now < b.armExpires
    case ConsumeDone(b, now) => Exact(s, b) && Rank(s[b.arm].status) >= 2 && now < b.armExpires
    case Matched(b, now, result) => result ==> Exact(s, b) && Rank(s[b.arm].status) >= 2 && now < b.armExpires
    case RevokeSwap(b, seen) => Exact(s, b) && (seen == Active || seen == Consumed)
    case RevokeDone(b, answer) => EndedAt(s, b, answer)
    case _ => true
  }

  ghost predicate Inv(s: State) {
    && Bound(s.authority) && EventsInv(s)
    && (forall w :: w in s.workers ==> PcOk(s.authority, s.workers[w]))
  }

  lemma StepForward(s: Authority, pc: Pc)
    requires Bound(s) && PcOk(s, pc) && !Over(pc)
    ensures Forward(s, Step(s, pc).authority) && Bound(Step(s, pc).authority)
  {
  }

  lemma StepKnows(s: Authority, pc: Pc)
    requires Bound(s) && PcOk(s, pc) && !Over(pc)
    ensures PcOk(Step(s, pc).authority, Step(s, pc).pc)
  {
  }

  /** An event needs the status that every earlier event of its kind has left behind. */
  lemma StepEvent(s: Authority, pc: Pc, e: Event)
    requires Bound(s) && PcOk(s, pc) && !Over(pc) && EventOk(s, e)
    ensures EventOk(Step(s, pc).authority, e) && Step(s, pc).event != e
    ensures !Step(s, pc).event.NoEvent? ==> EventOk(Step(s, pc).authority, Step(s, pc).event)
  {
  }

  lemma PcGrows(s: Authority, t: Authority, pc: Pc)
    requires PcOk(s, pc) && Forward(s, t)
    ensures PcOk(t, pc)
  {
  }

  lemma NewEvent(s: Authority, pc: Pc)
    requires Bound(s) && PcOk(s, pc) && !Over(pc) && !Step(s, pc).event.NoEvent?
    ensures EventOk(Step(s, pc).authority, Step(s, pc).event)
  {
  }

  lemma SteppedKeeps(s: State, w: Worker)
    requires Inv(s) && w in s.workers && !Over(s.workers[w])
    ensures Inv(Stepped(s, w)) && Forward(s.authority, Stepped(s, w).authority)
  {
    var s', o := Stepped(s, w), Step(s.authority, s.workers[w]);
    StepForward(s.authority, s.workers[w]);
    StepKnows(s.authority, s.workers[w]);
    forall v | v in s.workers
      ensures PcOk(o.authority, s.workers[v])
    {
      PcGrows(s.authority, o.authority, s.workers[v]);
    }
    forall i | 0 <= i < |s.events|
      ensures EventOk(o.authority, s.events[i]) && o.event != s.events[i]
    {
      StepEvent(s.authority, s.workers[w], s.events[i]);
    }
    if !o.event.NoEvent? {
      NewEvent(s.authority, s.workers[w]);
    }
    FinalizedKept(s, w);
  }

  lemma StepFinalizes(s: Authority, pc: Pc, a: ArmId)
    requires Bound(s) && PcOk(s, pc) && !Over(pc)
    requires a in Step(s, pc).authority && Rank(Step(s, pc).authority[a].status) >= 1
    ensures (a in s && Rank(s[a].status) >= 1) || Step(s, pc).event == FinalizedNow(a)
  {
  }

  lemma StepConsumes(s: Authority, pc: Pc)
    requires !Over(pc) && Step(s, pc).event.ConsumedNow?
    ensures Step(s, pc).event.arm in s && Rank(s[Step(s, pc).event.arm].status) >= 1
  {
  }

  /** The finalization of every live arm is on record, before its consumption. */
  lemma FinalizedKept(s: State, w: Worker)
    requires Inv(s) && w in s.workers && !Over(s.workers[w])
    ensures var s' := Stepped(s, w);
      && (forall a :: a in s'.authority && Rank(s'.authority[a].status) >= 1 ==> FinalizedNow(a) in s'.events)
      && (forall j :: 0 <= j < |s'.events| && s'.events[j].ConsumedNow? ==> FinalizedNow(s'.events[j].arm) in s'.events[..j])
  {
    var s', o := Stepped(s, w), Step(s.authority, s.workers[w]);
    forall a | a in s'.authority && Rank(s'.authority[a].status) >= 1
      ensures FinalizedNow(a) in s'.events
    {
      StepFinalizes(s.authority, s.workers[w], a);
    }
    forall j | 0 <= j < |s'.events| && s'.events[j].ConsumedNow?
      ensures FinalizedNow(s'.events[j].arm) in s'.events[..j]
    {
      if j < |s.events| {
        assert s'.events[..j] == s.events[..j];
      } else {
        StepConsumes(s.authority, s.workers[w]);
        assert s'.events[..j] == s.events;
      }
    }
  }

  lemma NextKeeps(s: State, s': State)
    requires Inv(s) && Next(s, s')
    ensures Inv(s') && Forward(s.authority, s'.authority) && s.events <= s'.events
  {
    if w :| w in s.workers && !Over(s.workers[w]) && s' == Stepped(s, w) {
      SteppedKeeps(s, w);
    } else {
      WorkersKeep(s, s');
    }
  }

  /** A call starts or dies. */
  lemma WorkersKeep(s: State, s': State)
    requires Inv(s) && s' == s.(workers := s'.workers)
    requires forall w :: w in s'.workers ==> s'.workers[w] == Raised || Starting(s'.workers[w]) || (w in s.workers && s'.workers[w] == s.workers[w])
    ensures Inv(s') && Forward(s.authority, s'.authority)
  {
  }

  lemma RunInv(states: seq<State>, i: nat)
    requires Run(states) && i < |states|
    ensures Inv(states[i])
  {
    var inv := (s: State) => Inv(s);
    forall k | 0 < k < |states| && inv(states[k - 1])
      ensures inv(states[k])
    {
      assert StepAt(states, k);
      NextKeeps(states[k - 1], states[k]);
    }
    Induction(states, inv, i);
  }

  lemma RunNext(states: seq<State>, i: nat)
    requires Run(states) && 0 < i < |states|
    ensures Inv(states[i - 1]) && Next(states[i - 1], states[i])
    ensures Forward(states[i - 1].authority, states[i].authority) && states[i - 1].events <= states[i].events
  {
    RunInv(states, i - 1);
    assert StepAt(states, i);
    NextKeeps(states[i - 1], states[i]);
  }

  /** Status only moves forward, `revoked` and `expired` are final, and bindings never change. */
  lemma {:induction false} StatusForward(states: seq<State>, i: nat, j: nat)
    requires Run(states) && i <= j < |states|
    ensures Forward(states[i].authority, states[j].authority) && states[i].events <= states[j].events
  {
    if i < j {
      StatusForward(states, i, j - 1);
      RunNext(states, j);
    }
  }

  /** An arm is finalized at most once and consumed at most once, in every run. */
  lemma SingleUse(states: seq<State>, n: nat, i: nat, j: nat)
    requires Run(states) && n < |states| && i < |states[n].events| && j < |states[n].events|
    requires states[n].events[i] == states[n].events[j]
    ensures i == j
  {
    RunInv(states, n);
  }

  /** Every consumption comes after the finalization of its arm. */
  lemma FinalizedFirst(states: seq<State>, n: nat, j: nat)
    requires Run(states) && n < |states| && j < |states[n].events| && states[n].events[j].ConsumedNow?
    ensures exists i :: 0 <= i < j && states[n].events[i] == FinalizedNow(states[n].events[j].arm)
  {
    RunInv(states, n);
    assert FinalizedNow(states[n].events[j].arm) in states[n].events[..j];
  }

  /** A consumer that returned normally holds an exactly bound receipt, taken before its expiry. */
  lemma ConsumedMeans(states: seq<State>, n: nat, w: Worker)
    requires Run(states) && n < |states| && w in states[n].workers && states[n].workers[w].ConsumeDone?
    ensures var b, s := states[n].workers[w].binding, states[n].authority;
      Exact(s, b) && (s[b.arm].status == Consumed || Ended(s[b.arm].status))
    ensures states[n].workers[w].now < states[n].workers[w].binding.armExpires
  {
    RunInv(states, n);
  }

  // ---------- after the end ----------

  predicate Succeeded(pc: Pc, arm: ArmId) {
    (pc.ConsumeDone? && pc.binding.arm == arm) || (pc.Matched? && pc.result && pc.binding.arm == arm)
  }

  lemma SuccessNeedsLife(s: State, s': State, w: Worker, arm: ArmId)
    requires Next(s, s') && arm in s.authority && Ended(s.authority[arm].status)
    requires w in s'.workers && Succeeded(s'.workers[w], arm)
    ensures w in s.workers && s.workers[w] == s'.workers[w]
  {
  }

  lemma SuccessBefore(states: seq<State>, j: nat, w: Worker, arm: ArmId)
    requires Run(states) && 0 < j < |states| && arm in states[j - 1].authority && Ended(states[j - 1].authority[arm].status)
    requires w in states[j].workers && Succeeded(states[j].workers[w], arm)
    ensures w in states[j - 1].workers && states[j - 1].workers[w] == states[j].workers[w]
  {
    RunNext(states, j);
    SuccessNeedsLife(states[j - 1], states[j], w, arm);
  }

  /** Once an arm is revoked or expired, no consumption and no match of it succeeds any more. */
  lemma {:induction false} NothingAfterTheEnd(states: seq<State>, i: nat, j: nat, w: Worker, arm: ArmId)
    requires Run(states) && i <= j < |states| && arm in states[i].authority && Ended(states[i].authority[arm].status)
    requires w in states[j].workers && Succeeded(states[j].workers[w], arm)
    ensures w in states[i].workers && states[i].workers[w] == states[j].workers[w]
  {
    if i < j {
      StatusForward(states, i, j - 1);
      SuccessBefore(states, j, w, arm);
      NothingAfterTheEnd(states, i, j - 1, w, arm);
    }
  }

  /** A revocation that returns normally has ended the arm, with the status it reports, for good. */
  lemma RevocationEnds(states: seq<State>, i: nat, j: nat, w: Worker)
    requires Run(states) && i <= j < |states| && w in states[i].workers && states[i].workers[w].RevokeDone?
    ensures var b := states[i].workers[w].binding;
      ExactAt(states[j].authority, b, states[i].workers[w].answer) && Ended(states[i].workers[w].answer)
  {
    RunInv(states, i);
    StatusForward(states, i, j);
  }

  lemma MatchStep(s: State, s': State, w: Worker, b: Binding, now: real)
    requires Next(s, s') && w in s'.workers && s'.workers[w] == Matched(b, now, true)
    ensures w in s.workers
    ensures s.workers[w] == Matched(b, now, true) || (ExactAt(s.authority, b, Consumed) && now < b.armExpires)
  {
  }

  lemma MatchBefore(states: seq<State>, j: nat, w: Worker, b: Binding, now: real)
    requires Run(states) && j < |states| && w in states[j].workers && states[j].workers[w] == Matched(b, now, true)
    ensures 0 < j && w in states[j - 1].workers
    ensures states[j - 1].workers[w] == Matched(b, now, true) || (ExactAt(states[j - 1].authority, b, Consumed) && now < b.armExpires)
  {
    RunNext(states, j);
    MatchStep(states[j - 1], states[j], w, b, now);
  }

  /** attended_arm_matches is true only if, at one moment of the call, the arm was consumed, exactly bound and unexpired. */
  lemma {:induction false} MatchWitness(states: seq<State>, j: nat, w: Worker, b: Binding, now: real) returns (i: nat)
    requires Run(states) && j < |states| && w in states[j].workers && states[j].workers[w] == Matched(b, now, true)
    ensures i < j && ExactAt(states[i].authority, b, Consumed) && now < b.armExpires
  {
    MatchBefore(states, j, w, b, now);
    if states[j - 1].workers[w] == Matched(b, now, true) {
      i := MatchWitness(states, j - 1, w, b, now);
    } else {
      i := j - 1;
    }
  }
}
