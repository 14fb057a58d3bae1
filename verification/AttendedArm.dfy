/**
 Single-use attended arms: finalize, consume, match and revoke as interleaved
 coroutines over receipts with atomic read, create-if-absent and compare-and-set.
 */
module AttendedArm {
  import opened Common

  type ArmId = nat

  /** The recent-auth properties of a grant; `fields` stands for its identity fields. */
  datatype Recent = Recent(fields: nat, issued: real, expires: real)

  /** The exact binding of a channel; `fields` stands for everything but the arm and its expiry. */
  datatype Binding = Binding(arm: ArmId, armExpires: real, fields: nat)

  datatype Status = RecentAuth | Active | Consumed | Revoked | Expired

  /** An AttendedArmReceipt node: bound to a channel when it is finalized. */
  datatype Receipt = Receipt(recent: Recent, binding: Option<Binding>, status: Status)

  type Authority = map<ArmId, Receipt>

  datatype Pc =
    | FinalizeCreate(arm: ArmId, recent: Recent, binding: Binding, now: real)
    | FinalizeRead(arm: ArmId, recent: Recent, binding: Binding)
    | FinalizeSwap(arm: ArmId, recent: Recent, binding: Binding)
    | Finalized(arm: ArmId, binding: Binding)
    | ConsumeRead(binding: Binding, now: real)
    | ConsumeExpire(binding: Binding)
    | ConsumeSwap(binding: Binding, now: real)
    | ConsumeDone(binding: Binding, now: real)
    | MatchRead(binding: Binding, now: real)
    | MatchExpire(binding: Binding, now: real)
    | Matched(binding: Binding, now: real, result: bool)
    | RevokeRead(binding: Binding)
    | RevokeSwap(binding: Binding, seen: Status)
    | RevokeVerify(binding: Binding)
    | RevokeDone(binding: Binding, answer: Status)
    | Raised

  predicate Over(pc: Pc) {
    pc.Finalized? || pc.ConsumeDone? || pc.Matched? || pc.RevokeDone? || pc.Raised?
  }

  /** The receipt the arm reference names carries exactly this binding. */
  predicate Exact(s: Authority, b: Binding) {
    b.arm in s && s[b.arm].binding == Some(b)
  }

  predicate ExactAt(s: Authority, b: Binding, status: Status) {
    Exact(s, b) && s[b.arm].status == status
  }

  function SetStatus(s: Authority, arm: ArmId, status: Status): Authority
    requires arm in s
  {
    s[arm := s[arm].(status := status)]
  }

  /** What one operation did, for the record of the run. */
  datatype Event = NoEvent | FinalizedNow(arm: ArmId) | ConsumedNow(arm: ArmId)

  datatype Outcome = Outcome(authority: Authority, pc: Pc, event: Event)

  /** One atomic operation of a call that is not over, and where it continues. */
  function Step(s: Authority, pc: Pc): Outcome
    requires !Over(pc)
  {
    match pc
    case FinalizeCreate(arm, recent, b, now) =>
      if !(recent.issued <= now < recent.expires) then Outcome(s, Raised, NoEvent)
      else if arm in s then Outcome(s, FinalizeRead(arm, recent, b), NoEvent)
      else Outcome(s[arm := Receipt(recent, None, RecentAuth)], FinalizeSwap(arm, recent, b), NoEvent)
    case FinalizeRead(arm, recent, b) =>
      if arm in s && s[arm].status == RecentAuth && s[arm].recent == recent
      then Outcome(s, FinalizeSwap(arm, recent, b), NoEvent) else Outcome(s, Raised, NoEvent)
    case FinalizeSwap(arm, recent, b) =>
      if arm in s && s[arm].status == RecentAuth && s[arm].recent == recent
      then Outcome(s[arm := Receipt(recent, Some(b), Active)], Finalized(arm, b), FinalizedNow(arm))
      else Outcome(s, Raised, NoEvent)
    case ConsumeRead(b, now) =>
      if !ExactAt(s, b, Active) then Outcome(s, Raised, NoEvent)
      else if b.armExpires <= now then Outcome(s, ConsumeExpire(b), NoEvent)
      else Outcome(s, ConsumeSwap(b, now), NoEvent)
    case ConsumeExpire(b) =>
      Outcome(if ExactAt(s, b, Active) then SetStatus(s, b.arm, Expired) else s, Raised, NoEvent)
    case ConsumeSwap(b, now) =>
      if ExactAt(s, b, Active) then Outcome(SetStatus(s, b.arm, Consumed), ConsumeDone(b, now), ConsumedNow(b.arm))
      else Outcome(s, Raised, NoEvent)
    case MatchRead(b, now) =>
      if !ExactAt(s, b, Consumed) then Outcome(s, Matched(b, now, false), NoEvent)
      else if b.armExpires > now then Outcome(s, Matched(b, now, true), NoEvent)
      else Outcome(s, MatchExpire(b, now), NoEvent)
    case MatchExpire(b, now) =>
      Outcome(if ExactAt(s, b, Consumed) then SetStatus(s, b.arm, Expired) else s, Matched(b, now, false), NoEvent)
    case RevokeRead(b) =>
      if !Exact(s, b) then Outcome(s, Raised, NoEvent)
      else
        var status := s[b.arm].status;
        if status == Revoked || status == Expired then Outcome(s, RevokeDone(b, status), NoEvent)
        else if status != Active && status != Consumed then Outcome(s, Raised, NoEvent)
        else Outcome(s, RevokeSwap(b, status), NoEvent)
    case RevokeSwap(b, seen) =>
      if ExactAt(s, b, seen) then Outcome(SetStatus(s, b.arm, Revoked), RevokeDone(b, Revoked), NoEvent)
      else Outcome(s, RevokeVerify(b), NoEvent)
    case RevokeVerify(b) =>
      if ExactAt(s, b, Revoked) then Outcome(s, RevokeDone(b, Revoked), NoEvent) else Outcome(s, Raised, NoEvent)
  }

  // ---------- runs ----------

  type Worker = nat

  /** `events` records every compare-and-set that finalized or consumed an arm. */
  datatype State = State(authority: Authority, workers: map<Worker, Pc>, events: seq<Event>)

  predicate Starting(pc: Pc) {
    pc.FinalizeCreate? || pc.ConsumeRead? || pc.MatchRead? || pc.RevokeRead?
  }

  function Stepped(s: State, w: Worker): State
    requires w in s.workers && !Over(s.workers[w])
  {
    var o := Step(s.authority, s.workers[w]);
    State(o.authority, s.workers[w := o.pc], if o.event.NoEvent? then s.events else s.events + [o.event])
  }

  ghost predicate Next(s: State, s': State) {
    || (exists w: Worker, pc :: w !in s.workers && Starting(pc) && s' == s.(workers := s.workers[w := pc]))
    || (exists w :: w in s.workers && !Over(s.workers[w]) && s' == Stepped(s, w))
    || (exists w :: w in s.workers && !Over(s.workers[w]) && s' == s.(workers := s.workers[w := Raised]))
  }

  ghost predicate StepAt(states: seq<State>, i: nat) {
    0 < i < |states| ==> Next(states[i - 1], states[i])
  }

  ghost predicate Run(states: seq<State>) {
    && 0 < |states| && states[0] == State(map[], map[], [])
    && (forall i :: StepAt(states, i))
  }
}

