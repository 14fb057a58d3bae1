/** What each call on an arm does when nothing interferes, and which arms can still be used. */
module AttendedArmCalls {
  import opened Common
  import opened AttendedArm
  import opened AttendedArmTheorems

  // ---------- a call on its own ----------

  function StepsLeft(pc: Pc): nat {
    match pc
    case FinalizeCreate(_, _, _, _) => 3
    case FinalizeRead(_, _, _) => 2
    case ConsumeRead(_, _) => 2
    case MatchRead(_, _) => 2
    case RevokeRead(_) => 3
    case RevokeSwap(_, _) => 2
    case _ => if Over(pc) then 0 else 1
  }

  /** The call runs to its end without interference. */
  function Undisturbed(s: Authority, pc: Pc): (Authority, Pc)
    decreases StepsLeft(pc)
  {
    if Over(pc) then (s, pc) else Undisturbed(Step(s, pc).authority, Step(s, pc).pc)
  }

  /**
   finalize_attended_arm: inside the window of the grant, and if the arm is new or
   still holds exactly this grant unused, the arm becomes active with this binding;
   otherwise the call raises. Outside the window it leaves no trace.
   */
  lemma FinalizeAlone(s: Authority, arm: ArmId, recent: Recent, b: Binding, now: real)
    ensures var (t, pc) := Undisturbed(s, FinalizeCreate(arm, recent, b, now));
      if recent.issued <= now && now < recent.expires && (arm !in s || (s[arm].status == RecentAuth && s[arm].recent == recent))
      then pc == Finalized(arm, b) && t == s[arm := Receipt(recent, Some(b), Active)]
      else pc == Raised && t == s
  {
    var o := Step(s, FinalizeCreate(arm, recent, b, now));
    SwapAlone(o.authority, arm, recent, b);
    if o.pc.FinalizeRead? {
      assert Undisturbed(s, o.pc) == Undisturbed(s, Step(s, o.pc).pc);
    } else if o.pc.FinalizeSwap? {
      assert o.authority[arm := Receipt(recent, Some(b), Active)] == s[arm := Receipt(recent, Some(b), Active)];
    }
  }

  lemma SwapAlone(s: Authority, arm: ArmId, recent: Recent, b: Binding)
    ensures Undisturbed(s, FinalizeSwap(arm, recent, b)) ==
      if arm in s && s[arm].status == RecentAuth && s[arm].recent == recent
      then (s[arm := Receipt(recent, Some(b), Active)], Finalized(arm, b)) else (s, Raised)
  {
    var o := Step(s, FinalizeSwap(arm, recent, b));
    assert Undisturbed(o.authority, o.pc) == (o.authority, o.pc);
  }

  /** consume_attended_arm: an active, exactly bound arm is consumed before its expiry, and marked expired after it. */
  lemma ConsumeAlone(s: Authority, b: Binding, now: real)
    ensures var (t, pc) := Undisturbed(s, ConsumeRead(b, now));
      if b.arm in s && s[b.arm].binding == Some(b) && s[b.arm].status == Active then
        if now < b.armExpires then pc == ConsumeDone(b, now) && t == s[b.arm := s[b.arm].(status := Consumed)]
        else pc == Raised && t == s[b.arm := s[b.arm].(status := Expired)]
      else pc == Raised && t == s
  {
    var o := Step(s, ConsumeRead(b, now));
    if !Over(o.pc) {
      var p := Step(o.authority, o.pc);
      assert Undisturbed(p.authority, p.pc) == (p.authority, p.pc);
    }
  }

  /** attended_arm_matches: a consumed, exactly bound arm matches before its expiry, and is marked expired after it. */
  lemma MatchAlone(s: Authority, b: Binding, now: real)
    ensures var (t, pc) := Undisturbed(s, MatchRead(b, now));
      if b.arm in s && s[b.arm].binding == Some(b) && s[b.arm].status == Consumed then
        pc == Matched(b, now, now < b.armExpires)
        && t == if now < b.armExpires then s else s[b.arm := s[b.arm].(status := Expired)]
      else pc == Matched(b, now, false) && t == s
  {
    var o := Step(s, MatchRead(b, now));
    if !Over(o.pc) {
      var p := Step(o.authority, o.pc);
      assert Undisturbed(p.authority, p.pc) == (p.authority, p.pc);
    }
  }

  /** revoke_attended_arm: an active or consumed arm of this binding is revoked, an ended one keeps its status, any other raises. */
  lemma RevokeAlone(s: Authority, b: Binding)
    ensures var (t, pc) := Undisturbed(s, RevokeRead(b));
      if b.arm in s && s[b.arm].binding == Some(b) && s[b.arm].status != RecentAuth then
        if s[b.arm].status == Active || s[b.arm].status == Consumed
        then pc == RevokeDone(b, Revoked) && t == s[b.arm := s[b.arm].(status := Revoked)]
        else pc == RevokeDone(b, s[b.arm].status) && t == s
      else pc == Raised && t == s
  {
    var o := Step(s, RevokeRead(b));
    if !Over(o.pc) {
      var p := Step(o.authority, o.pc);
      assert Undisturbed(p.authority, p.pc) == (p.authority, p.pc);
    }
  }

  // ---------- the window of the grant ----------

  predicate InFinalize(pc: Pc, arm: ArmId, recent: Recent, b: Binding) {
    pc == FinalizeRead(arm, recent, b) || pc == FinalizeSwap(arm, recent, b)
  }

  predicate Inside(pc: Pc, arm: ArmId, recent: Recent, b: Binding) {
    pc.FinalizeCreate? && pc.arm == arm && pc.recent == recent && pc.binding == b && recent.issued <= pc.now && pc.now < recent.expires
  }

  /** The call started with a grant that was inside its window. */
  ghost predicate StartedInside(states: seq<State>, j: nat, w: Worker, arm: ArmId, recent: Recent, b: Binding) {
    && j < |states| && w in states[j].workers
    && Inside(states[j].workers[w], arm, recent, b)
  }

  lemma FinalizeCameFrom(s: State, s': State, w: Worker, arm: ArmId, recent: Recent, b: Binding)
    requires Next(s, s') && w in s'.workers && InFinalize(s'.workers[w], arm, recent, b)
    ensures w in s.workers
    ensures InFinalize(s.workers[w], arm, recent, b)
      || Inside(s.workers[w], arm, recent, b)
  {
  }

  lemma {:induction false} InsideTheWindow(states: seq<State>, i: nat, w: Worker, arm: ArmId, recent: Recent, b: Binding) returns (j: nat)
    requires Run(states) && i < |states| && w in states[i].workers && InFinalize(states[i].workers[w], arm, recent, b)
    ensures j < i && StartedInside(states, j, w, arm, recent, b)
  {
    assert i > 0;
    RunNext(states, i);
    FinalizeCameFrom(states[i - 1], states[i], w, arm, recent, b);
    if InFinalize(states[i - 1].workers[w], arm, recent, b) {
      j := InsideTheWindow(states, i - 1, w, arm, recent, b);
    } else {
      j := i - 1;
    }
  }

  /** The step that finalized an arm. */
  lemma FinalizingStep(s: State, s': State, arm: ArmId)
    requires Next(s, s') && FinalizedNow(arm) in s'.events && FinalizedNow(arm) !in s.events
    ensures exists w: Worker, recent, b ::
      w in s.workers && s.workers[w] == FinalizeSwap(arm, recent, b)
      && arm in s.authority && s.authority[arm].status == RecentAuth && s.authority[arm].recent == recent
  {
    var w :| w in s.workers && !Over(s.workers[w]) && s' == Stepped(s, w);
    var pc := s.workers[w];
    assert Step(s.authority, pc).event == FinalizedNow(arm);
    assert pc == FinalizeSwap(arm, pc.recent, pc.binding);
  }

  /** Every finalization on record was made for a grant that was inside its window when the call began. */
  lemma {:induction false} FinalizedInsideTheWindow(states: seq<State>, i: nat, arm: ArmId)
    requires Run(states) && i < |states| && FinalizedNow(arm) in states[i].events
    ensures exists j: nat, w, recent, b :: j < i && StartedInside(states, j, w, arm, recent, b)
  {
    assert i > 0;
    RunNext(states, i);
    if FinalizedNow(arm) in states[i - 1].events {
      FinalizedInsideTheWindow(states, i - 1, arm);
    } else {
      FinalizingStep(states[i - 1], states[i], arm);
      var w: Worker, recent, b :| w in states[i - 1].workers && states[i - 1].workers[w] == FinalizeSwap(arm, recent, b);
      var j := InsideTheWindow(states, i - 1, w, arm, recent, b);
    }
  }

  // ---------- which arms can still be used ----------

  ghost predicate Continues(states: seq<State>, s: State, t: State) {
    0 < |states| && states[0] == s && states[|states| - 1] == t && forall i :: StepAt(states, i)
  }

  ghost predicate Leads(s: State, t: State) {
    exists states :: Continues(states, s, t)
  }

  lemma Here(s: State)
    ensures Leads(s, s)
  {
    assert Continues([s], s, s);
  }

  lemma OneStep(s: State, t: State, u: State)
    requires Leads(s, t) && Next(t, u)
    ensures Leads(s, u)
  {
    var states :| Continues(states, s, t);
    var longer := states + [u];
    forall i: nat
      ensures StepAt(longer, i)
    {
      assert StepAt(states, i);
    }
    assert Continues(longer, s, u);
  }

  lemma Begin(from: State, s: State, pc: Pc) returns (t: State, w: Worker)
    requires Leads(from, s) && Starting(pc)
    ensures w !in s.workers && t == s.(workers := s.workers[w := pc]) && Leads(from, t)
  {
    w := Unused(s.workers.Keys);
    t := s.(workers := s.workers[w := pc]);
    OneStep(from, s, t);
  }

  /** A call that nothing disturbs runs to its end. */
  lemma {:induction false} RunsAlone(from: State, s: State, w: Worker) returns (t: State)
    requires Leads(from, s) && w in s.workers
    ensures Leads(from, t) && t.workers.Keys == s.workers.Keys
    ensures (t.authority, t.workers[w]) == Undisturbed(s.authority, s.workers[w])
    decreases StepsLeft(s.workers[w])
  {
    if Over(s.workers[w]) {
      t := s;
    } else {
      OneStep(from, s, Stepped(s, w));
      t := RunsAlone(from, Stepped(s, w), w);
    }
  }

  /** A consumption that has not started yet can come to succeed. */
  ghost predicate CanConsume(s: State, b: Binding, now: real) {
    exists t, w :: Leads(s, t) && w !in s.workers && w in t.workers && t.workers[w] == ConsumeDone(b, now)
  }

  /** Every receipt was created from a grant with a window. */
  ghost predicate Windows(s: State) {
    && (forall a :: a in s.authority ==> s.authority[a].recent.issued < s.authority[a].recent.expires)
    && (forall w :: w in s.workers && (s.workers[w].FinalizeRead? || s.workers[w].FinalizeSwap?) ==>
          s.workers[w].recent.issued < s.workers[w].recent.expires)
  }

  lemma WindowsKept(s: State, s': State)
    requires Windows(s) && Next(s, s')
    ensures Windows(s')
  {
  }

  lemma RunWindows(states: seq<State>, i: nat)
    requires Run(states) && i < |states|
    ensures Windows(states[i])
  {
    var inv := (s: State) => Windows(s);
    forall k | 0 < k < |states| && inv(states[k - 1])
      ensures inv(states[k])
    {
      assert StepAt(states, k);
      WindowsKept(states[k - 1], states[k]);
    }
    Induction(states, inv, i);
  }

  /** The arm is active for this binding, or can still be finalized for it. */
  predicate Usable(s: Authority, b: Binding) {
    ExactAt(s, b, Active) || b.arm !in s || s[b.arm].status == RecentAuth
  }

  lemma UsableIsConsumed(s: State, b: Binding, now: real)
    requires Windows(s) && Usable(s.authority, b) && now < b.armExpires
    ensures CanConsume(s, b, now)
  {
    Here(s);
    var t, w := s, 0;
    if !ExactAt(s.authority, b, Active) {
      var recent := if b.arm in s.authority then s.authority[b.arm].recent else Recent(0, 0.0, 1.0);
      t, w := Begin(s, s, FinalizeCreate(b.arm, recent, b, recent.issued));
      FinalizeAlone(t.authority, b.arm, recent, b, recent.issued);
      t := RunsAlone(s, t, w);
    }
    var u, v := Begin(s, t, ConsumeRead(b, now));
    ConsumeAlone(u.authority, b, now);
    u := RunsAlone(s, u, v);
    assert v !in s.workers && u.workers[v] == ConsumeDone(b, now);
  }

  /** A consumption that succeeds found the arm active for its binding. */
  lemma ConsumeCameFrom(s: State, s': State, w: Worker, b: Binding, now: real)
    requires Next(s, s') && w in s'.workers && s'.workers[w] == ConsumeDone(b, now)
    ensures w in s.workers && (s.workers[w] == ConsumeDone(b, now) || ExactAt(s.authority, b, Active))
  {
  }

  ghost predicate ConsumedAt(states: seq<State>, j: nat, w: Worker, b: Binding, now: real) {
    j < |states| && w in states[j].workers && states[j].workers[w] == ConsumeDone(b, now)
  }

  lemma ConsumedBefore(states: seq<State>, j: nat, w: Worker, b: Binding, now: real)
    requires Run(states) && 0 < j && ConsumedAt(states, j, w, b, now)
    ensures w in states[j - 1].workers && (ConsumedAt(states, j - 1, w, b, now) || ExactAt(states[j - 1].authority, b, Active))
  {
    RunNext(states, j);
    ConsumeCameFrom(states[j - 1], states[j], w, b, now);
  }

  lemma {:induction false} ConsumedWhileActive(states: seq<State>, i: nat, j: nat, w: Worker, b: Binding, now: real) returns (k: nat)
    requires Run(states) && i < j < |states| && w !in states[i].workers && ConsumedAt(states, j, w, b, now)
    ensures i <= k < j && ExactAt(states[k].authority, b, Active)
    decreases j
  {
    ConsumedBefore(states, j, w, b, now);
    if ConsumedAt(states, j - 1, w, b, now) {
      k := ConsumedWhileActive(states, i, j - 1, w, b, now);
    } else {
      k := j - 1;
    }
  }

  /** A run to `s` and on to `t`. */
  lemma Joined(states: seq<State>, s: State, t: State) returns (all: seq<State>)
    requires Run(states) && states[|states| - 1] == s && Leads(s, t)
    ensures Run(all) && |states| <= |all| && all[|states| - 1] == s && all[|all| - 1] == t
  {
    var second :| Continues(second, s, t);
    all := states + second[1..];
    forall k: nat
      ensures StepAt(all, k)
    {
      assert StepAt(states, k);
      if k >= |states| {
        assert StepAt(second, k - |states| + 1);
      }
    }
  }

  /**
   In every reachable state: a consumption for this binding at this time can still
   succeed if and only if the time is before the expiry, and the arm is active for
   the binding, or has not been finalized yet.
   */
  lemma CanConsumeExactly(states: seq<State>, b: Binding, now: real)
    requires Run(states)
    ensures var s := states[|states| - 1];
      CanConsume(s, b, now) <==> now < b.armExpires && Usable(s.authority, b)
  {
    var i := |states| - 1;
    var s := states[i];
    RunWindows(states, i);
    if now < b.armExpires && Usable(s.authority, b) {
      UsableIsConsumed(s, b, now);
    }
    if CanConsume(s, b, now) {
      var t, w :| Leads(s, t) && w !in s.workers && w in t.workers && t.workers[w] == ConsumeDone(b, now);
      var all := Joined(states, s, t);
      ConsumedMeans(all, |all| - 1, w);
      var k := ConsumedWhileActive(all, i, |all| - 1, w, b, now);
      StatusForward(all, i, k);
      RunInv(all, i);
    }
  }
}
