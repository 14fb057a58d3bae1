/** What acknowledgement, commits and refusals of a tool task mean in every run. */
module ToolTaskTheorems {
  import opened Common
  import opened ToolTask

  /** A committed result is proven: bound to the carrier it was delivered with, or a refusal before any effect. */
  predicate Proven(w: Write) {
    && (w.succeeded ==> w.result.Some? && w.result.value.outcome == Completed)
    && (w.result.Some? ==>
          && w.request.Some? && Matches(w.carrier, w.request.value) && Bound(w.carrier, w.request.value, w.result.value)
          && w.result.value.outcome != Indeterminate)
    && (w.result.None? ==> !w.succeeded)
  }

  predicate Wrote(s: State, w: Worker) {
    exists i :: 0 <= i < |s.writes| && s.writes[i].worker == w
  }

  /** What a suspended or finished run knows. */
  predicate TaskOk(t: Task, terminal: bool) {
    && (t.pc.SecondCheck? || t.pc.Execute? || t.pc.ThirdCheck? || t.pc.Commit? ==> Matches(t.carrier, t.pc.request))
    && (t.pc.ThirdCheck? || t.pc.Commit? ==> Bound(t.carrier, t.pc.request, t.pc.result) && t.pc.result.outcome != Indeterminate)
    && (t.pc.Done? && Acknowledged(t.pc.outcome) ==> terminal)
    && (t.started ==> t.pc.Execute? || t.pc.ThirdCheck? || t.pc.Commit? || t.pc.Done? || t.pc.Crashed?)
  }

  predicate WriteOk(s: State, w: Write) {
    && Proven(w)
    && w.worker in s.tasks && w.carrier == s.tasks[w.worker].carrier
    && s.tasks[w.worker].pc == Done(if w.result.Some? then OutcomeOf(w.result.value.outcome) else RanRefused)
    && (w.result.None? ==> !s.tasks[w.worker].started)
  }

  ghost predicate TasksInv(s: State) {
    forall w :: w in s.tasks ==> TaskOk(s.tasks[w], Terminal(s))
  }

  predicate Settles(o: Outcome) {
    o == RanCompleted || o == RanFailed || o == RanRefused
  }

  /** At most one terminal result is ever written, and only acknowledged runs write. */
  ghost predicate WritesInv(s: State) {
    && (forall i :: 0 <= i < |s.writes| ==> WriteOk(s, s.writes[i]))
    && |s.writes| <= 1
    && (Terminal(s) <==> s.ownerClosed || |s.writes| == 1)
    && (s.ownerClosed ==> |s.writes| == 0)
    && (forall w :: w in s.tasks && s.tasks[w].pc.Done? && Settles(s.tasks[w].pc.outcome) ==> Wrote(s, w))
  }

  ghost predicate Inv(s: State) {
    TasksInv(s) && WritesInv(s)
  }

  lemma StepKeepsTasks(s: State, step: Step)
    requires Inv(s) && Can(s, step)
    ensures TasksInv(After(s, step))
  {
    var s' := After(s, step);
    assert Terminal(s) ==> Terminal(s');
    forall w | w in s'.tasks
      ensures TaskOk(s'.tasks[w], Terminal(s'))
    {
      assert w in s.tasks ==> TaskOk(s.tasks[w], Terminal(s));
    }
  }

  /** A step that writes nothing. */
  lemma QuietKeepsWrites(s: State, s': State)
    requires WritesInv(s) && s'.writes == s.writes
    requires Terminal(s') == (s'.ownerClosed || |s.writes| == 1) && (s'.ownerClosed ==> |s.writes| == 0)
    requires forall w :: w in s.tasks ==> w in s'.tasks && s'.tasks[w].carrier == s.tasks[w].carrier
    requires forall w :: w in s.tasks && s.tasks[w].pc.Done? ==> s'.tasks[w] == s.tasks[w]
    requires forall w :: w in s'.tasks && s'.tasks[w].pc.Done? && Settles(s'.tasks[w].pc.outcome) ==>
      w in s.tasks && s.tasks[w] == s'.tasks[w]
    ensures WritesInv(s')
  {
    forall w | w in s'.tasks && s'.tasks[w].pc.Done? && Settles(s'.tasks[w].pc.outcome)
      ensures Wrote(s', w)
    {
      assert Wrote(s, w);
    }
  }

  lemma CommitKeepsWrites(s: State, w: Worker)
    requires Inv(s) && Can(s, Commits(w)) && Current(s, s.tasks[w].pc.claim)
    ensures WritesInv(After(s, Commits(w)))
  {
    var s' := After(s, Commits(w));
    assert s.writes == [];
    assert TaskOk(s.tasks[w], Terminal(s));
    assert s'.writes[0].worker == w;
    forall v | v in s'.tasks && s'.tasks[v].pc.Done? && Settles(s'.tasks[v].pc.outcome)
      ensures Wrote(s', v)
    {
      assert v != w ==> Wrote(s, v);
    }
  }

  lemma StepKeepsWrites(s: State, step: Step)
    requires Inv(s) && Can(s, step)
    ensures WritesInv(After(s, step))
  {
    if step.Commits? && Current(s, s.tasks[step.w].pc.claim) {
      CommitKeepsWrites(s, step.w);
    } else {
      QuietKeepsWrites(s, After(s, step));
    }
  }

  lemma NextKeeps(s: State, s': State)
    requires Inv(s) && Next(s, s')
    ensures Inv(s')
  {
    var step :| Can(s, step) && s' == After(s, step);
    StepKeepsTasks(s, step);
    StepKeepsWrites(s, step);
  }

  lemma RunInv(run: seq<State>, i: nat)
    requires Run(run) && i < |run|
    ensures Inv(run[i])
  {
    var inv := (s: State) => Inv(s);
    forall k | 0 < k < |run| && inv(run[k - 1])
      ensures inv(run[k])
    {
      assert StepAt(run, k);
      NextKeeps(run[k - 1], run[k]);
    }
    Induction(run, inv, i);
  }

  // ---------- results ----------

  /** A delivery is acknowledged only when the WorkItem is terminal. */
  lemma AcknowledgedIsTerminal(run: seq<State>, i: nat, w: Worker)
    requires Run(run) && i < |run| && w in run[i].tasks && run[i].tasks[w].pc.Done? && Acknowledged(run[i].tasks[w].pc.outcome)
    ensures Terminal(run[i])
  {
    RunInv(run, i);
    assert TaskOk(run[i].tasks[w], Terminal(run[i]));
  }

  /**
   Whatever races, at most one terminal result is written; a success is a
   `completed` result bound to the carrier and to a request that matches it.
   */
  lemma CommitsAreProven(run: seq<State>, i: nat)
    requires Run(run) && i < |run|
    ensures |run[i].writes| <= 1
    ensures forall k :: 0 <= k < |run[i].writes| ==> Proven(run[i].writes[k])
    ensures run[i].ownerClosed ==> run[i].writes == []
  {
    RunInv(run, i);
    assert forall k :: 0 <= k < |run[i].writes| ==> WriteOk(run[i], run[i].writes[k]);
  }

  /** A result is written only by the worker that holds the current claim at that moment. */
  lemma CommitNeedsClaim(s: State, s': State)
    requires Next(s, s') && s'.writes != s.writes
    ensures |s'.writes| == |s.writes| + 1
    ensures var w := s'.writes[|s.writes|].worker;
      w in s.tasks && ClaimOf(s.tasks[w].pc).Some? && Current(s, ClaimOf(s.tasks[w].pc).value)
  {
    var step :| Can(s, step) && s' == After(s, step);
    assert step.Commits?;
  }

  lemma NextWrites(s: State, s': State)
    requires Next(s, s')
    ensures s.writes <= s'.writes
  {
    var step :| Can(s, step) && s' == After(s, step);
  }

  /** Every result of a run was written at a moment when its worker held the current claim, so never by a worker that lost it. */
  lemma {:induction false} WrittenUnderClaim(run: seq<State>, i: nat, k: nat) returns (j: nat)
    requires Run(run) && i < |run| && k < |run[i].writes|
    ensures j < i && |run[j].writes| == k && run[j].writes + [run[i].writes[k]] <= run[i].writes
    ensures var w := run[i].writes[k].worker;
      w in run[j].tasks && ClaimOf(run[j].tasks[w].pc).Some? && Current(run[j], ClaimOf(run[j].tasks[w].pc).value)
    decreases i
  {
    if i > 0 {
      assert StepAt(run, i);
      NextWrites(run[i - 1], run[i]);
      if k < |run[i - 1].writes| {
        j := WrittenUnderClaim(run, i - 1, k);
      } else {
        CommitNeedsClaim(run[i - 1], run[i]);
        j := i - 1;
        assert run[i].writes == run[j].writes + [run[i].writes[k]];
      }
    }
  }

  /** A refusal that the worker commits without a result proves that execution never started in that run. */
  lemma RefusalHadNoEffect(run: seq<State>, i: nat, k: nat)
    requires Run(run) && i < |run| && k < |run[i].writes| && run[i].writes[k].result.None?
    ensures run[i].writes[k].worker in run[i].tasks && !run[i].tasks[run[i].writes[k].worker].started
  {
    RunInv(run, i);
    assert WriteOk(run[i], run[i].writes[k]);
  }

  /** An unacknowledged run has written nothing, and an acknowledged one that ran has written exactly its own outcome. */
  lemma OnlySettledRunsWrite(run: seq<State>, i: nat, w: Worker)
    requires Run(run) && i < |run| && w in run[i].tasks && run[i].tasks[w].pc.Done?
    ensures Wrote(run[i], w) <==> Settles(run[i].tasks[w].pc.outcome)
  {
    RunInv(run, i);
    if k :| 0 <= k < |run[i].writes| && run[i].writes[k].worker == w {
      assert WriteOk(run[i], run[i].writes[k]);
    }
  }
}
