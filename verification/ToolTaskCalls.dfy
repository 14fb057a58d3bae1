/** What a started run was admitted by, and what a run does when nothing interferes. */
module ToolTaskCalls {
  import opened Common
  import opened ToolTask
  import opened ToolTaskTheorems

  // ---------- admission ----------

  /** The WorkItem as the run found it: there, of its carrier, open, and the delivery in time. */
  predicate Admits(item: Option<Item>, c: Carrier, now: real) {
    && item.Some? && item.value.payload == c.payload && item.value.tenant == c.tenant && !item.value.terminal
    && (c.deadline.None? || now <= c.deadline.value)
  }

  /** At state `j` the run of worker `w` is about to look at the WorkItem, and the WorkItem admits it. */
  ghost predicate AdmittedAt(run: seq<State>, j: nat, w: Worker) {
    && j < |run| && w in run[j].tasks && run[j].tasks[w].pc.Precheck?
    && Admits(run[j].item, run[j].tasks[w].carrier, run[j].tasks[w].pc.now)
  }

  /** The run got past the look at the WorkItem. */
  predicate PastLook(t: Task) {
    || t.started
    || t.pc.ToClaim? || t.pc.NotClaimed? || ClaimOf(t.pc).Some?
    || (t.pc.Done? && (Settles(t.pc.outcome) || t.pc.outcome == Fenced))
  }

  lemma PastLookStep(s: State, s': State, w: Worker)
    requires Next(s, s') && w in s'.tasks && PastLook(s'.tasks[w])
    ensures w in s.tasks && s'.tasks[w].carrier == s.tasks[w].carrier
    ensures PastLook(s.tasks[w]) || (s.tasks[w].pc.Precheck? && Admits(s.item, s.tasks[w].carrier, s.tasks[w].pc.now))
  {
    var step :| Can(s, step) && s' == After(s, step);
  }

  /**
   A run that claimed, executed or settled anything was admitted before: it looked at
   a WorkItem of its own payload and tenant that was open, and was delivered no later
   than its deadline.
   */
  lemma {:induction false} StartedWasAdmitted(run: seq<State>, i: nat, w: Worker) returns (j: nat)
    requires Run(run) && i < |run| && w in run[i].tasks && PastLook(run[i].tasks[w])
    ensures j < i && AdmittedAt(run, j, w) && run[j].tasks[w].carrier == run[i].tasks[w].carrier
  {
    assert i > 0;
    assert StepAt(run, i);
    PastLookStep(run[i - 1], run[i], w);
    if PastLook(run[i - 1].tasks[w]) {
      j := StartedWasAdmitted(run, i - 1, w);
    } else {
      j := i - 1;
    }
  }

  /** Whatever was written was written by an admitted run, with the carrier it was delivered with. */
  lemma WrittenWasAdmitted(run: seq<State>, i: nat, k: nat) returns (j: nat)
    requires Run(run) && i < |run| && k < |run[i].writes|
    ensures j < i && AdmittedAt(run, j, run[i].writes[k].worker) && run[j].tasks[run[i].writes[k].worker].carrier == run[i].writes[k].carrier
  {
    RunInv(run, i);
    assert WriteOk(run[i], run[i].writes[k]);
    j := StartedWasAdmitted(run, i, run[i].writes[k].worker);
  }

  // ---------- a run on its own ----------

  /** The request is the carrier's own, and names exactly the one tool it allows. */
  predicate OwnRequest(c: Carrier, r: Resolution) {
    && r.Resolved? && r.request.ref == c.payload && r.request.tenant == c.tenant && r.request.session == c.session
    && |c.tools| == 1 && c.tools[0] == r.request.operation
  }

  /** The result is about this job, this request and its principal, and says what happened. */
  predicate OwnResult(c: Carrier, request: Request, a: Answer) {
    && a.Returned? && a.result.job == c.job && a.result.requestRef == c.payload && a.result.principal == request.principal
    && (a.result.outcome == Completed || a.result.outcome == Failed || a.result.outcome == Refused)
  }

  /** One worker with a task at `pc` that holds the claim of an open WorkItem. */
  predicate Holding(s: State, w: Worker, c: Carrier, pc: Pc) {
    && w in s.tasks && s.tasks[w].carrier == c && s.tasks[w].pc == pc && ClaimOf(pc).Some? && Current(s, ClaimOf(pc).value)
  }

  /** What a look at the WorkItem makes of a delivery. */
  lemma LooksExactly(s: State, w: Worker)
    requires Can(s, Look(w))
    ensures var t := s.tasks[w]; var pc := After(s, Look(w)).tasks[w].pc;
      && (pc == ToClaim <==> Admits(s.item, t.carrier, t.pc.now))
      && (pc == Done(Rejected) <==> s.item.None? || s.item.value.payload != t.carrier.payload || s.item.value.tenant != t.carrier.tenant)
      && (pc == Done(Skipped) <==> pc != Done(Rejected) && Terminal(s))
      && (pc == Done(RanIndeterminate) <==>
            pc != Done(Rejected) && !Terminal(s) && t.carrier.deadline.Some? && t.pc.now > t.carrier.deadline.value)
    ensures After(s, Look(w)).item == s.item && After(s, Look(w)).writes == s.writes
  {
  }

  /** Under the claim the request is checked before execution starts; a foreign request is refused unstarted. */
  lemma ResolvesExactly(s: State, w: Worker, c: Carrier, claim: Claim, r: Resolution) returns (t: State)
    requires Holding(s, w, c, FirstCheck(claim))
    ensures Can(s, Check(w)) && Can(After(s, Check(w)), Resolves(w, r))
    ensures t == After(After(s, Check(w)), Resolves(w, r)) && t.item == s.item && t.writes == s.writes
    ensures OwnRequest(c, r) ==> Holding(t, w, c, SecondCheck(claim, r.request))
    ensures !OwnRequest(c, r) && !r.RaisedError? ==> Holding(t, w, c, CommitRefusal(claim))
    ensures r.RaisedError? ==> t.tasks[w].pc == Crashed
    ensures t.tasks[w].started == s.tasks[w].started
  {
    t := After(After(s, Check(w)), Resolves(w, r));
    assert OwnRequest(c, r) ==> c.tools == [r.request.operation];
  }

  /** Execution is recorded as started, and only the job's own definite result goes on to be committed. */
  lemma ExecutesExactly(s: State, w: Worker, c: Carrier, claim: Claim, request: Request, a: Answer) returns (t: State)
    requires Holding(s, w, c, SecondCheck(claim, request))
    ensures Can(s, Check(w)) && Can(After(s, Check(w)), Executes(w, a))
    ensures t == After(After(s, Check(w)), Executes(w, a)) && t.item == s.item && t.writes == s.writes && t.tasks[w].started
    ensures OwnResult(c, request, a) ==> Holding(t, w, c, ThirdCheck(claim, request, a.result))
    ensures !OwnResult(c, request, a) ==> t.tasks[w].pc == Done(if a.LeaseLost? then Fenced else RanIndeterminate)
  {
    t := After(After(s, Check(w)), Executes(w, a));
  }

  /** The result is committed as it was reported, the WorkItem closed, and the run acknowledged with the same outcome. */
  lemma CommitsExactly(s: State, w: Worker, c: Carrier, claim: Claim, request: Request, result: ToolTask.Result) returns (t: State)
    requires Holding(s, w, c, ThirdCheck(claim, request, result))
    ensures Can(s, Check(w)) && Can(After(s, Check(w)), Commits(w))
    ensures t == After(After(s, Check(w)), Commits(w)) && Terminal(t)
    ensures t.writes == s.writes + [Write(w, c, Some(request), Some(result), result.outcome == Completed)]
    ensures t.tasks[w].pc.Done?
      && (t.tasks[w].pc.outcome == RanCompleted <==> result.outcome == Completed)
      && (t.tasks[w].pc.outcome == RanFailed <==> result.outcome == Failed)
      && (t.tasks[w].pc.outcome == RanRefused <==> result.outcome == Refused)
  {
    t := After(After(s, Check(w)), Commits(w));
  }

  lemma RefusesExactly(s: State, w: Worker, c: Carrier, claim: Claim)
    requires Holding(s, w, c, CommitRefusal(claim))
    ensures Can(s, Commits(w))
    ensures var t := After(s, Commits(w));
      Terminal(t) && t.writes == s.writes + [Write(w, c, None, None, false)] && t.tasks[w].pc == Done(RanRefused)
  {
  }

  /** Whoever lost the claim stops before anything else, and changes nothing. */
  lemma FencedExactly(s: State, w: Worker)
    requires w in s.tasks && ClaimOf(s.tasks[w].pc).Some? && (Can(s, Check(w)) || Can(s, Commits(w)))
    ensures var t := if Can(s, Check(w)) then After(s, Check(w)) else After(s, Commits(w));
      && (t.tasks[w].pc == Done(Fenced) <==> !Current(s, ClaimOf(s.tasks[w].pc).value))
      && (t.tasks[w].pc == Done(Fenced) ==> t.item == s.item && t.writes == s.writes && t.tasks[w].started == s.tasks[w].started)
  {
  }

  /** Without a claim the run is skipped if the WorkItem has been closed meanwhile, and fenced otherwise. */
  lemma UnclaimedExactly(s: State, w: Worker)
    requires Can(s, ClaimDenied(w))
    ensures Can(After(s, ClaimDenied(w)), LookAgain(w))
    ensures After(After(s, ClaimDenied(w)), LookAgain(w)) == Goto(Goto(s, w, NotClaimed), w, Done(if Terminal(s) then Skipped else Fenced))
  {
  }

  /**
   From delivery to commit without interference: an admitted delivery of an unclaimed
   WorkItem, with the carrier's own request and a definite result of its own, commits
   exactly that result and is acknowledged.
   */
  lemma RunsToCommit(s: State, w: Worker, c: Carrier, now: real, claim: Claim, r: Resolution, a: Answer) returns (t: State)
    requires w !in s.tasks && Admits(s.item, c, now) && s.item.value.holder.None? && NewClaim(s, claim)
    requires OwnRequest(c, r) && OwnResult(c, r.request, a)
    ensures Can(s, Deliver(w, c, now))
    ensures Terminal(t) && t.writes == s.writes + [Write(w, c, Some(r.request), Some(a.result), a.result.outcome == Completed)]
    ensures w in t.tasks && t.tasks[w].pc.Done? && Acknowledged(t.tasks[w].pc.outcome) && t.tasks[w].started
  {
    var s1 := After(s, Deliver(w, c, now));
    LooksExactly(s1, w);
    var s2 := After(s1, Look(w));
    assert Can(s2, ClaimGranted(w, claim));
    var s3 := After(s2, ClaimGranted(w, claim));
    var s4 := ResolvesExactly(s3, w, c, claim, r);
    var s5 := ExecutesExactly(s4, w, c, claim, r.request, a);
    t := CommitsExactly(s5, w, c, claim, r.request, a.result);
  }
}
