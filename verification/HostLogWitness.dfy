/** A sink that writes what its own reader refuses. */
module HostLogWitness {
  import opened Common
  import opened HostLog
  import opened HostLogLaws
  import opened HostLogRetention
  import opened HostLogRun
  import opened HostLogTheorems

  /** A query with nothing wrong about it. */
  predicate InOrder(k: Sink, q: Query) {
    && ValidGenerations(q.generations) && q.workspace == k.workspace && q.host == k.host
    && 1 <= q.limit <= MAX_BATCH && q.cursor.None?
  }

  lemma EmptyIsAcceptable(files: Files, workspace: string)
    requires Retained(files) == [] && forall i :: 0 <= i < 5 ==> Contents(files[i]) == []
    ensures Acceptable(files, workspace)
  {
    assert Records([]) == [] && Scopes([]) == {};
    assert forall tenant, host :: OfScope([], tenant, host) == [];
  }

  lemma OpensEmpty(workspace: string, host: string)
    requires host != ""
    ensures CanOpen(NO_FILES, workspace, host, MIN_FILE)
    ensures Retained(Fresh(NO_FILES, workspace, host, MIN_FILE).files) == []
    ensures Acceptable(Fresh(NO_FILES, workspace, host, MIN_FILE).files, workspace)
  {
    assert Retained(NO_FILES) == [];
    OpenedKeeps(NO_FILES);
    EmptyIsAcceptable(NO_FILES, workspace);
    EmptyIsAcceptable(Opened(NO_FILES), workspace);
  }

  /** The first emit of a fresh sink is written, whatever its tenant. */
  lemma FirstEmit(workspace: string, host: string, m: Message)
    requires m.size <= MIN_FILE
    ensures var k := Fresh(NO_FILES, workspace, host, MIN_FILE);
      && AfterEmit(k, m, NoFault).1 == Written(1)
      && Retained(AfterEmit(k, m, NoFault).0.files) == Retained(k.files) + [Whole(NextRecord(k, m), m.size)]
      && AfterEmit(k, m, NoFault).0.(files := k.files, sequences := k.sequences) == k
  {
    var k := Fresh(NO_FILES, workspace, host, MIN_FILE);
    assert Contents(k.files[0]) == [] && Size([]) == 0;
    AppendRetains(Opened(k.files), Whole(NextRecord(k, m), m.size));
    OpenedKeeps(k.files);
  }

  /**
   Opening an empty directory and writing one line for an unnamed tenant, or under a
   generation name the reader does not allow: the emit succeeds, reads that worked
   before are refused from then on, and no sink can be opened on the directory again.
   */
  lemma OwnReaderRefuses(workspace: string, host: string, m: Message) returns (states: seq<State>)
    requires host != "" && m.size <= MIN_FILE && (m.tenant == "" || !ValidName(host))
    ensures Run(states, MIN_FILE) && |states| == 2
    ensures states[1].sink == AfterEmit(states[0].sink, m, NoFault).0 && AfterEmit(states[0].sink, m, NoFault).1 == Written(1)
    ensures !states[1].sink.failed && !states[1].sink.closed
    ensures forall q :: InOrder(states[0].sink, q) ==> InOrder(states[1].sink, q) && ReadOf(states[0].sink, q).Read?
    ensures forall q :: ReadOf(states[1].sink, q) == ReadDenied
    ensures forall other, maxBytes: nat :: !CanOpen(states[1].sink.files, workspace, other, maxBytes)
  {
    var k := Fresh(NO_FILES, workspace, host, MIN_FILE);
    OpensEmpty(workspace, host);
    var s := Init(k);
    var t := After(s, Emit(m, NoFault), MIN_FILE);
    states := [s, t];
    assert Starts(s, MIN_FILE);
    forall i: nat
      ensures StepAt(states, i, MIN_FILE)
    {
      assert Can(s, Emit(m, NoFault), MIN_FILE);
    }
    FirstEmit(workspace, host, m);
    assert !Acceptable(t.sink.files, workspace) by {
      var lines := Retained(t.sink.files);
      assert lines[|lines| - 1] == Whole(NextRecord(k, m), m.size);
      assert !LineOk(lines[|lines| - 1], workspace);
    }
  }
}
