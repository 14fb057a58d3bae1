/** Small vocabulary shared by every model in this project. */
module Common {

  datatype Option<+T> = None | Some(value: T)

  datatype Result<+T> = Ok(value: T) | Err

  /** What holds at the start of a run and is kept by each of its steps holds throughout. */
  lemma {:induction false} Induction<S(!new)>(run: seq<S>, inv: S -> bool, i: nat)
    requires i < |run| && inv(run[0])
    requires forall k :: 0 < k < |run| && inv(run[k - 1]) ==> inv(run[k])
    ensures inv(run[i])
  {
    if i > 0 {
      Induction(run, inv, i - 1);
    }
  }

  /** There is always a number that is not in use. */
  lemma {:induction false} Unused(used: set<nat>) returns (n: nat)
    ensures n !in used && forall m :: m in used ==> m < n
  {
    if used == {} {
      n := 0;
    } else {
      var m :| m in used;
      var rest := Unused(used - {m});
      n := if m < rest then rest else m + 1;
      assert forall x :: x in used ==> x == m || x in used - {m};
    }
  }
}
