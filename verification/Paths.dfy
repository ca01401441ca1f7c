/** Runs of any transition relation. */
module Paths {
  import opened Delimited

  /** The actions lead from `s` to `t`. */
  ghost predicate Path<S(!new), A>(step: (S, A, S) -> bool, s: S, actions: seq<A>, t: S)
    decreases |actions|
  {
    if actions == [] then s == t
    else exists mid :: step(s, actions[0], mid) && Path(step, mid, actions[1..], t)
  }

  lemma {:induction false} PathOne<S(!new), A>(step: (S, A, S) -> bool, s: S, a: A, t: S)
    requires step(s, a, t)
    ensures Path(step, s, [a], t)
  {
    assert Path(step, t, [a][1..], t);
  }

  lemma {:induction false} PathConcat<S(!new), A>(step: (S, A, S) -> bool, s: S, first: seq<A>, mid: S, second: seq<A>, t: S)
    requires Path(step, s, first, mid) && Path(step, mid, second, t)
    ensures Path(step, s, first + second, t)
    decreases |first|
  {
    if first == [] {
      assert first + second == second;
    } else {
      var s' :| step(s, first[0], s') && Path(step, s', first[1..], mid);
      PathConcat(step, s', first[1..], mid, second, t);
      TailConcat(first, second);
      assert (first + second)[0] == first[0];
    }
  }

  /** What every step keeps holds at the end. */
  lemma {:induction false} PathKeeps<S(!new), A(!new)>(step: (S, A, S) -> bool, inv: S -> bool, s: S, actions: seq<A>, t: S)
    requires Path(step, s, actions, t) && inv(s)
    requires forall x, a, y :: inv(x) && step(x, a, y) ==> inv(y)
    ensures inv(t)
    decreases |actions|
  {
    if actions != [] {
      var s' :| step(s, actions[0], s') && Path(step, s', actions[1..], t);
      PathKeeps(step, inv, s', actions[1..], t);
    }
  }
}
