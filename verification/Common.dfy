/** Shared types. */
module Common {

  datatype Option<+T> = None | Some(value: T)

  datatype Result<+T, +E> = Ok(value: T) | Err(error: E)

  /** What the other processes do between the statements of one, by position. */
  type Interleaving<S> = nat -> seq<S>

  ghost predicate Quiet<S>(o: Interleaving<S>) {
    forall k: nat :: o(k) == []
  }

  /** There is always another process. */
  lemma Unused(ps: set<nat>) returns (p: nat)
    ensures p !in ps && forall q | q in ps :: q < p
  {
    p := 0;
    if ps != {} {
      var q :| q in ps;
      p := Unused(ps - {q});
      assert forall r | r in ps :: r == q || r in ps - {q};
      if p <= q { p := q + 1; }
    }
  }
}
