/** Types and predicates that several components use. */
module Common {

  datatype Option<+T> = None | Some(value: T)

  datatype Result<+T, +E> = Ok(value: T) | Err(error: E)

  predicate NoDup<T(==)>(s: seq<T>) {
    forall i, j :: 0 <= i < j < |s| ==> s[i] != s[j]
  }

  /** Step `i` leads from the state before it to the state after it. */
  predicate LeadsAt<S, T>(run: seq<T> -> Option<S>, leads: (S, T, S) -> bool, steps: seq<T>, i: nat)
    requires i < |steps|
  {
    run(steps[..i]).Some? && run(steps[..i + 1]).Some? && leads(run(steps[..i]).value, steps[i], run(steps[..i + 1]).value)
  }

  /** Induction over a run: `run` gives the state after some steps, `leads` says that a step leads from one state to
      another, and `holds` is what every step keeps. */
  lemma {:induction false} RunInduction<S(!new), T(!new)>(run: seq<T> -> Option<S>, leads: (S, T, S) -> bool, holds: (S, seq<T>) -> bool,
                                                          steps: seq<T>, n: nat)
    requires n <= |steps| && run([]).Some? && holds(run([]).value, [])
    requires forall i: nat :: i < |steps| ==> LeadsAt(run, leads, steps, i)
    requires forall u, v, front, step :: holds(u, front) && leads(u, step, v) ==> holds(v, front + [step])
    ensures run(steps[..n]).Some? && holds(run(steps[..n]).value, steps[..n])
  {
    if n == 0 {
      assert steps[..0] == [];
    } else {
      RunInduction(run, leads, holds, steps, n - 1);
      assert LeadsAt(run, leads, steps, n - 1);
      assert steps[..n] == steps[..n - 1] + [steps[n - 1]];
    }
  }
}
