/** Shared datatypes and the notion of a run of a labelled state machine. */
module Common {

  datatype Option<+T> = None | Some(value: T)

  /** The state reached by a sequence of labels, or None when some label was not enabled. */
  function Exec<S, L>(step: (S, L) -> Option<S>, s: S, run: seq<L>): Option<S>
  {
    if run == [] then Some(s)
    else
      match Exec(step, s, run[..|run| - 1])
      case None => None
      case Some(m) => step(m, run[|run| - 1])
  }

  /** Every enabled step from a state of inv leads to a state of inv. */
  ghost predicate Inductive<S(!new), L(!new)>(step: (S, L) -> Option<S>, inv: S -> bool)
  {
    forall s, l :: inv(s) && step(s, l).Some? ==> inv(step(s, l).value)
  }

  lemma {:induction false} InvariantHolds<S(!new), L(!new)>(step: (S, L) -> Option<S>, inv: S -> bool, s: S, run: seq<L>)
    requires inv(s) && Inductive(step, inv)
    requires Exec(step, s, run).Some?
    ensures inv(Exec(step, s, run).value)
  {
    if run != [] {
      InvariantHolds(step, inv, s, run[..|run| - 1]);
    }
  }

  /** Running a then b is running a + b. */
  lemma {:induction false} ExecConcat<S, L>(step: (S, L) -> Option<S>, s: S, a: seq<L>, b: seq<L>)
    requires Exec(step, s, a).Some?
    ensures Exec(step, s, a + b) == Exec(step, Exec(step, s, a).value, b)
  {
    if b == [] {
      assert a + b == a;
    } else {
      ExecConcat(step, s, a, b[..|b| - 1]);
      assert (a + b)[..|a + b| - 1] == a + b[..|b| - 1];
    }
  }

  function Last<T>(s: seq<T>): T
    requires s != []
  {
    s[|s| - 1]
  }

  predicate Distinct<T(==)>(s: seq<T>) {
    forall i, j :: 0 <= i < j < |s| ==> s[i] != s[j]
  }

  lemma TakeMore<T>(s: seq<T>, i: nat)
    requires i < |s|
    ensures s[..i + 1] == s[..i] + [s[i]] && s[..i + 1][..i] == s[..i] && Last(s[..i + 1]) == s[i]
  {
  }

  lemma TakeAll<T>(s: seq<T>)
    ensures s[..|s|] == s
  {
  }
}
