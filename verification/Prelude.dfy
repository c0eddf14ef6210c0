/** Shared vocabulary: optional values and finite runs of a labelled transition system. */
module Prelude {

  datatype Option<+T> = None | Some(value: T)

  /** The last element of a non-empty sequence. */
  function Last<T>(s: seq<T>): T
    requires s != []
  {
    s[|s| - 1]
  }

  /** Executes the labels one after another; None as soon as one of them is not enabled. */
  function Run<S, A>(step: (S, A) -> Option<S>, s: S, labels: seq<A>): Option<S>
  {
    if labels == [] then Some(s)
    else match step(s, labels[0])
      case None => None
      case Some(next) => Run(step, next, labels[1..])
  }

  /** A run followed by a run is a run. */
  lemma {:induction false} RunConcat<S, A>(step: (S, A) -> Option<S>, s: S, first: seq<A>, second: seq<A>)
    requires Run(step, s, first).Some?
    ensures Run(step, s, first + second) == Run(step, Run(step, s, first).value, second)
    decreases |first|
  {
    if first == [] {
      assert first + second == second;
    } else {
      assert (first + second)[1..] == first[1..] + second;
      RunConcat(step, step(s, first[0]).value, first[1..], second);
    }
  }

  /** The states some run from init leads to. */
  ghost predicate ReachableFrom<S, A(!new)>(step: (S, A) -> Option<S>, init: S, s: S) {
    exists labels: seq<A> :: Run(step, init, labels) == Some(s)
  }

  /** One more step at the end of a run. */
  lemma Then<S, A>(step: (S, A) -> Option<S>, init: S, labels: seq<A>, s: S, a: A) returns (s': S)
    requires Run(step, init, labels) == Some(s) && step(s, a).Some?
    ensures s' == step(s, a).value && Run(step, init, labels + [a]) == Some(s')
  {
    s' := step(s, a).value;
    RunConcat(step, init, labels, [a]);
    assert Run(step, s, [a]) == Run(step, s', []) == Some(s');
  }

  /** One more step from a reachable state leads to a reachable state. */
  lemma Take<S, A(!new)>(step: (S, A) -> Option<S>, init: S, s: S, a: A) returns (s': S)
    requires ReachableFrom(step, init, s) && step(s, a).Some?
    ensures s' == step(s, a).value && ReachableFrom(step, init, s')
  {
    var labels: seq<A> :| Run(step, init, labels) == Some(s);
    s' := Then(step, init, labels, s, a);
  }

  /** A whole run from a reachable state leads to a reachable state. */
  lemma ReachRun<S, A(!new)>(step: (S, A) -> Option<S>, init: S, s: S, labels: seq<A>, s': S)
    requires ReachableFrom(step, init, s) && Run(step, s, labels) == Some(s')
    ensures ReachableFrom(step, init, s')
  {
    var first: seq<A> :| Run(step, init, first) == Some(s);
    RunConcat(step, init, first, labels);
    assert Run(step, init, first + labels) == Some(s');
  }

  /** What holds at the start and is kept by every step holds wherever a run leads. */
  lemma InvariantReached<S(!new), A(!new)>(step: (S, A) -> Option<S>, inv: S -> bool, init: S, s: S)
    requires ReachableFrom(step, init, s) && inv(init)
    requires forall t, a :: inv(t) && step(t, a).Some? ==> inv(step(t, a).value)
    ensures inv(s)
  {
    var labels: seq<A> :| Run(step, init, labels) == Some(s);
    InvariantAlongRun(step, inv, init, labels);
  }

  /** Some step of the run is taken from a state and with a label that satisfy p. */
  predicate Somewhere<S, A>(step: (S, A) -> Option<S>, s: S, labels: seq<A>, p: (S, A) -> bool)
    decreases |labels|
  {
    && labels != [] && step(s, labels[0]).Some?
    && (p(s, labels[0]) || Somewhere(step, step(s, labels[0]).value, labels[1..], p))
  }

  /** What every step keeps, every run keeps. */
  lemma {:induction false} InvariantAlongRun<S(!new), A(!new)>(
      step: (S, A) -> Option<S>, inv: S -> bool, s: S, labels: seq<A>)
    requires inv(s)
    requires forall t, a :: inv(t) && step(t, a).Some? ==> inv(step(t, a).value)
    ensures Run(step, s, labels).Some? ==> inv(Run(step, s, labels).value)
    decreases |labels|
  {
    if labels != [] && step(s, labels[0]).Some? {
      InvariantAlongRun(step, inv, step(s, labels[0]).value, labels[1..]);
    }
  }
}
