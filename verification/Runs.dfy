/** Runs of labelled transition systems.

    A system is one total function `step`: it gives the state after an event, or
    `None` when the event cannot happen in that state.  Every protocol of this
    project is such a function, and "in every reachable state" means "after every
    finite sequence of events". */
module Runs {

  datatype Option<+T> = None | Some(value: T)

  /** The state after the events `es`, provided each is possible when its turn comes. */
  function Run<S, E>(step: (S, E) -> Option<S>, s: S, es: seq<E>): (r: Option<S>)
    decreases |es|
  {
    if es == [] then Some(s)
    else
      match Run(step, s, es[..|es| - 1])
      case None => None
      case Some(t) => step(t, es[|es| - 1])
  }

  ghost predicate Reachable<S(!new), E(!new)>(step: (S, E) -> Option<S>, s: S, t: S) {
    exists es: seq<E> :: Run(step, s, es) == Some(t)
  }

  /** A property that the initial state has and every step keeps holds after every run. */
  lemma {:induction false} Invariance<S(!new), E(!new)>(
    step: (S, E) -> Option<S>, inv: S -> bool, s: S, es: seq<E>)
    requires inv(s)
    requires forall t, e :: inv(t) && step(t, e).Some? ==> inv(step(t, e).value)
    ensures Run(step, s, es).Some? ==> inv(Run(step, s, es).value)
    decreases |es|
  {
    if es != [] {
      Invariance(step, inv, s, es[..|es| - 1]);
    }
  }

  /** Running one more event. */
  lemma Snoc<S, E>(step: (S, E) -> Option<S>, s: S, es: seq<E>, e: E)
    requires Run(step, s, es).Some?
    ensures Run(step, s, es + [e]) == step(Run(step, s, es).value, e)
  {
    assert (es + [e])[..|es|] == es;
  }

  /** A run followed by a run is a run. */
  lemma {:induction false} Append<S, E>(step: (S, E) -> Option<S>, s: S, es: seq<E>, fs: seq<E>)
    requires Run(step, s, es).Some?
    ensures Run(step, s, es + fs) == Run(step, Run(step, s, es).value, fs)
    decreases |fs|
  {
    if fs == [] {
      assert es + fs == es;
    } else {
      var gs := fs[..|fs| - 1];
      Append(step, s, es, gs);
      assert (es + fs)[..|es + fs| - 1] == es + gs;
    }
  }

  /** Every event of a run is possible after those before it. */
  lemma {:induction false} Prefix<S, E>(step: (S, E) -> Option<S>, s: S, es: seq<E>, i: nat)
    requires Run(step, s, es).Some? && i < |es|
    ensures Run(step, s, es[..i]).Some? && step(Run(step, s, es[..i]).value, es[i]).Some?
    decreases |es|
  {
    if i < |es| - 1 {
      Prefix(step, s, es[..|es| - 1], i);
      assert es[..|es| - 1][..i] == es[..i];
    }
  }

  /** Runs of one, two and three events, step by step. */
  lemma Few<S, E>(step: (S, E) -> Option<S>, s: S, es: seq<E>)
    requires 1 <= |es| <= 3
    ensures |es| == 1 ==> Run(step, s, es) == step(s, es[0])
    ensures |es| == 2 && step(s, es[0]).Some? ==> Run(step, s, es) == step(step(s, es[0]).value, es[1])
    ensures |es| == 3 && step(s, es[0]).Some? && step(step(s, es[0]).value, es[1]).Some? ==>
      Run(step, s, es) == step(step(step(s, es[0]).value, es[1]).value, es[2])
  {
    assert es[..1][..0] == [];
    assert Run(step, s, es[..1]) == step(s, es[0]);
    if |es| >= 2 && step(s, es[0]).Some? {
      assert es[..2] == es[..1] + [es[1]];
      Snoc(step, s, es[..1], es[1]);
      if |es| == 3 && step(step(s, es[0]).value, es[1]).Some? {
        assert es == es[..2] + [es[2]];
        Snoc(step, s, es[..2], es[2]);
      }
    }
    assert |es| == 1 ==> es == es[..1];
    assert |es| == 2 ==> es == es[..2];
  }
}
