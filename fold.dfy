/**
 * A for-loop over a list whose body may throw out of the loop: a left fold
 * that stops at the first step reporting an escaped exception.
 */
module Fold {
  /** Still looping, or an exception escaped the loop (with the state it left behind). */
  datatype Progress<S> = Running(state: S) | Aborted(at: S)
  {
    function Current(): S
    {
      match this
      case Running(s) => s
      case Aborted(s) => s
    }
  }

  /** The loop over `entries` from `start`, one `step` per entry. */
  function Run<S, E>(entries: seq<E>, start: S, step: (S, E) -> Progress<S>): Progress<S>
  {
    if entries == [] then Running(start)
    else
      match Run(entries[..|entries| - 1], start, step)
      case Aborted(s) => Aborted(s)
      case Running(s) => step(s, entries[|entries| - 1])
  }

  /** One more entry: one more step, unless the loop has already stopped. */
  lemma RunAppend<S, E>(pre: seq<E>, x: E, start: S, step: (S, E) -> Progress<S>)
    ensures Run(pre + [x], start, step)
            == match Run(pre, start, step) case Aborted(s) => Aborted(s) case Running(s) => step(s, x)
  {
    assert (pre + [x])[..|pre|] == pre;
  }

  /** Once an exception has escaped, later entries change nothing. */
  lemma {:induction false} RunAbortPersists<S, E>(pre: seq<E>, post: seq<E>, start: S, step: (S, E) -> Progress<S>)
    requires Run(pre, start, step).Aborted?
    ensures Run(pre + post, start, step) == Run(pre, start, step)
    decreases |post|
  {
    if post != [] {
      var init := post[..|post| - 1];
      RunAbortPersists(pre, init, start, step);
      assert pre + post == (pre + init) + [post[|post| - 1]];
      RunAppend(pre + init, post[|post| - 1], start, step);
    } else {
      assert pre + post == pre;
    }
  }

  /** An entry whose step never changes the state may as well be absent. */
  lemma {:induction false} RunSkip<S, E>(pre: seq<E>, x: E, post: seq<E>, start: S, step: (S, E) -> Progress<S>)
    requires forall st :: step(st, x) == Running(st)
    ensures Run(pre + [x] + post, start, step) == Run(pre + post, start, step)
    decreases |post|
  {
    if post == [] {
      assert pre + [x] + post == pre + [x];
      assert pre + post == pre;
      RunAppend(pre, x, start, step);
    } else {
      var init := post[..|post| - 1];
      var y := post[|post| - 1];
      RunSkip(pre, x, init, start, step);
      assert pre + [x] + post == (pre + [x] + init) + [y];
      assert pre + post == (pre + init) + [y];
      RunAppend(pre + [x] + init, y, start, step);
      RunAppend(pre + init, y, start, step);
    }
  }
}
