/** A bounded loop as a function of its body, and the rules for reasoning about it. */
module Loops {

  /** Run `step` until `done` or until the budget is spent. */
  function Iterate<X>(x: X, step: X -> X, done: X -> bool, budget: nat): X
    decreases budget
  {
    if done(x) || budget == 0 then x else Iterate(step(x), step, done, budget - 1)
  }

  lemma {:induction false} IterateDone<X>(x: X, step: X -> X, done: X -> bool, budget: nat)
    requires done(x)
    ensures Iterate(x, step, done, budget) == x
  {
  }

  /** Stopping for lack of budget and going on later is one longer loop. */
  lemma {:induction false} IterateAdds<X>(x: X, step: X -> X, done: X -> bool, a: nat, b: nat)
    ensures Iterate(x, step, done, a + b) == Iterate(Iterate(x, step, done, a), step, done, b)
    decreases a
  {
    if a != 0 && !done(x) {
      IterateAdds(step(x), step, done, a - 1, b);
    }
  }

  /** Every state in which the loop body is entered satisfies `ok`. */
  ghost predicate Visits<X>(x: X, step: X -> X, done: X -> bool, budget: nat, ok: X -> bool)
    decreases budget
  {
    done(x) || budget == 0 || (ok(x) && Visits(step(x), step, done, budget - 1, ok))
  }

  lemma {:induction false} LoopInvariant<X(!new)>(x: X, step: X -> X, done: X -> bool, budget: nat, ok: X -> bool, inv: X -> bool)
    requires inv(x) && Visits(x, step, done, budget, ok)
    requires forall y | inv(y) && !done(y) && ok(y) :: inv(step(y))
    ensures inv(Iterate(x, step, done, budget))
    decreases budget
  {
    if !done(x) && budget != 0 {
      LoopInvariant(step(x), step, done, budget - 1, ok, inv);
    }
  }

  /** Two loops that stay related step by step end related. */
  lemma {:induction false} LoopsRelate<X(!new)>(
    x: X, step: X -> X, x': X, step': X -> X, done: X -> bool, budget: nat, ok: X -> bool, rel: (X, X) -> bool)
    requires rel(x, x') && Visits(x, step, done, budget, ok)
    requires forall y, y' | rel(y, y') :: done(y) == done(y')
    requires forall y, y' | rel(y, y') && !done(y) && ok(y) :: rel(step(y), step'(y'))
    ensures rel(Iterate(x, step, done, budget), Iterate(x', step', done, budget))
    decreases budget
  {
    if !done(x) && budget != 0 {
      LoopsRelate(step(x), step, step'(x'), step', done, budget - 1, ok, rel);
    }
  }

  /** What holds on entering each pass of a loop holds for its first part and for the rest. */
  lemma {:induction false} VisitsSplit<X>(x: X, step: X -> X, done: X -> bool, a: nat, b: nat, ok: X -> bool)
    requires Visits(x, step, done, a + b, ok)
    ensures Visits(x, step, done, a, ok) && Visits(Iterate(x, step, done, a), step, done, b, ok)
    decreases a
  {
    if a != 0 && !done(x) {
      VisitsSplit(step(x), step, done, a - 1, b, ok);
    }
  }

  /** An invariant that also makes every pass `ok`. */
  lemma {:induction false} LoopKeeps<X(!new)>(x: X, step: X -> X, done: X -> bool, budget: nat, ok: X -> bool, inv: X -> bool)
    requires inv(x)
    requires forall y | inv(y) && !done(y) :: ok(y) && inv(step(y))
    ensures Visits(x, step, done, budget, ok) && inv(Iterate(x, step, done, budget))
    decreases budget
  {
    if !done(x) && budget != 0 {
      LoopKeeps(step(x), step, done, budget - 1, ok, inv);
    }
  }
}
