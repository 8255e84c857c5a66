/** Runs of a transition system given by its step function, whatever the system. */
module Runs {
  /** The state after a schedule. */
  function Run<S, T>(next: (S, T) -> S, s: S, steps: seq<T>): S
    decreases |steps|
  {
    if steps == [] then s else Run(next, next(s, steps[0]), steps[1..])
  }

  /** One schedule after another. */
  lemma {:induction false} RunConcat<S, T>(next: (S, T) -> S, s: S, first: seq<T>, more: seq<T>)
    ensures Run(next, s, first + more) == Run(next, Run(next, s, first), more)
    decreases |first|
  {
    if first == [] {
      assert first + more == more;
    } else {
      assert (first + more)[1..] == first[1..] + more;
      RunConcat(next, next(s, first[0]), first[1..], more);
    }
  }

  lemma RunOne<S, T>(next: (S, T) -> S, s: S, step: T)
    ensures Run(next, s, [step]) == next(s, step)
  {
    assert [step][1..] == [];
  }

  /** One step more. */
  lemma RunAppend<S, T>(next: (S, T) -> S, s: S, steps: seq<T>, last: T)
    ensures Run(next, s, steps + [last]) == next(Run(next, s, steps), last)
  {
    RunConcat(next, s, steps, [last]);
    RunOne(next, Run(next, s, steps), last);
  }

  /** The last step of a schedule. */
  lemma RunLast<S, T>(next: (S, T) -> S, s: S, steps: seq<T>)
    requires steps != []
    ensures Run(next, s, steps) == next(Run(next, s, steps[..|steps| - 1]), steps[|steps| - 1])
  {
    var n := |steps| - 1;
    assert steps == steps[..n] + [steps[n]];
    RunAppend(next, s, steps[..n], steps[n]);
  }

  /** The same step `n` times. */
  function Times<T>(n: nat, step: T): seq<T> {
    seq(n, _ => step)
  }

  function Repeat<S, T>(next: (S, T) -> S, s: S, step: T, n: nat): S {
    if n == 0 then s else Repeat(next, next(s, step), step, n - 1)
  }

  lemma {:induction false} RunTimes<S, T>(next: (S, T) -> S, s: S, step: T, n: nat)
    ensures Run(next, s, Times(n, step)) == Repeat(next, s, step, n)
  {
    if n > 0 {
      assert Times(n, step)[1..] == Times(n - 1, step);
      RunTimes(next, next(s, step), step, n - 1);
    }
  }

  lemma {:induction false} RepeatSum<S, T>(next: (S, T) -> S, s: S, step: T, m: nat, n: nat)
    ensures Repeat(next, s, step, m + n) == Repeat(next, Repeat(next, s, step, m), step, n)
  {
    if m > 0 {
      RepeatSum(next, next(s, step), step, m - 1, n);
    }
  }

  lemma FirstThenTimes<S, T>(next: (S, T) -> S, s: S, first: T, step: T, n: nat)
    ensures Run(next, s, [first] + Times(n, step)) == Repeat(next, next(s, first), step, n)
  {
    RunConcat(next, s, [first], Times(n, step));
    RunOne(next, s, first);
    RunTimes(next, next(s, first), step, n);
  }

  lemma RepeatOne<S, T>(next: (S, T) -> S, s: S, step: T)
    ensures Repeat(next, s, step, 1) == next(s, step)
  {
  }

  lemma RepeatTwo<S, T>(next: (S, T) -> S, s: S, step: T)
    ensures Repeat(next, s, step, 2) == next(next(s, step), step)
  {
  }

  lemma RunTwo<S, T>(next: (S, T) -> S, s: S, first: T, second: T)
    ensures Run(next, s, [first, second]) == next(next(s, first), second)
  {
    assert [first, second][1..] == [second];
    RunOne(next, next(s, first), second);
  }
}
