/** Runs of a step relation, and induction along them. */
module Runs {

  ghost predicate Linked<S(!new)>(states: seq<S>, next: (S, S) -> bool) {
    states != [] && forall k :: 0 <= k < |states| - 1 ==> next(states[k], states[k + 1])
  }

  lemma FirstStep<S(!new)>(states: seq<S>, next: (S, S) -> bool)
    requires |states| > 1 && Linked(states, next)
    ensures next(states[0], states[1])
  {
    assert next(states[0], states[0 + 1]);
  }

  lemma LinkedFront<S(!new)>(states: seq<S>, next: (S, S) -> bool)
    requires |states| > 1 && Linked(states, next)
    ensures Linked(states[..|states| - 1], next)
  {
  }

  /** What holds at the start and is kept by every step holds all along. */
  lemma {:induction false} Invariance<S(!new)>(states: seq<S>, next: (S, S) -> bool, inv: S -> bool)
    requires Linked(states, next) && inv(states[0])
    requires forall a, b :: inv(a) && next(a, b) ==> inv(b)
    ensures forall k :: 0 <= k < |states| ==> inv(states[k])
    decreases |states|
  {
    if |states| <= 1 {
    } else {
      var front := states[..|states| - 1];
      assert forall k :: 0 <= k < |front| - 1 ==> next(front[k], front[k + 1]);
      Invariance(front, next, inv);
      var k := |states| - 2;
      assert front[k] == states[k] && next(states[k], states[k + 1]);
    }
  }

  /** A measure that every step lowers bounds the length of a run. */
  lemma {:induction false} Descent<S(!new)>(states: seq<S>, next: (S, S) -> bool, inv: S -> bool, measure: S -> int)
    requires Linked(states, next) && inv(states[0])
    requires forall a, b :: inv(a) && next(a, b) ==> inv(b) && measure(b) < measure(a)
    ensures |states| + measure(states[|states| - 1]) <= 1 + measure(states[0])
    decreases |states|
  {
    if |states| <= 1 {
    } else {
      var front := states[..|states| - 1];
      assert forall k :: 0 <= k < |front| - 1 ==> next(front[k], front[k + 1]);
      Descent(front, next, inv, measure);
      Invariance(front, next, inv);
      var k := |states| - 2;
      assert front[k] == states[k] && next(states[k], states[k + 1]) && inv(front[k]);
    }
  }

  /** What one step does to a pair of related facts accumulates over any two moments of a run. */
  lemma {:induction false} Persistence<S(!new)>(states: seq<S>, next: (S, S) -> bool, inv: S -> bool, rel: (S, S) -> bool, i: nat, j: nat)
    requires Linked(states, next) && inv(states[0]) && i <= j < |states|
    requires forall a, b :: inv(a) && next(a, b) ==> inv(b) && rel(a, b)
    requires forall a :: inv(a) ==> rel(a, a)
    requires forall a, b, c :: rel(a, b) && rel(b, c) ==> rel(a, c)
    ensures rel(states[i], states[j])
    decreases j - i
  {
    Invariance(states, next, inv);
    if i >= j {
    } else {
      Persistence(states, next, inv, rel, i, j - 1);
      var k := j - 1;
      assert next(states[k], states[k + 1]) && inv(states[k]);
      assert rel(states[i], states[k]) && rel(states[k], states[j]);
    }
  }

  /** A run whose steps are driven by given inputs. */
  ghost predicate Driven<S(!new), I(!new)>(states: seq<S>, inputs: seq<I>, next: (S, I, S) -> bool) {
    |states| == |inputs| + 1 && forall k :: 0 <= k < |inputs| ==> next(states[k], inputs[k], states[k + 1])
  }

  lemma DrivenSnoc<S(!new), I(!new)>(states: seq<S>, inputs: seq<I>, next: (S, I, S) -> bool, input: I, state: S)
    requires Driven(states, inputs, next) && next(states[|inputs|], input, state)
    ensures Driven(states + [state], inputs + [input], next)
  {
  }

  /** What holds at the start and is kept by every step holds all along, while the measure falls with every step. */
  lemma {:induction false} DrivenDescent<S(!new), I(!new)>(states: seq<S>, inputs: seq<I>, next: (S, I, S) -> bool,
                                                          inv: S -> bool, measure: S -> int, n: nat)
    requires Driven(states, inputs, next) && inv(states[0]) && n <= |inputs|
    requires forall a, i, b :: inv(a) && next(a, i, b) ==> inv(b) && measure(b) < measure(a)
    ensures inv(states[n]) && measure(states[n]) + n <= measure(states[0])
    decreases n
  {
    if n == 0 {
    } else {
      DrivenDescent(states, inputs, next, inv, measure, n - 1);
      assert next(states[n - 1], inputs[n - 1], states[n - 1 + 1]);
    }
  }

  /** A flag that a step sets exactly on certain inputs is set exactly if there was such an input. */
  lemma {:induction false} DrivenFlag<S(!new), I(!new)>(states: seq<S>, inputs: seq<I>, next: (S, I, S) -> bool,
                                                       flag: S -> bool, sets: I -> bool, n: nat)
    requires Driven(states, inputs, next) && !flag(states[0]) && n <= |inputs|
    requires forall a, i, b :: next(a, i, b) ==> (flag(b) <==> flag(a) || sets(i))
    ensures flag(states[n]) <==> exists k :: 0 <= k < n && sets(inputs[k])
    decreases n
  {
    if n == 0 {
    } else {
      DrivenFlag(states, inputs, next, flag, sets, n - 1);
      assert next(states[n - 1], inputs[n - 1], states[n - 1 + 1]);
    }
  }
}
