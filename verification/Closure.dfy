/** Breadth-first exploration of a successor function, and the trails it follows. */
module Closure {
  import opened Common

  /** `p` starts in `starts`, takes successor steps only, stays among `live` values and ends at `x`. */
  ghost predicate Trail<V(!new)>(next: V -> seq<V>, live: V -> bool, starts: seq<V>, p: seq<V>, x: V) {
    && p != []
    && p[0] in starts
    && p[|p| - 1] == x
    && (forall i :: 0 <= i < |p| ==> live(p[i]))
    && (forall i :: 0 <= i < |p| - 1 ==> Follows(next, p[i], p[i + 1]))
  }

  ghost predicate Follows<V(!new)>(next: V -> seq<V>, x: V, y: V) {
    y in next(x)
  }

  ghost predicate Closed<V(!new)>(next: V -> seq<V>, live: V -> bool, starts: seq<V>, seen: set<V>) {
    && (forall x :: x in starts && live(x) ==> x in seen)
    && (forall x, y :: x in seen && Follows(next, x, y) && live(y) ==> y in seen)
  }

  lemma {:induction false} TrailStaysInside<V(!new)>(next: V -> seq<V>, live: V -> bool, starts: seq<V>, seen: set<V>,
                                                     p: seq<V>, x: V)
    requires Closed(next, live, starts, seen) && Trail(next, live, starts, p, x)
    ensures x in seen
    decreases |p|
  {
    if |p| <= 1 {
    } else {
      assert Follows(next, p[|p| - 2], p[|p| - 2 + 1]);
      TrailStaysInside(next, live, starts, seen, p[..|p| - 1], p[|p| - 2]);
    }
  }

  lemma TrailSnoc<V(!new)>(next: V -> seq<V>, live: V -> bool, starts: seq<V>, p: seq<V>, x: V, y: V)
    requires Trail(next, live, starts, p, x) && y in next(x) && live(y)
    ensures Trail(next, live, starts, p + [y], y)
  {
    var q := p + [y];
    forall i | 0 <= i < |q| - 1 ensures Follows(next, q[i], q[i + 1]) {
      if i < |p| - 1 { assert Follows(next, p[i], p[i + 1]); }
    }
  }

  ghost predicate Reached<V(!new)>(next: V -> seq<V>, live: V -> bool, starts: seq<V>, x: V) {
    exists p :: Trail(next, live, starts, p, x)
  }

  ghost predicate Exploring<V(!new)>(next: V -> seq<V>, live: V -> bool, starts: seq<V>, seen: set<V>, queue: seq<V>) {
    && (forall x :: x in seen ==> Reached(next, live, starts, x))
    && (forall x :: x in queue && live(x) ==> Reached(next, live, starts, x))
    && (forall x :: x in starts && live(x) ==> x in seen || x in queue)
    && (forall x, y :: x in seen && Follows(next, x, y) && live(y) ==> y in seen || y in queue)
  }

  lemma Visit<V(!new)>(next: V -> seq<V>, live: V -> bool, starts: seq<V>, seen: set<V>, queue: seq<V>)
    requires queue != [] && Exploring(next, live, starts, seen, queue)
    ensures !live(queue[0]) || queue[0] in seen ==> Exploring(next, live, starts, seen, queue[1..])
    ensures live(queue[0]) ==> Exploring(next, live, starts, seen + {queue[0]}, queue[1..] + next(queue[0]))
  {
    var x := queue[0];
    assert queue == [x] + queue[1..];
    if live(x) {
      forall y | y in next(x) && live(y) ensures Reached(next, live, starts, y) {
        assert Reached(next, live, starts, x);
        var p :| Trail(next, live, starts, p, x);
        TrailSnoc(next, live, starts, p, x, y);
      }
    }
  }

  /** Everything reached from `starts`; values that are not live are dropped when they leave the queue. */
  method Explore<V(==, !new)>(next: V -> seq<V>, live: V -> bool, starts: seq<V>, ghost universe: set<V>)
    returns (seen: set<V>)
    requires forall x :: x in starts ==> x in universe
    requires forall x, y :: y in next(x) ==> y in universe
    ensures forall x :: x in seen <==> Reached(next, live, starts, x)
  {
    seen := {};
    var queue := starts;
    forall x | x in starts && live(x) ensures Reached(next, live, starts, x) {
      assert Trail(next, live, starts, [x], x);
    }
    while queue != []
      invariant Exploring(next, live, starts, seen, queue)
      invariant seen <= universe && forall x :: x in queue ==> x in universe
      decreases |universe| - |seen|, |queue|
    {
      var current := queue[0];
      Visit(next, live, starts, seen, queue);
      queue := queue[1..];
      if live(current) && current !in seen {
        SubsetSize(seen + {current}, universe);
        seen := seen + {current};
        queue := queue + next(current);
      }
    }
    forall x | Reached(next, live, starts, x) ensures x in seen {
      var p :| Trail(next, live, starts, p, x);
      TrailStaysInside(next, live, starts, seen, p, x);
    }
  }

  // ---------------------------------------------------------------- least closed set, converse relations

  /** The reached values are the least set that holds the live starts and is closed under live successors. */
  lemma ReachedIsLeast<V(!new)>(next: V -> seq<V>, live: V -> bool, starts: seq<V>, seen: set<V>, other: set<V>)
    requires forall x :: x in seen <==> Reached(next, live, starts, x)
    ensures Closed(next, live, starts, seen)
    ensures Closed(next, live, starts, other) ==> seen <= other
  {
    forall x | x in starts && live(x) ensures x in seen {
      assert Trail(next, live, starts, [x], x);
    }
    forall x, y | x in seen && Follows(next, x, y) && live(y) ensures y in seen {
      var p :| Trail(next, live, starts, p, x);
      TrailSnoc(next, live, starts, p, x, y);
    }
    if Closed(next, live, starts, other) {
      forall x | x in seen ensures x in other {
        var p :| Trail(next, live, starts, p, x);
        TrailStaysInside(next, live, starts, other, p, x);
      }
    }
  }

  lemma {:induction false} TrailReversed<V(!new)>(next: V -> seq<V>, back: V -> seq<V>, live: V -> bool, x: V, p: seq<V>, y: V)
    requires forall a, b :: b in next(a) ==> a in back(b)
    requires Trail(next, live, [x], p, y)
    ensures Reached(back, live, [y], x)
  {
    var q := seq(|p|, i requires 0 <= i < |p| => p[|p| - 1 - i]);
    forall i | 0 <= i < |q| - 1 ensures Follows(back, q[i], q[i + 1]) {
      var k := |p| - 2 - i;
      assert Follows(next, p[k], p[k + 1]);
    }
    assert Trail(back, live, [y], q, x);
  }

  /** Following edges forwards from x reaches y exactly when following them backwards from y reaches x. */
  lemma Converse<V(!new)>(next: V -> seq<V>, back: V -> seq<V>, live: V -> bool, x: V, y: V)
    requires forall a, b :: b in next(a) <==> a in back(b)
    ensures Reached(next, live, [x], y) <==> Reached(back, live, [y], x)
  {
    if Reached(next, live, [x], y) {
      var p :| Trail(next, live, [x], p, y);
      TrailReversed(next, back, live, x, p, y);
    }
    if Reached(back, live, [y], x) {
      var p :| Trail(back, live, [y], p, x);
      TrailReversed(back, next, live, y, p, x);
    }
  }
}
