/** Element-wise mapping, filtering, flattening and collecting over sequences, and the facts
    about them that the patcher's loops and its order independence rest on. */
module Seqs {
  import opened Wrappers

  /** `[f(x) | x in xs]`, in order. Element access is the separate lemma `MapAt`, so that a
      mapped sequence does not expose `f` at every index it is looked at. */
  function Map<A, B>(f: A -> B, xs: seq<A>): (ys: seq<B>)
    ensures |ys| == |xs|
  {
    if xs == [] then [] else Map(f, xs[..|xs| - 1]) + [f(xs[|xs| - 1])]
  }

  lemma {:induction false} MapAt<A, B>(f: A -> B, xs: seq<A>, i: nat)
    requires i < |xs|
    ensures Map(f, xs)[i] == f(xs[i])
    decreases |xs|
  {
    if i < |xs| - 1 {
      MapAt(f, xs[..|xs| - 1], i);
    }
  }

  /** `MapAt` at every index at once, for callers whose `f` is cheap to expose. */
  lemma MapAll<A, B>(f: A -> B, xs: seq<A>)
    ensures forall i :: 0 <= i < |xs| ==> Map(f, xs)[i] == f(xs[i])
  {
    forall i | 0 <= i < |xs| ensures Map(f, xs)[i] == f(xs[i]) {
      MapAt(f, xs, i);
    }
  }

  lemma {:induction false} MapAppend<A, B>(f: A -> B, xs: seq<A>, ys: seq<A>)
    ensures Map(f, xs + ys) == Map(f, xs) + Map(f, ys)
    decreases |ys|
  {
    if ys != [] {
      var front := ys[..|ys| - 1];
      assert (xs + ys)[..|xs + ys| - 1] == xs + front;
      MapAppend(f, xs, front);
    } else {
      assert xs + ys == xs;
    }
  }

  /** Mapping two permutations of each other gives two permutations of each other. */
  lemma {:induction false} MapPermutation<A, B>(f: A -> B, xs: seq<A>, ys: seq<A>)
    requires multiset(xs) == multiset(ys)
    ensures multiset(Map(f, xs)) == multiset(Map(f, ys))
    decreases |xs|
  {
    if |xs| > 0 {
      var x := xs[|xs| - 1];
      var front := xs[..|xs| - 1];
      assert xs == front + [x];
      assert x in multiset(ys);
      var i :| 0 <= i < |ys| && ys[i] == x;
      var left, right := ys[..i], ys[i + 1..];
      assert ys == left + [x] + right;
      RemoveOne(front, x, left, right, multiset(xs));
      MapPermutation(f, front, left + right);
      assert Map(f, [x]) == [f(x)];
      MapAppend(f, front, [x]);
      MapAppend(f, left, right);
      MapAppend(f, left + [x], right);
      MapAppend(f, left, [x]);
      var ml, mr := Map(f, left), Map(f, right);
      assert multiset(Map(f, ys)) == multiset(ml) + multiset{f(x)} + multiset(mr);
      assert multiset(Map(f, left + right)) == multiset(ml) + multiset(mr);
    } else {
      assert ys == [];
    }
  }

  /** Under a one-to-one `f`, `f(x)` occurs in the mapped sequence as often as `x` in `xs`. */
  lemma {:induction false} MapCountInjective<A, B>(f: A -> B, xs: seq<A>, x: A)
    requires forall a, b :: f(a) == f(b) ==> a == b
    ensures multiset(Map(f, xs))[f(x)] == multiset(xs)[x]
    decreases |xs|
  {
    if xs != [] {
      var front, last := xs[..|xs| - 1], xs[|xs| - 1];
      assert xs == front + [last];
      MapCountInjective(f, front, x);
    }
  }

  lemma RemoveOne<A>(front: seq<A>, x: A, left: seq<A>, right: seq<A>, all: multiset<A>)
    requires all == multiset(front + [x]) && all == multiset(left + [x] + right)
    ensures multiset(front) == multiset(left + right)
  {
    assert multiset(front + [x]) == multiset(front) + multiset{x};
    assert multiset(left + [x] + right) == multiset(left) + multiset{x} + multiset(right);
    assert multiset(left + right) == multiset(left) + multiset(right);
    assert multiset(front) == all - multiset{x};
    assert multiset(left + right) == all - multiset{x};
  }

  /** The elements of `xs` that satisfy `p`, in order. */
  function Filter<A>(p: A -> bool, xs: seq<A>): (ys: seq<A>)
    ensures |ys| <= |xs|
  {
    if xs == [] then [] else
      var last := xs[|xs| - 1];
      Filter(p, xs[..|xs| - 1]) + (if p(last) then [last] else [])
  }

  lemma FilterStep<A>(p: A -> bool, xs: seq<A>, i: nat)
    requires i < |xs|
    ensures Filter(p, xs[..i + 1]) == Filter(p, xs[..i]) + (if p(xs[i]) then [xs[i]] else [])
  {
    assert xs[..i + 1][..i] == xs[..i];
  }

  lemma {:induction false} FilterHolds<A>(p: A -> bool, xs: seq<A>)
    ensures forall i :: 0 <= i < |Filter(p, xs)| ==> p(Filter(p, xs)[i])
    decreases |xs|
  {
    if xs != [] {
      FilterHolds(p, xs[..|xs| - 1]);
    }
  }

  lemma {:induction false} FilterNone<A>(p: A -> bool, xs: seq<A>)
    requires forall i :: 0 <= i < |xs| ==> !p(xs[i])
    ensures Filter(p, xs) == []
    decreases |xs|
  {
    if xs != [] {
      var front := xs[..|xs| - 1];
      assert forall i :: 0 <= i < |front| ==> !p(front[i]) by {
        forall i | 0 <= i < |front| ensures !p(front[i]) {
          assert front[i] == xs[i];
        }
      }
      FilterNone(p, front);
    }
  }

  /** `Filter` keeps every satisfying element as often as `xs` holds it and drops the others. */
  lemma {:induction false} FilterCount<A>(p: A -> bool, xs: seq<A>, x: A)
    ensures multiset(Filter(p, xs))[x] == if p(x) then multiset(xs)[x] else 0
    decreases |xs|
  {
    if xs != [] {
      var front := xs[..|xs| - 1];
      assert xs == front + [xs[|xs| - 1]];
      FilterCount(p, front, x);
    }
  }

  /** The concatenation of `f(x)` over the elements of `xs`, in order. */
  function FlatMap<A, B>(f: A -> seq<B>, xs: seq<A>): seq<B>
  {
    if xs == [] then [] else FlatMap(f, xs[..|xs| - 1]) + f(xs[|xs| - 1])
  }

  lemma FlatMapStep<A, B>(f: A -> seq<B>, xs: seq<A>, i: nat)
    requires i < |xs|
    ensures FlatMap(f, xs[..i + 1]) == FlatMap(f, xs[..i]) + f(xs[i])
  {
    assert xs[..i + 1][..i] == xs[..i];
  }

  /** Nothing is produced when no element produces anything. */
  lemma {:induction false} FlatMapEmpty<A, B>(f: A -> seq<B>, xs: seq<A>)
    requires forall i :: 0 <= i < |xs| ==> f(xs[i]) == []
    ensures FlatMap(f, xs) == []
    decreases |xs|
  {
    if xs != [] {
      var front := xs[..|xs| - 1];
      assert forall i :: 0 <= i < |front| ==> f(front[i]) == [] by {
        forall i | 0 <= i < |front| ensures f(front[i]) == [] {
          assert front[i] == xs[i];
        }
      }
      FlatMapEmpty(f, front);
    }
  }

  /** The values `f` gives for the elements of `xs`, where it gives one. */
  function Collect<A, B>(f: A -> Option<B>, xs: seq<A>): set<B>
  {
    if xs == [] then {} else
      var r := f(xs[|xs| - 1]);
      Collect(f, xs[..|xs| - 1]) + (if r.Some? then {r.value} else {})
  }

  lemma CollectStep<A, B>(f: A -> Option<B>, xs: seq<A>, i: nat)
    requires i < |xs|
    ensures Collect(f, xs[..i + 1]) == Collect(f, xs[..i]) + (if f(xs[i]).Some? then {f(xs[i]).value} else {})
  {
    assert xs[..i + 1][..i] == xs[..i];
  }

  /** `y` is collected exactly when some element gives it. */
  lemma {:induction false} CollectIff<A, B>(f: A -> Option<B>, xs: seq<A>, y: B)
    ensures y in Collect(f, xs) <==> exists j :: 0 <= j < |xs| && f(xs[j]) == Some(y)
    decreases |xs|
  {
    if xs != [] {
      var front := xs[..|xs| - 1];
      CollectIff(f, front, y);
      if exists j :: 0 <= j < |xs| && f(xs[j]) == Some(y) {
        var j :| 0 <= j < |xs| && f(xs[j]) == Some(y);
        if j < |xs| - 1 {
          assert front[j] == xs[j];
        }
      }
      if exists j :: 0 <= j < |front| && f(front[j]) == Some(y) {
        var j :| 0 <= j < |front| && f(front[j]) == Some(y);
        assert xs[j] == front[j];
      }
    }
  }
}
