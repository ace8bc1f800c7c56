/**
 * Sequence helpers for the list manipulations of the planner: the two list
 * comprehensions "members of xs that are (not) in ys" and the duplicate
 * removal `list(set(xs))`.
 */
module Lists {

  predicate NoDup<T(==)>(xs: seq<T>) {
    forall i, j :: 0 <= i < j < |xs| ==> xs[i] != xs[j]
  }

  function Elems<T>(xs: seq<T>): set<T> {
    set x | x in xs
  }

  lemma NonEmptyHasMember<T>(xs: seq<T>)
    ensures xs != [] ==> xs[0] in xs
  {
  }

  /** `[x for x in xs if x not in ys]`, in the order of `xs`. */
  function Missing<T(==)>(xs: seq<T>, ys: seq<T>): seq<T>
    decreases |xs|
  {
    if xs == [] then []
    else
      var last := xs[|xs| - 1];
      Missing(xs[..|xs| - 1], ys) + (if last in ys then [] else [last])
  }

  /** `[x for x in xs if x in ys]`, in the order of `xs`. */
  function Common<T(==)>(xs: seq<T>, ys: seq<T>): seq<T>
    decreases |xs|
  {
    if xs == [] then []
    else
      var last := xs[|xs| - 1];
      Common(xs[..|xs| - 1], ys) + (if last in ys then [last] else [])
  }

  /** Extending the scanned prefix by one element (the loop step). */
  lemma MissingSnoc<T>(xs: seq<T>, i: nat, ys: seq<T>)
    requires i < |xs|
    ensures Missing(xs[..i + 1], ys) == Missing(xs[..i], ys) + (if xs[i] in ys then [] else [xs[i]])
  {
    assert xs[..i + 1][..i] == xs[..i];
  }

  lemma CommonSnoc<T>(xs: seq<T>, i: nat, ys: seq<T>)
    requires i < |xs|
    ensures Common(xs[..i + 1], ys) == Common(xs[..i], ys) + (if xs[i] in ys then [xs[i]] else [])
  {
    assert xs[..i + 1][..i] == xs[..i];
  }

  lemma {:induction false} MissingMembers<T>(xs: seq<T>, ys: seq<T>)
    ensures forall x :: x in Missing(xs, ys) <==> x in xs && x !in ys
    decreases |xs|
  {
    if xs != [] {
      MissingMembers(xs[..|xs| - 1], ys);
      assert xs == xs[..|xs| - 1] + [xs[|xs| - 1]];
    }
  }

  lemma {:induction false} CommonMembers<T>(xs: seq<T>, ys: seq<T>)
    ensures forall x :: x in Common(xs, ys) <==> x in xs && x in ys
    decreases |xs|
  {
    if xs != [] {
      CommonMembers(xs[..|xs| - 1], ys);
      assert xs == xs[..|xs| - 1] + [xs[|xs| - 1]];
    }
  }

  /** Nothing is missing exactly when every member of `xs` is in `ys`. */
  lemma MissingEmpty<T>(xs: seq<T>, ys: seq<T>)
    ensures Missing(xs, ys) == [] <==> forall x :: x in xs ==> x in ys
  {
    MissingMembers(xs, ys);
    if Missing(xs, ys) != [] {
      assert Missing(xs, ys)[0] in Missing(xs, ys);
    }
  }

  lemma CommonEmpty<T>(xs: seq<T>, ys: seq<T>)
    ensures Common(xs, ys) == [] <==> forall x :: x in xs ==> x !in ys
  {
    CommonMembers(xs, ys);
    if Common(xs, ys) != [] {
      assert Common(xs, ys)[0] in Common(xs, ys);
    }
  }

  /** A duplicate-free list whose only member is `v` is `[v]`. */
  lemma SingletonOf<T>(xs: seq<T>, v: T)
    requires NoDup(xs)
    requires forall x :: x in xs <==> x == v
    ensures xs == [v]
  {
    assert v in xs;
    assert xs[0] == v by { assert xs[0] in xs; }
    var rest := xs[1..];
    assert v !in rest by {
      forall k | 0 <= k < |rest| ensures rest[k] != xs[0] {
        assert rest[k] == xs[k + 1];
      }
    }
    assert forall x :: x in rest ==> x in xs;
    NonEmptyHasMember(rest);
    assert xs == [xs[0]] + rest;
  }

  /** When every member of `xs` is in `ys`, the comprehension keeps all of `xs`, in order. */
  lemma {:induction false} CommonAll<T>(xs: seq<T>, ys: seq<T>)
    requires forall x :: x in xs ==> x in ys
    ensures Common(xs, ys) == xs
    decreases |xs|
  {
    if xs != [] {
      var init := xs[..|xs| - 1];
      assert forall x :: x in init ==> x in xs;
      CommonAll(init, ys);
      assert xs == init + [xs[|xs| - 1]];
    }
  }

  /** The two comprehensions split `xs`: together they hold each element exactly as often as `xs`. */
  lemma {:induction false} CommonMissingPartition<T>(xs: seq<T>, ys: seq<T>)
    ensures multiset(Common(xs, ys)) + multiset(Missing(xs, ys)) == multiset(xs)
    ensures |Common(xs, ys)| + |Missing(xs, ys)| == |xs|
    decreases |xs|
  {
    if xs != [] {
      var init, last := xs[..|xs| - 1], xs[|xs| - 1];
      CommonMissingPartition(init, ys);
      assert xs == init + [last];
      assert multiset(xs) == multiset(init) + multiset{last};
      if last in ys {
        assert Common(xs, ys) == Common(init, ys) + [last];
        assert Missing(xs, ys) == Missing(init, ys);
      } else {
        assert Common(xs, ys) == Common(init, ys);
        assert Missing(xs, ys) == Missing(init, ys) + [last];
      }
    }
  }

  /** `list(set(xs))`: each element of `xs` once; the order is not part of the contract. */
  function Distinct<T(==)>(xs: seq<T>): (r: seq<T>)
    ensures NoDup(r)
    ensures Elems(r) == Elems(xs)
    decreases |xs|
  {
    if xs == [] then []
    else
      var rest := Distinct(xs[..|xs| - 1]);
      var last := xs[|xs| - 1];
      assert xs == xs[..|xs| - 1] + [last];
      assert Elems(xs) == Elems(xs[..|xs| - 1]) + {last};
      if last in rest then rest
      else
        assert Elems(rest + [last]) == Elems(rest) + {last};
        rest + [last]
  }
}
