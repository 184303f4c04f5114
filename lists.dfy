/** Sequence operations shared by the grouping and service-list code. */
module Lists {

  /** No element occurs twice. */
  predicate NoDuplicates<T(==)>(xs: seq<T>)
  {
    forall i, j :: 0 <= i < j < |xs| ==> xs[i] != xs[j]
  }

  /**
   * The elements of `xs`, each once, in the order of their first
   * occurrence: the order in which a Python dict or list built by
   * "append if not yet present" holds them.
   */
  function Distinct<T(==,!new)>(xs: seq<T>): (r: seq<T>)
    ensures forall x :: x in r <==> x in xs
    ensures NoDuplicates(r)
    ensures |r| <= |xs|
  {
    if xs == [] then []
    else
      var init, last := xs[..|xs| - 1], xs[|xs| - 1];
      assert xs == init + [last];
      var seen := Distinct(init);
      if last in seen then seen else seen + [last]
  }

  /** The elements of `xs` that belong to `allowed`, in their order. */
  function KeepIn<T(==,!new)>(xs: seq<T>, allowed: set<T>): (r: seq<T>)
    ensures forall x :: x in r <==> x in xs && x in allowed
    ensures |r| <= |xs|
  {
    if xs == [] then []
    else
      var init, last := xs[..|xs| - 1], xs[|xs| - 1];
      assert xs == init + [last];
      var kept := KeepIn(init, allowed);
      if last in allowed then kept + [last] else kept
  }

  /** Appending elements never reorders what Distinct already produced: first occurrence decides the position. */
  lemma {:induction false} DistinctExtends<T(!new)>(xs: seq<T>, ys: seq<T>)
    ensures Distinct(xs) <= Distinct(xs + ys)
  {
    if ys == [] {
      assert xs + ys == xs;
    } else {
      var init, last := ys[..|ys| - 1], ys[|ys| - 1];
      DistinctExtends(xs, init);
      assert (xs + ys)[..|xs + ys| - 1] == xs + init;
      assert (xs + ys)[|xs + ys| - 1] == last;
    }
  }

  /** Distinct leaves a sequence without duplicates as it is. */
  lemma {:induction false} DistinctOfDistinct<T(!new)>(xs: seq<T>)
    requires NoDuplicates(xs)
    ensures Distinct(xs) == xs
  {
    if xs != [] {
      var init, last := xs[..|xs| - 1], xs[|xs| - 1];
      assert NoDuplicates(init);
      DistinctOfDistinct(init);
      assert last !in init by {
        forall i | 0 <= i < |init| ensures init[i] != last {
          assert xs[i] == init[i];
        }
      }
    }
  }

  /** Appending one element to the input of Distinct-after-KeepIn appends it to the output when it is allowed and new. */
  lemma DistinctKeepInAppend<T(!new)>(xs: seq<T>, x: T, allowed: set<T>)
    ensures var before := Distinct(KeepIn(xs, allowed));
            Distinct(KeepIn(xs + [x], allowed)) == if x !in before && x in allowed then before + [x] else before
  {
    assert (xs + [x])[..|xs|] == xs;
    if x in allowed {
      assert KeepIn(xs + [x], allowed) == KeepIn(xs, allowed) + [x];
      assert (KeepIn(xs, allowed) + [x])[..|KeepIn(xs, allowed)|] == KeepIn(xs, allowed);
    }
  }

  /** Taking one more element of a sequence appends that element. */
  lemma TakeOneMore<T>(xs: seq<T>, i: nat)
    requires i < |xs|
    ensures xs[..i + 1] == xs[..i] + [xs[i]]
  {
  }

  /** In a sequence without duplicates, no element occurs before its own position. */
  lemma NotBefore<T>(xs: seq<T>, i: nat)
    requires NoDuplicates(xs) && i < |xs|
    ensures xs[i] !in xs[..i]
  {
    forall k | 0 <= k < i ensures xs[..i][k] != xs[i] {
      assert xs[..i][k] == xs[k];
    }
  }
}
