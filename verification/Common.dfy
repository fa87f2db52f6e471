/** Vocabulary shared by every module: identifiers, results, and facts about lists without repetition. */
module Common {

  // The source's UUIDs. Only equality matters.
  type Id = nat

  // A directed edge.
  type Link = (Id, Id)

  datatype Option<+T> = None | Some(value: T)

  datatype Result<+T, +E> = Success(value: T) | Failure(error: E)

  ghost predicate NoDup<T>(xs: seq<T>) {
    forall i, j :: 0 <= i < j < |xs| ==> xs[i] != xs[j]
  }

  function Elements<T(!new)>(xs: seq<T>): (s: set<T>)
    ensures forall x :: x in s <==> x in xs
  {
    set x | x in xs
  }

  // A set's iteration order: any list of exactly its elements, each once.
  ghost predicate IsOrder<T(!new)>(order: set<T> -> seq<T>) {
    forall s :: NoDup(order(s)) && Elements(order(s)) == s
  }

  ghost predicate IsListing<T(!new)>(xs: seq<T>, s: set<T>) {
    NoDup(xs) && Elements(xs) == s
  }

  lemma {:induction false} ListingExists<T(!new)>(s: set<T>)
    ensures exists xs :: IsListing(xs, s)
  {
    if x :| x in s {
      ListingExists(s - {x});
      var xs :| IsListing(xs, s - {x});
      assert Elements(xs + [x]) == Elements(xs) + {x};
      assert IsListing(xs + [x], s);
    } else {
      assert IsListing([], s);
    }
  }

  ghost function Listing<T(!new)>(s: set<T>): (xs: seq<T>)
    ensures IsListing(xs, s)
  {
    ListingExists(s);
    var xs :| IsListing(xs, s);
    xs
  }

  // A supply of fresh identifiers: the n-th draw is supply(n), and no two draws agree.
  ghost predicate IsSupply(supply: nat -> Id) {
    forall m, n :: supply(m) == supply(n) ==> m == n
  }

  function Filter<T(!new)>(keep: T -> bool, xs: seq<T>): (ys: seq<T>)
    ensures forall y :: y in ys <==> y in xs && keep(y)
  {
    if xs == [] then [] else
    var init := Filter(keep, xs[..|xs| - 1]);
    assert xs == xs[..|xs| - 1] + [xs[|xs| - 1]];
    if keep(xs[|xs| - 1]) then init + [xs[|xs| - 1]] else init
  }

  lemma {:induction false} FilterConcat<T(!new)>(keep: T -> bool, xs: seq<T>, ys: seq<T>)
    ensures Filter(keep, xs + ys) == Filter(keep, xs) + Filter(keep, ys)
  {
    if ys == [] {
      assert xs + ys == xs;
    } else {
      var init := ys[..|ys| - 1];
      assert (xs + ys)[..|xs + ys| - 1] == xs + init;
      FilterConcat(keep, xs, init);
    }
  }

  lemma {:induction false} FilterAll<T(!new)>(keep: T -> bool, xs: seq<T>)
    requires forall x :: x in xs ==> keep(x)
    ensures Filter(keep, xs) == xs
  {
    if xs != [] {
      FilterAll(keep, xs[..|xs| - 1]);
    }
  }

  lemma {:induction false} FilterNone<T(!new)>(keep: T -> bool, xs: seq<T>)
    requires forall x :: x in xs ==> !keep(x)
    ensures Filter(keep, xs) == []
  {
    if xs != [] {
      FilterNone(keep, xs[..|xs| - 1]);
    }
  }

  lemma {:induction false} FilterKeepsDistinct<T(!new)>(keep: T -> bool, xs: seq<T>)
    requires NoDup(xs)
    ensures NoDup(Filter(keep, xs))
  {
    if xs != [] {
      FilterKeepsDistinct(keep, xs[..|xs| - 1]);
      NotTwice(xs);
    }
  }

  lemma {:induction false} NoDupCardinality<T(!new)>(xs: seq<T>)
    requires NoDup(xs)
    ensures |Elements(xs)| == |xs|
  {
    if xs != [] {
      var init, x := xs[..|xs| - 1], xs[|xs| - 1];
      NoDupCardinality(init);
      NotTwice(xs);
      assert xs == init + [x];
      assert Elements(xs) == Elements(init) + {x};
    }
  }

  lemma NotTwice<T(!new)>(xs: seq<T>)
    requires NoDup(xs) && xs != []
    ensures xs[|xs| - 1] !in xs[..|xs| - 1]
  {
  }
}
