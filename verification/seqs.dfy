/** Small facts about sequences used by the two map-backed stores. */
module Seqs {

  /** No element occurs twice. */
  ghost predicate Distinct<T>(xs: seq<T>)
  {
    forall i, j :: 0 <= i < j < |xs| ==> xs[i] != xs[j]
  }

  /** `xs` with every occurrence of `x` removed, the rest in their original order. */
  function Without<T(==)>(xs: seq<T>, x: T): seq<T>
  {
    if xs == [] then []
    else if xs[0] == x then Without(xs[1..], x)
    else [xs[0]] + Without(xs[1..], x)
  }

  /** `Without` removes `x` and nothing else, and keeps a duplicate-free sequence duplicate-free. */
  lemma {:induction false} WithoutRemovesExactly<T>(xs: seq<T>, x: T)
    ensures forall y :: y in Without(xs, x) <==> y in xs && y != x
    ensures Distinct(xs) ==> Distinct(Without(xs, x))
    ensures x !in xs ==> Without(xs, x) == xs
  {
    if xs != [] {
      WithoutRemovesExactly(xs[1..], x);
      assert xs == [xs[0]] + xs[1..];
      if Distinct(xs) {
        assert Distinct(xs[1..]) && xs[0] !in xs[1..] by {
          forall i, j | 0 <= i < j < |xs[1..]| ensures xs[1..][i] != xs[1..][j] {
            assert xs[1..][i] == xs[i + 1] && xs[1..][j] == xs[j + 1];
          }
          forall j | 0 <= j < |xs[1..]| ensures xs[1..][j] != xs[0] {
            assert xs[1..][j] == xs[j + 1];
          }
        }
      }
    }
  }

  lemma DistinctAppend<T>(xs: seq<T>, x: T)
    requires Distinct(xs) && x !in xs
    ensures Distinct(xs + [x])
  {
  }

  /** Removing the head of a duplicate-free sequence leaves its tail. */
  lemma WithoutHead<T>(xs: seq<T>)
    requires Distinct(xs) && xs != []
    ensures Without(xs, xs[0]) == xs[1..]
  {
    assert xs[0] !in xs[1..] by {
      forall j | 0 <= j < |xs[1..]| ensures xs[1..][j] != xs[0] {
        assert xs[1..][j] == xs[j + 1];
      }
    }
    WithoutRemovesExactly(xs[1..], xs[0]);
  }
}
