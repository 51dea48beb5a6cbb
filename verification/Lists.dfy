/** Lists without duplicates, and an optional value. */
module Lists {

  datatype Option<+T> = None | Some(value: T)

  predicate Distinct<T(==)>(l: seq<T>) {
    forall i, j :: 0 <= i < j < |l| ==> l[i] != l[j]
  }

  /** list_del: the list without the first `x`. */
  function Without<T(==)>(l: seq<T>, x: T): (r: seq<T>)
    ensures x in l ==> |r| == |l| - 1
  {
    if l == [] then [] else if l[0] == x then l[1..] else [l[0]] + Without(l[1..], x)
  }

  lemma WithoutStep<T>(x: T, rest: seq<T>, z: T)
    ensures Without([x] + rest, z) == if x == z then rest else [x] + Without(rest, z)
  {
    assert ([x] + rest)[1..] == rest;
  }

  lemma {:induction false} WithoutOnce<T>(l: seq<T>, x: T)
    requires Distinct(l)
    ensures Distinct(Without(l, x)) && forall y :: y in Without(l, x) <==> y in l && y != x
  {
    if l != [] {
      WithoutOnce(l[1..], x);
      assert l == [l[0]] + l[1..];
      assert l[0] !in l[1..];
    }
  }
}
