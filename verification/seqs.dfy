/**
 * First-match search by an integer key: the `Array.prototype.find` and
 * `findIndex` calls the store and the services make with `x.id === id`.
 */
module Seqs {
  import opened Wrappers

  /** `r` is what `find` returns: the first element whose key is `v`, or nothing when no key is `v`. */
  ghost predicate IsFirstWith<T>(xs: seq<T>, key: T -> int, v: int, r: Option<T>) {
    match r
    case None => forall i :: 0 <= i < |xs| ==> key(xs[i]) != v
    case Some(x) =>
      exists k :: 0 <= k < |xs| && xs[k] == x && key(x) == v && forall i :: 0 <= i < k ==> key(xs[i]) != v
  }

  /** `findIndex`: the index of the first element whose key is `v`; None stands for -1. */
  function FirstIndexWith<T>(xs: seq<T>, key: T -> int, v: int): (r: Option<nat>)
    ensures r.Some? ==> r.value < |xs| && key(xs[r.value]) == v
    ensures r.Some? ==> forall i :: 0 <= i < r.value ==> key(xs[i]) != v
    ensures r.None? <==> forall i :: 0 <= i < |xs| ==> key(xs[i]) != v
  {
    if |xs| == 0 then None
    else if key(xs[0]) == v then Some(0)
    else match FirstIndexWith(xs[1..], key, v)
      case None => None
      case Some(k) => Some(k + 1)
  }

  /** `find`: the first element whose key is `v`. */
  function FirstWith<T>(xs: seq<T>, key: T -> int, v: int): (r: Option<T>)
    ensures IsFirstWith(xs, key, v, r)
  {
    match FirstIndexWith(xs, key, v)
    case None => None
    case Some(k) => Some(xs[k])
  }

  /** Any value satisfying `IsFirstWith` is the one `FirstWith` computes. */
  lemma FirstWithDetermined<T>(xs: seq<T>, key: T -> int, v: int, r: Option<T>)
    requires IsFirstWith(xs, key, v, r)
    ensures r == FirstWith(xs, key, v)
  {
    if r.Some? {
      var k :| 0 <= k < |xs| && xs[k] == r.value && key(r.value) == v && forall i :: 0 <= i < k ==> key(xs[i]) != v;
      assert key(xs[k]) == v;
    }
  }

  /** At most one value satisfies `IsFirstWith`, so it pins the result of `find` down. */
  lemma FirstWithUnique<T>(xs: seq<T>, key: T -> int, v: int, r1: Option<T>, r2: Option<T>)
    requires IsFirstWith(xs, key, v, r1) && IsFirstWith(xs, key, v, r2)
    ensures r1 == r2
  {
    FirstWithDetermined(xs, key, v, r1);
    FirstWithDetermined(xs, key, v, r2);
  }

  /** Two sequences whose keys agree position by position have their first match at the same index. */
  lemma {:induction false} FirstIndexSameKeys<T, U>(xs: seq<T>, kx: T -> int, ys: seq<U>, ky: U -> int, v: int)
    requires |xs| == |ys|
    requires forall i :: 0 <= i < |xs| ==> kx(xs[i]) == ky(ys[i])
    ensures FirstIndexWith(xs, kx, v) == FirstIndexWith(ys, ky, v)
    decreases |xs|
  {
    if |xs| > 0 && kx(xs[0]) != v {
      FirstIndexSameKeys(xs[1..], kx, ys[1..], ky, v);
    }
  }
}
