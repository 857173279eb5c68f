/** Sequence helpers shared by the stores and the product listing. */
module Seqs {

  /**
   * The index of the first element whose key is `id`, or -1 when there is
   * none: what JavaScript's `Array.prototype.findIndex` returns for the
   * predicate `x => key(x) === id` (and the element `find` returns).
   */
  function FirstIndex<T>(s: seq<T>, key: T -> string, id: string): (i: int)
    ensures -1 <= i < |s|
    ensures 0 <= i ==> key(s[i]) == id
    ensures 0 <= i ==> forall j :: 0 <= j < i ==> key(s[j]) != id
    ensures i < 0 ==> forall j :: 0 <= j < |s| ==> key(s[j]) != id
  {
    if s == [] then -1
    else if key(s[0]) == id then 0
    else
      var k := FirstIndex(s[1..], key, id);
      if k < 0 then -1 else k + 1
  }

  /** The linear search behind `find` and `findIndex`. */
  method Find<T>(s: seq<T>, key: T -> string, id: string) returns (i: int)
    ensures i == FirstIndex(s, key, id)
  {
    i := 0;
    while i < |s| && key(s[i]) != id
      invariant 0 <= i <= |s|
      invariant forall j :: 0 <= j < i ==> key(s[j]) != id
    {
      i := i + 1;
    }
    if i == |s| {
      i := -1;
    }
  }

  /** `a` is obtained from `b` by deleting elements: relative order is kept. */
  ghost predicate IsSubsequence<T>(a: seq<T>, b: seq<T>)
    decreases |b|
  {
    if a == [] then true
    else if b == [] then false
    else (a[0] == b[0] && IsSubsequence(a[1..], b[1..])) || IsSubsequence(a, b[1..])
  }
}
