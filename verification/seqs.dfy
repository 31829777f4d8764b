/** Sequence helpers shared by the router and the vector store. */
module Seqs {

  /** `a` can be obtained from `b` by deleting elements: order is kept. */
  ghost predicate SubsequenceOf<T>(a: seq<T>, b: seq<T>)
    decreases |b|
  {
    a == [] || (b != [] && ((a[0] == b[0] && SubsequenceOf(a[1..], b[1..])) || SubsequenceOf(a, b[1..])))
  }

  /** `Array.prototype.filter`: the elements that satisfy `keep`, in their original order. */
  function Filter<T(!new)>(s: seq<T>, keep: T -> bool): (r: seq<T>)
    ensures forall x :: x in r <==> x in s && keep(x)
    ensures forall i :: 0 <= i < |r| ==> keep(r[i])
    ensures |r| <= |s|
    ensures SubsequenceOf(r, s)
  {
    if s == [] then []
    else if keep(s[0]) then [s[0]] + Filter(s[1..], keep)
    else Filter(s[1..], keep)
  }

  /** Filtering with a predicate that every element meets keeps the whole sequence. */
  lemma {:induction false} FilterAll<T(!new)>(s: seq<T>, keep: T -> bool)
    requires forall i :: 0 <= i < |s| ==> keep(s[i])
    ensures Filter(s, keep) == s
  {
    if s != [] {
      FilterAll(s[1..], keep);
    }
  }

  /** Filtering distributes over concatenation. */
  lemma {:induction false} FilterAppend<T(!new)>(a: seq<T>, b: seq<T>, keep: T -> bool)
    ensures Filter(a + b, keep) == Filter(a, keep) + Filter(b, keep)
  {
    if a == [] {
      assert a + b == b;
    } else {
      assert (a + b)[1..] == a[1..] + b;
      FilterAppend(a[1..], b, keep);
    }
  }

  /** `Array.prototype.slice(0, k)` for an integer `k`: a negative `k` counts from the end. */
  function SliceEnd(len: nat, k: int): (n: nat)
    ensures n <= len
    ensures k >= 0 ==> n == if k < len then k else len
    ensures k < 0 ==> n == if len + k > 0 then len + k else 0
  {
    if k >= 0 then (if k < len then k else len)
    else if len + k > 0 then len + k else 0
  }
}
