/** The JavaScript array operations the server uses (`find`, `filter`), with
    their specifications. */
module Arrays {
  import opened Wrappers

  /** `i` is the first index of `s` whose element satisfies `p`. */
  predicate IsFirstAt<T>(s: seq<T>, p: T -> bool, i: nat) {
    i < |s| && p(s[i]) && forall j :: 0 <= j < i ==> !p(s[j])
  }

  /** The index of the element `s.find(p)` returns, or None when no element
      satisfies `p`. */
  function FirstIndex<T>(s: seq<T>, p: T -> bool): (r: Option<nat>)
    ensures r.None? <==> forall j :: 0 <= j < |s| ==> !p(s[j])
    ensures r.Some? ==> IsFirstAt(s, p, r.value)
    decreases |s|
  {
    if |s| == 0 then None
    else if p(s[0]) then Some(0)
    else match FirstIndex(s[1..], p)
      case None => None
      case Some(i) => Some(i + 1)
  }

  /** The first index is unique. */
  lemma FirstAtUnique<T>(s: seq<T>, p: T -> bool, i: nat, j: nat)
    requires IsFirstAt(s, p, i) && IsFirstAt(s, p, j)
    ensures i == j
  {
  }

  /** `a` keeps some of the elements of `b`, in their order. */
  predicate IsSubsequence<T(==)>(a: seq<T>, b: seq<T>)
    decreases |b|
  {
    |a| == 0
    || (|b| > 0
        && ((a[0] == b[0] && IsSubsequence(a[1..], b[1..])) || IsSubsequence(a, b[1..])))
  }
}
