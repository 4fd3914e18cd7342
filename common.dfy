/** Small helpers shared by the game modules. */
module Common {

  /** A value that may be absent (the source's `T | null`). */
  datatype Option<+T> = None | Some(value: T)

  function Min(a: int, b: int): (m: int)
    ensures m <= a && m <= b && (m == a || m == b)
  {
    if a <= b then a else b
  }

  /** No element occurs twice. */
  predicate Distinct<T(==)>(s: seq<T>)
  {
    forall i, j :: 0 <= i < j < |s| ==> s[i] != s[j]
  }

  /** The values occurring in `s`. */
  function Elements(s: seq<int>): (e: set<int>)
    ensures forall x :: x in e <==> x in s
  {
    set x | x in s
  }

  /** Appending a value adds exactly that value to the elements. */
  lemma ElementsAppend(s: seq<int>, x: int)
    ensures Elements(s + [x]) == Elements(s) + {x}
  {
  }

  /** Distinct indices into a list of `n` items number at most `n`. */
  lemma {:induction false} DistinctIndicesBounded(s: seq<int>, n: nat)
    requires Distinct(s)
    requires forall k :: 0 <= k < |s| ==> 0 <= s[k] < n
    ensures |s| <= n
    decreases n
  {
    if |s| > 0 {
      assert 0 <= s[0] < n;
    }
    if n > 0 {
      // drop the occurrence of n - 1, if any, and recurse on the rest
      var rest := RemoveValue(s, n - 1);
      DistinctIndicesBounded(rest, n - 1);
    }
  }

  /** `s` without the value `v`; at most one element shorter when `s` is distinct. */
  function RemoveValue(s: seq<int>, v: int): (r: seq<int>)
    requires Distinct(s)
    ensures Distinct(r)
    ensures forall k :: 0 <= k < |r| ==> r[k] != v && r[k] in s
    ensures |r| + 1 >= |s|
  {
    if s == [] then []
    else if s[0] == v then
      assert forall k :: 0 <= k < |s[1..]| ==> s[1..][k] != v;
      s[1..]
    else
      var tail := RemoveValue(s[1..], v);
      assert s[0] !in s[1..];
      [s[0]] + tail
  }

  /**
   * The end position of JavaScript's `s.slice(0, end)` on a list of
   * `length` items: a negative `end` counts from the back.
   */
  function JsSliceEnd(length: nat, end: int): (e: nat)
    ensures e <= length
    ensures 0 <= end ==> e == Min(end, length)
    ensures end < 0 ==> e == if length + end > 0 then length + end else 0
  {
    if end >= 0 then Min(end, length)
    else if length + end > 0 then length + end
    else 0
  }

  /** JavaScript's `findIndex`: the first position whose item satisfies `p`. */
  function FirstIndex<T>(s: seq<T>, p: T -> bool): (r: Option<nat>)
    ensures r.Some? ==> r.value < |s| && p(s[r.value]) && forall k :: 0 <= k < r.value ==> !p(s[k])
    ensures r.None? ==> forall k :: 0 <= k < |s| ==> !p(s[k])
  {
    if s == [] then None
    else if p(s[0]) then Some(0)
    else match FirstIndex(s[1..], p)
      case None => None
      case Some(i) => Some(i + 1)
  }
}
