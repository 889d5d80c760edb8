/** The three `Array.prototype` operations the plugin relies on
    (`find`, `indexOf` and `splice`), over immutable sequences. Arrays are
    assumed to hold no `undefined` entries, so that `indexOf(undefined)`
    finds nothing. */
module JsArray {
  import opened Wrappers

  /** `s.find(p)`: the first element satisfying `p`, or `undefined`. */
  function Find<T>(s: seq<T>, p: T -> bool): (r: Option<T>)
    ensures r.Some? ==> r.value in s && p(r.value)
    ensures r.Some? ==> exists i :: 0 <= i < |s| && s[i] == r.value && forall j :: 0 <= j < i ==> !p(s[j])
    ensures r.None? <==> forall x :: x in s ==> !p(x)
  {
    if s == [] then None
    else if p(s[0]) then Some(s[0])
    else Find(s[1..], p)
  }

  /** `s.indexOf(x)`: the first index holding `x`, or -1; looking for
      `undefined` (None) yields -1. */
  function IndexOf<T(==)>(s: seq<T>, x: Option<T>): (i: int)
    ensures -1 <= i < |s|
    ensures i == -1 <==> x.None? || x.value !in s
    ensures i >= 0 ==> x == Some(s[i]) && forall j :: 0 <= j < i ==> s[j] != x.value
  {
    if x.None? || s == [] then -1
    else if s[0] == x.value then 0
    else
      var k := IndexOf(s[1..], x);
      if k == -1 then -1 else k + 1
  }

  /** The index at which `splice(start, …)` begins: a negative start counts
      back from the end, and the result is clamped to `[0, |s|]`. */
  function SpliceStart(len: nat, start: int): (k: nat)
    ensures k <= len
    ensures start < len ==> k < len || len == 0
  {
    if start < 0 then (if len + start < 0 then 0 else len + start)
    else if start > len then len
    else start
  }

  /** `s.splice(start, deleteCount)` as it affects the array (the removed
      elements it returns are not used here): the delete count is clamped
      to `[0, |s| - actualStart]`. The result keeps elements of `s` only,
      is never longer, is `s` itself when nothing is to be deleted, and is
      strictly shorter when a positive count meets a start before the end
      of a nonempty array (a negative start always is). */
  function Splice<T>(s: seq<T>, start: int, deleteCount: int): (r: seq<T>)
    ensures |r| <= |s|
    ensures forall x :: x in r ==> x in s
    ensures deleteCount <= 0 ==> r == s
    ensures s != [] && start < |s| && deleteCount >= 1 ==> |r| < |s|
  {
    var k := SpliceStart(|s|, start);
    var n := if deleteCount < 0 then 0 else if deleteCount > |s| - k then |s| - k else deleteCount;
    s[..k] + s[k + n..]
  }

  /** `indexOf(find(p))` is the index `find` stopped at: the first index
      whose element satisfies `p`, or -1 when none does. */
  lemma {:induction false} IndexOfFind<T>(s: seq<T>, p: T -> bool)
    ensures var i := IndexOf(s, Find(s, p));
      -1 <= i < |s| &&
      (i == -1 <==> forall x :: x in s ==> !p(x)) &&
      (i >= 0 ==> p(s[i]) && forall j :: 0 <= j < i ==> !p(s[j]))
  {
    if s != [] && !p(s[0]) {
      IndexOfFind(s[1..], p);
      var r := Find(s[1..], p);
      if r.Some? {
        assert s[0] != r.value;
      }
    }
  }

  /** Removing one element at a valid index leaves the others in order. */
  lemma SpliceOne<T>(s: seq<T>, i: int)
    requires 0 <= i < |s|
    ensures Splice(s, i, 1) == s[..i] + s[i + 1..]
    ensures |Splice(s, i, 1)| == |s| - 1
  {
  }

  /** `splice(-1, n)` with `n >= 1` removes the last element only, and does
      nothing to an empty array. */
  lemma SpliceMinusOne<T>(s: seq<T>, n: int)
    requires n >= 1
    ensures s == [] ==> Splice(s, -1, n) == []
    ensures s != [] ==> Splice(s, -1, n) == s[..|s| - 1]
  {
  }

  /** `splice(i, |s| - i)` truncates the array to its first `i` elements. */
  lemma SpliceToEnd<T>(s: seq<T>, i: int)
    requires 0 <= i <= |s|
    ensures Splice(s, i, |s| - i) == s[..i]
  {
  }
}
