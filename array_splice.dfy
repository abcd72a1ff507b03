/**
 * JavaScript's `Array.prototype.splice(start, 1)`, the removal rule used by
 * both `DynamicForm.removeField` and the store's `removeForm`: a negative
 * start counts from the end (clamped at 0), a start past the end removes
 * nothing, and the call never fails.
 */
module ArraySplice {

  /** The index at which `splice(start, 1)` begins on an array of length `len`. */
  function SpliceStart(len: nat, start: int): (k: nat)
    ensures k <= len
  {
    if start < 0 then (if len + start < 0 then 0 else len + start)
    else if start < len then start
    else len
  }

  /** The array left behind by `s.splice(start, 1)`. */
  function Splice1<T>(s: seq<T>, start: int): (r: seq<T>)
    ensures |r| == if |s| > 0 && start < |s| then |s| - 1 else |s|
  {
    var k := SpliceStart(|s|, start);
    if k < |s| then s[..k] + s[k + 1..] else s
  }

  /** An index inside the array removes exactly that element and keeps the others in order. */
  lemma RemovesAt<T>(s: seq<T>, i: int)
    requires 0 <= i < |s|
    ensures |Splice1(s, i)| == |s| - 1
    ensures forall j :: 0 <= j < i ==> Splice1(s, i)[j] == s[j]
    ensures forall j :: i <= j < |s| - 1 ==> Splice1(s, i)[j] == s[j + 1]
    ensures Splice1(s, i)[..i] + [s[i]] + Splice1(s, i)[i..] == s
  {
    var r := Splice1(s, i);
    assert r == s[..i] + s[i + 1..];
    assert r[..i] == s[..i];
    assert r[i..] == s[i + 1..];
  }

  /** A negative index removes at `max(len + i, 0)`; on an empty array it removes nothing. */
  lemma NegativeStart<T>(s: seq<T>, i: int)
    requires i < 0
    ensures var k := if |s| + i < 0 then 0 else |s| + i;
            Splice1(s, i) == if s == [] then s else Splice1(s, k)
  {
  }

  /** An index at or past the end removes nothing. */
  lemma PastEnd<T>(s: seq<T>, i: int)
    requires |s| <= i
    ensures Splice1(s, i) == s
  {
  }

  /** Removal never adds elements: the result's multiset is that of `s` minus at most one element. */
  lemma {:induction false} SubMultiset<T>(s: seq<T>, i: int)
    ensures multiset(Splice1(s, i)) <= multiset(s)
    ensures |s| - 1 <= |Splice1(s, i)| <= |s|
  {
    var k := SpliceStart(|s|, i);
    if k < |s| {
      assert s == s[..k] + [s[k]] + s[k + 1..];
      assert multiset(s) == multiset(s[..k]) + multiset{s[k]} + multiset(s[k + 1..]);
    }
  }

  /** In an array without repeated elements, the removed element is no longer present. */
  lemma RemovedIsGone<T>(s: seq<T>, i: int)
    requires 0 <= i < |s|
    requires forall a, b :: 0 <= a < b < |s| ==> s[a] != s[b]
    ensures s[i] !in Splice1(s, i)
  {
  }
}
