/** Ascending sort of an int array, as java.util.Arrays.sort(int[]) does it:
    the array ends up holding the unique ascending permutation of its old
    contents, specified by the function SortedCopy. */
module Sorting {

  predicate Ascending(s: seq<int>)
  {
    forall i, j :: 0 <= i < j < |s| ==> s[i] <= s[j]
  }

  /** Inserts x into an ascending sequence. */
  function Insert(x: int, s: seq<int>): (r: seq<int>)
    requires Ascending(s)
    ensures Ascending(r)
    ensures multiset(r) == multiset(s) + multiset{x}
  {
    if s == [] || x <= s[0] then [x] + s
    else
      var rest := Insert(x, s[1..]);
      assert s == [s[0]] + s[1..];
      assert forall k :: 0 <= k < |rest| ==> s[0] <= rest[k] by {
        forall k | 0 <= k < |rest|
          ensures s[0] <= rest[k]
        {
          assert rest[k] in multiset(rest);
          assert rest[k] in multiset(s[1..]) || rest[k] == x;
        }
      }
      [s[0]] + rest
  }

  /** The ascending permutation of s (insertion sort). */
  function SortedCopy(s: seq<int>): (r: seq<int>)
    ensures Ascending(r)
    ensures multiset(r) == multiset(s)
  {
    if s == [] then []
    else
      assert s == [s[0]] + s[1..];
      Insert(s[0], SortedCopy(s[1..]))
  }

  /** An ascending permutation is unique: two ascending sequences with the
      same elements are equal. */
  lemma {:induction false} AscendingPermutationUnique(x: seq<int>, y: seq<int>)
    requires Ascending(x) && Ascending(y) && multiset(x) == multiset(y)
    ensures x == y
  {
    if x == [] {
      assert |multiset(y)| == 0;
    } else {
      assert |y| == |multiset(y)| == |multiset(x)| == |x|;
      assert x[0] in multiset(y);
      assert y[0] in multiset(x);
      var k :| 0 <= k < |y| && y[k] == x[0];
      var l :| 0 <= l < |x| && x[l] == y[0];
      assert x[0] == y[0];
      assert x == [x[0]] + x[1..];
      assert y == [y[0]] + y[1..];
      assert multiset(x[1..]) == multiset(x) - multiset{x[0]};
      assert multiset(y[1..]) == multiset(y) - multiset{y[0]};
      AscendingPermutationUnique(x[1..], y[1..]);
    }
  }

  /** Any ascending permutation of s is SortedCopy(s). */
  lemma AscendingPermutationIsSortedCopy(x: seq<int>, s: seq<int>)
    requires Ascending(x) && multiset(x) == multiset(s)
    ensures x == SortedCopy(s)
  {
    AscendingPermutationUnique(x, SortedCopy(s));
  }

  /** Every element of SortedCopy(s) occurs in s. */
  lemma SortedCopyElement(s: seq<int>, k: nat)
    requires k < |SortedCopy(s)|
    ensures exists i :: 0 <= i < |s| && s[i] == SortedCopy(s)[k]
  {
    assert SortedCopy(s)[k] in multiset(SortedCopy(s));
    assert SortedCopy(s)[k] in multiset(s);
  }

  /** Sorting does not change the length. */
  lemma SortedCopyLength(s: seq<int>)
    ensures |SortedCopy(s)| == |s|
  {
    assert |multiset(SortedCopy(s))| == |multiset(s)|;
  }

  /** Sorts `a` in place, ascending (insertion sort). */
  method Sort(a: array<int>)
    modifies a
    ensures a[..] == SortedCopy(old(a[..]))
  {
    var i := 0;
    while i < a.Length
      invariant 0 <= i <= a.Length
      invariant forall p, q :: 0 <= p < q < i ==> a[p] <= a[q]
      invariant multiset(a[..]) == multiset(old(a[..]))
    {
      var j := i;
      while j > 0 && a[j - 1] > a[j]
        invariant 0 <= j <= i
        invariant forall p, q :: 0 <= p < q <= i && q != j ==> a[p] <= a[q]
        invariant multiset(a[..]) == multiset(old(a[..]))
      {
        a[j - 1], a[j] := a[j], a[j - 1];
        j := j - 1;
      }
      i := i + 1;
    }
    AscendingPermutationIsSortedCopy(a[..], old(a[..]));
  }
}
