/** The cluster contingency table that both evaluation measures read.

    Rows 0 .. size1-1 are the clusters of the first clustering, columns
    0 .. size2-1 those of the second; cell (i, j) counts the elements in both.
    The extra row `size1` holds the column totals, the extra column `size2`
    the row totals, and cell (size1, size2) the number of elements.  The
    measures only ever read the table. */
module ContingencyTables {

  function Min(a: int, b: int): int { if a <= b then a else b }

  function Max(a: int, b: int): int { if a >= b then a else b }

  /** Sum of a sequence of integers. */
  function Sum(s: seq<int>): int
  {
    if s == [] then 0 else s[0] + Sum(s[1..])
  }

  predicate NonNegative(s: seq<int>)
  {
    forall k :: 0 <= k < |s| ==> s[k] >= 0
  }

  datatype ClusterContingencyTable = ClusterContingencyTable(size1: nat, size2: nat, contingency: seq<seq<int>>)
  {
    /** (size1 + 1) rows of (size2 + 1) cells each. */
    predicate Shaped()
    {
      |contingency| == size1 + 1 &&
      forall i :: 0 <= i < |contingency| ==> |contingency[i]| == size2 + 1
    }

    /** Size of cluster i of the first clustering. */
    function RowMarginal(i: nat): int
      requires Shaped() && i < size1
    {
      contingency[i][size2]
    }

    /** Size of cluster j of the second clustering. */
    function ColMarginal(j: nat): int
      requires Shaped() && j < size2
    {
      contingency[size1][j]
    }

    /** The number of elements. */
    function Total(): int
      requires Shaped()
    {
      contingency[size1][size2]
    }

    function Row(i: nat): seq<int>
      requires Shaped() && i < size1
    {
      contingency[i][..size2]
    }

    function Column(j: nat): seq<int>
      requires Shaped() && j < size2
    {
      seq(size1, i requires 0 <= i < size1 => contingency[i][j])
    }

    function RowMarginals(): (r: seq<int>)
      requires Shaped()
      ensures |r| == size1 && forall i :: 0 <= i < size1 ==> r[i] == RowMarginal(i)
    {
      seq(size1, i requires 0 <= i < size1 => contingency[i][size2])
    }

    function ColMarginals(): (r: seq<int>)
      requires Shaped()
      ensures |r| == size2 && forall j :: 0 <= j < size2 ==> r[j] == ColMarginal(j)
    {
      contingency[size1][..size2]
    }

    /** What the table's producer guarantees: counts are non-negative, every
        marginal is the sum of its row or column, and the grand total is the
        sum of the row marginals and of the column marginals. */
    predicate Consistent()
    {
      Shaped() &&
      (forall i, j :: 0 <= i < size1 && 0 <= j < size2 ==> contingency[i][j] >= 0) &&
      (forall i :: 0 <= i < size1 ==> RowMarginal(i) == Sum(Row(i))) &&
      (forall j :: 0 <= j < size2 ==> ColMarginal(j) == Sum(Column(j))) &&
      Total() == Sum(RowMarginals()) &&
      Total() == Sum(ColMarginals())
    }
  }

  lemma {:induction false} SumNonNegative(s: seq<int>)
    requires NonNegative(s)
    ensures Sum(s) >= 0
  {
    if s != [] {
      SumNonNegative(s[1..]);
    }
  }

  /** One summand of a non-negative sum is at most the sum. */
  lemma {:induction false} ElementAtMostSum(s: seq<int>, k: nat)
    requires NonNegative(s) && k < |s|
    ensures s[k] <= Sum(s)
  {
    if k == 0 {
      SumNonNegative(s[1..]);
    } else {
      ElementAtMostSum(s[1..], k - 1);
    }
  }

  lemma {:induction false} SumConcat(a: seq<int>, b: seq<int>)
    ensures Sum(a + b) == Sum(a) + Sum(b)
  {
    if a == [] {
      assert a + b == b;
    } else {
      assert (a + b)[1..] == a[1..] + b;
      SumConcat(a[1..], b);
    }
  }

  lemma SumOfTwo(a: int, b: int)
    ensures Sum([a, b]) == a + b
  {
    assert [a, b][1..] == [b];
    assert [b][1..] == [];
    assert Sum([b]) == b;
  }

  lemma SumOfThree(a: int, b: int, c: int)
    ensures Sum([a, b, c]) == a + b + c
  {
    assert [a, b, c][1..] == [b, c];
    SumOfTwo(b, c);
  }

  /** A prefix of a non-negative sequence sums to at most the whole. */
  lemma SumPrefixAtMost(s: seq<int>, k: nat)
    requires NonNegative(s) && k <= |s|
    ensures Sum(s[..k]) <= Sum(s)
  {
    assert s == s[..k] + s[k..];
    SumConcat(s[..k], s[k..]);
    SumNonNegative(s[k..]);
  }

  /** In a consistent table every count lies between zero and both of its
      cluster sizes, and every cluster size is non-negative. */
  lemma CellWithinMarginals(t: ClusterContingencyTable, i: nat, j: nat)
    requires t.Consistent() && i < t.size1 && j < t.size2
    ensures 0 <= t.contingency[i][j] <= t.RowMarginal(i)
    ensures t.contingency[i][j] <= t.ColMarginal(j)
  {
    assert t.Row(i)[j] == t.contingency[i][j];
    assert t.Column(j)[i] == t.contingency[i][j];
    ElementAtMostSum(t.Row(i), j);
    ElementAtMostSum(t.Column(j), i);
  }

  /** Cluster sizes of a consistent table are non-negative. */
  lemma MarginalsNonNegative(t: ClusterContingencyTable)
    requires t.Consistent()
    ensures NonNegative(t.RowMarginals()) && NonNegative(t.ColMarginals())
    ensures t.Total() >= 0
  {
    forall i | 0 <= i < t.size1
      ensures t.RowMarginal(i) >= 0
    {
      SumNonNegative(t.Row(i));
    }
    forall j | 0 <= j < t.size2
      ensures t.ColMarginal(j) >= 0
    {
      SumNonNegative(t.Column(j));
    }
    SumNonNegative(t.RowMarginals());
  }
}
