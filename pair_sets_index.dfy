/** The Pair Sets Index of Rezaei and Fraenti ("Set Matching Measures for
    External Cluster Validity"), computed from a cluster contingency table.

    The observed matching quality `s` is the value of the assignment the
    solver picks on the normalised cost matrix; the chance baseline `e` pairs
    the sorted cluster sizes of the two clusterings index by index; the two
    scores are chance-corrected and clamped at 0. */
module PairSetsIndex {
  import opened ContingencyTables
  import opened Matching
  import opened Sorting
  import opened RealFacts

  // ---------------------------------------------------------------------
  // Cost matrix
  // ---------------------------------------------------------------------

  /** No pair of clusters has an empty row cluster and an empty column
      cluster at once, so every cost entry's divisor is positive. */
  predicate PairMaximaPositive(t: ClusterContingencyTable)
    requires t.Shaped()
  {
    forall i, j :: 0 <= i < t.size1 && 0 <= j < t.size2 ==>
      Max(t.ColMarginal(j), t.RowMarginal(i)) > 0
  }

  /** Normalised negative cost of pairing cluster i (first clustering) with
      cluster j (second clustering): never positive for a non-negative count,
      and 0 exactly when the two clusters share no element. */
  function PairCost(t: ClusterContingencyTable, i: nat, j: nat): (r: real)
    requires t.Shaped() && PairMaximaPositive(t) && i < t.size1 && j < t.size2
    ensures t.contingency[i][j] >= 0 ==> r <= 0.0
    ensures r == 0.0 <==> t.contingency[i][j] == 0
  {
    var c, d := t.contingency[i][j] as real, Max(t.ColMarginal(j), t.RowMarginal(i)) as real;
    NegatedDiv(c, d);
    if c == 0.0 then -c / d
    else
      DivNonZero(c, d);
      if c > 0.0 then DivInUnitInterval(0.0, d); DivMonotone(0.0, c, d); -c / d
      else -c / d
  }

  /** With 0 <= count <= both cluster sizes, the cost lies in [-1, 0]. */
  lemma PairCostInUnitRange(t: ClusterContingencyTable, i: nat, j: nat)
    requires t.Consistent() && PairMaximaPositive(t) && i < t.size1 && j < t.size2
    ensures -1.0 <= PairCost(t, i, j) <= 0.0
  {
    CellWithinMarginals(t, i, j);
    var c, d := t.contingency[i][j] as real, Max(t.ColMarginal(j), t.RowMarginal(i)) as real;
    DivInUnitInterval(c, d);
    NegatedDiv(c, d);
  }

  /** The costs in the table's own orientation, size1 x size2. */
  function PairCosts(t: ClusterContingencyTable): (m: seq<seq<real>>)
    requires t.Shaped() && PairMaximaPositive(t)
    ensures IsMatrix(m, t.size1, t.size2)
  {
    seq(t.size1, i requires 0 <= i < t.size1 =>
      seq(t.size2, j requires 0 <= j < t.size2 => PairCost(t, i, j)))
  }

  /** The cost matrix handed to the solver. */
  function Costs(t: ClusterContingencyTable): (m: seq<seq<real>>)
    requires t.Shaped() && PairMaximaPositive(t)
    ensures IsMatrix(m, Min(t.size1, t.size2), Max(t.size1, t.size2))
  {
    Oriented(PairCosts(t), t.size1, t.size2)
  }

  lemma CostsInUnitRange(t: ClusterContingencyTable)
    requires t.Consistent() && PairMaximaPositive(t)
    ensures EntriesInUnitRange(Costs(t))
  {
    var m := Costs(t);
    forall a, b | 0 <= a < |m| && 0 <= b < |m[a]|
      ensures -1.0 <= m[a][b] <= 0.0
    {
      if t.size2 >= t.size1 {
        OrientedEntry(PairCosts(t), t.size1, t.size2, a, b);
        PairCostInUnitRange(t, a, b);
      } else {
        OrientedEntry(PairCosts(t), t.size1, t.size2, b, a);
        PairCostInUnitRange(t, b, a);
      }
    }
  }

  /** Fills the cost matrix: min(size1, size2) rows, max(size1, size2)
      columns; the cost of pair (i, j) at [i, j] when size2 >= size1 and at
      [j, i] otherwise. */
  method BuildCosts(table: ClusterContingencyTable) returns (costs: array2<real>)
    requires table.Shaped() && PairMaximaPositive(table)
    ensures costs.Length0 == Min(table.size1, table.size2)
    ensures costs.Length1 == Max(table.size1, table.size2)
    ensures forall i, j :: 0 <= i < table.size1 && 0 <= j < table.size2 ==>
      (if table.size2 >= table.size1 then costs[i, j] else costs[j, i]) == PairCost(table, i, j)
  {
    var cont := table.contingency;
    var rowlen, collen := table.size1, table.size2;
    if collen >= rowlen {
      costs := new real[rowlen, collen];
      for i := 0 to rowlen
        invariant forall p, q :: 0 <= p < i && 0 <= q < collen ==> costs[p, q] == PairCost(table, p, q)
      {
        for j := 0 to collen
          invariant forall p, q :: 0 <= p < i && 0 <= q < collen ==> costs[p, q] == PairCost(table, p, q)
          invariant forall q :: 0 <= q < j ==> costs[i, q] == PairCost(table, i, q)
        {
          assert Max(table.ColMarginal(j), table.RowMarginal(i)) > 0;
          costs[i, j] := -(cont[i][j] as real) / (Max(cont[rowlen][j], cont[i][collen]) as real);
        }
      }
    } else {
      costs := new real[collen, rowlen];
      for i := 0 to rowlen
        invariant forall p, q :: 0 <= p < i && 0 <= q < collen ==> costs[q, p] == PairCost(table, p, q)
      {
        for j := 0 to collen
          invariant forall p, q :: 0 <= p < i && 0 <= q < collen ==> costs[q, p] == PairCost(table, p, q)
          invariant forall q :: 0 <= q < j ==> costs[q, i] == PairCost(table, i, q)
        {
          assert Max(table.ColMarginal(j), table.RowMarginal(i)) > 0;
          costs[j, i] := -(cont[i][j] as real) / (Max(cont[rowlen][j], cont[i][collen]) as real);
        }
      }
    }
  }

  /** The array BuildCosts fills holds exactly Costs(table). */
  lemma BuiltCostsAreCosts(table: ClusterContingencyTable, costs: array2<real>)
    requires table.Shaped() && PairMaximaPositive(table)
    requires costs.Length0 == Min(table.size1, table.size2)
    requires costs.Length1 == Max(table.size1, table.size2)
    requires forall i, j :: 0 <= i < table.size1 && 0 <= j < table.size2 ==>
      (if table.size2 >= table.size1 then costs[i, j] else costs[j, i]) == PairCost(table, i, j)
    ensures Entries(costs) == Costs(table)
  {
    assert forall i, j :: 0 <= i < table.size1 && 0 <= j < table.size2 ==> PairCosts(table)[i][j] == PairCost(table, i, j);
    FilledIsOriented(costs, PairCosts(table), table.size1, table.size2);
  }

  // ---------------------------------------------------------------------
  // Expected value
  // ---------------------------------------------------------------------

  /** One summand of the expected value: (a * b / n) / max(a, b), never
      negative for cluster sizes a, b and a positive n. */
  function ExpectedTerm(a: int, b: int, n: int): (r: real)
    requires n != 0 && Max(a, b) != 0
    ensures a >= 0 && b >= 0 && n > 0 ==> r >= 0.0
  {
    ((a * b) as real / n as real) / (Max(a, b) as real)
  }

  /** Each summand is the smaller of the two cluster sizes over n. */
  lemma ExpectedTermIsSmallerSizeOverTotal(a: int, b: int, n: int)
    requires a >= 0 && b >= 0 && n != 0 && Max(a, b) != 0
    ensures ExpectedTerm(a, b, n) == Min(a, b) as real / n as real
  {
    var x, y, z := a as real, b as real, n as real;
    assert (a * b) as real == x * y == y * x;
    if a >= b {
      ProductQuotient(x, y, z);
    } else {
      ProductQuotient(y, x, z);
    }
  }

  /** The first k summands can be computed: no division by zero. */
  predicate ExpectedDefined(a: seq<int>, b: seq<int>, n: int, k: nat)
  {
    k <= |a| && k <= |b| && (k > 0 ==> n != 0) &&
    forall q :: 0 <= q < k ==> Max(a[q], b[q]) != 0
  }

  /** The sum of the first k summands, never negative for cluster sizes and
      a positive n. */
  function Expected(a: seq<int>, b: seq<int>, n: int, k: nat): (r: real)
    requires ExpectedDefined(a, b, n, k)
    ensures n > 0 && NonNegative(a) && NonNegative(b) ==> r >= 0.0
  {
    if k == 0 then 0.0 else Expected(a, b, n, k - 1) + ExpectedTerm(a[k - 1], b[k - 1], n)
  }

  /** The sizes of the first clustering's clusters, sorted ascending. */
  function SortedRowMarginals(t: ClusterContingencyTable): (r: seq<int>)
    requires t.Shaped()
    ensures |r| == t.size1 && Ascending(r)
    ensures multiset(r) == multiset(t.RowMarginals())
  {
    SortedCopyLength(t.RowMarginals());
    SortedCopy(t.RowMarginals())
  }

  /** The sizes of the second clustering's clusters, sorted ascending. */
  function SortedColMarginals(t: ClusterContingencyTable): (r: seq<int>)
    requires t.Shaped()
    ensures |r| == t.size2 && Ascending(r)
    ensures multiset(r) == multiset(t.ColMarginals())
  {
    SortedCopyLength(t.ColMarginals());
    SortedCopy(t.ColMarginals())
  }

  /** Some pair's maximum is positive, so the number of elements is. */
  lemma TotalPositive(t: ClusterContingencyTable)
    requires t.Consistent() && PairMaximaPositive(t) && Min(t.size1, t.size2) > 0
    ensures t.Total() > 0
  {
    MarginalsNonNegative(t);
    assert Max(t.ColMarginal(0), t.RowMarginal(0)) > 0;
    ElementAtMostSum(t.RowMarginals(), 0);
    ElementAtMostSum(t.ColMarginals(), 0);
  }

  /** After sorting, no index pairs two empty clusters: that would need an
      empty cluster on each side, a pair whose maximum is 0. */
  lemma SortedPairMaximumPositive(t: ClusterContingencyTable, q: nat)
    requires t.Consistent() && PairMaximaPositive(t) && q < Min(t.size1, t.size2)
    ensures q < |SortedRowMarginals(t)| && q < |SortedColMarginals(t)|
    ensures Max(SortedRowMarginals(t)[q], SortedColMarginals(t)[q]) > 0
  {
    var a, b := SortedRowMarginals(t), SortedColMarginals(t);
    SortedCopyLength(t.RowMarginals());
    SortedCopyLength(t.ColMarginals());
    if Max(a[q], b[q]) <= 0 {
      SortedCopyElement(t.RowMarginals(), 0);
      SortedCopyElement(t.ColMarginals(), 0);
      assert false;
    }
  }

  /** Given positive pair maxima, every division in the expected value is
      by a positive number. */
  lemma ExpectedWellDefined(t: ClusterContingencyTable)
    requires t.Consistent() && PairMaximaPositive(t)
    ensures Min(t.size1, t.size2) > 0 ==> t.Total() > 0
    ensures ExpectedDefined(SortedRowMarginals(t), SortedColMarginals(t), t.Total(), Min(t.size1, t.size2))
  {
    SortedCopyLength(t.RowMarginals());
    SortedCopyLength(t.ColMarginals());
    if Min(t.size1, t.size2) > 0 {
      TotalPositive(t);
    }
    forall q | 0 <= q < Min(t.size1, t.size2)
      ensures Max(SortedRowMarginals(t)[q], SortedColMarginals(t)[q]) != 0
    {
      SortedPairMaximumPositive(t, q);
    }
  }

  /** The expected value e of the Pair Sets Index, a value in [0, 1]. */
  function ExpectedValue(t: ClusterContingencyTable): (r: real)
    requires t.Consistent() && PairMaximaPositive(t)
    ensures 0.0 <= r <= 1.0
  {
    SortedExpectedInUnitInterval(t);
    Expected(SortedRowMarginals(t), SortedColMarginals(t), t.Total(), Min(t.size1, t.size2))
  }

  lemma {:induction false} SumInsert(x: int, s: seq<int>)
    requires Ascending(s)
    ensures Sum(Insert(x, s)) == x + Sum(s)
  {
    if s != [] && x > s[0] {
      SumInsert(x, s[1..]);
    }
  }

  lemma {:induction false} SumSortedCopy(s: seq<int>)
    ensures Sum(SortedCopy(s)) == Sum(s)
  {
    if s != [] {
      SumSortedCopy(s[1..]);
      SumInsert(s[0], SortedCopy(s[1..]));
    }
  }

  lemma SortedCopyNonNegative(s: seq<int>)
    requires NonNegative(s)
    ensures NonNegative(SortedCopy(s))
  {
    forall k | 0 <= k < |SortedCopy(s)|
      ensures SortedCopy(s)[k] >= 0
    {
      SortedCopyElement(s, k);
    }
  }

  /** The first k summands add up to at most (a[0] + ... + a[k-1]) / n. */
  lemma {:induction false} ExpectedAtMostPrefixShare(a: seq<int>, b: seq<int>, n: int, k: nat)
    requires ExpectedDefined(a, b, n, k) && n > 0
    requires NonNegative(a) && NonNegative(b)
    ensures 0.0 <= Expected(a, b, n, k) <= Sum(a[..k]) as real / n as real
  {
    if k > 0 {
      ExpectedAtMostPrefixShare(a, b, n, k - 1);
      ExpectedTermIsSmallerSizeOverTotal(a[k - 1], b[k - 1], n);
      assert a[..k] == a[..k - 1] + [a[k - 1]];
      SumConcat(a[..k - 1], [a[k - 1]]);
      assert Sum([a[k - 1]]) == a[k - 1];
      var x, y, z := Sum(a[..k - 1]) as real, a[k - 1] as real, n as real;
      DivInUnitInterval(0.0, z);
      DivMonotone(0.0, Min(a[k - 1], b[k - 1]) as real, z);
      DivMonotone(Min(a[k - 1], b[k - 1]) as real, y, z);
      DivSum(x, y, z);
    }
  }

  /** When the a-sizes add up to n, the first k summands add up to at most 1. */
  lemma ExpectedAtMostOne(a: seq<int>, b: seq<int>, n: int, k: nat)
    requires ExpectedDefined(a, b, n, k) && n > 0 && Sum(a) == n
    requires NonNegative(a) && NonNegative(b)
    ensures 0.0 <= Expected(a, b, n, k) <= 1.0
  {
    ExpectedAtMostPrefixShare(a, b, n, k);
    SumPrefixAtMost(a, k);
    var p, z := Sum(a[..k]) as real, n as real;
    DivMonotone(p, z, z);
    DivSelf(z);
  }

  /** The expected value computed from the sorted cluster sizes lies in
      [0, 1]. */
  lemma SortedExpectedInUnitInterval(t: ClusterContingencyTable)
    requires t.Consistent() && PairMaximaPositive(t)
    ensures ExpectedDefined(SortedRowMarginals(t), SortedColMarginals(t), t.Total(), Min(t.size1, t.size2))
    ensures 0.0 <= Expected(SortedRowMarginals(t), SortedColMarginals(t), t.Total(), Min(t.size1, t.size2)) <= 1.0
  {
    var a, b, k := SortedRowMarginals(t), SortedColMarginals(t), Min(t.size1, t.size2);
    ExpectedWellDefined(t);
    if k > 0 {
      MarginalsNonNegative(t);
      SortedCopyNonNegative(t.RowMarginals());
      SortedCopyNonNegative(t.ColMarginals());
      SumSortedCopy(t.RowMarginals());
      ExpectedAtMostOne(a, b, t.Total(), k);
    }
  }

  // ---------------------------------------------------------------------
  // Scores
  // ---------------------------------------------------------------------

  /** The simplified index, with the baseline fixed at 1: 0 exactly when s
      is at most 1, and 1 when s reaches max(size1, size2). */
  function SimplifiedPsiScore(s: real, maxSize: int): (r: real)
    requires s >= 1.0 ==> maxSize >= 2
    ensures r == 0.0 <==> s <= 1.0
    ensures s == maxSize as real && maxSize >= 2 ==> r == 1.0
  {
    if s < 1.0 then 0.0
    else if s == 1.0 then (s - 1.0) / ((maxSize - 1) as real)
    else
      DivSelf((maxSize - 1) as real);
      DivNonZero(s - 1.0, (maxSize - 1) as real);
      (s - 1.0) / ((maxSize - 1) as real)
  }

  /** The index proper: (s - e) / (max(size1, size2) - e), clamped at 0; it
      is 0 exactly when s does not exceed the baseline e, and 1 when s
      reaches max(size1, size2) above the baseline. */
  function PsiScore(s: real, e: real, maxSize: int): (r: real)
    requires s >= e ==> maxSize as real != e
    ensures r == 0.0 <==> s <= e
    ensures s == maxSize as real && e < maxSize as real ==> r == 1.0
  {
    if s < e then 0.0
    else if s == e then (s - e) / (maxSize as real - e)
    else
      DivSelf(maxSize as real - e);
      DivNonZero(s - e, maxSize as real - e);
      (s - e) / (maxSize as real - e)
  }

  /** Both scores are in [0, 1] whenever the observed value is at most the
      larger cluster count and the baseline lies below it. */
  lemma ScoresInUnitInterval(s: real, e: real, maxSize: int)
    requires 0.0 <= s <= maxSize as real && 0.0 <= e < maxSize as real
    requires s >= 1.0 ==> maxSize >= 2
    ensures 0.0 <= SimplifiedPsiScore(s, maxSize) <= 1.0
    ensures 0.0 <= PsiScore(s, e, maxSize) <= 1.0
  {
    if s >= 1.0 {
      DivInUnitInterval(s - 1.0, (maxSize - 1) as real);
    }
    if s >= e {
      DivInUnitInterval(s - e, maxSize as real - e);
    }
  }

  /** What the general path (any table but 1 x 1) needs: a consistent
      table that is not 0 x 0, positive pair maxima, and a solver answer
      meeting the solver's contract on the built cost matrix. */
  predicate GeneralPathDefined(t: ClusterContingencyTable, solve: seq<seq<real>> -> seq<int>)
  {
    t.Consistent() && !(t.size1 == 0 && t.size2 == 0) && PairMaximaPositive(t) &&
    IsAssignment(solve(Costs(t)), Min(t.size1, t.size2), Max(t.size1, t.size2))
  }

  /** The observed value s of the general path: between 0 and the number of
      matched cluster pairs, min(size1, size2). */
  function Observed(t: ClusterContingencyTable, solve: seq<seq<real>> -> seq<int>): (r: real)
    requires GeneralPathDefined(t, solve)
    ensures 0.0 <= r <= Min(t.size1, t.size2) as real
  {
    AssignmentReadsInside(Costs(t), solve(Costs(t)), Min(t.size1, t.size2), Max(t.size1, t.size2));
    CostsInUnitRange(t);
    MatchedSumBounds(Costs(t), solve(Costs(t)));
    MatchedSum(Costs(t), solve(Costs(t)))
  }

  /** On the general path s lies in [0, min(size1, size2)], s >= 1 forces
      max(size1, size2) >= 2, e lies in [0, 1] and below max(size1, size2);
      hence no score divides by zero and both scores lie in [0, 1]. */
  lemma GeneralPathScores(t: ClusterContingencyTable, solve: seq<seq<real>> -> seq<int>)
    requires GeneralPathDefined(t, solve) && !(t.size1 == 1 && t.size2 == 1)
    ensures 0.0 <= Observed(t, solve) <= Min(t.size1, t.size2) as real
    ensures 0.0 <= ExpectedValue(t) <= 1.0
    ensures Observed(t, solve) >= 1.0 ==> Max(t.size1, t.size2) >= 2
    ensures ExpectedValue(t) < Max(t.size1, t.size2) as real
    ensures 0.0 <= SimplifiedPsiScore(Observed(t, solve), Max(t.size1, t.size2)) <= 1.0
    ensures 0.0 <= PsiScore(Observed(t, solve), ExpectedValue(t), Max(t.size1, t.size2)) <= 1.0
  {
    var m := Costs(t);
    var chosen := solve(m);
    AssignmentReadsInside(m, chosen, Min(t.size1, t.size2), Max(t.size1, t.size2));
    CostsInUnitRange(t);
    MatchedSumBounds(m, chosen);
    if Min(t.size1, t.size2) == 0 {
      assert ExpectedValue(t) == 0.0;
    }
    ScoresInUnitInterval(Observed(t, solve), ExpectedValue(t), Max(t.size1, t.size2));
  }

  // ---------------------------------------------------------------------
  // The measure object
  // ---------------------------------------------------------------------

  /** The loop that computes e from the two sorted arrays of cluster sizes. */
  method ExpectedSum(firstlevelOrder: array<int>, secondlevelOrder: array<int>, n: int, minlength: nat)
    returns (exp: real)
    requires ExpectedDefined(firstlevelOrder[..], secondlevelOrder[..], n, minlength)
    ensures exp == Expected(firstlevelOrder[..], secondlevelOrder[..], n, minlength)
  {
    ghost var a, b := firstlevelOrder[..], secondlevelOrder[..];
    exp := 0.0;
    for i := 0 to minlength
      invariant exp == Expected(a, b, n, i)
    {
      assert firstlevelOrder[i] == a[i] && secondlevelOrder[i] == b[i];
      exp := exp + ((firstlevelOrder[i] * secondlevelOrder[i]) as real / n as real)
                   / (Max(firstlevelOrder[i], secondlevelOrder[i]) as real);
    }
  }

  /** A fresh array of the cluster sizes of the first clustering. */
  method RowSizes(table: ClusterContingencyTable) returns (sizes: array<int>)
    requires table.Shaped()
    ensures fresh(sizes) && sizes[..] == table.RowMarginals()
  {
    sizes := new int[table.size1];
    for i := 0 to table.size1
      invariant sizes[..i] == table.RowMarginals()[..i]
    {
      sizes[i] := table.contingency[i][table.size2];
    }
  }

  /** A fresh array of the cluster sizes of the second clustering. */
  method ColumnSizes(table: ClusterContingencyTable) returns (sizes: array<int>)
    requires table.Shaped()
    ensures fresh(sizes) && sizes[..] == table.ColMarginals()
  {
    sizes := new int[table.size2];
    for i := 0 to table.size2
      invariant sizes[..i] == table.ColMarginals()[..i]
    {
      sizes[i] := table.contingency[table.size1][i];
    }
  }

  /** The general path up to the two scores: the cost matrix, the solver's
      assignment and the sum s over it, then the sorted cluster sizes and the
      expected value e. */
  method ObservedAndExpected(table: ClusterContingencyTable, solve: seq<seq<real>> -> seq<int>)
    returns (sum: real, exp: real)
    requires GeneralPathDefined(table, solve)
    ensures sum == Observed(table, solve)
    ensures exp == ExpectedValue(table)
    ensures ProductsFitInt32(table) ==> exp == ExpectedValueAsWritten(table)
  {
    var rowlen, collen := table.size1, table.size2;
    // negative cost array, oriented for the solver
    var costs := BuildCosts(table);
    BuiltCostsAreCosts(table, costs);
    var chosen := solve(Entries(costs));
    AssignmentReadsInside(Entries(costs), chosen, Min(rowlen, collen), Max(rowlen, collen));
    // sum up s
    sum := SumChosen(costs, chosen);

    // copy the cluster sizes and sort them
    var firstlevelOrder := RowSizes(table);
    var secondlevelOrder := ColumnSizes(table);
    Sort(firstlevelOrder);
    Sort(secondlevelOrder);

    // the expected value itself
    ExpectedWellDefined(table);
    exp := ExpectedSum(firstlevelOrder, secondlevelOrder, table.contingency[rowlen][collen], Min(rowlen, collen));
  }

  class PairSetsIndex {
    /** Sum of the chosen pairings. */
    var s: real
    /** Expected value. */
    var e: real
    /** Simplified index (baseline 1). */
    var simplifiedPSI: real
    /** (s - e) / (max(size1, size2) - e), clamped at 0. */
    var psi: real

    ghost predicate Valid()
      reads this
    {
      0.0 <= psi <= 1.0 && 0.0 <= simplifiedPSI <= 1.0
    }

    /** Computes both indices from `table`; `solve` stands for the
        Kuhn-Munkres-Wong solver and is applied to the cost matrix only on
        the general path. */
    constructor (table: ClusterContingencyTable, solve: seq<seq<real>> -> seq<int>)
      requires (table.size1 == 1 && table.size2 == 1) || GeneralPathDefined(table, solve)
      ensures Valid()
      ensures table.size1 == 1 && table.size2 == 1 ==>
        s == 0.0 && e == 0.0 && psi == 1.0 && simplifiedPSI == 1.0
      ensures !(table.size1 == 1 && table.size2 == 1) ==>
        && s == Observed(table, solve)
        && e == ExpectedValue(table)
        && (ProductsFitInt32(table) ==> e == ExpectedValueAsWritten(table))
        && 0.0 <= s <= Min(table.size1, table.size2) as real
        && 0.0 <= e <= 1.0 && e < Max(table.size1, table.size2) as real
        && (s >= 1.0 ==> Max(table.size1, table.size2) >= 2)
        && simplifiedPSI == SimplifiedPsiScore(s, Max(table.size1, table.size2))
        && psi == PsiScore(s, e, Max(table.size1, table.size2))
    {
      var rowlen, collen := table.size1, table.size2;
      if rowlen == collen && rowlen == 1 {
        s, e := 0.0, 0.0;
        psi := 1.0;
        simplifiedPSI := 1.0;
      } else {
        var sum, exp := ObservedAndExpected(table, solve);
        GeneralPathScores(table, solve);
        // the measures
        var maxlength := Max(rowlen, collen);
        s, e := sum, exp;
        simplifiedPSI := SimplifiedPsiScore(sum, maxlength);
        psi := PsiScore(sum, exp, maxlength);
      }
    }

    /** The index psi, in [0, 1]. */
    method Psi() returns (r: real)
      requires Valid()
      ensures r == psi && 0.0 <= r <= 1.0
    {
      r := psi;
    }

    /** The simplified index, in [0, 1]. */
    method SimplifiedPsi() returns (r: real)
      requires Valid()
      ensures r == simplifiedPSI && 0.0 <= r <= 1.0
    {
      r := simplifiedPSI;
    }
  }

  // ---------------------------------------------------------------------
  // The product in the expected value, as the source computes it
  // ---------------------------------------------------------------------

  predicate InInt32Range(x: int)
  {
    -0x8000_0000 <= x < 0x8000_0000
  }

  /** A Java int: the integer x wrapped to 32-bit two's complement, the one
      int congruent to x modulo 2^32; a value that fits is unchanged. */
  function Int32(x: int): (r: int)
    ensures InInt32Range(r) && (x - r) % 0x1_0000_0000 == 0
    ensures InInt32Range(x) ==> r == x
  {
    var p := x % 0x1_0000_0000;
    if p >= 0x8000_0000 then p - 0x1_0000_0000 else p
  }

  /** The summand with the product of two ints taken in int arithmetic; it
      is the exact summand while the product fits in an int. */
  function ExpectedTermAsWritten(a: int, b: int, n: int): (r: real)
    requires n != 0 && Max(a, b) != 0
    ensures InInt32Range(a * b) ==> r == ExpectedTerm(a, b, n)
  {
    (Int32(a * b) as real / n as real) / (Max(a, b) as real)
  }

  /** The expected value as the source computes it; while every product of
      paired cluster sizes fits in an int, it is the exact expected value. */
  function ExpectedAsWritten(a: seq<int>, b: seq<int>, n: int, k: nat): (r: real)
    requires ExpectedDefined(a, b, n, k)
    ensures (forall q :: 0 <= q < k ==> InInt32Range(a[q] * b[q])) ==> r == Expected(a, b, n, k)
  {
    if k == 0 then 0.0 else ExpectedAsWritten(a, b, n, k - 1) + ExpectedTermAsWritten(a[k - 1], b[k - 1], n)
  }

  /** Every product of paired sorted cluster sizes fits in an int. */
  predicate ProductsFitInt32(t: ClusterContingencyTable)
    requires t.Consistent() && PairMaximaPositive(t)
  {
    ExpectedWellDefined(t);
    forall q :: 0 <= q < Min(t.size1, t.size2) ==> InInt32Range(SortedRowMarginals(t)[q] * SortedColMarginals(t)[q])
  }

  /** The expected value e of a table as the source computes it; it is the
      exact one whenever the products fit in an int. */
  function ExpectedValueAsWritten(t: ClusterContingencyTable): (r: real)
    requires t.Consistent() && PairMaximaPositive(t)
    ensures ProductsFitInt32(t) ==> r == ExpectedValue(t)
  {
    ExpectedWellDefined(t);
    ExpectedAsWritten(SortedRowMarginals(t), SortedColMarginals(t), t.Total(), Min(t.size1, t.size2))
  }

  /** Two clusters of 50000 elements on each side: the int product
      50000 * 50000 wraps to a negative number and the expected value comes
      out negative, while the exact expected value is 1. */
  function OverflowTable(): ClusterContingencyTable
  {
    ClusterContingencyTable(2, 2, [[40000, 10000, 50000], [10000, 40000, 50000], [50000, 50000, 100000]])
  }

  lemma OverflowTableConsistent()
    ensures OverflowTable().Consistent() && PairMaximaPositive(OverflowTable())
    ensures OverflowTable().RowMarginals() == [50000, 50000]
    ensures OverflowTable().ColMarginals() == [50000, 50000]
  {
    var t := OverflowTable();
    assert t.Row(0) == [40000, 10000];
    assert t.Row(1) == [10000, 40000];
    assert t.Column(0) == [40000, 10000];
    assert t.Column(1) == [10000, 40000];
    assert t.RowMarginals() == [50000, 50000];
    assert t.ColMarginals() == [50000, 50000];
    SumOfTwo(40000, 10000);
    SumOfTwo(10000, 40000);
    SumOfTwo(50000, 50000);
    assert forall i :: 0 <= i < 2 ==> t.RowMarginal(i) == Sum(t.Row(i));
    assert forall j :: 0 <= j < 2 ==> t.ColMarginal(j) == Sum(t.Column(j));
  }

  lemma OverflowSortedSizes()
    ensures OverflowTable().Shaped()
    ensures SortedRowMarginals(OverflowTable()) == [50000, 50000]
    ensures SortedColMarginals(OverflowTable()) == [50000, 50000]
  {
    OverflowTableConsistent();
    assert SortedCopy([50000]) == [50000];
    assert SortedCopy([50000, 50000]) == Insert(50000, [50000]) == [50000, 50000];
  }

  /** On OverflowTable the exact expected value is 1, the as-written one is
      negative (50000 * 50000 wraps to -1794967296). */
  lemma ExpectedOverflowExample()
    ensures OverflowTable().Consistent() && PairMaximaPositive(OverflowTable())
    ensures ExpectedValue(OverflowTable()) == 1.0
    ensures ExpectedDefined(SortedRowMarginals(OverflowTable()), SortedColMarginals(OverflowTable()), 100000, 2)
    ensures ExpectedAsWritten(SortedRowMarginals(OverflowTable()), SortedColMarginals(OverflowTable()), 100000, 2) < 0.0
    ensures ExpectedValueAsWritten(OverflowTable()) < 0.0 && !ProductsFitInt32(OverflowTable())
  {
    OverflowTableConsistent();
    OverflowSortedSizes();
    var a := [50000, 50000];
    assert ExpectedDefined(a, a, 100000, 2);
    assert ExpectedTerm(50000, 50000, 100000) == 0.5;
    assert Expected(a, a, 100000, 2) == 1.0;
    assert Int32(50000 * 50000) == -1794967296;
    assert ExpectedTermAsWritten(50000, 50000, 100000) < 0.0;
    assert ExpectedAsWritten(a, a, 100000, 2) < 0.0;
  }
}
