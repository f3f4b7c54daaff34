/** Two 3 x 3 tables on which the accuracy can be computed by hand, for any
    solver that returns a least-cost assignment. */
module KuhnMunkresWongExamples {
  import opened ContingencyTables
  import opened Matching
  import opened KuhnMunkresWongAccuracy

  /** The only assignments of three rows to three columns. */
  lemma ThreeByThreeAssignments(c: seq<int>)
    requires IsAssignment(c, 3, 3)
    ensures c in {[0, 1, 2], [0, 2, 1], [1, 0, 2], [1, 2, 0], [2, 0, 1], [2, 1, 0]}
  {
    assert c == [c[0], c[1], c[2]];
  }

  lemma MatchedSumOfThree(m: seq<seq<real>>, c: seq<int>)
    requires ReadsInside(m, c) && |c| == 3
    ensures MatchedSum(m, c) == -m[0][c[0]] - m[1][c[1]] - m[2][c[2]]
  {
    assert c[..2][..1] == c[..1];
    assert c[..1][..0] == [];
    assert MatchedSum(m, c[..1]) == -m[0][c[0]];
    assert MatchedSum(m, c[..2]) == MatchedSum(m, c[..1]) - m[1][c[1]];
    assert c[..3] == c;
  }

  lemma ReversedMatchedSumOfThree(m: seq<seq<real>>, c: seq<int>)
    requires ReversedReadsInside(m, c) && |c| == 3
    ensures ReversedMatchedSum(m, c) == -m[c[0]][0] - m[c[1]][1] - m[c[2]][2]
  {
    assert c[..2][..1] == c[..1];
    assert c[..1][..0] == [];
    assert ReversedMatchedSum(m, c[..1]) == -m[c[0]][0];
    assert ReversedMatchedSum(m, c[..2]) == ReversedMatchedSum(m, c[..1]) - m[c[1]][1];
    assert c[..3] == c;
  }


  // ---------------------------------------------------------------------
  // The scikit-learn example: 17 elements, 12 of them on the diagonal
  // ---------------------------------------------------------------------

  function SklearnTable(): ClusterContingencyTable
  {
    ClusterContingencyTable(3, 3, [[5, 1, 0, 6], [1, 4, 1, 6], [2, 0, 3, 5], [8, 5, 4, 17]])
  }

  lemma SklearnTableConsistent()
    ensures SklearnTable().Consistent()
  {
    var t := SklearnTable();
    assert t.Row(0) == [5, 1, 0];
    assert t.Row(1) == [1, 4, 1];
    assert t.Row(2) == [2, 0, 3];
    assert t.Column(0) == [5, 1, 2];
    assert t.Column(1) == [1, 4, 0];
    assert t.Column(2) == [0, 1, 3];
    assert t.RowMarginals() == [6, 6, 5];
    assert t.ColMarginals() == [8, 5, 4];
    SumOfThree(5, 1, 0); SumOfThree(1, 4, 1); SumOfThree(2, 0, 3);
    SumOfThree(5, 1, 2); SumOfThree(1, 4, 0); SumOfThree(0, 1, 3);
    SumOfThree(6, 6, 5); SumOfThree(8, 5, 4);
  }

  lemma SklearnCosts()
    ensures SklearnTable().Shaped()
    ensures AccuracyCosts(SklearnTable()) == [[-5.0, -1.0, 0.0], [-1.0, -4.0, -1.0], [-2.0, 0.0, -3.0]]
  {
    var m := AccuracyCosts(SklearnTable());
    MatrixExtensionality(m, [[-5.0, -1.0, 0.0], [-1.0, -4.0, -1.0], [-2.0, 0.0, -3.0]], 3, 3);
  }

  /** The identity is the only least-cost assignment. */
  lemma SklearnOptimum(c: seq<int>)
    requires SklearnTable().Shaped()
    requires Optimal(AccuracyCosts(SklearnTable()), c, 3, 3)
    ensures c == [0, 1, 2]
  {
    SklearnCosts();
    var m := AccuracyCosts(SklearnTable());
    MatchedSumOfThree(m, [0, 1, 2]);
    MatchedSumOfThree(m, c);
    ThreeByThreeAssignments(c);
  }

  lemma SklearnDefined(solve: seq<seq<real>> -> seq<int>)
    requires SklearnTable().Shaped() && solve(AccuracyCosts(SklearnTable())) == [0, 1, 2]
    ensures AsWrittenDefined(SklearnTable(), solve)
  {
    SklearnTableConsistent();
    assert IsAssignment([0, 1, 2], 3, 3);
    assert SklearnTable().Total() == 17;
  }

  lemma SklearnIntended(solve: seq<seq<real>> -> seq<int>)
    requires SklearnTable().Shaped() && solve(AccuracyCosts(SklearnTable())) == [0, 1, 2]
    ensures AsWrittenDefined(SklearnTable(), solve)
    ensures IntendedAccuracy(SklearnTable(), solve) == 12.0 / 17.0
  {
    SklearnDefined(solve);
    SklearnCosts();
    MatchedSumOfThree(AccuracyCosts(SklearnTable()), [0, 1, 2]);
  }

  lemma SklearnReversed(solve: seq<seq<real>> -> seq<int>)
    requires SklearnTable().Shaped() && solve(AccuracyCosts(SklearnTable())) == [0, 1, 2]
    ensures AsWrittenDefined(SklearnTable(), solve)
    ensures ReversedAccuracy(SklearnTable(), solve) == 12.0 / 17.0
  {
    SklearnDefined(solve);
    SklearnCosts();
    ReversedMatchedSumOfThree(AccuracyCosts(SklearnTable()), [0, 1, 2]);
  }

  /** Both the intended and the as-written accuracy are 12/17. */
  lemma SklearnAccuracy(solve: seq<seq<real>> -> seq<int>)
    requires SklearnTable().Shaped()
    requires Optimal(AccuracyCosts(SklearnTable()), solve(AccuracyCosts(SklearnTable())), 3, 3)
    ensures AsWrittenDefined(SklearnTable(), solve)
    ensures IntendedAccuracy(SklearnTable(), solve) == 12.0 / 17.0
    ensures ReversedAccuracy(SklearnTable(), solve) == 12.0 / 17.0
  {
    SklearnOptimum(solve(AccuracyCosts(SklearnTable())));
    SklearnIntended(solve);
    SklearnReversed(solve);
  }

  // ---------------------------------------------------------------------
  // A cyclic table: every element sits off the diagonal
  // ---------------------------------------------------------------------

  function CyclicTable(): ClusterContingencyTable
  {
    ClusterContingencyTable(3, 3, [[0, 5, 0, 5], [0, 0, 5, 5], [5, 0, 0, 5], [5, 5, 5, 15]])
  }

  lemma CyclicTableConsistent()
    ensures CyclicTable().Consistent()
  {
    var t := CyclicTable();
    assert t.Row(0) == [0, 5, 0];
    assert t.Row(1) == [0, 0, 5];
    assert t.Row(2) == [5, 0, 0];
    assert t.Column(0) == [0, 0, 5];
    assert t.Column(1) == [5, 0, 0];
    assert t.Column(2) == [0, 5, 0];
    assert t.RowMarginals() == [5, 5, 5];
    assert t.ColMarginals() == [5, 5, 5];
    SumOfThree(0, 5, 0); SumOfThree(0, 0, 5); SumOfThree(5, 0, 0);
    SumOfThree(5, 5, 5);
  }

  lemma CyclicCosts()
    ensures CyclicTable().Shaped()
    ensures AccuracyCosts(CyclicTable()) == [[0.0, -5.0, 0.0], [0.0, 0.0, -5.0], [-5.0, 0.0, 0.0]]
  {
    var m := AccuracyCosts(CyclicTable());
    MatrixExtensionality(m, [[0.0, -5.0, 0.0], [0.0, 0.0, -5.0], [-5.0, 0.0, 0.0]], 3, 3);
  }

  /** Row i goes to column i + 1 (mod 3) in the only least-cost assignment. */
  lemma CyclicOptimum(c: seq<int>)
    requires CyclicTable().Shaped()
    requires Optimal(AccuracyCosts(CyclicTable()), c, 3, 3)
    ensures c == [1, 2, 0]
  {
    CyclicCosts();
    var m := AccuracyCosts(CyclicTable());
    MatchedSumOfThree(m, [1, 2, 0]);
    MatchedSumOfThree(m, c);
    ThreeByThreeAssignments(c);
  }

  lemma CyclicDefined(solve: seq<seq<real>> -> seq<int>)
    requires CyclicTable().Shaped() && solve(AccuracyCosts(CyclicTable())) == [1, 2, 0]
    ensures AsWrittenDefined(CyclicTable(), solve)
  {
    CyclicTableConsistent();
    assert IsAssignment([1, 2, 0], 3, 3);
    assert CyclicTable().Total() == 15;
  }

  lemma CyclicIntended(solve: seq<seq<real>> -> seq<int>)
    requires CyclicTable().Shaped() && solve(AccuracyCosts(CyclicTable())) == [1, 2, 0]
    ensures AsWrittenDefined(CyclicTable(), solve)
    ensures IntendedAccuracy(CyclicTable(), solve) == 1.0
  {
    CyclicDefined(solve);
    CyclicCosts();
    MatchedSumOfThree(AccuracyCosts(CyclicTable()), [1, 2, 0]);
  }

  lemma CyclicReversed(solve: seq<seq<real>> -> seq<int>)
    requires CyclicTable().Shaped() && solve(AccuracyCosts(CyclicTable())) == [1, 2, 0]
    ensures AsWrittenDefined(CyclicTable(), solve)
    ensures ReversedAccuracy(CyclicTable(), solve) == 0.0
  {
    CyclicDefined(solve);
    CyclicCosts();
    ReversedMatchedSumOfThree(AccuracyCosts(CyclicTable()), [1, 2, 0]);
  }

  /** The matching pairs up all 15 elements, so the accuracy is 1; the
      reversed read [chosen[i]][i] follows the inverse cycle, finds only
      empty cells and gives 0. */
  lemma CyclicAccuracy(solve: seq<seq<real>> -> seq<int>)
    requires CyclicTable().Shaped()
    requires Optimal(AccuracyCosts(CyclicTable()), solve(AccuracyCosts(CyclicTable())), 3, 3)
    ensures AsWrittenDefined(CyclicTable(), solve)
    ensures IntendedAccuracy(CyclicTable(), solve) == 1.0
    ensures ReversedAccuracy(CyclicTable(), solve) == 0.0
  {
    CyclicOptimum(solve(AccuracyCosts(CyclicTable())));
    CyclicIntended(solve);
    CyclicReversed(solve);
  }
}
