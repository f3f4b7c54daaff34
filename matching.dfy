/** Cost matrices handed to the Kuhn-Munkres-Wong assignment solver, and the
    solver's contract.

    The solver itself is not part of this model: each measure receives it as a
    function `solve` from a cost matrix to an assignment, and is proved for
    every output that meets `IsAssignment`. */
module Matching {
  import opened ContingencyTables

  /** `m` has `rows` rows of `cols` entries. */
  predicate IsMatrix(m: seq<seq<real>>, rows: nat, cols: nat)
  {
    |m| == rows && forall i :: 0 <= i < rows ==> |m[i]| == cols
  }

  /** What the solver promises for a `rows` x `cols` cost matrix: one column
      per row, each in range, no column chosen twice. */
  predicate IsAssignment(chosen: seq<int>, rows: nat, cols: nat)
  {
    |chosen| == rows &&
    (forall i :: 0 <= i < rows ==> 0 <= chosen[i] < cols) &&
    (forall i, j :: 0 <= i < j < rows ==> chosen[i] != chosen[j])
  }

  function Transpose(m: seq<seq<real>>, rows: nat, cols: nat): (r: seq<seq<real>>)
    requires IsMatrix(m, rows, cols)
    ensures IsMatrix(r, cols, rows)
  {
    seq(cols, j requires 0 <= j < cols => seq(rows, i requires 0 <= i < rows => m[i][j]))
  }

  /** The orientation the solver needs (no more rows than columns): a matrix
      with more rows than columns is transposed, any other is kept. */
  function Oriented(m: seq<seq<real>>, rows: nat, cols: nat): (r: seq<seq<real>>)
    requires IsMatrix(m, rows, cols)
    ensures IsMatrix(r, Min(rows, cols), Max(rows, cols))
  {
    if cols >= rows then m else Transpose(m, rows, cols)
  }

  /** Where the oriented matrix keeps the entry for pair (i, j): at [i][j]
      when there are at least as many columns as rows, otherwise at [j][i]. */
  lemma OrientedEntry(m: seq<seq<real>>, rows: nat, cols: nat, i: nat, j: nat)
    requires IsMatrix(m, rows, cols) && i < rows && j < cols
    ensures cols >= rows ==> Oriented(m, rows, cols)[i][j] == m[i][j]
    ensures cols < rows ==> Oriented(m, rows, cols)[j][i] == m[i][j]
  {
  }

  /** The value of a two-dimensional array, row by row. */
  function Entries(a: array2<real>): (m: seq<seq<real>>)
    reads a
    ensures IsMatrix(m, a.Length0, a.Length1)
    ensures forall i, j :: 0 <= i < a.Length0 && 0 <= j < a.Length1 ==> m[i][j] == a[i, j]
  {
    seq(a.Length0, i reads a requires 0 <= i < a.Length0 =>
      seq(a.Length1, j reads a requires 0 <= j < a.Length1 => a[i, j]))
  }

  /** Two matrices of one shape with the same entries are equal. */
  lemma MatrixExtensionality(m: seq<seq<real>>, n: seq<seq<real>>, rows: nat, cols: nat)
    requires IsMatrix(m, rows, cols) && IsMatrix(n, rows, cols)
    requires forall i, j :: 0 <= i < rows && 0 <= j < cols ==> m[i][j] == n[i][j]
    ensures m == n
  {
    forall i | 0 <= i < rows
      ensures m[i] == n[i]
    {
      assert forall j :: 0 <= j < cols ==> m[i][j] == n[i][j];
    }
  }

  /** Every read m[i][chosen[i]] is inside the matrix. */
  predicate ReadsInside(m: seq<seq<real>>, chosen: seq<int>)
  {
    |chosen| <= |m| &&
    forall i :: 0 <= i < |chosen| ==> 0 <= chosen[i] < |m[i]|
  }

  /** A solver output for a matrix of the solver's shape reads inside it. */
  lemma AssignmentReadsInside(m: seq<seq<real>>, chosen: seq<int>, rows: nat, cols: nat)
    requires IsMatrix(m, rows, cols) && IsAssignment(chosen, rows, cols)
    ensures ReadsInside(m, chosen)
  {
  }

  /** Every entry of `m` is at most 0. */
  predicate NonPositive(m: seq<seq<real>>)
  {
    forall i, j :: 0 <= i < |m| && 0 <= j < |m[i]| ==> m[i][j] <= 0.0
  }

  /** The sum of the negated chosen entries, -m[0][chosen[0]] - m[1][chosen[1]] - ...;
      it is never negative when no entry is positive. */
  function MatchedSum(m: seq<seq<real>>, chosen: seq<int>): (r: real)
    requires ReadsInside(m, chosen)
    ensures NonPositive(m) ==> r >= 0.0
  {
    if chosen == [] then 0.0
    else MatchedSum(m, chosen[..|chosen| - 1]) - m[|chosen| - 1][chosen[|chosen| - 1]]
  }

  /** Every entry of `m` lies in [-1, 0]. */
  predicate EntriesInUnitRange(m: seq<seq<real>>)
  {
    forall i, j :: 0 <= i < |m| && 0 <= j < |m[i]| ==> -1.0 <= m[i][j] <= 0.0
  }

  /** With every entry in [-1, 0], each summand lies in [0, 1], so the
      matched sum lies between 0 and the number of rows matched. */
  lemma {:induction false} MatchedSumBounds(m: seq<seq<real>>, chosen: seq<int>)
    requires ReadsInside(m, chosen) && EntriesInUnitRange(m)
    ensures 0.0 <= MatchedSum(m, chosen) <= |chosen| as real
  {
    if chosen != [] {
      var k := |chosen| - 1;
      MatchedSumBounds(m, chosen[..k]);
      assert -1.0 <= m[k][chosen[k]] <= 0.0;
    }
  }

  /** A precise bound per row: when every negated entry of row r lies in
      [0, bound[r]], the matched sum lies in [0, bound[0] + ... + bound[k-1]]
      for k matched rows. */
  lemma {:induction false} MatchedSumAtMostRowBounds(m: seq<seq<real>>, chosen: seq<int>, bound: seq<int>)
    requires ReadsInside(m, chosen) && |chosen| <= |bound|
    requires forall r, c :: 0 <= r < |m| && 0 <= c < |m[r]| && r < |bound| ==> 0.0 <= -m[r][c] <= bound[r] as real
    ensures 0.0 <= MatchedSum(m, chosen) <= Sum(bound[..|chosen|]) as real
  {
    if chosen != [] {
      var k := |chosen| - 1;
      MatchedSumAtMostRowBounds(m, chosen[..k], bound);
      assert 0.0 <= -m[k][chosen[k]] <= bound[k] as real;
      assert bound[..k + 1] == bound[..k] + [bound[k]];
      SumConcat(bound[..k], [bound[k]]);
      assert Sum([bound[k]]) == bound[k];
    }
  }

  /** An assignment of least total cost: no other assignment has a larger
      matched sum of negated costs. */
  ghost predicate Optimal(m: seq<seq<real>>, chosen: seq<int>, rows: nat, cols: nat)
    requires IsMatrix(m, rows, cols)
  {
    IsAssignment(chosen, rows, cols) &&
    forall other :: IsAssignment(other, rows, cols) ==> MatchedSum(m, other) <= MatchedSum(m, chosen)
  }

  /** A two-dimensional array filled pair by pair in the solver's orientation
      holds exactly the oriented matrix. */
  lemma FilledIsOriented(costs: array2<real>, pm: seq<seq<real>>, rows: nat, cols: nat)
    requires IsMatrix(pm, rows, cols)
    requires costs.Length0 == Min(rows, cols) && costs.Length1 == Max(rows, cols)
    requires forall i, j :: 0 <= i < rows && 0 <= j < cols ==>
      (if cols >= rows then costs[i, j] else costs[j, i]) == pm[i][j]
    ensures Entries(costs) == Oriented(pm, rows, cols)
  {
    forall a, b | 0 <= a < Min(rows, cols) && 0 <= b < Max(rows, cols)
      ensures Entries(costs)[a][b] == Oriented(pm, rows, cols)[a][b]
    {
      if cols >= rows {
        OrientedEntry(pm, rows, cols, a, b);
        assert costs[a, b] == pm[a][b];
      } else {
        OrientedEntry(pm, rows, cols, b, a);
        assert costs[a, b] == pm[b][a];
      }
    }
    MatrixExtensionality(Entries(costs), Oriented(pm, rows, cols), Min(rows, cols), Max(rows, cols));
  }

  /** The loop that adds up the negated chosen entries,
      -costs[0, chosen[0]] - costs[1, chosen[1]] - ... */
  method SumChosen(costs: array2<real>, chosen: seq<int>) returns (sum: real)
    requires ReadsInside(Entries(costs), chosen)
    ensures sum == MatchedSum(Entries(costs), chosen)
  {
    ghost var m := Entries(costs);
    sum := 0.0;
    for i := 0 to |chosen|
      invariant sum == MatchedSum(m, chosen[..i])
    {
      assert chosen[..i + 1][..i] == chosen[..i];
      sum := sum + -costs[i, chosen[i]];
    }
    assert chosen[..|chosen|] == chosen;
  }
}
