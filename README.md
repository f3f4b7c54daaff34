# External cluster validity measures of ELKI, modelled in Dafny

This project models three pieces of ELKI:

- **The Pair Sets Index** (`PairSetsIndex`). This is the measure of Rezaei and Fränti, "Set Matching Measures for External Cluster Validity". It works from a cluster contingency table:
  - It builds a normalised negative cost matrix, transposed when the table has more rows than columns.
  - It hands the matrix to the Kuhn-Munkres-Wong assignment solver.
  - It adds up the chosen pairings into `s`.
  - It sorts the cluster sizes of both clusterings and pairs them index by index into the expected value `e`.
  - It derives the two scores, `psi` and `simplifiedPSI`, both clamped at 0.
- **The Kuhn-Munkres-Wong clustering accuracy** (`KuhnMunkresWongAccuracy`). It counts the elements in the cluster pairs of the solver's one-to-one matching, and divides that count by the number of elements.
- **The "only one of these parameters may be set" global constraint** (`OnlyOneIsAllowedToBeSetGlobalConstraint`). It checks a list of command-line parameters.

Files:

- `contingency.dfy`: the contingency table as a value, with its marginals and the consistency its producer guarantees.
- `matching.dfy`: cost matrices, the solver's contract, and the matched sum.
- `sorting.dfy`: `java.util.Arrays.sort(int[])` as an in-place sort proved to produce the unique ascending permutation.
- `real_facts.dfy`: small division facts.
- `pair_sets_index.dfy`, `kmw_accuracy.dfy` and `kmw_examples.dfy`: the two measures, and worked 3 x 3 examples.
- `only_one_constraint.dfy`: the parameter constraint.

How the Java is modelled:

- Doubles are modelled as exact reals.
- The solver `kmw.run` is a function parameter `solve`. Every result is proved for any solver output that meets the solver's contract, `Matching.IsAssignment`:
  - one column per row;
  - every column in range;
  - no column chosen twice.
- The worked examples also assume the output has the least cost (`Matching.Optimal`).
- The table is an immutable value, so the measures cannot write to it.
- Each measure object is a class whose constructor fills its fields. The loops stay loops over `array2`/`array` with invariants.

Two reads in the accuracy code do not follow the orientation it builds. The sum reads `costs[chosen[i]][i]` (KuhnMunkresWongAccuracy.java:75). The divisor is `contingency[collen][rowlen]` (line 78). The surrounding code points to the other reads:

- The Pair Sets Index reads the same kind of solver output as `costs[i][chosen[i]]` (PairSetsIndex.java:90).
- It divides by the total cell `cont[rowlen][collen]` (PairSetsIndex.java:113).

Both readings are modelled:

- `KuhnMunkresWongAccuracy.AccuracyAsWritten` and `ReversedAccuracy` follow the code as written.
- The lemmas `ReversedReadsInsideIffSquare` and `TransposedTotalCell` show that the code's reads stay inside the arrays only on square tables.
- `CyclicAccuracy` shows that the code's value is wrong even on some square tables.
- The class computes the intended accuracy, `costs[i][chosen[i]]` over the total cell (see Findings).

## Model

| member | source | states |
|---|---|---|
| Matching.OrientedEntry | elki-clustering/src/main/java/elki/evaluation/clustering/PairSetsIndex.java:67-82 | the solver's matrix keeps pair (i, j) at [i][j] when size2 >= size1 and at [j][i] otherwise, so the else branch is the transpose |
| Matching.Transpose | elki-clustering/src/main/java/elki/evaluation/clustering/PairSetsIndex.java:75-82 | the transpose of a rows x cols matrix is cols x rows |
| Matching.Oriented | elki-clustering/src/main/java/elki/evaluation/clustering/PairSetsIndex.java:67-82 | the matrix handed to the solver has min(size1, size2) rows and max(size1, size2) columns |
| Matching.AssignmentReadsInside | elki-clustering/src/main/java/elki/evaluation/clustering/PairSetsIndex.java:89-91 | for every output meeting the solver's contract, each read costs[i][chosen[i]] is inside the matrix |
| Matching.MatchedSum | elki-clustering/src/main/java/elki/evaluation/clustering/PairSetsIndex.java:88-91 | the sum of -costs[i][chosen[i]] over the chosen rows is never negative when no cost is positive |
| Matching.MatchedSumBounds | elki-clustering/src/main/java/elki/evaluation/clustering/PairSetsIndex.java:88-91 | with every cost in [-1, 0], every summand of s lies in [0, 1] and s lies in [0, number of matched rows] |
| Matching.MatchedSumAtMostRowBounds | elki-clustering/src/main/java/elki/evaluation/clustering/KuhnMunkresWongAccuracy.java:73-76 | when the negated costs of each row are at most that row's cluster size, the matched sum lies between 0 and the sum of those sizes |
| Matching.FilledIsOriented | elki-clustering/src/main/java/elki/evaluation/clustering/KuhnMunkresWongAccuracy.java:52-67 | an array filled pair by pair in either orientation holds exactly the oriented matrix |
| Matching.SumChosen | elki-clustering/src/main/java/elki/evaluation/clustering/PairSetsIndex.java:88-91 | the loop's result is the sum over i < chosen.length of -costs[i][chosen[i]] |
| Sorting.SortedCopy | elki-clustering/src/main/java/elki/evaluation/clustering/PairSetsIndex.java:106-107 | the sorted copy is ascending and a permutation of its input |
| Sorting.AscendingPermutationUnique | elki-clustering/src/main/java/elki/evaluation/clustering/PairSetsIndex.java:106-107 | two ascending sequences with the same elements are equal, so the sort's result is determined |
| Sorting.SortedCopyLength | elki-clustering/src/main/java/elki/evaluation/clustering/PairSetsIndex.java:106-107 | sorting keeps the length |
| Sorting.SortedCopyElement | elki-clustering/src/main/java/elki/evaluation/clustering/PairSetsIndex.java:106-107 | every element of the sorted copy occurs in the input |
| Sorting.Sort | elki-clustering/src/main/java/elki/evaluation/clustering/PairSetsIndex.java:106-107 | sorting in place leaves the array holding the ascending permutation of its old contents |
| PairSetsIndex.PairCost | elki-clustering/src/main/java/elki/evaluation/clustering/PairSetsIndex.java:71 | the cost -cont[i][j] / max(size_j, size_i) of a pair is never positive for a non-negative count, and 0 exactly when the two clusters share no element |
| PairSetsIndex.PairCostInUnitRange | elki-clustering/src/main/java/elki/evaluation/clustering/PairSetsIndex.java:71 | with 0 <= count <= both cluster sizes and a positive larger size, the cost -count / max(size_j, size_i) lies in [-1, 0] |
| PairSetsIndex.PairCosts | elki-clustering/src/main/java/elki/evaluation/clustering/PairSetsIndex.java:69-73 | the normalised costs in table orientation form a size1 x size2 matrix |
| PairSetsIndex.Costs | elki-clustering/src/main/java/elki/evaluation/clustering/PairSetsIndex.java:67-82 | the solver's cost matrix has min(size1, size2) rows and max(size1, size2) columns |
| PairSetsIndex.CostsInUnitRange | elki-clustering/src/main/java/elki/evaluation/clustering/PairSetsIndex.java:67-82 | every entry of the solver's cost matrix lies in [-1, 0] |
| PairSetsIndex.BuildCosts | elki-clustering/src/main/java/elki/evaluation/clustering/PairSetsIndex.java:64-82 | the array is min x max; the cost of pair (i, j) sits at [i, j] when size2 >= size1 and at [j, i] otherwise |
| PairSetsIndex.BuiltCostsAreCosts | elki-clustering/src/main/java/elki/evaluation/clustering/PairSetsIndex.java:67-82 | the filled array is exactly the oriented cost matrix handed to the solver |
| PairSetsIndex.ExpectedTerm | elki-clustering/src/main/java/elki/evaluation/clustering/PairSetsIndex.java:113 | the summand (a*b/n)/max(a, b) is never negative for cluster sizes a, b and n > 0 |
| PairSetsIndex.ExpectedTermIsSmallerSizeOverTotal | elki-clustering/src/main/java/elki/evaluation/clustering/PairSetsIndex.java:113 | each summand (a*b/n)/max(a, b) equals min(a, b)/n |
| PairSetsIndex.SortedRowMarginals | elki-clustering/src/main/java/elki/evaluation/clustering/PairSetsIndex.java:95-107 | the first clustering's sizes after `Arrays.sort`: size1 values, ascending, a permutation of the row marginals |
| PairSetsIndex.SortedColMarginals | elki-clustering/src/main/java/elki/evaluation/clustering/PairSetsIndex.java:95-107 | the second clustering's sizes after `Arrays.sort`: size2 values, ascending, a permutation of the column marginals |
| PairSetsIndex.TotalPositive | elki-clustering/src/main/java/elki/evaluation/clustering/PairSetsIndex.java:113 | with positive pair maxima and at least one cluster in each clustering, the number of elements n is positive |
| PairSetsIndex.SortedPairMaximumPositive | elki-clustering/src/main/java/elki/evaluation/clustering/PairSetsIndex.java:113 | after sorting, no index pairs two empty clusters, so max(a[k], b[k]) > 0 |
| PairSetsIndex.ExpectedWellDefined | elki-clustering/src/main/java/elki/evaluation/clustering/PairSetsIndex.java:110-114 | every division in the e loop is by a positive number |
| PairSetsIndex.SumSortedCopy | elki-clustering/src/main/java/elki/evaluation/clustering/PairSetsIndex.java:106-107 | sorting keeps the sum of the cluster sizes |
| PairSetsIndex.SortedCopyNonNegative | elki-clustering/src/main/java/elki/evaluation/clustering/PairSetsIndex.java:106-107 | sorting non-negative sizes gives non-negative sizes |
| PairSetsIndex.Expected | elki-clustering/src/main/java/elki/evaluation/clustering/PairSetsIndex.java:110-114 | the sum of the first k summands of e is never negative for cluster sizes and n > 0 |
| PairSetsIndex.ExpectedAtMostPrefixShare | elki-clustering/src/main/java/elki/evaluation/clustering/PairSetsIndex.java:110-114 | the first k summands add up to between 0 and (a[0] + ... + a[k-1]) / n |
| PairSetsIndex.ExpectedAtMostOne | elki-clustering/src/main/java/elki/evaluation/clustering/PairSetsIndex.java:110-114 | when the sizes add up to n, e lies in [0, 1] |
| PairSetsIndex.SortedExpectedInUnitInterval | elki-clustering/src/main/java/elki/evaluation/clustering/PairSetsIndex.java:104-114 | for a consistent table the e loop over the sorted sizes divides by no zero and its result lies in [0, 1] |
| PairSetsIndex.ExpectedValue | elki-clustering/src/main/java/elki/evaluation/clustering/PairSetsIndex.java:104-114 | the expected value e of a consistent table, from the sorted cluster sizes with the exact product, lies in [0, 1] |
| PairSetsIndex.SimplifiedPsiScore | elki-clustering/src/main/java/elki/evaluation/clustering/PairSetsIndex.java:117 | the simplified index is 0 exactly when s <= 1, and 1 when s = max(size1, size2) >= 2 |
| PairSetsIndex.PsiScore | elki-clustering/src/main/java/elki/evaluation/clustering/PairSetsIndex.java:118 | the index is 0 exactly when s <= e, and 1 when s = max(size1, size2) > e |
| PairSetsIndex.ScoresInUnitInterval | elki-clustering/src/main/java/elki/evaluation/clustering/PairSetsIndex.java:117-118 | with s in [0, max], e in [0, max) and s >= 1 implying max >= 2, both clamped scores lie in [0, 1] |
| PairSetsIndex.Observed | elki-clustering/src/main/java/elki/evaluation/clustering/PairSetsIndex.java:88-91 | s, the matched sum of the solver's assignment on the cost matrix, lies between 0 and min(size1, size2) |
| PairSetsIndex.GeneralPathScores | elki-clustering/src/main/java/elki/evaluation/clustering/PairSetsIndex.java:88-118 | on the general path s lies in [0, min(size1, size2)], e in [0, 1] and below max(size1, size2), and s >= 1 forces max >= 2; hence neither score divides by zero and both lie in [0, 1] |
| PairSetsIndex.ExpectedSum | elki-clustering/src/main/java/elki/evaluation/clustering/PairSetsIndex.java:110-114 | the loop's result is the sum over k < min(size1, size2) of (a[k]*b[k]/n)/max(a[k], b[k]) over the sorted arrays |
| PairSetsIndex.RowSizes | elki-clustering/src/main/java/elki/evaluation/clustering/PairSetsIndex.java:95-98 | the fresh array holds cont[i][collen] for every i: the first clustering's sizes |
| PairSetsIndex.ColumnSizes | elki-clustering/src/main/java/elki/evaluation/clustering/PairSetsIndex.java:100-103 | the fresh array holds cont[rowlen][i] for every i: the second clustering's sizes |
| PairSetsIndex.ObservedAndExpected | elki-clustering/src/main/java/elki/evaluation/clustering/PairSetsIndex.java:64-114 | the general path computes s as the matched sum of the solver's assignment on the cost matrix, and e from the sorted sizes with the exact product, which is the source's e whenever the products fit in an int |
| PairSetsIndex.PairSetsIndex.constructor | elki-clustering/src/main/java/elki/evaluation/clustering/PairSetsIndex.java:57-119 | a 1 x 1 table gives psi = simplifiedPSI = 1 with s = e = 0 and no solver call; any other table gives s and e as above (e equal to the source's int-product value whenever the products fit in an int), simplifiedPSI = 0 if s < 1 else (s-1)/(max-1), psi = 0 if s < e else (s-e)/(max-e), both in [0, 1] |
| PairSetsIndex.PairSetsIndex.Psi | elki-clustering/src/main/java/elki/evaluation/clustering/PairSetsIndex.java:125-127 | returns psi, a value in [0, 1] |
| PairSetsIndex.PairSetsIndex.SimplifiedPsi | elki-clustering/src/main/java/elki/evaluation/clustering/PairSetsIndex.java:134-136 | returns simplifiedPSI, a value in [0, 1] |
| PairSetsIndex.Int32 | elki-clustering/src/main/java/elki/evaluation/clustering/PairSetsIndex.java:113 | the Java int value of x: the one value in [-2^31, 2^31) congruent to x modulo 2^32, equal to x when x fits |
| PairSetsIndex.ExpectedTermAsWritten | elki-clustering/src/main/java/elki/evaluation/clustering/PairSetsIndex.java:113 | the summand with the int product `firstlevelOrder[i] * secondlevelOrder[i]`; it equals the exact summand while the product fits in an int |
| PairSetsIndex.ExpectedAsWritten | elki-clustering/src/main/java/elki/evaluation/clustering/PairSetsIndex.java:110-114 | the e loop as written, with the int product; while every product of paired sizes fits in an int it equals the exact sum |
| PairSetsIndex.ExpectedValueAsWritten | elki-clustering/src/main/java/elki/evaluation/clustering/PairSetsIndex.java:104-114 | the e the source computes for a table; it equals the exact e whenever every product of paired sorted sizes fits in an int |
| PairSetsIndex.OverflowTableConsistent | elki-clustering/src/main/java/elki/evaluation/clustering/PairSetsIndex.java:95-103 | the 2 x 2 table with 100000 elements is consistent, and its clusters all have 50000 elements |
| PairSetsIndex.OverflowSortedSizes | elki-clustering/src/main/java/elki/evaluation/clustering/PairSetsIndex.java:106-107 | the sorted sizes of that table are [50000, 50000] on both sides |
| PairSetsIndex.ExpectedOverflowExample | elki-clustering/src/main/java/elki/evaluation/clustering/PairSetsIndex.java:113 | on that table the exact e is 1 but the int product 50000*50000 wraps, the products do not all fit in an int, and the e the code computes is negative |
| KuhnMunkresWongAccuracy.NegatedCounts | elki-clustering/src/main/java/elki/evaluation/clustering/KuhnMunkresWongAccuracy.java:56 | the size1 x size2 matrix holds -cont[i][j] at (i, j) |
| KuhnMunkresWongAccuracy.AccuracyCosts | elki-clustering/src/main/java/elki/evaluation/clustering/KuhnMunkresWongAccuracy.java:52-67 | the solver's cost matrix has min(size1, size2) rows and max(size1, size2) columns |
| KuhnMunkresWongAccuracy.BuildAccuracyCosts | elki-clustering/src/main/java/elki/evaluation/clustering/KuhnMunkresWongAccuracy.java:48-67 | the array is min x max; -cont[i][j] sits at [i, j] when size2 >= size1 and at [j, i] otherwise; the array is exactly the oriented matrix |
| KuhnMunkresWongAccuracy.AccuracyCostsBounded | elki-clustering/src/main/java/elki/evaluation/clustering/KuhnMunkresWongAccuracy.java:52-67 | with non-negative counts every cost is <= 0, and its negation is at most the size of the cluster its row stands for |
| KuhnMunkresWongAccuracy.MatchedCountAtMostTotal | elki-clustering/src/main/java/elki/evaluation/clustering/KuhnMunkresWongAccuracy.java:72-76 | for every table shape, the solver's reads stay inside the matrix and the matched count lies between 0 and the number of elements |
| KuhnMunkresWongAccuracy.CorrectAssociations | elki-clustering/src/main/java/elki/evaluation/clustering/KuhnMunkresWongAccuracy.java:72-76 | the number of elements in the solver's matched cluster pairs, read as costs[i][chosen[i]], lies between 0 and the number of elements |
| KuhnMunkresWongAccuracy.IntendedAccuracy | elki-clustering/src/main/java/elki/evaluation/clustering/KuhnMunkresWongAccuracy.java:72-78 | the matched count over the number of elements lies in [0, 1] for every table shape |
| KuhnMunkresWongAccuracy.KuhnMunkresWongAccuracy.constructor | elki-clustering/src/main/java/elki/evaluation/clustering/KuhnMunkresWongAccuracy.java:47-79 | accuracy is the matched count of the solver's assignment, read as costs[i][chosen[i]], over the number of elements, and lies in [0, 1] (the intended reads; see Findings) |
| KuhnMunkresWongAccuracy.KuhnMunkresWongAccuracy.GetAccuracy | elki-clustering/src/main/java/elki/evaluation/clustering/KuhnMunkresWongAccuracy.java:85-87 | returns accuracy, a value in [0, 1] |
| KuhnMunkresWongAccuracy.ReversedMatchedSum | elki-clustering/src/main/java/elki/evaluation/clustering/KuhnMunkresWongAccuracy.java:73-76 | the sum of -costs[chosen[i]][i] as written is never negative when no cost is positive |
| KuhnMunkresWongAccuracy.ReversedReadsInsideIffSquare | elki-clustering/src/main/java/elki/evaluation/clustering/KuhnMunkresWongAccuracy.java:75 | for a solver matrix with 0 < rows <= cols, the read costs[chosen[i]][i] stays inside the matrix for every assignment iff rows = cols |
| KuhnMunkresWongAccuracy.TransposedTotalCell | elki-clustering/src/main/java/elki/evaluation/clustering/KuhnMunkresWongAccuracy.java:78 | the divisor cell contingency[collen][rowlen] is inside the table iff size1 = size2, and then it is the number of elements |
| KuhnMunkresWongAccuracy.ReversedMatchedSumAtMostColumnBounds | elki-clustering/src/main/java/elki/evaluation/clustering/KuhnMunkresWongAccuracy.java:73-76 | when the negated costs of column c are at most bound[c], the reversed sum lies between 0 and the sum of the bounds |
| KuhnMunkresWongAccuracy.SquareAssignmentReadsInside | elki-clustering/src/main/java/elki/evaluation/clustering/KuhnMunkresWongAccuracy.java:75 | on a square table every assignment's reversed reads stay inside the matrix |
| KuhnMunkresWongAccuracy.ReversedAccuracyInUnitInterval | elki-clustering/src/main/java/elki/evaluation/clustering/KuhnMunkresWongAccuracy.java:73-78 | on a square consistent table the reversed sum over the number of elements lies in [0, 1] |
| KuhnMunkresWongAccuracy.ReversedAccuracy | elki-clustering/src/main/java/elki/evaluation/clustering/KuhnMunkresWongAccuracy.java:73-78 | the accuracy as written, the reversed sum over cell (size2, size1), lies in [0, 1] on square tables |
| KuhnMunkresWongAccuracy.ReversedCorrectAssociations | elki-clustering/src/main/java/elki/evaluation/clustering/KuhnMunkresWongAccuracy.java:73-76 | the loop's result is the sum over i < chosen.length of -costs[chosen[i]][i] |
| KuhnMunkresWongAccuracy.AccuracyAsWritten | elki-clustering/src/main/java/elki/evaluation/clustering/KuhnMunkresWongAccuracy.java:47-79 | the code as written, defined on square consistent tables with elements, yields ReversedAccuracy |
| KuhnMunkresWongExamples.ThreeByThreeAssignments | elki-clustering/src/main/java/elki/evaluation/clustering/KuhnMunkresWongAccuracy.java:69-70 | a solver output for a 3 x 3 matrix is one of the six permutations of [0, 1, 2] |
| KuhnMunkresWongExamples.MatchedSumOfThree | elki-clustering/src/main/java/elki/evaluation/clustering/KuhnMunkresWongAccuracy.java:73-76 | the matched sum of three rows is -m[0][c0] - m[1][c1] - m[2][c2] |
| KuhnMunkresWongExamples.ReversedMatchedSumOfThree | elki-clustering/src/main/java/elki/evaluation/clustering/KuhnMunkresWongAccuracy.java:73-76 | the reversed sum of three rows is -m[c0][0] - m[c1][1] - m[c2][2] |
| KuhnMunkresWongExamples.SklearnTableConsistent | elki-clustering/src/test/java/elki/evaluation/clustering/KuhnMunkresWongAccuracyTest.java:42 | the 3 x 3 table with 17 elements is consistent |
| KuhnMunkresWongExamples.SklearnCosts | elki-clustering/src/main/java/elki/evaluation/clustering/KuhnMunkresWongAccuracy.java:52-58 | its cost matrix is the negated 3 x 3 count block |
| KuhnMunkresWongExamples.SklearnOptimum | elki-clustering/src/main/java/elki/evaluation/clustering/KuhnMunkresWongAccuracy.java:69-70 | the identity is its only least-cost assignment |
| KuhnMunkresWongExamples.SklearnDefined | elki-clustering/src/test/java/elki/evaluation/clustering/KuhnMunkresWongAccuracyTest.java:42-43 | the table meets the as-written accuracy's preconditions |
| KuhnMunkresWongExamples.SklearnIntended | elki-clustering/src/test/java/elki/evaluation/clustering/KuhnMunkresWongAccuracyTest.java:45 | under the identity assignment the intended accuracy is 12/17 |
| KuhnMunkresWongExamples.SklearnReversed | elki-clustering/src/test/java/elki/evaluation/clustering/KuhnMunkresWongAccuracyTest.java:45 | under the identity assignment the as-written accuracy is 12/17 |
| KuhnMunkresWongExamples.SklearnAccuracy | elki-clustering/src/test/java/elki/evaluation/clustering/KuhnMunkresWongAccuracyTest.java:40-46 | given any least-cost solver, both the intended and the as-written accuracy of the test's table are 12/17 |
| KuhnMunkresWongExamples.CyclicTableConsistent | elki-clustering/src/main/java/elki/evaluation/clustering/KuhnMunkresWongAccuracy.java:47-50 | the cyclic 3 x 3 table with 15 elements is consistent |
| KuhnMunkresWongExamples.CyclicCosts | elki-clustering/src/main/java/elki/evaluation/clustering/KuhnMunkresWongAccuracy.java:52-58 | its cost matrix is the negated cyclic count block |
| KuhnMunkresWongExamples.CyclicOptimum | elki-clustering/src/main/java/elki/evaluation/clustering/KuhnMunkresWongAccuracy.java:69-70 | [1, 2, 0] is its only least-cost assignment |
| KuhnMunkresWongExamples.CyclicDefined | elki-clustering/src/main/java/elki/evaluation/clustering/KuhnMunkresWongAccuracy.java:75-78 | the table meets the as-written accuracy's preconditions |
| KuhnMunkresWongExamples.CyclicIntended | elki-clustering/src/main/java/elki/evaluation/clustering/KuhnMunkresWongAccuracy.java:72-78 | under [1, 2, 0] the intended accuracy is 1 |
| KuhnMunkresWongExamples.CyclicReversed | elki-clustering/src/main/java/elki/evaluation/clustering/KuhnMunkresWongAccuracy.java:75 | under [1, 2, 0] the as-written accuracy is 0 |
| KuhnMunkresWongExamples.CyclicAccuracy | elki-clustering/src/main/java/elki/evaluation/clustering/KuhnMunkresWongAccuracy.java:73-78 | given any least-cost solver, the intended accuracy is 1 and the as-written accuracy is 0 |
| ParameterConstraints.Parameter.constructor | src/de/lmu/ifi/dbs/utilities/optionhandling/constraints/OnlyOneIsAllowedToBeSetGlobalConstraint.java:46-47 | a parameter carries the name and the set flag that test() reads |
| ParameterConstraints.Names | src/de/lmu/ifi/dbs/utilities/optionhandling/constraints/OnlyOneIsAllowedToBeSetGlobalConstraint.java:61 | the names of the parameters, one per parameter, in list order |
| ParameterConstraints.SetNames | src/de/lmu/ifi/dbs/utilities/optionhandling/constraints/OnlyOneIsAllowedToBeSetGlobalConstraint.java:44-49 | the collected names are at most one per parameter, none when no parameter is set, and every name in list order when all are set |
| ParameterConstraints.SetNamesConcat | src/de/lmu/ifi/dbs/utilities/optionhandling/constraints/OnlyOneIsAllowedToBeSetGlobalConstraint.java:44-49 | collecting the set names keeps list order: the names from a front part come first |
| ParameterConstraints.SetNamesMembership | src/de/lmu/ifi/dbs/utilities/optionhandling/constraints/OnlyOneIsAllowedToBeSetGlobalConstraint.java:44-49 | a name is collected iff some set parameter carries it |
| ParameterConstraints.SomeSetIff | src/de/lmu/ifi/dbs/utilities/optionhandling/constraints/OnlyOneIsAllowedToBeSetGlobalConstraint.java:44-49 | at least one name is collected iff some parameter is set |
| ParameterConstraints.MoreThanOneSetIff | src/de/lmu/ifi/dbs/utilities/optionhandling/constraints/OnlyOneIsAllowedToBeSetGlobalConstraint.java:50 | more than one name is collected iff two parameters at different positions are set |
| ParameterConstraints.ContainsConcat | src/de/lmu/ifi/dbs/utilities/optionhandling/constraints/OnlyOneIsAllowedToBeSetGlobalConstraint.java:61 | text found in either part of a concatenation is found in the whole |
| ParameterConstraints.ContainsWhole | src/de/lmu/ifi/dbs/utilities/optionhandling/constraints/OnlyOneIsAllowedToBeSetGlobalConstraint.java:61 | a string contains itself |
| ParameterConstraints.JoinContainsEveryName | src/de/lmu/ifi/dbs/utilities/optionhandling/constraints/OnlyOneIsAllowedToBeSetGlobalConstraint.java:61 | the comma-joined list contains every name |
| ParameterConstraints.NamesToStringContainsEveryName | src/de/lmu/ifi/dbs/utilities/optionhandling/constraints/OnlyOneIsAllowedToBeSetGlobalConstraint.java:61 | the bracketed name list contains every name |
| ParameterConstraints.OnlyOneIsAllowedToBeSetGlobalConstraint.constructor | src/de/lmu/ifi/dbs/utilities/optionhandling/constraints/OnlyOneIsAllowedToBeSetGlobalConstraint.java:32-35 | the constraint stores the given list unchanged |
| ParameterConstraints.OnlyOneIsAllowedToBeSetGlobalConstraint.Test | src/de/lmu/ifi/dbs/utilities/optionhandling/constraints/OnlyOneIsAllowedToBeSetGlobalConstraint.java:43-55 | fails iff two parameters of the list are set (iff more than one name is collected); the failure carries the names of the set parameters in list order; with zero or one set, including an empty list, it passes; it changes nothing |
| ParameterConstraints.OnlyOneIsAllowedToBeSetGlobalConstraint.GetDescription | src/de/lmu/ifi/dbs/utilities/optionhandling/constraints/OnlyOneIsAllowedToBeSetGlobalConstraint.java:60-62 | the description mentions every constrained parameter's name and reads only the list, never whether a parameter is set |

## Left out

- The Kuhn-Munkres-Wong solver (`elki.utilities.datastructures.KuhnMunkresWong`) is not part of this model. It is a function parameter with the contract `IsAssignment`: one column per row of the min x max matrix, as PairSetsIndex.java:90 reads it. Optimality is assumed only in the worked examples; nothing outside them is proved about the best matching.
- The construction of `ClusterContingencyTable` is not part of this model. The table is a value that meets `Consistent()`: non-negative counts, and marginals that are the sums of their rows and columns.
- Floating point is not modelled: doubles are exact reals. NaN, infinities and rounding are not modelled, and the test's 1e-15 tolerance becomes exact equality.
- PairSetsIndex.PairSetsIndex.constructor: the model does not cover two inputs.
  - Tables where some pair of clusters is empty on both sides. There the source divides 0 by 0 at PairSetsIndex.java:71 and stores NaN.
  - The 0 x 0 table. There psi is 0/0.
  - Both are excluded by the precondition, because reals have no NaN.
- PairSetsIndex.ExpectedSum: multiplies the paired sizes exactly, while PairSetsIndex.java:113 multiplies two Java ints, which wraps once the product passes 2^31 - 1. The source's value is `ExpectedAsWritten`. The two agree while every paired product fits in an int (the ensures of `ExpectedAsWritten`).
- PairSetsIndex.ObservedAndExpected: its e uses the exact product, not the wrapping int product of PairSetsIndex.java:113. Its ensures states that e is the source's value `ExpectedValueAsWritten` whenever every paired product fits in an int, and beyond that bound it is not.
- PairSetsIndex.PairSetsIndex.constructor: stores e and psi computed with the exact product. On tables whose paired sizes exceed the int range it does not store what the source stores; on `OverflowTable` it stores e = 1 where the source's e is negative (`ExpectedOverflowExample`). Its ensures ties e to `ExpectedValueAsWritten` whenever every paired product fits in an int.
- KuhnMunkresWongAccuracy.KuhnMunkresWongAccuracy.constructor: computes the intended accuracy, reading `costs[i][chosen[i]]` and dividing by cell (size1, size2). It does not compute what KuhnMunkresWongAccuracy.java:75 and :78 compute; the source's value is `ReversedAccuracy`, computed by `AccuracyAsWritten`, and the two differ on the cyclic table (`CyclicAccuracy`).
- KuhnMunkresWongAccuracy.KuhnMunkresWongAccuracy.constructor: the model does not cover a table with no elements, where the source stores 0/0 (NaN). The precondition requires a positive number of elements.
- KuhnMunkresWongAccuracy.AccuracyAsWritten: the model does not cover non-square tables. There the source may throw ArrayIndexOutOfBoundsException: at line 78 if the table is allocated as (size1+1) x (size2+1) with the marginals in the last row and column, as PairSetsIndex.java:95-103 reads it (`ClusterContingencyTable` is not part of this model), and at line 75 when the solver chooses a column >= the number of rows. The precondition requires a square table. The lemmas `ReversedReadsInsideIffSquare` and `TransposedTotalCell` state when the reads go outside.
- The console output `System.out.println(Arrays.toString(chosen))` (KuhnMunkresWongAccuracy.java:71) is not modelled.
- The logging base class `AbstractLoggable` and its `LoggingConfiguration.DEBUG` argument are not modelled.
- `Util.optionsNamesToString` is not part of this model. It is rendered as "[a,b,c]".
- ParameterConstraints.OnlyOneIsAllowedToBeSetGlobalConstraint.GetDescription: the contract states that every name appears in the text, not the exact text, because the rendering of the list is assumed.
- ParameterConstraints.OnlyOneIsAllowedToBeSetGlobalConstraint.Test: the exception's message text (including `Vector.toString`) is not modelled. The failure carries the rendered list of all parameters and the sequence of set names.
- The `Parameter` class is not part of this model beyond `getName()` and `isSet()`.
- The worked 12/17 example uses the 3 x 3 table [[5,1,0],[1,4,1],[2,0,3]]. The label arrays that produce it live in `AbstractClusterEvaluationTest`, which is not part of this model.
- DiskCacheBasedFloatDistanceFunction.java (on-disk matrix reads) is not part of this model. Neither is SelectionContext.java (GUI selection state).

## Findings

| source | as written | input that shows it | evidently intended | confidence | as-written member | corrected member |
|---|---|---|---|---|---|---|
| elki-clustering/src/main/java/elki/evaluation/clustering/PairSetsIndex.java:113 | `firstlevelOrder[i] * secondlevelOrder[i]` is an int product and wraps past 2^31 - 1 (cluster sizes above 46340) | 2 x 2 table [[40000,10000],[10000,40000]] with 100000 elements: 50000 * 50000 wraps to -1794967296 and e comes out negative | the exact product, giving e = 1 | not executed | PairSetsIndex.ExpectedOverflowExample | PairSetsIndex.ExpectedValue |
| elki-clustering/src/main/java/elki/evaluation/clustering/KuhnMunkresWongAccuracy.java:75 | reads `costs[chosen[i]][i]`, which follows the inverse of the assignment | 3 x 3 cyclic table [[0,5,0],[0,0,5],[5,0,0]], whose only least-cost assignment is [1,2,0]: the sum reads three empty cells and the accuracy is 0 | `costs[i][chosen[i]]` as at PairSetsIndex.java:90, giving accuracy 1 | not executed; assumes the solver returns one column per row, as PairSetsIndex.java:90 reads it (the solver's source is not part of this model) | KuhnMunkresWongExamples.CyclicAccuracy | KuhnMunkresWongAccuracy.IntendedAccuracy |
| elki-clustering/src/main/java/elki/evaluation/clustering/KuhnMunkresWongAccuracy.java:75 | on a table with fewer rows than columns the read `costs[chosen[i]][i]` can leave the min x max matrix | any 2 x 3 table, with a solver output that uses column 2 | `costs[i][chosen[i]]`, which is inside the matrix for every solver output | not executed; assumes the solver returns one column per row, as PairSetsIndex.java:90 reads it (the solver's source is not part of this model) | KuhnMunkresWongAccuracy.ReversedReadsInsideIffSquare | Matching.AssignmentReadsInside |
| elki-clustering/src/main/java/elki/evaluation/clustering/KuhnMunkresWongAccuracy.java:78 | divides by `contingency[collen][rowlen]` | any table with size1 != size2, e.g. 2 x 3: row index 3 of a 3-row array | `contingency[rowlen][collen]`, the number of elements | not executed; the out-of-bounds read assumes the table is allocated as (size1+1) x (size2+1) with the marginals in the last row and column, as PairSetsIndex.java:95-103 reads it (`ClusterContingencyTable` is not part of this model) | KuhnMunkresWongAccuracy.TransposedTotalCell | KuhnMunkresWongAccuracy.IntendedAccuracy |
