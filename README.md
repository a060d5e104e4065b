# Four puzzle solvers, modelled in Dafny

This project models the logic of four Rust puzzle solvers and proves properties of them. Each crate's core becomes one
module. Every module starts from input that has already been parsed.

- **Day1**: list distance and similarity. It works on a sequence of `(left, right)` number pairs.
  - Part 1 collects both columns, sorts each column and sums the pairwise absolute differences.
  - Part 2 tallies the right column in a map and sums every left value weighed by its count.
- **Day2**: the report validator. It works on a sequence of reports, each a sequence of levels.
  - Part 1 counts the safe reports: all steps strictly up or all strictly down, each with a difference of 1 to 3.
  - Part 2 counts the reports that `verify_line` accepts. `remove_anomaly` builds two candidates around the first
    violating pair, and `verify_line` re-checks them.
- **Day3**: the corrupted-memory machine. It works on the raw text.
  - A hand-written recogniser stands in for the two regular expressions.
  - Part 1 sums the products of all `mul(x,y)` commands.
  - Part 2 walks the commands with an enable flag that `do()` and `don't()` switch.
- **Day4**: the word grid. It works on rows of characters.
  - It has four bounds-guarded probes for `XMAS`/`SAMX`, and the X-shaped `MAS` matcher (`XMasBlock`, `text_x_mas`).
  - The nested counting loops of both parts are modelled as methods with loop invariants. The inner loop of part 1
    is the method `CountWordsInRow`, and its body's four probe tests form the method `CountWordsAt`.
- **Day2Examples** and **Day3Examples**: the crates' unit tests, restated as lemmas. Day 4's tests are the `Sample*`
  lemmas of `Day4`.
- **Wrappers**: the `Option` datatype.

In-place steps are methods with loops proved against specification functions:
- the column-building folds and the count map (`Day1.Columns`, `Day1.Tally`);
- the counting loops (`Day2.Part1`, `Day4.Part1`, `Day4.Part2`);
- the flag-and-accumulator loop of day 3's part 2 (`Day3.Part2`).

The pure iterator pipelines are functions: `remove_anomaly`, `verify_line`, the probes, the regex scans and the sums.

`verify_line` is modelled as the code is written. It takes one direction from the first and last levels of the first
candidate, and uses it for the second candidate as well. A stricter reading judges each candidate in the direction of
its own first two levels, as part 1 judges a report; the model defines that check too (`Day2.VerifyLineIntended`). The
difference between the two is under "Findings".

## Model

| member | source | states |
|---|---|---|
| Day1.AbsDiff | day1/src/lib.rs:34 | the absolute difference: adding it to the smaller value gives the larger |
| Day1.Column | day1/src/lib.rs:24-25 | each input line adds exactly one value to a column, so the column is as long as the input and entry i comes from line i |
| Day1.Columns | day1/src/lib.rs:15-27 | the fold builds two columns of equal length: the left and the right values in input order |
| Day1.Insert | day1/src/lib.rs:28-29 | inserting into a sorted sequence keeps it sorted and adds exactly one copy of the value |
| Day1.SortedHeads | day1/src/lib.rs:28-29 | two ascending arrangements of one multiset start with the same value |
| Day1.Sort | day1/src/lib.rs:28-29 | the sort returns an ascending permutation of its input |
| Day1.SortedUnique | day1/src/lib.rs:28-29 | two ascending sequences with the same multiset are equal, so the sorted column does not depend on how it was sorted |
| Day1.SumAbsDiff | day1/src/lib.rs:31-35 | no contract: the pairwise differences summed, up to the shorter column; SumAbsDiffSymmetric and SumAbsDiffZero state its meaning |
| Day1.Distance | day1/src/lib.rs:28-35 | no contract: the sum of the differences of the two sorted columns; Part1 returns it, and DistanceOfSortedColumns, DistanceReorder, DistanceSwap and DistanceZero state its meaning |
| Day1.Part1 | day1/src/lib.rs:12-36 | part 1 returns the distance: the sum of the pairwise differences of the sorted columns |
| Day1.DistanceOfSortedColumns | day1/src/lib.rs:28-35 | any ascending arrangement of each column gives the same distance |
| Day1.ColumnPermutation | day1/src/lib.rs:15-27 | reordering the input lines permutes each column |
| Day1.DistanceReorder | day1/src/lib.rs:28-35 | the distance does not change when the input lines are reordered |
| Day1.SumAbsDiffSymmetric | day1/src/lib.rs:31-35 | summing the differences is symmetric in the two columns |
| Day1.DistanceSwap | day1/src/lib.rs:28-35 | swapping the two columns of every line leaves the distance unchanged |
| Day1.SumAbsDiffZero | day1/src/lib.rs:31-35 | for equal lengths, the sum of the differences is 0 exactly when the sequences are equal |
| Day1.DistanceZero | day1/src/lib.rs:28-35 | the distance is 0 exactly when both columns hold the same multiset of values |
| Day1.CountOf | day1/src/lib.rs:56 | no contract: the lookup with a default of 0; CountOfCounts and WeightedSumCounts state its meaning |
| Day1.Counts | day1/src/lib.rs:41-53 | no contract: the count map built one right value at a time; CountsTally states its meaning, and Tally returns it |
| Day1.CountOfCounts | day1/src/lib.rs:56 | the weight read from the count map of the right column is the number of times the value occurs there, and 0 for a value that never occurs there |
| Day1.Tally | day1/src/lib.rs:41-53 | after the fold, the left column is in input order and the map is the count map of the right column, built one value at a time as the loop builds it |
| Day1.TallyStep | day1/src/lib.rs:50 | adding one to a value's entry, creating it at 1, keeps the map an exact count of the values seen so far |
| Day1.CountsTally | day1/src/lib.rs:41-53 | the count map of the right column has a key for exactly the right values, and map[v] is the number of right entries equal to v |
| Day1.WeightedSum | day1/src/lib.rs:55-57 | no contract: each left value times its count in the map, summed; WeightedSumCounts and SimilarityIsPairScore state its meaning, and Part2 returns it |
| Day1.WeightedSumCounts | day1/src/lib.rs:55-57 | summing left values weighed by a map that counts a multiset is summing them weighed by that multiset |
| Day1.Part2 | day1/src/lib.rs:38-58 | part 2 returns the similarity: the sum over the left column of x times the number of times x occurs in the right column |
| Day1.SimilarityIsPairScore | day1/src/lib.rs:55-57 | the similarity equals the sum of x over all pairs of equal left and right entries |
| Day1.SimSumConcat | day1/src/lib.rs:55-57 | the similarity sum distributes over concatenation of the left column |
| Day1.SimilarityReorder | day1/src/lib.rs:41-57 | the similarity does not change when the input lines are reordered |
| Day1.AbsentContributesNothing | day1/src/lib.rs:56 | a left value that does not occur in the right column adds 0 |
| Day2.AbsDiff | day2/src/lib.rs:22 | the distance between two levels: adding it to the smaller level gives the larger |
| Day2.IsSafe | day2/src/lib.rs:20-25 | no contract: part 1's rule, every window rising or every window falling, each by 1 to 3; SafeIffMonotone states its meaning |
| Day2.SafeIffMonotone | day2/src/lib.rs:20-25 | part 1's non-strict rules with a difference in 1..3 are the strict rule read upwards or downwards |
| Day2.CountSafe | day2/src/lib.rs:15-29 | no contract: the number of safe reports; Part1 returns it |
| Day2.Part1 | day2/src/lib.rs:11-32 | part 1 counts exactly the safe reports, at most all of them |
| Day2.ViolatesAt | day2/src/lib.rs:52-59 | a window violates the assumed direction exactly when it is not a strict step of 1..3 that way |
| Day2.Position | day2/src/lib.rs:52-59 | the search returns the first violating window at or after its start, with all earlier windows fine, or None when none violates |
| Day2.RemoveAt | day2/src/lib.rs:60-73 | a candidate is one level shorter and keeps the other levels in order |
| Day2.RemoveAnomaly | day2/src/lib.rs:50-77 | no contract: the candidates around the first violating window; RemoveAnomalyCandidates and CandidatesAreRemovals state its meaning |
| Day2.RemoveAnomalyCandidates | day2/src/lib.rs:50-77 | no candidate exactly when every window fits the direction of the first two levels, and then the line is returned unchanged; otherwise the candidates drop the later and the earlier level of the first violating window |
| Day2.CandidatesAreRemovals | day2/src/lib.rs:60-75 | each candidate is the report with one of two adjacent levels removed |
| Day2.VerifyLine | day2/src/lib.rs:79-109 | no contract: both candidates judged in the direction of the first candidate's ends; SafeAccepted, WrittenJudgesCandidates, VerifyLineSound and TwoLevelsAccepted state its meaning |
| Day2.MonotoneEnds | day2/src/lib.rs:81 | a strictly monotone report of two or more levels rises from first to last exactly when it ascends |
| Day2.SafeAccepted | day2/src/lib.rs:50-91 | a safe report has no violating window, comes back unchanged, and is accepted |
| Day2.WrittenJudgesCandidates | day2/src/lib.rs:79-109 | an accepted report has a safe candidate, and a safe first candidate is always accepted |
| Day2.VerifyLineSound | day2/src/lib.rs:79-109 | every accepted report is safe or becomes safe when one level is removed |
| Day2.TwoLevelsAccepted | day2/src/lib.rs:79-91 | every report of exactly two levels is accepted |
| Day2.CountAccepted | day2/src/lib.rs:37-47 | part 2 counts the accepted reports, at most all of them |
| Day2.SafeCountedByPart2 | day2/src/lib.rs:34-48 | part 2's count is at least part 1's count |
| Day2.OwnDirectionValid | day2/src/lib.rs:93-100 | judging a candidate by its own first two levels accepts exactly the safe candidates |
| Day2.VerifyLineIntended | day2/src/lib.rs:79-109 | the corrected check: each candidate judged in its own direction; it accepts every report the code as written accepts, and IntendedAcceptsWritten and VerifyLineIntendedSound state its meaning |
| Day2.IntendedAcceptsWritten | day2/src/lib.rs:79-109 | the corrected check accepts every report the code as written accepts, and every safe report |
| Day2.VerifyLineIntendedSound | day2/src/lib.rs:93-100 | the corrected check accepts only reports that are safe or become safe when one level is removed |
| Day2.CountIntended | day2/src/lib.rs:37-47 | the corrected count is at most the number of reports |
| Day2.IntendedCountsMore | day2/src/lib.rs:34-48 | the corrected count is at least the count as written |
| Day2Examples.VerifyLineAcceptsSafeUp | day2/src/lib.rs:117-118 | [1,2,3,4,5] is accepted |
| Day2Examples.VerifyLineDropsLeapUp | day2/src/lib.rs:120-121 | [1,7,2,3,4,5] is accepted |
| Day2Examples.VerifyLineAcceptsSafeStepThree | day2/src/lib.rs:123-124 | [1,2,5,6,7] is accepted |
| Day2Examples.VerifyLineRejectsLeapUp | day2/src/lib.rs:126-127 | [1,2,6,7,8] is rejected |
| Day2Examples.VerifyLineAcceptsSafeDown | day2/src/lib.rs:132-133 | [8,7,6,5,4] is accepted |
| Day2Examples.VerifyLineDropsLastDrop | day2/src/lib.rs:135-136 | [8,7,6,5,1] is accepted |
| Day2Examples.VerifyLineDropsInnerDrop | day2/src/lib.rs:138-139 | [8,7,6,5,1,2] is accepted |
| Day2Examples.VerifyLineRejectsLeapDown | day2/src/lib.rs:141-142 | [8,7,2,1,0] is rejected |
| Day2Examples.VerifyLineDropsFirst | day2/src/lib.rs:144-145 | [8,2,1,0] is accepted |
| Day2Examples.VerifyLineDropsLastRise | day2/src/lib.rs:147-148 | [5,4,3,2,1,9] is accepted |
| Day2Examples.RemoveAnomalyLeapUp | day2/src/lib.rs:153-157 | [1,2,7,3,4,5] gives ([1,2,3,4,5], Some([1,7,3,4,5])) |
| Day2Examples.RemoveAnomalyTwoHigh | day2/src/lib.rs:165-172 | [1,2,7,8,3,4,5] gives ([1,2,8,3,4,5], Some([1,7,8,3,4,5])) |
| Day2Examples.RemoveAnomalyNoneUp | day2/src/lib.rs:174-175 | [1,2,3,4,5,6] comes back unchanged with no second candidate |
| Day2Examples.RemoveAnomalyLeadingHigh | day2/src/lib.rs:177-181 | [9,1,2,3,4,5] gives ([9,2,3,4,5], Some([1,2,3,4,5])) |
| Day2Examples.RemoveAnomalyLeapDown | day2/src/lib.rs:186-190 | [8,7,2,1,0] gives ([8,7,1,0], Some([8,2,1,0])) |
| Day2Examples.RemoveAnomalyPlateau | day2/src/lib.rs:192-196 | [8,6,4,4,1] gives ([8,6,4,1], Some([8,6,4,1])) |
| Day2Examples.RemoveAnomalyNoneDown | day2/src/lib.rs:204-205 | [6,5,4,3,2,1] comes back unchanged with no second candidate |
| Day2Examples.RemoveAnomalyTrailingHigh | day2/src/lib.rs:207-211 | [5,4,3,2,1,9] gives ([5,4,3,2,1], Some([5,4,3,2,9])) |
| Day2Examples.RemoveAnomalyTurn | day2/src/lib.rs:213-217 | [1,2,5,4,3,2,1] gives ([1,2,5,3,2,1], Some([1,2,4,3,2,1])) |
| Day2Examples.RemoveAnomalyLeadingDrop | day2/src/lib.rs:50-77 | [8,2,1,0] gives ([8,1,0], Some([2,1,0])) |
| Day2Examples.RemoveAnomalyLeadingPeak | day2/src/lib.rs:50-77 | [3,2,3,4,5] is taken as descending and gives ([3,2,4,5], Some([3,3,4,5])) |
| Day2Examples.JudgedTogether | day2/src/lib.rs:79-109 | with two candidates, the report is accepted exactly when one of them is strictly monotone in the direction of the first candidate's ends |
| Day2Examples.JudgedApart | day2/src/lib.rs:93-100 | with two candidates, the corrected check accepts exactly when one of them is safe |
| Day2Examples.SharedDirectionRejectsTolerable | day2/src/lib.rs:79-109 | [9,1,2,3,4,5] becomes safe without its first level, yet is rejected as written and accepted by the corrected check |
| Day2Examples.FirstLevelAnomalyMissed | day2/src/lib.rs:50-77 | [3,2,3,4,5] becomes safe without its first level, but both checks reject it, since the candidates only drop levels of the first violating window |
| Day3.DigitsEnd | day3/src/lib.rs:45 | the greedy digit run from a position ends inside the text, at a non-digit or at the end of the text |
| Day3.DigitsEndRun | day3/src/lib.rs:45 | every character of the greedy digit run is a digit |
| Day3.MulAt | day3/src/lib.rs:50 | a multiplication match starts at the position, ends inside the text, and begins with `m` |
| Day3.MatchAt | day3/src/lib.rs:45 | a command match starts at the position, ends inside the text, and begins with `d` or `m` |
| Day3.MulMatchSpelled | day3/src/lib.rs:50-57 | a multiplication match is exactly `mul(a,b)` for two digit runs, and carries their decimal values |
| Day3.MulTextMatched | day3/src/lib.rs:50-57 | wherever `mul(a,b)` with two digit runs occurs, the pattern matches it there with those values |
| Day3.Scan | day3/src/lib.rs:46 | every match the scan reports lies inside the text, at or after where the scan started |
| Day3.ScanMatches | day3/src/lib.rs:44-47 | every match the scan reports is the pattern's match at its own start |
| Day3.ScanOrdered | day3/src/lib.rs:44-47 | each reported match ends at or before the next one starts |
| Day3.ScanStartsBounded | day3/src/lib.rs:44-47 | every reported start lies between where the scan began and the end of the text |
| Day3.NoMatchWithin | day3/src/lib.rs:45 | no command of the pattern starts strictly inside a match |
| Day3.StartsAfterMatch | day3/src/lib.rs:46 | after a match at the scan position, the reported starts are that position and the starts of the scan resumed at the match's end |
| Day3.ScanSound | day3/src/lib.rs:44-47 | every reported match is the pattern's match at its start, and matches come in order without overlap |
| Day3.NoMatchInside | day3/src/lib.rs:45 | no command of the pattern starts strictly inside another command's match |
| Day3.ScanComplete | day3/src/lib.rs:44-47 | the scan reports a match at exactly the positions where the pattern matches: it misses no command and reports nothing else |
| Day3.FindValidCommands | day3/src/lib.rs:44-47 | no contract: the text of every match of the scan, in order; ScanComplete, ScanSound and CommandText state its meaning |
| Day3.CommandsOf | day3/src/lib.rs:46 | the commands are those of the matches, one each, in order |
| Day3.ScanMul | day3/src/lib.rs:49-61 | no contract: the pairs of the multiplications the scan meets from a position; ScanMulIsMulPairs and ScanMulAfterMatch state its meaning |
| Day3.FindMultiplicationNumbers | day3/src/lib.rs:49-61 | no contract: the pair scan from the start of the text; ScanMulIsMulPairs states its meaning |
| Day3.Part1 | day3/src/lib.rs:12-18 | no contract: the sum of the products of every pair the pair scan finds; Part2AtMostPart1 relates it to part 2 |
| Day3.Step | day3/src/lib.rs:25-39 | no contract: one iteration of part 2's loop on a command; CommandStep and DisabledAddsNothing state its meaning |
| Day3.Run | day3/src/lib.rs:20-42 | no contract: the loop's machine after a run of commands, started enabled at 0; Part2 returns its output, and RunEnabled, RunAtMost, RunWithoutDont and RunBounded state its meaning |
| Day3.ScanMulIsMulPairs | day3/src/lib.rs:49-60 | the multiplication scan finds exactly the pairs of the multiplications among all the commands, in order |
| Day3.ScanMulAfterMatch | day3/src/lib.rs:49-60 | over one match of the full pattern, the multiplication scan finds that match's pair if it is a multiplication, and nothing otherwise |
| Day3.NoMulWithin | day3/src/lib.rs:49-60 | inside a `do()` or `don't()` match, no multiplication starts |
| Day3.MulTokenText | day3/src/lib.rs:33-35 | a multiplication command's text is neither `do()` nor `don't()`, and the pair scan finds exactly its pair in it |
| Day3.TokenText | day3/src/lib.rs:26-35 | a match's text is `do()` exactly for Do and `don't()` exactly for Dont; on a multiplication's text the pair scan finds exactly its one pair |
| Day3.CommandText | day3/src/lib.rs:24-35 | the k-th command text says what the k-th command is |
| Day3.Part2 | day3/src/lib.rs:20-42 | part 2 returns the output of the machine run over the commands in order, starting enabled at 0 |
| Day3.CommandStep | day3/src/lib.rs:25-39 | one loop step: `do()` enables, `don't()` disables, and any other command text adds its product when enabled, as the machine's step does |
| Day3.RunAtMost | day3/src/lib.rs:20-42 | the machine's output never exceeds the sum of all products of the commands |
| Day3.RunWithoutDont | day3/src/lib.rs:20-42 | without a `don't()`, the machine stays enabled and outputs the sum of all products |
| Day3.MulPairsConcat | day3/src/lib.rs:49-60 | the pairs of two command runs, one after the other, are the pairs of the first followed by those of the second |
| Day3.RunEnabled | day3/src/lib.rs:22-32 | the machine ends enabled exactly when every `don't()` is followed later by a `do()` |
| Day3.RunBounded | day3/src/lib.rs:22-38 | part 2's output is at most the sum of all products, and equals it when no `don't()` occurs |
| Day3.DisabledAddsNothing | day3/src/lib.rs:30-38 | after a `don't()`, commands other than `do()` add nothing and leave the machine disabled |
| Day3.Part2AtMostPart1 | day3/src/lib.rs:12-42 | on any text, part 2 is at most part 1, and equal to it when the text holds no `don't()` |
| Day3Examples.FindValidCommandsPlain | day3/src/lib.rs:68-71 | "mul(1,2) mul(3,4) mul(5,6)" yields its three command texts |
| Day3Examples.FindValidCommandsCorrupted | day3/src/lib.rs:72-74 | "xmul(1,2!),mul(3,4)&mul(5,6))" yields only "mul(3,4)" and "mul(5,6)" |
| Day3Examples.FindMultiplicationNumbersPlain | day3/src/lib.rs:78-81 | "mul(1,2) mul(3,4) mul(5,6)" yields (1,2), (3,4), (5,6) |
| Day3Examples.FindMultiplicationNumbersCorrupted | day3/src/lib.rs:82-84 | "xmul(1,2!),mul(3,4)&mul(5,6))" yields (3,4), (5,6) |
| Day3Examples.BrokenMulAt | day3/src/lib.rs:50 | the fragment `mul(1,2!` matches no command |
| Day4.Reverse | day4/src/lib.rs:64 | the reversal has the same length, with the characters in the opposite order |
| Day4.IsXmasReversal | day4/src/lib.rs:64 | a four-character read matches `XMAS` or `SAMX` exactly when its reversal does |
| Day4.SkipTake4 | day4/src/lib.rs:62 | skip-then-take gives four characters exactly when four remain, and then it gives the slice from x |
| Day4.ColumnOf | day4/src/lib.rs:72-77 | the column read has one character per row, taken at column x |
| Day4.LookRight | day4/src/lib.rs:61-69 | no contract: skip x, take 4 on row y, compared with `XMAS` and `SAMX`; LookRightReads states its meaning |
| Day4.LookDown | day4/src/lib.rs:71-84 | no contract: column x of rows y..y+3 compared with the two words; LookDownReads states its meaning |
| Day4.LookDownRight | day4/src/lib.rs:86-104 | no contract: the bounds guard, then cells (x+k, y+k) compared with the two words; LookDownRightReads states its meaning |
| Day4.LookDownLeft | day4/src/lib.rs:106-125 | no contract: the bounds guard, then cells (x-k, y+k) compared with the two words; LookDownLeftReads states its meaning |
| Day4.LookRightReads | day4/src/lib.rs:61-69 | the rightward probe holds exactly when the four cells (x+k, y) lie in the grid and read `XMAS` or `SAMX`: its guard is "all four cells in bounds" |
| Day4.LookDownReads | day4/src/lib.rs:71-84 | the downward probe holds exactly when the four cells (x, y+k) lie in the grid and read `XMAS` or `SAMX` |
| Day4.LookDownRightReads | day4/src/lib.rs:86-104 | the down-right probe holds exactly when the four cells (x+k, y+k) lie in the grid and read `XMAS` or `SAMX` |
| Day4.LookDownLeftReads | day4/src/lib.rs:106-125 | the down-left probe holds exactly when the four cells (x-k, y+k) lie in the grid and read `XMAS` or `SAMX` |
| Day4.ValidateXMas | day4/src/lib.rs:144-154 | holds exactly when each diagonal pair of the block is {M, S} in either order |
| Day4.TextXMas | day4/src/lib.rs:157-177 | holds exactly when the cell is not on the border, holds an `A`, and each of its two diagonals has an `M` at one end and an `S` at the other |
| Day4.CellScore | day4/src/lib.rs:19-34 | a cell scores at most 4 in part 1 and at most 1 in part 2 |
| Day4.CountWordsAt | day4/src/lib.rs:20-34 | the inner loop body of part 1 adds the cell's part-1 score: one per probe that holds there, at most 4 |
| Day4.GridScore | day4/src/lib.rs:18-36 | no contract: the part's cell scores summed over the rows, as the nested loops sum them; Part1, Part2 and CrossesAtMostPivots state its meaning |
| Day4.CountWordsInRow | day4/src/lib.rs:19-33 | the inner loop of part 1 over one row returns the row's part-1 score, at most four per cell of the row |
| Day4.Part1 | day4/src/lib.rs:11-39 | part 1 returns the number of probes that hold, summed over all cells, which is at most four per cell |
| Day4.Part2 | day4/src/lib.rs:42-59 | part 2 returns the number of cells centring a cross, which is 0 on a grid of fewer than 3 rows |
| Day4.RowNoCrosses | day4/src/lib.rs:158 | the first and the last row centre no cross |
| Day4.FewRowsNoCrosses | day4/src/lib.rs:48-58 | a grid of fewer than 3 rows has no crosses |
| Day4.RowCrossesAtMostAs | day4/src/lib.rs:161-163 | a row's crosses are at most the number of its `A` cells |
| Day4.CrossesAtMostPivots | day4/src/lib.rs:48-58 | the cross count is at most the number of `A` cells in the grid |
| Day4.SampleDown | day4/src/lib.rs:197-201 | the downward probe test cases on the sample grid |
| Day4.SampleRight | day4/src/lib.rs:219-221 | the rightward probe test cases on the sample grid |
| Day4.SampleDiagonals | day4/src/lib.rs:239-263 | the diagonal probe test cases on the sample grid |
| Day4.SampleBlocks | day4/src/lib.rs:276-294 | the block validation test cases |

## Left out

- File reading, `lines()`, splitting and `parse::<u32>().unwrap()` in every crate: the model takes the parsed input
  (number pairs, reports, the text, the grid of characters). A malformed line would make the program panic, and that
  path is not modelled.
- The `run` dispatchers and their "Invalid part number" error, and the command-line entry point: these are plumbing.
  The entry point wires only days 1 and 2. The shared result type is not modelled.
- u32 arithmetic: all numbers are `nat`. The sums and products that overflow u32 (and panic in debug builds) are not
  modelled.
- Day1.Sort: the standard library's in-place sort is modelled as a value-level insertion sort. The model states its
  result (ascending, a permutation) and does not model the in-place update of the vectors.
- Day1: the count map is a Dafny `map`, not a hash map. Iteration order never matters here.
- Day1: no lemma evaluates the parts on a sample input (the crate has no unit tests).
- Day3: the regex crate is replaced by a hand-written recogniser for exactly the two patterns. `\d` is read as the ASCII
  digits 0-9. The regex crate's `\d` also matches other Unicode decimal digits, and `parse::<u32>` would then panic.
- Day3.DecimalValue: a digit run is read as an unbounded `nat`. `parse::<u32>().unwrap()` (day3/src/lib.rs:54-55)
  panics on a run above 4294967295, as in `mul(99999999999,1)`; that panic is not modelled.
- Day3: `find_multiplication_numbers` can fail only when its fixed pattern does not compile. It never fails, so the model
  returns the pairs directly.
- Day3: `find_multiplication_numbers(x)?[0]` in part 2 would panic on a command without a pair. The model proves that
  every non-`do()`/`don't()` command text yields exactly its one pair, so that path is unreachable.
- Day4: ragged grids. `look_down`, `look_down_right`, `look_down_left` and `text_x_mas` check at most the current
  row's length (`look_down` and `look_down_left` check none) before indexing neighbouring rows, and panic on a shorter
  row. The model requires a rectangular grid.
- Day2: reports of fewer than two levels make `remove_anomaly` panic. `VerifyLine`, `RemoveAnomaly` and
  `CountAccepted` require at least two levels. Part 1 handles short reports and counts them as safe.
- Day2.VerifyLineIntended: like the code, it builds both candidates from the first violating window. A report whose
  only bad level is the first one, but which the first window does not expose, stays rejected: [3,2,3,4,5] becomes safe
  without its first level, yet both checks reject it (`Day2Examples.FirstLevelAnomalyMissed`). The corrected check
  repairs only the shared direction.
- Day4: `XMasBlock::new` is the datatype constructor `XMasBlock(top_left, top_right, bottom_left, bottom_right)`.
  Its field-order test is immediate from the constructor and has no lemma.

## Findings

| source | as written | input that shows it | evidently intended | confidence | as-written member | corrected member |
|---|---|---|---|---|---|---|
| day2/src/lib.rs:81 | `verify_line` takes the direction from the first and last levels of the first candidate, and uses it for the second candidate too (lines 93-100) | [9,1,2,3,4,5]: the first candidate [9,2,3,4,5] fails, and its first > last sets "descending". The second candidate [1,2,3,4,5] is safe but is judged descending, so the report is rejected although dropping one level makes it safe | each candidate is judged in its own direction, as part 1 judges a report | high, not executed | Day2Examples.SharedDirectionRejectsTolerable | Day2.VerifyLineIntended |
