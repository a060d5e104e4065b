/** The unit tests of the report validator, restated as lemmas, and the
    reports on which its two-candidate check departs from the puzzle rule. */
module Day2Examples {
  import opened Wrappers
  import opened Day2

  /** `remove_anomaly` on a report whose first bad window is `p`. */
  lemma AnomalyAt(line: Report, p: nat, a: Report, b: Report)
    requires |line| >= 2 && Position(line, Ascending(line), 0) == Some(p)
    requires p + 1 < |line| && RemoveAt(line, p + 1) == a && RemoveAt(line, p) == b
    ensures RemoveAnomaly(line) == (a, Some(b))
  {
  }

  /** `verify_line` on a report with two candidates: both are judged in the
      direction of the first one's ends. */
  lemma JudgedTogether(line: Report, a: Report, b: Report, ascending: bool)
    requires |line| >= 2 && |a| > 0 && RemoveAnomaly(line) == (a, Some(b))
    requires ascending == (a[0] < a[|a| - 1])
    ensures VerifyLine(line) <==> Monotone(a, ascending) || Monotone(b, ascending)
  {
  }

  /** The corrected check on a report with two candidates: it accepts
      exactly when one of them is safe. */
  lemma JudgedApart(line: Report, a: Report, b: Report)
    requires |line| >= 2 && RemoveAnomaly(line) == (a, Some(b))
    ensures VerifyLineIntended(line) <==> IsSafe(a) || IsSafe(b)
  {
  }

  /** Unit test: the safe [1, 2, 3, 4, 5] is accepted. */
  lemma VerifyLineAcceptsSafeUp()
    ensures VerifyLine([1, 2, 3, 4, 5])
  {
    var line: Report := [1, 2, 3, 4, 5];
    assert forall i: nat :: i < 4 ==> RisesAt(line, i);
    SafeAccepted(line);
  }

  /** Unit test: the safe [1, 2, 5, 6, 7] is accepted. */
  lemma VerifyLineAcceptsSafeStepThree()
    ensures VerifyLine([1, 2, 5, 6, 7])
  {
    var line: Report := [1, 2, 5, 6, 7];
    assert forall i: nat :: i < 4 ==> RisesAt(line, i);
    SafeAccepted(line);
  }

  /** Unit test: the safe [8, 7, 6, 5, 4] is accepted. */
  lemma VerifyLineAcceptsSafeDown()
    ensures VerifyLine([8, 7, 6, 5, 4])
  {
    var line: Report := [8, 7, 6, 5, 4];
    assert forall i: nat :: i < 4 ==> FallsAt(line, i);
    SafeAccepted(line);
  }

  /** Unit test: dropping the 7 repairs [1, 7, 2, 3, 4, 5]. */
  lemma VerifyLineDropsLeapUp()
    ensures VerifyLine([1, 7, 2, 3, 4, 5])
  {
    var line: Report := [1, 7, 2, 3, 4, 5];
    var first: Report := [1, 2, 3, 4, 5];
    var second: Report := [7, 2, 3, 4, 5];
    assert forall i: nat :: i < 4 ==> GradualAt(first, i, true);
    assert Monotone(first, true);
    assert Position(line, true, 0) == Some(0);
    assert RemoveAt(line, 1) == first && RemoveAt(line, 0) == second;
    AnomalyAt(line, 0, first, second);
    JudgedTogether(line, first, second, true);
  }

  /** Unit test: the leap from 2 to 6 in [1, 2, 6, 7, 8] cannot be repaired. */
  lemma VerifyLineRejectsLeapUp()
    ensures !VerifyLine([1, 2, 6, 7, 8])
  {
    var line: Report := [1, 2, 6, 7, 8];
    assert Position(line, true, 0) == Some(1);
    assert RemoveAt(line, 2) == [1, 2, 7, 8] && RemoveAt(line, 1) == [1, 6, 7, 8];
    assert RemoveAnomaly(line) == ([1, 2, 7, 8], Some([1, 6, 7, 8]));
    var first: Report := [1, 2, 7, 8];
    var second: Report := [1, 6, 7, 8];
    assert !GradualAt(first, 1, true) && !GradualAt(second, 0, true);
  }

  /** Unit test: dropping the final 1 repairs [8, 7, 6, 5, 1]. */
  lemma VerifyLineDropsLastDrop()
    ensures VerifyLine([8, 7, 6, 5, 1])
  {
    var line: Report := [8, 7, 6, 5, 1];
    assert Position(line, false, 0) == Some(3);
    assert RemoveAt(line, 4) == [8, 7, 6, 5] && RemoveAt(line, 3) == [8, 7, 6, 1];
  }

  /** Unit test: dropping the 1 repairs [8, 7, 6, 5, 1, 2]. */
  lemma VerifyLineDropsInnerDrop()
    ensures VerifyLine([8, 7, 6, 5, 1, 2])
  {
    var line: Report := [8, 7, 6, 5, 1, 2];
    var first: Report := [8, 7, 6, 5, 2];
    assert Position(line, false, 0) == Some(3);
    assert RemoveAt(line, 4) == first && RemoveAt(line, 3) == [8, 7, 6, 1, 2];
    assert RemoveAnomaly(line).0 == first;
    assert forall i: nat :: i < 4 ==> GradualAt(first, i, false);
  }

  /** Unit test: the drop from 7 to 2 in [8, 7, 2, 1, 0] cannot be repaired. */
  lemma VerifyLineRejectsLeapDown()
    ensures !VerifyLine([8, 7, 2, 1, 0])
  {
    var line: Report := [8, 7, 2, 1, 0];
    assert Position(line, false, 0) == Some(1);
    assert RemoveAt(line, 2) == [8, 7, 1, 0] && RemoveAt(line, 1) == [8, 2, 1, 0];
    assert RemoveAnomaly(line) == ([8, 7, 1, 0], Some([8, 2, 1, 0]));
    var first: Report := [8, 7, 1, 0];
    var second: Report := [8, 2, 1, 0];
    assert !GradualAt(first, 1, false) && !GradualAt(second, 0, false);
  }

  /** Unit test: dropping the 8 repairs [8, 2, 1, 0]. */
  lemma VerifyLineDropsFirst()
    ensures VerifyLine([8, 2, 1, 0])
  {
    var line: Report := [8, 2, 1, 0];
    var a: Report := [8, 1, 0];
    var b: Report := [2, 1, 0];
    assert GradualAt(b, 0, false) && GradualAt(b, 1, false);
    assert Monotone(b, false);
    RemoveAnomalyLeadingDrop();
    JudgedTogether(line, a, b, false);
  }

  /** The candidates of [8, 2, 1, 0]: its first window (8, 2) is too steep. */
  lemma RemoveAnomalyLeadingDrop()
    ensures RemoveAnomaly([8, 2, 1, 0]) == ([8, 1, 0], Some([2, 1, 0]))
  {
    var line: Report := [8, 2, 1, 0];
    assert Position(line, false, 0) == Some(0);
    assert RemoveAt(line, 1) == [8, 1, 0] && RemoveAt(line, 0) == [2, 1, 0];
  }

  /** Unit test: dropping the 9 repairs [5, 4, 3, 2, 1, 9]. */
  lemma VerifyLineDropsLastRise()
    ensures VerifyLine([5, 4, 3, 2, 1, 9])
  {
    var line: Report := [5, 4, 3, 2, 1, 9];
    var a: Report := [5, 4, 3, 2, 1];
    var b: Report := [5, 4, 3, 2, 9];
    assert forall i: nat :: i < 4 ==> GradualAt(a, i, false);
    assert Monotone(a, false);
    RemoveAnomalyTrailingHigh();
    JudgedTogether(line, a, b, false);
  }

  /** Unit test: the first bad window of [1, 2, 7, 3, 4, 5] is (2, 7). */
  lemma RemoveAnomalyLeapUp()
    ensures RemoveAnomaly([1, 2, 7, 3, 4, 5]) == ([1, 2, 3, 4, 5], Some([1, 7, 3, 4, 5]))
  {
    var line: Report := [1, 2, 7, 3, 4, 5];
    assert Position(line, true, 0) == Some(1);
    assert RemoveAt(line, 2) == [1, 2, 3, 4, 5] && RemoveAt(line, 1) == [1, 7, 3, 4, 5];
  }

  /** Unit test: the first bad window of [1, 2, 7, 8, 3, 4, 5] is (2, 7). */
  lemma RemoveAnomalyTwoHigh()
    ensures RemoveAnomaly([1, 2, 7, 8, 3, 4, 5]) == ([1, 2, 8, 3, 4, 5], Some([1, 7, 8, 3, 4, 5]))
  {
    var line: Report := [1, 2, 7, 8, 3, 4, 5];
    assert Position(line, true, 0) == Some(1);
    assert RemoveAt(line, 2) == [1, 2, 8, 3, 4, 5] && RemoveAt(line, 1) == [1, 7, 8, 3, 4, 5];
  }

  /** Unit test: [1, 2, 3, 4, 5, 6] has no bad window. */
  lemma RemoveAnomalyNoneUp()
    ensures RemoveAnomaly([1, 2, 3, 4, 5, 6]) == ([1, 2, 3, 4, 5, 6], None)
  {
    assert Position([1, 2, 3, 4, 5, 6], true, 0) == None;
  }

  /** Unit test: [9, 1, 2, 3, 4, 5] is taken as descending; its first window is bad. */
  lemma RemoveAnomalyLeadingHigh()
    ensures RemoveAnomaly([9, 1, 2, 3, 4, 5]) == ([9, 2, 3, 4, 5], Some([1, 2, 3, 4, 5]))
  {
    var line: Report := [9, 1, 2, 3, 4, 5];
    assert Position(line, false, 0) == Some(0);
    assert RemoveAt(line, 1) == [9, 2, 3, 4, 5] && RemoveAt(line, 0) == [1, 2, 3, 4, 5];
  }

  /** Unit test: the first bad window of [8, 7, 2, 1, 0] is (7, 2). */
  lemma RemoveAnomalyLeapDown()
    ensures RemoveAnomaly([8, 7, 2, 1, 0]) == ([8, 7, 1, 0], Some([8, 2, 1, 0]))
  {
    var line: Report := [8, 7, 2, 1, 0];
    assert Position(line, false, 0) == Some(1);
    assert RemoveAt(line, 2) == [8, 7, 1, 0] && RemoveAt(line, 1) == [8, 2, 1, 0];
  }

  /** Unit test: the plateau (4, 4) in [8, 6, 4, 4, 1] gives two equal candidates. */
  lemma RemoveAnomalyPlateau()
    ensures RemoveAnomaly([8, 6, 4, 4, 1]) == ([8, 6, 4, 1], Some([8, 6, 4, 1]))
  {
    var line: Report := [8, 6, 4, 4, 1];
    assert Position(line, false, 0) == Some(2);
    assert RemoveAt(line, 3) == [8, 6, 4, 1] && RemoveAt(line, 2) == [8, 6, 4, 1];
  }

  /** Unit test: [6, 5, 4, 3, 2, 1] has no bad window. */
  lemma RemoveAnomalyNoneDown()
    ensures RemoveAnomaly([6, 5, 4, 3, 2, 1]) == ([6, 5, 4, 3, 2, 1], None)
  {
    assert Position([6, 5, 4, 3, 2, 1], false, 0) == None;
  }

  /** Unit test: the first bad window of [5, 4, 3, 2, 1, 9] is the last. */
  lemma RemoveAnomalyTrailingHigh()
    ensures RemoveAnomaly([5, 4, 3, 2, 1, 9]) == ([5, 4, 3, 2, 1], Some([5, 4, 3, 2, 9]))
  {
    var line: Report := [5, 4, 3, 2, 1, 9];
    assert Position(line, false, 0) == Some(4);
    assert RemoveAt(line, 5) == [5, 4, 3, 2, 1] && RemoveAt(line, 4) == [5, 4, 3, 2, 9];
  }

  /** Unit test: [1, 2, 5, 4, 3, 2, 1] is taken as ascending and turns at (5, 4). */
  lemma RemoveAnomalyTurn()
    ensures RemoveAnomaly([1, 2, 5, 4, 3, 2, 1]) == ([1, 2, 5, 3, 2, 1], Some([1, 2, 4, 3, 2, 1]))
  {
    var line: Report := [1, 2, 5, 4, 3, 2, 1];
    assert Position(line, true, 0) == Some(2);
    assert RemoveAt(line, 3) == [1, 2, 5, 3, 2, 1] && RemoveAt(line, 2) == [1, 2, 4, 3, 2, 1];
  }

  /** As written, `verify_line` judges the second candidate in the first
      candidate's direction: [9, 1, 2, 3, 4, 5] becomes the safe [1, 2, 3, 4, 5]
      by dropping the 9, yet it is rejected, because the first candidate
      [9, 2, 3, 4, 5] runs downward from first to last. */
  lemma SharedDirectionRejectsTolerable()
    ensures IsSafe(RemoveAt([9, 1, 2, 3, 4, 5], 0))
    ensures !VerifyLine([9, 1, 2, 3, 4, 5])
    ensures VerifyLineIntended([9, 1, 2, 3, 4, 5])
  {
    var line: Report := [9, 1, 2, 3, 4, 5];
    var a: Report := [9, 2, 3, 4, 5];
    var b: Report := [1, 2, 3, 4, 5];
    assert IsSafe(b) && !GradualAt(a, 0, false) && !GradualAt(b, 0, false);
    assert !Monotone(a, false) && !Monotone(b, false);
    RemoveAnomalyLeadingHigh();
    assert RemoveAt(line, 0) == b;
    JudgedTogether(line, a, b, false);
    JudgedApart(line, a, b);
  }

  /** Both candidates come from the first violating window, so a report whose
      only bad level is the first one can be missed when that level fixes the
      assumed direction: [3, 2, 3, 4, 5] is safe without its first level, yet
      neither check accepts it. */
  lemma FirstLevelAnomalyMissed()
    ensures IsSafe(RemoveAt([3, 2, 3, 4, 5], 0))
    ensures !VerifyLine([3, 2, 3, 4, 5]) && !VerifyLineIntended([3, 2, 3, 4, 5])
  {
    var line: Report := [3, 2, 3, 4, 5];
    var a: Report := [3, 2, 4, 5];
    var b: Report := [3, 3, 4, 5];
    var c: Report := [2, 3, 4, 5];
    assert forall i: nat :: i < 3 ==> RisesAt(c, i);
    assert IsSafe(c);
    assert !GradualAt(a, 0, true) && !GradualAt(b, 0, true);
    assert !Monotone(a, true) && !Monotone(b, true);
    assert !RisesAt(a, 0) && !FallsAt(a, 1) && !RisesAt(b, 0) && !FallsAt(b, 0);
    assert !IsSafe(a) && !IsSafe(b);
    assert RemoveAt(line, 0) == c;
    RemoveAnomalyLeadingPeak();
    JudgedTogether(line, a, b, true);
    JudgedApart(line, a, b);
  }

  /** The candidates of [3, 2, 3, 4, 5]: taken as descending, its first bad
      window is (2, 3). */
  lemma RemoveAnomalyLeadingPeak()
    ensures RemoveAnomaly([3, 2, 3, 4, 5]) == ([3, 2, 4, 5], Some([3, 3, 4, 5]))
  {
    var line: Report := [3, 2, 3, 4, 5];
    assert Position(line, false, 0) == Some(1);
    assert RemoveAt(line, 2) == [3, 2, 4, 5] && RemoveAt(line, 1) == [3, 3, 4, 5];
  }
}
