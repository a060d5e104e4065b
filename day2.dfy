/** Report validation: a report (a line of levels) is safe when it moves
    strictly one way in steps of 1 to 3; part 2 tolerates one bad level by
    re-checking two candidates built around the first bad window. */
module Day2 {
  import opened Wrappers

  type Report = seq<nat>

  /** The distance between two levels, whichever is larger. Each day's
      module stands alone, as each crate does, so this repeats day 1's. */
  function AbsDiff(a: nat, b: nat): (d: nat)
    ensures a + d == b || b + d == a
  {
    if a < b then b - a else a - b
  }

  /** Window `i` (levels `i` and `i + 1`) as part 1 judges it: `<=` with a
      difference in 1..3. */
  predicate RisesAt(line: Report, i: nat) {
    i + 1 < |line| && line[i] <= line[i + 1] && AbsDiff(line[i], line[i + 1]) <= 3 && AbsDiff(line[i], line[i + 1]) > 0
  }

  /** Window `i` as part 1 judges it: `>=` with a difference in 1..3. */
  predicate FallsAt(line: Report, i: nat) {
    i + 1 < |line| && line[i] >= line[i + 1] && AbsDiff(line[i], line[i + 1]) <= 3 && AbsDiff(line[i], line[i + 1]) > 0
  }

  /** The part 1 rule as written: every window rises, or every window falls.
      A report with fewer than two levels has no window and is safe. */
  predicate IsSafe(line: Report) {
    (forall i: nat :: i < |line| - 1 ==> RisesAt(line, i))
    || (forall i: nat :: i < |line| - 1 ==> FallsAt(line, i))
  }

  /** Window `i` as `verify_line` judges it: strictly in the given direction,
      with a difference in 1..3. */
  predicate GradualAt(line: Report, i: nat, ascending: bool) {
    i + 1 < |line|
    && (if ascending then line[i] < line[i + 1] else line[i] > line[i + 1])
    && AbsDiff(line[i], line[i + 1]) <= 3 && AbsDiff(line[i], line[i + 1]) > 0
  }

  /** Every adjacent pair obeys the candidate rule in direction `ascending`. */
  predicate Monotone(line: Report, ascending: bool) {
    forall i: nat :: i < |line| - 1 ==> GradualAt(line, i, ascending)
  }

  /** Part 1's two rules are the strict rule read in either direction. */
  lemma SafeIffMonotone(line: Report)
    ensures IsSafe(line) <==> Monotone(line, true) || Monotone(line, false)
  {
    assert forall i: nat :: RisesAt(line, i) <==> GradualAt(line, i, true);
    assert forall i: nat :: FallsAt(line, i) <==> GradualAt(line, i, false);
  }

  /** Number of safe reports among `reports`. */
  function CountSafe(reports: seq<Report>): nat {
    if reports == [] then 0
    else CountSafe(reports[..|reports| - 1]) + (if IsSafe(reports[|reports| - 1]) then 1 else 0)
  }

  /** Part 1: one for each safe report. */
  method Part1(reports: seq<Report>) returns (output: nat)
    ensures output == CountSafe(reports)
    ensures output <= |reports|
  {
    output := 0;
    for i := 0 to |reports|
      invariant output == CountSafe(reports[..i])
      invariant output <= i
    {
      assert reports[..i + 1][..i] == reports[..i];
      if IsSafe(reports[i]) {
        output := output + 1;
      }
    }
    assert reports[..|reports|] == reports;
  }

  /** The direction `remove_anomaly` assumes: ascending iff the first level
      is below the second (equal levels count as descending). */
  predicate Ascending(line: Report)
    requires |line| >= 2
  {
    line[0] < line[1]
  }

  /** Window `i` breaks the assumed direction or steps by more than 3. */
  predicate ViolatesAt(line: Report, i: nat, ascending: bool)
    requires i + 1 < |line|
    ensures ViolatesAt(line, i, ascending) <==> !GradualAt(line, i, ascending)
  {
    var (x, y) := (line[i], line[i + 1]);
    if ascending then x >= y || AbsDiff(x, y) > 3 else x <= y || AbsDiff(x, y) > 3
  }

  /** The first violating adjacent pair at or after index `from`, if any. */
  function Position(line: Report, ascending: bool, from: nat): (p: Option<nat>)
    decreases |line| - from
    ensures p.Some? ==>
              from <= p.value < |line| - 1 && ViolatesAt(line, p.value, ascending) &&
              forall i: nat :: from <= i < p.value ==> !ViolatesAt(line, i, ascending)
    ensures p.None? ==> forall i: nat :: from <= i < |line| - 1 ==> !ViolatesAt(line, i, ascending)
  {
    if |line| <= from + 1 then None
    else if ViolatesAt(line, from, ascending) then Some(from)
    else Position(line, ascending, from + 1)
  }

  /** Window `p` is the first one that violates the assumed direction. */
  predicate FirstViolation(line: Report, p: nat)
    requires |line| >= 2
  {
    p < |line| - 1 && ViolatesAt(line, p, Ascending(line))
    && forall i: nat :: i < p ==> !ViolatesAt(line, i, Ascending(line))
  }

  /** The line without the level at index `k`, the others in their order. */
  function RemoveAt(line: Report, k: nat): (r: Report)
    requires k < |line|
    ensures |r| == |line| - 1
    ensures forall j :: 0 <= j < |r| ==> r[j] == if j < k then line[j] else line[j + 1]
  {
    line[..k] + line[k + 1..]
  }

  /** `remove_anomaly`: the two candidates. */
  function RemoveAnomaly(line: Report): (Report, Option<Report>)
    requires |line| >= 2
  {
    match Position(line, Ascending(line), 0)
    case Some(p) => (RemoveAt(line, p + 1), Some(RemoveAt(line, p)))
    case None => (line, None)
  }

  /** What `remove_anomaly` returns: the line itself and nothing exactly when
      no window violates the direction of its first two levels; otherwise
      the line without the later, and the line without the earlier, level of
      the first violating window. */
  lemma RemoveAnomalyCandidates(line: Report)
    requires |line| >= 2
    ensures var r := RemoveAnomaly(line);
            && (r.1.None? <==> Monotone(line, Ascending(line)))
            && (r.1.None? ==> r.0 == line)
            && (r.1.Some? ==>
                  exists p: nat :: FirstViolation(line, p) && r.0 == RemoveAt(line, p + 1) && r.1.value == RemoveAt(line, p))
  {
    var ascending := Ascending(line);
    match Position(line, ascending, 0)
    case Some(p) =>
      assert FirstViolation(line, p);
      assert !GradualAt(line, p, ascending);
    case None =>
      forall i: nat | i < |line| - 1
        ensures GradualAt(line, i, ascending)
      {
        assert !ViolatesAt(line, i, ascending);
      }
  }

  /** `verify_line` as written: the direction comes from the first and last
      levels of the first candidate and is used for both candidates. */
  predicate VerifyLine(line: Report)
    requires |line| >= 2
  {
    var (first, second) := RemoveAnomaly(line);
    var ascending := first[0] < first[|first| - 1];
    if Monotone(first, ascending) then true
    else if second.Some? then Monotone(second.value, ascending)
    else false
  }

  /** The puzzle's rule for part 2: safe, or safe once one level is removed. */
  ghost predicate Tolerable(line: Report) {
    IsSafe(line) || exists k :: 0 <= k < |line| && IsSafe(RemoveAt(line, k))
  }

  /** A monotone report of two or more levels ends on the side it moves to. */
  lemma {:induction false} MonotoneEnds(line: Report, ascending: bool)
    requires |line| >= 2 && Monotone(line, ascending)
    ensures ascending <==> line[0] < line[|line| - 1]
    ensures !ascending <==> line[0] > line[|line| - 1]
  {
    assert GradualAt(line, 0, ascending);
    if |line| > 2 {
      var rest := line[1..];
      forall i: nat | i < |rest| - 1
        ensures GradualAt(rest, i, ascending)
      {
        assert GradualAt(line, i + 1, ascending);
      }
      MonotoneEnds(rest, ascending);
    }
  }

  /** A safe report has no violating window and is judged in its own
      direction, so `verify_line` accepts it unchanged. */
  lemma SafeAccepted(line: Report)
    requires |line| >= 2
    ensures IsSafe(line) ==> RemoveAnomaly(line) == (line, None) && VerifyLine(line)
  {
    RemoveAnomalyCandidates(line);
    SafeIffMonotone(line);
    if IsSafe(line) {
      if Monotone(line, true) {
        MonotoneEnds(line, true);
        assert GradualAt(line, 0, true);
      } else {
        MonotoneEnds(line, false);
        assert GradualAt(line, 0, false);
      }
    }
  }

  /** Whatever `verify_line` accepts has a safe candidate, and a safe first
      candidate is always accepted. */
  lemma WrittenJudgesCandidates(line: Report)
    requires |line| >= 2
    ensures var (first, second) := RemoveAnomaly(line);
            VerifyLine(line) ==> IsSafe(first) || (second.Some? && IsSafe(second.value))
    ensures IsSafe(RemoveAnomaly(line).0) ==> VerifyLine(line)
  {
    var (first, second) := RemoveAnomaly(line);
    SafeIffMonotone(first);
    if second.Some? {
      SafeIffMonotone(second.value);
    }
    if IsSafe(first) && |first| >= 2 {
      if Monotone(first, true) {
        MonotoneEnds(first, true);
      } else {
        MonotoneEnds(first, false);
      }
    }
  }

  /** Each candidate is the line with one level removed. */
  lemma CandidatesAreRemovals(line: Report)
    requires |line| >= 2
    ensures var (first, second) := RemoveAnomaly(line);
            && (second.None? ==> first == line)
            && (second.Some? ==> exists p: nat :: p + 1 < |line| && first == RemoveAt(line, p + 1) && second.value == RemoveAt(line, p))
  {
    RemoveAnomalyCandidates(line);
  }

  /** `verify_line` never accepts a report that removing one level cannot
      make safe. */
  lemma VerifyLineSound(line: Report)
    requires |line| >= 2
    ensures VerifyLine(line) ==> Tolerable(line)
  {
    WrittenJudgesCandidates(line);
    CandidatesAreRemovals(line);
    var (first, second) := RemoveAnomaly(line);
    if VerifyLine(line) && second.Some? {
      var p: nat :| p + 1 < |line| && first == RemoveAt(line, p + 1) && second.value == RemoveAt(line, p);
      if IsSafe(first) {
        assert IsSafe(RemoveAt(line, p + 1));
      } else {
        assert IsSafe(RemoveAt(line, p));
      }
    }
  }

  /** Number of reports `verify_line` accepts (part 2's filter and count). */
  function CountAccepted(reports: seq<Report>): (n: nat)
    requires forall i :: 0 <= i < |reports| ==> |reports[i]| >= 2
    ensures n <= |reports|
  {
    if reports == [] then 0
    else CountAccepted(reports[..|reports| - 1]) + (if VerifyLine(reports[|reports| - 1]) then 1 else 0)
  }

  /** Part 2 counts at least every report part 1 counts. */
  lemma {:induction false} SafeCountedByPart2(reports: seq<Report>)
    requires forall i :: 0 <= i < |reports| ==> |reports[i]| >= 2
    ensures CountSafe(reports) <= CountAccepted(reports)
  {
    if reports != [] {
      SafeCountedByPart2(reports[..|reports| - 1]);
      SafeAccepted(reports[|reports| - 1]);
    }
  }

  /** A report of exactly two levels is always accepted: either it is safe,
      or its first candidate has one level and no window. */
  lemma TwoLevelsAccepted(a: nat, b: nat)
    ensures VerifyLine([a, b])
  {
    CandidatesAreRemovals([a, b]);
    var (first, second) := RemoveAnomaly([a, b]);
    if second.Some? {
      assert |first| == 1;
    }
  }

  /** A candidate judged in the direction of its own first two levels, as
      part 1 judges a report; fewer than two levels pass. */
  predicate OwnDirectionValid(c: Report)
    ensures OwnDirectionValid(c) <==> IsSafe(c)
  {
    SafeIffMonotone(c);
    if |c| < 2 then true
    else
      assert Monotone(c, true) ==> GradualAt(c, 0, true);
      assert Monotone(c, false) ==> GradualAt(c, 0, false);
      Monotone(c, c[0] < c[1])
  }

  /** `verify_line` with each candidate judged in its own direction. */
  predicate VerifyLineIntended(line: Report)
    requires |line| >= 2
  {
    var (first, second) := RemoveAnomaly(line);
    OwnDirectionValid(first) || (second.Some? && OwnDirectionValid(second.value))
  }

  /** The corrected check accepts every report the code as written accepts,
      and so every safe report. */
  lemma IntendedAcceptsWritten(line: Report)
    requires |line| >= 2
    ensures VerifyLine(line) ==> VerifyLineIntended(line)
    ensures IsSafe(line) ==> VerifyLineIntended(line)
  {
    WrittenJudgesCandidates(line);
    SafeAccepted(line);
  }

  /** The corrected check, too, accepts only reports that removing at most
      one level makes safe. */
  lemma VerifyLineIntendedSound(line: Report)
    requires |line| >= 2
    ensures VerifyLineIntended(line) ==> Tolerable(line)
  {
    CandidatesAreRemovals(line);
    var (first, second) := RemoveAnomaly(line);
    if VerifyLineIntended(line) && second.Some? {
      var p: nat :| p + 1 < |line| && first == RemoveAt(line, p + 1) && second.value == RemoveAt(line, p);
      if IsSafe(first) {
        assert IsSafe(RemoveAt(line, p + 1));
      } else {
        assert IsSafe(RemoveAt(line, p));
      }
    }
  }

  /** Number of reports the corrected check accepts. */
  function CountIntended(reports: seq<Report>): (n: nat)
    requires forall i :: 0 <= i < |reports| ==> |reports[i]| >= 2
    ensures n <= |reports|
  {
    if reports == [] then 0
    else CountIntended(reports[..|reports| - 1]) + (if VerifyLineIntended(reports[|reports| - 1]) then 1 else 0)
  }

  /** The corrected count never falls below the count as written. */
  lemma {:induction false} IntendedCountsMore(reports: seq<Report>)
    requires forall i :: 0 <= i < |reports| ==> |reports[i]| >= 2
    ensures CountAccepted(reports) <= CountIntended(reports)
  {
    if reports != [] {
      IntendedCountsMore(reports[..|reports| - 1]);
      IntendedAcceptsWritten(reports[|reports| - 1]);
    }
  }
}
