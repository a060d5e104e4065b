/** List distance and similarity: each input line holds one value of the
    left column and one of the right. Part 1 pairs the two columns after
    sorting each; part 2 weighs every left value by how often it occurs on
    the right. */
module Day1 {

  /** One parsed input line: (left value, right value). */
  type Line = (nat, nat)

  /** The distance between two values, whichever is larger. */
  function AbsDiff(a: nat, b: nat): (d: nat)
    ensures a + d == b || b + d == a
  {
    if a < b then b - a else a - b
  }

  /** Which column of a line. */
  datatype Side = Left | Right

  function Pick(l: Line, side: Side): nat {
    if side == Left then l.0 else l.1
  }

  /** One column of the input, one value per line, in input order. */
  function Column(lines: seq<Line>, side: Side): (r: seq<nat>)
    ensures |r| == |lines|
    ensures forall i :: 0 <= i < |lines| ==> r[i] == Pick(lines[i], side)
  {
    if lines == [] then [] else [Pick(lines[0], side)] + Column(lines[1..], side)
  }

  function Lefts(lines: seq<Line>): seq<nat> { Column(lines, Left) }

  function Rights(lines: seq<Line>): seq<nat> { Column(lines, Right) }

  /** The fold of part 1: push each line's two values onto the two columns. */
  method Columns(lines: seq<Line>) returns (left: seq<nat>, right: seq<nat>)
    ensures |left| == |right| == |lines|
    ensures left == Lefts(lines) && right == Rights(lines)
  {
    left, right := [], [];
    for i := 0 to |lines|
      invariant |left| == |right| == i
      invariant forall k :: 0 <= k < i ==> left[k] == lines[k].0 && right[k] == lines[k].1
    {
      left := left + [lines[i].0];
      right := right + [lines[i].1];
    }
  }

  predicate Sorted(s: seq<nat>) {
    forall i, j :: 0 <= i < j < |s| ==> s[i] <= s[j]
  }

  /** `x` placed before the first larger-or-equal element of sorted `s`. */
  function Insert(x: nat, s: seq<nat>): (r: seq<nat>)
    requires Sorted(s)
    ensures Sorted(r)
    ensures multiset(r) == multiset(s) + multiset{x}
    ensures |r| == |s| + 1
    ensures r[0] == x || (s != [] && r[0] == s[0])
  {
    if s == [] || x <= s[0] then SortedCons(x, s); [x] + s
    else
      assert s == [s[0]] + s[1..];
      var rest := Insert(x, s[1..]);
      SortedCons(s[0], rest);
      [s[0]] + rest
  }

  /** A value no larger than the head of a sorted sequence can lead it. */
  lemma SortedCons(h: nat, t: seq<nat>)
    requires Sorted(t) && (t != [] ==> h <= t[0])
    ensures Sorted([h] + t)
  {
  }

  /** The standard sort: the values of `s` in ascending order. */
  function Sort(s: seq<nat>): (r: seq<nat>)
    ensures Sorted(r)
    ensures multiset(r) == multiset(s)
  {
    if s == [] then []
    else
      assert s == [s[0]] + s[1..];
      Insert(s[0], Sort(s[1..]))
  }

  /** There is one sorted arrangement of a multiset: any two sorted
      sequences with the same elements are equal. */
  lemma {:induction false} SortedUnique(a: seq<nat>, b: seq<nat>)
    requires Sorted(a) && Sorted(b) && multiset(a) == multiset(b)
    ensures a == b
  {
    assert |a| == |multiset(a)| == |multiset(b)| == |b|;
    if a != [] {
      SortedHeads(a, b);
      var _ := SortedMinimum(a);
      var _ := SortedMinimum(b);
      TailMultiset(a);
      TailMultiset(b);
      SortedUnique(a[1..], b[1..]);
      HeadTailEqual(a, b);
    }
  }

  /** Two sorted arrangements of one multiset start with the same element. */
  lemma SortedHeads(a: seq<nat>, b: seq<nat>)
    requires Sorted(a) && Sorted(b) && multiset(a) == multiset(b) && a != []
    ensures b != [] && a[0] == b[0]
  {
    var x := SortedMinimum(a);
    assert x in multiset(b);
    var y := SortedMinimum(b);
    assert y in multiset(a);
  }

  /** Dropping the head drops one copy of it from the multiset. */
  lemma TailMultiset<T>(s: seq<T>)
    requires s != []
    ensures multiset(s[1..]) == multiset(s) - multiset{s[0]}
  {
    assert s == [s[0]] + s[1..];
  }

  /** Sequences with equal heads and equal tails are equal. */
  lemma HeadTailEqual<T>(a: seq<T>, b: seq<T>)
    requires a != [] && b != [] && a[0] == b[0] && a[1..] == b[1..]
    ensures a == b
  {
    assert a == [a[0]] + a[1..];
    assert b == [b[0]] + b[1..];
  }

  /** The head of a sorted sequence is its least element, and its tail is
      sorted. */
  lemma SortedMinimum(s: seq<nat>) returns (m: nat)
    requires Sorted(s) && s != []
    ensures m == s[0] && Sorted(s[1..])
    ensures forall v :: v in multiset(s) ==> m <= v
  {
    m := s[0];
    forall v | v in multiset(s)
      ensures m <= v
    {
      assert v in s;
    }
  }

  /** Pairwise differences summed, position by position, up to the
      shorter sequence. */
  function SumAbsDiff(xs: seq<nat>, ys: seq<nat>): nat {
    if xs == [] || ys == [] then 0
    else AbsDiff(xs[0], ys[0]) + SumAbsDiff(xs[1..], ys[1..])
  }

  /** The part 1 answer: sorted left against sorted right. */
  function Distance(lines: seq<Line>): nat {
    SumAbsDiff(Sort(Lefts(lines)), Sort(Rights(lines)))
  }

  /** Part 1: collect both columns, sort each, sum the pairwise
      differences. */
  method Part1(lines: seq<Line>) returns (output: nat)
    ensures output == Distance(lines)
  {
    var left, right := Columns(lines);
    left := Sort(left);
    right := Sort(right);
    output := SumAbsDiff(left, right);
  }

  /** The answer depends only on the sorted order, not on how it was
      produced: any ascending arrangement of each column gives it. */
  lemma DistanceOfSortedColumns(lines: seq<Line>, left: seq<nat>, right: seq<nat>)
    requires Sorted(left) && multiset(left) == multiset(Lefts(lines))
    requires Sorted(right) && multiset(right) == multiset(Rights(lines))
    ensures Distance(lines) == SumAbsDiff(left, right)
  {
    SortedUnique(left, Sort(Lefts(lines)));
    SortedUnique(right, Sort(Rights(lines)));
  }

  /** A column of joined inputs is the join of their columns. */
  lemma ColumnConcat(s: seq<Line>, t: seq<Line>, side: Side)
    ensures Column(s + t, side) == Column(s, side) + Column(t, side)
  {
  }

  /** Removing the element at `j` removes one copy of it from the multiset. */
  lemma RemoveIndex<T>(t: seq<T>, j: nat)
    requires j < |t|
    ensures multiset(t[..j] + t[j + 1..]) == multiset(t) - multiset{t[j]}
  {
    assert t == t[..j] + [t[j]] + t[j + 1..];
  }

  /** The column of `t` without its line `j` is the column of `t` without
      its entry `j`. */
  lemma ColumnDrop(t: seq<Line>, j: nat, side: Side)
    requires j < |t|
    ensures Column(t[..j] + t[j + 1..], side) == Column(t, side)[..j] + Column(t, side)[j + 1..]
  {
    var image := Column(t, side);
    assert Column(t[..j] + t[j + 1..], side) == image[..j] + image[j + 1..];
  }

  /** Dropping line `j` drops one copy of its value from the column. */
  lemma ColumnRemove(t: seq<Line>, j: nat, side: Side)
    requires j < |t|
    ensures Pick(t[j], side) in multiset(Column(t, side))
    ensures multiset(Column(t[..j] + t[j + 1..], side)) == multiset(Column(t, side)) - multiset{Pick(t[j], side)}
  {
    ColumnDrop(t, j, side);
    RemoveIndex(Column(t, side), j);
    assert Column(t, side)[j] == Pick(t[j], side);
  }

  /** Reordering the input reorders each column the same way: the
      multiset of a column depends only on the multiset of lines. */
  lemma {:induction false} ColumnPermutation(s: seq<Line>, t: seq<Line>, side: Side)
    requires multiset(s) == multiset(t)
    ensures multiset(Column(s, side)) == multiset(Column(t, side))
  {
    if s == [] {
      assert |t| == |multiset(t)| == 0;
    } else {
      var j := MatchHead(s, t);
      ColumnPermutation(s[1..], t[..j] + t[j + 1..], side);
      PermutationStep(s, t, j, side);
    }
  }

  /** A permutation of a non-empty `s` holds its head at some index `j`,
      and without it is a permutation of the tail. */
  lemma MatchHead<T>(s: seq<T>, t: seq<T>) returns (j: nat)
    requires s != [] && multiset(s) == multiset(t)
    ensures j < |t| && t[j] == s[0]
    ensures multiset(s[1..]) == multiset(t[..j] + t[j + 1..])
  {
    assert s[0] in multiset(t);
    j :| 0 <= j < |t| && t[j] == s[0];
    RemoveIndex(t, j);
    assert s == [s[0]] + s[1..];
  }

  /** Putting the head back on both sides keeps the columns' multisets
      equal. */
  lemma PermutationStep(s: seq<Line>, t: seq<Line>, j: nat, side: Side)
    requires s != [] && j < |t| && t[j] == s[0]
    requires multiset(Column(s[1..], side)) == multiset(Column(t[..j] + t[j + 1..], side))
    ensures multiset(Column(s, side)) == multiset(Column(t, side))
  {
    var x := Pick(s[0], side);
    ColumnRemove(t, j, side);
    ConsMultiset(x, Column(s[1..], side));
    MultisetCancel(multiset(Column(s, side)), multiset(Column(t, side)), x);
  }

  /** The multiset of `[x] + r` holds `x`, and without one copy of it is
      the multiset of `r`. */
  lemma ConsMultiset<T>(x: T, r: seq<T>)
    ensures x in multiset([x] + r)
    ensures multiset([x] + r) - multiset{x} == multiset(r)
  {
  }

  /** Two multisets that both hold `x` and agree once one copy of `x` is
      taken from each are equal. */
  lemma MultisetCancel(a: multiset<nat>, b: multiset<nat>, x: nat)
    requires x in a && x in b && a - multiset{x} == b - multiset{x}
    ensures a == b
  {
    assert a == (a - multiset{x}) + multiset{x};
    assert b == (b - multiset{x}) + multiset{x};
  }

  /** Part 1 does not depend on the order of the input lines. */
  lemma DistanceReorder(lines: seq<Line>, shuffled: seq<Line>)
    requires multiset(lines) == multiset(shuffled)
    ensures Distance(lines) == Distance(shuffled)
  {
    ColumnPermutation(lines, shuffled, Left);
    ColumnPermutation(lines, shuffled, Right);
    DistanceOfSortedColumns(lines, Sort(Lefts(shuffled)), Sort(Rights(shuffled)));
  }

  /** Pairing is symmetric in the two sequences. */
  lemma {:induction false} SumAbsDiffSymmetric(xs: seq<nat>, ys: seq<nat>)
    ensures SumAbsDiff(xs, ys) == SumAbsDiff(ys, xs)
  {
    if xs != [] && ys != [] {
      SumAbsDiffSymmetric(xs[1..], ys[1..]);
    }
  }

  /** The input with the two values of every line exchanged. */
  function Swapped(lines: seq<Line>): (r: seq<Line>)
    ensures |r| == |lines|
    ensures forall i :: 0 <= i < |lines| ==> r[i] == (lines[i].1, lines[i].0)
  {
    if lines == [] then [] else [(lines[0].1, lines[0].0)] + Swapped(lines[1..])
  }

  /** Part 1 does not change when the two columns trade places. */
  lemma DistanceSwap(lines: seq<Line>)
    ensures Distance(Swapped(lines)) == Distance(lines)
  {
    var swapped := Swapped(lines);
    assert Lefts(swapped) == Rights(lines);
    assert Rights(swapped) == Lefts(lines);
    SumAbsDiffSymmetric(Sort(Lefts(lines)), Sort(Rights(lines)));
  }

  /** Distance is zero exactly when the two columns hold the same values
      with the same multiplicities. */
  lemma {:induction false} SumAbsDiffZero(xs: seq<nat>, ys: seq<nat>)
    requires |xs| == |ys|
    ensures SumAbsDiff(xs, ys) == 0 <==> xs == ys
  {
    if xs != [] {
      SumAbsDiffZero(xs[1..], ys[1..]);
      assert xs == [xs[0]] + xs[1..] && ys == [ys[0]] + ys[1..];
    }
  }

  /** Part 1 is zero iff the columns are equal as multisets. */
  lemma DistanceZero(lines: seq<Line>)
    ensures Distance(lines) == 0 <==> multiset(Lefts(lines)) == multiset(Rights(lines))
  {
    var l, r := Sort(Lefts(lines)), Sort(Rights(lines));
    assert |l| == |multiset(l)| == |lines| == |multiset(r)| == |r|;
    SumAbsDiffZero(l, r);
    if multiset(Lefts(lines)) == multiset(Rights(lines)) {
      SortedUnique(l, r);
    }
  }

  /** The count stored for `v`, or 0 when `v` has no entry. */
  function CountOf(counts: map<nat, nat>, v: nat): nat {
    if v in counts then counts[v] else 0
  }

  /** The count map of `rs`, built value by value as the fold builds it:
      each value adds one to its entry, creating it at 1. */
  function Counts(rs: seq<nat>): map<nat, nat> {
    if rs == [] then map[]
    else
      var m := Counts(rs[..|rs| - 1]);
      m[rs[|rs| - 1] := CountOf(m, rs[|rs| - 1]) + 1]
  }

  /** `counts` holds an entry for exactly the values of `rs`, and each
      entry is the number of times that value occurs there. */
  ghost predicate Tallied(counts: map<nat, nat>, rs: seq<nat>) {
    && (forall v :: v in counts <==> v in rs)
    && (forall v :: CountOf(counts, v) == multiset(rs)[v])
  }

  /** The count map of any sequence counts it. */
  lemma {:induction false} CountsTally(rs: seq<nat>)
    ensures Tallied(Counts(rs), rs)
  {
    if rs != [] {
      var init, y := rs[..|rs| - 1], rs[|rs| - 1];
      CountsTally(init);
      assert rs == init + [y];
      TallyStep(Counts(init), init, y);
    }
  }

  /** The count the similarity reads for `v` is the number of times `v`
      occurs in the right column, and 0 for a value that never occurs there. */
  lemma CountOfCounts(rs: seq<nat>, v: nat)
    ensures CountOf(Counts(rs), v) == multiset(rs)[v]
    ensures v !in rs ==> v !in Counts(rs) && CountOf(Counts(rs), v) == 0
  {
    CountsTally(rs);
  }

  /** Counting one more value `y` keeps the counts those of the values
      so far. */
  lemma TallyStep(counts: map<nat, nat>, rs: seq<nat>, y: nat)
    requires Tallied(counts, rs)
    ensures Tallied(counts[y := CountOf(counts, y) + 1], rs + [y])
  {
  }

  /** The fold of part 2: the left column in order, and for every value of
      the right column the number of lines holding it there. */
  method Tally(lines: seq<Line>) returns (left: seq<nat>, counts: map<nat, nat>)
    ensures left == Lefts(lines)
    ensures counts == Counts(Rights(lines))
  {
    left, counts := [], map[];
    for i := 0 to |lines|
      invariant left == Lefts(lines[..i])
      invariant counts == Counts(Rights(lines[..i]))
    {
      var (x, y) := lines[i];
      ColumnSnoc(lines, i, Left);
      ColumnSnoc(lines, i, Right);
      CountsSnoc(Rights(lines[..i]), y);
      left := left + [x];
      counts := counts[y := CountOf(counts, y) + 1];
    }
    assert lines[..|lines|] == lines;
  }

  /** One more value updates the count map at that value only. */
  lemma CountsSnoc(rs: seq<nat>, y: nat)
    ensures Counts(rs + [y]) == Counts(rs)[y := CountOf(Counts(rs), y) + 1]
  {
    assert (rs + [y])[..|rs|] == rs;
  }

  /** The column of one more line is the column with that line's value
      appended. */
  lemma ColumnSnoc(lines: seq<Line>, i: nat, side: Side)
    requires i < |lines|
    ensures Column(lines[..i + 1], side) == Column(lines[..i], side) + [Pick(lines[i], side)]
  {
    ColumnConcat(lines[..i], [lines[i]], side);
    assert lines[..i + 1] == lines[..i] + [lines[i]];
  }

  /** Σ x × ms[x] over `xs`, counting repeats: the similarity of a left
      column against the multiset of right values. */
  function SimSum(xs: seq<nat>, ms: multiset<nat>): nat {
    if xs == [] then 0 else xs[0] * ms[xs[0]] + SimSum(xs[1..], ms)
  }

  /** The part 2 answer. */
  function Similarity(lines: seq<Line>): nat {
    SimSum(Lefts(lines), multiset(Rights(lines)))
  }

  /** Every left value weighed by its count in the map, summed. */
  function WeightedSum(left: seq<nat>, counts: map<nat, nat>): nat {
    if left == [] then 0 else left[0] * CountOf(counts, left[0]) + WeightedSum(left[1..], counts)
  }

  /** Summing over a map that counts `ms` is summing over `ms`. */
  lemma {:induction false} WeightedSumCounts(left: seq<nat>, counts: map<nat, nat>, ms: multiset<nat>)
    requires forall v :: CountOf(counts, v) == ms[v]
    ensures WeightedSum(left, counts) == SimSum(left, ms)
  {
    if left != [] {
      WeightedSumCounts(left[1..], counts, ms);
    }
  }

  /** Part 2: tally the right column, then weigh every left value. */
  method Part2(lines: seq<Line>) returns (output: nat)
    ensures output == Similarity(lines)
  {
    var left, counts := Tally(lines);
    output := WeightedSum(left, counts);
    CountsTally(Rights(lines));
    WeightedSumCounts(left, counts, multiset(Rights(lines)));
  }

  /** Number of positions of `s` holding `x`. */
  function Occurrences(s: seq<nat>, x: nat): nat {
    if s == [] then 0 else (if s[0] == x then 1 else 0) + Occurrences(s[1..], x)
  }

  lemma {:induction false} OccurrencesMultiset(s: seq<nat>, x: nat)
    ensures Occurrences(s, x) == multiset(s)[x]
  {
    if s != [] {
      OccurrencesMultiset(s[1..], x);
      assert s == [s[0]] + s[1..];
    }
  }

  /** Reference definition: every pair of a left position and a right
      position holding the same value scores that value. */
  function PairScore(left: seq<nat>, right: seq<nat>): nat {
    if left == [] then 0 else left[0] * Occurrences(right, left[0]) + PairScore(left[1..], right)
  }

  /** Part 2 equals the pair-by-pair score of the two columns. */
  lemma {:induction false} SimilarityIsPairScore(lines: seq<Line>)
    ensures Similarity(lines) == PairScore(Lefts(lines), Rights(lines))
  {
    SimSumPairScore(Lefts(lines), Rights(lines));
  }

  lemma {:induction false} SimSumPairScore(left: seq<nat>, right: seq<nat>)
    ensures SimSum(left, multiset(right)) == PairScore(left, right)
  {
    if left != [] {
      OccurrencesMultiset(right, left[0]);
      SimSumPairScore(left[1..], right);
    }
  }

  lemma {:induction false} SimSumConcat(a: seq<nat>, b: seq<nat>, ms: multiset<nat>)
    ensures SimSum(a + b, ms) == SimSum(a, ms) + SimSum(b, ms)
  {
    if a != [] {
      assert (a + b)[1..] == a[1..] + b;
      SimSumConcat(a[1..], b, ms);
    } else {
      assert a + b == b;
    }
  }

  /** The similarity of a left column depends only on its multiset. */
  lemma {:induction false} SimSumPermutation(xs: seq<nat>, ys: seq<nat>, ms: multiset<nat>)
    requires multiset(xs) == multiset(ys)
    ensures SimSum(xs, ms) == SimSum(ys, ms)
  {
    if xs == [] {
      assert |ys| == |multiset(ys)| == 0;
    } else {
      var j := MatchHead(xs, ys);
      SimSumPermutation(xs[1..], ys[..j] + ys[j + 1..], ms);
      assert ys == ys[..j] + [ys[j]] + ys[j + 1..];
      SimSumConcat(ys[..j], ys[j + 1..], ms);
      SimSumConcat(ys[..j] + [ys[j]], ys[j + 1..], ms);
      SimSumConcat(ys[..j], [ys[j]], ms);
    }
  }

  /** Part 2 does not depend on the order of the input lines. */
  lemma SimilarityReorder(lines: seq<Line>, shuffled: seq<Line>)
    requires multiset(lines) == multiset(shuffled)
    ensures Similarity(lines) == Similarity(shuffled)
  {
    ColumnPermutation(lines, shuffled, Left);
    ColumnPermutation(lines, shuffled, Right);
    SimSumPermutation(Lefts(lines), Lefts(shuffled), multiset(Rights(lines)));
  }

  /** A left value absent from the right column contributes nothing. */
  lemma {:induction false} AbsentContributesNothing(left: seq<nat>, right: seq<nat>, x: nat)
    requires x !in right
    ensures SimSum(left + [x], multiset(right)) == SimSum(left, multiset(right))
  {
    SimSumConcat(left, [x], multiset(right));
  }
}
