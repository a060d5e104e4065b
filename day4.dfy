/** Word search over a character grid: four direction probes for "XMAS"
    (part 1) and the X-shaped "MAS" cross centred on an 'A' (part 2). */
module Day4 {

  /** Rows of characters, indexed `g[y][x]`. */
  type Grid = seq<seq<char>>

  /** Every row as long as the first. The probes that look into other rows
      index them with the current row's bounds, so they need this. */
  predicate Rectangular(g: Grid) {
    forall r :: 0 <= r < |g| ==> |g[r]| == |g[0]|
  }

  /** The two spellings every probe accepts. */
  predicate IsXmas(w: string) {
    w == "XMAS" || w == "SAMX"
  }

  function Reverse(w: string): (r: string)
    ensures |r| == |w|
    ensures forall i :: 0 <= i < |w| ==> r[i] == w[|w| - 1 - i]
  {
    if w == [] then [] else Reverse(w[1..]) + [w[0]]
  }

  /** A four-character read matches exactly when its reversal does, so each
      probe finds a word read in either orientation. */
  lemma IsXmasReversal(w: string)
    ensures IsXmas(w) <==> IsXmas(Reverse(w))
  {
    var r := Reverse(w);
    if w == "XMAS" {
      assert r == "SAMX";
    }
    if w == "SAMX" {
      assert r == "XMAS";
    }
    if IsXmas(r) {
      assert w[0] == r[3] && w[1] == r[2] && w[2] == r[1] && w[3] == r[0];
    }
  }

  /** At most four characters of one row, starting at column `x`. */
  function SkipTake4(row: seq<char>, x: nat): (w: string)
    ensures |w| == 4 <==> x + 4 <= |row|
    ensures x + 4 <= |row| ==> w == row[x..x + 4]
  {
    if |row| <= x then [] else if x + 4 <= |row| then row[x..x + 4] else row[x..]
  }

  /** Column `x` of a run of rows, top to bottom. */
  function ColumnOf(rows: seq<seq<char>>, x: nat): (w: string)
    requires forall r :: 0 <= r < |rows| ==> x < |rows[r]|
    ensures |w| == |rows|
    ensures forall k :: 0 <= k < |rows| ==> w[k] == rows[k][x]
  {
    if rows == [] then [] else [rows[0][x]] + ColumnOf(rows[1..], x)
  }

  /** Cell (x, y) lies inside the grid. Coordinates are integers so that a
      line may step leftwards. */
  predicate InGrid(g: Grid, x: int, y: int) {
    0 <= y < |g| && 0 <= x < |g[y]|
  }

  /** All four cells of the line from (x, y) in steps of (dx, dy) lie
      inside the grid. */
  predicate InGrid4(g: Grid, x: int, y: int, dx: int, dy: int) {
    InGrid(g, x, y) && InGrid(g, x + dx, y + dy) && InGrid(g, x + 2 * dx, y + 2 * dy)
    && InGrid(g, x + 3 * dx, y + 3 * dy)
  }

  /** The four cells of that line, in order: the reference every probe is
      measured against. */
  function Read4(g: Grid, x: int, y: int, dx: int, dy: int): string
    requires InGrid4(g, x, y, dx, dy)
  {
    [g[y][x], g[y + dy][x + dx], g[y + 2 * dy][x + 2 * dx], g[y + 3 * dy][x + 3 * dx]]
  }

  /** Rightward probe: at most four characters of row `y` from column `x`. */
  predicate LookRight(g: Grid, x: nat, y: nat)
    requires y < |g|
  {
    var w := SkipTake4(g[y], x);
    assert x + 3 < |g[y]| ==> w == [g[y][x], g[y][x + 1], g[y][x + 2], g[y][x + 3]];
    IsXmas(w)
  }

  /** Downward probe: column `x` of at most four rows from row `y`. Every
      row it reads must be long enough to hold column `x`. */
  predicate LookDown(g: Grid, x: nat, y: nat)
    requires forall r :: y <= r < |g| && r < y + 4 ==> x < |g[r]|
  {
    var rows := if |g| <= y then [] else if y + 4 <= |g| then g[y..y + 4] else g[y..];
    var w := ColumnOf(rows, x);
    assert y + 3 < |g| ==> w == [g[y][x], g[y + 1][x], g[y + 2][x], g[y + 3][x]];
    IsXmas(w)
  }

  /** Down-right diagonal probe: out of range means false, nothing read. */
  predicate LookDownRight(g: Grid, x: nat, y: nat)
    requires Rectangular(g) && y < |g|
  {
    if x + 3 >= |g[y]| || y + 3 >= |g| then false
    else IsXmas([g[y][x], g[y + 1][x + 1], g[y + 2][x + 2], g[y + 3][x + 3]])
  }

  /** Down-left diagonal probe: out of range means false, nothing read. */
  predicate LookDownLeft(g: Grid, x: nat, y: nat)
    requires Rectangular(g) && y < |g| && x < |g[y]|
  {
    if x < 3 || y + 3 >= |g| then false
    else IsXmas([g[y][x], g[y + 1][x - 1], g[y + 2][x - 2], g[y + 3][x - 3]])
  }

  /** Each probe holds exactly when the four cells of its line all lie in
      the grid and read `XMAS` or `SAMX`: the probes' own range guards are
      exactly "all four cells are in bounds". */
  lemma LookRightReads(g: Grid, x: nat, y: nat)
    requires y < |g|
    ensures LookRight(g, x, y) <==> InGrid4(g, x, y, 1, 0) && IsXmas(Read4(g, x, y, 1, 0))
  {
  }

  lemma LookDownReads(g: Grid, x: nat, y: nat)
    requires forall r :: y <= r < |g| && r < y + 4 ==> x < |g[r]|
    ensures LookDown(g, x, y) <==> InGrid4(g, x, y, 0, 1) && IsXmas(Read4(g, x, y, 0, 1))
  {
    var rows := if |g| <= y then [] else if y + 4 <= |g| then g[y..y + 4] else g[y..];
    var w := ColumnOf(rows, x);
    assert LookDown(g, x, y) == IsXmas(w);
    if y + 3 < |g| {
      assert w == [g[y][x], g[y + 1][x], g[y + 2][x], g[y + 3][x]];
    } else {
      assert |w| < 4;
    }
  }

  lemma LookDownRightReads(g: Grid, x: nat, y: nat)
    requires Rectangular(g) && y < |g|
    ensures LookDownRight(g, x, y) <==> InGrid4(g, x, y, 1, 1) && IsXmas(Read4(g, x, y, 1, 1))
  {
  }

  lemma LookDownLeftReads(g: Grid, x: nat, y: nat)
    requires Rectangular(g) && y < |g| && x < |g[y]|
    ensures LookDownLeft(g, x, y) <==> InGrid4(g, x, y, -1, 1) && IsXmas(Read4(g, x, y, -1, 1))
  {
  }

  /** The four diagonal neighbours of a pivot cell. */
  datatype XMasBlock = XMasBlock(topLeft: char, topRight: char, bottomLeft: char, bottomRight: char)

  /** Both diagonals hold an 'M' and an 'S', in either order. */
  predicate ValidateXMas(b: XMasBlock)
    ensures ValidateXMas(b) <==>
              {b.topLeft, b.bottomRight} == {'M', 'S'} && {b.topRight, b.bottomLeft} == {'M', 'S'}
  {
    var ms: set<char> := {'M', 'S'};
    assert {b.topLeft, b.bottomRight} == ms ==> b.topLeft in ms && b.bottomRight in ms;
    assert {b.topRight, b.bottomLeft} == ms ==> b.topRight in ms && b.bottomLeft in ms;
    ((b.topLeft == 'M' && b.bottomRight == 'S') || (b.topLeft == 'S' && b.bottomRight == 'M'))
    && ((b.topRight == 'M' && b.bottomLeft == 'S') || (b.topRight == 'S' && b.bottomLeft == 'M'))
  }

  /** Cross probe: an interior 'A' whose diagonal neighbours validate. */
  predicate TextXMas(g: Grid, x: nat, y: nat)
    requires Rectangular(g) && y < |g|
    ensures TextXMas(g, x, y) <==>
              1 <= x && x + 1 < |g[y]| && 1 <= y && y + 1 < |g| && g[y][x] == 'A'
              && {g[y - 1][x - 1], g[y + 1][x + 1]} == {'M', 'S'}
              && {g[y - 1][x + 1], g[y + 1][x - 1]} == {'M', 'S'}
  {
    if x < 1 || y < 1 || x + 1 >= |g[y]| || y + 1 >= |g| then false
    else if g[y][x] != 'A' then false
    else ValidateXMas(XMasBlock(g[y - 1][x - 1], g[y - 1][x + 1], g[y + 1][x - 1], g[y + 1][x + 1]))
  }

  /** Which of the two counts a scan accumulates. */
  datatype Part = Words | Crosses

  /** What one cell adds to the count: the number of probes that hold there
      (part 1), or one for a cross centred there (part 2). */
  function CellScore(g: Grid, x: nat, y: nat, part: Part): (n: nat)
    requires Rectangular(g) && y < |g| && x < |g[y]|
    ensures part == Words ==> n <= 4
    ensures part == Crosses ==> n <= 1
  {
    match part
    case Words =>
      (if LookRight(g, x, y) then 1 else 0) + (if LookDown(g, x, y) then 1 else 0)
      + (if LookDownRight(g, x, y) then 1 else 0) + (if LookDownLeft(g, x, y) then 1 else 0)
    case Crosses =>
      if TextXMas(g, x, y) then 1 else 0
  }

  /** Sum of the scores of the first `n` cells of row `y`. */
  function RowScore(g: Grid, y: nat, n: nat, part: Part): nat
    requires Rectangular(g) && y < |g| && n <= |g[y]|
  {
    if n == 0 then 0 else RowScore(g, y, n - 1, part) + CellScore(g, n - 1, y, part)
  }

  /** Sum of the scores of every cell of the first `m` rows. */
  function GridScore(g: Grid, m: nat, part: Part): nat
    requires Rectangular(g) && m <= |g|
  {
    if m == 0 then 0 else GridScore(g, m - 1, part) + RowScore(g, m - 1, |g[m - 1]|, part)
  }

  /** Number of cells in the first `m` rows. */
  function Cells(g: Grid, m: nat): nat
    requires m <= |g|
  {
    if m == 0 then 0 else Cells(g, m - 1) + |g[m - 1]|
  }

  /** Part 1: for every cell, one for each of the four probes that holds. */
  method Part1(g: Grid) returns (output: nat)
    requires Rectangular(g)
    ensures output == GridScore(g, |g|, Words)
    ensures output <= 4 * Cells(g, |g|)
  {
    output := 0;
    for y := 0 to |g|
      invariant output == GridScore(g, y, Words)
      invariant output <= 4 * Cells(g, y)
    {
      var n := CountWordsInRow(g, y);
      assert Cells(g, y + 1) == Cells(g, y) + |g[y]|;
      output := output + n;
    }
  }

  /** Part 1's inner loop over the cells of row `y`. */
  method CountWordsInRow(g: Grid, y: nat) returns (n: nat)
    requires Rectangular(g) && y < |g|
    ensures n == RowScore(g, y, |g[y]|, Words)
    ensures n <= 4 * |g[y]|
  {
    n := 0;
    for x := 0 to |g[y]|
      invariant n == RowScore(g, y, x, Words)
      invariant n <= 4 * x
    {
      var k := CountWordsAt(g, x, y);
      n := n + k;
    }
  }

  /** The body of part 1's inner loop: one for each of the four probes
      that holds at cell (x, y). */
  method CountWordsAt(g: Grid, x: nat, y: nat) returns (n: nat)
    requires Rectangular(g) && y < |g| && x < |g[y]|
    ensures n == CellScore(g, x, y, Words)
    ensures n <= 4
  {
    n := 0;
    if LookRight(g, x, y) {
      n := n + 1;
    }
    if LookDown(g, x, y) {
      n := n + 1;
    }
    if LookDownRight(g, x, y) {
      n := n + 1;
    }
    if LookDownLeft(g, x, y) {
      n := n + 1;
    }
  }

  /** Part 2: one for each cell at the centre of a cross. */
  method Part2(g: Grid) returns (output: nat)
    requires Rectangular(g)
    ensures output == GridScore(g, |g|, Crosses)
    ensures |g| < 3 ==> output == 0
  {
    output := 0;
    for y := 0 to |g|
      invariant output == GridScore(g, y, Crosses)
    {
      for x := 0 to |g[y]|
        invariant output == GridScore(g, y, Crosses) + RowScore(g, y, x, Crosses)
      {
        if TextXMas(g, x, y) {
          output := output + 1;
        }
      }
    }
    if |g| < 3 {
      FewRowsNoCrosses(g, |g|);
    }
  }

  lemma {:induction false} RowNoCrosses(g: Grid, y: nat, n: nat)
    requires Rectangular(g) && y < |g| && n <= |g[y]|
    requires y == 0 || y + 1 == |g|
    ensures RowScore(g, y, n, Crosses) == 0
  {
    if n > 0 {
      RowNoCrosses(g, y, n - 1);
    }
  }

  /** With fewer than three rows no cell is interior, so part 2 finds nothing. */
  lemma {:induction false} FewRowsNoCrosses(g: Grid, m: nat)
    requires Rectangular(g) && m <= |g| < 3
    ensures GridScore(g, m, Crosses) == 0
  {
    if m > 0 {
      FewRowsNoCrosses(g, m - 1);
      RowNoCrosses(g, m - 1, |g[m - 1]|);
    }
  }

  /** The columns among the first `n` of a row that hold an 'A'. */
  function PivotColumns(row: seq<char>, n: nat): set<nat>
    requires n <= |row|
  {
    set x: nat | x < n && row[x] == 'A'
  }

  lemma {:induction false} RowCrossesAtMostAs(g: Grid, y: nat, n: nat)
    requires Rectangular(g) && y < |g| && n <= |g[y]|
    ensures RowScore(g, y, n, Crosses) <= |PivotColumns(g[y], n)|
  {
    if n > 0 {
      RowCrossesAtMostAs(g, y, n - 1);
      var before := PivotColumns(g[y], n - 1);
      var after := PivotColumns(g[y], n);
      if g[y][n - 1] == 'A' {
        assert after == before + {n - 1};
      } else {
        assert after == before;
      }
    }
  }

  /** Number of 'A' cells in the first `m` rows. */
  function Pivots(g: Grid, m: nat): nat
    requires m <= |g|
  {
    if m == 0 then 0 else Pivots(g, m - 1) + |PivotColumns(g[m - 1], |g[m - 1]|)|
  }

  /** Every cross part 2 counts is centred on its own 'A'. */
  lemma {:induction false} CrossesAtMostPivots(g: Grid, m: nat)
    requires Rectangular(g) && m <= |g|
    ensures GridScore(g, m, Crosses) <= Pivots(g, m)
  {
    if m > 0 {
      CrossesAtMostPivots(g, m - 1);
      RowCrossesAtMostAs(g, m - 1, |g[m - 1]|);
    }
  }

  /** The sample grid of the unit tests. */
  function Sample(): Grid {
    ["....XXMAS.",
     ".SAMXMS...",
     "...S..A...",
     "..A.A.MS.X",
     "XMASAMX.MM",
     "X.....XA.A",
     "S.S.S.S.SS",
     ".A.A.A.A.A",
     "..M.M.M.MM",
     ".X.X.XMASX"]
  }

  /** The sample grid is ten rows of ten cells. */
  lemma SampleShape()
    ensures |Sample()| == 10 && Rectangular(Sample()) && |Sample()[0]| == 10
  {
    var g := Sample();
    assert |g[0]| == 10 && |g[1]| == 10 && |g[2]| == 10 && |g[3]| == 10 && |g[4]| == 10;
    assert |g[5]| == 10 && |g[6]| == 10 && |g[7]| == 10 && |g[8]| == 10 && |g[9]| == 10;
  }

  lemma SampleRight()
    ensures !LookRight(Sample(), 1, 0) && LookRight(Sample(), 1, 1) && LookRight(Sample(), 5, 0)
  {
    LookRightReads(Sample(), 1, 0);
    LookRightReads(Sample(), 1, 1);
    LookRightReads(Sample(), 5, 0);
  }

  lemma SampleDown()
    ensures Rectangular(Sample())
    ensures !LookDown(Sample(), 0, 3) && !LookDown(Sample(), 0, 2) && !LookDown(Sample(), 0, 0)
    ensures !LookDown(Sample(), 9, 9)
    ensures LookDown(Sample(), 9, 3)
  {
    SampleDownFirstColumn();
    SampleDownLastColumn();
  }

  /** Column 0 of the sample spells no word downwards from rows 0, 2 or 3. */
  lemma SampleDownFirstColumn()
    ensures Rectangular(Sample())
    ensures !LookDown(Sample(), 0, 3) && !LookDown(Sample(), 0, 2) && !LookDown(Sample(), 0, 0)
  {
    SampleShape();
    LookDownReads(Sample(), 0, 3);
    LookDownReads(Sample(), 0, 2);
    LookDownReads(Sample(), 0, 0);
  }

  /** Column 9 of the sample reads `XMAS` from row 3; from row 9 fewer than
      four rows remain. */
  lemma SampleDownLastColumn()
    ensures Rectangular(Sample())
    ensures !LookDown(Sample(), 9, 9) && LookDown(Sample(), 9, 3)
  {
    SampleShape();
    LookDownReads(Sample(), 9, 9);
    LookDownReads(Sample(), 9, 3);
  }

  lemma SampleDiagonals()
    ensures Rectangular(Sample())
    ensures LookDownRight(Sample(), 4, 0) && !LookDownRight(Sample(), 5, 0) && !LookDownRight(Sample(), 0, 0)
    ensures LookDownRight(Sample(), 0, 6)
    ensures !LookDownLeft(Sample(), 4, 0) && !LookDownLeft(Sample(), 5, 0) && !LookDownLeft(Sample(), 9, 0)
    ensures LookDownLeft(Sample(), 3, 2)
  {
    SampleShape();
  }

  /** The block validations the unit tests expect. */
  lemma SampleBlocks()
    ensures ValidateXMas(XMasBlock('M', 'M', 'S', 'S')) && ValidateXMas(XMasBlock('S', 'S', 'M', 'M'))
    ensures ValidateXMas(XMasBlock('M', 'S', 'M', 'S'))
    ensures !ValidateXMas(XMasBlock('M', 'S', 'S', 'M')) && !ValidateXMas(XMasBlock('S', 'M', 'M', 'S'))
    ensures !ValidateXMas(XMasBlock('A', 'B', 'C', 'D'))
  {
  }
}
