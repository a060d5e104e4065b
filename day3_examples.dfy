/** The unit tests of the command scanner, restated as lemmas. */
module Day3Examples {
  import opened Wrappers
  import opened Day3

  /** A multiplication text at `i` contributes its pair. */
  lemma ScanMulAt(s: string, i: nat, a: string, b: string, e: nat)
    requires Digits(a) && Digits(b) && HasAt(s, i, MulText(a, b)) && e == i + |MulText(a, b)|
    ensures ScanMul(s, i) == [(DecimalValue(a), DecimalValue(b))] + ScanMul(s, e)
  {
    MulTextMatched(s, i, a, b);
    ScanMulFound(s, i, Token(i, e, Mul(DecimalValue(a), DecimalValue(b))));
  }

  /** A multiplication found at `i` is the first pair the scan reports. */
  lemma ScanMulFound(s: string, i: nat, t: Token)
    requires i <= |s| && MulAt(s, i) == Some(t)
    ensures ScanMul(s, i) == [(t.command.x, t.command.y)] + ScanMul(s, t.end)
  {
  }

  /** A multiplication text at `i` is the next command found. */
  lemma ScanAt(s: string, i: nat, a: string, b: string, e: nat)
    requires Digits(a) && Digits(b) && HasAt(s, i, MulText(a, b)) && e == i + |MulText(a, b)|
    ensures Scan(s, i) == [Token(i, e, Mul(DecimalValue(a), DecimalValue(b)))] + Scan(s, e)
  {
    MulTextMatched(s, i, a, b);
    MatchAtMul(s, i);
    ScanFound(s, i, Token(i, e, Mul(DecimalValue(a), DecimalValue(b))));
  }

  /** Where a multiplication matches, it is the command that matches. */
  lemma MatchAtMul(s: string, i: nat)
    requires i <= |s| && MulAt(s, i).Some?
    ensures MatchAt(s, i) == MulAt(s, i)
  {
    assert !HasAt(s, i, "do()") by {
      if i + 4 <= |s| {
        assert s[i..i + 4][0] == s[i];
      }
    }
  }

  /** A command found at `i` is the first token the scan reports. */
  lemma ScanFound(s: string, i: nat, t: Token)
    requires i <= |s| && MatchAt(s, i) == Some(t)
    ensures Scan(s, i) == [t] + Scan(s, t.end)
  {
  }

  /** Positions holding neither `d` nor `m` start no command. */
  lemma {:induction false} ScanGaps(s: string, a: nat, b: nat)
    requires a <= b <= |s|
    requires forall p :: a <= p < b ==> s[p] != 'd' && s[p] != 'm'
    decreases b - a
    ensures Scan(s, a) == Scan(s, b)
  {
    if a < b {
      ScanGaps(s, a + 1, b);
    }
  }

  /** Positions holding no `m` start no multiplication. */
  lemma {:induction false} ScanMulGaps(s: string, a: nat, b: nat)
    requires a <= b <= |s|
    requires forall p :: a <= p < b ==> s[p] != 'm'
    decreases b - a
    ensures ScanMul(s, a) == ScanMul(s, b)
  {
    if a < b {
      ScanMulGaps(s, a + 1, b);
    }
  }

  /** A multiplication text ending at `e`, then nothing until `j`. */
  lemma ScanStep(s: string, i: nat, a: string, b: string, e: nat, j: nat)
    requires Digits(a) && Digits(b) && e == i + |MulText(a, b)| && e <= j <= |s|
    requires s[i..e] == MulText(a, b)
    requires forall p :: e <= p < j ==> s[p] != 'd' && s[p] != 'm'
    ensures Scan(s, i) == [Token(i, e, Mul(DecimalValue(a), DecimalValue(b)))] + Scan(s, j)
  {
    ScanAt(s, i, a, b, e);
    ScanGaps(s, e, j);
  }

  /** A multiplication pair ending at `e`, then nothing until `j`. */
  lemma ScanMulStep(s: string, i: nat, a: string, b: string, e: nat, j: nat)
    requires Digits(a) && Digits(b) && e == i + |MulText(a, b)| && e <= j <= |s|
    requires s[i..e] == MulText(a, b)
    requires forall p :: e <= p < j ==> s[p] != 'm'
    ensures ScanMul(s, i) == [(DecimalValue(a), DecimalValue(b))] + ScanMul(s, j)
  {
    ScanMulAt(s, i, a, b, e);
    ScanMulGaps(s, e, j);
  }

  /** The multiplication texts of the unit tests, spelled out. */
  lemma MulTexts()
    ensures MulText("1", "2") == "mul(1,2)" && MulText("3", "4") == "mul(3,4)" && MulText("5", "6") == "mul(5,6)"
    ensures Digits("1") && Digits("2") && Digits("3") && Digits("4") && Digits("5") && Digits("6")
    ensures DecimalValue("1") == 1 && DecimalValue("2") == 2 && DecimalValue("3") == 3
    ensures DecimalValue("4") == 4 && DecimalValue("5") == 5 && DecimalValue("6") == 6
  {
  }

  /** The texts reported are those of the found commands. */
  lemma CommandTexts(s: string)
    ensures |FindValidCommands(s)| == |Scan(s, 0)|
    ensures forall k :: 0 <= k < |Scan(s, 0)| ==> FindValidCommands(s)[k] == s[Scan(s, 0)[k].start..Scan(s, 0)[k].end]
  {
  }

  /** A sequence of three elements is the display of its elements. */
  lemma ThreeElements(v: seq<string>)
    requires |v| == 3
    ensures v == [v[0], v[1], v[2]]
  {
  }

  /** The texts of three found commands. */
  lemma ThreeTexts(s: string, t0: Token, t1: Token, t2: Token)
    requires t0.start <= t0.end <= |s| && t1.start <= t1.end <= |s| && t2.start <= t2.end <= |s|
    requires Scan(s, 0) == [t0, t1, t2]
    ensures FindValidCommands(s) == [s[t0.start..t0.end], s[t1.start..t1.end], s[t2.start..t2.end]]
  {
    var v := FindValidCommands(s);
    assert |v| == 3 && v[0] == s[t0.start..t0.end] && v[1] == s[t1.start..t1.end] && v[2] == s[t2.start..t2.end] by {
      CommandTexts(s);
      var ts := Scan(s, 0);
      assert ts[0] == t0 && ts[1] == t1 && ts[2] == t2;
    }
    ThreeElements(v);
  }

  /** The texts of two found commands. */
  lemma TwoTexts(s: string, t0: Token, t1: Token)
    requires t0.start <= t0.end <= |s| && t1.start <= t1.end <= |s|
    requires Scan(s, 0) == [t0, t1]
    ensures FindValidCommands(s) == [s[t0.start..t0.end], s[t1.start..t1.end]]
  {
    CommandTexts(s);
  }

  /** The three pairs of "mul(1,2) mul(3,4) mul(5,6)". */
  lemma PlainPairs(s: string)
    requires |s| == 26 && s[8] == ' ' && s[17] == ' '
    requires s[0..8] == "mul(1,2)" && s[9..17] == "mul(3,4)" && s[18..26] == "mul(5,6)"
    ensures ScanMul(s, 0) == [(1, 2), (3, 4), (5, 6)]
  {
    MulTexts();
    PlainPairsTail(s);
    ScanMulStep(s, 0, "1", "2", 8, 9);
  }

  /** The last two pairs of "mul(1,2) mul(3,4) mul(5,6)". */
  lemma PlainPairsTail(s: string)
    requires |s| == 26 && s[17] == ' '
    requires s[9..17] == "mul(3,4)" && s[18..26] == "mul(5,6)"
    ensures ScanMul(s, 9) == [(3, 4), (5, 6)]
  {
    MulTexts();
    ScanMulStep(s, 18, "5", "6", 26, 26);
    ScanMulStep(s, 9, "3", "4", 17, 18);
  }

  /** The three commands of "mul(1,2) mul(3,4) mul(5,6)". */
  lemma PlainTokens(s: string)
    requires |s| == 26 && s[8] == ' ' && s[17] == ' '
    requires s[0..8] == "mul(1,2)" && s[9..17] == "mul(3,4)" && s[18..26] == "mul(5,6)"
    ensures Scan(s, 0) == [Token(0, 8, Mul(1, 2)), Token(9, 17, Mul(3, 4)), Token(18, 26, Mul(5, 6))]
  {
    MulTexts();
    PlainTokensTail(s);
    ScanStep(s, 0, "1", "2", 8, 9);
  }

  /** The last two commands of "mul(1,2) mul(3,4) mul(5,6)". */
  lemma PlainTokensTail(s: string)
    requires |s| == 26 && s[17] == ' '
    requires s[9..17] == "mul(3,4)" && s[18..26] == "mul(5,6)"
    ensures Scan(s, 9) == [Token(9, 17, Mul(3, 4)), Token(18, 26, Mul(5, 6))]
  {
    MulTexts();
    ScanStep(s, 18, "5", "6", 26, 26);
    ScanStep(s, 9, "3", "4", 17, 18);
  }

  /** Unit test: three well-formed multiplications separated by blanks
      yield their three pairs. */
  lemma FindMultiplicationNumbersPlain()
    ensures FindMultiplicationNumbers("mul(1,2) mul(3,4) mul(5,6)") == [(1, 2), (3, 4), (5, 6)]
  {
    var s := "mul(1,2) mul(3,4) mul(5,6)";
    assert s[0..8] == "mul(1,2)" && s[9..17] == "mul(3,4)" && s[18..26] == "mul(5,6)";
    PlainPairs(s);
  }

  /** Unit test: the same text yields the three command texts. */
  lemma FindValidCommandsPlain()
    ensures FindValidCommands("mul(1,2) mul(3,4) mul(5,6)") == ["mul(1,2)", "mul(3,4)", "mul(5,6)"]
  {
    var s := "mul(1,2) mul(3,4) mul(5,6)";
    assert s[0..8] == "mul(1,2)" && s[9..17] == "mul(3,4)" && s[18..26] == "mul(5,6)";
    PlainTokens(s);
    ThreeTexts(s, Token(0, 8, Mul(1, 2)), Token(9, 17, Mul(3, 4)), Token(18, 26, Mul(5, 6)));
  }

  /** The corrupted prefix "xmul(1,2!),", character by character. */
  predicate BrokenPrefix(s: string) {
    |s| > 11 && s[0] == 'x' && s[1] == 'm' && s[2] == 'u' && s[3] == 'l' && s[4] == '(' && s[5] == '1' && s[6] == ',' && s[7] == '2'
    && s[8] == '!' && s[9] == ')' && s[10] == ','
  }

  /** `mul(1,2!` at position 1 matches nothing. */
  lemma BrokenMulAt(s: string)
    requires BrokenPrefix(s)
    ensures MatchAt(s, 1).None?
  {
    assert s[1..5] == "mul(";
    DigitsEndAt(s, 5, 6);
    DigitsEndAt(s, 7, 8);
    assert "mul(" != "do()" by { assert "mul("[0] != "do()"[0]; }
    assert s[1..8][0] == s[1..5][0] == 'm';
  }

  /** Nothing is found before position 11 of "xmul(1,2!),...". */
  lemma BrokenMulSkipped(s: string)
    requires BrokenPrefix(s)
    ensures Scan(s, 0) == Scan(s, 11)
  {
    BrokenMulAt(s);
    ScanGaps(s, 2, 11);
    ScanGaps(s, 0, 1);
  }

  /** No pair is found before position 11 of "xmul(1,2!),...". */
  lemma BrokenMulPairsSkipped(s: string)
    requires BrokenPrefix(s)
    ensures ScanMul(s, 0) == ScanMul(s, 11)
  {
    BrokenMulAt(s);
    ScanMulGaps(s, 2, 11);
    ScanMulGaps(s, 0, 1);
  }

  /** The two pairs of "xmul(1,2!),mul(3,4)&mul(5,6))". */
  lemma CorruptedPairs(s: string)
    requires |s| == 29 && BrokenPrefix(s) && s[19] == '&' && s[28] == ')'
    requires s[11..19] == "mul(3,4)" && s[20..28] == "mul(5,6)"
    ensures ScanMul(s, 0) == [(3, 4), (5, 6)]
  {
    MulTexts();
    ScanMulStep(s, 20, "5", "6", 28, 29);
    ScanMulStep(s, 11, "3", "4", 19, 20);
    BrokenMulPairsSkipped(s);
  }

  /** The two commands of "xmul(1,2!),mul(3,4)&mul(5,6))". */
  lemma CorruptedTokens(s: string)
    requires |s| == 29 && BrokenPrefix(s) && s[19] == '&' && s[28] == ')'
    requires s[11..19] == "mul(3,4)" && s[20..28] == "mul(5,6)"
    ensures Scan(s, 0) == [Token(11, 19, Mul(3, 4)), Token(20, 28, Mul(5, 6))]
  {
    MulTexts();
    ScanStep(s, 20, "5", "6", 28, 29);
    ScanStep(s, 11, "3", "4", 19, 20);
    BrokenMulSkipped(s);
  }

  /** Unit test: the fragment `mul(1,2!` is not a command; the pairs of
      the two well-formed multiplications after it are found. */
  lemma FindMultiplicationNumbersCorrupted()
    ensures FindMultiplicationNumbers("xmul(1,2!),mul(3,4)&mul(5,6))") == [(3, 4), (5, 6)]
  {
    var s := "xmul(1,2!),mul(3,4)&mul(5,6))";
    assert s[11..19] == "mul(3,4)";
    assert s[20..28] == "mul(5,6)";
    CorruptedPairs(s);
  }

  /** Unit test: the same text yields the two command texts. */
  lemma FindValidCommandsCorrupted()
    ensures FindValidCommands("xmul(1,2!),mul(3,4)&mul(5,6))") == ["mul(3,4)", "mul(5,6)"]
  {
    var s := "xmul(1,2!),mul(3,4)&mul(5,6))";
    assert s[11..19] == "mul(3,4)";
    assert s[20..28] == "mul(5,6)";
    CorruptedTokens(s);
    TwoTexts(s, Token(11, 19, Mul(3, 4)), Token(20, 28, Mul(5, 6)));
  }
}
