/** The instruction machine: a corrupted memory dump is scanned for the
    commands `do()`, `don't()` and `mul(X,Y)` (X and Y runs of decimal
    digits). Part 1 sums every product; part 2 sums only the products met
    while the machine is enabled, which `do()` and `don't()` switch. */
module Day3 {
  import opened Wrappers

  datatype Command = Do | Dont | Mul(x: nat, y: nat)

  /** A match of the command pattern: the text from `start` up to `end`
      spells `command`. */
  datatype Token = Token(start: nat, end: nat, command: Command)

  /** `\d`, restricted to ASCII digits. */
  predicate IsDigit(c: char) {
    '0' <= c <= '9'
  }

  /** A non-empty run of digits: what `\d+` matches. */
  predicate Digits(ds: string) {
    |ds| > 0 && forall k :: 0 <= k < |ds| ==> IsDigit(ds[k])
  }

  /** The text `w` occurs in `s` at position `i`. */
  predicate HasAt(s: string, i: nat, w: string) {
    i + |w| <= |s| && s[i..i + |w|] == w
  }

  /** The end of the run of digits of `s` starting at `i` (greedy). */
  function DigitsEnd(s: string, i: nat): (e: nat)
    requires i <= |s|
    decreases |s| - i
    ensures i <= e <= |s|
    ensures e < |s| ==> !IsDigit(s[e])
  {
    if i < |s| && IsDigit(s[i]) then DigitsEnd(s, i + 1) else i
  }

  /** Everything `DigitsEnd` passes over is a digit. */
  lemma {:induction false} DigitsEndRun(s: string, i: nat)
    requires i <= |s|
    decreases |s| - i
    ensures forall k :: i <= k < DigitsEnd(s, i) ==> IsDigit(s[k])
  {
    if i < |s| && IsDigit(s[i]) {
      DigitsEndRun(s, i + 1);
    }
  }

  function DigitValue(c: char): nat {
    if IsDigit(c) then c as int - '0' as int else 0
  }

  /** The decimal value of a run of digits. */
  function DecimalValue(ds: string): nat {
    if ds == [] then 0 else 10 * DecimalValue(ds[..|ds| - 1]) + DigitValue(ds[|ds| - 1])
  }

  /** The text of a multiplication with the digit runs `a` and `b`. */
  function MulText(a: string, b: string): string {
    "mul(" + a + "," + b + ")"
  }

  /** The multiplication pattern tried at position `i`: `mul(`, a digit run,
      a comma, a digit run, `)`; the two runs are parsed. */
  function MulAt(s: string, i: nat): (t: Option<Token>)
    requires i <= |s|
    ensures t.Some? ==> t.value.start == i < t.value.end <= |s| && t.value.command.Mul?
    ensures t.Some? ==> s[i] == 'm'
  {
    if !HasAt(s, i, "mul(") then None
    else
      assert s[i] == "mul("[0];
      var b := DigitsEnd(s, i + 4);
      if b == i + 4 || b == |s| || s[b] != ',' then None
      else
        var d := DigitsEnd(s, b + 1);
        if d == b + 1 || d == |s| || s[d] != ')' then None
        else Some(Token(i, d + 1, Mul(DecimalValue(s[i + 4..b]), DecimalValue(s[b + 1..d]))))
  }

  /** The command pattern tried at position `i`: `do()`, then a
      multiplication, then `don't()`, in the order the alternation lists them. */
  function MatchAt(s: string, i: nat): (t: Option<Token>)
    requires i <= |s|
    ensures t.Some? ==> t.value.start == i < t.value.end <= |s|
    ensures t.Some? ==> s[i] == 'd' || s[i] == 'm'
  {
    if HasAt(s, i, "do()") then
      assert s[i] == "do()"[0];
      Some(Token(i, i + 4, Do))
    else if MulAt(s, i).Some? then MulAt(s, i)
    else if HasAt(s, i, "don't()") then
      assert s[i] == "don't()"[0];
      Some(Token(i, i + 7, Dont))
    else None
  }

  /** A multiplication found at `i` is the text `mul(a,b)` for two digit
      runs `a` and `b`, and carries their values. */
  lemma MulMatchSpelled(s: string, i: nat) returns (a: string, b: string)
    requires i <= |s| && MulAt(s, i).Some?
    ensures Digits(a) && Digits(b)
    ensures s[i..MulAt(s, i).value.end] == MulText(a, b)
    ensures MulAt(s, i).value.command == Mul(DecimalValue(a), DecimalValue(b))
  {
    var e := DigitsEnd(s, i + 4);
    var d := DigitsEnd(s, e + 1);
    a, b := s[i + 4..e], s[e + 1..d];
    DigitsEndRun(s, i + 4);
    DigitsEndRun(s, e + 1);
    assert s[i..i + 4] == "mul(";
    FiveParts(s, i, e, d);
  }

  /** The slice from `i` to `d` split at `i + 4`, `e` and `d`. */
  lemma FiveParts<T>(s: seq<T>, i: nat, e: nat, d: nat)
    requires i + 4 <= e < d < |s|
    ensures s[i..d + 1] == s[i..i + 4] + s[i + 4..e] + [s[e]] + s[e + 1..d] + [s[d]]
  {
    SplitAt(s, i, i + 4, e);
    SliceSnoc(s, i, e);
    SplitAt(s, i, e + 1, d);
    SliceSnoc(s, i, d);
  }

  /** A slice one longer is the shorter slice and the next element. */
  lemma SliceSnoc<T>(s: seq<T>, i: nat, k: nat)
    requires i <= k < |s|
    ensures s[i..k + 1] == s[i..k] + [s[k]]
  {
  }

  /** A slice is the concatenation of its two parts around `j`. */
  lemma SplitAt<T>(s: seq<T>, i: nat, j: nat, k: nat)
    requires i <= j <= k <= |s|
    ensures s[i..k] == s[i..j] + s[j..k]
  {
  }

  /** Where the parts of `mul(a,b)` sit when that text occurs at `i`. */
  lemma MulTextLayout(s: string, i: nat, a: string, b: string)
    requires HasAt(s, i, MulText(a, b))
    ensures |MulText(a, b)| == |a| + |b| + 6
    ensures i + |a| + |b| + 6 <= |s|
    ensures HasAt(s, i, "mul(")
    ensures s[i + 4..i + 4 + |a|] == a && s[i + 4 + |a|] == ','
    ensures s[i + 5 + |a|..i + 5 + |a| + |b|] == b && s[i + 5 + |a| + |b|] == ')'
  {
    var w := MulText(a, b);
    var v := s[i..i + |w|];
    assert v == w;
    assert s[i..i + 4] == v[..4] == "mul(";
    forall k | 0 <= k < |a|
      ensures s[i + 4 + k] == a[k]
    {
      assert s[i + 4 + k] == v[4 + k];
    }
    forall k | 0 <= k < |b|
      ensures s[i + 5 + |a| + k] == b[k]
    {
      assert s[i + 5 + |a| + k] == v[5 + |a| + k];
    }
    assert s[i + 4 + |a|] == v[4 + |a|] == ',';
    assert s[i + 5 + |a| + |b|] == v[5 + |a| + |b|] == ')';
  }

  /** Conversely, wherever the text `mul(a,b)` with digit runs `a` and `b`
      occurs, a multiplication of their values is found. */
  lemma MulTextMatched(s: string, i: nat, a: string, b: string)
    requires Digits(a) && Digits(b) && HasAt(s, i, MulText(a, b))
    ensures MulAt(s, i) == Some(Token(i, i + |MulText(a, b)|, Mul(DecimalValue(a), DecimalValue(b))))
  {
    MulTextLayout(s, i, a, b);
    MulRunsEnd(s, i, a, b);
    MulLayoutMatched(s, i, a, b, i + |MulText(a, b)|);
  }

  /** The digit runs of `mul(a,b)` end where `a` and `b` do. */
  lemma MulRunsEnd(s: string, i: nat, a: string, b: string)
    requires Digits(a) && Digits(b) && i + |a| + |b| + 6 <= |s|
    requires s[i + 4..i + 4 + |a|] == a && s[i + 4 + |a|] == ','
    requires s[i + 5 + |a|..i + 5 + |a| + |b|] == b && s[i + 5 + |a| + |b|] == ')'
    ensures DigitsEnd(s, i + 4) == i + 4 + |a| && DigitsEnd(s, i + 5 + |a|) == i + 5 + |a| + |b|
  {
    DigitRunEnds(s, i + 4, a);
    DigitRunEnds(s, i + 5 + |a|, b);
  }

  /** The pattern matches where the parts of `mul(a,b)` sit and the digit
      runs end where `a` and `b` do; the token ends at `n`. */
  lemma MulLayoutMatched(s: string, i: nat, a: string, b: string, n: nat)
    requires |a| > 0 && |b| > 0 && i + |a| + |b| + 6 <= |s| && n == i + |a| + |b| + 6
    requires DigitsEnd(s, i + 4) == i + 4 + |a| && DigitsEnd(s, i + 5 + |a|) == i + 5 + |a| + |b|
    requires HasAt(s, i, "mul(")
    requires s[i + 4..i + 4 + |a|] == a && s[i + 4 + |a|] == ','
    requires s[i + 5 + |a|..i + 5 + |a| + |b|] == b && s[i + 5 + |a| + |b|] == ')'
    ensures MulAt(s, i) == Some(Token(i, n, Mul(DecimalValue(a), DecimalValue(b))))
  {
    MulAtFound(s, i, i + 4 + |a|, i + 5 + |a|, i + 5 + |a| + |b|, n, a, b);
  }

  /** A digit run `w` at `lo`, followed by a non-digit, is where `DigitsEnd`
      stops. */
  lemma DigitRunEnds(s: string, lo: nat, w: string)
    requires Digits(w) && lo + |w| < |s| && s[lo..lo + |w|] == w && !IsDigit(s[lo + |w|])
    ensures DigitsEnd(s, lo) == lo + |w|
  {
    assert forall k :: lo <= k < lo + |w| ==> s[k] == w[k - lo];
    DigitsEndAt(s, lo, lo + |w|);
  }

  /** The pattern matches at `i` when `mul(`, a digit run ended by `,` at `e`
      and a digit run from `f` ended by `)` at `d` follow one another there; the
      token ends at `n`, just past the `)`. */
  lemma MulAtFound(s: string, i: nat, e: nat, f: nat, d: nat, n: nat, x: string, y: string)
    requires HasAt(s, i, "mul(") && i + 4 < e && f == e + 1 && f < d < |s| && n == d + 1
    requires s[e] == ',' && s[d] == ')'
    requires DigitsEnd(s, i + 4) == e && DigitsEnd(s, f) == d
    requires s[i + 4..e] == x && s[f..d] == y
    ensures MulAt(s, i) == Some(Token(i, n, Mul(DecimalValue(x), DecimalValue(y))))
  {
  }

  /** A run of digits ended by a non-digit ends where `DigitsEnd` says. */
  lemma {:induction false} DigitsEndAt(s: string, i: nat, e: nat)
    requires i <= e < |s| && !IsDigit(s[e])
    requires forall k :: i <= k < e ==> IsDigit(s[k])
    decreases e - i
    ensures DigitsEnd(s, i) == e
  {
    if i < e {
      DigitsEndAt(s, i + 1, e);
    }
  }

  /** The regex scan from position `from`: leftmost match, then go on
      after its end; positions where nothing matches are skipped. */
  function Scan(s: string, from: nat): (ts: seq<Token>)
    requires from <= |s|
    decreases |s| - from
    ensures forall k :: 0 <= k < |ts| ==> from <= ts[k].start < ts[k].end <= |s|
  {
    if from == |s| then []
    else match MatchAt(s, from)
      case Some(t) => [t] + Scan(s, t.end)
      case None => Scan(s, from + 1)
  }

  /** Everything `Scan` reports is a match, in order, without overlap. */
  lemma ScanSound(s: string, from: nat)
    requires from <= |s|
    ensures forall k :: 0 <= k < |Scan(s, from)| ==> MatchAt(s, Scan(s, from)[k].start) == Some(Scan(s, from)[k])
    ensures forall k :: 0 <= k < |Scan(s, from)| - 1 ==> Scan(s, from)[k].end <= Scan(s, from)[k + 1].start
  {
    ScanMatches(s, from);
    ScanOrdered(s, from);
  }

  /** Everything `Scan` reports is the match at its start. */
  lemma {:induction false} ScanMatches(s: string, from: nat)
    requires from <= |s|
    decreases |s| - from
    ensures forall k :: 0 <= k < |Scan(s, from)| ==> MatchAt(s, Scan(s, from)[k].start) == Some(Scan(s, from)[k])
  {
    if from < |s| {
      match MatchAt(s, from)
      case Some(t) =>
        ScanMatches(s, t.end);
        ConsTail(t, Scan(s, t.end));
      case None =>
        ScanMatches(s, from + 1);
    }
  }

  /** `Scan` reports its matches in order, without overlap. */
  lemma {:induction false} ScanOrdered(s: string, from: nat)
    requires from <= |s|
    decreases |s| - from
    ensures forall k :: 0 <= k < |Scan(s, from)| - 1 ==> Scan(s, from)[k].end <= Scan(s, from)[k + 1].start
  {
    if from < |s| {
      match MatchAt(s, from)
      case Some(t) =>
        ScanOrdered(s, t.end);
        ConsTail(t, Scan(s, t.end));
      case None =>
        ScanOrdered(s, from + 1);
    }
  }

  /** The elements of `[x] + r`: `x` first, then those of `r`. */
  lemma ConsTail<T>(x: T, r: seq<T>)
    ensures ([x] + r)[0] == x
    ensures forall k :: 0 < k <= |r| ==> ([x] + r)[k] == r[k - 1]
  {
  }

  /** No command starts strictly inside another: the characters after a
      match's first one are never `d` or `m`. */
  lemma NoMatchInside(s: string, i: nat, p: nat)
    requires i <= |s| && MatchAt(s, i).Some? && i < p < MatchAt(s, i).value.end
    ensures MatchAt(s, p).None?
  {
    assert s[p] != 'd' && s[p] != 'm' by {
      if HasAt(s, i, "do()") {
        assert s[p] == "do()"[p - i];
      } else if MulAt(s, i).Some? {
        var a, b := MulMatchSpelled(s, i);
        assert s[p] == MulText(a, b)[p - i];
        MulTextInner(a, b, p - i);
      } else {
        assert s[p] == "don't()"[p - i];
      }
    }
  }

  /** After its first character, the text `mul(a,b)` holds no `d` and no
      `m`. */
  lemma MulTextInner(a: string, b: string, j: nat)
    requires Digits(a) && Digits(b) && 0 < j < |MulText(a, b)|
    ensures MulText(a, b)[j] != 'd' && MulText(a, b)[j] != 'm'
  {
    var w := MulText(a, b);
    if j < 4 {
      assert w[j] == "mul("[j];
    } else if j < 4 + |a| {
      assert w[j] == a[j - 4];
    } else if j == 4 + |a| {
      assert w[j] == ',';
    } else if j < 5 + |a| + |b| {
      assert w[j] == b[j - 5 - |a|];
    } else {
      assert w[j] == ')';
    }
  }

  /** The positions where the tokens start. */
  function Starts(ts: seq<Token>): set<nat> {
    if ts == [] then {} else {ts[0].start} + Starts(ts[1..])
  }

  /** Nothing matches strictly inside a match. */
  lemma NoMatchWithin(s: string, i: nat)
    requires i <= |s| && MatchAt(s, i).Some?
    ensures forall p :: i < p < MatchAt(s, i).value.end ==> MatchAt(s, p).None?
  {
    forall p | i < p < MatchAt(s, i).value.end
      ensures MatchAt(s, p).None?
    {
      NoMatchInside(s, i, p);
    }
  }

  /** After a match at `from`, the scan starts there and then where the scan
      from the match's end does. */
  lemma StartsAfterMatch(s: string, from: nat)
    requires from < |s| && MatchAt(s, from).Some?
    ensures Starts(Scan(s, from)) == {from} + Starts(Scan(s, MatchAt(s, from).value.end))
  {
    var t := MatchAt(s, from).value;
    var ts := Scan(s, from);
    assert ts == [t] + Scan(s, t.end);
    assert ts[1..] == Scan(s, t.end);
  }

  /** The scan from `from` reports only positions from `from` on. */
  lemma {:induction false} ScanStartsBounded(s: string, from: nat)
    requires from <= |s|
    decreases |s| - from
    ensures forall p :: p in Starts(Scan(s, from)) ==> from <= p < |s|
  {
    if from < |s| {
      match MatchAt(s, from)
      case Some(t) =>
        ScanStartsBounded(s, t.end);
        StartsAfterMatch(s, from);
      case None =>
        ScanStartsBounded(s, from + 1);
    }
  }

  /** Every position where a command starts is reported: the scan misses
      no command and reports nothing else. */
  lemma {:induction false} ScanComplete(s: string, from: nat)
    requires from <= |s|
    decreases |s| - from
    ensures forall p :: p in Starts(Scan(s, from)) ==> from <= p < |s|
    ensures forall p :: from <= p < |s| ==> (MatchAt(s, p).Some? <==> p in Starts(Scan(s, from)))
  {
    ScanStartsBounded(s, from);
    if from < |s| {
      match MatchAt(s, from)
      case Some(t) =>
        ScanComplete(s, t.end);
        StartsAfterMatch(s, from);
        NoMatchWithin(s, from);
      case None =>
        ScanComplete(s, from + 1);
    }
  }

  /** `find_valid_commands`: the text of every match, in order. */
  function FindValidCommands(s: string): seq<string> {
    var ts := Scan(s, 0);
    seq(|ts|, k requires 0 <= k < |ts| => s[ts[k].start..ts[k].end])
  }

  /** The commands of a token sequence. */
  function CommandsOf(ts: seq<Token>): (cs: seq<Command>)
    ensures |cs| == |ts|
    ensures forall k :: 0 <= k < |ts| ==> cs[k] == ts[k].command
  {
    if ts == [] then [] else [ts[0].command] + CommandsOf(ts[1..])
  }

  /** The commands of the memory dump, in order. */
  function Commands(s: string): seq<Command> {
    CommandsOf(Scan(s, 0))
  }

  /** `find_multiplication_numbers` from position `from`: the pairs of the
      multiplications `find_iter` meets when it looks for nothing else. */
  function ScanMul(s: string, from: nat): seq<(nat, nat)>
    requires from <= |s|
    decreases |s| - from
  {
    if from == |s| then []
    else match MulAt(s, from)
      case Some(t) => [(t.command.x, t.command.y)] + ScanMul(s, t.end)
      case None => ScanMul(s, from + 1)
  }

  function FindMultiplicationNumbers(s: string): seq<(nat, nat)> {
    ScanMul(s, 0)
  }

  /** The pairs of the multiplications among `cs`, in order. */
  function MulPairs(cs: seq<Command>): seq<(nat, nat)> {
    if cs == [] then []
    else (if cs[0].Mul? then [(cs[0].x, cs[0].y)] else []) + MulPairs(cs[1..])
  }

  /** Positions with no multiplication are skipped alike wherever the scan
      starts among them. */
  lemma {:induction false} ScanMulSkip(s: string, a: nat, b: nat)
    requires a <= b <= |s|
    requires forall p :: a <= p < b ==> MulAt(s, p).None?
    decreases b - a
    ensures ScanMul(s, a) == ScanMul(s, b)
  {
    if a < b {
      ScanMulSkip(s, a + 1, b);
    }
  }

  /** Looking only for multiplications finds exactly the multiplications
      among all the commands: `do()` and `don't()` never hide one. */
  lemma {:induction false} ScanMulIsMulPairs(s: string, from: nat)
    requires from <= |s|
    decreases |s| - from
    ensures ScanMul(s, from) == MulPairs(CommandsOf(Scan(s, from)))
  {
    if from < |s| {
      match MatchAt(s, from)
      case Some(t) =>
        ScanMulIsMulPairs(s, t.end);
        var rest := Scan(s, t.end);
        assert Scan(s, from) == [t] + rest;
        assert CommandsOf([t] + rest) == [t.command] + CommandsOf(rest);
        ScanMulAfterMatch(s, from);
      case None =>
        ScanMulIsMulPairs(s, from + 1);
    }
  }

  /** After a match at `from`, looking only for multiplications goes on
      where the full scan goes on, having found the match's pair if it is
      a multiplication and nothing otherwise. */
  lemma ScanMulAfterMatch(s: string, from: nat)
    requires from < |s| && MatchAt(s, from).Some?
    ensures var t := MatchAt(s, from).value;
            ScanMul(s, from) == MulPairs([t.command]) + ScanMul(s, t.end)
  {
    var t := MatchAt(s, from).value;
    if t.command.Mul? {
      assert MulAt(s, from) == Some(t);
    } else {
      NoMulWithin(s, from);
      ScanMulSkip(s, from, t.end);
    }
  }

  /** No multiplication starts within a `do()` or `don't()` match. */
  lemma NoMulWithin(s: string, from: nat)
    requires from < |s| && MatchAt(s, from).Some? && !MatchAt(s, from).value.command.Mul?
    ensures forall p :: from <= p < MatchAt(s, from).value.end ==> MulAt(s, p).None?
  {
    var t := MatchAt(s, from).value;
    forall p | from <= p < t.end
      ensures MulAt(s, p).None?
    {
      if p > from {
        NoMatchInside(s, from, p);
        NoMatchNoMul(s, p);
      } else if HasAt(s, from, "do()") {
        assert s[from] == "do()"[0];
      }
    }
  }

  /** Where no command matches, no multiplication does. */
  lemma NoMatchNoMul(s: string, p: nat)
    requires p <= |s| && MatchAt(s, p).None?
    ensures MulAt(s, p).None?
  {
  }

  /** The text of a match says what it is: `do()`, `don't()`, or a text on
      which `find_multiplication_numbers` finds exactly its one pair. */
  lemma TokenText(s: string, t: Token)
    requires t.start <= |s| && MatchAt(s, t.start) == Some(t)
    ensures s[t.start..t.end] == "do()" <==> t.command == Do
    ensures s[t.start..t.end] == "don't()" <==> t.command == Dont
    ensures t.command.Mul? ==> FindMultiplicationNumbers(s[t.start..t.end]) == [(t.command.x, t.command.y)]
  {
    var w := s[t.start..t.end];
    if t.command.Mul? {
      MulTokenText(s, t);
    } else if t.command == Do {
      assert HasAt(s, t.start, "do()");
    } else {
      assert HasAt(s, t.start, "don't()");
      assert w[2] == 'n' != "do()"[2];
    }
  }

  /** The product of a pair's two numbers. */
  function Product(x: nat, y: nat): nat {
    x * y
  }

  /** The text of a multiplication match is neither `do()` nor `don't()`,
      and `find_multiplication_numbers` finds exactly its one pair on it. */
  lemma MulTokenText(s: string, t: Token)
    requires t.start <= |s| && MatchAt(s, t.start) == Some(t) && t.command.Mul?
    ensures var w := s[t.start..t.end];
            w != "do()" && w != "don't()" && FindMultiplicationNumbers(w) == [(t.command.x, t.command.y)]
  {
    var w := s[t.start..t.end];
    var a, b := MulMatchSpelled(s, t.start);
    assert w[0] == 'm' != "do()"[0] == "don't()"[0];
    MulTextMatched(w, 0, a, b);
    WholeMul(w, t.command.x, t.command.y);
  }

  /** A text matched whole by one multiplication yields exactly its pair. */
  lemma WholeMul(w: string, x: nat, y: nat)
    requires |w| > 0 && MulAt(w, 0) == Some(Token(0, |w|, Mul(x, y)))
    ensures FindMultiplicationNumbers(w) == [(x, y)]
  {
    assert ScanMul(w, |w|) == [];
  }

  /** Σ x × y over `pairs`. */
  function SumProducts(pairs: seq<(nat, nat)>): nat {
    if pairs == [] then 0
    else SumProducts(pairs[..|pairs| - 1]) + Product(pairs[|pairs| - 1].0, pairs[|pairs| - 1].1)
  }

  /** Part 1: every product, whatever the switches say. */
  function Part1(s: string): nat {
    SumProducts(FindMultiplicationNumbers(s))
  }

  /** The state of part 2's loop. */
  datatype Machine = Machine(enabled: bool, output: nat)

  /** One iteration of part 2's loop. */
  function Step(m: Machine, c: Command): Machine {
    match c
    case Do => m.(enabled := true)
    case Dont => m.(enabled := false)
    case Mul(x, y) => if m.enabled then m.(output := m.output + Product(x, y)) else m
  }

  /** The machine after `cs`, started enabled with nothing summed. */
  function Run(cs: seq<Command>): Machine {
    if cs == [] then Machine(true, 0) else Step(Run(cs[..|cs| - 1]), cs[|cs| - 1])
  }

  /** The `k`-th text `find_valid_commands` returns is `do()` or `don't()`
      exactly when the `k`-th command is, and a multiplication's text
      yields its one pair again. */
  lemma CommandText(s: string, k: nat)
    requires k < |Commands(s)|
    ensures |FindValidCommands(s)| == |Commands(s)|
    ensures FindValidCommands(s)[k] == "do()" <==> Commands(s)[k] == Do
    ensures FindValidCommands(s)[k] == "don't()" <==> Commands(s)[k] == Dont
    ensures Commands(s)[k].Mul? ==>
              FindMultiplicationNumbers(FindValidCommands(s)[k]) == [(Commands(s)[k].x, Commands(s)[k].y)]
  {
    var ts := Scan(s, 0);
    ScanSound(s, 0);
    TokenText(s, ts[k]);
  }

  /** One more command steps the machine once more. */
  lemma RunPrefix(cs: seq<Command>, i: nat)
    requires i < |cs|
    ensures Run(cs[..i + 1]) == Step(Run(cs[..i]), cs[i])
  {
    assert cs[..i + 1][..i] == cs[..i];
  }

  /** Branching on a command's text, as part 2 does, steps the machine as
      the command itself does. */
  lemma TextStep(text: string, c: Command, m: Machine)
    requires text == "do()" <==> c == Do
    requires text == "don't()" <==> c == Dont
    requires c.Mul? ==> FindMultiplicationNumbers(text) == [(c.x, c.y)]
    ensures text != "do()" && text != "don't()" ==> |FindMultiplicationNumbers(text)| == 1
    ensures Step(m, c) ==
              if text == "do()" then m.(enabled := true)
              else if text == "don't()" then m.(enabled := false)
              else if m.enabled then
                var (x, y) := FindMultiplicationNumbers(text)[0];
                m.(output := m.output + Product(x, y))
              else m
  {
  }

  /** The `i`-th command text moves the machine as part 2's branches say. */
  lemma CommandStep(input: string, i: nat, m: Machine)
    requires i < |Commands(input)| && m == Run(Commands(input)[..i])
    ensures |FindValidCommands(input)| == |Commands(input)|
    ensures var text := FindValidCommands(input)[i];
            (text != "do()" && text != "don't()" ==> |FindMultiplicationNumbers(text)| == 1) &&
            Run(Commands(input)[..i + 1]) ==
              if text == "do()" then m.(enabled := true)
              else if text == "don't()" then m.(enabled := false)
              else if m.enabled then
                var (x, y) := FindMultiplicationNumbers(text)[0];
                m.(output := m.output + Product(x, y))
              else m
  {
    var cs := Commands(input);
    CommandText(input, i);
    TextStep(FindValidCommands(input)[i], cs[i], m);
    RunPrefix(cs, i);
  }

  /** Part 2: walk the command texts, switching on `do()` and `don't()` and
      adding the product of every multiplication met while enabled. */
  method Part2(input: string) returns (output: nat)
    ensures output == Run(Commands(input)).output
  {
    var mulEnabled := true;
    output := 0;
    var validCommands := FindValidCommands(input);
    ghost var cs := Commands(input);
    for i := 0 to |validCommands|
      invariant |validCommands| == |cs|
      invariant Machine(mulEnabled, output) == Run(cs[..i])
    {
      CommandStep(input, i, Machine(mulEnabled, output));
      var command := validCommands[i];
      if command == "do()" {
        mulEnabled := true;
      } else if command == "don't()" {
        mulEnabled := false;
      } else if mulEnabled {
        var (x, y) := FindMultiplicationNumbers(command)[0];
        output := output + Product(x, y);
      }
    }
    assert cs[..|cs|] == cs;
  }

  /** The machine is enabled at the end iff every `don't()` is followed,
      later on, by a `do()`. */
  lemma {:induction false} RunEnabled(cs: seq<Command>)
    ensures Run(cs).enabled <==>
            forall k :: 0 <= k < |cs| && cs[k] == Dont ==> exists j :: k < j < |cs| && cs[j] == Do
  {
    if cs != [] {
      var init := cs[..|cs| - 1];
      RunEnabled(init);
      var last := cs[|cs| - 1];
      if last == Do {
        assert forall k :: 0 <= k < |cs| && cs[k] == Dont ==> k < |cs| - 1 && cs[|cs| - 1] == Do;
      } else if last == Dont {
        assert cs[|cs| - 1] == Dont;
      } else {
        assert forall k :: 0 <= k < |init| ==> init[k] == cs[k];
        if Run(init).enabled {
          forall k | 0 <= k < |cs| && cs[k] == Dont
            ensures exists j :: k < j < |cs| && cs[j] == Do
          {
            var j :| k < j < |init| && init[j] == Do;
            assert cs[j] == Do;
          }
        } else {
          var k :| 0 <= k < |init| && init[k] == Dont && !exists j :: k < j < |init| && init[j] == Do;
          assert cs[k] == Dont;
          assert !exists j :: k < j < |cs| && cs[j] == Do;
        }
      }
    }
  }

  /** The commands' pairs split as the commands do. */
  lemma {:induction false} MulPairsConcat(a: seq<Command>, b: seq<Command>)
    ensures MulPairs(a + b) == MulPairs(a) + MulPairs(b)
  {
    if a == [] {
      assert a + b == b;
    } else {
      ConsAppend(a, b);
      MulPairsConcat(a[1..], b);
      AppendAssoc(if a[0].Mul? then [(a[0].x, a[0].y)] else [], MulPairs(a[1..]), MulPairs(b));
    }
  }

  /** The head and tail of a concatenation with a non-empty left part. */
  lemma ConsAppend<T>(a: seq<T>, b: seq<T>)
    requires a != []
    ensures (a + b)[0] == a[0] && (a + b)[1..] == a[1..] + b
  {
  }

  /** Concatenation is associative. */
  lemma AppendAssoc<T>(x: seq<T>, y: seq<T>, z: seq<T>)
    ensures x + (y + z) == (x + y) + z
  {
  }

  /** Appending a command appends its pair, if it has one, to the sum of
      products. */
  lemma MulPairsSnoc(cs: seq<Command>)
    requires cs != []
    ensures var last := cs[|cs| - 1];
            SumProducts(MulPairs(cs)) ==
              SumProducts(MulPairs(cs[..|cs| - 1])) + (if last.Mul? then Product(last.x, last.y) else 0)
  {
    var init, last := cs[..|cs| - 1], cs[|cs| - 1];
    assert cs == init + [last];
    MulPairsConcat(init, [last]);
    assert MulPairs([last]) == if last.Mul? then [(last.x, last.y)] else [];
    if last.Mul? {
      assert (MulPairs(init) + [(last.x, last.y)])[..|MulPairs(init)|] == MulPairs(init);
    } else {
      assert MulPairs(init) + [] == MulPairs(init);
    }
  }

  /** Part 2 never sums more than the sum of all products. */
  lemma {:induction false} RunAtMost(cs: seq<Command>)
    ensures Run(cs).output <= SumProducts(MulPairs(cs))
  {
    if cs != [] {
      RunAtMost(cs[..|cs| - 1]);
      MulPairsSnoc(cs);
    }
  }

  /** Without `don't()`, part 2 stays enabled and sums every product. */
  lemma {:induction false} RunWithoutDont(cs: seq<Command>)
    requires forall k :: 0 <= k < |cs| ==> cs[k] != Dont
    ensures Run(cs) == Machine(true, SumProducts(MulPairs(cs)))
  {
    if cs != [] {
      var init := cs[..|cs| - 1];
      assert forall k :: 0 <= k < |init| ==> init[k] == cs[k];
      RunWithoutDont(init);
      MulPairsSnoc(cs);
    }
  }

  /** Part 2 never sums more than part 1 over the same commands, and sums
      exactly as much when no `don't()` occurs. */
  lemma RunBounded(cs: seq<Command>)
    ensures Run(cs).output <= SumProducts(MulPairs(cs))
    ensures (forall k :: 0 <= k < |cs| ==> cs[k] != Dont) ==>
              Run(cs) == Machine(true, SumProducts(MulPairs(cs)))
  {
    RunAtMost(cs);
    if forall k :: 0 <= k < |cs| ==> cs[k] != Dont {
      RunWithoutDont(cs);
    }
  }

  /** After a `don't()`, multiplications add nothing until a `do()`. */
  lemma {:induction false} DisabledAddsNothing(cs: seq<Command>, muls: seq<Command>)
    requires forall k :: 0 <= k < |muls| ==> muls[k] != Do
    ensures Run(cs + [Dont] + muls).output == Run(cs).output
    ensures !Run(cs + [Dont] + muls).enabled
  {
    if muls == [] {
      assert (cs + [Dont] + muls)[..|cs|] == cs;
    } else {
      var init := muls[..|muls| - 1];
      DisabledAddsNothing(cs, init);
      assert (cs + [Dont] + muls)[..|cs| + |muls|] == cs + [Dont] + init;
    }
  }

  /** The two parts on one memory dump: part 2 is at most part 1, and equal
      to it when the dump holds no `don't()` command. */
  lemma Part2AtMostPart1(s: string)
    ensures Run(Commands(s)).output <= Part1(s)
    ensures (forall k :: 0 <= k < |Commands(s)| ==> Commands(s)[k] != Dont) ==> Run(Commands(s)).output == Part1(s)
  {
    ScanMulIsMulPairs(s, 0);
    RunBounded(Commands(s));
  }
}
