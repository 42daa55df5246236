/** The S-expression lexer of the Go list interpreter: a `Lexer` whose
    `Start`, `Current`, `LineNumber`, `Tokens` and `Error` fields are moved
    forward one character, one run or one token at a time.  The program text
    is a sequence of one-byte characters. */
module GoLexer {
  import opened Wrappers
  import opened Numerals

  datatype TokenType =
    | LeftParen | RightParen | Definition | Add | Subtract | Multiply | Divide | Equal
    | If | Else | Lambda | Number | Symbol | Identifier | Eof

  /** A token's `Source`: the lexeme, except for NUMBER, whose source is the
      value `strconv.Atoi` gives. */
  datatype Source = Text(text: string) | Num(n: int)

  datatype Token = Token(tokenType: TokenType, source: Source, line: int)

  /** The error `LexToken` returns: "cannot identify token" and the rune. */
  datatype LexError = CannotIdentify(rune: char)

  /** What decoding the empty remainder of the program yields. */
  const RuneError: char := '\U{FFFD}'

  const MaxInt64: int := 0x7fff_ffff_ffff_ffff
  const MinInt64: int := -0x8000_0000_0000_0000

  const KeywordMap: map<string, TokenType> :=
    map["define" := Definition, "if" := If, "else" := Else, "lambda" := Lambda]

  predicate IsAlpha(c: char) {
    ('a' <= c <= 'z') || ('A' <= c <= 'Z') || c == '?'
  }

  /** The one-character tokens and their types. */
  function Punctuation(c: char): Option<TokenType> {
    if c == '(' then Some(LeftParen)
    else if c == ')' then Some(RightParen)
    else if c == '+' then Some(Add)
    else if c == '-' then Some(Subtract)
    else if c == '*' then Some(Multiply)
    else if c == '/' then Some(Divide)
    else if c == '=' then Some(Equal)
    else None
  }

  /** A character `LexToken` accepts. */
  predicate Recognised(c: char) {
    Punctuation(c).Some? || c == ' ' || c == '\n' || IsDigit(c) || IsAlpha(c)
  }

  /** `strconv.Atoi` on a 64-bit platform: an optional sign and a non-empty
      run of decimal digits; anything else reads as 0, and a value out of
      range is clamped to the nearest end of the int64 range. */
  function Atoi(s: string): (n: int)
    ensures MinInt64 <= n <= MaxInt64
  {
    var neg := |s| > 0 && s[0] == '-';
    var digits := if |s| > 0 && (s[0] == '+' || s[0] == '-') then s[1..] else s;
    if !IsDecimal(digits) then 0
    else
      var v: int := DecimalValue(digits);
      if neg then (if v > -MinInt64 then MinInt64 else -v)
      else (if v > MaxInt64 then MaxInt64 else v)
  }

  /** Atoi reads back what Python-style decimal printing writes, inside the
      int64 range, and clamps beyond it. */
  lemma AtoiRoundTrip(n: int)
    ensures MinInt64 <= n <= MaxInt64 ==> Atoi(IntToDecimal(n)) == n
    ensures n > MaxInt64 ==> Atoi(IntToDecimal(n)) == MaxInt64
    ensures n < MinInt64 ==> Atoi(IntToDecimal(n)) == MinInt64
  {
    if n < 0 {
      DecimalRoundTrip(-n);
      assert ("-" + NatToDecimal(-n))[1..] == NatToDecimal(-n);
    } else {
      DecimalRoundTrip(n);
    }
  }

  /** Where the maximal run of digits starting at i ends. */
  function DigitRunEnd(p: string, i: nat): (j: nat)
    requires i <= |p|
    ensures i <= j <= |p| && (j == |p| || !IsDigit(p[j]))
    ensures forall k | i <= k < j :: IsDigit(p[k])
    decreases |p| - i
  {
    if i < |p| && IsDigit(p[i]) then DigitRunEnd(p, i + 1) else i
  }

  /** Where the maximal run of letters and `?` starting at i ends. */
  function AlphaRunEnd(p: string, i: nat): (j: nat)
    requires i <= |p|
    ensures i <= j <= |p| && (j == |p| || !IsAlpha(p[j]))
    ensures forall k | i <= k < j :: IsAlpha(p[k])
    decreases |p| - i
  {
    if i < |p| && IsAlpha(p[i]) then AlphaRunEnd(p, i + 1) else i
  }

  /** The type of an identifier-shaped lexeme: its keyword, or IDENTIFIER. */
  function WordType(text: string): TokenType {
    if text in KeywordMap then KeywordMap[text] else Identifier
  }

  /** What one call of `LexToken` does when `Start` is at i: the tokens it
      adds, where `Current` ends, the new line number and the error. */
  datatype Scan = Scan(tokens: seq<Token>, next: nat, line: int, err: Option<LexError>)

  function ScanToken(p: string, i: nat, line: int): (s: Scan)
    requires i <= |p|
    ensures s.err.None? <==> i < |p| && Recognised(p[i])
    ensures s.err.Some? ==>
      s == Scan([], i, line, Some(CannotIdentify(if i < |p| then p[i] else RuneError)))
    ensures s.err.None? ==> i < s.next <= |p|
    ensures s.line == line + (if i < |p| && p[i] == '\n' then 1 else 0)
    ensures |s.tokens| <= 1 && forall k | 0 <= k < |s.tokens| :: s.tokens[k].line == line
  {
    if i == |p| then Scan([], i, line, Some(CannotIdentify(RuneError)))
    else
      var c := p[i];
      if Punctuation(c).Some? then Scan([Token(Punctuation(c).value, Text([c]), line)], i + 1, line, None)
      else if c == ' ' then Scan([], i + 1, line, None)
      else if c == '\n' then Scan([], i + 1, line + 1, None)
      else if IsDigit(c) then
        var j := DigitRunEnd(p, i);
        Scan([Token(Number, Num(Atoi(p[i..j])), line)], j, line, None)
      else if IsAlpha(c) then
        var j := AlphaRunEnd(p, i);
        Scan([Token(WordType(p[i..j]), Text(p[i..j]), line)], j, line, None)
      else Scan([], i, line, Some(CannotIdentify(c)))
  }

  /** Case by case: a punctuation character is one token of its type whose
      source is that character; a blank is skipped; a digit starts a NUMBER
      token for the maximal run of digits, a letter or `?` a keyword or
      IDENTIFIER token for the maximal run of them.  Every character
      consumed is recognised. */
  lemma ScanTokenCases(p: string, i: nat, line: int)
    requires i < |p|
    ensures var s := ScanToken(p, i, line);
      (s.err.None? ==> forall k | i <= k < s.next :: Recognised(p[k])) &&
      (Punctuation(p[i]).Some? ==> s.tokens == [Token(Punctuation(p[i]).value, Text([p[i]]), line)] && s.next == i + 1) &&
      (p[i] == ' ' || p[i] == '\n' ==> s.tokens == [] && s.next == i + 1) &&
      (IsDigit(p[i]) ==>
         IsDecimal(p[i..s.next]) && (s.next == |p| || !IsDigit(p[s.next])) &&
         s.tokens == [Token(Number, Num(Atoi(p[i..s.next])), line)]) &&
      (IsAlpha(p[i]) ==>
         (forall k | i <= k < s.next :: IsAlpha(p[k])) && (s.next == |p| || !IsAlpha(p[s.next])) &&
         s.tokens == [Token(WordType(p[i..s.next]), Text(p[i..s.next]), line)])
  {
  }

  /** What the loop of `Lex` does from `Start` = s and `Current` = i: the
      tokens added, the final `Start` and `Current`, the line and the error
      that stopped it, if any. */
  datatype Lexed = Lexed(tokens: seq<Token>, start: nat, next: nat, line: int, err: Option<LexError>)

  function LexFrom(p: string, s: nat, i: nat, line: int): (r: Lexed)
    requires s <= i <= |p|
    ensures r.start <= r.next <= |p| && i <= r.next
    ensures r.err.None? ==> r.next == |p|
    ensures r.err.Some? ==> r.start == r.next < |p|
    decreases |p| - i
  {
    if i == |p| then Lexed([], s, i, line, None)
    else
      var t := ScanToken(p, i, line);
      if t.err.Some? then Lexed([], i, i, line, t.err)
      else
        var rest := LexFrom(p, i, t.next, t.line);
        Lexed(t.tokens + rest.tokens, rest.start, rest.next, rest.line, rest.err)
  }

  /** Lexing stops at the first character `LexToken` does not recognise,
      with that character's error, and runs to the end of the program when
      there is none. */
  lemma {:induction false} LexStops(p: string, s: nat, i: nat, line: int)
    requires s <= i <= |p|
    ensures var r := LexFrom(p, s, i, line);
      (r.err.None? <==> forall k | i <= k < |p| :: Recognised(p[k])) &&
      (r.err.Some? ==>
        !Recognised(p[r.next]) && r.err == Some(CannotIdentify(p[r.next])) &&
        forall k | i <= k < r.next :: Recognised(p[k]))
    decreases |p| - i
  {
    if i < |p| {
      var t := ScanToken(p, i, line);
      if t.err.None? {
        ScanTokenCases(p, i, line);
        LexStops(p, i, t.next, t.line);
      }
    }
  }

  /** The number of newline characters in s. */
  function Newlines(s: string): nat {
    if s == [] then 0 else (if s[0] == '\n' then 1 else 0) + Newlines(s[1..])
  }

  lemma {:induction false} NewlinesAppend(a: string, b: string)
    ensures Newlines(a + b) == Newlines(a) + Newlines(b)
  {
    if a != [] {
      assert (a + b)[1..] == a[1..] + b;
      NewlinesAppend(a[1..], b);
    } else {
      assert a + b == b;
    }
  }

  lemma {:induction false} NoNewlines(s: string)
    requires forall k | 0 <= k < |s| :: s[k] != '\n'
    ensures Newlines(s) == 0
  {
    if s != [] {
      NoNewlines(s[1..]);
    }
  }

  /** The characters one call of `LexToken` consumes hold as many newlines
      as it adds to the line number. */
  lemma ScanNewlines(p: string, i: nat, line: int)
    requires i <= |p|
    ensures var t := ScanToken(p, i, line); t.line == line + Newlines(p[i..t.next])
  {
    var t := ScanToken(p, i, line);
    if i < |p| {
      ScanTokenCases(p, i, line);
    }
    if t.err.None? && t.next > i + 1 {
      assert p[i..t.next] == [p[i]] + p[i + 1..t.next];
      NoNewlines(p[i + 1..t.next]);
    }
  }

  /** The line number counts the newlines lexed so far, and every token
      carries the line on which it starts: the lines of the tokens never go
      down and stay between the first and the last line. */
  lemma {:induction false} LexLines(p: string, s: nat, i: nat, line: int)
    requires s <= i <= |p|
    ensures var r := LexFrom(p, s, i, line);
      r.line == line + Newlines(p[i..r.next]) &&
      (forall k | 0 <= k < |r.tokens| :: line <= r.tokens[k].line <= r.line) &&
      (forall a, b | 0 <= a <= b < |r.tokens| :: r.tokens[a].line <= r.tokens[b].line)
    decreases |p| - i
  {
    if i < |p| {
      var t := ScanToken(p, i, line);
      if t.err.None? {
        var rest := LexFrom(p, i, t.next, t.line);
        LexLines(p, i, t.next, t.line);
        ScanNewlines(p, i, line);
        assert p[i..rest.next] == p[i..t.next] + p[t.next..rest.next];
        NewlinesAppend(p[i..t.next], p[t.next..rest.next]);
      }
    }
  }

  /** LexFrom over a token `LexToken` adds. */
  lemma LexFromEmits(p: string, s: nat, i: nat, line: int, tok: Token, j: nat, rest: Lexed)
    requires s <= i < j <= |p| && ScanToken(p, i, line) == Scan([tok], j, line, None)
    requires LexFrom(p, i, j, line) == rest
    ensures LexFrom(p, s, i, line) == Lexed([tok] + rest.tokens, rest.start, rest.next, rest.line, rest.err)
  {
  }

  /** LexFrom over a space. */
  lemma LexFromSkips(p: string, s: nat, i: nat, line: int, rest: Lexed)
    requires s <= i < |p| && p[i] == ' ' && LexFrom(p, i, i + 1, line) == rest
    ensures LexFrom(p, s, i, line) == rest
  {
    assert [] + rest.tokens == rest.tokens;
  }

  /** The program of the lexer's test. */
  const TestText: string := "(if (= 2 2) 23 42)"

  const LP: Token := Token(LeftParen, Text("("), 0)
  const RP: Token := Token(RightParen, Text(")"), 0)
  const EQ: Token := Token(Equal, Text("="), 0)
  const IF: Token := Token(If, Text("if"), 0)
  const N2: Token := Token(Number, Num(2), 0)
  const N23: Token := Token(Number, Num(23), 0)
  const N42: Token := Token(Number, Num(42), 0)

  /** The ten tokens the test program lexes to. */
  const TestTokens: seq<Token> := [LP, IF, LP, EQ, N2, N2, RP, N23, N42, RP]

  /** ScanToken on a punctuation character. */
  lemma ScanPunctuation(p: string, i: nat, line: int)
    requires i < |p| && Punctuation(p[i]).Some?
    ensures ScanToken(p, i, line) == Scan([Token(Punctuation(p[i]).value, Text([p[i]]), line)], i + 1, line, None)
  {
  }

  /** ScanToken on a maximal run of digits [i, j). */
  lemma ScanNumber(p: string, i: nat, j: nat, line: int)
    requires i < j <= |p| && (forall k | i <= k < j :: IsDigit(p[k])) && (j == |p| || !IsDigit(p[j]))
    ensures ScanToken(p, i, line) == Scan([Token(Number, Num(Atoi(p[i..j])), line)], j, line, None)
  {
  }

  /** ScanToken on a maximal run of letters [i, j). */
  lemma ScanWord(p: string, i: nat, j: nat, line: int)
    requires i < j <= |p| && (forall k | i <= k < j :: IsAlpha(p[k])) && (j == |p| || !IsAlpha(p[j]))
    ensures ScanToken(p, i, line) == Scan([Token(WordType(p[i..j]), Text(p[i..j]), line)], j, line, None)
  {
  }

  /** The test program, character by character. */
  predicate IsTestText(p: string) {
    |p| == 18 &&
    p[0] == '(' && p[1] == 'i' && p[2] == 'f' && p[3] == ' ' && p[4] == '(' && p[5] == '=' &&
    p[6] == ' ' && p[7] == '2' && p[8] == ' ' && p[9] == '2' && p[10] == ')' && p[11] == ' ' &&
    p[12] == '2' && p[13] == '3' && p[14] == ' ' && p[15] == '4' && p[16] == '2' && p[17] == ')'
  }

  lemma AtoiTwoDigits(s: string)
    requires |s| == 2 && IsDigit(s[0]) && IsDigit(s[1])
    ensures Atoi(s) == 10 * DigitValue(s[0]) + DigitValue(s[1])
  {
    assert IsDecimal(s);
    assert DecimalValue(s[..1]) == DigitValue(s[0]) by {
      assert s[..1][..0] == [];
    }
  }

  lemma AtoiOneDigit(s: string)
    requires |s| == 1 && IsDigit(s[0])
    ensures Atoi(s) == DigitValue(s[0])
  {
    assert IsDecimal(s);
    assert DecimalValue(s) == DigitValue(s[0]) by {
      assert s[..0] == [];
    }
  }

  lemma TestScan0(p: string)
    requires IsTestText(p)
    ensures ScanToken(p, 0, 0) == Scan([LP], 1, 0, None)
  {
    ScanPunctuation(p, 0, 0);
    assert [p[0]] == "(";
  }

  lemma TestScan1(p: string)
    requires IsTestText(p)
    ensures ScanToken(p, 1, 0) == Scan([IF], 3, 0, None)
  {
    ScanWord(p, 1, 3, 0);
    assert p[1..3] == "if";
    assert WordType("if") == If;
  }

  lemma TestScan4(p: string)
    requires IsTestText(p)
    ensures ScanToken(p, 4, 0) == Scan([LP], 5, 0, None)
  {
    ScanPunctuation(p, 4, 0);
    assert [p[4]] == "(";
  }

  lemma TestScan5(p: string)
    requires IsTestText(p)
    ensures ScanToken(p, 5, 0) == Scan([EQ], 6, 0, None)
  {
    ScanPunctuation(p, 5, 0);
    assert [p[5]] == "=";
  }

  lemma TestScan7(p: string)
    requires IsTestText(p)
    ensures ScanToken(p, 7, 0) == Scan([N2], 8, 0, None)
  {
    ScanNumber(p, 7, 8, 0);
    AtoiOneDigit(p[7..8]);
  }

  lemma TestScan9(p: string)
    requires IsTestText(p)
    ensures ScanToken(p, 9, 0) == Scan([N2], 10, 0, None)
  {
    ScanNumber(p, 9, 10, 0);
    AtoiOneDigit(p[9..10]);
  }

  lemma TestScan10(p: string)
    requires IsTestText(p)
    ensures ScanToken(p, 10, 0) == Scan([RP], 11, 0, None)
  {
    ScanPunctuation(p, 10, 0);
    assert [p[10]] == ")";
  }

  lemma TestScan12(p: string)
    requires IsTestText(p)
    ensures ScanToken(p, 12, 0) == Scan([N23], 14, 0, None)
  {
    ScanNumber(p, 12, 14, 0);
    AtoiTwoDigits(p[12..14]);
  }

  lemma TestScan15(p: string)
    requires IsTestText(p)
    ensures ScanToken(p, 15, 0) == Scan([N42], 17, 0, None)
  {
    ScanNumber(p, 15, 17, 0);
    AtoiTwoDigits(p[15..17]);
  }

  lemma TestScan17(p: string)
    requires IsTestText(p)
    ensures ScanToken(p, 17, 0) == Scan([RP], 18, 0, None)
  {
    ScanPunctuation(p, 17, 0);
    assert [p[17]] == ")";
  }

  lemma TestFrom17(p: string, s: nat)
    requires IsTestText(p) && s <= 17
    ensures LexFrom(p, s, 17, 0) == Lexed([RP] + [], 17, 18, 0, None)
  {
    assert LexFrom(p, 17, 18, 0) == Lexed([], 17, 18, 0, None);
    TestScan17(p);
    LexFromEmits(p, s, 17, 0, RP, 18, Lexed([], 17, 18, 0, None));
  }

  lemma TestFrom15(p: string, s: nat)
    requires IsTestText(p) && s <= 15
    ensures LexFrom(p, s, 15, 0) == Lexed([N42] + ([RP] + []), 17, 18, 0, None)
  {
    TestFrom17(p, 15);
    TestScan15(p);
    LexFromEmits(p, s, 15, 0, N42, 17, Lexed([RP] + [], 17, 18, 0, None));
  }

  lemma TestFrom12(p: string, s: nat)
    requires IsTestText(p) && s <= 12
    ensures LexFrom(p, s, 12, 0) == Lexed([N23] + ([N42] + ([RP] + [])), 17, 18, 0, None)
  {
    TestFrom15(p, 14);
    LexFromSkips(p, 12, 14, 0, Lexed([N42] + ([RP] + []), 17, 18, 0, None));
    TestScan12(p);
    LexFromEmits(p, s, 12, 0, N23, 14, Lexed([N42] + ([RP] + []), 17, 18, 0, None));
  }

  lemma TestFrom10(p: string, s: nat)
    requires IsTestText(p) && s <= 10
    ensures LexFrom(p, s, 10, 0) == Lexed([RP] + ([N23] + ([N42] + ([RP] + []))), 17, 18, 0, None)
  {
    TestFrom12(p, 11);
    LexFromSkips(p, 10, 11, 0, Lexed([N23] + ([N42] + ([RP] + [])), 17, 18, 0, None));
    TestScan10(p);
    LexFromEmits(p, s, 10, 0, RP, 11, Lexed([N23] + ([N42] + ([RP] + [])), 17, 18, 0, None));
  }

  lemma TestFrom9(p: string, s: nat)
    requires IsTestText(p) && s <= 9
    ensures LexFrom(p, s, 9, 0) == Lexed([N2] + ([RP] + ([N23] + ([N42] + ([RP] + [])))), 17, 18, 0, None)
  {
    TestFrom10(p, 9);
    TestScan9(p);
    LexFromEmits(p, s, 9, 0, N2, 10, Lexed([RP] + ([N23] + ([N42] + ([RP] + []))), 17, 18, 0, None));
  }

  lemma TestFrom7(p: string, s: nat)
    requires IsTestText(p) && s <= 7
    ensures LexFrom(p, s, 7, 0) == Lexed([N2] + ([N2] + ([RP] + ([N23] + ([N42] + ([RP] + []))))), 17, 18, 0, None)
  {
    TestFrom9(p, 8);
    LexFromSkips(p, 7, 8, 0, Lexed([N2] + ([RP] + ([N23] + ([N42] + ([RP] + [])))), 17, 18, 0, None));
    TestScan7(p);
    LexFromEmits(p, s, 7, 0, N2, 8, Lexed([N2] + ([RP] + ([N23] + ([N42] + ([RP] + [])))), 17, 18, 0, None));
  }

  lemma TestFrom5(p: string, s: nat)
    requires IsTestText(p) && s <= 5
    ensures LexFrom(p, s, 5, 0) == Lexed([EQ] + ([N2] + ([N2] + ([RP] + ([N23] + ([N42] + ([RP] + [])))))), 17, 18, 0, None)
  {
    TestFrom7(p, 6);
    LexFromSkips(p, 5, 6, 0, Lexed([N2] + ([N2] + ([RP] + ([N23] + ([N42] + ([RP] + []))))), 17, 18, 0, None));
    TestScan5(p);
    LexFromEmits(p, s, 5, 0, EQ, 6, Lexed([N2] + ([N2] + ([RP] + ([N23] + ([N42] + ([RP] + []))))), 17, 18, 0, None));
  }

  lemma TestFrom4(p: string, s: nat)
    requires IsTestText(p) && s <= 4
    ensures LexFrom(p, s, 4, 0) == Lexed([LP] + ([EQ] + ([N2] + ([N2] + ([RP] + ([N23] + ([N42] + ([RP] + []))))))), 17, 18, 0, None)
  {
    TestFrom5(p, 4);
    TestScan4(p);
    LexFromEmits(p, s, 4, 0, LP, 5, Lexed([EQ] + ([N2] + ([N2] + ([RP] + ([N23] + ([N42] + ([RP] + [])))))), 17, 18, 0, None));
  }

  lemma TestFrom1(p: string, s: nat)
    requires IsTestText(p) && s <= 1
    ensures LexFrom(p, s, 1, 0) == Lexed([IF] + ([LP] + ([EQ] + ([N2] + ([N2] + ([RP] + ([N23] + ([N42] + ([RP] + [])))))))), 17, 18, 0, None)
  {
    TestFrom4(p, 3);
    LexFromSkips(p, 1, 3, 0, Lexed([LP] + ([EQ] + ([N2] + ([N2] + ([RP] + ([N23] + ([N42] + ([RP] + []))))))), 17, 18, 0, None));
    TestScan1(p);
    LexFromEmits(p, s, 1, 0, IF, 3, Lexed([LP] + ([EQ] + ([N2] + ([N2] + ([RP] + ([N23] + ([N42] + ([RP] + []))))))), 17, 18, 0, None));
  }

  lemma TestFrom0(p: string, s: nat)
    requires IsTestText(p) && s <= 0
    ensures LexFrom(p, s, 0, 0) == Lexed([LP] + ([IF] + ([LP] + ([EQ] + ([N2] + ([N2] + ([RP] + ([N23] + ([N42] + ([RP] + []))))))))), 17, 18, 0, None)
  {
    TestFrom1(p, 0);
    TestScan0(p);
    LexFromEmits(p, s, 0, 0, LP, 1, Lexed([IF] + ([LP] + ([EQ] + ([N2] + ([N2] + ([RP] + ([N23] + ([N42] + ([RP] + [])))))))), 17, 18, 0, None));
  }

  lemma TestTextShape()
    ensures IsTestText(TestText)
  {
  }

  /** The program of the lexer's test lexes to ten tokens, all on line 0,
      and no error, so no EOF. */
  lemma TestProgram(p: string)
    requires IsTestText(p)
    ensures LexFrom(p, 0, 0, 0) == Lexed(TestTokens, 17, 18, 0, None)
  {
    TestFrom0(p, 0);
    assert [LP] + ([IF] + ([LP] + ([EQ] + ([N2] + ([N2] + ([RP] + ([N23] + ([N42] + ([RP] + []))))))))) == TestTokens;
  }

  lemma AppendAssoc<T>(a: seq<T>, b: seq<T>, c: seq<T>)
    ensures a + (b + c) == (a + b) + c
  {
  }

  /** One turn of the loop of `Lex`, as LexFrom unfolds it. */
  lemma LexFromStep(p: string, s: nat, i: nat, line: int)
    requires s <= i < |p|
    ensures var t := ScanToken(p, i, line);
      LexFrom(p, s, i, line) ==
        if t.err.Some? then Lexed([], i, i, line, t.err)
        else
          var rest := LexFrom(p, i, t.next, t.line);
          Lexed(t.tokens + rest.tokens, rest.start, rest.next, rest.line, rest.err)
  {
  }

  class Lexer {
    var start: int
    var current: int
    var tokens: seq<Token>
    var lineNumber: int
    var program: string
    var error: Option<LexError>

    ghost predicate Valid()
      reads this
    {
      0 <= start <= current <= |program|
    }

    /** `Lexer{}` followed by `InstallProgram`. */
    constructor(program: string)
      ensures Valid() && this.program == program
      ensures start == 0 && current == 0 && tokens == [] && lineNumber == 0 && error == None
    {
      this.program := program;
      start, current, tokens, lineNumber, error := 0, 0, [], 0, None;
    }

    predicate IsAtEnd()
      reads this`current, this`program
    {
      current >= |program|
    }

    /** The next rune, or RuneError at the end. */
    function Peek(): (r: char)
      requires 0 <= current
      reads this`current, this`program
      ensures current < |program| ==> r == program[current]
    {
      if current < |program| then program[current] else RuneError
    }

    /** Consume one character, if any is left, and return it. */
    method Advance() returns (r: char)
      requires Valid()
      modifies this`current
      ensures Valid()
      ensures r == old(Peek())
      ensures current == old(current) + (if old(current) < |program| then 1 else 0)
    {
      r := Peek();
      if current < |program| {
        current := current + 1;
      }
    }

    /** Append a token whose source is the lexeme between `Start` and
        `Current`, read as a number for NUMBER. */
    method AddToken(tt: TokenType)
      requires Valid()
      modifies this`tokens
      ensures tokens == old(tokens) +
        [Token(tt, if tt == Number then Num(Atoi(program[start..current])) else Text(program[start..current]), lineNumber)]
    {
      var text := program[start..current];
      var source := if tt == Number then Num(Atoi(text)) else Text(text);
      tokens := tokens + [Token(tt, source, lineNumber)];
    }

    /** Consume the maximal run of digits and add one NUMBER token. */
    method LexNumber()
      requires Valid() && start == current < |program| && IsDigit(program[current])
      modifies this`current, this`tokens
      ensures Valid()
      ensures var s := ScanToken(program, old(current), lineNumber);
        current == s.next && tokens == old(tokens) + s.tokens
    {
      while !IsAtEnd() && IsDigit(Peek())
        invariant start <= current <= |program| && tokens == old(tokens)
        invariant forall k | start <= k < current :: IsDigit(program[k])
        decreases |program| - current
      {
        var _ := Advance();
      }
      AddToken(Number);
    }

    /** Consume the maximal run of letters and `?` and add a keyword or an
        IDENTIFIER token. */
    method LexIdentifier()
      requires Valid() && start == current < |program| && IsAlpha(program[current])
      modifies this`current, this`tokens
      ensures Valid()
      ensures var s := ScanToken(program, old(current), lineNumber);
        current == s.next && tokens == old(tokens) + s.tokens
    {
      while !IsAtEnd() && IsAlpha(Peek())
        invariant start <= current <= |program| && tokens == old(tokens)
        invariant forall k | start <= k < current :: IsAlpha(program[k])
        decreases |program| - current
      {
        var _ := Advance();
      }
      var source := program[start..current];
      if source in KeywordMap {
        AddToken(KeywordMap[source]);
      } else {
        AddToken(Identifier);
      }
    }

    /** Read one token, or skip one blank, from `Current`. */
    method LexToken() returns (err: Option<LexError>)
      requires Valid() && start == current
      modifies this`current, this`tokens, this`lineNumber
      ensures Valid()
      ensures var s := ScanToken(program, old(current), old(lineNumber));
        current == s.next && tokens == old(tokens) + s.tokens && lineNumber == s.line && err == s.err
    {
      var r := Peek();
      if current < |program| && Punctuation(r).Some? {
        var _ := Advance();
        assert program[start..current] == [r];
        AddToken(Punctuation(r).value);
      } else if current < |program| && r == ' ' {
        var _ := Advance();
      } else if current < |program| && r == '\n' {
        lineNumber := lineNumber + 1;
        var _ := Advance();
      } else if current < |program| && IsDigit(r) {
        LexNumber();
      } else if current < |program| && IsAlpha(r) {
        LexIdentifier();
      } else {
        return Some(CannotIdentify(r));
      }
      return None;
    }

    /** Lex the rest of the program; stop at the first character that is
        not recognised, keeping its error; add an EOF token if and only if
        `Error` is set afterwards. */
    method Lex()
      requires Valid()
      modifies this`start, this`current, this`tokens, this`lineNumber, this`error
      ensures Valid()
      ensures var r := LexFrom(program, old(start), old(current), old(lineNumber));
        start == r.start && current == r.next && lineNumber == r.line &&
        error == (if r.err.Some? then r.err else old(error)) &&
        tokens == old(tokens) + r.tokens +
          (if error.Some? then [Token(Eof, Text(program[start..current]), lineNumber)] else [])
    {
      ghost var total := LexFrom(program, start, current, lineNumber);
      while !IsAtEnd()
        invariant Valid()
        invariant error == old(error)
        invariant var r := LexFrom(program, start, current, lineNumber);
          old(tokens) + total.tokens == tokens + r.tokens &&
          total.start == r.start && total.next == r.next && total.line == r.line && total.err == r.err
        decreases |program| - current
      {
        ghost var before := tokens;
        ghost var sc := ScanToken(program, current, lineNumber);
        LexFromStep(program, start, current, lineNumber);
        start := current;
        var err := LexToken();
        if err.Some? {
          error := err;
          break;
        }
        ghost var rest := LexFrom(program, start, current, lineNumber);
        assert tokens == before + sc.tokens;
        AppendAssoc(before, sc.tokens, rest.tokens);
      }
      assert LexFrom(program, start, current, lineNumber).tokens == [];
      assert old(tokens) + total.tokens == tokens;
      if error.Some? {
        AddToken(Eof);
      }
    }
  }

  /** The lexer's test: a new lexer on the test program, lexed, holds the
      ten tokens, no error and no EOF token. */
  method LexerTest(program: string) returns (l: Lexer)
    requires IsTestText(program)
    ensures l.tokens == TestTokens && l.error == None && l.lineNumber == 0
  {
    l := new Lexer(program);
    l.Lex();
    TestProgram(program);
  }
}
