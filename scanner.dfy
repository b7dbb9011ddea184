/** The Scanner: a cursor-driven lexer turning source text into tokens.

    The first half of this module is the reference definition of scanning as
    functions over the source text (`ScanStep` is one `scanToken` call,
    `ScanFrom` the `scanTokens` loop, `Lex` the whole pass), with the lemmas
    about it.  The second half is the `Scanner` class, whose fields and loops
    follow the source and whose methods are proved to compute exactly that
    reference definition. */
module Scanner {
  import opened Wrappers
  import opened Tokens

  // ---------------------------------------------------------------------
  // Character classes.  The source works on one-character JavaScript
  // strings; `peek` past the end yields the empty string, which is in no class.
  // ---------------------------------------------------------------------

  /** The end-of-input marker that `peek` and `peekNext` return. */
  const End: string := ""

  predicate AlphaChar(c: char) {
    ('a' <= c <= 'z') || ('A' <= c <= 'Z') || c == '_'
  }

  predicate DigitChar(c: char) {
    '0' <= c <= '9'
  }

  predicate AlphaNumericChar(c: char) {
    AlphaChar(c) || DigitChar(c)
  }

  /** `isAlpha`, `isDigit` and `isAlphaNumeric` on a one-character string;
      false on `End`. */
  predicate IsAlpha(c: string) {
    |c| == 1 && AlphaChar(c[0])
  }

  predicate IsDigit(c: string) {
    |c| == 1 && DigitChar(c[0])
  }

  predicate IsAlphaNumeric(c: string) {
    IsAlpha(c) || IsDigit(c)
  }

  /** Letters (with `_`) and digits are disjoint classes of single
      characters; the end-of-input marker and any longer string are in
      neither. */
  lemma CharClasses(c: string)
    ensures IsAlpha(c) ==> !IsDigit(c)
    ensures IsAlphaNumeric(c) ==> |c| == 1
    ensures IsAlpha("_") && !IsAlphaNumeric(End)
  {
  }

  /** The character at `i` as a string, or `End` past the end of the text
      (what `peek` and `peekNext` look at). */
  function CharAt(src: string, i: nat): (c: string)
    ensures i < |src| ==> c == [src[i]]
    ensures i >= |src| ==> c == End
  {
    if i < |src| then [src[i]] else End
  }

  /** The reserved words and the token kind each one scans to. */
  const Keywords: map<string, TokenType> := map[
    "and" := And, "class" := Class, "else" := Else, "false" := False,
    "for" := For, "fun" := Fun, "if" := If, "nil" := Nil, "or" := Or,
    "print" := Print, "return" := Return, "super" := Super, "this" := This,
    "true" := True, "var" := Var, "while" := While]

  /** The kind an identifier-shaped lexeme scans to: its keyword kind if it
      is reserved, the generic identifier kind otherwise. */
  function KeywordKind(text: string): (k: TokenType)
    ensures text in Keywords ==> k == Keywords[text]
    ensures text !in Keywords ==> k == Identifier
  {
    if text in Keywords then Keywords[text] else Identifier
  }

  /** The reserved word a keyword kind scans from (the empty string for
      a kind that is no keyword). */
  function KeywordText(k: TokenType): string
  {
    match k
    case And => "and" case Class => "class" case Else => "else" case False => "false"
    case For => "for" case Fun => "fun" case If => "if" case Nil => "nil" case Or => "or"
    case Print => "print" case Return => "return" case Super => "super" case This => "this"
    case True => "true" case Var => "var" case While => "while"
    case _ => ""
  }

  /** No reserved word scans as an identifier, and a keyword's kind gives
      the word back: a lexeme is reserved exactly when its kind is not
      IDENTIFIER, and two reserved words never share a kind. */
  lemma KeywordKinds(text: string)
    ensures KeywordKind(text) != Identifier <==> text in Keywords
    ensures text in Keywords ==> KeywordText(KeywordKind(text)) == text
  {
    if text in Keywords {
      assert text in Keywords.Keys;
      assert text in {"and", "class", "else", "false", "for", "fun", "if", "nil", "or",
                      "print", "return", "super", "this", "true", "var", "while"};
    }
  }

  // ---------------------------------------------------------------------
  // Where the scanning loops stop.
  // ---------------------------------------------------------------------

  /** The end of the run of letters, digits and underscores starting at `i`. */
  function IdentifierEnd(src: string, i: nat): (j: nat)
    requires i <= |src|
    ensures i <= j <= |src|
    ensures forall k :: i <= k < j ==> AlphaNumericChar(src[k])
    ensures j < |src| ==> !AlphaNumericChar(src[j])
    decreases |src| - i
  {
    if i < |src| && AlphaNumericChar(src[i]) then IdentifierEnd(src, i + 1) else i
  }

  /** The end of the run of decimal digits starting at `i`. */
  function DigitsEnd(src: string, i: nat): (j: nat)
    requires i <= |src|
    ensures i <= j <= |src|
    ensures forall k :: i <= k < j ==> DigitChar(src[k])
    ensures j < |src| ==> !DigitChar(src[j])
    decreases |src| - i
  {
    if i < |src| && DigitChar(src[i]) then DigitsEnd(src, i + 1) else i
  }

  /** The end of a number literal whose digits continue at `i`: the integer
      digits, then a `.` and more digits only when a digit follows the `.`. */
  function NumberEnd(src: string, i: nat): (j: nat)
    requires i <= |src|
    ensures DigitsEnd(src, i) <= j <= |src|
  {
    var d := DigitsEnd(src, i);
    if d + 1 < |src| && src[d] == '.' && DigitChar(src[d + 1]) then DigitsEnd(src, d + 1) else d
  }

  /** The position of the first `c` at or after `i`, or the end of the
      text: where the string loop stops (at a quote), where a line comment
      stops (at a newline), and where a number's dot is. */
  function FirstOf(src: string, i: nat, c: char): (j: nat)
    requires i <= |src|
    ensures i <= j <= |src|
    ensures forall k :: i <= k < j ==> src[k] != c
    ensures j < |src| ==> src[j] == c
    decreases |src| - i
  {
    if i < |src| && src[i] != c then FirstOf(src, i + 1, c) else i
  }

  /** The number of newline characters in `s`. */
  function NewlineCount(s: string): nat
  {
    if s == [] then 0 else NewlineCount(s[..|s| - 1]) + (if s[|s| - 1] == '\n' then 1 else 0)
  }

  lemma {:induction false} NewlineCountAppend(a: string, b: string)
    ensures NewlineCount(a + b) == NewlineCount(a) + NewlineCount(b)
    decreases |b|
  {
    if b == [] {
      assert a + b == a;
    } else {
      var ab := a + b;
      assert ab[..|ab| - 1] == a + b[..|b| - 1];
      NewlineCountAppend(a, b[..|b| - 1]);
    }
  }

  lemma NewlineCountExtend(src: string, a: nat, b: nat)
    requires a <= b < |src|
    ensures NewlineCount(src[a..b + 1]) == NewlineCount(src[a..b]) + (if src[b] == '\n' then 1 else 0)
  {
    assert src[a..b + 1][..b - a] == src[a..b];
  }

  lemma SingleCharIs(src: string, i: nat, c: char)
    ensures (CharAt(src, i) == [c]) == (i < |src| && src[i] == c)
  {
    if i < |src| && CharAt(src, i) == [c] {
      assert CharAt(src, i)[0] == c;
    }
  }

  /** The value of a number literal's text: its digits read as one integer,
      scaled by the number of digits after the `.` when there is one. */
  function DecimalValue(text: string): (d: Decimal)
    ensures FirstOf(text, 0, '.') == |text| ==> d == Decimal(IntegerValue(text), 0)
    ensures FirstOf(text, 0, '.') < |text| ==> d.scale == |text| - FirstOf(text, 0, '.') - 1
  {
    var k := FirstOf(text, 0, '.');
    if k == |text| then Decimal(IntegerValue(text), 0)
    else Decimal(IntegerValue(text[..k] + text[k + 1..]), |text| - k - 1)
  }

  /** The value of a string of decimal digits, most significant first. */
  function IntegerValue(digits: string): nat
  {
    if digits == [] then 0
    else
      var d := digits[|digits| - 1] as int - '0' as int;
      IntegerValue(digits[..|digits| - 1]) * 10 + (if 0 <= d <= 9 then d else 0)
  }

  // ---------------------------------------------------------------------
  // One `scanToken` call, and the whole `scanTokens` pass.
  // ---------------------------------------------------------------------

  /** The source range `[start, stop)` a token was scanned from. */
  datatype Span = Span(start: nat, stop: nat)

  /** The effect of one `scanToken` call started at a position: where the
      cursor ends up, the line afterwards, and the token or error it adds. */
  datatype Step = Step(next: nat, line: int, token: Option<Token>, error: Option<Diagnostic>)

  /** A step started at `start` on `line` consumes at least one character and
      stays in the text; the token it adds (never EOF) is spelled by exactly
      the characters consumed; and the line grows by the newlines consumed. */
  ghost predicate StepFits(src: string, start: nat, line: int, st: Step)
  {
    && start < st.next <= |src|
    && (st.token.Some? ==> st.token.value.lexeme == src[start..st.next] && st.token.value.kind != Eof)
    && st.line == line + NewlineCount(src[start..st.next])
  }

  lemma {:induction false} NoNewlineIn(src: string, a: nat, b: nat)
    requires a <= b <= |src|
    requires forall k :: a <= k < b ==> src[k] != '\n'
    ensures NewlineCount(src[a..b]) == 0
    decreases b - a
  {
    if a < b {
      assert src[a..b][..b - a - 1] == src[a..b - 1];
      NoNewlineIn(src, a, b - 1);
    }
  }

  /** A token spanning `[start, stop)`, on `line`. */
  function Emit(src: string, start: nat, stop: nat, kind: TokenType, literal: Literal, line: int): (st: Step)
    requires start < stop <= |src|
  {
    Step(stop, line, Some(Token(kind, src[start..stop], literal, line)), None)
  }

  /** `!`, `=`, `<` or `>` at `start`: the two-character kind when `=` follows. */
  function OneOrTwo(src: string, start: nat, line: int, two: TokenType, one: TokenType): (st: Step)
    requires start < |src|
  {
    if start + 1 < |src| && src[start + 1] == '=' then Emit(src, start, start + 2, two, NoLiteral, line)
    else Emit(src, start, start + 1, one, NoLiteral, line)
  }

  /** A string literal whose opening quote is at `start`: up to the closing
      quote, or an error at the end of the text when there is none. */
  function StringStep(src: string, start: nat, line: int): (st: Step)
    requires start < |src| && src[start] == '"'
    ensures start < st.next <= |src|
  {
    var j := FirstOf(src, start + 1, '"');
    var l := line + NewlineCount(src[start + 1..j]);
    if j == |src| then
      Step(j, l, None, Some(ErrorAt(Token(String, "", NoLiteral, l), "Unterminated string.")))
    else
      Step(j + 1, l, Some(Token(String, src[start..j + 1], StringLiteral(src[start + 1..j]), l)), None)
  }

  /** A terminated string yields one STRING token whose literal is the text
      between the quotes, on the line where the literal ends; an unterminated
      one runs to the end of the text, adds no token and reports an error on
      the last line. */
  lemma StringStepMeaning(src: string, start: nat, line: int)
    requires start < |src| && src[start] == '"'
    ensures var st := StringStep(src, start, line);
      && (forall k :: start < k < st.next - 1 ==> src[k] != '"')
      && (st.token.Some? <==> st.error.None?)
      && (st.token.Some? ==>
        && start < st.next - 1 && src[st.next - 1] == '"'
        && st.token.value.kind == String
        && st.token.value.literal == StringLiteral(src[start + 1..st.next - 1])
        && st.token.value.line == line + NewlineCount(src[start + 1..st.next - 1]))
      && (st.error.Some? ==>
        && st.next == |src| && (|src| - 1 > start ==> src[|src| - 1] != '"')
        && st.error.value == ErrorAt(Token(String, "", NoLiteral, st.line), "Unterminated string.")
        && st.line == line + NewlineCount(src[start + 1..]))
  {
    var j := FirstOf(src, start + 1, '"');
    if j == |src| {
      assert src[start + 1..j] == src[start + 1..];
    }
  }

  /** A non-empty run of decimal digits. */
  ghost predicate AllDigits(s: string)
  {
    |s| > 0 && forall k :: 0 <= k < |s| ==> DigitChar(s[k])
  }

  /** The shape of a number literal: digits, optionally followed by a `.`
      and more digits. */
  ghost predicate IsNumeral(s: string)
  {
    || AllDigits(s)
    || exists k :: 0 < k < |s| && s[k] == '.' && AllDigits(s[..k]) && AllDigits(s[k + 1..])
  }

  /** A stretch of digits in the text is a digit run. */
  lemma DigitRun(src: string, lo: nat, hi: nat)
    requires lo < hi <= |src|
    requires forall k :: lo <= k < hi ==> DigitChar(src[k])
    ensures AllDigits(src[lo..hi])
  {
  }

  /** Digits, a `.` and digits again make a numeral with a fraction. */
  lemma FractionNumeral(src: string, lo: nat, dot: nat, hi: nat)
    requires lo < dot && dot + 1 < hi <= |src| && src[dot] == '.'
    requires AllDigits(src[lo..dot]) && AllDigits(src[dot + 1..hi])
    ensures IsNumeral(src[lo..hi]) && !AllDigits(src[lo..hi])
  {
    var s := src[lo..hi];
    var m := dot - lo;
    assert s[..m] == src[lo..dot];
    assert s[m + 1..] == src[dot + 1..hi];
    assert 0 < m < |s| && s[m] == '.';
    assert !DigitChar(s[m]);
  }

  /** A number literal whose first digit is at `start`. */
  function NumberStep(src: string, start: nat, line: int): (st: Step)
    requires start < |src| && DigitChar(src[start])
    ensures start < st.next <= |src|
  {
    var j := NumberEnd(src, start + 1);
    Emit(src, start, j, Number, NumberLiteral(DecimalValue(src[start..j])), line)
  }

  /** A number token is the longest numeral at `start`, except that a `.` not
      followed by a digit is left alone; its literal is the numeral's value. */
  lemma NumberStepMeaning(src: string, start: nat, line: int)
    requires start < |src| && DigitChar(src[start])
    ensures var st := NumberStep(src, start, line);
      && st.token.Some? && st.error.None? && st.line == line
      && var t := st.token.value;
      && t.kind == Number && t.lexeme == src[start..st.next] && IsNumeral(t.lexeme)
      && t.literal == NumberLiteral(DecimalValue(t.lexeme))
      && (st.next < |src| ==> !DigitChar(src[st.next]))
      && (AllDigits(t.lexeme) ==> !(st.next + 1 < |src| && src[st.next] == '.' && DigitChar(src[st.next + 1])))
  {
    var d := DigitsEnd(src, start + 1);
    var j := NumberEnd(src, start + 1);
    DigitRun(src, start, d);
    if j == d {
      assert !(d + 1 < |src| && src[d] == '.' && DigitChar(src[d + 1]));
    } else {
      assert d + 1 < |src| && src[d] == '.' && DigitChar(src[d + 1]);
      assert j == DigitsEnd(src, d + 1);
      DigitRun(src, d + 1, j);
      FractionNumeral(src, start, d, j);
    }
  }

  /** An identifier or keyword whose first letter is at `start`. */
  function IdentifierStep(src: string, start: nat, line: int): (st: Step)
    requires start < |src| && AlphaChar(src[start])
    ensures start < st.next <= |src|
  {
    var j := IdentifierEnd(src, start + 1);
    Emit(src, start, j, KeywordKind(src[start..j]), NoLiteral, line)
  }

  /** An identifier token is the longest run of letters, digits and
      underscores at `start`, and is a keyword exactly when it is in the
      keyword table. */
  lemma IdentifierStepMeaning(src: string, start: nat, line: int)
    requires start < |src| && AlphaChar(src[start])
    ensures var st := IdentifierStep(src, start, line);
      && st.token.Some? && st.error.None? && st.line == line
      && var t := st.token.value;
      && t.lexeme == src[start..st.next]
      && AlphaChar(t.lexeme[0])
      && (forall k :: 0 <= k < |t.lexeme| ==> AlphaNumericChar(t.lexeme[k]))
      && (st.next < |src| ==> !AlphaNumericChar(src[st.next]))
      && t.kind == KeywordKind(t.lexeme) && t.literal == NoLiteral
  {
  }

  /** What the first character of a lexeme makes `scanToken` do. */
  datatype CharClass =
    | Single(kind: TokenType)                            // a token on its own
    | Operator(alone: TokenType, withEqual: TokenType)   // `!`, `=`, `<`, `>`
    | SlashOrComment
    | Blank                                              // space, `\r`, `\t`
    | LineBreak
    | Quote
    | Digit
    | Letter
    | Unexpected

  /** The cases of the `scanToken` switch. */
  function Classify(c: char): CharClass
  {
    match c
    case '(' => Single(LeftParen)
    case ')' => Single(RightParen)
    case '{' => Single(LeftBrace)
    case '}' => Single(RightBrace)
    case ',' => Single(Comma)
    case '.' => Single(Dot)
    case '-' => Single(Minus)
    case '+' => Single(Plus)
    case ';' => Single(Semicolon)
    case '*' => Single(Star)
    case '!' => Operator(Bang, BangEqual)
    case '=' => Operator(Equal, EqualEqual)
    case '<' => Operator(Less, LessEqual)
    case '>' => Operator(Greater, GreaterEqual)
    case '/' => SlashOrComment
    case ' ' => Blank
    case '\r' => Blank
    case '\t' => Blank
    case '\n' => LineBreak
    case '"' => Quote
    case _ => if DigitChar(c) then Digit else if AlphaChar(c) then Letter else Unexpected
  }

  /** What one `scanToken` call does when the cursor is at `start`. */
  function ScanStep(src: string, start: nat, line: int): (st: Step)
    requires start < |src|
    ensures start < st.next <= |src|
  {
    var c := src[start];
    match Classify(c)
    case Single(kind) => Emit(src, start, start + 1, kind, NoLiteral, line)
    case Operator(alone, withEqual) => OneOrTwo(src, start, line, withEqual, alone)
    case SlashOrComment =>
      if start + 1 < |src| && src[start + 1] == '/' then Step(FirstOf(src, start + 2, '\n'), line, None, None)
      else Emit(src, start, start + 1, Slash, NoLiteral, line)
    case Blank => Step(start + 1, line, None, None)
    case LineBreak => Step(start + 1, line + 1, None, None)
    case Quote => StringStep(src, start, line)
    case Digit => NumberStep(src, start, line)
    case Letter => IdentifierStep(src, start, line)
    case Unexpected =>
      Step(start + 1, line, None, Some(ErrorAt(Token(String, [c], NoLiteral, line), "Unexpected character.")))
  }

  /** A quote, a digit and a letter hand the rest of the lexeme to `string`,
      `number` and `identifier`; the other cases are handled in place. */
  lemma ScanStepDelegates(src: string, start: nat, line: int, cls: CharClass)
    requires start < |src| && cls == Classify(src[start])
    ensures cls.Quote? ==> src[start] == '"' && ScanStep(src, start, line) == StringStep(src, start, line)
    ensures cls.Digit? ==> DigitChar(src[start]) && ScanStep(src, start, line) == NumberStep(src, start, line)
    ensures cls.Letter? ==> AlphaChar(src[start]) && ScanStep(src, start, line) == IdentifierStep(src, start, line)
  {
  }

  /** Every `scanToken` call consumes at least one character and stays in the
      text; the token it adds (never EOF) is spelled by exactly the characters
      consumed; and the line grows by the number of newlines consumed. */
  lemma ScanStepFits(src: string, start: nat, line: int)
    requires start < |src|
    ensures StepFits(src, start, line, ScanStep(src, start, line))
  {
    match Classify(src[start])
    case Quote => StringStepFits(src, start, line);
    case Digit => NumberStepFits(src, start, line);
    case Letter => IdentifierStepFits(src, start, line);
    case _ => ShortStepFits(src, start, line);
  }

  /** The cases that consume one character, or two for an operator followed
      by `=`, or a comment up to the next newline. */
  lemma ShortStepFits(src: string, start: nat, line: int)
    requires start < |src|
    requires !(Classify(src[start]).Quote? || Classify(src[start]).Digit? || Classify(src[start]).Letter?)
    ensures StepFits(src, start, line, ScanStep(src, start, line))
  {
    var st := ScanStep(src, start, line);
    if Classify(src[start]).LineBreak? {
      assert src[start..start + 1][..0] == [];
    } else {
      assert src[start] != '\n';
      NoNewlineIn(src, start, st.next);
    }
  }

  lemma StringStepFits(src: string, start: nat, line: int)
    requires start < |src| && src[start] == '"'
    ensures StepFits(src, start, line, StringStep(src, start, line))
  {
    var j := FirstOf(src, start + 1, '"');
    InnerNewlines(src, start, if j < |src| then j + 1 else j);
  }

  /** Dropping a first character that is not a newline keeps the newline
      count, and so does dropping a last one. */
  lemma InnerNewlines(src: string, a: nat, b: nat)
    requires a < b <= |src| && src[a] != '\n'
    ensures NewlineCount(src[a..b]) == NewlineCount(src[a + 1..b])
    ensures a + 1 < b && src[b - 1] != '\n' ==> NewlineCount(src[a..b]) == NewlineCount(src[a + 1..b - 1])
  {
    NoNewlineIn(src, a, a + 1);
    NewlineCountSplit(src, a, a + 1, b);
    if a + 1 < b && src[b - 1] != '\n' {
      NoNewlineIn(src, b - 1, b);
      NewlineCountSplit(src, a + 1, b - 1, b);
    }
  }

  lemma NewlineCountSplit(src: string, a: nat, b: nat, c: nat)
    requires a <= b <= c <= |src|
    ensures NewlineCount(src[a..c]) == NewlineCount(src[a..b]) + NewlineCount(src[b..c])
  {
    assert src[a..c] == src[a..b] + src[b..c];
    NewlineCountAppend(src[a..b], src[b..c]);
  }

  lemma NumberStepFits(src: string, start: nat, line: int)
    requires start < |src| && DigitChar(src[start])
    ensures StepFits(src, start, line, NumberStep(src, start, line))
  {
    var st := NumberStep(src, start, line);
    var d := DigitsEnd(src, start + 1);
    forall k | start <= k < st.next ensures src[k] != '\n' {
      if k == start || k < d {} else if k == d {} else {}
    }
    NoNewlineIn(src, start, st.next);
  }

  lemma IdentifierStepFits(src: string, start: nat, line: int)
    requires start < |src| && AlphaChar(src[start])
    ensures StepFits(src, start, line, IdentifierStep(src, start, line))
  {
    var st := IdentifierStep(src, start, line);
    forall k | start <= k < st.next ensures src[k] != '\n' {
      if k == start {} else { assert AlphaNumericChar(src[k]); }
    }
    NoNewlineIn(src, start, st.next);
  }

  /** The result of scanning a suffix of the text: its tokens, the spans of
      all tokens but the final EOF, and the lexical errors. */
  datatype Scan = Scan(tokens: seq<Token>, spans: seq<Span>, errors: seq<Diagnostic>)

  /** The `scanTokens` loop run from position `i` with the line counter at `line`. */
  function ScanFrom(src: string, i: nat, line: int): Scan
    requires i <= |src|
    decreases |src| - i
  {
    if i == |src| then Scan([Token(Eof, "", NoLiteral, line)], [], [])
    else
      var st := ScanStep(src, i, line);
      var rest := ScanFrom(src, st.next, st.line);
      Scan(OptionToSeq(st.token) + rest.tokens,
           (if st.token.Some? then [Span(i, st.next)] else []) + rest.spans,
           OptionToSeq(st.error) + rest.errors)
  }

  /** Scanning a whole source text, from its start, on line 1. */
  function Lex(src: string): Scan
  {
    ScanFrom(src, 0, 1)
  }

  // ---------------------------------------------------------------------
  // Properties of the reference definition.
  // ---------------------------------------------------------------------

  /** The token list ends with exactly one EOF token, and it carries the
      line reached at the end of the text. */
  lemma {:induction false} ScanFromEndsWithEof(src: string, i: nat, line: int)
    requires i <= |src|
    ensures var toks := ScanFrom(src, i, line).tokens;
      && |toks| >= 1
      && toks[|toks| - 1] == Token(Eof, "", NoLiteral, line + NewlineCount(src[i..]))
    decreases |src| - i
  {
    if i == |src| {
      assert src[i..] == [];
    } else {
      var st := ScanStep(src, i, line);
      ScanStepFits(src, i, line);
      ScanFromEndsWithEof(src, st.next, st.line);
      SuffixNewlines(src, i, st.next);
      LastOfConcat(OptionToSeq(st.token), ScanFrom(src, st.next, st.line).tokens);
    }
  }

  lemma SuffixNewlines(src: string, a: nat, b: nat)
    requires a <= b <= |src|
    ensures NewlineCount(src[a..]) == NewlineCount(src[a..b]) + NewlineCount(src[b..])
  {
    SuffixSplits(src, a, b);
    NewlineCountAppend(src[a..b], src[b..]);
  }

  lemma LastOfConcat<T>(first: seq<T>, rest: seq<T>)
    requires |rest| >= 1
    ensures (first + rest)[|first + rest| - 1] == rest[|rest| - 1]
  {
  }

  /** No token before the last one is an EOF token. */
  lemma {:induction false} ScanFromOneEof(src: string, i: nat, line: int)
    requires i <= |src|
    ensures NoEofBefore(ScanFrom(src, i, line).tokens, |ScanFrom(src, i, line).tokens| - 1)
    decreases |src| - i
  {
    if i < |src| {
      var st := ScanStep(src, i, line);
      ScanStepFits(src, i, line);
      ScanFromOneEof(src, st.next, st.line);
      NoEofBeforeLast(OptionToSeq(st.token), ScanFrom(src, st.next, st.line).tokens);
    }
  }

  /** None of the first `n` tokens is an EOF token. */
  ghost predicate NoEofBefore(toks: seq<Token>, n: int)
    requires n <= |toks|
  {
    forall k :: 0 <= k < n ==> toks[k].kind != Eof
  }

  lemma NoEofBeforeLast(first: seq<Token>, rest: seq<Token>)
    requires NoEofBefore(first, |first|)
    requires NoEofBefore(rest, |rest| - 1)
    ensures NoEofBefore(first + rest, |first + rest| - 1)
  {
    forall k | 0 <= k < |first + rest| - 1
      ensures (first + rest)[k].kind != Eof
    {
      if k >= |first| {
        assert (first + rest)[k] == rest[k - |first|];
      }
    }
  }

  lemma LexEndsWithEof(src: string)
    ensures var toks := Lex(src).tokens;
      && |toks| >= 1
      && toks[|toks| - 1] == Token(Eof, "", NoLiteral, 1 + NewlineCount(src))
      && NoEofBefore(toks, |toks| - 1)
  {
    ScanFromEndsWithEof(src, 0, 1);
    ScanFromOneEof(src, 0, 1);
    assert src[0..] == src;
  }

  lemma SuffixSplits(s: string, a: nat, b: nat)
    requires a <= b <= |s|
    ensures s[a..] == s[a..b] + s[b..]
  {
  }

  /** Every token but the final EOF has a span in the text; its lexeme is
      exactly the text of that span; the spans are non-empty, lie at or after
      the starting position, and follow one another without overlapping. */
  ghost predicate SpansFit(src: string, from: nat, s: Scan)
  {
    && |s.spans| == |s.tokens| - 1
    && (forall k :: 0 <= k < |s.spans| ==>
          from <= s.spans[k].start < s.spans[k].stop <= |src|
          && s.tokens[k].lexeme == src[s.spans[k].start..s.spans[k].stop])
    && (forall k :: 0 <= k < |s.spans| - 1 ==> s.spans[k].stop <= s.spans[k + 1].start)
  }

  lemma {:induction false} ScanFromSpans(src: string, i: nat, line: int)
    requires i <= |src|
    ensures SpansFit(src, i, ScanFrom(src, i, line))
    decreases |src| - i
  {
    if i < |src| {
      var st := ScanStep(src, i, line);
      ScanStepFits(src, i, line);
      ScanFromSpans(src, st.next, st.line);
      SpansPrepend(src, i, line, st, ScanFrom(src, st.next, st.line));
    }
  }

  /** One step in front of a scan whose spans fit keeps them fitting. */
  lemma SpansPrepend(src: string, i: nat, line: int, st: Step, rest: Scan)
    requires StepFits(src, i, line, st)
    requires SpansFit(src, st.next, rest)
    ensures SpansFit(src, i, Scan(OptionToSeq(st.token) + rest.tokens,
                                  (if st.token.Some? then [Span(i, st.next)] else []) + rest.spans,
                                  OptionToSeq(st.error) + rest.errors))
  {
    var s := Scan(OptionToSeq(st.token) + rest.tokens,
                  (if st.token.Some? then [Span(i, st.next)] else []) + rest.spans,
                  OptionToSeq(st.error) + rest.errors);
    if st.token.Some? {
      forall k | 0 <= k < |s.spans| - 1
        ensures s.spans[k].stop <= s.spans[k + 1].start
      {
        if k > 0 {
          assert s.spans[k] == rest.spans[k - 1];
        }
      }
      forall k | 0 <= k < |s.spans|
        ensures i <= s.spans[k].start < s.spans[k].stop <= |src|
        ensures s.tokens[k].lexeme == src[s.spans[k].start..s.spans[k].stop]
      {
        if k > 0 {
          assert s.spans[k] == rest.spans[k - 1];
          assert s.tokens[k] == rest.tokens[k - 1];
        }
      }
    } else {
      assert s.spans == rest.spans;
      assert s.tokens == rest.tokens;
    }
  }

  lemma LexSpans(src: string)
    ensures SpansFit(src, 0, Lex(src))
  {
    ScanFromSpans(src, 0, 1);
  }

  /** Maximal munch: `!`, `=`, `<` and `>` scan to the two-character operator
      exactly when `=` follows, and to the one-character operator otherwise. */
  lemma MaximalMunch(src: string, i: nat, line: int)
    requires i < |src| && src[i] in "!=<>"
    ensures var st := ScanStep(src, i, line);
      && st.token.Some? && st.error.None?
      && var t := st.token.value;
      && (i + 1 < |src| && src[i + 1] == '=' <==>
            t.kind in {BangEqual, EqualEqual, LessEqual, GreaterEqual})
      && (t.kind in {BangEqual, EqualEqual, LessEqual, GreaterEqual} ==>
            t.lexeme == [src[i], '='] && st.next == i + 2)
      && (t.kind !in {BangEqual, EqualEqual, LessEqual, GreaterEqual} ==>
            t.lexeme == [src[i]] && st.next == i + 1)
  {
    assert Classify(src[i]).Operator?;
    if i + 1 < |src| && src[i + 1] == '=' {
      assert src[i..i + 2] == [src[i], '='];
    } else {
      assert src[i..i + 1] == [src[i]];
    }
  }

  /** A `//` comment produces nothing and stops just before the next newline
      (or at the end); a lone `/` is the division operator. */
  lemma CommentOrSlash(src: string, i: nat, line: int)
    requires i < |src| && src[i] == '/'
    ensures var st := ScanStep(src, i, line);
      && st.error.None?
      && (i + 1 < |src| && src[i + 1] == '/' ==>
            && st.token.None? && st.line == line
            && (forall k :: i <= k < st.next ==> src[k] != '\n')
            && (st.next < |src| ==> src[st.next] == '\n'))
      && (!(i + 1 < |src| && src[i + 1] == '/') ==>
            st.token == Some(Token(Slash, "/", NoLiteral, line)) && st.next == i + 1)
  {
    assert src[i..i + 1] == "/";
  }

  /** `1.` scans as the number 1 followed by a dot: the fraction needs a
      digit after the `.`. */
  lemma TrailingDotIsSeparate()
    ensures var toks := Lex("1.").tokens;
      && |toks| == 3
      && toks[0] == Token(Number, "1", NumberLiteral(Decimal(1, 0)), 1)
      && toks[1] == Token(Dot, ".", NoLiteral, 1)
      && toks[2] == Token(Eof, "", NoLiteral, 1)
  {
    var src := "1.";
    assert DigitsEnd(src, 1) == 1;
    assert NumberEnd(src, 1) == 1;
    assert src[0..1] == "1";
    assert DecimalValue("1") == Decimal(1, 0) by {
      assert FirstOf("1", 0, '.') == 1;
      assert IntegerValue("1") == 1 by { assert "1"[..0] == []; }
    }
    var st0 := ScanStep(src, 0, 1);
    assert st0 == Step(1, 1, Some(Token(Number, "1", NumberLiteral(Decimal(1, 0)), 1)), None);
    assert src[1..2] == ".";
    var st1 := ScanStep(src, 1, 1);
    assert st1 == Step(2, 1, Some(Token(Dot, ".", NoLiteral, 1)), None);
    assert ScanFrom(src, 2, 1).tokens == [Token(Eof, "", NoLiteral, 1)];
    assert ScanFrom(src, 1, 1).tokens == [Token(Dot, ".", NoLiteral, 1), Token(Eof, "", NoLiteral, 1)];
  }

  // ---------------------------------------------------------------------
  // The Scanner class.
  // ---------------------------------------------------------------------

  /** One step of the `scanTokens` loop keeps "tokens so far followed by the
      tokens still to come" fixed, and likewise for the errors. */
  lemma {:induction false} StepKeepsScan(src: string, c0: nat, l0: int, tokens0: seq<Token>, errors0: seq<Diagnostic>,
                                         c1: nat, l1: int, tokens1: seq<Token>, errors1: seq<Diagnostic>)
    requires c0 < |src|
    requires var st := ScanStep(src, c0, l0);
      && c1 == st.next && l1 == st.line
      && tokens1 == tokens0 + OptionToSeq(st.token) && errors1 == errors0 + OptionToSeq(st.error)
    ensures c1 <= |src|
    ensures tokens1 + ScanFrom(src, c1, l1).tokens == tokens0 + ScanFrom(src, c0, l0).tokens
    ensures errors1 + ScanFrom(src, c1, l1).errors == errors0 + ScanFrom(src, c0, l0).errors
  {
    var st := ScanStep(src, c0, l0);
    var rest := ScanFrom(src, c1, l1);
    ConcatAssociates(tokens0, OptionToSeq(st.token), rest.tokens);
    ConcatAssociates(errors0, OptionToSeq(st.error), rest.errors);
  }

  lemma ConcatAssociates<T>(a: seq<T>, b: seq<T>, c: seq<T>)
    ensures (a + b) + c == a + (b + c)
  {
  }

  class Scanner {
    const source: string
    var tokens: seq<Token>
    var start: nat
    var current: nat
    var line: int
    /** The lexical errors reported so far. */
    var errors: seq<Diagnostic>

    ghost predicate Valid()
      reads this
    {
      start <= current <= |source|
    }

    constructor (source: string)
      ensures Valid() && this.source == source
      ensures tokens == [] && errors == []
      ensures start == 0 && current == 0 && line == 1
    {
      this.source := source;
      tokens, errors := [], [];
      start, current, line := 0, 0, 1;
    }

    function IsAtEnd(): bool
      reads this
    {
      current >= |source|
    }

    function Peek(): string
      reads this
    {
      if IsAtEnd() then End else CharAt(source, current)
    }

    function PeekNext(): string
      reads this
    {
      if current + 1 >= |source| then End else CharAt(source, current + 1)
    }

    /** One character of lookahead: `peek` yields the end marker exactly at
        the end of the source, and otherwise the character under the
        cursor; `peekNext` the one after it, or the end marker. */
    lemma Lookahead()
      ensures Peek() == End <==> IsAtEnd()
      ensures !IsAtEnd() ==> Peek() == [source[current]]
      ensures PeekNext() == End <==> current + 1 >= |source|
      ensures current + 1 < |source| ==> PeekNext() == [source[current + 1]]
    {
    }

    /** Consumes the next character and returns it. */
    method Advance() returns (c: char)
      requires Valid() && current < |source|
      modifies this`current
      ensures Valid()
      ensures current == old(current) + 1 && c == source[old(current)]
    {
      current := current + 1;
      c := source[current - 1];
    }

    /** Consumes the next character only if it is `expected`. */
    method Match(expected: char) returns (matched: bool)
      requires Valid()
      modifies this`current
      ensures Valid()
      ensures matched == (old(current) < |source| && source[old(current)] == expected)
      ensures current == old(current) + (if matched then 1 else 0)
    {
      if IsAtEnd() {
        return false;
      }
      if source[current] != expected {
        return false;
      }
      current := current + 1;
      return true;
    }

    /** Adds a token spelled by the text from `start` to `current`. */
    method AddToken(kind: TokenType, literal: Literal)
      requires Valid()
      modifies this`tokens
      ensures tokens == old(tokens) + [Token(kind, source[start..current], literal, line)]
    {
      var text := source[start..current];
      tokens := tokens + [Token(kind, text, literal, line)];
    }

    /** Records a lexical error located at `token`. */
    method Report(token: Token, message: string)
      modifies this`errors
      ensures errors == old(errors) + [ErrorAt(token, message)]
    {
      errors := errors + [ErrorAt(token, message)];
    }

    /** Scans the whole remaining text and appends the final EOF token. */
    method ScanTokens() returns (result: seq<Token>)
      requires Valid()
      modifies this
      ensures Valid()
      ensures tokens == old(tokens) + ScanFrom(source, old(current), old(line)).tokens
      ensures errors == old(errors) + ScanFrom(source, old(current), old(line)).errors
      ensures result == tokens
    {
      while !IsAtEnd()
        invariant Valid()
        invariant tokens + ScanFrom(source, current, line).tokens
               == old(tokens) + ScanFrom(source, old(current), old(line)).tokens
        invariant errors + ScanFrom(source, current, line).errors
               == old(errors) + ScanFrom(source, old(current), old(line)).errors
        decreases |source| - current
      {
        start := current;
        ghost var c0, l0, tokens0, errors0 := current, line, tokens, errors;
        ScanToken();
        assert Stepped(l0, tokens0, errors0);
        StepKeepsScan(source, c0, l0, tokens0, errors0, current, line, tokens, errors);
      }
      tokens := tokens + [Token(Eof, "", NoLiteral, line)];
      result := tokens;
    }

    /** The fields hold what one `scanToken` call from `start` does to a
        scanner whose line, tokens and errors were `line0`, `tokens0` and
        `errors0`. */
    ghost predicate Stepped(line0: int, tokens0: seq<Token>, errors0: seq<Diagnostic>)
      reads this
    {
      && start < |source|
      && var st := ScanStep(source, start, line0);
      && current == st.next && line == st.line
      && tokens == tokens0 + OptionToSeq(st.token)
      && errors == errors0 + OptionToSeq(st.error)
    }

    /** Scans one lexeme starting at `start`. */
    method ScanToken()
      requires Valid() && start == current < |source|
      modifies this`current, this`line, this`tokens, this`errors
      ensures Valid()
      ensures Stepped(old(line), old(tokens), old(errors))
    {
      var c := Advance();
      var cls := Classify(c);
      if cls.Quote? || cls.Digit? || cls.Letter? || cls.Unexpected? {
        ScanLexeme(cls);
      } else {
        ScanPunctuation(cls);
      }
    }

    /** The cases of the `scanToken` switch that hand over to `string`,
        `number` and `identifier`, and the unexpected character. */
    method ScanLexeme(cls: CharClass)
      requires Valid() && start + 1 == current && cls == Classify(source[start])
      requires cls.Quote? || cls.Digit? || cls.Letter? || cls.Unexpected?
      modifies this`current, this`line, this`tokens, this`errors
      ensures Valid()
      ensures Stepped(old(line), old(tokens), old(errors))
    {
      ScanStepDelegates(source, start, line, cls);
      match cls {
        case Quote =>
          ScanString();
        case Digit =>
          ScanNumber();
        case Letter =>
          ScanIdentifier();
        case Unexpected =>
          Report(Token(String, [source[start]], NoLiteral, line), "Unexpected character.");
      }
    }

    /** The cases of the `scanToken` switch that need no helper: punctuation,
        operators, comments and white space. */
    method ScanPunctuation(cls: CharClass)
      requires Valid() && start + 1 == current && cls == Classify(source[start])
      requires !(cls.Quote? || cls.Digit? || cls.Letter? || cls.Unexpected?)
      modifies this`current, this`line, this`tokens
      ensures Valid()
      ensures Stepped(old(line), old(tokens), errors)
    {
      match cls {
        case Single(kind) =>
          AddToken(kind, NoLiteral);
        case Operator(alone, withEqual) =>
          var m := Match('=');
          AddToken(if m then withEqual else alone, NoLiteral);
        case SlashOrComment =>
          var m := Match('/');
          if m {
            SkipComment();
          } else {
            AddToken(Slash, NoLiteral);
          }
        case Blank =>
        case LineBreak =>
          line := line + 1;
      }
    }

    /** A comment goes until the end of the line. */
    method SkipComment()
      requires Valid()
      modifies this`current
      ensures Valid()
      ensures current == FirstOf(source, old(current), '\n')
    {
      while Peek() != "\n" && !IsAtEnd()
        invariant Valid() && old(current) <= current
        invariant FirstOf(source, current, '\n') == FirstOf(source, old(current), '\n')
        decreases |source| - current
      {
        SingleCharIs(source, current, '\n');
        var _ := Advance();
      }
      SingleCharIs(source, current, '\n');
    }

    /** Scans the rest of an identifier or keyword. */
    method ScanIdentifier()
      requires Valid() && start + 1 == current && AlphaChar(source[start])
      modifies this`current, this`tokens
      ensures Valid()
      ensures var st := IdentifierStep(source, start, line);
        current == st.next && tokens == old(tokens) + OptionToSeq(st.token)
    {
      while IsAlphaNumeric(Peek())
        modifies this`current
        invariant Valid() && old(current) <= current
        invariant IdentifierEnd(source, current) == IdentifierEnd(source, old(current))
        decreases |source| - current
      {
        var _ := Advance();
      }
      var text := source[start..current];
      var kind := KeywordKind(text);
      AddToken(kind, NoLiteral);
    }

    /** Consumes a run of digits. */
    method SkipDigits()
      requires Valid()
      modifies this`current
      ensures Valid()
      ensures current == DigitsEnd(source, old(current))
    {
      while IsDigit(Peek())
        invariant Valid() && old(current) <= current
        invariant DigitsEnd(source, current) == DigitsEnd(source, old(current))
        decreases |source| - current
      {
        var _ := Advance();
      }
    }

    /** Scans the rest of a number literal. */
    method ScanNumber()
      requires Valid() && start + 1 == current && DigitChar(source[start])
      modifies this`current, this`tokens
      ensures Valid()
      ensures var st := NumberStep(source, start, line);
        current == st.next && tokens == old(tokens) + OptionToSeq(st.token)
    {
      SkipNumeral();
      AddToken(Number, NumberLiteral(DecimalValue(source[start..current])));
    }

    /** Consumes the digits of a number literal and its fractional part, if
        there is one. */
    method SkipNumeral()
      requires Valid()
      modifies this`current
      ensures Valid()
      ensures current == NumberEnd(source, old(current))
    {
      SkipDigits();
      // Look for a fractional part.
      if Peek() == "." && IsDigit(PeekNext()) {
        SingleCharIs(source, current, '.');
        // Consume the ".".
        var _ := Advance();
        SkipDigits();
      } else {
        SingleCharIs(source, current, '.');
      }
    }

    /** The loop of `string`: consumes characters up to the closing quote or
        the end of the text, counting the newlines it passes. */
    method SkipToQuote()
      requires Valid()
      modifies this`current, this`line
      ensures Valid() && old(current) <= current
      ensures current == FirstOf(source, old(current), '"')
      ensures line == old(line) + NewlineCount(source[old(current)..current])
    {
      SingleCharIs(source, current, '"');
      while Peek() != "\"" && !IsAtEnd()
        invariant Valid() && old(current) <= current
        invariant FirstOf(source, current, '"') == FirstOf(source, old(current), '"')
        invariant line == old(line) + NewlineCount(source[old(current)..current])
        decreases |source| - current
      {
        SingleCharIs(source, current, '\n');
        if Peek() == "\n" {
          line := line + 1;
        }
        NewlineCountExtend(source, old(current), current);
        var _ := Advance();
        SingleCharIs(source, current, '"');
      }
    }

    /** Scans the rest of a string literal whose opening quote was consumed. */
    method ScanString()
      requires Valid() && start + 1 == current && source[start] == '"'
      modifies this`current, this`line, this`tokens, this`errors
      ensures Valid()
      ensures var st := StringStep(source, start, old(line));
        && current == st.next && line == st.line
        && tokens == old(tokens) + OptionToSeq(st.token)
        && errors == old(errors) + OptionToSeq(st.error)
    {
      SkipToQuote();

      if IsAtEnd() {
        Report(Token(String, "", NoLiteral, line), "Unterminated string.");
        return;
      }

      // The closing quote.
      var _ := Advance();

      // Trim the surrounding quotes.
      var value := source[start + 1..current - 1];
      AddToken(String, StringLiteral(value));
    }
  }
}
