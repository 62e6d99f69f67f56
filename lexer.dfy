/** The lexical rules of jlox/src/scanner.rs stated as pure functions: what one call of
    `scan_token` does at a position (`Step`), and what `scan_tokens` produces from a
    position to the end of the source (`LexFrom`). The class in scanner.dfy is proved to
    compute exactly these. */
module Lexer {
  import opened Wrappers
  import opened Tokens

  // ---------------------------------------------------------------------------
  // Character classes. `is_ascii_digit` is exact; the Unicode classes
  // `char::is_alphabetic` and `char::is_alphanumeric` are restricted to ASCII.

  predicate IsDigit(c: char) {
    '0' <= c <= '9'
  }

  /** `Scanner::is_alpha`: a letter or an underscore. It differs from the class of
      the identifier loop by taking `_` and leaving out digits. */
  predicate IsAlpha(c: char): (b: bool)
    ensures b <==> c == '_' || (IsAlphanumeric(c) && !IsDigit(c))
  {
    'a' <= c <= 'z' || 'A' <= c <= 'Z' || c == '_'
  }

  /** `char::is_alphanumeric`, which the identifier loop calls: letters and digits,
      but not the underscore. */
  predicate IsAlphanumeric(c: char): (b: bool)
    ensures IsDigit(c) ==> b
    ensures b ==> c != '_'
  {
    'a' <= c <= 'z' || 'A' <= c <= 'Z' || '0' <= c <= '9'
  }

  /** The number of line breaks among `src[i..j]`. */
  function Newlines(src: string, i: nat, j: nat): nat
    requires i <= j <= |src|
    decreases j
  {
    if i == j then 0 else Newlines(src, i, j - 1) + if src[j - 1] == '\n' then 1 else 0
  }

  // ---------------------------------------------------------------------------
  // The keyword table of `Scanner::new`.

  /** The pairs `Scanner::new` builds its keyword table from. */
  const KeywordPairs: seq<(string, TokenType)> := [
    ("and", And), ("class", Class), ("else", Else), ("false", False),
    ("for", For), ("fun", Fun), ("if", If), ("nil", Nil),
    ("or", Or), ("print", Print), ("return", Return), ("super", Super),
    ("this", This), ("true", True), ("var", Var), ("while", While)
  ]

  /** `HashMap::from(pairs)`: the pairs inserted in order, a later one replacing an
      earlier one with the same key. */
  function TableOf(pairs: seq<(string, TokenType)>): (m: map<string, TokenType>)
    decreases |pairs|
  {
    if pairs == [] then map[]
    else
      TableOf(pairs[..|pairs| - 1])[pairs[|pairs| - 1].0 := pairs[|pairs| - 1].1]
  }

  /** Every key of the table comes from a pair, with the value paired with it there,
      and every pair's key is in the table. */
  lemma {:induction false} TableOfPairs(pairs: seq<(string, TokenType)>)
    ensures forall text :: text in TableOf(pairs) ==> exists i :: 0 <= i < |pairs| && pairs[i] == (text, TableOf(pairs)[text])
    ensures forall i :: 0 <= i < |pairs| ==> pairs[i].0 in TableOf(pairs)
    decreases |pairs|
  {
    if pairs != [] {
      var init := pairs[..|pairs| - 1];
      TableOfPairs(init);
      assert forall i :: 0 <= i < |init| ==> init[i] == pairs[i];
    }
  }

  /** The keyword table of `Scanner::new`. */
  const Keywords: map<string, TokenType> := TableOf(KeywordPairs)

  /** The kind `identifier` gives a word: its keyword kind, or IDENTIFIER. */
  function WordKind(text: string): (kind: TokenType)
    ensures kind != Eof
  {
    TableOfPairs(KeywordPairs);
    if text in Keywords then Keywords[text] else Identifier
  }

  // ---------------------------------------------------------------------------
  // Where each scanning loop stops.

  /** End of the run of digits starting at `i` (the loops over `peek().is_ascii_digit()`). */
  function DigitsEnd(src: string, i: nat): (r: nat)
    requires i <= |src|
    ensures i <= r <= |src|
    ensures r < |src| ==> !IsDigit(src[r])
    decreases |src| - i
  {
    if i < |src| && IsDigit(src[i]) then DigitsEnd(src, i + 1) else i
  }

  /** End of the run of alphanumeric characters starting at `i` (the identifier loop). */
  function WordEnd(src: string, i: nat): (r: nat)
    requires i <= |src|
    ensures i <= r <= |src|
    ensures r < |src| ==> !IsAlphanumeric(src[r])
    decreases |src| - i
  {
    if i < |src| && IsAlphanumeric(src[i]) then WordEnd(src, i + 1) else i
  }

  /** Position of the first `stop` character at or after `i`, or the end of the source:
      where a `//` comment stops (at the line break, which is left for the scanner) and
      where a string body stops (at the closing quote). */
  function FindFrom(src: string, i: nat, stop: char): (r: nat)
    requires i <= |src|
    ensures i <= r <= |src|
    ensures r < |src| ==> src[r] == stop
    decreases |src| - i
  {
    if i < |src| && src[i] != stop then FindFrom(src, i + 1, stop) else i
  }

  /** A number lexeme: digits, optionally one `.` with digits on both sides. */
  ghost predicate IsNumberText(s: string) {
    |s| > 0 && IsDigit(s[0]) && IsDigit(s[|s| - 1])
    && (forall k :: 0 <= k < |s| ==> IsDigit(s[k]) || s[k] == '.')
    && (forall j, k :: 0 <= j < k < |s| && s[j] == '.' ==> s[k] != '.')
  }

  /** Where `number` stops for a number starting at `start`: the maximal run of digits,
      extended by a `.` only when a digit follows that `.`. */
  function NumberEnd(src: string, start: nat): (r: nat)
    requires start < |src| && IsDigit(src[start])
    ensures start < r <= |src|
  {
    var whole := DigitsEnd(src, start + 1);
    if whole + 1 < |src| && src[whole] == '.' && IsDigit(src[whole + 1]) then DigitsEnd(src, whole + 1) else whole
  }

  // ---------------------------------------------------------------------------
  // One call of `scan_token`.

  /** What one call of `scan_token` does at `pos`: emit a token ending at `next`, skip
      to `next` without a token, report an unexpected character, or run off the end
      of the source inside a string. */
  datatype Step =
    | Emit(kind: TokenType, literal: Option<Literal>, next: nat)
    | Skip(next: nat)
    | Unexpected
    | Unterminated

  /** `matches(expected)` right after the first character at `pos` was consumed. */
  predicate Follows(src: string, pos: nat, expected: char) {
    pos + 1 < |src| && src[pos + 1] == expected
  }

  /** The characters that are a token on their own. */
  function SingleKind(c: char): Option<TokenType> {
    match c
    case '(' => Some(LeftParen)
    case ')' => Some(RightParen)
    case '{' => Some(LeftBrace)
    case '}' => Some(RightBrace)
    case ',' => Some(Comma)
    case '.' => Some(Dot)
    case '-' => Some(Minus)
    case '+' => Some(Plus)
    case ';' => Some(Semicolon)
    case '*' => Some(Star)
    case _ => None
  }

  /** The four operators that become a two-character operator when `=` follows. */
  function WithEqual(src: string, pos: nat, one: TokenType, two: TokenType): Step {
    if Follows(src, pos, '=') then Emit(two, None, pos + 2) else Emit(one, None, pos + 1)
  }

  function ScanStep(src: string, pos: nat): (s: Step)
    requires pos < |src|
    ensures s.Emit? || s.Skip? ==> pos < s.next <= |src|
    ensures s.Emit? ==> s.kind != Eof
  {
    match src[pos]
    case '(' => Emit(LeftParen, None, pos + 1)
    case ')' => Emit(RightParen, None, pos + 1)
    case '{' => Emit(LeftBrace, None, pos + 1)
    case '}' => Emit(RightBrace, None, pos + 1)
    case ',' => Emit(Comma, None, pos + 1)
    case '.' => Emit(Dot, None, pos + 1)
    case '-' => Emit(Minus, None, pos + 1)
    case '+' => Emit(Plus, None, pos + 1)
    case ';' => Emit(Semicolon, None, pos + 1)
    case '*' => Emit(Star, None, pos + 1)
    case '!' => WithEqual(src, pos, Bang, BangEqual)
    case '=' => WithEqual(src, pos, Equal, EqualEqual)
    case '<' => WithEqual(src, pos, Less, LessEqual)
    case '>' => WithEqual(src, pos, Greater, GreaterEqual)
    case '/' => SlashStep(src, pos)
    case ' ' => Skip(pos + 1)
    case '\r' => Skip(pos + 1)
    case '\t' => Skip(pos + 1)
    case '\n' => Skip(pos + 1)
    case '"' => StringStep(src, pos)
    case c =>
      if IsDigit(c) then NumberStep(src, pos)
      else if IsAlpha(c) then WordStep(src, pos)
      else Unexpected
  }

  /** A `/`: a comment running to the end of the line when a second `/` follows, which
      is skipped, or the SLASH operator. */
  function SlashStep(src: string, pos: nat): (s: Step)
    requires pos < |src|
    ensures s.Emit? || s.Skip?
    ensures pos < s.next <= |src|
  {
    if Follows(src, pos, '/') then Skip(FindFrom(src, pos + 2, '\n')) else Emit(Slash, None, pos + 1)
  }

  /** A string literal opened at `pos`: its text up to the closing quote, or the
      failure when no quote closes it. */
  function StringStep(src: string, pos: nat): (s: Step)
    requires pos < |src|
    ensures s.Emit? || s.Unterminated?
    ensures s.Emit? ==> pos < s.next <= |src| && s.kind == TokenType.String
  {
    var close := FindFrom(src, pos + 1, '"');
    if close == |src| then Unterminated
    else Emit(TokenType.String, Some(Str(src[pos + 1..close])), close + 1)
  }

  /** A number literal whose first digit is at `pos`. */
  function NumberStep(src: string, pos: nat): (s: Step)
    requires pos < |src| && IsDigit(src[pos])
    ensures s.Emit? && pos < s.next <= |src| && s.kind == TokenType.Number
  {
    var e := NumberEnd(src, pos);
    Emit(TokenType.Number, Some(Literal.Number(NumberValue(src[pos..e]))), e)
  }

  /** An identifier or keyword whose first character is at `pos`. */
  function WordStep(src: string, pos: nat): (s: Step)
    requires pos < |src| && IsAlpha(src[pos])
    ensures s.Emit? && pos < s.next <= |src| && s.kind != Eof
  {
    var e := WordEnd(src, pos + 1);
    Emit(WordKind(src[pos..e]), None, e)
  }

  // ---------------------------------------------------------------------------
  // The whole scan.

  /** A token together with the source span `[start, end)` it was cut from. */
  datatype Located = Located(token: Token, start: nat, end: nat)

  /** The result of `scan_tokens`: the tokens and the diagnostics, or, when a string is
      left open, only the diagnostics reported before the scanner read past the end. */
  datatype LexOutcome =
    | Complete(located: seq<Located>, reports: seq<Report>)
    | Aborted(reports: seq<Report>)

  function EofToken(line: nat): Token {
    Token(Eof, "", None, line)
  }

  /** The fields `scan_tokens` works on: the tokens so far with their spans, the
      diagnostics so far, `current`, `line`, and whether scanning can go on. */
  datatype ScanState = ScanState(located: seq<Located>, reports: seq<Report>, pos: nat, line: nat, running: bool)

  const Initial: ScanState := ScanState([], [], 0, 1, true)

  /** The state after one call of `scan_token` at `st.pos`. Every character consumed
      that is a line break adds one to the line. An open string stops the scan with
      the cursor at the end, after its diagnostic. */
  function StepFrom(src: string, st: ScanState): (st': ScanState)
    requires st.running && st.pos < |src|
    ensures st.pos < st'.pos <= |src|
  {
    Apply(src, st, ScanStep(src, st.pos))
  }

  /** The state after `step`, taken at `st.pos`. */
  function Apply(src: string, st: ScanState, step: Step): (st': ScanState)
    requires st.running && st.pos < |src|
    requires step.Emit? || step.Skip? ==> st.pos < step.next <= |src|
    ensures st.pos < st'.pos <= |src|
  {
    var pos := st.pos;
    match step
    case Emit(kind, literal, next) =>
      var line := st.line + Newlines(src, pos, next);
      ScanState(st.located + [Located(Token(kind, src[pos..next], literal, line), pos, next)], st.reports, next, line, true)
    case Skip(next) =>
      ScanState(st.located, st.reports, next, st.line + Newlines(src, pos, next), true)
    case Unexpected =>
      ScanState(st.located, st.reports + [LexError(st.line, "Unexpected character.")], pos + 1, st.line, true)
    case Unterminated =>
      var line := st.line + Newlines(src, pos, |src|);
      ScanState(st.located, st.reports + [LexError(line, "Unterminated string.")], |src|, line, false)
  }

  /** `scan_tokens` from state `st`: steps until the end of the source, then adds the
      end-of-input token on the last line. */
  function Run(src: string, st: ScanState): (r: LexOutcome)
    requires st.pos <= |src|
    ensures st.reports <= r.reports
    ensures r.Complete? ==> st.running && st.located < r.located
                            && r.located[|r.located| - 1].token.kind == Eof
                            && r.located[|r.located| - 1].start == r.located[|r.located| - 1].end == |src|
    ensures r.Aborted? && st.running ==> |st.reports| < |r.reports|
    decreases |src| - st.pos
  {
    if !st.running then Aborted(st.reports)
    else if st.pos == |src| then Complete(st.located + [Located(EofToken(st.line), st.pos, st.pos)], st.reports)
    else
      StepExtends(src, st);
      Run(src, StepFrom(src, st))
  }

  /** A step only appends: the tokens and reports found so far stay in front, and an
      aborting step adds its report. */
  lemma StepExtends(src: string, st: ScanState)
    requires st.running && st.pos < |src|
    ensures var st' := StepFrom(src, st);
      st.located <= st'.located && st.reports <= st'.reports
      && (!st'.running ==> |st.reports| < |st'.reports|)
  {
  }

  /** `Scanner::new(source).scan_tokens()`: a list closed by the end-of-input token at
      the end of the source, or an abort that has reported something. */
  function Lex(src: string): (r: LexOutcome)
    ensures r.Complete? ==> |r.located| > 0 && r.located[|r.located| - 1].token.kind == Eof
                            && r.located[|r.located| - 1].start == |src|
    ensures r.Aborted? ==> |r.reports| > 0
  {
    Run(src, Initial)
  }

  function TokensOf(items: seq<Located>): (ts: seq<Token>)
    ensures |ts| == |items|
    ensures forall i :: 0 <= i < |items| ==> ts[i] == items[i].token
  {
    seq(|items|, i requires 0 <= i < |items| => items[i].token)
  }

  // ---------------------------------------------------------------------------
  // Helper facts used by the scanner's proofs.

  /** A number literal never spans a line break. */
  lemma NumberOnOneLine(src: string, pos: nat)
    requires pos < |src| && IsDigit(src[pos])
    ensures Newlines(src, pos, NumberEnd(src, pos)) == 0
  {
    var whole := DigitsEnd(src, pos + 1);
    DigitsRun(src, pos + 1);
    NoNewlines(src, pos, whole);
    var e := NumberEnd(src, pos);
    if e != whole {
      DigitsRun(src, whole + 1);
      NoNewlines(src, whole + 1, e);
      NewlinesSplit(src, pos, whole + 1, e);
    }
  }

  // What each scanning loop passes over.

  lemma {:induction false} DigitsRun(src: string, i: nat)
    requires i <= |src|
    ensures forall k :: i <= k < DigitsEnd(src, i) ==> IsDigit(src[k])
    decreases |src| - i
  {
    if i < |src| && IsDigit(src[i]) {
      DigitsRun(src, i + 1);
    }
  }

  lemma {:induction false} WordRun(src: string, i: nat)
    requires i <= |src|
    ensures forall k :: i <= k < WordEnd(src, i) ==> IsAlphanumeric(src[k])
    decreases |src| - i
  {
    if i < |src| && IsAlphanumeric(src[i]) {
      WordRun(src, i + 1);
    }
  }

  lemma {:induction false} FindRun(src: string, i: nat, stop: char)
    requires i <= |src|
    ensures forall k :: i <= k < FindFrom(src, i, stop) ==> src[k] != stop
    decreases |src| - i
  {
    if i < |src| && src[i] != stop {
      FindRun(src, i + 1, stop);
    }
  }

  lemma NewlinesOne(src: string, i: nat)
    requires i < |src|
    ensures Newlines(src, i, i + 1) == if src[i] == '\n' then 1 else 0
  {
  }

  // Which rule a step at `pos` follows, by the character there.

  lemma StepIsOperator(src: string, pos: nat, one: TokenType, two: TokenType)
    requires pos < |src|
    requires || (src[pos] == '!' && one == Bang && two == BangEqual)
             || (src[pos] == '=' && one == Equal && two == EqualEqual)
             || (src[pos] == '<' && one == Less && two == LessEqual)
             || (src[pos] == '>' && one == Greater && two == GreaterEqual)
    ensures ScanStep(src, pos) == WithEqual(src, pos, one, two)
  {
  }

  lemma StepIsSingle(src: string, pos: nat, kind: TokenType)
    requires pos < |src| && SingleKind(src[pos]) == Some(kind)
    ensures ScanStep(src, pos) == Emit(kind, None, pos + 1)
  {
  }

  lemma StepIsSlash(src: string, pos: nat)
    requires pos < |src| && src[pos] == '/'
    ensures ScanStep(src, pos) == SlashStep(src, pos)
  {
  }

  lemma StepIsString(src: string, pos: nat)
    requires pos < |src| && src[pos] == '"'
    ensures ScanStep(src, pos) == StringStep(src, pos)
  {
  }

  lemma StepIsNumber(src: string, pos: nat)
    requires pos < |src| && IsDigit(src[pos])
    ensures ScanStep(src, pos) == NumberStep(src, pos)
  {
  }

  lemma StepIsWord(src: string, pos: nat)
    requires pos < |src| && IsAlpha(src[pos])
    ensures ScanStep(src, pos) == WordStep(src, pos)
  {
  }

  lemma {:induction false} NoNewlines(src: string, i: nat, j: nat)
    requires i <= j <= |src|
    requires forall k :: i <= k < j ==> src[k] != '\n'
    ensures Newlines(src, i, j) == 0
    decreases j
  {
    if i < j {
      NoNewlines(src, i, j - 1);
    }
  }

  lemma {:induction false} NewlinesSkipFirst(src: string, i: nat, j: nat)
    requires i < j <= |src| && src[i] != '\n'
    ensures Newlines(src, i, j) == Newlines(src, i + 1, j)
    decreases j
  {
    if j > i + 1 {
      NewlinesSkipFirst(src, i, j - 1);
    }
  }

  lemma {:induction false} NewlinesSplit(src: string, i: nat, j: nat, k: nat)
    requires i <= j <= k <= |src|
    ensures Newlines(src, i, k) == Newlines(src, i, j) + Newlines(src, j, k)
    decreases k
  {
    if j < k {
      NewlinesSplit(src, i, j, k - 1);
    }
  }
}
