/** What one call of `scan_token` does with each kind of character
    (jlox/src/scanner.rs:72-220), stated against independent descriptions: the fixed
    spelling of each punctuation mark, operator and keyword, the shape of a number
    literal, and the longest-match rules for operators, numbers and words. */
module LexerRules {
  import opened Wrappers
  import opened Tokens
  import opened Lexer

  /** The text of the kinds whose lexeme is always the same. */
  function Spelling(kind: TokenType): Option<string>
  {
    match kind
    case LeftParen => Some("(")
    case RightParen => Some(")")
    case LeftBrace => Some("{")
    case RightBrace => Some("}")
    case Comma => Some(",")
    case Dot => Some(".")
    case Minus => Some("-")
    case Plus => Some("+")
    case Semicolon => Some(";")
    case Slash => Some("/")
    case Star => Some("*")
    case Bang => Some("!")
    case BangEqual => Some("!=")
    case Equal => Some("=")
    case EqualEqual => Some("==")
    case Greater => Some(">")
    case GreaterEqual => Some(">=")
    case Less => Some("<")
    case LessEqual => Some("<=")
    case And => Some("and")
    case Class => Some("class")
    case Else => Some("else")
    case False => Some("false")
    case Fun => Some("fun")
    case For => Some("for")
    case If => Some("if")
    case Nil => Some("nil")
    case Or => Some("or")
    case Print => Some("print")
    case Return => Some("return")
    case Super => Some("super")
    case This => Some("this")
    case True => Some("true")
    case Var => Some("var")
    case While => Some("while")
    case _ => None
  }

  /** Each pair the keyword table is built from is a keyword with the kind spelled
      that way (in two halves, to keep each proof small). */
  lemma PairsSpelledFirst()
    ensures forall i :: 0 <= i < 8 ==> Spelling(KeywordPairs[i].1) == Some(KeywordPairs[i].0)
  {
  }

  lemma PairsSpelledLast()
    ensures forall i :: 8 <= i < |KeywordPairs| ==> Spelling(KeywordPairs[i].1) == Some(KeywordPairs[i].0)
  {
  }

  /** The keyword table maps each keyword to the kind spelled that way. */
  lemma KeywordsSpelled()
    ensures forall text :: text in Keywords ==> Spelling(Keywords[text]) == Some(text)
  {
    TableOfPairs(KeywordPairs);
    PairsSpelledFirst();
    PairsSpelledLast();
  }

  /** Every kind spelled with a letter is in the keyword table, under its spelling. */
  lemma KeywordsComplete(kind: TokenType)
    requires Spelling(kind).Some? && IsAlpha(Spelling(kind).value[0])
    ensures Spelling(kind).value in Keywords
  {
    TableOfPairs(KeywordPairs);
    match kind
    case And => assert KeywordPairs[0].1 == And;
    case Class => assert KeywordPairs[1].1 == Class;
    case Else => assert KeywordPairs[2].1 == Else;
    case False => assert KeywordPairs[3].1 == False;
    case For => assert KeywordPairs[4].1 == For;
    case Fun => assert KeywordPairs[5].1 == Fun;
    case If => assert KeywordPairs[6].1 == If;
    case Nil => assert KeywordPairs[7].1 == Nil;
    case Or => assert KeywordPairs[8].1 == Or;
    case Print => assert KeywordPairs[9].1 == Print;
    case Return => assert KeywordPairs[10].1 == Return;
    case Super => assert KeywordPairs[11].1 == Super;
    case This => assert KeywordPairs[12].1 == This;
    case True => assert KeywordPairs[13].1 == True;
    case Var => assert KeywordPairs[14].1 == Var;
    case While => assert KeywordPairs[15].1 == While;
    case _ =>
  }

  /** Every token one step emits with a fixed-spelling kind has exactly that spelling
      as its lexeme, and carries no payload. */
  lemma SpelledAsKind(src: string, pos: nat)
    requires pos < |src| && ScanStep(src, pos).Emit?
    requires Spelling(ScanStep(src, pos).kind).Some?
    ensures src[pos..ScanStep(src, pos).next] == Spelling(ScanStep(src, pos).kind).value
    ensures ScanStep(src, pos).literal == None
  {
    var step := ScanStep(src, pos);
    var c := src[pos];
    if IsAlpha(c) {
      var text := src[pos..step.next];
      StepIsWord(src, pos);
      KeywordsSpelled();
      assert text in Keywords;
    } else if c == '!' || c == '=' || c == '<' || c == '>' {
      if Follows(src, pos, '=') {
        assert src[pos..pos + 2] == [c, '='];
      } else {
        assert src[pos..pos + 1] == [c];
      }
    } else {
      assert src[pos..pos + 1] == [c];
    }
  }

  /** `!`, `=`, `<` and `>` take a following `=` whenever there is one: the step emits
      the two-character operator, and the one-character operator only otherwise. */
  lemma LongestOperator(src: string, pos: nat)
    requires pos < |src| && src[pos] in "!=<>"
    ensures ScanStep(src, pos).Emit? && ScanStep(src, pos).literal == None
    ensures ScanStep(src, pos).next == if Follows(src, pos, '=') then pos + 2 else pos + 1
    ensures Spelling(ScanStep(src, pos).kind) == Some(src[pos..ScanStep(src, pos).next])
  {
    var c := src[pos];
    if Follows(src, pos, '=') {
      assert src[pos..pos + 2] == [c, '='];
    } else {
      assert src[pos..pos + 1] == [c];
    }
  }

  /** Blanks and line breaks are skipped one character at a time. */
  lemma WhitespaceSkipped(src: string, pos: nat)
    requires pos < |src| && src[pos] in " \r\t\n"
    ensures ScanStep(src, pos) == Skip(pos + 1)
  {
  }

  /** `//` starts a comment that is skipped up to, and not including, the next line
      break, or to the end of the source. */
  lemma CommentSkipped(src: string, pos: nat)
    requires pos + 1 < |src| && src[pos] == '/' && src[pos + 1] == '/'
    ensures ScanStep(src, pos).Skip?
    ensures var next := ScanStep(src, pos).next;
      pos + 2 <= next <= |src|
      && (forall k :: pos <= k < next ==> src[k] != '\n')
      && (next == |src| || src[next] == '\n')
  {
    StepIsSlash(src, pos);
    FindRun(src, pos + 2, '\n');
  }

  /** The text of a number literal: digits, then optionally a `.` with digits after it. */
  lemma NumberShape(src: string, pos: nat)
    requires pos < |src| && IsDigit(src[pos])
    ensures IsNumberText(src[pos..NumberEnd(src, pos)])
  {
    var whole := DigitsEnd(src, pos + 1);
    var e := NumberEnd(src, pos);
    var text := src[pos..e];
    DigitsRun(src, pos + 1);
    if e != whole {
      DigitsRun(src, whole + 1);
    }
    forall k | 0 <= k < |text|
      ensures IsDigit(text[k]) || text[k] == '.'
      ensures text[k] == '.' ==> pos + k == whole
    {
      if pos + k > whole {
        assert e != whole;
      }
    }
  }

  /** A number literal is the longest one available: the character after it is no
      digit, and is a `.` only when the number already has its fraction or no digit
      follows that `.`. So `123.` is the number `123` followed by a DOT. */
  lemma NumberLongest(src: string, pos: nat)
    requires pos < |src| && IsDigit(src[pos])
    ensures var e := NumberEnd(src, pos);
      e == |src|
      || (!IsDigit(src[e])
          && (src[e] == '.' && e + 1 < |src| && IsDigit(src[e + 1]) ==> '.' in src[pos..e]))
  {
    var whole := DigitsEnd(src, pos + 1);
    var e := NumberEnd(src, pos);
    if e != whole {
      assert src[pos..e][whole - pos] == '.';
    }
  }

  /** A digit starts a NUMBER token whose payload is its own lexeme, which has the shape
      of a number literal and is the longest available. */
  lemma NumberToken(src: string, pos: nat)
    requires pos < |src| && IsDigit(src[pos])
    ensures ScanStep(src, pos).Emit? && ScanStep(src, pos).kind == TokenType.Number
    ensures var next := ScanStep(src, pos).next;
      next == NumberEnd(src, pos)
      && ScanStep(src, pos).literal == Some(Literal.Number(NumberValue(src[pos..next])))
      && IsNumberText(src[pos..next])
  {
    NumberShape(src, pos);
  }

  /** A letter or `_` starts a word that runs over letters and digits (an underscore
      does not continue it); the word is a keyword exactly when the table has it, and
      then its kind is the one spelled that way. */
  lemma WordToken(src: string, pos: nat)
    requires pos < |src| && IsAlpha(src[pos])
    ensures ScanStep(src, pos).Emit? && ScanStep(src, pos).literal == None
    ensures var next := ScanStep(src, pos).next;
      var text := src[pos..next];
      (forall k :: pos < k < next ==> IsAlphanumeric(src[k]))
      && (next == |src| || !IsAlphanumeric(src[next]))
      && (ScanStep(src, pos).kind == Identifier <==> text !in Keywords)
      && (ScanStep(src, pos).kind != Identifier ==> Spelling(ScanStep(src, pos).kind) == Some(text))
  {
    StepIsWord(src, pos);
    WordRun(src, pos + 1);
    KeywordsSpelled();
  }

  /** A double quote starts a string literal that runs to the next double quote, line
      breaks included; its payload is the text between the quotes. Without a closing
      quote the step fails. */
  lemma StringToken(src: string, pos: nat)
    requires pos < |src| && src[pos] == '"'
    ensures ScanStep(src, pos).Emit? || ScanStep(src, pos).Unterminated?
    ensures ScanStep(src, pos).Unterminated? <==> forall k :: pos < k < |src| ==> src[k] != '"'
    ensures ScanStep(src, pos).Emit? ==>
      var next := ScanStep(src, pos).next;
      ScanStep(src, pos).kind == TokenType.String
      && pos + 2 <= next && src[next - 1] == '"'
      && ScanStep(src, pos).literal == Some(Str(src[pos + 1..next - 1]))
      && (forall k :: pos < k < next - 1 ==> src[k] != '"')
  {
    StepIsString(src, pos);
    FindRun(src, pos + 1, '"');
  }

  /** The characters that draw "Unexpected character.": those no rule of `scan_token`
      takes. */
  lemma UnexpectedCharacter(src: string, pos: nat)
    requires pos < |src|
    ensures ScanStep(src, pos) == Unexpected
        <==> src[pos] !in "(){},.-+;*!=<>/ \r\t\n\"" && !IsDigit(src[pos]) && !IsAlpha(src[pos])
  {
  }
}
