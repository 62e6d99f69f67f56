/** What a whole scan produces, proved from the one-step rules of module Lexer: the
    tokens are cut from the source in order, each is what `scan_token` emits at its
    start, each carries the line it ends on, and exactly one end-of-input token
    closes the list. */
module LexerFacts {
  import opened Wrappers
  import opened Tokens
  import opened Lexer
  import opened LexerGaps

  /** A token of the list other than the end-of-input token: its lexeme is the source
      slice it spans, it is what one step at its start emits, and its line is one plus
      the line breaks before its end. */
  ghost predicate Cut(src: string, item: Located)
  {
    item.start < item.end <= |src|
    && item.token.lexeme == src[item.start..item.end]
    && item.token.kind != Eof
    && item.token.line == 1 + Newlines(src, 0, item.end)
    && ScanStep(src, item.start) == Emit(item.token.kind, item.token.literal, item.end)
  }

  /** Spans that do not overlap and come in source order. */
  ghost predicate InOrder(items: seq<Located>)
  {
    forall i, j :: 0 <= i < j < |items| ==> items[i].end <= items[j].start
  }

  /** The diagnostics a scan can report: unexpected characters, and at most one
      unterminated string, which is the last report and stops the scan. */
  ghost predicate LexReports(reports: seq<Report>, running: bool)
  {
    if running then
      forall r :: r in reports ==> r.context == "" && r.message == "Unexpected character."
    else
      |reports| > 0 && reports[|reports| - 1].context == "" && reports[|reports| - 1].message == "Unterminated string."
      && forall i :: 0 <= i < |reports| - 1 ==> reports[i].context == "" && reports[i].message == "Unexpected character."
  }

  /** The invariant of the scan loop. */
  ghost predicate Scanned(src: string, st: ScanState)
  {
    st.pos <= |src|
    && st.line == 1 + Newlines(src, 0, st.pos)
    && (forall i :: 0 <= i < |st.located| ==> Cut(src, st.located[i]) && st.located[i].end <= st.pos)
    && InOrder(st.located)
    && LexReports(st.reports, st.running)
    && (!st.running ==> st.pos == |src|
                        && st.reports[|st.reports| - 1].line == st.line)
  }

  /** The list `scan_tokens` returns: tokens cut in order from the source, then the
      end-of-input token on the last line, spanning nothing at the end. Nothing is
      dropped: the gaps before, between and after the tokens hold only what the
      scanner skips or reports. */
  ghost predicate Tokenized(src: string, items: seq<Located>)
  {
    |items| > 0
    && items[|items| - 1] == Located(EofToken(1 + Newlines(src, 0, |src|)), |src|, |src|)
    && (forall i :: 0 <= i < |items| - 1 ==> Cut(src, items[i]))
    && InOrder(items)
    && NoneDropped(src, items)
  }

  lemma InitialScanned(src: string)
    ensures Scanned(src, Initial)
  {
  }

  /** One step keeps the invariant. */
  lemma StepScanned(src: string, st: ScanState)
    requires Scanned(src, st) && st.running && st.pos < |src|
    ensures Scanned(src, StepFrom(src, st))
  {
    var pos := st.pos;
    var st' := StepFrom(src, st);
    match ScanStep(src, pos)
    case Emit(kind, literal, next) =>
      NewlinesSplit(src, 0, pos, next);
      var item := Located(Token(kind, src[pos..next], literal, st'.line), pos, next);
      assert st'.located == st.located + [item];
      assert Cut(src, item);
      assert forall i :: 0 <= i < |st'.located| ==> Cut(src, st'.located[i]) && st'.located[i].end <= st'.pos by {
        forall i | 0 <= i < |st'.located|
          ensures Cut(src, st'.located[i]) && st'.located[i].end <= st'.pos
        {
          if i < |st.located| {
            assert st'.located[i] == st.located[i];
          }
        }
      }
      assert InOrder(st'.located) by {
        forall i, j | 0 <= i < j < |st'.located|
          ensures st'.located[i].end <= st'.located[j].start
        {
          if j < |st.located| {
            assert st'.located[i] == st.located[i] && st'.located[j] == st.located[j];
          } else {
            assert st'.located[i] == st.located[i];
          }
        }
      }
    case Skip(next) =>
      NewlinesSplit(src, 0, pos, next);
    case Unexpected =>
      assert src[pos] != '\n';
      NewlinesOne(src, pos);
      NewlinesSplit(src, 0, pos, pos + 1);
      assert forall r :: r in st'.reports ==> r in st.reports || r == LexError(st.line, "Unexpected character.");
    case Unterminated =>
      NewlinesSplit(src, 0, pos, |src|);
      assert st'.reports[..|st.reports|] == st.reports;
      assert forall i :: 0 <= i < |st'.reports| - 1 ==> st'.reports[i] in st.reports;
  }

  /** At the end of the source, appending the end-of-input token gives the list. */
  lemma FinishTokenized(src: string, st: ScanState)
    requires Scanned(src, st) && Traced(src, st) && st.running && st.pos == |src|
    ensures Tokenized(src, st.located + [Located(EofToken(st.line), st.pos, st.pos)])
  {
    var items := st.located + [Located(EofToken(st.line), st.pos, st.pos)];
    GaplessFinish(src, st.located, Located(EofToken(st.line), st.pos, st.pos));
    assert forall i :: 0 <= i < |items| - 1 ==> items[i] == st.located[i];
    assert InOrder(items) by {
      forall i, j | 0 <= i < j < |items|
        ensures items[i].end <= items[j].start
      {
        assert items[i] == st.located[i];
      }
    }
  }

  /** What a scan ends with: a tokenization with its "Unexpected character." reports,
      or the reports of an aborted scan, the last one on the last line. */
  ghost predicate Ended(src: string, r: LexOutcome)
  {
    match r
    case Complete(items, reports) =>
      Tokenized(src, items) && LexReports(reports, true) && ReportsPlaced(src, reports, true)
    case Aborted(reports) =>
      LexReports(reports, false) && ReportsPlaced(src, reports, false)
      && reports[|reports| - 1].line == 1 + Newlines(src, 0, |src|)
  }

  /** The whole scan from a state satisfying the invariant. */
  lemma {:induction false} RunScanned(src: string, st: ScanState)
    requires Scanned(src, st) && Traced(src, st)
    ensures Ended(src, Run(src, st))
    decreases |src| - st.pos
  {
    if !st.running {
    } else if st.pos == |src| {
      FinishTokenized(src, st);
    } else {
      StepScanned(src, st);
      StepTraced(src, st);
      RunScanned(src, StepFrom(src, st));
    }
  }

  /** `scan_tokens` on a whole source. */
  lemma LexScanned(src: string)
    ensures Lex(src).Complete? ==> Tokenized(src, Lex(src).located) && LexReports(Lex(src).reports, true)
                                   && ReportsPlaced(src, Lex(src).reports, true)
    ensures Lex(src).Aborted? ==> LexReports(Lex(src).reports, false) && ReportsPlaced(src, Lex(src).reports, false)
                                  && Lex(src).reports[|Lex(src).reports| - 1] == LexError(1 + Newlines(src, 0, |src|), "Unterminated string.")
  {
    InitialScanned(src);
    GaplessStart(src);
    RunScanned(src, Initial);
  }

  /** The list of a complete scan is a tokenization. */
  lemma LexTokenized(src: string)
    requires Lex(src).Complete?
    ensures Tokenized(src, Lex(src).located)
  {
    LexScanned(src);
  }

  lemma NewlinesMonotone(src: string, i: nat, j: nat)
    requires i <= j <= |src|
    ensures Newlines(src, 0, i) <= Newlines(src, 0, j)
  {
    NewlinesSplit(src, 0, i, j);
  }

  /** The tokens of a complete scan: one end-of-input token, last, with an empty
      lexeme, on the line after the last line break; no other end-of-input token; and
      line numbers that never decrease along the list. */
  lemma TokenList(src: string)
    requires Lex(src).Complete?
    ensures var ts := TokensOf(Lex(src).located);
      |ts| > 0 && ts[|ts| - 1] == Token(Eof, "", None, 1 + Newlines(src, 0, |src|))
      && (forall i :: 0 <= i < |ts| ==> (ts[i].kind == Eof <==> i == |ts| - 1))
      && (forall i, j :: 0 <= i <= j < |ts| ==> ts[i].line <= ts[j].line)
  {
    LexScanned(src);
    LinesInOrder(src);
  }

  /** Line numbers never decrease along the tokens of a complete scan. */
  lemma LinesInOrder(src: string)
    requires Lex(src).Complete?
    ensures var ts := TokensOf(Lex(src).located);
      forall i, j :: 0 <= i <= j < |ts| ==> ts[i].line <= ts[j].line
  {
    LexTokenized(src);
    var items := Lex(src).located;
    var ts := TokensOf(items);
    forall i, j | 0 <= i < j < |ts|
      ensures ts[i].line <= ts[j].line
    {
      var end := if j == |ts| - 1 then |src| else items[j].end;
      assert Cut(src, items[i]) && items[i].end <= items[j].start <= end;
      assert ts[j].line == 1 + Newlines(src, 0, end);
      NewlinesMonotone(src, items[i].end, end);
    }
  }
}
