/** What lies between the tokens of a scan: stretches that `scan_token` passes without
    emitting anything, and the diagnostics it reports there. With these, a scan is
    shown to drop no token: every character of the source belongs to a token or to
    such a stretch. */
module LexerGaps {
  import opened Tokens
  import opened Lexer

  /** Where the gap before the `i`-th token of a list starts: at the start of the
      source, or where the token before it ends. */
  function GapStart(items: seq<Located>, i: nat): nat
    requires i <= |items|
  {
    if i == 0 then 0 else items[i - 1].end
  }

  /** Steps of `scan_token` from `p` reach `q` emitting nothing: every character in
      between is whitespace, part of a comment, or an unexpected character. */
  ghost predicate Quiet(src: string, p: nat, q: nat)
    decreases q - p
  {
    p == q
    || (p < q && p < |src|
        && match ScanStep(src, p)
           case Skip(next) => next <= q && Quiet(src, next, q)
           case Unexpected => Quiet(src, p + 1, q)
           case _ => false)
  }

  /** The `i`-th token of the list is preceded by a quiet gap. */
  ghost predicate GapBefore(src: string, items: seq<Located>, i: nat)
    requires i < |items|
  {
    Quiet(src, GapStart(items, i), items[i].start)
  }

  /** Every token of the list is preceded by a quiet gap. */
  ghost predicate NoneDropped(src: string, items: seq<Located>)
  {
    forall i :: 0 <= i < |items| ==> GapBefore(src, items, i)
  }

  /** The gaps of a scan in progress: every token found so far is preceded by a quiet
      gap, and so is the cursor while the scan goes on. */
  ghost predicate Gapless(src: string, items: seq<Located>, pos: nat, running: bool)
  {
    NoneDropped(src, items) && (running ==> Quiet(src, GapStart(items, |items|), pos))
  }

  /** A report of "Unexpected character." on the line of a character that no rule of
      `scan_token` takes. */
  ghost predicate UnexpectedAt(src: string, r: Report)
  {
    exists p: nat :: p < |src| && ScanStep(src, p) == Unexpected && r.line == 1 + Newlines(src, 0, p)
  }

  /** Every report carries the line of a character that no rule takes, except the
      last report of an aborted scan. */
  ghost predicate ReportsPlaced(src: string, reports: seq<Report>, running: bool)
  {
    forall i :: 0 <= i < |reports| && (running || i < |reports| - 1) ==> PlacedReport(src, reports, i)
  }

  /** The `i`-th report carries the line of a character that no rule takes. */
  ghost predicate PlacedReport(src: string, reports: seq<Report>, i: nat)
    requires i < |reports|
  {
    UnexpectedAt(src, reports[i])
  }

  /** A gap grows by one more step that emits nothing. */
  lemma {:induction false} QuietExtend(src: string, p: nat, q: nat, r: nat)
    requires p <= q < |src| && Quiet(src, p, q)
    requires ScanStep(src, q) == Skip(r) || (ScanStep(src, q) == Unexpected && r == q + 1)
    ensures Quiet(src, p, r)
    decreases q - p
  {
    if p < q {
      match ScanStep(src, p)
      case Skip(next) =>
        QuietExtend(src, next, q, r);
      case Unexpected =>
        QuietExtend(src, p + 1, q, r);
    }
  }

  lemma GaplessStart(src: string)
    ensures Gapless(src, [], 0, true)
  {
  }

  /** A step that emits nothing extends the gap before the cursor. */
  lemma GaplessQuiet(src: string, items: seq<Located>, pos: nat, next: nat)
    requires Gapless(src, items, pos, true) && pos < |src|
    requires ScanStep(src, pos) == Skip(next) || (ScanStep(src, pos) == Unexpected && next == pos + 1)
    ensures Gapless(src, items, next, true)
  {
    QuietExtend(src, GapStart(items, |items|), pos, next);
  }

  /** A token placed after a quiet gap keeps the list free of dropped tokens. */
  lemma NoneDroppedAppend(src: string, items: seq<Located>, item: Located)
    requires NoneDropped(src, items) && Quiet(src, GapStart(items, |items|), item.start)
    ensures NoneDropped(src, items + [item])
  {
    var items' := items + [item];
    forall i | 0 <= i < |items'|
      ensures GapBefore(src, items', i)
    {
      if i < |items| {
        assert items'[i] == items[i] && GapStart(items', i) == GapStart(items, i);
        assert GapBefore(src, items, i);
      } else {
        assert items'[i] == item && GapStart(items', i) == GapStart(items, |items|);
      }
    }
  }

  /** A token emitted at the cursor closes the gap before it and opens an empty one. */
  lemma GaplessEmit(src: string, items: seq<Located>, item: Located)
    requires Gapless(src, items, item.start, true)
    ensures Gapless(src, items + [item], item.end, true)
  {
    NoneDroppedAppend(src, items, item);
    assert GapStart(items + [item], |items| + 1) == item.end;
  }

  /** The end-of-input token, placed at the cursor, leaves no gap unaccounted for. */
  lemma GaplessFinish(src: string, items: seq<Located>, eof: Located)
    requires Gapless(src, items, eof.start, true)
    ensures NoneDropped(src, items + [eof])
  {
    NoneDroppedAppend(src, items, eof);
  }

  /** An "Unexpected character." report on the line of the cursor is placed. */
  lemma PlacedUnexpected(src: string, reports: seq<Report>, pos: nat, line: nat)
    requires ReportsPlaced(src, reports, true)
    requires pos < |src| && ScanStep(src, pos) == Unexpected && line == 1 + Newlines(src, 0, pos)
    ensures ReportsPlaced(src, reports + [LexError(line, "Unexpected character.")], true)
  {
    var reports' := reports + [LexError(line, "Unexpected character.")];
    forall i | 0 <= i < |reports'|
      ensures PlacedReport(src, reports', i)
    {
      if i < |reports| {
        assert reports'[i] == reports[i] && PlacedReport(src, reports, i);
      } else {
        assert Newlines(src, 0, pos) == line - 1;
      }
    }
  }

  /** The report that aborts a scan is exempt. */
  lemma PlacedAbort(src: string, reports: seq<Report>, r: Report)
    requires ReportsPlaced(src, reports, true)
    ensures ReportsPlaced(src, reports + [r], false)
  {
    var reports' := reports + [r];
    forall i | 0 <= i < |reports'| - 1
      ensures PlacedReport(src, reports', i)
    {
      assert reports'[i] == reports[i] && PlacedReport(src, reports, i);
    }
  }

  /** What a scan in progress has left behind besides its tokens: quiet gaps, and
      reports placed on the lines of unexpected characters. */
  ghost predicate Traced(src: string, st: ScanState)
  {
    Gapless(src, st.located, st.pos, st.running) && ReportsPlaced(src, st.reports, st.running)
  }

  /** One step of the scan keeps its trace. */
  lemma StepTraced(src: string, st: ScanState)
    requires Traced(src, st) && st.running && st.pos < |src| && st.line == 1 + Newlines(src, 0, st.pos)
    ensures Traced(src, StepFrom(src, st))
  {
    var step := ScanStep(src, st.pos);
    if step.Emit? {
      TracedEmit(src, st, step);
    } else if step.Skip? {
      TracedSkip(src, st, step);
    } else if step.Unexpected? {
      TracedUnexpected(src, st, step);
    } else {
      TracedAbort(src, st, step);
    }
  }

  lemma TracedEmit(src: string, st: ScanState, step: Step)
    requires Traced(src, st) && st.running && st.pos < |src|
    requires step == ScanStep(src, st.pos) && step.Emit?
    ensures Traced(src, Apply(src, st, step))
  {
    var st' := Apply(src, st, step);
    GaplessEmit(src, st.located, st'.located[|st.located|]);
    assert st'.located == st.located + [st'.located[|st.located|]];
  }

  lemma TracedSkip(src: string, st: ScanState, step: Step)
    requires Traced(src, st) && st.running && st.pos < |src|
    requires step == ScanStep(src, st.pos) && step.Skip?
    ensures Traced(src, Apply(src, st, step))
  {
    GaplessQuiet(src, st.located, st.pos, step.next);
  }

  lemma TracedUnexpected(src: string, st: ScanState, step: Step)
    requires Traced(src, st) && st.running && st.pos < |src| && st.line == 1 + Newlines(src, 0, st.pos)
    requires step == ScanStep(src, st.pos) && step.Unexpected?
    ensures Traced(src, Apply(src, st, step))
  {
    var reports := st.reports + [LexError(st.line, "Unexpected character.")];
    assert Apply(src, st, step) == ScanState(st.located, reports, st.pos + 1, st.line, true);
    GaplessQuiet(src, st.located, st.pos, st.pos + 1);
    PlacedUnexpected(src, st.reports, st.pos, st.line);
  }

  lemma TracedAbort(src: string, st: ScanState, step: Step)
    requires Traced(src, st) && st.running && st.pos < |src|
    requires step == ScanStep(src, st.pos) && step.Unterminated?
    ensures Traced(src, Apply(src, st, step))
  {
    PlacedAbort(src, st.reports, Apply(src, st, step).reports[|st.reports|]);
    assert Apply(src, st, step).reports == st.reports + [Apply(src, st, step).reports[|st.reports|]];
  }
}
