/*
 * What the Markdoc external scanner promises, stated about the functions of
 * module Recognizers that its methods are proved to compute: how each token
 * kind changes the five state fields, which states are reachable, the
 * shapes of fence, frontmatter and list-marker tokens, and where code and
 * HTML tokens end.
 */
module ScannerProperties {
  import opened Text
  import opened Lexing
  import opened Lines
  import opened ScannerState
  import opened Recognizers

  /** Tokens the column-0 stage can produce (src/scanner.c:809-846). */
  const LineStartTokens: set<TokenType> :=
    {FrontmatterDelim, ThematicBreak, UnorderedListMarker, IndentedUnorderedListMarker,
     OrderedListMarker, IndentedOrderedListMarker}

  /** Tokens the stages after the code stages can produce (src/scanner.c:952-1016). */
  const TailTokens: set<TokenType> := {ListContinuation, SoftLineBreak, HtmlComment, HtmlBlock}

  /** Tokens of the fenced-code stages (src/scanner.c:848-949). */
  const CodeTokens: set<TokenType> := {CodeFenceOpen, CodeFenceClose, CodeContent}

  /**
   * The states a scanner reaches from `create`: `at_start` only before any
   * token, and the fence fields hold an opening run exactly while inside a
   * fenced code block.
   */
  predicate Consistent(st: ScanState) {
    (st.atStart ==> !st.inFrontmatter && !st.inFencedCode) &&
    if st.inFencedCode then (st.fenceChar == BACKTICK || st.fenceChar == TILDE) && st.fenceLength >= 3
    else st.fenceChar == 0 && st.fenceLength == 0
  }

  lemma InitialConsistent()
    ensures Consistent(Initial)
  {
  }

  // ---------------------------------------------------------------------
  // The stages

  lemma {:induction false} LineStartStepFacts(st: ScanState, s: seq<int>, p: nat, valid: set<TokenType>)
    requires p <= |s| && Consistent(st)
    ensures var r := LineStartStep(st, s, p, valid);
      (r.outcome.Reject? ==> r.state == st) &&
      (r.outcome.Accept? ==>
        r.outcome.symbol in valid && r.outcome.symbol in LineStartTokens && p < r.outcome.end <= |s| &&
        r.state == st.(atStart := false, inFrontmatter := if r.outcome.symbol == FrontmatterDelim then !st.inFrontmatter else st.inFrontmatter))
  {
    var o := LineStartMarker(st.atStart, valid, s, p);
    if o.Accept? && o.symbol == FrontmatterDelim {
      var j := p + Blanks(s, p);
      assert Look(s, j) == DASH;
      assert o == UnorderedOrThematic(st.atStart, valid, s, j, Blanks(s, p));
      assert st.atStart;
    }
  }

  lemma {:induction false} TailStepFacts(st: ScanState, s: seq<int>, q: nat, valid: set<TokenType>)
    requires q <= |s|
    ensures var r := TailStep(st, s, q, valid);
      (r.outcome.Reject? ==> r.state == st) &&
      (r.outcome.Accept? ==>
        r.outcome.symbol in valid && r.outcome.symbol in TailTokens && q < r.outcome.end <= |s| &&
        r.state == st.(atStart := false))
  {
  }

  lemma {:induction false} FenceStepFacts(st: ScanState, s: seq<int>, p: nat, valid: set<TokenType>)
    requires p <= |s| && Consistent(st)
    ensures var r := FenceStep(st, s, p, valid);
      (r.outcome.Reject? ==> r.state == st) &&
      (r.outcome.Accept? ==> r.outcome.symbol in valid && p < r.outcome.end <= |s| && !r.state.atStart) &&
      Consistent(r.state) && (r.state.atStart ==> st.atStart)
  {
    var r := FenceStep(st, s, p, valid);
    var c := Look(s, p);
    if CodeFenceOpen in valid && !st.inFencedCode && (c == BACKTICK || c == TILDE) {
      var n := Run(s, p, c, 255);
      if n < 3 {
        assert r == TailStep(st, s, p + n, valid);
        TailStepFacts(st, s, p + n, valid);
      }
    } else if CodeFenceClose in valid && st.inFencedCode && c == st.fenceChar &&
              FenceCloseLine(s, p, st.fenceChar, st.fenceLength).Some? {
    } else if CodeContent in valid && st.inFencedCode {
      if c != NUL {
        var e := ContentStop(s, p, st.fenceChar, st.fenceLength, Column(s, p) == 0);
        if e <= p {
          assert r == TailStep(st, s, p, valid);
          TailStepFacts(st, s, p, valid);
        }
      }
    } else {
      assert r == TailStep(st, s, p, valid);
      TailStepFacts(st, s, p, valid);
    }
  }

  /** The code stages give code tokens, or hand over to the tail stages. */
  lemma {:induction false} FenceStepTokens(st: ScanState, s: seq<int>, p: nat, valid: set<TokenType>)
    requires p <= |s|
    ensures var r := FenceStep(st, s, p, valid);
      r.outcome.Accept? ==> r.outcome.symbol in CodeTokens || r.outcome.symbol in TailTokens
  {
    var c := Look(s, p);
    if CodeFenceOpen in valid && !st.inFencedCode && (c == BACKTICK || c == TILDE) {
      TailStepFacts(st, s, p + Run(s, p, c, 255), valid);
    } else {
      TailStepFacts(st, s, p, valid);
    }
  }

  // ---------------------------------------------------------------------
  // The scan entry and the state

  /**
   * One scan from a reachable state: a rejection leaves the state alone, a
   * token is valid, non-empty and leaves `at_start` false, nothing sets
   * `at_start` back to true, and the new state is reachable again.
   */
  lemma {:induction false} ScanKeepsConsistent(st: ScanState, s: seq<int>, p: nat, valid: set<TokenType>)
    requires p <= |s| && Consistent(st)
    ensures var r := ScanSpec(st, s, p, valid);
      Consistent(r.state) &&
      (r.outcome.Reject? ==> r.state == st) &&
      (r.outcome.Accept? ==> r.outcome.symbol in valid && p < r.outcome.end <= |s| && !r.state.atStart) &&
      (r.state.atStart ==> st.atStart)
  {
    LineStartStepFacts(st, s, p, valid);
    FenceStepFacts(st, s, p, valid);
  }

  // ---------------------------------------------------------------------
  // Fenced code

  /**
   * A fence opens only outside a fenced block, from a run of three or more
   * identical backticks or tildes counted up to 255; the token is the run,
   * and the state records its character and length.
   */
  lemma {:induction false} FenceOpenToken(st: ScanState, s: seq<int>, p: nat, valid: set<TokenType>)
    requires p <= |s| && Consistent(st)
    ensures var r := ScanSpec(st, s, p, valid);
      var c := Look(s, p);
      var n := Run(s, p, c, 255);
      r.outcome.Accept? && r.outcome.symbol == CodeFenceOpen ==>
        !st.inFencedCode && (c == BACKTICK || c == TILDE) && 3 <= n && r.outcome.end == p + n &&
        (forall k :: p <= k < p + n ==> s[k] == c) && (n < 255 ==> Look(s, p + n) != c) &&
        r.state == st.(inFencedCode := true, fenceChar := c, fenceLength := n, atStart := false)
  {
    var r := ScanSpec(st, s, p, valid);
    if r.outcome.Accept? && r.outcome.symbol == CodeFenceOpen {
      var c := Look(s, p);
      FromFenceStep(st, s, p, valid);
      CodeTokensFromFenceStep(st, s, p, valid);
      var f := FenceStep(st, s, p, valid);
      assert r == f;
      RunHolds(s, p, c, 255);
      RunStops(s, p, c, 255);
    }
  }

  /** A token the column-0 stage cannot produce comes from the code stages. */
  lemma {:induction false} FromFenceStep(st: ScanState, s: seq<int>, p: nat, valid: set<TokenType>)
    requires p <= |s| && Consistent(st)
    ensures var r := ScanSpec(st, s, p, valid);
      r.outcome.Accept? && r.outcome.symbol !in LineStartTokens ==> r == FenceStep(st, s, p, valid)
  {
    LineStartStepFacts(st, s, p, valid);
  }

  /** Which branch of the code stages produced a code token. */
  lemma {:induction false} CodeTokensFromFenceStep(st: ScanState, s: seq<int>, p: nat, valid: set<TokenType>)
    requires p <= |s|
    ensures var r := FenceStep(st, s, p, valid);
      var c := Look(s, p);
      var close := FenceCloseLine(s, p, st.fenceChar, st.fenceLength);
      (r.outcome.Accept? && r.outcome.symbol == CodeFenceOpen ==>
        CodeFenceOpen in valid && !st.inFencedCode && (c == BACKTICK || c == TILDE) && Run(s, p, c, 255) >= 3 &&
        r.outcome.end == p + Run(s, p, c, 255) &&
        r.state == st.(inFencedCode := true, fenceChar := c, fenceLength := Run(s, p, c, 255), atStart := false)) &&
      (r.outcome.Accept? && r.outcome.symbol == CodeFenceClose ==>
        CodeFenceClose in valid && st.inFencedCode && c == st.fenceChar && close.Some? && r.outcome.end == close.value &&
        r.state == st.(inFencedCode := false, fenceChar := 0, fenceLength := 0, atStart := false)) &&
      (r.outcome.Accept? && r.outcome.symbol == CodeContent ==>
        CodeContent in valid && st.inFencedCode && c != NUL && !(CodeFenceClose in valid && c == st.fenceChar && close.Some?) &&
        r.outcome.end == ContentStop(s, p, st.fenceChar, st.fenceLength, Column(s, p) == 0) && p < r.outcome.end &&
        r.state == st.(atStart := false))
  {
    var c := Look(s, p);
    if CodeFenceOpen in valid && !st.inFencedCode && (c == BACKTICK || c == TILDE) {
      TailStepFacts(st, s, p + Run(s, p, c, 255), valid);
    } else {
      TailStepFacts(st, s, p, valid);
    }
  }

  /**
   * A fence closes only inside a fenced block, at column 0, on the fence
   * character, where scan_fence_close_line accepts the line; the token is
   * what that recogniser consumed, and the three fence fields are cleared.
   */
  lemma {:induction false} FenceCloseToken(st: ScanState, s: seq<int>, p: nat, valid: set<TokenType>)
    requires p <= |s| && Consistent(st)
    ensures var r := ScanSpec(st, s, p, valid);
      r.outcome.Accept? && r.outcome.symbol == CodeFenceClose ==>
        st.inFencedCode && Look(s, p) == st.fenceChar &&
        FenceCloseLine(s, p, st.fenceChar, st.fenceLength) == Some(r.outcome.end) &&
        r.state == st.(inFencedCode := false, fenceChar := 0, fenceLength := 0, atStart := false)
  {
    var r := ScanSpec(st, s, p, valid);
    if r.outcome.Accept? && r.outcome.symbol == CodeFenceClose {
      FromFenceStep(st, s, p, valid);
      CodeTokensFromFenceStep(st, s, p, valid);
    }
  }

  /**
   * What scan_fence_close_line accepts: at column 0, a run of the fence
   * character at least as long as the opening run; anything after the run
   * is accepted, and the blanks after it and one CR, LF or CRLF are
   * consumed.
   */
  lemma FenceCloseLineShape(s: seq<int>, p: nat, fc: int, fl: nat)
    requires p <= |s| && fc != NUL
    ensures var r := FenceCloseLine(s, p, fc, fl);
      var n := Run(s, p, fc, 255);
      r.Some? ==>
        Column(s, p) == 0 && n >= fl && (forall k :: p <= k < p + n ==> s[k] == fc) &&
        r.value == BreakEnd(s, p + n + Blanks(s, p + n))
  {
    RunHolds(s, p, fc, 255);
  }

  /** The code-body loop leaves a line start at once when it holds a closing run. */
  lemma ContentStopAtStart(s: seq<int>, k: nat, fc: int, fl: nat)
    requires k <= |s|
    ensures CloseRun(s, k, fc, fl) ==> ContentStop(s, k, fc, fl, true) == k
  {
  }

  /** The code-body loop never runs past a line start, reached by a line break, that holds a closing run. */
  lemma {:induction false} ContentStopFirst(s: seq<int>, k: nat, fc: int, fl: nat, lineStart: bool, i: nat)
    requires k < i <= |s| && AfterBreak(s, i) && CloseRun(s, i, fc, fl)
    ensures ContentStop(s, k, fc, fl, lineStart) <= i
    decreases |s| - k
  {
    if Look(s, k) == NUL || (lineStart && CloseRun(s, k, fc, fl)) {
    } else if IsNewline(Look(s, k)) {
      var n := BreakEnd(s, k);
      assert ContentStop(s, k, fc, fl, lineStart) == ContentStop(s, n, fc, fl, true);
      if i == n {
        ContentStopAtStart(s, n, fc, fl);
      } else if n < i {
        ContentStopFirst(s, n, fc, fl, true, i);
      }
    } else {
      assert ContentStop(s, k, fc, fl, lineStart) == ContentStop(s, k + 1, fc, fl, false);
      if k + 1 < i {
        ContentStopFirst(s, k + 1, fc, fl, false, i);
      }
    }
  }

  /** When the code-body loop stops after moving and before the end of input, it is at a closing run just after a line break. */
  lemma {:induction false} ContentStopAtClose(s: seq<int>, k: nat, fc: int, fl: nat, lineStart: bool)
    requires k <= |s|
    ensures var e := ContentStop(s, k, fc, fl, lineStart);
      k < e && Look(s, e) != NUL ==> AfterBreak(s, e) && CloseRun(s, e, fc, fl)
    decreases |s| - k
  {
    if Look(s, k) == NUL || (lineStart && CloseRun(s, k, fc, fl)) {
    } else if IsNewline(Look(s, k)) {
      var n := BreakEnd(s, k);
      assert ContentStop(s, k, fc, fl, lineStart) == ContentStop(s, n, fc, fl, true);
      ContentStopAtClose(s, n, fc, fl, true);
      assert AfterBreak(s, n);
    } else {
      assert ContentStop(s, k, fc, fl, lineStart) == ContentStop(s, k + 1, fc, fl, false);
      ContentStopAtClose(s, k + 1, fc, fl, false);
    }
  }

  /**
   * A code-content token lies inside a fenced block, is never empty, never
   * starts at the end of input, and never swallows a closing fence line:
   * no line start inside it, including its own first position, holds a
   * run of the fence character at least as long as the opening run that
   * is followed only by blanks up to the line end.
   */
  lemma {:induction false} CodeContentToken(st: ScanState, s: seq<int>, p: nat, valid: set<TokenType>)
    requires p <= |s| && Consistent(st)
    ensures var r := ScanSpec(st, s, p, valid);
      var fc, fl := st.fenceChar, st.fenceLength;
      r.outcome.Accept? && r.outcome.symbol == CodeContent ==>
        var e := r.outcome.end;
        st.inFencedCode && Look(s, p) != NUL && p < e &&
        (Column(s, p) == 0 ==> !CloseRun(s, p, fc, fl)) &&
        (forall i :: p < i < e && AfterBreak(s, i) ==> !CloseRun(s, i, fc, fl)) &&
        (Look(s, e) == NUL || (AfterBreak(s, e) && CloseRun(s, e, fc, fl))) &&
        r.state == st.(atStart := false)
  {
    var r := ScanSpec(st, s, p, valid);
    if r.outcome.Accept? && r.outcome.symbol == CodeContent {
      FromFenceStep(st, s, p, valid);
      CodeTokensFromFenceStep(st, s, p, valid);
      var f := FenceStep(st, s, p, valid);
      assert r == f;
      forall i | p < i < r.outcome.end && AfterBreak(s, i)
        ensures !CloseRun(s, i, st.fenceChar, st.fenceLength)
      {
        if CloseRun(s, i, st.fenceChar, st.fenceLength) {
          ContentStopFirst(s, p, st.fenceChar, st.fenceLength, Column(s, p) == 0, i);
        }
      }
      ContentStopAtClose(s, p, st.fenceChar, st.fenceLength, Column(s, p) == 0);
      ContentStopAtStart(s, p, st.fenceChar, st.fenceLength);
    }
  }
}
