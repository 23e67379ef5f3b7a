/*
 * What the scan entry promises about frontmatter delimiters: frontmatter
 * opens only with the first token of the document, on a dash line followed
 * by a closing line, and a delimiter line inside frontmatter closes it.
 */
module FrontmatterProperties {
  import opened Text
  import opened Lexing
  import opened ScannerState
  import opened Recognizers
  import opened ScannerProperties
  import opened MarkerProperties

  /**
   * The frontmatter-delimiter token of a scan from a reachable state: outside
   * frontmatter it opens it, only as the first token, on a column-0 dash
   * line with a closing line further on; inside frontmatter it closes it on
   * a column-0 dash line.
   */
  lemma {:induction false} FrontmatterToken(st: ScanState, s: seq<int>, p: nat, valid: set<TokenType>)
    requires p <= |s| && Consistent(st)
    ensures var r := ScanSpec(st, s, p, valid);
      r.outcome.Accept? && r.outcome.symbol == FrontmatterDelim ==>
        Column(s, p) == 0 && FrontmatterDelimiter(s, p) == Some(r.outcome.end) &&
        r.state == st.(inFrontmatter := !st.inFrontmatter, atStart := false) &&
        (!st.inFrontmatter ==> st.atStart && Look(s, p) == DASH && FrontmatterClosing(s, r.outcome.end))
  {
    var r := ScanSpec(st, s, p, valid);
    if r.outcome.Accept? && r.outcome.symbol == FrontmatterDelim {
      FenceStepTokens(st, s, p, valid);
      assert r == LineStartStep(st, s, p, valid);
      LineStartFrontmatter(st, s, p, valid);
    }
  }

  /** The same for the column-0 stage, which is where the token comes from. */
  lemma LineStartFrontmatter(st: ScanState, s: seq<int>, p: nat, valid: set<TokenType>)
    requires p <= |s| && Consistent(st)
    requires LineStartStep(st, s, p, valid).outcome.Accept?
    requires LineStartStep(st, s, p, valid).outcome.symbol == FrontmatterDelim
    ensures var r := LineStartStep(st, s, p, valid);
      Column(s, p) == 0 && FrontmatterDelimiter(s, p) == Some(r.outcome.end) &&
      r.state == st.(inFrontmatter := !st.inFrontmatter, atStart := false) &&
      (!st.inFrontmatter ==> st.atStart && Look(s, p) == DASH && FrontmatterClosing(s, r.outcome.end))
  {
    if !(FrontmatterDelim in valid && st.inFrontmatter && FrontmatterDelimiter(s, p).Some?) {
      MarkerOpensFrontmatter(st, s, p, valid);
    }
  }

  /** The marker branch of the column-0 stage: a frontmatter token opens. */
  lemma MarkerOpensFrontmatter(st: ScanState, s: seq<int>, p: nat, valid: set<TokenType>)
    requires p <= |s|
    requires LineStartMarker(st.atStart, valid, s, p).Accept?
    requires LineStartMarker(st.atStart, valid, s, p).symbol == FrontmatterDelim
    ensures var e := LineStartMarker(st.atStart, valid, s, p).end;
      st.atStart && Look(s, p) == DASH && FrontmatterDelimiter(s, p) == Some(e) && FrontmatterClosing(s, e)
  {
    var indent := Blanks(s, p);
    LineStartMarkerSkips(st.atStart, valid, s, p);
    MarkerFrontmatterOnly(st.atStart, valid, s, p, indent);
  }

  /** Inside frontmatter, a column-0 delimiter line always closes it. */
  lemma FrontmatterCloses(st: ScanState, s: seq<int>, p: nat, valid: set<TokenType>)
    requires p <= |s| && st.inFrontmatter && FrontmatterDelim in valid
    requires Column(s, p) == 0 && FrontmatterDelimiter(s, p).Some?
    ensures ScanSpec(st, s, p, valid) ==
      Step(Accept(FrontmatterDelim, FrontmatterDelimiter(s, p).value), st.(inFrontmatter := false, atStart := false))
  {
  }
}
