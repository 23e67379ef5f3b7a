/*
 * What each recogniser of the Markdoc external scanner (src/scanner.c)
 * decides, as functions of the input, the cursor, the set of token kinds the
 * parser will accept, and the scanner state. The methods in module
 * MarkdocScanner walk the lexer and are proved to compute these values;
 * the lemmas in module ScannerProperties state what they guarantee.
 */
module Recognizers {
  import opened Text
  import opened Lexing
  import opened Lines
  import opened ScannerState

  /** What a recogniser reports: no token, or a token kind and where it ends. */
  datatype Outcome = Reject | Accept(symbol: TokenType, end: nat)

  /** The outcome of one call of the scanner and the state it leaves. */
  datatype Step = Step(outcome: Outcome, state: ScanState)

  /** The token `symbol` if the parser accepts it here, otherwise nothing. */
  function AcceptIf(valid: set<TokenType>, symbol: TokenType, end: nat): (o: Outcome)
    ensures o.Accept? <==> symbol in valid
    ensures o.Accept? ==> o.symbol == symbol && o.end == end
  {
    if symbol in valid then Accept(symbol, end) else Reject
  }

  // ---------------------------------------------------------------------
  // Frontmatter

  /**
   * scan_frontmatter_delimiter (src/scanner.c:284-308): exactly three `-`,
   * blanks, and a line end; the token ends before the line break.
   */
  function FrontmatterDelimiter(s: seq<int>, p: nat): (r: Option<nat>)
    requires p <= |s|
    ensures r.Some? ==> p + 3 <= r.value <= |s| && s[p] == DASH && s[p + 1] == DASH && s[p + 2] == DASH
    ensures r.Some? ==> IsLineEnd(Look(s, r.value)) && r.value == p + 3 + Blanks(s, p + 3)
  {
    var n := Run(s, p, DASH, 3);
    var a := Advanced(s, p, n);
    if n == 3 && IsLineEnd(Look(s, a + Blanks(s, a))) then
      RunHolds(s, p, DASH, 3);
      Some(a + Blanks(s, a))
    else
      None
  }

  /** The start of the line after the one holding `j`. */
  function NextLine(s: seq<int>, j: nat): (n: nat)
    requires j <= |s|
    ensures j <= n <= |s|
    ensures Look(s, j) != NUL ==> j < n
  {
    BreakEnd(s, LineEnd(s, j))
  }

  /**
   * The search loop of scan_frontmatter_closing_delimiter
   * (src/scanner.c:323-359): some line from the line start `j` on is a
   * frontmatter delimiter line.
   */
  predicate ClosingLineFrom(s: seq<int>, j: nat)
    requires j <= |s|
    decreases |s| - j
  {
    if Look(s, j) == NUL then false
    else if FrontmatterDelimiter(s, j).Some? then true
    else ClosingLineFrom(s, NextLine(s, j))
  }

  /**
   * scan_frontmatter_closing_delimiter (src/scanner.c:310-360): from the end
   * of the opening line, one line break and then a closing line further on.
   */
  predicate FrontmatterClosing(s: seq<int>, e: nat)
    requires e <= |s|
  {
    IsNewline(Look(s, e)) && ClosingLineFrom(s, BreakEnd(s, e))
  }

  // ---------------------------------------------------------------------
  // Column-0 markers

  /**
   * The runs scan_unordered_or_thematic measures (src/scanner.c:109-138):
   * `count` markers, then blanks (`hasSpace`) up to `afterSpace`, then a run
   * of markers and blanks up to `end` holding `breakCount` markers in all.
   */
  datatype MarkerRun = MarkerRun(count: nat, hasSpace: bool, afterSpace: nat, breakCount: nat, end: nat)

  function MeasureMarkerRun(s: seq<int>, j: nat, m: int): (r: MarkerRun)
    requires j <= |s| && m != NUL
    ensures j + r.count <= r.afterSpace <= r.end <= |s|
    ensures Look(s, j) == m ==> 0 < r.count
    ensures r.breakCount == r.count ==> r.end == r.afterSpace
    ensures !r.hasSpace ==> r.end == r.afterSpace
  {
    var count := Span(s, j, m);
    var blanks := Blanks(s, j + count);
    var afterSpace := j + count + blanks;
    MarkerRun(count, blanks > 0, afterSpace, count + Marks(s, afterSpace, m), MixedEnd(s, afterSpace, m))
  }

  /**
   * scan_unordered_or_thematic (src/scanner.c:98-190), with the cursor at
   * the marker `s[j]` after `indent` blanks.
   */
  function UnorderedOrThematic(atStart: bool, valid: set<TokenType>, s: seq<int>, j: nat, indent: nat): (o: Outcome)
    requires j <= |s|
    ensures o.Accept? ==> o.symbol in valid && j < o.end <= |s|
    ensures o.Accept? ==> o.symbol in {FrontmatterDelim, ThematicBreak, UnorderedListMarker, IndentedUnorderedListMarker}
  {
    var wantsList := UnorderedListMarker in valid || IndentedUnorderedListMarker in valid;
    var wantsFrontmatter := FrontmatterDelim in valid && atStart;
    var m := Look(s, j);
    if (ThematicBreak !in valid && !wantsList && !wantsFrontmatter) || !(m == STAR || m == DASH || m == UNDERSCORE) then
      Reject
    else
      var run := MeasureMarkerRun(s, j, m);
      MarkerDecision(atStart, valid, m, indent, run, IsLineEnd(Look(s, run.end)), FrontmatterClosing(s, run.end))
  }

  /**
   * The decisions of scan_unordered_or_thematic (src/scanner.c:140-189)
   * once the runs are measured; `lineEnd` says whether the line ends after
   * them, and `closing` whether a frontmatter closing line follows. Only
   * the first token of the document may open frontmatter.
   */
  function MarkerDecision(atStart: bool, valid: set<TokenType>, m: int, indent: nat, run: MarkerRun,
                          lineEnd: bool, closing: bool): (o: Outcome)
    ensures o.Accept? ==> o.symbol in valid && (o.end == run.end || o.end == run.afterSpace)
    ensures o.Accept? ==> o.symbol in {FrontmatterDelim, ThematicBreak, UnorderedListMarker, IndentedUnorderedListMarker}
  {
    if FrontmatterDelim in valid && atStart && m == DASH && indent == 0 && run.count == 3 && run.breakCount == 3 && lineEnd then
      if closing then Accept(FrontmatterDelim, run.end)
      else if ThematicBreak in valid && indent < 4 then Accept(ThematicBreak, run.end)
      else Reject
    else if ThematicBreak in valid && lineEnd && run.breakCount >= 3 && indent < 4 then
      Accept(ThematicBreak, run.end)
    else if (!run.hasSpace && lineEnd) || m == UNDERSCORE then
      Reject
    else if m == DASH && run.count > 1 then
      Reject
    else if indent > 0 || (m == STAR && run.count > 1) then
      AcceptIf(valid, IndentedUnorderedListMarker, run.afterSpace)
    else
      AcceptIf(valid, UnorderedListMarker, run.afterSpace)
  }

  /** scan_unordered_list_plus (src/scanner.c:192-222). */
  function PlusMarker(valid: set<TokenType>, s: seq<int>, j: nat, indent: nat): (o: Outcome)
    requires j <= |s|
    ensures o.Accept? ==> o.symbol in valid && j < o.end <= |s|
    ensures o.Accept? ==> o.symbol == (if indent > 0 then IndentedUnorderedListMarker else UnorderedListMarker)
  {
    if !(UnorderedListMarker in valid || IndentedUnorderedListMarker in valid) || Look(s, j) != PLUS then
      Reject
    else
      MarkerEnd(valid, s, j + 1, indent, UnorderedListMarker, IndentedUnorderedListMarker)
  }

  /**
   * The common end of scan_unordered_list_plus and scan_ordered_list_marker
   * (src/scanner.c:199-221, 245-267), at `a` just after the marker: a blank
   * or content must follow, the token takes the blanks, and the indentation
   * chooses the variant.
   */
  function MarkerEnd(valid: set<TokenType>, s: seq<int>, a: nat, indent: nat, plain: TokenType, indented: TokenType): (o: Outcome)
    requires a <= |s|
    ensures o.Accept? ==> o.symbol in valid && a <= o.end <= |s|
    ensures o.Accept? ==> o.symbol == (if indent > 0 then indented else plain)
    ensures o.Accept? ==> (Blanks(s, a) > 0 || !IsLineEnd(Look(s, a))) && o.end == a + Blanks(s, a)
  {
    var b := Blanks(s, a);
    if b == 0 && IsLineEnd(Look(s, a)) then Reject
    else AcceptIf(valid, if indent > 0 then indented else plain, a + b)
  }

  /** scan_ordered_list_marker (src/scanner.c:224-268). */
  function OrderedMarker(valid: set<TokenType>, s: seq<int>, j: nat, indent: nat): (o: Outcome)
    requires j <= |s|
    ensures o.Accept? ==> o.symbol in valid && j + 2 <= o.end <= |s|
    ensures o.Accept? ==> o.symbol == (if indent > 0 then IndentedOrderedListMarker else OrderedListMarker)
  {
    if !(OrderedListMarker in valid || IndentedOrderedListMarker in valid) then
      Reject
    else
      var d := DigitRun(s, j, 9);
      if d == 0 || !(Look(s, j + d) == DOT || Look(s, j + d) == RPAREN) then
        Reject
      else
        MarkerEnd(valid, s, j + d + 1, indent, OrderedListMarker, IndentedOrderedListMarker)
  }

  /**
   * The marker dispatch of the scan entry (src/scanner.c:820-845): skip the
   * indentation and let the first character choose the recogniser.
   */
  function LineStartMarker(atStart: bool, valid: set<TokenType>, s: seq<int>, p: nat): (o: Outcome)
    requires p <= |s|
    ensures o.Accept? ==> o.symbol in valid && p < o.end <= |s|
  {
    var indent := Blanks(s, p);
    MarkerAt(atStart, valid, s, p + indent, indent)
  }

  /** The recogniser the character at `j`, after `indent` blanks, chooses (src/scanner.c:826-841). */
  function MarkerAt(atStart: bool, valid: set<TokenType>, s: seq<int>, j: nat, indent: nat): (o: Outcome)
    requires j <= |s|
    ensures o.Accept? ==> o.symbol in valid && j < o.end <= |s|
  {
    var m := Look(s, j);
    if m == STAR || m == DASH || m == UNDERSCORE then UnorderedOrThematic(atStart, valid, s, j, indent)
    else if m == PLUS then PlusMarker(valid, s, j, indent)
    else if IsDigit(m) then OrderedMarker(valid, s, j, indent)
    else Reject
  }

  // ---------------------------------------------------------------------
  // Fenced code

  /**
   * scan_fence_close_line (src/scanner.c:362-395): at column 0, a run of the
   * fence character (counted up to 255) at least as long as the opening one,
   * then blanks and at most one line break; anything after the run is
   * accepted.
   */
  function FenceCloseLine(s: seq<int>, p: nat, fc: int, fl: nat): (r: Option<nat>)
    requires p <= |s|
    ensures r.Some? ==> Column(s, p) == 0 && Run(s, p, fc, 255) >= fl && p <= r.value <= |s|
  {
    if Column(s, p) != 0 then None
    else
      var n := Run(s, p, fc, 255);
      if n < fl then None
      else
        var a := Advanced(s, p, n);
        Some(BreakEnd(s, a + Blanks(s, a)))
  }

  /**
   * The closing-fence test of the code-body loop (src/scanner.c:896-918): a
   * run of `fc` (counted up to 255) at least `fl` long, then only blanks up
   * to the line end.
   */
  predicate CloseRun(s: seq<int>, k: nat, fc: int, fl: nat)
    requires k <= |s|
  {
    var a := Advanced(s, k, Run(s, k, fc, 255));
    Look(s, k) == fc && Run(s, k, fc, 255) >= fl && IsLineEnd(Look(s, a + Blanks(s, a)))
  }

  /** The code-body loop treats `i` as a line start: it follows an LF, or a CR not followed by LF. */
  predicate AfterBreak(s: seq<int>, i: nat)
    requires i <= |s|
  {
    0 < i && (s[i - 1] == LF || (s[i - 1] == CR && Look(s, i) != LF))
  }

  /**
   * Where the code-body loop of the scan entry (src/scanner.c:886-949) stops
   * when started at `k`: at the end of input, or at a line start holding a
   * closing run.
   */
  function ContentStop(s: seq<int>, k: nat, fc: int, fl: nat, lineStart: bool): (e: nat)
    requires k <= |s|
    ensures k <= e <= |s|
    ensures Look(s, e) == NUL || CloseRun(s, e, fc, fl)
    decreases |s| - k
  {
    if Look(s, k) == NUL then k
    else if lineStart && CloseRun(s, k, fc, fl) then k
    else if IsNewline(Look(s, k)) then ContentStop(s, BreakEnd(s, k), fc, fl, true)
    else ContentStop(s, k + 1, fc, fl, false)
  }

  // ---------------------------------------------------------------------
  // Line continuations

  /**
   * LIST_CONTINUATION (src/scanner.c:952-997): a line break (or a column-0
   * blank) followed by indentation, counted in a `uint8_t`, that is not
   * blank to the line end and does not start a list item or thematic break.
   */
  function Continuation(s: seq<int>, q: nat): (r: Option<nat>)
    requires q <= |s|
    ensures r.Some? ==> q < r.value <= |s| && !IsLineEnd(Look(s, r.value))
  {
    var atBreak := IsNewline(Look(s, q));
    if !atBreak && !(Column(s, q) == 0 && IsBlank(Look(s, q))) then None
    else
      var l := if atBreak then BreakEnd(s, q) else q;
      var b := Blanks(s, l);
      if b % 256 == 0 || IsLineEnd(Look(s, l + b)) then None
      else if ListMarkerLine(s, l) || ThematicBreakLine(s, l) then None
      else Some(l + b)
  }

  /**
   * scan_soft_line_break (src/scanner.c:444-481): one line break, unless the
   * next line is blank or opens a block.
   */
  function SoftBreak(s: seq<int>, q: nat): (r: Option<nat>)
    requires q <= |s|
    ensures r.Some? ==> q < r.value <= |s| && IsNewline(s[q]) && !IsLineEnd(Look(s, r.value + Blanks(s, r.value)))
  {
    if !IsNewline(Look(s, q)) then None
    else
      var n := BreakEnd(s, q);
      if IsLineEnd(Look(s, n + Blanks(s, n))) then None
      else if HeadingLine(s, n) || BlockquoteLine(s, n) || FenceLine(s, n) ||
              ThematicBreakLine(s, n) || ListMarkerLine(s, n) || BlockTagLine(s, n) then None
      else Some(n)
  }

  // ---------------------------------------------------------------------
  // HTML

  /** `-->` at `i`. */
  predicate CommentCloseAt(s: seq<int>, i: nat)
    requires i <= |s|
  {
    i + 3 <= |s| && s[i] == DASH && s[i + 1] == DASH && s[i + 2] == GT
  }

  /**
   * The search loop of scan_html_comment (src/scanner.c:609-619): the end of
   * the first `-->` at or after `k`, unless the end of input comes first.
   */
  function CommentClose(s: seq<int>, k: nat): (r: Option<nat>)
    requires k <= |s|
    ensures r.Some? ==> k + 3 <= r.value <= |s| && CommentCloseAt(s, r.value - 3)
    decreases |s| - k
  {
    if Look(s, k) == NUL then None
    else if CommentCloseAt(s, k) then Some(k + 3)
    else CommentClose(s, k + 1)
  }

  /** The close found is the first `-->`, and none lies before the end of input when none is found. */
  lemma {:induction false} CommentCloseFirst(s: seq<int>, k: nat)
    requires k <= |s|
    ensures var r := CommentClose(s, k);
      r.Some? ==> forall i :: k <= i < r.value - 3 ==> Look(s, i) != NUL && !CommentCloseAt(s, i)
    ensures CommentClose(s, k).None? ==> forall i :: k <= i < Until(s, k, NUL) ==> !CommentCloseAt(s, i)
    decreases |s| - k
  {
    if Look(s, k) != NUL && !CommentCloseAt(s, k) {
      CommentCloseFirst(s, k + 1);
    }
  }

  /** scan_html_comment (src/scanner.c:601-623). */
  function CommentEnd(s: seq<int>, q: nat): (r: Option<nat>)
    requires q <= |s|
    ensures r.Some? ==> q + 7 <= r.value <= |s| && s[q] == LT && s[q + 1] == BANG && s[q + 2] == DASH && s[q + 3] == DASH
  {
    if q + 4 <= |s| && s[q] == LT && s[q + 1] == BANG && s[q + 2] == DASH && s[q + 3] == DASH then CommentClose(s, q + 4) else None
  }

  /**
   * scan_html_tag_name (src/scanner.c:633-649): a letter and then tag-name
   * characters; the 64-byte buffer holds at most 63 of them.
   */
  function TagNameLength(s: seq<int>, j: nat): (r: Option<nat>)
    requires j <= |s|
    ensures r.Some? ==> 0 < r.value < 64 && j + r.value <= |s| && IsTagStart(s[j])
    ensures r.Some? ==> r.value == TagChars(s, j) && !IsTagChar(Look(s, j + r.value))
  {
    if !IsTagStart(Look(s, j)) || TagChars(s, j) >= 64 then None else Some(TagChars(s, j))
  }

  /** Where the opening tag ends, and whether it ended with `/>`. */
  datatype TagEnd = TagEnd(end: nat, selfClosing: bool)

  /**
   * The attribute loop of scan_html_block (src/scanner.c:670-706): quoted
   * values are skipped whole; the tag ends at the first `/>` or `>` outside
   * quotes.
   */
  function OpenTagEnd(s: seq<int>, k: nat): (r: Option<TagEnd>)
    requires k <= |s|
    ensures r.Some? ==> k < r.value.end <= |s| && s[r.value.end - 1] == GT
    ensures r.Some? && r.value.selfClosing ==> k + 2 <= r.value.end && s[r.value.end - 2] == SLASH
    decreases |s| - k
  {
    var c := Look(s, k);
    if c == NUL then None
    else if c == DQUOTE || c == SQUOTE then
      var e := Until(s, k + 1, c);
      if Look(s, e) == c then OpenTagEnd(s, e + 1) else None
    else if c == SLASH && Look(s, k + 1) == GT then Some(TagEnd(k + 2, true))
    else if c == GT then Some(TagEnd(k + 1, false))
    else OpenTagEnd(s, k + 1)
  }

  /**
   * `</name` with exactly the opening tag's name, blanks, and `>`, with the
   * cursor after `</` (src/scanner.c:718-737); the end is after the `>`.
   */
  function CloseTagEnd(s: seq<int>, j: nat, name: seq<int>): (r: Option<nat>)
    requires j <= |s|
    ensures r.Some? ==> j + |name| < r.value <= |s| && s[j..j + |name|] == name && s[r.value - 1] == GT
  {
    match TagNameLength(s, j)
    case None => None
    case Some(n) =>
      if n == |name| && s[j..j + n] == name && Look(s, j + n + Blanks(s, j + n)) == GT then
        Some(j + n + Blanks(s, j + n) + 1)
      else
        None
  }

  /**
   * The body loop of scan_html_block (src/scanner.c:717-762): the block ends
   * after the matching close tag, after a line break followed by a blank line
   * or the end of input, or at the end of input.
   */
  function BodyEnd(s: seq<int>, k: nat, name: seq<int>): (e: nat)
    requires k <= |s|
    ensures k <= e <= |s|
    ensures Look(s, e) == NUL || (k < e && (s[e - 1] == GT || IsNewline(s[e - 1])))
    decreases |s| - k
  {
    if Look(s, k) == NUL then k
    else if Look(s, k) == LT && Look(s, k + 1) == SLASH && CloseTagEnd(s, k + 2, name).Some? then
      CloseTagEnd(s, k + 2, name).value
    else if IsNewline(Look(s, k)) && IsLineEnd(Look(s, BreakEnd(s, k))) then BreakEnd(s, k)
    else BodyEnd(s, k + 1, name)
  }

  /** scan_html_block (src/scanner.c:651-763). */
  function HtmlBlockEnd(s: seq<int>, q: nat): (r: Option<nat>)
    requires q <= |s|
    ensures r.Some? ==> q + 3 <= r.value <= |s| && s[q] == LT && IsTagStart(s[q + 1])
  {
    if Look(s, q) != LT then None
    else
      match TagNameLength(s, q + 1)
      case None => None
      case Some(n) =>
        match OpenTagEnd(s, q + 1 + n)
        case None => None
        case Some(t) =>
          if t.selfClosing then Some(t.end) else Some(BodyEnd(s, t.end, s[q + 1..q + 1 + n]))
  }

  // ---------------------------------------------------------------------
  // The scan entry (src/scanner.c:806-1017)

  /** The column-0 stage (src/scanner.c:809-846); a rejection falls through to the next stage. */
  function LineStartStep(st: ScanState, s: seq<int>, p: nat, valid: set<TokenType>): Step
    requires p <= |s|
  {
    if Column(s, p) != 0 then Step(Reject, st)
    else if FrontmatterDelim in valid && st.inFrontmatter && FrontmatterDelimiter(s, p).Some? then
      Step(Accept(FrontmatterDelim, FrontmatterDelimiter(s, p).value), st.(inFrontmatter := false, atStart := false))
    else
      var o := LineStartMarker(st.atStart, valid, s, p);
      if o.Accept? && o.symbol == FrontmatterDelim then Step(o, st.(inFrontmatter := true, atStart := false))
      else if o.Accept? then Step(o, st.(atStart := false))
      else Step(Reject, st)
  }

  /**
   * The stages after the code stages, from cursor `q` (src/scanner.c:952-1016).
   * List continuation, once valid, decides the whole scan.
   */
  function TailStep(st: ScanState, s: seq<int>, q: nat, valid: set<TokenType>): Step
    requires q <= |s|
  {
    var started := st.(atStart := false);
    if ListContinuation in valid then
      match Continuation(s, q)
      case Some(e) => Step(Accept(ListContinuation, e), started)
      case None => Step(Reject, st)
    else if SoftLineBreak in valid && SoftBreak(s, q).Some? then
      Step(Accept(SoftLineBreak, SoftBreak(s, q).value), started)
    else if HtmlComment in valid && CommentEnd(s, q).Some? then
      Step(Accept(HtmlComment, CommentEnd(s, q).value), started)
    else if HtmlBlock in valid && HtmlBlockEnd(s, q).Some? then
      Step(Accept(HtmlBlock, HtmlBlockEnd(s, q).value), started)
    else
      Step(Reject, st)
  }

  /**
   * Fence open, fence close and code body (src/scanner.c:848-949), then the
   * tail. A fence run shorter than 3 is not rewound.
   */
  function FenceStep(st: ScanState, s: seq<int>, p: nat, valid: set<TokenType>): Step
    requires p <= |s|
  {
    var c := Look(s, p);
    if CodeFenceOpen in valid && !st.inFencedCode && (c == BACKTICK || c == TILDE) then
      FenceOpenStep(st, s, p, valid)
    else if CodeFenceClose in valid && st.inFencedCode && c == st.fenceChar &&
            FenceCloseLine(s, p, st.fenceChar, st.fenceLength).Some? then
      Step(Accept(CodeFenceClose, FenceCloseLine(s, p, st.fenceChar, st.fenceLength).value),
           st.(inFencedCode := false, fenceChar := 0, fenceLength := 0, atStart := false))
    else if CodeContent in valid && st.inFencedCode then
      CodeContentStep(st, s, p, valid)
    else
      TailStep(st, s, p, valid)
  }

  /** The fence-open branch (src/scanner.c:848-867): a run of at least 3 opens the block. */
  function FenceOpenStep(st: ScanState, s: seq<int>, p: nat, valid: set<TokenType>): Step
    requires p <= |s| && (Look(s, p) == BACKTICK || Look(s, p) == TILDE)
  {
    var c := Look(s, p);
    var n := Run(s, p, c, 255);
    if n >= 3 then
      Step(Accept(CodeFenceOpen, p + n), st.(inFencedCode := true, fenceChar := c, fenceLength := n, atStart := false))
    else
      TailStep(st, s, p + n, valid)
  }

  /** The code-body branch (src/scanner.c:884-949): the lines up to the closing fence. */
  function CodeContentStep(st: ScanState, s: seq<int>, p: nat, valid: set<TokenType>): Step
    requires p <= |s|
  {
    if Look(s, p) == NUL then Step(Reject, st)
    else
      var e := ContentStop(s, p, st.fenceChar, st.fenceLength, Column(s, p) == 0);
      if p < e then Step(Accept(CodeContent, e), st.(atStart := false))
      else TailStep(st, s, p, valid)
  }

  /** tree_sitter_markdoc_external_scanner_scan: the first stage that produces a token decides. */
  function ScanSpec(st: ScanState, s: seq<int>, p: nat, valid: set<TokenType>): Step
    requires p <= |s|
  {
    var first := LineStartStep(st, s, p, valid);
    if first.outcome.Accept? then first else FenceStep(st, s, p, valid)
  }
}
