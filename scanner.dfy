/*
 * The Markdoc external scanner itself (src/scanner.c): the Scanner object
 * with its five fields, create / serialize / deserialize, the recognisers
 * that walk the lexer, and the scan entry that tries them in priority order.
 * Each method is proved to compute the function of module Recognizers that
 * specifies it.
 */
module MarkdocScanner {
  import opened Text
  import opened Lexing
  import opened Lines
  import opened ScannerState
  import opened Recognizers

  // ---------------------------------------------------------------------
  // Recognisers that only move the lexer

  /** scan_literal (src/scanner.c:564-572): match `text` at the cursor. */
  method ScanLiteral(lexer: Lexer, text: seq<int>) returns (ok: bool)
    requires lexer.Valid()
    requires forall i :: 0 <= i < |text| ==> text[i] != NUL
    modifies lexer`pos
    ensures lexer.Valid()
    ensures ok == (old(lexer.pos) + |text| <= |lexer.input| && lexer.input[old(lexer.pos)..old(lexer.pos) + |text|] == text)
    ensures ok ==> lexer.pos == old(lexer.pos) + |text|
  {
    var s, start := lexer.input, lexer.pos;
    var i := 0;
    while i < |text|
      invariant lexer.Valid() && i <= |text|
      invariant lexer.pos == start + i <= |s|
      invariant s[start..lexer.pos] == text[..i]
    {
      if lexer.Lookahead() != text[i] {
        assert start + |text| <= |s| ==> s[start..start + |text|][i] != text[i];
        return false;
      }
      lexer.Advance();
      i := i + 1;
    }
    return true;
  }

  /** scan_frontmatter_delimiter (src/scanner.c:284-308); rewinds on failure. */
  method ScanFrontmatterDelimiter(lexer: Lexer) returns (ok: bool)
    requires lexer.Valid()
    modifies lexer`pos, lexer`marked, lexer`markEnd
    ensures lexer.Valid()
    ensures var r := FrontmatterDelimiter(lexer.input, old(lexer.pos));
      ok == r.Some? && (ok ==> lexer.marked && lexer.markEnd == r.value)
    ensures !ok ==> lexer.pos == old(lexer.pos) && lexer.marked == old(lexer.marked) && lexer.markEnd == old(lexer.markEnd)
  {
    var saved := lexer.pos;
    var count := lexer.SkipRun(DASH, 3);
    if count != 3 {
      lexer.pos := saved;
      return false;
    }
    var _ := lexer.SkipBlanks();
    if !IsLineEnd(lexer.Lookahead()) {
      lexer.pos := saved;
      return false;
    }
    lexer.MarkEnd();
    return true;
  }

  /**
   * scan_frontmatter_closing_delimiter (src/scanner.c:310-360), which takes
   * the marker as a parameter; scan_unordered_or_thematic, its only caller,
   * passes `-`.
   */
  method ScanFrontmatterClosingDelimiter(lexer: Lexer) returns (found: bool)
    requires lexer.Valid()
    modifies lexer`pos
    ensures lexer.Valid()
    ensures found == FrontmatterClosing(lexer.input, old(lexer.pos))
  {
    if !IsNewline(lexer.Lookahead()) {
      return false;
    }
    lexer.SkipLineBreak();
    var s := lexer.input;
    while true
      invariant lexer.Valid()
      invariant ClosingLineFrom(s, lexer.pos) == FrontmatterClosing(s, old(lexer.pos))
      decreases |s| - lexer.pos
    {
      if lexer.Lookahead() == NUL {
        return false;
      }
      ghost var lineStart := lexer.pos;
      var closes := ScanClosingLine(lexer);
      if closes {
        return true;
      }
      lexer.SkipToLineEnd();
      lexer.SkipLineBreak();
      assert lexer.pos == NextLine(s, lineStart);
    }
  }

  /**
   * One line of the search in scan_frontmatter_closing_delimiter: three `-`,
   * blanks and the line end. When the line is not a closing one, the cursor
   * stays on the same line.
   */
  method ScanClosingLine(lexer: Lexer) returns (closes: bool)
    requires lexer.Valid()
    modifies lexer`pos
    ensures lexer.Valid()
    ensures closes == FrontmatterDelimiter(lexer.input, old(lexer.pos)).Some?
    ensures !closes ==> old(lexer.pos) <= lexer.pos && LineEnd(lexer.input, lexer.pos) == LineEnd(lexer.input, old(lexer.pos))
  {
    var s, lineStart := lexer.input, lexer.pos;
    if lexer.Lookahead() != DASH {
      return false;
    }
    var count := lexer.SkipRun(DASH, 3);
    RunHolds(s, lineStart, DASH, 3);
    if count != 3 {
      LineEndAfter(s, lineStart, lexer.pos);
      return false;
    }
    ghost var afterRun := lexer.pos;
    var _ := lexer.SkipBlanks();
    if IsLineEnd(lexer.Lookahead()) {
      return true;
    }
    BlanksHold(s, afterRun);
    LineEndAfter(s, lineStart, lexer.pos);
    return false;
  }

  /** scan_unordered_list_plus (src/scanner.c:192-222), the cursor at the marker. */
  method ScanUnorderedListPlus(lexer: Lexer, valid: set<TokenType>, indent: nat) returns (ok: bool)
    requires lexer.Valid()
    modifies lexer`pos, lexer`marked, lexer`markEnd, lexer`resultSymbol
    ensures lexer.Valid()
    ensures var o := PlusMarker(valid, lexer.input, old(lexer.pos), indent);
      ok == o.Accept? && (ok ==> lexer.resultSymbol == o.symbol && lexer.marked && lexer.markEnd == o.end)
  {
    var wantsList := UnorderedListMarker in valid || IndentedUnorderedListMarker in valid;
    if !wantsList || lexer.Lookahead() != PLUS {
      return false;
    }
    lexer.Advance();
    ok := ScanMarkerEnd(lexer, valid, indent, UnorderedListMarker, IndentedUnorderedListMarker);
  }

  /** The common end of scan_unordered_list_plus and scan_ordered_list_marker (src/scanner.c:199-221, 245-267). */
  method ScanMarkerEnd(lexer: Lexer, valid: set<TokenType>, indent: nat, plain: TokenType, indented: TokenType)
    returns (ok: bool)
    requires lexer.Valid()
    modifies lexer`pos, lexer`marked, lexer`markEnd, lexer`resultSymbol
    ensures lexer.Valid()
    ensures var o := MarkerEnd(valid, lexer.input, old(lexer.pos), indent, plain, indented);
      ok == o.Accept? && (ok ==> lexer.resultSymbol == o.symbol && lexer.marked && lexer.markEnd == o.end)
  {
    var hasSpace := IsBlank(lexer.Lookahead());
    var _ := lexer.SkipBlanks();
    var hasContent := !IsLineEnd(lexer.Lookahead());
    if !hasSpace && !hasContent {
      return false;
    }
    if indent > 0 {
      if indented !in valid {
        return false;
      }
      lexer.resultSymbol := indented;
    } else {
      if plain !in valid {
        return false;
      }
      lexer.resultSymbol := plain;
    }
    lexer.MarkEnd();
    return true;
  }

  /** scan_ordered_list_marker (src/scanner.c:224-268), the cursor at the first digit. */
  method ScanOrderedListMarker(lexer: Lexer, valid: set<TokenType>, indent: nat) returns (ok: bool)
    requires lexer.Valid()
    modifies lexer`pos, lexer`marked, lexer`markEnd, lexer`resultSymbol
    ensures lexer.Valid()
    ensures var o := OrderedMarker(valid, lexer.input, old(lexer.pos), indent);
      ok == o.Accept? && (ok ==> lexer.resultSymbol == o.symbol && lexer.marked && lexer.markEnd == o.end)
  {
    var wantsList := OrderedListMarker in valid || IndentedOrderedListMarker in valid;
    if !wantsList {
      return false;
    }
    var digits := ScanDigits(lexer);
    if digits == 0 {
      return false;
    }
    if lexer.Lookahead() != DOT && lexer.Lookahead() != RPAREN {
      return false;
    }
    lexer.Advance();
    ok := ScanMarkerEnd(lexer, valid, indent, OrderedListMarker, IndentedOrderedListMarker);
  }

  /** The digit loop of scan_ordered_list_marker (src/scanner.c:230-234): at most nine digits. */
  method ScanDigits(lexer: Lexer) returns (digits: nat)
    requires lexer.Valid()
    modifies lexer`pos
    ensures lexer.Valid()
    ensures digits == DigitRun(lexer.input, old(lexer.pos), 9) && lexer.pos == old(lexer.pos) + digits
  {
    var s, start := lexer.input, lexer.pos;
    digits := 0;
    while IsDigit(lexer.Lookahead()) && digits < 9
      invariant lexer.Valid() && digits <= 9
      invariant lexer.pos == start + digits
      invariant DigitRun(s, start, 9) == digits + DigitRun(s, lexer.pos, 9 - digits)
    {
      lexer.Advance();
      digits := digits + 1;
    }
  }

  /** scan_soft_line_break (src/scanner.c:444-481); the cursor is rewound on failure. */
  method ScanSoftLineBreak(lexer: Lexer) returns (ok: bool)
    requires lexer.Valid()
    modifies lexer`pos, lexer`marked, lexer`markEnd
    ensures lexer.Valid()
    ensures var r := SoftBreak(lexer.input, old(lexer.pos));
      ok == r.Some? && (ok ==> lexer.marked && lexer.markEnd == r.value)
    ensures !ok ==> lexer.pos == old(lexer.pos)
  {
    if !IsNewline(lexer.Lookahead()) {
      return false;
    }
    var saved := lexer.pos;
    lexer.SkipLineBreak();
    var lineState := lexer.pos;
    lexer.MarkEnd();
    var _ := lexer.SkipBlanks();
    if IsLineEnd(lexer.Lookahead()) {
      lexer.pos := saved;
      return false;
    }
    lexer.pos := lineState;
    var startsBlock := IsHeadingMarkerLine(lexer);
    if !startsBlock {
      startsBlock := IsBlockquoteLine(lexer);
    }
    if !startsBlock {
      startsBlock := IsFencedCodeLine(lexer);
    }
    if !startsBlock {
      startsBlock := IsThematicBreakLine(lexer);
    }
    if !startsBlock {
      startsBlock := IsListMarkerLine(lexer);
    }
    if !startsBlock {
      startsBlock := IsMarkdocBlockTagLine(lexer);
    }
    if startsBlock {
      lexer.pos := saved;
      return false;
    }
    return true;
  }

  /** LIST_CONTINUATION (src/scanner.c:952-997); the cursor is rewound on failure. */
  method ScanListContinuation(lexer: Lexer) returns (ok: bool)
    requires lexer.Valid()
    modifies lexer`pos, lexer`marked, lexer`markEnd
    ensures lexer.Valid()
    ensures var r := Continuation(lexer.input, old(lexer.pos));
      ok == r.Some? && (ok ==> lexer.marked && lexer.markEnd == r.value)
    ensures !ok ==> lexer.pos == old(lexer.pos)
  {
    var s, saved := lexer.input, lexer.pos;
    var atLineStart := lexer.Column() == 0;
    var startsWithIndent := IsBlank(lexer.Lookahead());
    var lineState := lexer.pos;
    if IsNewline(lexer.Lookahead()) {
      lexer.SkipLineBreak();
      lineState := lexer.pos;
    } else if !(atLineStart && startsWithIndent) {
      lexer.pos := saved;
      return false;
    }
    assert lineState == if IsNewline(Look(s, saved)) then BreakEnd(s, saved) else saved;
    var indentation := ScanIndentation(lexer);
    if indentation == 0 || IsLineEnd(lexer.Lookahead()) {
      lexer.pos := saved;
      return false;
    }
    var markerState := lexer.pos;
    lexer.pos := lineState;
    var startsBlock := IsListMarkerLine(lexer);
    if !startsBlock {
      startsBlock := IsThematicBreakLine(lexer);
    }
    lexer.pos := markerState;
    if startsBlock {
      lexer.pos := saved;
      return false;
    }
    lexer.MarkEnd();
    return true;
  }

  /** The indentation loop of LIST_CONTINUATION (src/scanner.c:973-977): the blanks, counted modulo 256. */
  method ScanIndentation(lexer: Lexer) returns (indentation: Uint8)
    requires lexer.Valid()
    modifies lexer`pos
    ensures lexer.Valid()
    ensures lexer.pos == old(lexer.pos) + Blanks(lexer.input, old(lexer.pos))
    ensures indentation == Blanks(lexer.input, old(lexer.pos)) % 256
  {
    var s, start := lexer.input, lexer.pos;
    indentation := 0;
    ghost var count := 0;
    while IsBlank(lexer.Lookahead())
      invariant lexer.Valid() && lexer.pos == start + count
      invariant Blanks(s, start) == count + Blanks(s, lexer.pos)
      invariant indentation == count % 256
      decreases |s| - lexer.pos
    {
      lexer.Advance();
      WrapStep(count);
      indentation := (indentation + 1) % 256;
      count := count + 1;
    }
  }

  /** One more step of a `uint8_t` counter that wraps at 256. */
  lemma WrapStep(n: nat)
    ensures (n % 256 + 1) % 256 == (n + 1) % 256
  {
  }

  /** scan_html_comment (src/scanner.c:601-623); the cursor is rewound on failure. */
  method ScanHtmlComment(lexer: Lexer) returns (ok: bool)
    requires lexer.Valid()
    modifies lexer`pos, lexer`marked, lexer`markEnd
    ensures lexer.Valid()
    ensures var r := CommentEnd(lexer.input, old(lexer.pos));
      ok == r.Some? && (ok ==> lexer.marked && lexer.markEnd == r.value)
    ensures !ok ==> lexer.pos == old(lexer.pos) && lexer.marked == old(lexer.marked) && lexer.markEnd == old(lexer.markEnd)
  {
    var s, saved := lexer.input, lexer.pos;
    var started := ScanLiteral(lexer, [LT, BANG, DASH, DASH]);
    assert started == (saved + 4 <= |s| && s[saved] == LT && s[saved + 1] == BANG && s[saved + 2] == DASH && s[saved + 3] == DASH) by {
      if saved + 4 <= |s| {
        var w := s[saved..saved + 4];
        assert w[0] == s[saved] && w[1] == s[saved + 1] && w[2] == s[saved + 2] && w[3] == s[saved + 3];
      }
    }
    if !started {
      lexer.pos := saved;
      return false;
    }
    while lexer.Lookahead() != NUL
      invariant lexer.Valid() && saved + 4 <= lexer.pos
      invariant CommentClose(s, lexer.pos) == CommentClose(s, saved + 4)
      invariant lexer.marked == old(lexer.marked) && lexer.markEnd == old(lexer.markEnd)
      decreases |s| - lexer.pos
    {
      ghost var k := lexer.pos;
      if lexer.Lookahead() == DASH {
        var closed := ScanCommentClose(lexer);
        if closed {
          lexer.MarkEnd();
          return true;
        }
      }
      assert !CommentCloseAt(s, k);
      lexer.Advance();
    }
    lexer.pos := saved;
    return false;
  }

  /** The `-->` test in the loop of scan_html_comment (src/scanner.c:610-617); rewinds when it fails. */
  method ScanCommentClose(lexer: Lexer) returns (closed: bool)
    requires lexer.Valid()
    modifies lexer`pos
    ensures lexer.Valid()
    ensures closed == CommentCloseAt(lexer.input, old(lexer.pos))
    ensures lexer.pos == if closed then old(lexer.pos) + 3 else old(lexer.pos)
  {
    var s, closeState := lexer.input, lexer.pos;
    closed := ScanLiteral(lexer, [DASH, DASH, GT]);
    assert closeState + 3 <= |s| ==> (s[closeState..closeState + 3] == [DASH, DASH, GT] <==> CommentCloseAt(s, closeState)) by {
      if closeState + 3 <= |s| {
        var w := s[closeState..closeState + 3];
        assert w[0] == s[closeState] && w[1] == s[closeState + 1] && w[2] == s[closeState + 2];
      }
    }
    if !closed {
      lexer.pos := closeState;
    }
  }

  /**
   * scan_html_tag_name (src/scanner.c:633-649). The 64-byte buffer becomes
   * the returned sequence; its bound stays: a 64th character fails.
   */
  method ScanHtmlTagName(lexer: Lexer) returns (ok: bool, name: seq<int>)
    requires lexer.Valid()
    modifies lexer`pos
    ensures lexer.Valid()
    ensures var r := TagNameLength(lexer.input, old(lexer.pos));
      ok == r.Some? && (ok ==> name == lexer.input[old(lexer.pos)..old(lexer.pos) + r.value] && lexer.pos == old(lexer.pos) + r.value)
  {
    var s, start := lexer.input, lexer.pos;
    name := [];
    if !IsTagStart(lexer.Lookahead()) {
      return false, name;
    }
    var i := 0;
    while IsTagChar(lexer.Lookahead())
      invariant lexer.Valid() && i < 64
      invariant lexer.pos == start + i && name == s[start..lexer.pos]
      invariant TagChars(s, start) == i + TagChars(s, lexer.pos)
      decreases |s| - lexer.pos
    {
      if i + 1 >= 64 {
        return false, name;
      }
      name := name + [lexer.Lookahead()];
      lexer.Advance();
      i := i + 1;
    }
    ok := i > 0;
  }

  /** scan_html_block (src/scanner.c:651-763); the cursor is rewound when the opening tag is not closed. */
  method ScanHtmlBlock(lexer: Lexer) returns (ok: bool)
    requires lexer.Valid()
    modifies lexer`pos, lexer`marked, lexer`markEnd
    ensures lexer.Valid()
    ensures var r := HtmlBlockEnd(lexer.input, old(lexer.pos));
      ok == r.Some? && (ok ==> lexer.marked && lexer.markEnd == r.value)
    ensures !ok ==> lexer.pos == old(lexer.pos)
  {
    if lexer.Lookahead() != LT {
      return false;
    }
    var s, saved := lexer.input, lexer.pos;
    // scan_literal(lexer, "<") cannot fail after the test above.
    lexer.Advance();
    var named, name := ScanHtmlTagName(lexer);
    if !named {
      lexer.pos := saved;
      return false;
    }
    var sawClose, selfClosing := ScanOpenTag(lexer);
    if !sawClose {
      lexer.pos := saved;
      return false;
    }
    if selfClosing {
      return true;
    }
    assert name == s[saved + 1..saved + 1 + |name|];
    ok := ScanHtmlBody(lexer, name);
  }

  /**
   * The attribute loop of scan_html_block (src/scanner.c:670-706): skip
   * quoted values whole, stop after `/>` or `>` and mark the end there.
   */
  method ScanOpenTag(lexer: Lexer) returns (sawClose: bool, selfClosing: bool)
    requires lexer.Valid()
    modifies lexer`pos, lexer`marked, lexer`markEnd
    ensures lexer.Valid()
    ensures var t := OpenTagEnd(lexer.input, old(lexer.pos));
      sawClose == t.Some? &&
      (sawClose ==> selfClosing == t.value.selfClosing && lexer.pos == t.value.end &&
                    lexer.marked && lexer.markEnd == t.value.end)
  {
    var s := lexer.input;
    ghost var attributes := lexer.pos;
    sawClose, selfClosing := false, false;
    while lexer.Lookahead() != NUL
      invariant lexer.Valid() && attributes <= lexer.pos
      invariant OpenTagEnd(s, lexer.pos) == OpenTagEnd(s, attributes)
      decreases |s| - lexer.pos
    {
      if lexer.Lookahead() == DQUOTE || lexer.Lookahead() == SQUOTE {
        var quote := lexer.Lookahead();
        lexer.Advance();
        ghost var inside := lexer.pos;
        while lexer.Lookahead() != NUL && lexer.Lookahead() != quote
          invariant lexer.Valid() && inside <= lexer.pos
          invariant Until(s, lexer.pos, quote) == Until(s, inside, quote)
          decreases |s| - lexer.pos
        {
          lexer.Advance();
        }
        if lexer.Lookahead() == quote {
          lexer.Advance();
        }
        continue;
      }
      if lexer.Lookahead() == SLASH {
        var slashState := lexer.pos;
        lexer.Advance();
        if lexer.Lookahead() == GT {
          lexer.Advance();
          lexer.MarkEnd();
          return true, true;
        }
        lexer.pos := slashState;
      }
      if lexer.Lookahead() == GT {
        lexer.Advance();
        lexer.MarkEnd();
        return true, false;
      }
      lexer.Advance();
    }
  }

  /** The body loop of scan_html_block (src/scanner.c:717-762). */
  method ScanHtmlBody(lexer: Lexer, name: seq<int>) returns (ok: bool)
    requires lexer.Valid()
    modifies lexer`pos, lexer`marked, lexer`markEnd
    ensures lexer.Valid()
    ensures ok && lexer.marked && lexer.markEnd == BodyEnd(lexer.input, old(lexer.pos), name)
  {
    var s := lexer.input;
    ghost var body := lexer.pos;
    while lexer.Lookahead() != NUL
      invariant lexer.Valid()
      invariant BodyEnd(s, lexer.pos, name) == BodyEnd(s, body, name)
      decreases |s| - lexer.pos
    {
      if lexer.Lookahead() == LT {
        var closed := ScanCloseTag(lexer, name);
        if closed {
          lexer.MarkEnd();
          return true;
        }
      }
      if IsNewline(lexer.Lookahead()) {
        var newlineState := lexer.pos;
        lexer.SkipLineBreak();
        if IsLineEnd(lexer.Lookahead()) {
          lexer.MarkEnd();
          return true;
        }
        lexer.pos := newlineState;
      }
      lexer.Advance();
    }
    lexer.MarkEnd();
    return true;
  }

  /**
   * The close-tag test in the body loop of scan_html_block
   * (src/scanner.c:718-737), the cursor at `<`; rewinds when it fails.
   */
  method ScanCloseTag(lexer: Lexer, name: seq<int>) returns (closed: bool)
    requires lexer.Valid() && lexer.Lookahead() == LT
    modifies lexer`pos
    ensures lexer.Valid()
    ensures var k := old(lexer.pos);
      closed == (Look(lexer.input, k + 1) == SLASH && CloseTagEnd(lexer.input, k + 2, name).Some?)
    ensures closed ==> lexer.pos == CloseTagEnd(lexer.input, old(lexer.pos) + 2, name).value
    ensures !closed ==> lexer.pos == old(lexer.pos)
  {
    var closeState := lexer.pos;
    lexer.Advance();
    if lexer.Lookahead() == SLASH {
      lexer.Advance();
      var matched, closeName := ScanHtmlTagName(lexer);
      if matched && |closeName| == |name| && closeName == name {
        var _ := lexer.SkipBlanks();
        if lexer.Lookahead() == GT {
          lexer.Advance();
          return true;
        }
      }
    }
    lexer.pos := closeState;
    return false;
  }

  // ---------------------------------------------------------------------
  // The scanner object

  class Scanner {
    var atStart: bool
    var inFrontmatter: bool
    var inFencedCode: bool
    var fenceChar: SignedChar
    var fenceLength: Uint8

    function State(): ScanState
      reads this
    {
      ScanState(atStart, inFrontmatter, inFencedCode, fenceChar, fenceLength)
    }

    /** tree_sitter_markdoc_external_scanner_create (src/scanner.c:30-38). */
    constructor ()
      ensures State() == Initial
    {
      atStart := true;
      inFrontmatter := false;
      inFencedCode := false;
      fenceChar := 0;
      fenceLength := 0;
    }

    /** tree_sitter_markdoc_external_scanner_serialize (src/scanner.c:44-56). */
    method Serialize(buffer: array<Byte>) returns (length: nat)
      requires buffer.Length >= SnapshotSize
      modifies buffer
      ensures length == SnapshotSize
      ensures buffer[..SnapshotSize] == Encode(State())
      ensures buffer[SnapshotSize..] == old(buffer[SnapshotSize..])
    {
      var i := 0;
      buffer[i] := FlagByte(atStart);
      i := i + 1;
      buffer[i] := FlagByte(inFrontmatter);
      i := i + 1;
      buffer[i] := FlagByte(inFencedCode);
      i := i + 1;
      buffer[i] := CharByte(fenceChar);
      i := i + 1;
      buffer[i] := fenceLength;
      i := i + 1;
      length := i;
    }

    /** tree_sitter_markdoc_external_scanner_deserialize (src/scanner.c:57-81). */
    method Deserialize(buffer: array<Byte>, length: nat)
      requires length <= buffer.Length
      modifies this
      ensures State() == Decode(buffer[..length])
    {
      atStart := true;
      inFrontmatter := false;
      inFencedCode := false;
      fenceChar := 0;
      fenceLength := 0;
      var i := 0;
      if i < length {
        atStart := buffer[i] != 0;
        i := i + 1;
      }
      if i < length {
        inFrontmatter := buffer[i] != 0;
        i := i + 1;
      }
      if i < length {
        inFencedCode := buffer[i] != 0;
        i := i + 1;
      }
      if i < length {
        fenceChar := ByteChar(buffer[i]);
        i := i + 1;
      }
      if i < length {
        fenceLength := buffer[i];
        i := i + 1;
      }
    }

    /**
     * scan_unordered_or_thematic (src/scanner.c:98-190), the cursor at the
     * marker after `indent` blanks. An unordered marker not followed by a
     * blank is not marked: its token ends at the cursor.
     */
    method ScanUnorderedOrThematic(lexer: Lexer, valid: set<TokenType>, indent: nat) returns (ok: bool)
      requires lexer.Valid() && !lexer.marked
      modifies this`inFrontmatter, this`atStart, lexer`pos, lexer`marked, lexer`markEnd, lexer`resultSymbol
      ensures lexer.Valid()
      ensures var o := UnorderedOrThematic(old(atStart), valid, lexer.input, old(lexer.pos), indent);
        ok == o.Accept? && (ok ==> lexer.resultSymbol == o.symbol && lexer.TokenEnd() == o.end) &&
        if ok && o.symbol == FrontmatterDelim then inFrontmatter && !atStart
        else inFrontmatter == old(inFrontmatter) && atStart == old(atStart)
    {
      var s, start := lexer.input, lexer.pos;
      var wantsList := UnorderedListMarker in valid || IndentedUnorderedListMarker in valid;
      var wantsFrontmatter := FrontmatterDelim in valid && atStart;
      if ThematicBreak !in valid && !wantsList && !wantsFrontmatter {
        return false;
      }
      var marker := lexer.Lookahead();
      if marker != STAR && marker != DASH && marker != UNDERSCORE {
        return false;
      }
      var markerCount, hasSpace, breakCount, afterSpace := ScanMarkerRun(lexer, marker);
      ghost var run := MarkerRun(markerCount, hasSpace, afterSpace, breakCount, lexer.pos);
      ok := ScanMarkerDecision(lexer, valid, indent, marker, markerCount, hasSpace, breakCount, run);
    }

    /**
     * The decisions of scan_unordered_or_thematic (src/scanner.c:140-189),
     * the cursor after the measured runs.
     */
    method ScanMarkerDecision(lexer: Lexer, valid: set<TokenType>, indent: nat, marker: int,
                              markerCount: nat, hasSpace: bool, breakCount: nat, ghost run: MarkerRun) returns (ok: bool)
      requires lexer.Valid() && (marker == STAR || marker == DASH || marker == UNDERSCORE)
      requires run == MarkerRun(markerCount, hasSpace, run.afterSpace, breakCount, lexer.pos)
      requires run.breakCount == run.count || !run.hasSpace ==> run.afterSpace == run.end
      requires lexer.marked == hasSpace && (hasSpace ==> lexer.markEnd == run.afterSpace)
      modifies this`inFrontmatter, this`atStart, lexer`pos, lexer`marked, lexer`markEnd, lexer`resultSymbol
      ensures lexer.Valid()
      ensures var s, e := lexer.input, old(lexer.pos);
        var o := MarkerDecision(old(atStart), valid, marker, indent, run, IsLineEnd(Look(s, e)), FrontmatterClosing(s, e));
        ok == o.Accept? && (ok ==> lexer.resultSymbol == o.symbol && lexer.TokenEnd() == o.end) &&
        if ok && o.symbol == FrontmatterDelim then inFrontmatter && !atStart
        else inFrontmatter == old(inFrontmatter) && atStart == old(atStart)
    {
      var wantsFrontmatter := FrontmatterDelim in valid && atStart;
      var lineEnd := IsLineEnd(lexer.Lookahead());
      var hasContent := !lineEnd;
      var frontmatterCandidate := wantsFrontmatter && marker == DASH && indent == 0 &&
        markerCount == 3 && breakCount == 3 && lineEnd;
      if frontmatterCandidate {
        if !hasSpace {
          lexer.MarkEnd();
        }
        var closed := ScanFrontmatterClosingDelimiter(lexer);
        if closed {
          lexer.resultSymbol := FrontmatterDelim;
          inFrontmatter := true;
          atStart := false;
          return true;
        }
        if ThematicBreak in valid && indent < 4 {
          lexer.resultSymbol := ThematicBreak;
          return true;
        }
        return false;
      }
      if ThematicBreak in valid && lineEnd && breakCount >= 3 && indent < 4 {
        lexer.resultSymbol := ThematicBreak;
        lexer.MarkEnd();
        return true;
      }
      if (!hasSpace && !hasContent) || (marker != STAR && marker != DASH) {
        return false;
      }
      if marker == DASH && markerCount > 1 {
        return false;
      }
      var isIndented := indent > 0 || (marker == STAR && markerCount > 1);
      if isIndented {
        if IndentedUnorderedListMarker !in valid {
          return false;
        }
        lexer.resultSymbol := IndentedUnorderedListMarker;
      } else {
        if UnorderedListMarker !in valid {
          return false;
        }
        lexer.resultSymbol := UnorderedListMarker;
      }
      return true;
    }

    /**
     * The three runs of scan_unordered_or_thematic (src/scanner.c:110-136):
     * the markers, the blanks after them (marking the token end when there
     * is one), and the rest of the marker-and-blank run, counting markers.
     */
    static method ScanMarkerRun(lexer: Lexer, marker: int) returns (markerCount: nat, hasSpace: bool, breakCount: nat, ghost afterSpace: nat)
      requires lexer.Valid() && marker != NUL
      modifies lexer`pos, lexer`marked, lexer`markEnd
      ensures lexer.Valid()
      ensures MeasureMarkerRun(lexer.input, old(lexer.pos), marker) == MarkerRun(markerCount, hasSpace, afterSpace, breakCount, lexer.pos)
      ensures if hasSpace then lexer.marked && lexer.markEnd == afterSpace
        else lexer.marked == old(lexer.marked) && lexer.markEnd == old(lexer.markEnd)
    {
      var s, start := lexer.input, lexer.pos;
      markerCount := 0;
      while lexer.Lookahead() == marker
        invariant lexer.Valid() && lexer.pos == start + markerCount
        invariant lexer.marked == old(lexer.marked) && lexer.markEnd == old(lexer.markEnd)
        invariant Span(s, start, marker) == markerCount + Span(s, lexer.pos, marker)
        decreases |s| - lexer.pos
      {
        lexer.Advance();
        markerCount := markerCount + 1;
      }
      var blanks := lexer.SkipBlanks();
      hasSpace := blanks > 0;
      if hasSpace {
        lexer.MarkEnd();
      }
      afterSpace := lexer.pos;
      var marks := ScanMixedRun(lexer, marker);
      breakCount := markerCount + marks;
    }

    /**
     * The last run of scan_unordered_or_thematic (src/scanner.c:130-136):
     * markers and blanks in any order, counting the markers.
     */
    static method ScanMixedRun(lexer: Lexer, marker: int) returns (marks: nat)
      requires lexer.Valid() && marker != NUL
      modifies lexer`pos
      ensures lexer.Valid()
      ensures marks == Marks(lexer.input, old(lexer.pos), marker) && lexer.pos == MixedEnd(lexer.input, old(lexer.pos), marker)
    {
      var s, start := lexer.input, lexer.pos;
      marks := 0;
      while lexer.Lookahead() == marker || IsBlank(lexer.Lookahead())
        invariant lexer.Valid() && start <= lexer.pos
        invariant MixedEnd(s, lexer.pos, marker) == MixedEnd(s, start, marker)
        invariant Marks(s, start, marker) == marks + Marks(s, lexer.pos, marker)
        decreases |s| - lexer.pos
      {
        if lexer.Lookahead() == marker {
          marks := marks + 1;
        }
        lexer.Advance();
      }
    }

    /** scan_fence_close_line (src/scanner.c:362-395). */
    method ScanFenceCloseLine(lexer: Lexer) returns (ok: bool)
      requires lexer.Valid()
      modifies lexer`pos, lexer`marked, lexer`markEnd
      ensures lexer.Valid()
      ensures var r := FenceCloseLine(lexer.input, old(lexer.pos), fenceChar, fenceLength);
        ok == r.Some? && (ok ==> lexer.marked && lexer.markEnd == r.value && lexer.pos == r.value)
      ensures !ok ==> lexer.marked == old(lexer.marked) && lexer.markEnd == old(lexer.markEnd)
    {
      var saved := lexer.pos;
      if lexer.Column() != 0 {
        return false;
      }
      var count := lexer.SkipRun(fenceChar, 255);
      if count < fenceLength {
        lexer.pos := saved;
        return false;
      }
      var _ := lexer.SkipBlanks();
      lexer.SkipLineBreak();
      lexer.MarkEnd();
      return true;
    }

    /**
     * The code-body loop of the scan entry (src/scanner.c:889-942): consume
     * whole lines, stopping before a line that closes the fence.
     */
    method ScanCodeBody(lexer: Lexer) returns (hasContent: bool)
      requires lexer.Valid()
      modifies lexer`pos, lexer`marked, lexer`markEnd
      ensures lexer.Valid()
      ensures var e := ContentStop(lexer.input, old(lexer.pos), fenceChar, fenceLength, Column(lexer.input, old(lexer.pos)) == 0);
        hasContent == (old(lexer.pos) < e) && lexer.pos == e && (hasContent ==> lexer.marked && lexer.markEnd == e)
    {
      var s, start := lexer.input, lexer.pos;
      ghost var stop := ContentStop(s, start, fenceChar, fenceLength, Column(s, start) == 0);
      hasContent := false;
      var atLineStart := lexer.Column() == 0;
      while lexer.Lookahead() != NUL
        invariant lexer.Valid() && start <= lexer.pos
        invariant ContentStop(s, lexer.pos, fenceChar, fenceLength, atLineStart) == stop
        invariant hasContent == (start < lexer.pos)
        invariant hasContent ==> lexer.marked && lexer.markEnd == lexer.pos
        decreases |s| - lexer.pos
      {
        if atLineStart && lexer.Lookahead() == fenceChar {
          var isClose := ScanCloseRun(lexer);
          if isClose {
            break;
          }
        }
        if IsNewline(lexer.Lookahead()) {
          lexer.SkipLineBreak();
          lexer.MarkEnd();
          hasContent := true;
          atLineStart := true;
          continue;
        }
        lexer.Advance();
        lexer.MarkEnd();
        hasContent := true;
        atLineStart := false;
      }
    }

    /**
     * The closing-fence test of the code-body loop (src/scanner.c:896-918):
     * measure the run and the blanks after it, then rewind.
     */
    method ScanCloseRun(lexer: Lexer) returns (isClose: bool)
      requires lexer.Valid() && lexer.Lookahead() == fenceChar
      modifies lexer`pos
      ensures lexer.Valid() && lexer.pos == old(lexer.pos)
      ensures isClose == CloseRun(lexer.input, lexer.pos, fenceChar, fenceLength)
    {
      var closeState := lexer.pos;
      var count := lexer.SkipRun(fenceChar, 255);
      isClose := false;
      if count >= fenceLength {
        var _ := lexer.SkipBlanks();
        if IsLineEnd(lexer.Lookahead()) {
          isClose := true;
        }
      }
      lexer.pos := closeState;
    }

    /** The column-0 stage of the scan entry (src/scanner.c:809-846); the cursor is rewound on failure. */
    method ScanLineStart(lexer: Lexer, valid: set<TokenType>) returns (ok: bool)
      requires lexer.Valid() && !lexer.marked
      modifies this, lexer
      ensures lexer.Valid()
      ensures var step := LineStartStep(old(State()), lexer.input, old(lexer.pos), valid);
        ok == step.outcome.Accept? && State() == step.state &&
        (ok ==> lexer.resultSymbol == step.outcome.symbol && lexer.TokenEnd() == step.outcome.end)
      ensures !ok ==> lexer.pos == old(lexer.pos)
    {
      if lexer.Column() != 0 {
        return false;
      }
      if FrontmatterDelim in valid && inFrontmatter {
        var closed := ScanFrontmatterDelimiter(lexer);
        if closed {
          lexer.resultSymbol := FrontmatterDelim;
          inFrontmatter := false;
          atStart := false;
          return true;
        }
      }
      ok := ScanLineMarker(lexer, valid);
    }

    /**
     * The marker dispatch of the column-0 stage (src/scanner.c:820-845):
     * skip the indentation and let the first character choose the
     * recogniser; the cursor is rewound when none produces a token.
     */
    method ScanLineMarker(lexer: Lexer, valid: set<TokenType>) returns (ok: bool)
      requires lexer.Valid() && !lexer.marked
      modifies this`inFrontmatter, this`atStart, lexer`pos, lexer`marked, lexer`markEnd, lexer`resultSymbol
      ensures lexer.Valid()
      ensures var o := LineStartMarker(old(atStart), valid, lexer.input, old(lexer.pos));
        ok == o.Accept? && (ok ==> lexer.resultSymbol == o.symbol && lexer.TokenEnd() == o.end) &&
        (ok ==> !atStart && inFrontmatter == (o.symbol == FrontmatterDelim || old(inFrontmatter))) &&
        (!ok ==> atStart == old(atStart) && inFrontmatter == old(inFrontmatter) && lexer.pos == old(lexer.pos))
    {
      var listState := lexer.pos;
      var indent := lexer.SkipBlanks();
      ok := ScanMarkerAt(lexer, valid, indent);
      if ok {
        atStart := false;
      } else {
        lexer.pos := listState;
      }
    }

    /** The recogniser dispatch on the first character after the indentation (src/scanner.c:826-841). */
    method ScanMarkerAt(lexer: Lexer, valid: set<TokenType>, indent: nat) returns (ok: bool)
      requires lexer.Valid() && !lexer.marked
      modifies this`inFrontmatter, this`atStart, lexer`pos, lexer`marked, lexer`markEnd, lexer`resultSymbol
      ensures lexer.Valid()
      ensures var o := MarkerAt(old(atStart), valid, lexer.input, old(lexer.pos), indent);
        ok == o.Accept? && (ok ==> lexer.resultSymbol == o.symbol && lexer.TokenEnd() == o.end) &&
        (ok ==> inFrontmatter == (o.symbol == FrontmatterDelim || old(inFrontmatter))) &&
        (!ok ==> atStart == old(atStart) && inFrontmatter == old(inFrontmatter))
    {
      var marker := lexer.Lookahead();
      if marker == STAR || marker == DASH || marker == UNDERSCORE {
        ok := ScanUnorderedOrThematic(lexer, valid, indent);
      } else if marker == PLUS {
        ok := ScanUnorderedListPlus(lexer, valid, indent);
      } else if IsDigit(marker) {
        ok := ScanOrderedListMarker(lexer, valid, indent);
      } else {
        ok := false;
      }
    }

    /** List continuation, soft line break and the HTML tokens (src/scanner.c:952-1016). */
    method ScanTail(lexer: Lexer, valid: set<TokenType>) returns (ok: bool)
      requires lexer.Valid()
      modifies this`atStart, lexer`pos, lexer`marked, lexer`markEnd, lexer`resultSymbol
      ensures lexer.Valid()
      ensures var step := TailStep(old(State()), lexer.input, old(lexer.pos), valid);
        ok == step.outcome.Accept? && State() == step.state &&
        (ok ==> lexer.resultSymbol == step.outcome.symbol && lexer.TokenEnd() == step.outcome.end)
    {
      if ListContinuation in valid {
        ok := ScanListContinuation(lexer);
        if ok {
          lexer.resultSymbol := ListContinuation;
          atStart := false;
        }
        return;
      }
      if SoftLineBreak in valid {
        ok := ScanSoftLineBreak(lexer);
        if ok {
          lexer.resultSymbol := SoftLineBreak;
          atStart := false;
          return;
        }
      }
      if HtmlComment in valid {
        ok := ScanHtmlComment(lexer);
        if ok {
          lexer.resultSymbol := HtmlComment;
          atStart := false;
          return;
        }
      }
      if HtmlBlock in valid {
        ok := ScanHtmlBlock(lexer);
        if ok {
          lexer.resultSymbol := HtmlBlock;
          atStart := false;
          return;
        }
      }
      return false;
    }

    /** Fence open, fence close and code body (src/scanner.c:848-949), then the tail. */
    method ScanCode(lexer: Lexer, valid: set<TokenType>) returns (ok: bool)
      requires lexer.Valid()
      modifies this, lexer
      ensures lexer.Valid()
      ensures var step := FenceStep(old(State()), lexer.input, old(lexer.pos), valid);
        ok == step.outcome.Accept? && State() == step.state &&
        (ok ==> lexer.resultSymbol == step.outcome.symbol && lexer.TokenEnd() == step.outcome.end)
    {
      if CodeFenceOpen in valid && !inFencedCode && (lexer.Lookahead() == BACKTICK || lexer.Lookahead() == TILDE) {
        ghost var st, p := State(), lexer.pos;
        ok := ScanFenceOpen(lexer);
        if ok {
          return;
        }
        assert FenceStep(st, lexer.input, p, valid) == TailStep(st, lexer.input, lexer.pos, valid);
        ok := ScanTail(lexer, valid);
        return;
      }
      if CodeFenceClose in valid && inFencedCode && lexer.Lookahead() == fenceChar {
        ok := ScanFenceClose(lexer);
        if ok {
          return;
        }
      }
      if CodeContent in valid && inFencedCode {
        ok := ScanCodeContent(lexer, valid);
        return;
      }
      ok := ScanTail(lexer, valid);
    }

    /**
     * The fence-open branch (src/scanner.c:848-867): a run of at least 3 opens
     * the block. A shorter run is not rewound, so the later stages start
     * after it.
     */
    method ScanFenceOpen(lexer: Lexer) returns (ok: bool)
      requires lexer.Valid()
      requires lexer.Lookahead() == BACKTICK || lexer.Lookahead() == TILDE
      modifies this`inFencedCode, this`fenceChar, this`fenceLength, this`atStart
      modifies lexer`pos, lexer`marked, lexer`markEnd, lexer`resultSymbol
      ensures lexer.Valid()
      ensures var c := Look(lexer.input, old(lexer.pos));
        var n := Run(lexer.input, old(lexer.pos), c, 255);
        lexer.pos == old(lexer.pos) + n && ok == (n >= 3) &&
        if ok then
          State() == old(State()).(inFencedCode := true, fenceChar := c, fenceLength := n, atStart := false) &&
          lexer.resultSymbol == CodeFenceOpen && lexer.marked && lexer.markEnd == lexer.pos
        else
          State() == old(State()) && lexer.marked == old(lexer.marked) && lexer.markEnd == old(lexer.markEnd)
    {
      var fc := lexer.Lookahead();
      var count := lexer.SkipRun(fc, 255);
      if count < 3 {
        return false;
      }
      lexer.MarkEnd();
      inFencedCode := true;
      fenceChar := fc;
      fenceLength := count;
      lexer.resultSymbol := CodeFenceOpen;
      atStart := false;
      return true;
    }

    /** The fence-close branch (src/scanner.c:869-882); nothing changes when the line does not close. */
    method ScanFenceClose(lexer: Lexer) returns (closed: bool)
      requires lexer.Valid() && inFencedCode
      modifies this, lexer
      ensures lexer.Valid()
      ensures var r := FenceCloseLine(lexer.input, old(lexer.pos), old(fenceChar), old(fenceLength));
        closed == r.Some? &&
        (closed ==> lexer.resultSymbol == CodeFenceClose && lexer.TokenEnd() == r.value &&
                    State() == old(State()).(inFencedCode := false, fenceChar := 0, fenceLength := 0, atStart := false))
      ensures !closed ==>
        State() == old(State()) && lexer.pos == old(lexer.pos) &&
        lexer.marked == old(lexer.marked) && lexer.markEnd == old(lexer.markEnd) &&
        lexer.resultSymbol == old(lexer.resultSymbol)
    {
      var closeState := lexer.pos;
      closed := ScanFenceCloseLine(lexer);
      if closed {
        lexer.MarkEnd();
        inFencedCode := false;
        fenceChar := 0;
        fenceLength := 0;
        lexer.resultSymbol := CodeFenceClose;
        atStart := false;
        return;
      }
      lexer.pos := closeState;
    }

    /** The code-body branch (src/scanner.c:884-949), then the later stages when no content was found. */
    method ScanCodeContent(lexer: Lexer, valid: set<TokenType>) returns (ok: bool)
      requires lexer.Valid()
      modifies this, lexer
      ensures lexer.Valid()
      ensures var step := CodeContentStep(old(State()), lexer.input, old(lexer.pos), valid);
        ok == step.outcome.Accept? && State() == step.state &&
        (ok ==> lexer.resultSymbol == step.outcome.symbol && lexer.TokenEnd() == step.outcome.end)
    {
      ghost var st, p := State(), lexer.pos;
      if lexer.Lookahead() == NUL {
        assert CodeContentStep(st, lexer.input, p, valid) == Step(Reject, st);
        return false;
      }
      var hasContent := ScanCodeBody(lexer);
      if hasContent {
        lexer.resultSymbol := CodeContent;
        atStart := false;
        return true;
      }
      ok := ScanTail(lexer, valid);
    }

    /**
     * tree_sitter_markdoc_external_scanner_scan (src/scanner.c:806-1017): the
     * host starts each call with no token end marked.
     */
    method Scan(lexer: Lexer, valid: set<TokenType>) returns (ok: bool)
      requires lexer.Valid() && !lexer.marked
      modifies this, lexer
      ensures lexer.Valid()
      ensures var step := ScanSpec(old(State()), lexer.input, old(lexer.pos), valid);
        ok == step.outcome.Accept? && State() == step.state &&
        (ok ==> lexer.resultSymbol == step.outcome.symbol && lexer.TokenEnd() == step.outcome.end)
    {
      ok := ScanLineStart(lexer, valid);
      if ok {
        return;
      }
      ok := ScanCode(lexer, valid);
    }
  }
}
