/*
 * The lookahead line classifiers of src/scanner.c (is_heading_marker_line,
 * is_blockquote_line, is_fenced_code_line, is_list_marker_line,
 * is_markdoc_block_tag_line, is_thematic_break_line).
 *
 * Each one advances the lexer and rewinds it before returning, so its net
 * effect is a predicate of the input and the cursor. The predicates below
 * state that value; the methods walk a local copy of the cursor, as the
 * source walks the lexer between the save and the rewind, and are proved
 * to compute it.
 */
module Lines {
  import opened Text
  import opened Lexing

  /** One to six `#` at column 0, then a space or tab (src/scanner.c:397-412). */
  predicate HeadingLine(s: seq<int>, i: nat)
    requires i <= |s|
  {
    var n := Run(s, i, HASH, 6);
    Column(s, i) == 0 && 0 < n && IsBlank(Look(s, i + n))
  }

  /** A `>` at column 0 (src/scanner.c:414-420). */
  predicate BlockquoteLine(s: seq<int>, i: nat)
    requires i <= |s|
  {
    Column(s, i) == 0 && Look(s, i) == GT
  }

  /** Three backticks or three tildes at column 0 (src/scanner.c:422-442). */
  predicate FenceLine(s: seq<int>, i: nat)
    requires i <= |s|
  {
    Column(s, i) == 0 && (Look(s, i) == BACKTICK || Look(s, i) == TILDE) && Run(s, i, Look(s, i), 3) >= 3
  }

  /**
   * After optional blanks, `*`, `+` or `-` followed by a blank, or one to
   * nine digits, `.` or `)`, and a blank (src/scanner.c:483-518). There is
   * no column test.
   */
  predicate ListMarkerLine(s: seq<int>, i: nat)
    requires i <= |s|
  {
    ListMarkerAt(s, i + Blanks(s, i))
  }

  /** The marker test of is_list_marker_line once the blanks are skipped. */
  predicate ListMarkerAt(s: seq<int>, j: nat)
    requires j <= |s|
  {
    var c := Look(s, j);
    if c == STAR || c == PLUS || c == DASH then
      IsBlank(Look(s, j + 1))
    else
      var d := DigitRun(s, j, 9);
      IsDigit(c) && (Look(s, j + d) == DOT || Look(s, j + d) == RPAREN) && IsBlank(Look(s, j + d + 1))
  }

  /** The position just after the first `%}` at or after `j` on the current line. */
  function TagClose(s: seq<int>, j: nat): (r: Option<nat>)
    requires j <= |s|
    ensures r.Some? ==> j + 2 <= r.value <= |s| && s[r.value - 2] == PERCENT && s[r.value - 1] == RBRACE
    decreases |s| - j
  {
    if IsLineEnd(Look(s, j)) then None
    else if Look(s, j) == PERCENT && Look(s, j + 1) == RBRACE then Some(j + 2)
    else TagClose(s, j + 1)
  }

  /**
   * `{%` at column 0, and the first `%}` on the line followed only by blanks
   * up to the line end (src/scanner.c:520-562).
   */
  predicate BlockTagLine(s: seq<int>, i: nat)
    requires i <= |s|
  {
    Column(s, i) == 0 && Look(s, i) == LBRACE && Look(s, i + 1) == PERCENT &&
    var j := i + 2 + Blanks(s, i + 2);
    var close := TagClose(s, j);
    close.Some? && IsLineEnd(Look(s, close.value + Blanks(s, close.value)))
  }

  /**
   * At column 0, fewer than four blanks, then `*`, `-` or `_` and a run of
   * that marker and blanks holding at least three markers, up to the line
   * end (src/scanner.c:765-804).
   */
  predicate ThematicBreakLine(s: seq<int>, i: nat)
    requires i <= |s|
  {
    var j := i + Blanks(s, i);
    var m := Look(s, j);
    Column(s, i) == 0 && Blanks(s, i) < 4 && (m == STAR || m == DASH || m == UNDERSCORE) &&
    Marks(s, j, m) >= 3 && IsLineEnd(Look(s, MixedEnd(s, j, m)))
  }

  // ---------------------------------------------------------------------
  // The classifiers as the is_*_line functions run them: each leaves the lexer as it was.

  method IsHeadingMarkerLine(lexer: Lexer) returns (r: bool)
    requires lexer.Valid()
    ensures r == HeadingLine(lexer.input, lexer.pos)
  {
    if lexer.Column() != 0 {
      return false;
    }
    var s, j := lexer.input, lexer.pos;
    var count := 0;
    while Look(s, j) == HASH && count < 6
      invariant j == lexer.pos + count <= |s| && count <= 6
      invariant Run(s, lexer.pos, HASH, 6) == count + Run(s, j, HASH, 6 - count)
    {
      j := j + 1;
      count := count + 1;
    }
    r := count > 0 && count <= 6 && IsBlank(Look(s, j));
  }

  method IsBlockquoteLine(lexer: Lexer) returns (r: bool)
    requires lexer.Valid()
    ensures r == BlockquoteLine(lexer.input, lexer.pos)
  {
    if lexer.Column() != 0 {
      return false;
    }
    r := lexer.Lookahead() == GT;
  }

  method IsFencedCodeLine(lexer: Lexer) returns (r: bool)
    requires lexer.Valid()
    ensures r == FenceLine(lexer.input, lexer.pos)
  {
    if lexer.Column() != 0 {
      return false;
    }
    var marker := lexer.Lookahead();
    if marker != BACKTICK && marker != TILDE {
      return false;
    }
    var s, j := lexer.input, lexer.pos;
    var count := 0;
    while Look(s, j) == marker && count < 3
      invariant j == lexer.pos + count <= |s| && count <= 3
      invariant Run(s, lexer.pos, marker, 3) == count + Run(s, j, marker, 3 - count)
    {
      j := j + 1;
      count := count + 1;
    }
    r := count >= 3;
  }

  method IsListMarkerLine(lexer: Lexer) returns (r: bool)
    requires lexer.Valid()
    ensures r == ListMarkerLine(lexer.input, lexer.pos)
  {
    var s := lexer.input;
    var j := SkipBlanksAt(s, lexer.pos);
    var first := Look(s, j);
    if first == STAR || first == PLUS || first == DASH {
      return IsBlank(Look(s, j + 1));
    }
    if IsDigit(first) {
      j := SkipDigitsAt(s, j);
      if Look(s, j) == DOT || Look(s, j) == RPAREN {
        return IsBlank(Look(s, j + 1));
      }
    }
    return false;
  }

  /** The blank-skipping loop of the classifiers, on a copy of the cursor. */
  method SkipBlanksAt(s: seq<int>, i: nat) returns (j: nat)
    requires i <= |s|
    ensures j == i + Blanks(s, i)
  {
    j := i;
    while IsBlank(Look(s, j))
      invariant i <= j <= |s|
      invariant Blanks(s, i) == j - i + Blanks(s, j)
      decreases |s| - j
    {
      j := j + 1;
    }
  }

  /** The digit loop of is_list_marker_line (src/scanner.c:499-503): at most nine digits. */
  method SkipDigitsAt(s: seq<int>, i: nat) returns (j: nat)
    requires i <= |s|
    ensures j == i + DigitRun(s, i, 9)
  {
    j := i;
    var digits := 0;
    while IsDigit(Look(s, j)) && digits < 9
      invariant j == i + digits <= |s| && digits <= 9
      invariant DigitRun(s, i, 9) == digits + DigitRun(s, j, 9 - digits)
    {
      digits := digits + 1;
      j := j + 1;
    }
  }

  method IsMarkdocBlockTagLine(lexer: Lexer) returns (r: bool)
    requires lexer.Valid()
    ensures r == BlockTagLine(lexer.input, lexer.pos)
  {
    var s, i := lexer.input, lexer.pos;
    if lexer.Column() != 0 || Look(s, i) != LBRACE || Look(s, i + 1) != PERCENT {
      return false;
    }
    var j := i + 2;
    while IsBlank(Look(s, j))
      invariant i + 2 <= j <= |s|
      invariant Blanks(s, i + 2) == j - (i + 2) + Blanks(s, j)
      decreases |s| - j
    {
      j := j + 1;
    }
    var foundClose, k := SkipPastTagClose(s, j);
    r := foundClose && IsLineEnd(Look(s, k));
  }

  /**
   * The search loop of is_markdoc_block_tag_line: walk the line up to the
   * first `%}` and past the blanks after it.
   */
  method SkipPastTagClose(s: seq<int>, start: nat) returns (found: bool, j: nat)
    requires start <= |s|
    ensures found == TagClose(s, start).Some?
    ensures found ==> j == TagClose(s, start).value + Blanks(s, TagClose(s, start).value)
    ensures !found ==> IsLineEnd(Look(s, j))
  {
    j := start;
    found := false;
    while !IsLineEnd(Look(s, j))
      invariant start <= j <= |s|
      invariant TagClose(s, j) == TagClose(s, start)
      decreases |s| - j
    {
      if Look(s, j) == PERCENT && Look(s, j + 1) == RBRACE {
        j := j + 2;
        ghost var after := j;
        while IsBlank(Look(s, j))
          invariant after <= j <= |s|
          invariant Blanks(s, after) == j - after + Blanks(s, j)
          decreases |s| - j
        {
          j := j + 1;
        }
        found := true;
        return;
      }
      j := j + 1;
    }
  }

  method IsThematicBreakLine(lexer: Lexer) returns (r: bool)
    requires lexer.Valid()
    ensures r == ThematicBreakLine(lexer.input, lexer.pos)
  {
    if lexer.Column() != 0 {
      return false;
    }
    var s := lexer.input;
    var j := SkipBlanksAt(s, lexer.pos);
    var indent := j - lexer.pos;
    if indent >= 4 {
      return false;
    }
    var marker := Look(s, j);
    if marker != STAR && marker != DASH && marker != UNDERSCORE {
      return false;
    }
    var markerCount;
    j, markerCount := SkipMarksAt(s, j, marker);
    // is_thematic_break_line skips blanks once more here; the run above already ended on a non-blank.
    r := markerCount >= 3 && IsLineEnd(Look(s, j));
  }

  /** The run of markers and blanks of is_thematic_break_line (src/scanner.c:789-794), counting the markers. */
  method SkipMarksAt(s: seq<int>, i: nat, marker: int) returns (j: nat, count: nat)
    requires i <= |s| && marker != NUL
    ensures j == MixedEnd(s, i, marker) && count == Marks(s, i, marker)
  {
    j, count := i, 0;
    while Look(s, j) == marker || IsBlank(Look(s, j))
      invariant i <= j <= |s|
      invariant MixedEnd(s, j, marker) == MixedEnd(s, i, marker)
      invariant Marks(s, i, marker) == count + Marks(s, j, marker)
      decreases |s| - j
    {
      if Look(s, j) == marker {
        count := count + 1;
      }
      j := j + 1;
    }
  }
}
