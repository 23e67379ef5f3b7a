/*
 * What the column-0 stage promises about its tokens: frontmatter opens only
 * as the first token of the document, on a dash line with a closing line
 * further on; a thematic break takes priority over a list marker; which
 * runs of `*`, `-`, `+` and digits are list markers, and which variant.
 */
module MarkerProperties {
  import opened Text
  import opened Lexing
  import opened Lines
  import opened Recognizers

  // ---------------------------------------------------------------------
  // Runs of markers and blanks

  /** A run of markers and blanks is its leading run of markers and the rest. */
  lemma {:induction false} MixedAfterSpan(s: seq<int>, i: nat, m: int)
    requires i <= |s| && m != NUL
    ensures MixedEnd(s, i, m) == MixedEnd(s, i + Span(s, i, m), m)
    ensures Marks(s, i, m) == Span(s, i, m) + Marks(s, i + Span(s, i, m), m)
    decreases |s| - i
  {
    if Look(s, i) == m {
      MixedAfterSpan(s, i + 1, m);
    }
  }

  /** Leading blanks add no markers to a run of markers and blanks. */
  lemma {:induction false} MixedAfterBlanks(s: seq<int>, i: nat, m: int)
    requires i <= |s| && m != NUL && !IsBlank(m)
    ensures MixedEnd(s, i, m) == MixedEnd(s, i + Blanks(s, i), m)
    ensures Marks(s, i, m) == Marks(s, i + Blanks(s, i), m)
    decreases |s| - i
  {
    if IsBlank(Look(s, i)) {
      MixedAfterBlanks(s, i + 1, m);
    }
  }

  /**
   * The three loops of scan_unordered_or_thematic together measure the same
   * run of markers and blanks that is_thematic_break_line measures.
   */
  lemma MarkerRunIsMixed(s: seq<int>, j: nat, m: int)
    requires j <= |s| && m != NUL && !IsBlank(m)
    ensures MeasureMarkerRun(s, j, m).end == MixedEnd(s, j, m)
    ensures MeasureMarkerRun(s, j, m).breakCount == Marks(s, j, m)
  {
    var count := Span(s, j, m);
    var a := j + count;
    var b := Blanks(s, a);
    assert MeasureMarkerRun(s, j, m) == MarkerRun(count, b > 0, a + b, count + Marks(s, a + b, m), MixedEnd(s, a + b, m));
    MixedAfterSpan(s, j, m);
    MixedAfterBlanks(s, a, m);
  }

  // ---------------------------------------------------------------------
  // Thematic breaks

  /**
   * On a thematic-break line the column-0 stage gives a thematic break over
   * any list marker, unless the line opens frontmatter; both tokens end
   * where the run of markers and blanks ends.
   */
  lemma ThematicBreakFirst(atStart: bool, valid: set<TokenType>, s: seq<int>, p: nat)
    requires p <= |s| && ThematicBreakLine(s, p) && ThematicBreak in valid
    ensures var j := p + Blanks(s, p);
      var e := MixedEnd(s, j, Look(s, j));
      var o := LineStartMarker(atStart, valid, s, p);
      o == Accept(ThematicBreak, e) ||
      (o == Accept(FrontmatterDelim, e) && atStart && FrontmatterDelim in valid && Blanks(s, p) == 0)
  {
    var j := p + Blanks(s, p);
    MarkerRunIsMixed(s, j, Look(s, j));
  }

  // ---------------------------------------------------------------------
  // Frontmatter

  /**
   * For a line starting with `-`, the frontmatter test inside
   * scan_unordered_or_thematic (exactly three markers, no more after the
   * blanks, then the line end) is scan_frontmatter_delimiter, and both end
   * at the same place.
   */
  lemma DashLineIsDelimiter(s: seq<int>, j: nat)
    requires j <= |s| && Look(s, j) == DASH
    ensures var run := MeasureMarkerRun(s, j, DASH);
      (run.count == 3 && run.breakCount == 3 && IsLineEnd(Look(s, run.end))) <==> FrontmatterDelimiter(s, j).Some?
    ensures FrontmatterDelimiter(s, j).Some? ==> FrontmatterDelimiter(s, j).value == MeasureMarkerRun(s, j, DASH).end
  {
    var run := MeasureMarkerRun(s, j, DASH);
    if run.count == 3 && run.breakCount == 3 && IsLineEnd(Look(s, run.end)) {
      SpanHolds(s, j, DASH);
      RunExact(s, j, DASH, 3, 3);
    }
    var d := FrontmatterDelimiter(s, j);
    if d.Some? {
      var a := j + 3;
      assert Look(s, a) != DASH by {
        if Blanks(s, a) == 0 {
          assert d.value == a;
        }
      }
      assert Span(s, j, DASH) == 3 by {
        assert Look(s, j + 1) == DASH && Look(s, j + 2) == DASH;
        assert Span(s, a, DASH) == 0;
        assert Span(s, j + 2, DASH) == 1;
      }
      assert Marks(s, d.value, DASH) == 0;
    }
  }

  /**
   * When the first token of the document may be frontmatter and the line is
   * a frontmatter delimiter line, the column-0 stage opens frontmatter if a
   * closing line follows, and otherwise falls back to a thematic break.
   */
  lemma FrontmatterOpenDecision(atStart: bool, valid: set<TokenType>, s: seq<int>, p: nat)
    requires p <= |s| && Look(s, p) == DASH && FrontmatterDelimiter(s, p).Some?
    requires atStart && FrontmatterDelim in valid
    ensures var e := FrontmatterDelimiter(s, p).value;
      LineStartMarker(atStart, valid, s, p) ==
        if FrontmatterClosing(s, e) then Accept(FrontmatterDelim, e)
        else if ThematicBreak in valid then Accept(ThematicBreak, e)
        else Reject
  {
    DashLineIsDelimiter(s, p);
  }

  /**
   * The column-0 stage gives a frontmatter delimiter only as the first token
   * of the document, on an unindented frontmatter delimiter line followed by
   * a closing line; `indent` is the indentation the stage skips.
   */
  lemma MarkerFrontmatterOnly(atStart: bool, valid: set<TokenType>, s: seq<int>, p: nat, indent: nat)
    requires p + indent <= |s|
    requires MarkerAt(atStart, valid, s, p + indent, indent).Accept?
    requires MarkerAt(atStart, valid, s, p + indent, indent).symbol == FrontmatterDelim
    ensures var e := MarkerAt(atStart, valid, s, p + indent, indent).end;
      atStart && indent == 0 && Look(s, p) == DASH && FrontmatterDelimiter(s, p) == Some(e) && FrontmatterClosing(s, e)
  {
    var j := p + indent;
    var o := MarkerAt(atStart, valid, s, j, indent);
    var m := Look(s, j);
    assert m == STAR || m == DASH || m == UNDERSCORE;
    assert o == UnorderedOrThematic(atStart, valid, s, j, indent);
    var run := MeasureMarkerRun(s, j, m);
    var lineEnd, closing := IsLineEnd(Look(s, run.end)), FrontmatterClosing(s, run.end);
    assert o == MarkerDecision(atStart, valid, m, indent, run, lineEnd, closing);
    DecisionFrontmatter(atStart, valid, m, indent, run, lineEnd, closing);
    DashLineIsDelimiter(s, j);
  }

  /** The column-0 stage skips the indentation and dispatches on the next character. */
  lemma LineStartMarkerSkips(atStart: bool, valid: set<TokenType>, s: seq<int>, p: nat)
    requires p <= |s|
    ensures LineStartMarker(atStart, valid, s, p) == MarkerAt(atStart, valid, s, p + Blanks(s, p), Blanks(s, p))
  {
  }

  /** The marker decisions give a frontmatter delimiter only on the candidate line with a closing line after it. */
  lemma DecisionFrontmatter(atStart: bool, valid: set<TokenType>, m: int, indent: nat, run: MarkerRun, lineEnd: bool, closing: bool)
    ensures var o := MarkerDecision(atStart, valid, m, indent, run, lineEnd, closing);
      o.Accept? && o.symbol == FrontmatterDelim ==>
        atStart && m == DASH && indent == 0 && run.count == 3 && run.breakCount == 3 && lineEnd && closing && o.end == run.end
  {
  }

  // ---------------------------------------------------------------------
  // List markers

  /**
   * A `*` or `-` list marker (scan_unordered_or_thematic, with the cursor at
   * `s[j]` after `indent` blanks): `_` never is one, neither is a run of two
   * or more `-`; the marker must be followed by a blank or by content on the
   * line; the token covers the marker run and the blanks after it; the
   * indented variant is chosen by indentation or by a run of `*`.
   */
  lemma StarDashMarker(atStart: bool, valid: set<TokenType>, s: seq<int>, j: nat, indent: nat)
    requires j <= |s|
    ensures var m := Look(s, j);
      var o := UnorderedOrThematic(atStart, valid, s, j, indent);
      o.Accept? && (o.symbol == UnorderedListMarker || o.symbol == IndentedUnorderedListMarker) ==>
        var n := Span(s, j, m);
        (m == STAR || m == DASH) && (m == DASH ==> n == 1) &&
        (Blanks(s, j + n) > 0 || !IsLineEnd(Look(s, j + n))) &&
        o.end == j + n + Blanks(s, j + n) &&
        (o.symbol == IndentedUnorderedListMarker <==> indent > 0 || (m == STAR && n > 1))
  {
    var m := Look(s, j);
    var o := UnorderedOrThematic(atStart, valid, s, j, indent);
    if o.Accept? && (o.symbol == UnorderedListMarker || o.symbol == IndentedUnorderedListMarker) {
      var run := MeasureMarkerRun(s, j, m);
      MarkerDecisionList(atStart, valid, m, indent, run, IsLineEnd(Look(s, run.end)), FrontmatterClosing(s, run.end));
    }
  }

  /** The list-marker branches of the decision in scan_unordered_or_thematic. */
  lemma MarkerDecisionList(atStart: bool, valid: set<TokenType>, m: int, indent: nat, run: MarkerRun,
                           lineEnd: bool, closing: bool)
    ensures var o := MarkerDecision(atStart, valid, m, indent, run, lineEnd, closing);
      o.Accept? && (o.symbol == UnorderedListMarker || o.symbol == IndentedUnorderedListMarker) ==>
        m != UNDERSCORE && !(m == DASH && run.count > 1) && (run.hasSpace || !lineEnd) &&
        o.end == run.afterSpace &&
        (o.symbol == IndentedUnorderedListMarker <==> indent > 0 || (m == STAR && run.count > 1))
  {
  }

  /**
   * A `+` list marker (scan_unordered_list_plus): followed by a blank or
   * content, covering the blanks after it; refused when the variant the
   * indentation selects is not valid.
   */
  lemma PlusMarkerShape(valid: set<TokenType>, s: seq<int>, j: nat, indent: nat)
    requires j <= |s|
    ensures var o := PlusMarker(valid, s, j, indent);
      o.Accept? ==>
        s[j] == PLUS && (Blanks(s, j + 1) > 0 || !IsLineEnd(Look(s, j + 1))) &&
        o.end == j + 1 + Blanks(s, j + 1)
    ensures indent > 0 && IndentedUnorderedListMarker !in valid ==> PlusMarker(valid, s, j, indent) == Reject
    ensures indent == 0 && UnorderedListMarker !in valid ==> PlusMarker(valid, s, j, indent) == Reject
  {
  }

  /**
   * An ordered list marker: one to nine digits, `.` or `)`, then a blank or
   * content; the token covers the blanks after the delimiter; refused when
   * the variant the indentation selects is not valid.
   */
  lemma OrderedMarkerShape(valid: set<TokenType>, s: seq<int>, j: nat, indent: nat)
    requires j <= |s|
    ensures var o := OrderedMarker(valid, s, j, indent);
      o.Accept? ==>
        var d := DigitRun(s, j, 9);
        1 <= d && (forall k :: j <= k < j + d ==> IsDigit(s[k])) &&
        (Look(s, j + d) == DOT || Look(s, j + d) == RPAREN) &&
        (Blanks(s, j + d + 1) > 0 || !IsLineEnd(Look(s, j + d + 1))) &&
        o.end == j + d + 1 + Blanks(s, j + d + 1)
    ensures indent > 0 && IndentedOrderedListMarker !in valid ==> OrderedMarker(valid, s, j, indent) == Reject
    ensures indent == 0 && OrderedListMarker !in valid ==> OrderedMarker(valid, s, j, indent) == Reject
  {
    DigitsHold(s, j, 9);
  }

  /** Nine digits fill the run the ordered-marker recogniser reads. */
  lemma {:induction false} DigitRunFull(s: seq<int>, i: nat, cap: nat)
    requires i + cap <= |s|
    requires forall k :: i <= k < i + cap ==> IsDigit(s[k])
    ensures DigitRun(s, i, cap) == cap
    decreases cap
  {
    if cap > 0 {
      DigitRunFull(s, i + 1, cap - 1);
    }
  }

  /** Ten or more digits are never an ordered list marker. */
  lemma TenDigitsNoMarker(valid: set<TokenType>, s: seq<int>, j: nat, indent: nat)
    requires j + 10 <= |s| && forall k :: j <= k < j + 10 ==> IsDigit(s[k])
    ensures OrderedMarker(valid, s, j, indent) == Reject
  {
    DigitRunFull(s, j, 9);
    assert IsDigit(s[j]) && IsDigit(s[j + 9]);
  }

  /**
   * The lookahead list test of the line-continuation and soft-break
   * recognisers agrees with the column-0 stage: when the parser accepts
   * every list marker and neither a thematic break nor frontmatter, a
   * list-marker line gives a list-marker token.
   */
  lemma ListMarkerLineAccepted(atStart: bool, valid: set<TokenType>, s: seq<int>, p: nat)
    requires p <= |s| && ListMarkerLine(s, p)
    requires UnorderedListMarker in valid && IndentedUnorderedListMarker in valid
    requires OrderedListMarker in valid && IndentedOrderedListMarker in valid
    requires ThematicBreak !in valid && FrontmatterDelim !in valid
    ensures var o := LineStartMarker(atStart, valid, s, p);
      o.Accept? && o.symbol != ThematicBreak && o.symbol != FrontmatterDelim
  {
    var indent := Blanks(s, p);
    var j := p + indent;
    MarkerAtAccepted(atStart, valid, s, j, indent);
    assert LineStartMarker(atStart, valid, s, p) == MarkerAt(atStart, valid, s, j, indent);
  }

  /** The same, once the indentation is skipped. */
  lemma MarkerAtAccepted(atStart: bool, valid: set<TokenType>, s: seq<int>, j: nat, indent: nat)
    requires j <= |s| && ListMarkerAt(s, j)
    requires UnorderedListMarker in valid && IndentedUnorderedListMarker in valid
    requires OrderedListMarker in valid && IndentedOrderedListMarker in valid
    requires ThematicBreak !in valid && FrontmatterDelim !in valid
    ensures var o := MarkerAt(atStart, valid, s, j, indent);
      o.Accept? && o.symbol != ThematicBreak && o.symbol != FrontmatterDelim
  {
    var m := Look(s, j);
    if m == STAR || m == DASH {
      StarDashAccepted(atStart, valid, s, j, indent);
    } else if m == PLUS {
      PlusAccepted(atStart, valid, s, j, indent);
    } else {
      OrderedAccepted(atStart, valid, s, j, indent);
    }
  }

  /** A `*` or `-` followed by a blank is a list marker when no thematic break or frontmatter is wanted. */
  lemma StarDashAccepted(atStart: bool, valid: set<TokenType>, s: seq<int>, j: nat, indent: nat)
    requires j < |s| && (s[j] == STAR || s[j] == DASH) && IsBlank(Look(s, j + 1))
    requires UnorderedListMarker in valid && IndentedUnorderedListMarker in valid
    requires ThematicBreak !in valid && FrontmatterDelim !in valid
    ensures var o := MarkerAt(atStart, valid, s, j, indent);
      o.Accept? && o.symbol != ThematicBreak && o.symbol != FrontmatterDelim
  {
    var m := s[j];
    assert Span(s, j + 1, m) == 0;
    assert Span(s, j, m) == 1;
    var run := MeasureMarkerRun(s, j, m);
    assert run.count == 1 && run.hasSpace;
    assert MarkerAt(atStart, valid, s, j, indent) == UnorderedOrThematic(atStart, valid, s, j, indent);
  }

  /** A `+` followed by a blank is a list marker when both variants are wanted. */
  lemma PlusAccepted(atStart: bool, valid: set<TokenType>, s: seq<int>, j: nat, indent: nat)
    requires j < |s| && s[j] == PLUS && IsBlank(Look(s, j + 1))
    requires UnorderedListMarker in valid && IndentedUnorderedListMarker in valid
    ensures var o := MarkerAt(atStart, valid, s, j, indent);
      o.Accept? && o.symbol != ThematicBreak && o.symbol != FrontmatterDelim
  {
    assert Blanks(s, j + 1) > 0;
    assert MarkerAt(atStart, valid, s, j, indent) == PlusMarker(valid, s, j, indent);
  }

  /** Digits, `.` or `)` and a blank make an ordered list marker when both variants are wanted. */
  lemma OrderedAccepted(atStart: bool, valid: set<TokenType>, s: seq<int>, j: nat, indent: nat)
    requires j <= |s| && IsDigit(Look(s, j))
    requires Look(s, j + DigitRun(s, j, 9)) == DOT || Look(s, j + DigitRun(s, j, 9)) == RPAREN
    requires IsBlank(Look(s, j + DigitRun(s, j, 9) + 1))
    requires OrderedListMarker in valid && IndentedOrderedListMarker in valid
    ensures var o := MarkerAt(atStart, valid, s, j, indent);
      o.Accept? && o.symbol != ThematicBreak && o.symbol != FrontmatterDelim
  {
    var d := DigitRun(s, j, 9);
    assert j + d < |s|;
    var a := j + d + 1;
    assert Blanks(s, a) > 0;
    assert MarkerEnd(valid, s, a, indent, OrderedListMarker, IndentedOrderedListMarker).Accept?;
    assert MarkerAt(atStart, valid, s, j, indent) == OrderedMarker(valid, s, j, indent);
  }
}
