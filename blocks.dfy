/*
 * What the lookahead line classifiers, the two line-break tokens and the
 * two HTML tokens of the Markdoc external scanner promise: the shapes of
 * heading and fence lines, when a line break is refused, and where HTML
 * comments and blocks end.
 */
module BlockProperties {
  import opened Text
  import opened Lexing
  import opened Lines
  import opened Recognizers

  // ---------------------------------------------------------------------
  // Line classifiers

  /** `n` number signs at `i`, then a space or tab. */
  predicate HashRun(s: seq<int>, i: nat, n: nat)
  {
    i + n <= |s| && (forall k :: i <= k < i + n ==> s[k] == HASH) && IsBlank(Look(s, i + n))
  }

  /** A heading line is one to six `#` at column 0 followed by a space or tab. */
  lemma HeadingLineShape(s: seq<int>, i: nat)
    requires i <= |s|
    ensures HeadingLine(s, i) <==> Column(s, i) == 0 && exists n :: 1 <= n <= 6 && HashRun(s, i, n)
  {
    var r := Run(s, i, HASH, 6);
    RunHolds(s, i, HASH, 6);
    if HeadingLine(s, i) {
      assert HashRun(s, i, r);
    }
    if Column(s, i) == 0 && exists n :: 1 <= n <= 6 && HashRun(s, i, n) {
      var n :| 1 <= n <= 6 && HashRun(s, i, n);
      RunExact(s, i, HASH, 6, n);
    }
  }

  /** A fence line is three backticks or three tildes at column 0. */
  lemma FenceLineShape(s: seq<int>, i: nat)
    requires i <= |s|
    ensures FenceLine(s, i) <==>
      Column(s, i) == 0 && i + 3 <= |s| && (s[i] == BACKTICK || s[i] == TILDE) && s[i + 1] == s[i] && s[i + 2] == s[i]
  {
    var c := Look(s, i);
    if Column(s, i) == 0 && (c == BACKTICK || c == TILDE) {
      RunHolds(s, i, c, 3);
      if i + 3 <= |s| && s[i + 1] == c && s[i + 2] == c {
        RunExact(s, i, c, 3, 3);
      }
    }
  }

  // ---------------------------------------------------------------------
  // Line breaks

  /**
   * A soft line break is exactly one CR, LF or CRLF, and the next line holds
   * content that does not open a heading, blockquote, fence, thematic
   * break, list item or block tag; so a second soft break can never follow
   * it directly.
   */
  lemma SoftBreakToken(s: seq<int>, q: nat)
    requires q <= |s|
    ensures var r := SoftBreak(s, q);
      r.Some? ==>
        var n := r.value;
        ((n == q + 1 && (s[q] == LF || (s[q] == CR && Look(s, n) != LF))) || (n == q + 2 && s[q] == CR && s[q + 1] == LF)) &&
        !IsLineEnd(Look(s, n + Blanks(s, n))) &&
        !HeadingLine(s, n) && !BlockquoteLine(s, n) && !FenceLine(s, n) &&
        !ThematicBreakLine(s, n) && !ListMarkerLine(s, n) && !BlockTagLine(s, n) &&
        SoftBreak(s, n).None?
  {
    var r := SoftBreak(s, q);
    if r.Some? {
      var n := r.value;
      assert !IsNewline(Look(s, n)) by {
        if Blanks(s, n) == 0 {
          assert n + Blanks(s, n) == n;
        }
      }
    }
  }

  /**
   * A list continuation is a line break (or a column-0 blank) and the
   * indentation of a line that holds content and is neither a list item
   * nor a thematic break; the token covers the break and the blanks.
   */
  lemma ContinuationToken(s: seq<int>, q: nat)
    requires q <= |s|
    ensures var r := Continuation(s, q);
      r.Some? ==>
        var l := if IsNewline(Look(s, q)) then BreakEnd(s, q) else q;
        (IsNewline(Look(s, q)) || (Column(s, q) == 0 && IsBlank(s[q]))) &&
        l < r.value && (forall k :: l <= k < r.value ==> IsBlank(s[k])) &&
        !IsBlank(Look(s, r.value)) && !IsLineEnd(Look(s, r.value)) &&
        !ListMarkerLine(s, l) && !ThematicBreakLine(s, l)
  {
    var r := Continuation(s, q);
    if r.Some? {
      var l := if IsNewline(Look(s, q)) then BreakEnd(s, q) else q;
      var b := Blanks(s, l);
      assert r.value == l + b && b % 256 != 0;
      CounterNonZero(b);
      BlanksHold(s, l);
    }
  }

  /** An 8-bit count that is not zero counted at least one step. */
  lemma CounterNonZero(b: nat)
    requires b % 256 != 0
    ensures 0 < b
  {
  }

  /**
   * The indentation after a line break is counted in an 8-bit counter, so
   * exactly 256 blanks read as no indentation and the continuation is
   * refused.
   */
  lemma ContinuationIndentWraps(s: seq<int>, q: nat)
    requires q <= |s| && IsNewline(Look(s, q)) && Blanks(s, BreakEnd(s, q)) == 256
    ensures Continuation(s, q).None?
  {
  }

  // ---------------------------------------------------------------------
  // HTML comments

  /** A comment runs from `<!--` to the first `-->` after it, with no end of input in between. */
  lemma CommentToken(s: seq<int>, q: nat)
    requires q <= |s|
    ensures var r := CommentEnd(s, q);
      r.Some? ==>
        q + 4 <= r.value - 3 && CommentCloseAt(s, r.value - 3) &&
        forall i :: q + 4 <= i < r.value - 3 ==> Look(s, i) != NUL && !CommentCloseAt(s, i)
  {
    if CommentEnd(s, q).Some? {
      CommentCloseFirst(s, q + 4);
    }
  }

  /** With no `-->` before the end of input, the search for the close finds none. */
  lemma {:induction false} CommentCloseMissing(s: seq<int>, k: nat)
    requires k <= |s|
    requires forall i :: k <= i < Until(s, k, NUL) ==> !CommentCloseAt(s, i)
    ensures CommentClose(s, k).None?
    decreases |s| - k
  {
    if Look(s, k) != NUL {
      assert k < Until(s, k, NUL);
      assert Until(s, k, NUL) == Until(s, k + 1, NUL);
      CommentCloseMissing(s, k + 1);
    }
  }

  /** An unterminated comment gives no token. */
  lemma CommentUnterminated(s: seq<int>, q: nat)
    requires q + 4 <= |s|
    requires forall i :: q + 4 <= i < Until(s, q + 4, NUL) ==> !CommentCloseAt(s, i)
    ensures CommentEnd(s, q).None?
  {
    CommentCloseMissing(s, q + 4);
  }

  // ---------------------------------------------------------------------
  // HTML blocks

  /** A tag name of 64 or more characters does not fit the name buffer: no token. */
  lemma TagNameTooLong(s: seq<int>, q: nat)
    requires q < |s| && s[q] == LT && TagChars(s, q + 1) >= 64
    ensures HtmlBlockEnd(s, q).None?
  {
  }

  /** Without a `>` the opening tag never ends. */
  lemma {:induction false} OpenTagNeedsGt(s: seq<int>, k: nat)
    requires k <= |s|
    requires forall i :: k <= i < |s| ==> s[i] != GT
    ensures OpenTagEnd(s, k).None?
    decreases |s| - k
  {
    var c := Look(s, k);
    if c == DQUOTE || c == SQUOTE {
      var e := Until(s, k + 1, c);
      if Look(s, e) == c {
        OpenTagNeedsGt(s, e + 1);
      }
    } else if c != NUL && !(c == SLASH && Look(s, k + 1) == GT) && c != GT {
      OpenTagNeedsGt(s, k + 1);
    }
  }

  /**
   * A quoted attribute value is skipped whole: a `>` inside it never ends
   * the opening tag, which ends, if at all, after the closing quote; an
   * unclosed quote leaves the tag without an end.
   */
  lemma QuotedGtSkipped(s: seq<int>, k: nat)
    requires k <= |s| && (Look(s, k) == DQUOTE || Look(s, k) == SQUOTE)
    ensures var c := Look(s, k);
      var e := Until(s, k + 1, c);
      (Look(s, e) == c ==>
        OpenTagEnd(s, k) == OpenTagEnd(s, e + 1) &&
        (OpenTagEnd(s, k).Some? ==> e + 1 < OpenTagEnd(s, k).value.end)) &&
      (Look(s, e) != c ==> OpenTagEnd(s, k).None?)
  {
  }

  /** A self-closing opening tag is the whole block. */
  lemma SelfClosingBlock(s: seq<int>, q: nat)
    requires q < |s|
    ensures var r := HtmlBlockEnd(s, q);
      var n := TagChars(s, q + 1);
      r.Some? && q + 1 + n <= |s| && OpenTagEnd(s, q + 1 + n).Some? && OpenTagEnd(s, q + 1 + n).value.selfClosing ==>
        r.value == OpenTagEnd(s, q + 1 + n).value.end && s[r.value - 2] == SLASH && s[r.value - 1] == GT
  {
    var r := HtmlBlockEnd(s, q);
    if r.Some? {
      var n := TagChars(s, q + 1);
      assert TagNameLength(s, q + 1) == Some(n);
    }
  }

  /** Where the body of an HTML block may end. */
  predicate BodyStop(s: seq<int>, i: nat, name: seq<int>)
    requires i <= |s|
  {
    Look(s, i) == NUL ||
    (Look(s, i) == LT && Look(s, i + 1) == SLASH && CloseTagEnd(s, i + 2, name).Some?) ||
    (IsNewline(Look(s, i)) && IsLineEnd(Look(s, BreakEnd(s, i))))
  }

  /**
   * The body of an HTML block ends at the first stop: the end of input,
   * just after a matching close tag, or just after a line break followed
   * by a blank line or the end of input.
   */
  lemma {:induction false} BodyEndFirstStop(s: seq<int>, k: nat, name: seq<int>, f: nat)
    requires k <= f <= |s| && BodyStop(s, f, name)
    requires forall i :: k <= i < f ==> !BodyStop(s, i, name)
    ensures BodyEnd(s, k, name) ==
      if Look(s, f) == NUL then f
      else if Look(s, f) == LT && Look(s, f + 1) == SLASH && CloseTagEnd(s, f + 2, name).Some? then CloseTagEnd(s, f + 2, name).value
      else BreakEnd(s, f)
    decreases f - k
  {
    if k < f {
      assert !BodyStop(s, k, name);
      BodyEndFirstStop(s, k + 1, name, f);
    }
  }
}
