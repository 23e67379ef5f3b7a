/*
 * Characters, the end-of-input convention and the cursor arithmetic shared by
 * every recogniser of the Markdoc external scanner (src/scanner.c).
 *
 * The input is a sequence of code points. The host lexer reports 0 as the
 * lookahead once the input is exhausted, and advancing there does nothing;
 * `Look` and `Next` capture exactly that.
 */
module Text {

  datatype Option<T> = None | Some(value: T)

  const NUL: int := 0
  const TAB: int := 9
  const LF: int := 10
  const CR: int := 13
  const SPACE: int := 32
  const BANG: int := 33        // '!'
  const DQUOTE: int := 34      // '"'
  const HASH: int := 35        // '#'
  const PERCENT: int := 37     // '%'
  const SQUOTE: int := 39      // '\''
  const RPAREN: int := 41      // ')'
  const STAR: int := 42        // '*'
  const PLUS: int := 43        // '+'
  const DASH: int := 45        // '-'
  const DOT: int := 46         // '.'
  const SLASH: int := 47       // '/'
  const COLON: int := 58       // ':'
  const LT: int := 60          // '<'
  const GT: int := 62          // '>'
  const UNDERSCORE: int := 95  // '_'
  const BACKTICK: int := 96    // '`'
  const LBRACE: int := 123     // '{'
  const RBRACE: int := 125     // '}'
  const TILDE: int := 126      // '~'

  predicate IsNewline(c: int) { c == LF || c == CR }
  predicate IsBlank(c: int) { c == SPACE || c == TAB }
  predicate IsDigit(c: int) { 48 <= c <= 57 }
  /** End of the current line: a line break or the end of input. */
  predicate IsLineEnd(c: int) { c == NUL || IsNewline(c) }
  predicate IsTagStart(c: int) { 65 <= c <= 90 || 97 <= c <= 122 }
  predicate IsTagChar(c: int) { IsTagStart(c) || IsDigit(c) || c == DASH || c == COLON }

  /** The lookahead at position `i`. */
  function Look(s: seq<int>, i: nat): int {
    if i < |s| then s[i] else NUL
  }

  /** The position after one `advance`. */
  function Next(s: seq<int>, i: nat): nat {
    if i < |s| then i + 1 else i
  }

  /** The position after `n` calls of `advance`. */
  function Advanced(s: seq<int>, i: nat, n: nat): (j: nat)
    requires i <= |s|
    ensures i <= j <= |s|
  {
    if i + n <= |s| then i + n else |s|
  }

  /** The host lexer's column: characters since the last line feed. */
  function Column(s: seq<int>, i: nat): (c: nat)
    requires i <= |s|
    ensures c == 0 <==> i == 0 || s[i - 1] == LF
    ensures c <= i
  {
    if i == 0 || s[i - 1] == LF then 0 else Column(s, i - 1) + 1
  }

  /**
   * How many steps a loop takes that advances over characters equal to `c`,
   * at most `cap` of them, from `i`. For `c == NUL` at the end of input the
   * count grows while the cursor stays put, as the lexer's advance does there.
   */
  function Run(s: seq<int>, i: nat, c: int, cap: nat): (n: nat)
    requires i <= |s|
    ensures n <= cap
    ensures c != NUL ==> i + n <= |s|
    decreases cap
  {
    if cap == 0 || Look(s, i) != c then 0 else 1 + Run(s, Next(s, i), c, cap - 1)
  }

  /** Length of the maximal run of `c` (not NUL) starting at `i`. */
  function Span(s: seq<int>, i: nat, c: int): (n: nat)
    requires i <= |s| && c != NUL
    ensures i + n <= |s|
    ensures Look(s, i + n) != c
    decreases |s| - i
  {
    if Look(s, i) == c then 1 + Span(s, i + 1, c) else 0
  }

  /** Length of the maximal run of spaces and tabs starting at `i`. */
  function Blanks(s: seq<int>, i: nat): (n: nat)
    requires i <= |s|
    ensures i + n <= |s|
    ensures !IsBlank(Look(s, i + n))
    decreases |s| - i
  {
    if IsBlank(Look(s, i)) then 1 + Blanks(s, i + 1) else 0
  }

  /** Length of the run of at most `cap` decimal digits starting at `i`. */
  function DigitRun(s: seq<int>, i: nat, cap: nat): (n: nat)
    requires i <= |s|
    ensures n <= cap && i + n <= |s|
    ensures n < cap ==> !IsDigit(Look(s, i + n))
    decreases cap
  {
    if cap == 0 || !IsDigit(Look(s, i)) then 0 else 1 + DigitRun(s, i + 1, cap - 1)
  }

  /** Length of the maximal run of HTML tag-name characters starting at `i`. */
  function TagChars(s: seq<int>, i: nat): (n: nat)
    requires i <= |s|
    ensures i + n <= |s|
    ensures !IsTagChar(Look(s, i + n))
    decreases |s| - i
  {
    if IsTagChar(Look(s, i)) then 1 + TagChars(s, i + 1) else 0
  }

  /** End of the maximal run of `m` and blanks starting at `i`. */
  function MixedEnd(s: seq<int>, i: nat, m: int): (e: nat)
    requires i <= |s| && m != NUL
    ensures i <= e <= |s|
    ensures Look(s, e) != m && !IsBlank(Look(s, e))
    decreases |s| - i
  {
    if Look(s, i) == m || IsBlank(Look(s, i)) then MixedEnd(s, i + 1, m) else i
  }

  /** How many copies of `m` the run of `m` and blanks starting at `i` holds. */
  function Marks(s: seq<int>, i: nat, m: int): (n: nat)
    requires i <= |s| && m != NUL
    ensures n <= MixedEnd(s, i, m) - i
    decreases |s| - i
  {
    if Look(s, i) == m then 1 + Marks(s, i + 1, m)
    else if IsBlank(Look(s, i)) then Marks(s, i + 1, m)
    else 0
  }

  /** The first line end at or after `i`. */
  function LineEnd(s: seq<int>, i: nat): (e: nat)
    requires i <= |s|
    ensures i <= e <= |s|
    ensures IsLineEnd(Look(s, e))
    decreases |s| - i
  {
    if IsLineEnd(Look(s, i)) then i else LineEnd(s, i + 1)
  }

  /** The position after one CR, LF or CRLF at `i`; `i` itself when there is none. */
  function BreakEnd(s: seq<int>, i: nat): (j: nat)
    requires i <= |s|
    ensures i <= j <= |s|
    ensures IsNewline(Look(s, i)) <==> i < j
  {
    if Look(s, i) == CR then (if Look(s, i + 1) == LF then i + 2 else i + 1)
    else if Look(s, i) == LF then i + 1
    else i
  }

  /** The first position at or after `i` holding `q` or the end of input. */
  function Until(s: seq<int>, i: nat, q: int): (e: nat)
    requires i <= |s|
    ensures i <= e <= |s|
    ensures Look(s, e) == NUL || Look(s, e) == q
    decreases |s| - i
  {
    if Look(s, i) == NUL || Look(s, i) == q then i else Until(s, i + 1, q)
  }

  // ---------------------------------------------------------------------
  // What the runs hold. These are lemmas rather than postconditions so that
  // only the proofs that need them pay for the quantifiers.

  lemma {:induction false} RunHolds(s: seq<int>, i: nat, c: int, cap: nat)
    requires i <= |s|
    ensures forall k :: i <= k < Advanced(s, i, Run(s, i, c, cap)) ==> s[k] == c
    decreases cap
  {
    if cap > 0 && Look(s, i) == c {
      RunHolds(s, Next(s, i), c, cap - 1);
    }
  }

  lemma {:induction false} RunStops(s: seq<int>, i: nat, c: int, cap: nat)
    requires i <= |s|
    ensures Run(s, i, c, cap) < cap ==> Look(s, Advanced(s, i, Run(s, i, c, cap))) != c
    decreases cap
  {
    if cap > 0 && Look(s, i) == c {
      RunStops(s, Next(s, i), c, cap - 1);
    }
  }

  lemma {:induction false} SpanHolds(s: seq<int>, i: nat, c: int)
    requires i <= |s| && c != NUL
    ensures forall k :: i <= k < i + Span(s, i, c) ==> s[k] == c
    decreases |s| - i
  {
    if Look(s, i) == c {
      SpanHolds(s, i + 1, c);
    }
  }

  lemma {:induction false} BlanksHold(s: seq<int>, i: nat)
    requires i <= |s|
    ensures forall k :: i <= k < i + Blanks(s, i) ==> IsBlank(s[k])
    decreases |s| - i
  {
    if IsBlank(Look(s, i)) {
      BlanksHold(s, i + 1);
    }
  }

  lemma {:induction false} DigitsHold(s: seq<int>, i: nat, cap: nat)
    requires i <= |s|
    ensures forall k :: i <= k < i + DigitRun(s, i, cap) ==> IsDigit(s[k])
    decreases cap
  {
    if cap > 0 && IsDigit(Look(s, i)) {
      DigitsHold(s, i + 1, cap - 1);
    }
  }

  lemma {:induction false} TagCharsHold(s: seq<int>, i: nat)
    requires i <= |s|
    ensures forall k :: i <= k < i + TagChars(s, i) ==> IsTagChar(s[k])
    decreases |s| - i
  {
    if IsTagChar(Look(s, i)) {
      TagCharsHold(s, i + 1);
    }
  }

  lemma {:induction false} MixedHolds(s: seq<int>, i: nat, m: int)
    requires i <= |s| && m != NUL
    ensures forall k :: i <= k < MixedEnd(s, i, m) ==> s[k] == m || IsBlank(s[k])
    decreases |s| - i
  {
    if Look(s, i) == m || IsBlank(Look(s, i)) {
      MixedHolds(s, i + 1, m);
    }
  }

  lemma {:induction false} LineEndHolds(s: seq<int>, i: nat)
    requires i <= |s|
    ensures forall k :: i <= k < LineEnd(s, i) ==> !IsLineEnd(s[k])
    decreases |s| - i
  {
    if !IsLineEnd(Look(s, i)) {
      LineEndHolds(s, i + 1);
    }
  }

  // ---------------------------------------------------------------------
  // Characterisations of the runs

  /** A run of exactly `n` copies of `c` (not NUL), cut by the cap or by another character, is what `Run` counts. */
  lemma {:induction false} RunExact(s: seq<int>, i: nat, c: int, cap: nat, n: nat)
    requires i + n <= |s| && c != NUL && n <= cap
    requires forall k :: i <= k < i + n ==> s[k] == c
    requires n == cap || Look(s, i + n) != c
    ensures Run(s, i, c, cap) == n
    decreases n
  {
    if n > 0 {
      RunExact(s, i + 1, c, cap - 1, n - 1);
    }
  }

  /** A line end after a stretch of ordinary characters is the line end of the whole stretch. */
  lemma {:induction false} LineEndAfter(s: seq<int>, i: nat, j: nat)
    requires i <= j <= |s|
    requires forall k :: i <= k < j ==> !IsLineEnd(s[k])
    ensures LineEnd(s, j) == LineEnd(s, i)
    decreases j - i
  {
    if i < j {
      assert !IsLineEnd(Look(s, i));
      LineEndAfter(s, i + 1, j);
    }
  }
}
