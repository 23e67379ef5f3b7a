/*
 * The cursor the host parser hands to the external scanner (TSLexer in
 * src/scanner.c): the token kinds it may report, the lookahead, `advance`,
 * `mark_end`, `get_column` and `result_symbol`.
 *
 * The scan functions of src/scanner.c save the lexer by copying it and
 * restore it by copying the saved value back; that idiom is a rewind of `pos`.
 * The marked token end lives in the host lexer and is not rewound.
 */
module Lexing {
  import opened Text

  /** The external token kinds, in the order of enum TokenType (src/scanner.c:6-20). */
  datatype TokenType =
    | CodeContent
    | CodeFenceOpen
    | CodeFenceClose
    | FrontmatterDelim
    | ListContinuation
    | UnorderedListMarker
    | OrderedListMarker
    | IndentedUnorderedListMarker
    | IndentedOrderedListMarker
    | SoftLineBreak
    | ThematicBreak
    | HtmlComment
    | HtmlBlock

  class Lexer {
    const input: seq<int>
    var pos: nat
    /** Whether `mark_end` was called during this scan, and where. */
    var marked: bool
    var markEnd: nat
    var resultSymbol: TokenType

    ghost predicate Valid()
      reads this
    {
      pos <= |input| && markEnd <= |input|
    }

    /** The host starts every scan with no token end marked. */
    constructor (input: seq<int>, start: nat)
      requires start <= |input|
      ensures Valid() && this.input == input && pos == start && !marked
    {
      this.input := input;
      pos := start;
      marked := false;
      markEnd := 0;
      resultSymbol := CodeContent;
    }

    function Lookahead(): int
      reads this
    {
      Look(input, pos)
    }

    function Column(): nat
      reads this
      requires Valid()
    {
      Text.Column(input, pos)
    }

    /** The end of the token the host takes: the marked end, or the cursor when nothing was marked. */
    function TokenEnd(): nat
      reads this
    {
      if marked then markEnd else pos
    }

    method Advance()
      requires Valid()
      modifies this`pos
      ensures Valid() && pos == Next(input, old(pos))
    {
      if pos < |input| {
        pos := pos + 1;
      }
    }

    method MarkEnd()
      requires Valid()
      modifies this`marked, this`markEnd
      ensures Valid() && marked && markEnd == pos
    {
      marked := true;
      markEnd := pos;
    }

    /** Advances over the characters equal to `c`, at most `cap` times, and counts the steps. */
    method SkipRun(c: int, cap: nat) returns (count: nat)
      requires Valid()
      modifies this`pos
      ensures Valid()
      ensures count == Run(input, old(pos), c, cap)
      ensures pos == Advanced(input, old(pos), count)
    {
      count := 0;
      while Lookahead() == c && count < cap
        invariant Valid() && old(pos) <= pos
        invariant count <= cap
        invariant pos == Advanced(input, old(pos), count)
        invariant Run(input, old(pos), c, cap) == count + Run(input, pos, c, cap - count)
        decreases cap - count
      {
        Advance();
        count := count + 1;
      }
    }

    /** Advances over the spaces and tabs at the cursor and counts them. */
    method SkipBlanks() returns (count: nat)
      requires Valid()
      modifies this`pos
      ensures Valid()
      ensures count == Blanks(input, old(pos)) && pos == old(pos) + count
    {
      count := 0;
      while IsBlank(Lookahead())
        invariant Valid() && pos == old(pos) + count
        invariant Blanks(input, old(pos)) == count + Blanks(input, pos)
        decreases |input| - pos
      {
        Advance();
        count := count + 1;
      }
    }

    /** Consumes one CR, LF or CRLF, if there is one. */
    method SkipLineBreak()
      requires Valid()
      modifies this`pos
      ensures Valid() && pos == BreakEnd(input, old(pos))
    {
      if Lookahead() == CR {
        Advance();
        if Lookahead() == LF {
          Advance();
        }
      } else if Lookahead() == LF {
        Advance();
      }
    }

    /** Advances to the next CR, LF or end of input. */
    method SkipToLineEnd()
      requires Valid()
      modifies this`pos
      ensures Valid() && pos == LineEnd(input, old(pos))
    {
      while !IsLineEnd(Lookahead())
        invariant Valid() && old(pos) <= pos <= LineEnd(input, old(pos))
        invariant LineEnd(input, pos) == LineEnd(input, old(pos))
        decreases |input| - pos
      {
        Advance();
      }
    }
  }
}
