# Markdoc external scanner

A model of the hand-written external tokenizer of the Markdoc tree-sitter
grammar (`src/scanner.c`), with proofs about it. tree-sitter calls this
scanner for the tokens its generated lexer cannot recognise: frontmatter
delimiters, thematic breaks, list markers, code fences and fenced code
content, list continuations, soft line breaks, HTML comments and HTML blocks.
The scanner keeps a five-field state between calls. It sees the input
through a cursor that it can advance, mark as the token end, and save and
restore. It returns the first token kind, in a fixed priority order, that
the parser currently accepts.

Layout:

- `text.dfy` (module `Text`): character classes and the runs the loops measure (blanks, digits, marker runs, line ends).
- `lexer.dfy` (module `Lexing`): the host cursor as a class, with lookahead, advance and mark end.
- `state.dfy` (module `ScannerState`): the state record, its initial value, and the five-byte snapshot.
- `lines.dfy` (module `Lines`): the `is_*_line` lookahead predicates. Each is a function, plus a method that walks the cursor.
- `recognizers.dfy` (module `Recognizers`): one pure specification function per recogniser. It also holds the stage functions `LineStartStep`, `FenceStep` and `TailStep`, and `ScanSpec` for the whole entry point.
- `scanner.dfy` (module `MarkdocScanner`): the imperative scanner. The `Scanner` class holds the five fields. Its `Scan`, `Serialize` and `Deserialize` methods and every `scan_*` helper are each proved against their specification function.
- `properties.dfy`, `markers.dfy`, `frontmatter.dfy`, `blocks.dfy`: lemmas about those specifications.

Conventions:

- The input is a sequence of character codes. Reading past its end gives 0, as the host's lookahead does.
- Saving the lexer and restoring it (`TSLexer saved = *lexer; … *lexer = saved;`) is a rewind of the cursor. A mark already made stays in place.
- A step is an outcome plus the new state. An outcome is either a rejection, or a token kind together with the end of the token.

## Model

| member | source | states |
|---|---|---|
| ScannerState.Encode | src/scanner.c:44-56 | a snapshot is exactly five bytes |
| ScannerState.CharByteRoundTrip | src/scanner.c:51-76 | a signed `fence_char` stored as a byte and read back as a `char` is unchanged |
| ScannerState.DecodeEncode | src/scanner.c:44-81 | restoring a snapshot gives back the state it was taken from |
| ScannerState.EncodeDecode | src/scanner.c:44-81 | a five-byte buffer whose flag bytes are 0 or 1 is the snapshot of the state it restores |
| ScannerState.DecodeShort | src/scanner.c:57-81 | a buffer shorter than five bytes reads as if the missing bytes were those of a new scanner's snapshot |
| ScannerState.DecodeEmpty | src/scanner.c:30-38 | restoring from an empty buffer gives the state of a new scanner |
| ScannerState.DecodeIgnoresTail | src/scanner.c:57-81 | bytes past the fifth are never read |
| MarkdocScanner.Scanner.constructor | src/scanner.c:30-38 | a new scanner is at start, outside frontmatter and code, with fence char and length 0 |
| MarkdocScanner.Scanner.Serialize | src/scanner.c:44-56 | writes the five snapshot bytes of the current state in field order, returns 5, and leaves the rest of the buffer alone |
| MarkdocScanner.Scanner.Deserialize | src/scanner.c:57-81 | the new state is the snapshot decoding of the first `length` bytes, with defaults for the missing fields |
| Lexing.Lexer.SkipBlanks | src/scanner.c:822-825 | consumes exactly the run of spaces and tabs and counts it |
| Lexing.Lexer.SkipRun | src/scanner.c:852-855 | consumes the run of one character up to the cap and counts it |
| Lexing.Lexer.SkipLineBreak | src/scanner.c:919-923 | consumes one CR, LF or CRLF, and nothing when not at a line break |
| Lines.IsHeadingMarkerLine | src/scanner.c:397-412 | decides `HeadingLine`: at column 0, one to six `#` then a space or tab; the cursor is not moved |
| BlockProperties.HeadingLineShape | src/scanner.c:397-412 | `HeadingLine` holds exactly when there is some n in 1..6 with n `#` followed by a blank at column 0 |
| Lines.IsBlockquoteLine | src/scanner.c:414-420 | decides `BlockquoteLine`: a `>` at column 0 |
| Lines.IsFencedCodeLine | src/scanner.c:422-442 | decides `FenceLine`; the cursor is not moved |
| BlockProperties.FenceLineShape | src/scanner.c:422-442 | `FenceLine` holds exactly when three backticks or three tildes sit at column 0 |
| Lines.IsListMarkerLine | src/scanner.c:483-518 | decides `ListMarkerLine`: after blanks, `*`/`-`/`+` then a blank, or one to nine digits, `.` or `)`, then a blank |
| Lines.SkipBlanksAt | src/scanner.c:486-488 | stops after exactly the run of blanks |
| Lines.SkipDigitsAt | src/scanner.c:499-503 | stops after at most nine digits, exactly the digit run capped at nine |
| Lines.IsMarkdocBlockTagLine | src/scanner.c:520-562 | decides `BlockTagLine`: `{%` at the line start, a `%}` on the same line, and only blanks after it |
| Lines.SkipPastTagClose | src/scanner.c:541-557 | finds the first `%}` on the line exactly when `TagClose` does, and stops past it and the blanks after it |
| Lines.TagClose | src/scanner.c:541-557 | a found close ends in `%}` |
| Lines.IsThematicBreakLine | src/scanner.c:765-804 | decides `ThematicBreakLine`: after blanks, three or more copies of one of `*`, `-`, `_`, with blanks between them, up to the line end |
| Lines.SkipMarksAt | src/scanner.c:789-794 | stops at the end of the run of markers and blanks and counts the markers |
| Recognizers.FrontmatterDelimiter | src/scanner.c:284-308 | a delimiter is three `-`, then blanks, then a line end; the token ends before the line break |
| MarkdocScanner.ScanFrontmatterDelimiter | src/scanner.c:284-308 | succeeds exactly when `FrontmatterDelimiter` does, and marks its end; on failure the cursor and mark are unchanged |
| MarkdocScanner.ScanFrontmatterClosingDelimiter | src/scanner.c:310-360 | finds a closing line exactly when `FrontmatterClosing` holds: one line break, then some later line is a delimiter line |
| MarkdocScanner.ScanClosingLine | src/scanner.c:323-359 | one line of the closing search: it is a delimiter line exactly when `FrontmatterDelimiter` holds, and otherwise the cursor stays on that line |
| Recognizers.NextLine | src/scanner.c:347-358 | the next line start lies after the current position unless at the end of input |
| Recognizers.MeasureMarkerRun | src/scanner.c:110-136 | the marker run, the blanks and the mixed run are consecutive; a marker at the cursor gives a positive count |
| MarkdocScanner.Scanner.ScanMarkerRun | src/scanner.c:110-136 | the three loops measure exactly `MeasureMarkerRun`; the end is marked after the blanks when there are any |
| MarkdocScanner.Scanner.ScanMixedRun | src/scanner.c:130-136 | the last loop stops at the end of the run of markers and blanks and counts its markers |
| MarkerProperties.MarkerRunIsMixed | src/scanner.c:110-136 | the three loops together measure the same run and marker count that `is_thematic_break_line` measures |
| Recognizers.UnorderedOrThematic | src/scanner.c:98-190 | a token is valid and non-empty, and is one of frontmatter, thematic break, or the two unordered markers |
| Recognizers.MarkerDecision | src/scanner.c:138-189 | a token ends at the run end or after the blanks, and is valid |
| MarkdocScanner.Scanner.ScanUnorderedOrThematic | src/scanner.c:98-190 | the result and token end are those of `UnorderedOrThematic`; frontmatter sets `in_frontmatter` and clears `at_start` |
| MarkdocScanner.Scanner.ScanMarkerDecision | src/scanner.c:138-189 | the decision made is `MarkerDecision` on the measured run, including the closing-line search for frontmatter |
| MarkerProperties.ThematicBreakFirst | src/scanner.c:140-167 | on a thematic-break line the column-0 stage gives a thematic break rather than a list marker, unless it opens frontmatter; both end at the run end |
| MarkerProperties.DashLineIsDelimiter | src/scanner.c:140-141 | for a `-` line, the frontmatter test inside the marker recogniser agrees with `scan_frontmatter_delimiter`, and both end at the same place |
| MarkerProperties.FrontmatterOpenDecision | src/scanner.c:143-160 | on a delimiter line at document start, frontmatter opens when a closing line follows, and otherwise falls back to a thematic break if one is valid |
| MarkerProperties.MarkerFrontmatterOnly | src/scanner.c:140-153 | the marker stage gives frontmatter only at document start, with no indentation, on a `-` delimiter line followed by a closing line |
| MarkerProperties.DecisionFrontmatter | src/scanner.c:140-153 | the decision gives frontmatter only for the three-dash candidate with a closing line after it |
| MarkerProperties.StarDashMarker | src/scanner.c:168-189 | `_` is never a list marker, nor is a run of two or more `-`; a marker needs a blank or content after it; `indent > 0` or a `*` run selects the indented kind |
| MarkerProperties.MarkerDecisionList | src/scanner.c:168-189 | the list-marker branches of the decision: which kind, and that it must be valid |
| Recognizers.PlusMarker | src/scanner.c:192-222 | a `+` token is valid and non-empty, and indentation selects the indented kind |
| MarkdocScanner.ScanUnorderedListPlus | src/scanner.c:192-222 | the result, kind and marked end are those of `PlusMarker` |
| MarkerProperties.PlusMarkerShape | src/scanner.c:192-222 | a `+` marker needs a blank or content after it and covers the blanks; it is refused when the kind selected by indentation is not valid |
| Recognizers.MarkerEnd | src/scanner.c:199-221 | after the marker, a token needs a blank or content, ends after the blanks, and is the indented kind exactly when `indent > 0` |
| MarkdocScanner.ScanMarkerEnd | src/scanner.c:245-267 | the result, kind and marked end are those of `MarkerEnd` |
| Recognizers.OrderedMarker | src/scanner.c:224-268 | an ordered token covers at least a digit and a delimiter, and indentation selects the indented kind |
| MarkdocScanner.ScanOrderedListMarker | src/scanner.c:224-268 | the result, kind and marked end are those of `OrderedMarker` |
| MarkdocScanner.ScanDigits | src/scanner.c:230-234 | consumes at most nine digits, exactly the digit run capped at nine |
| MarkerProperties.OrderedMarkerShape | src/scanner.c:224-268 | an ordered marker is one to nine digits, `.` or `)`, then a blank or content; it is refused when the kind selected by indentation is not valid |
| MarkerProperties.TenDigitsNoMarker | src/scanner.c:230-242 | ten or more digits are never an ordered list marker |
| Recognizers.LineStartMarker | src/scanner.c:820-845 | a column-0 marker token is valid and non-empty |
| Recognizers.MarkerAt | src/scanner.c:826-841 | the recogniser chosen by the first character after the indentation gives a valid, non-empty token |
| MarkdocScanner.Scanner.ScanLineMarker | src/scanner.c:820-845 | the result is `LineStartMarker`; on rejection the cursor goes back to the line start |
| MarkdocScanner.Scanner.ScanMarkerAt | src/scanner.c:826-841 | the result is `MarkerAt` for the character at the cursor |
| MarkerProperties.ListMarkerLineAccepted | src/scanner.c:483-518 | when every list kind is valid and neither thematic break nor frontmatter is, a line `is_list_marker_line` accepts gives a list-marker token at column 0 |
| MarkerProperties.MarkerAtAccepted | src/scanner.c:826-841 | the same, after the indentation |
| MarkerProperties.StarDashAccepted | src/scanner.c:168-189 | `*` or `-` followed by a blank gives an unordered marker when no thematic break or frontmatter is wanted |
| MarkerProperties.PlusAccepted | src/scanner.c:192-222 | `+` followed by a blank gives an unordered marker when both kinds are valid |
| MarkerProperties.OrderedAccepted | src/scanner.c:224-268 | digits, `.` or `)`, then a blank give an ordered marker when both kinds are valid |
| Recognizers.FenceCloseLine | src/scanner.c:362-395 | a close is at column 0, with a run of the fence character at least as long as the opening run |
| MarkdocScanner.Scanner.ScanFenceCloseLine | src/scanner.c:362-395 | succeeds exactly when `FenceCloseLine` does and stops at its end; on failure the mark is unchanged |
| ScannerProperties.FenceCloseLineShape | src/scanner.c:362-395 | after the run, the close consumes the blanks and one CR, LF or CRLF, whatever text follows the run |
| Recognizers.ContentStop | src/scanner.c:886-942 | the code-body loop stops at the end of input or at a closing run |
| MarkdocScanner.Scanner.ScanCodeBody | src/scanner.c:889-942 | the loop consumes up to `ContentStop`, marks that end, and reports whether it moved |
| MarkdocScanner.Scanner.ScanCloseRun | src/scanner.c:895-916 | decides `CloseRun` (a run of the fence character at least `fence_length` long, then blanks to the line end) without moving |
| ScannerProperties.ContentStopAtStart | src/scanner.c:895-916 | at a line start holding a closing run, the body loop stops at once |
| ScannerProperties.ContentStopFirst | src/scanner.c:894-942 | the body loop never passes a line start, reached by a line break, that holds a closing run |
| ScannerProperties.ContentStopAtClose | src/scanner.c:894-942 | when the loop stops after moving and before the end of input, it is at a closing run just after a line break |
| Recognizers.Continuation | src/scanner.c:952-997 | a continuation token is non-empty and is followed by content |
| MarkdocScanner.ScanListContinuation | src/scanner.c:952-997 | succeeds exactly when `Continuation` does and marks its end; on failure the cursor is rewound |
| MarkdocScanner.ScanIndentation | src/scanner.c:973-977 | consumes the blanks and counts them modulo 256, as the `uint8_t` counter does |
| BlockProperties.ContinuationToken | src/scanner.c:952-997 | a continuation is a line break or a column-0 blank, then indentation, then content; the line is not a list item or thematic break |
| BlockProperties.ContinuationIndentWraps | src/scanner.c:973-979 | exactly 256 blanks after a line break read as no indentation, so the continuation is refused |
| Recognizers.SoftBreak | src/scanner.c:444-481 | a soft break starts with a line break and is followed by content |
| MarkdocScanner.ScanSoftLineBreak | src/scanner.c:444-481 | succeeds exactly when `SoftBreak` does; on failure the cursor is rewound |
| BlockProperties.SoftBreakToken | src/scanner.c:444-481 | a soft break is exactly one CR, LF or CRLF, before a line that is not blank and does not begin a heading, blockquote, fence, thematic break, list item or block tag; no soft break can follow it directly |
| Recognizers.CommentClose | src/scanner.c:609-619 | a found close ends just after a `-->` |
| Recognizers.CommentCloseFirst | src/scanner.c:609-619 | the search finds the first `-->` before the end of input, and finds none when there is none |
| Recognizers.CommentEnd | src/scanner.c:601-623 | a comment starts with `<!--` and is at least seven characters long |
| MarkdocScanner.ScanHtmlComment | src/scanner.c:601-623 | succeeds exactly when `CommentEnd` does and marks its end; on failure the cursor and mark are unchanged |
| MarkdocScanner.ScanCommentClose | src/scanner.c:610-617 | decides a `-->` at the cursor and consumes it only when present |
| BlockProperties.CommentToken | src/scanner.c:601-623 | a comment runs from `<!--` to the first `-->` after it, with no end of input in between |
| BlockProperties.CommentCloseMissing | src/scanner.c:609-622 | with no `-->` before the end of input, the search fails |
| BlockProperties.CommentUnterminated | src/scanner.c:601-623 | an unterminated comment gives no token |
| Recognizers.TagNameLength | src/scanner.c:633-649 | a tag name starts with a letter, is the whole run of name characters, and fits the 64-byte buffer (at most 63 characters) |
| MarkdocScanner.ScanHtmlTagName | src/scanner.c:633-649 | succeeds exactly when `TagNameLength` does and returns the name read |
| BlockProperties.TagNameTooLong | src/scanner.c:633-668 | a name of 64 or more characters gives no HTML block |
| Recognizers.OpenTagEnd | src/scanner.c:670-706 | an opening tag ends just after a `>`, and a self-closing one after `/>` |
| MarkdocScanner.ScanOpenTag | src/scanner.c:670-706 | the attribute loop reaches the end `OpenTagEnd` finds and reports whether the tag closes itself |
| BlockProperties.OpenTagNeedsGt | src/scanner.c:670-711 | without a `>` the opening tag never ends |
| BlockProperties.QuotedGtSkipped | src/scanner.c:673-683 | for every input, a quoted attribute value is skipped whole up to its closing quote, so a `>` inside it never ends the tag; an unclosed quote gives no end |
| Recognizers.CloseTagEnd | src/scanner.c:718-737 | a close tag holds exactly the opening name and ends after a `>` |
| MarkdocScanner.ScanCloseTag | src/scanner.c:718-737 | consumes a matching close tag exactly when `CloseTagEnd` finds one, and otherwise does not move |
| Recognizers.BodyEnd | src/scanner.c:717-762 | the body ends at the end of input, or just after a `>` or a line break |
| MarkdocScanner.ScanHtmlBody | src/scanner.c:717-762 | the body loop marks the end `BodyEnd` finds |
| BlockProperties.BodyEndFirstStop | src/scanner.c:717-762 | the body ends at its first stop: the end of input, just after a matching `</name>`, or just after the line break before a blank line |
| Recognizers.HtmlBlockEnd | src/scanner.c:651-763 | a block starts with `<` and a letter and is at least three characters long |
| MarkdocScanner.ScanHtmlBlock | src/scanner.c:651-763 | succeeds exactly when `HtmlBlockEnd` does and marks its end; otherwise the cursor is rewound |
| BlockProperties.SelfClosingBlock | src/scanner.c:685-715 | a self-closing opening tag is the whole block, ending in `/>` |
| MarkdocScanner.ScanLiteral | src/scanner.c:564-572 | succeeds exactly when the text is at the cursor, and then consumes it |
| MarkdocScanner.Scanner.ScanLineStart | src/scanner.c:810-846 | the result, token and new state are `LineStartStep`; on rejection the cursor is rewound |
| MarkdocScanner.Scanner.ScanFenceOpen | src/scanner.c:848-867 | consumes the fence run; it opens exactly when the run has three or more, and then records its character and length; otherwise the state is unchanged and the run stays consumed |
| MarkdocScanner.Scanner.ScanFenceClose | src/scanner.c:869-882 | closes exactly when `FenceCloseLine` accepts, clearing the three fence fields; otherwise nothing changes |
| MarkdocScanner.Scanner.ScanCodeContent | src/scanner.c:886-949 | the result, token and new state are `CodeContentStep` |
| MarkdocScanner.Scanner.ScanCode | src/scanner.c:848-949 | the result, token and new state are `FenceStep` |
| MarkdocScanner.Scanner.ScanTail | src/scanner.c:952-1016 | the result, token and new state are `TailStep`: list continuation decides alone when valid, then soft break, comment, HTML block |
| MarkdocScanner.Scanner.Scan | src/scanner.c:806-1017 | the result, token kind, token end and new state are `ScanSpec` |
| ScannerProperties.InitialConsistent | src/scanner.c:30-38 | a new scanner is in a reachable state |
| ScannerProperties.LineStartStepFacts | src/scanner.c:810-846 | the column-0 stage keeps the state on rejection; a token is valid, non-empty and column-0 kind, clears `at_start`, and toggles `in_frontmatter` only for frontmatter |
| ScannerProperties.TailStepFacts | src/scanner.c:952-1016 | the later stages keep the state on rejection; a token is valid, non-empty and clears `at_start` |
| ScannerProperties.FenceStepFacts | src/scanner.c:848-1016 | the code stages keep the state on rejection, give valid non-empty tokens, clear `at_start`, and keep the state reachable |
| ScannerProperties.FenceStepTokens | src/scanner.c:848-1016 | the code stages give code tokens or later-stage tokens only |
| ScannerProperties.ScanKeepsConsistent | src/scanner.c:806-1017 | one scan from a reachable state: rejection keeps the state, a token is valid and non-empty and leaves `at_start` false, nothing sets `at_start` back to true, and the new state is reachable |
| ScannerProperties.FenceOpenToken | src/scanner.c:848-867 | a fence opens only outside a fence, on a run of three or more of one backtick or tilde counted up to 255; the token is the run, and the state records its character and length |
| ScannerProperties.FromFenceStep | src/scanner.c:806-1017 | a token the column-0 stage cannot give comes from the code stages |
| ScannerProperties.CodeTokensFromFenceStep | src/scanner.c:848-949 | which branch gave each code token, under which conditions, and with what new state |
| ScannerProperties.FenceCloseToken | src/scanner.c:869-882 | a fence closes only inside a fence, on the fence character, where the close-line recogniser accepts; the three fence fields are cleared |
| ScannerProperties.CodeContentToken | src/scanner.c:886-948 | code content occurs only inside a fence, is never empty nor at the end of input, and contains no line start holding a closing run |
| FrontmatterProperties.FrontmatterToken | src/scanner.c:810-840 | a frontmatter token is at column 0 on a delimiter line; outside frontmatter it opens it only at document start on a `-` line with a closing line after it; inside, it closes it; `at_start` is cleared |
| FrontmatterProperties.LineStartFrontmatter | src/scanner.c:810-840 | the same for the column-0 stage alone |
| FrontmatterProperties.MarkerOpensFrontmatter | src/scanner.c:826-832 | the marker branch gives frontmatter only at document start, on a `-` delimiter line with a closing line after it |
| FrontmatterProperties.FrontmatterCloses | src/scanner.c:810-818 | inside frontmatter a column-0 delimiter line always closes it, whatever else is valid |

## Left out

- The rest of the repository is not part of this model: `grammar.js`, the exploratory AsciiDoc grammar and scanner under `notes/`, `test-tag.js`, `update_test_corpus.py` and the language bindings. Their behaviour comes from the parser generator or from foreign hosts.
- `tree_sitter_markdoc_external_scanner_destroy` and the `malloc`/`free` in create are left out. Memory management has no counterpart here; create is the `Scanner` constructor.
- The host's `TSLexer` is a cursor over a sequence (`Lexing.Lexer`). Its function-pointer interface, the `skip` flag of `advance`, and the copy semantics of `*lexer = saved` are not modelled. A restore moves the cursor back and keeps any mark.
- `get_column` is counted from the last LF, so a lone CR does not start a new column. That is how the host counts.
- The `result_symbol` of a rejected call is not stated; tree-sitter ignores it.
- `fence_char` is a C `char`. It is taken to be signed, which is the usual choice.
- Branches the source cannot reach are omitted, so no member needs an impossible case:
  - `marker_count == 0` in `scan_unordered_or_thematic`;
  - `digits == 0` after a digit in `is_list_marker_line`;
  - the bounds test in `serialize`.
- `indent` (an `unsigned`) and the run counters are unbounded integers; no line is long enough for them to wrap. The `uint8_t` counters are modelled with their bounds: fence runs are capped at 255, and the list-continuation indentation wraps modulo 256.
- The 64-byte `strncmp` buffers of the HTML block become sequence comparison. The 63-character limit on the name is kept as a rejection rather than as a precondition.
- MarkdocScanner.Scanner.ScanCode: after a fence run shorter than three, it goes straight to the later stages. The close and content branches cannot apply there, because the scanner is outside a fenced block.
- Left as written, not corrected:
  - A fence run shorter than three stays consumed. The later stages start after it (`FenceOpenStep`, `ScannerProperties.CodeTokensFromFenceStep`).
  - `scan_fence_close_line` accepts any text after the run (`ScannerProperties.FenceCloseLineShape`), whereas the code-body loop stops only at a run followed by blanks to the line end (`ScannerProperties.CodeContentToken`).
  - The 8-bit indentation counter reads 256 blanks as none (`BlockProperties.ContinuationIndentWraps`).
  - A `*` run such as `**` at column 0 gives the indented unordered marker (`MarkerProperties.StarDashMarker`).
