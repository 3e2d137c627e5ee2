# SqlSpeaker batch splitter in Dafny

SqlSpeaker sends T-SQL scripts to SQL Server. Before it sends a script, the
`QueryParser` class (`src/QueryParser.cs`) splits the script into *batches*
at `GO` lines, the way SQLCMD does. The splitter is a hand-written state
machine that works one character at a time:

- a cursor `charIndex` walks the script;
- block comments and line comments are skipped;
- text between `[` and `]` is copied verbatim;
- after every line feed, a look-ahead cursor `tempIndex` checks whether
  the next line is a `GO` line. If it is, the batch built so far
  (`currentQuery`) goes into the `queries` list.

This project models that constructor and the `Queries` property exactly,
including their index arithmetic. It then proves what the splitter
guarantees.

The project has five modules:

- `BatchScan` (`batch_scan.dfy`) is the reference definition.
  - Each inner loop of the constructor is a recursive function. The
    contract of each function says where the loop stops, without
    referring to the loop.
  - `Step` is one iteration of the outer `for` loop.
  - `ScanFrom` and `Scan` run the whole loop and then add the final batch.
  - An unterminated `[` makes the source read `query[query.Length]`, which
    throws in C#. Here that read is the result `IndexOutOfRange(|query|)`.
- `QueryParsing` (`query_parser.dfy`) is the imperative model.
  - Methods with `while` loops over `charIndex` and `tempIndex`, one per
    loop of the source, are each proved equal to their reference function.
  - `Parse` is proved equal to `Scan`.
  - The class `QueryParser` has the `queries` field and the `Queries`
    property.
- `BatchProperties` (`batch_properties.dfy`) holds two kinds of lemma:
  - general properties of `Scan`: the shape of the result, no invented
    characters, a bound on the number of batches, and when it fails;
  - one lemma per branch of the character switch, usable to compute a
    split step by step.
- `Scenarios` (`scenarios.dfy`) holds concrete scripts and their batches,
  derived from those branch lemmas.
- `Sequences` (`sequences.dfy`) holds helpers: subsequences, flattening and
  counting line feeds.

The model follows the code where the code does something other than its
own comments say:

- **Quotes are not opaque, and an unterminated `[` fails.** The comment at
  src/QueryParser.cs:100-103 says a quote or `[` is scanned "til matching
  block end mark or end of file". For `'` and `"`, though, the copy loop
  stops at once on the opening quote. A quote is therefore an ordinary
  character, and a `GO` line inside a quoted literal does split the batch
  (`Scenarios.GoInsideQuote`). Only `[ ... ]` is opaque. An unterminated
  `[` does not end at end of file: the copy loop reads one past the end
  (`BatchProperties.UnterminatedBracketFails`).
- **Other text on a `GO` line is ignored.** The comment at
  src/QueryParser.cs:143-149 says "illegal" characters after `GO` abort `GO`
  detection. The loop instead skips them and still commits at the next
  terminator (`Scenarios.OtherTextOnGoLine`).

Two further consequences of the index guards follow:

- A line comment keeps the line feed that ends it.
- A `GO` that ends the script with nothing after it is not recognised.

So `-- comment\nSELECT 1\nGO` is the single batch `"\nSELECT 1\nGO"`
(`Scenarios.CommentThenTrailingGo`).

## Model

| member | source | states |
|---|---|---|
| BatchScan.BlockCommentEnd | src/QueryParser.cs:59-65 | the block-comment loop started at `i` stops at the first index below `Length - 1` where a closing star and slash end, or at `max(i, Length - 1)` when there is none; no closer lies before the stop |
| BatchScan.LineCommentEnd | src/QueryParser.cs:81-86 | the line-comment loop stops at the first index whose next character is a line feed, or at `Length - 1`; no line feed lies in between |
| BatchScan.ClosingIndex | src/QueryParser.cs:113-117 | the copy loop finds the first occurrence of the closer at or after the start, or runs off the end exactly when there is none |
| BatchScan.SkipBlanks | src/QueryParser.cs:132-137 | the blank-skipping loop stops at the first character that is not a space or tab, capped at `Length - 1`, and everything skipped is blank |
| BatchScan.GoLineEnd | src/QueryParser.cs:150-185 | the scan of a `GO` line stops at the first terminator (`\n`, `\r`, `;`) within reach, or at the first comment opener before the last two characters, or reports that it found neither within `GoScanLast` |
| BatchScan.Step | src/QueryParser.cs:45-197 | one iteration of the outer loop either fails by reading index `Length`, or moves `charIndex` strictly forward and at most to `Length + 1` and either commits nothing or commits exactly the current batch with a line feed appended |
| BatchScan.ScanFrom | src/QueryParser.cs:45-199 | the outer loop from a given `charIndex`, followed by the unconditional final `Add`: batches already committed are never changed and at least one more is added, and a failure is always the read at index `Length` |
| BatchScan.Scan | src/QueryParser.cs:39-200 | the whole split: a successful one has at least one batch, and a failure is the read at index `Length` |
| QueryParsing.SkipBlockComment | src/QueryParser.cs:53-66 | the `while` loop over a block comment ends where `BlockCommentEnd` says |
| QueryParsing.SkipLineComment | src/QueryParser.cs:78-87 | the `while` loop over a line comment ends where `LineCommentEnd` says |
| QueryParsing.CopyDelimited | src/QueryParser.cs:104-117 | the copy loop for a quote or `[` appends exactly the text through the closer that `ClosingIndex` finds, or fails when there is none |
| QueryParsing.SkipBlankRun | src/QueryParser.cs:132-137 | the blank-skipping loop ends where `SkipBlanks` says |
| QueryParsing.ScanGoLine | src/QueryParser.cs:150-185 | the `do ... while` over a `GO` line ends where `GoLineEnd` says; the repeat-count digits play no part in the result |
| QueryParsing.ScanCharacter | src/QueryParser.cs:47-196 | one pass of the `switch` plus the loop's increment yields the same next index, current batch and batch list as `Step` |
| QueryParsing.Parse | src/QueryParser.cs:39-200 | the constructor's loop, followed by the unconditional final `Add`, returns exactly `Scan(query)`, including the failure on an unterminated `[` |
| QueryParsing.QueryParser.constructor | src/QueryParser.cs:39-200 | for a script that does not fail, the `queries` field holds exactly the batches of `Scan(query)` and is well formed |
| QueryParsing.QueryParser.Queries | src/QueryParser.cs:202-205 | the property returns at least one batch, and every batch but the last ends in a line feed |
| BatchProperties.StepKeepsInvariant | src/QueryParser.cs:47-196 | every iteration keeps the loop invariant: committed batches end in a line feed, and the kept text is a subsequence of the text read so far |
| BatchProperties.ScanShape | src/QueryParser.cs:43-199 | a successful split has at least one batch; every batch but the last is non-empty and ends in a line feed; the batches laid end to end are a subsequence of the script |
| BatchProperties.StepCommitsOnlyAtGoLine | src/QueryParser.cs:122-189 | an iteration commits only at a line feed that starts a `GO` line, and what it commits is the current batch with that line feed appended |
| BatchProperties.EmptyScript | src/QueryParser.cs:199 | the empty script gives exactly one empty batch |
| BatchProperties.BatchesBoundedByNewlines | src/QueryParser.cs:122-189 | there are at most one more batches than line feeds in the script |
| BatchProperties.SingleLineIsOneBatch | src/QueryParser.cs:122-189 | a script without a line feed is never split |
| BatchProperties.StepFails | src/QueryParser.cs:113-117 | an iteration fails only on a `[` with no later `]`, and the failing read is at index `Length` |
| BatchProperties.FailsOnlyOnUnclosedBracket | src/QueryParser.cs:113-117 | a split fails only by reading index `Length`, and only if the script has a `[` with no `]` after it |
| BatchProperties.PlainRun | src/QueryParser.cs:191-195 | a run of characters that are neither line feeds, `[` nor comment openers is copied unchanged onto the current batch, and nothing is committed |
| BatchProperties.PlainScriptIsOneBatch | src/QueryParser.cs:191-199 | a script made only of such characters is one batch equal to the script |
| BatchProperties.BlockCommentDropped | src/QueryParser.cs:53-66 | a block comment opened before the last two characters is skipped through its closer; nothing of it reaches a batch, and line feeds inside it are never examined |
| BatchProperties.BlockCommentToEnd | src/QueryParser.cs:53-66 | an unclosed block comment drops the rest of the script |
| BatchProperties.LateBlockOpenerIsText | src/QueryParser.cs:67-70 | a slash in the last two characters is kept as text |
| BatchProperties.LineCommentDropped | src/QueryParser.cs:78-87 | a `--` before the last two characters is dropped up to, not including, the first line feed from its third character on; that line feed is handled next |
| BatchProperties.LineCommentToEnd | src/QueryParser.cs:78-87 | a `--` with no later line feed drops the rest of the script |
| BatchProperties.QuoteIsOrdinary | src/QueryParser.cs:104-117 | a single or double quote is appended like an ordinary character |
| BatchProperties.BracketVerbatim | src/QueryParser.cs:104-117 | a `[` copies everything through the first `]` verbatim, with no split inside |
| BatchProperties.UnterminatedBracketFails | src/QueryParser.cs:113-117 | a `[` with no later `]` makes the split fail at index `Length` |
| BatchProperties.SkipBlanksToGo | src/QueryParser.cs:132-141 | after a line feed, blanks are skipped up to a `GO` that follows them |
| BatchProperties.GoLineCommitsAtTerminator | src/QueryParser.cs:153-162 | on a `GO` line, the first `\n`, `\r` or `;` commits the batch with the line feed before the `GO`; the `GO` text, any other characters and the terminator reach no batch, and the scan resumes after the terminator |
| BatchProperties.GoLineCommitsBeforeComment | src/QueryParser.cs:170-181 | on a `GO` line, a comment opener reached first commits the batch, and the scan resumes at the opener |
| BatchProperties.GoLineUnterminated | src/QueryParser.cs:183-185 | a `GO` line whose look-ahead reaches `Length - 1` with no stop commits nothing, and the `GO` text stays in the batch |
| BatchProperties.NewlineWithoutGo | src/QueryParser.cs:130-141 | a line feed not followed by a `GO` line is appended and commits nothing |
| BatchProperties.GoOnFirstLineIsText | src/QueryParser.cs:122-141 | for every script starting with `GO`, the `GO` is appended to the first batch as text and nothing is committed |
| BatchProperties.GoAfterConsumedLineFeedIsText | src/QueryParser.cs:156-161 | for every `GO` line ended by a line feed, a `GO` at the start of the next line is appended as text to the next batch |
| Scenarios.TwoBatches | src/QueryParser.cs:139-162 | `SELECT 1\nGO\nSELECT 2` gives `SELECT 1\n` and `SELECT 2` |
| Scenarios.NoGo | src/QueryParser.cs:191-199 | `SELECT 1` gives one batch |
| Scenarios.CommentThenTrailingGo | src/QueryParser.cs:78-87 | `-- comment\nSELECT 1\nGO` gives the single batch `\nSELECT 1\nGO` |
| Scenarios.BracketInsideQuote | src/QueryParser.cs:104-117 | a bracket inside quotes is copied verbatim, and the split still happens at `GO` |
| Scenarios.GoInsideBlockComment | src/QueryParser.cs:53-66 | a `GO` line inside a block comment does not split |
| Scenarios.GoInsideQuote | src/QueryParser.cs:113 | a `GO` line inside quotes does split |
| Scenarios.GoInsideBracket | src/QueryParser.cs:113-117 | a `GO` line inside brackets does not split |
| Scenarios.UnterminatedBracket | src/QueryParser.cs:113-117 | `SELECT [x` fails at index 9, its length |
| Scenarios.EmptyLineCommentSwallowsNextLine | src/QueryParser.cs:81-83 | a `--` right before a line feed also drops the next line, here a `GO` line |
| Scenarios.GoOnFirstLine | src/QueryParser.cs:122-141 | a `GO` on the first line is ordinary text |
| Scenarios.GoRightAfterGo | src/QueryParser.cs:156-161 | a `GO` on the line right after a `GO` line ended by a line feed is ordinary text |
| Scenarios.GoWithCount | src/QueryParser.cs:132-168 | leading blanks, lower case and a repeat count are accepted, and the count is dropped |
| Scenarios.GoFollowedByComment | src/QueryParser.cs:170-181 | a comment on a `GO` line ends it, and the comment's closing line feed starts the next batch |
| Scenarios.SemicolonAtEnd | src/QueryParser.cs:153-162 | `A\nGO;` gives `A\n` and an empty last batch |
| Scenarios.SemicolonAfterBlankAtEnd | src/QueryParser.cs:183-185 | in `A\nGO ;` the final `;` is never examined, so the script is one batch |
| Scenarios.OtherTextOnGoLine | src/QueryParser.cs:143-185 | other characters on a `GO` line are skipped, not rejected |

## Left out

- `src/SqlOptions.cs` is not part of this model. It wraps command-line, connection-string and XML configuration libraries and does file I/O.
- `SqlSpeaker.cs` is not part of this model. `Main` opens a database connection and writes to the console.
- `models/QueueItem.cs` is not part of this model. It is a property bag with no behaviour.
- The repeat count after `GO` (`queryRepeaterString`) is built but never used by the source. It is kept as a ghost variable in `QueryParsing.ScanGoLine` and does not affect any result.
- C# exceptions other than the out-of-range read after an unterminated `[` are not modelled. A `null` script cannot occur, because a Dafny string is always a value.
- QueryParsing.QueryParser.constructor: requires that the split does not fail. The source throws `IndexOutOfRangeException` there, and a Dafny constructor cannot return a failure. The failure itself is modelled by `QueryParsing.Parse`.
- The constructor's single method body is split into one method per inner loop plus `ScanCharacter` for the switch. The batch list is built in a local `seq` by `QueryParsing.Parse` and then stored in the `queries` field. The source instead adds to the field through the `Queries` property. No other code can observe the list during construction, so the result is the same.
- Characters: a Dafny `string` is a sequence of Unicode scalar values, while a C# `string` is indexed by UTF-16 code units. The batches agree, because every guard that depends on `Length` tests an ASCII character first. But the index in `IndexOutOfRange(|q|)` counts scalar values, not the C# index. Strings holding lone surrogates cannot be represented.
