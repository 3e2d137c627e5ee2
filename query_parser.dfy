// The QueryParser class of src/QueryParser.cs: its constructor splits a
// T-SQL script into batches at `GO` lines, the way SQLCMD does.

module QueryParsing {
  import opened BatchScan
  import opened BatchProperties

  /** The block-comment loop (src/QueryParser.cs:59-65), entered with
      `charIndex` on the opening slash. */
  method SkipBlockComment(query: string, start: nat) returns (charIndex: nat)
    requires start < |query| - 2
    ensures charIndex == BlockCommentEnd(query, start + 3)
  {
    charIndex := start + 3;
    while charIndex < |query| - 1 && !(query[charIndex - 1] == '*' && query[charIndex] == '/')
      invariant start + 3 <= charIndex <= |query|
      invariant BlockCommentEnd(query, charIndex) == BlockCommentEnd(query, start + 3)
      decreases |query| - charIndex
    {
      charIndex := charIndex + 1;
    }
  }

  /** The line-comment loop (src/QueryParser.cs:81-86), entered with
      `charIndex` on the first dash. */
  method SkipLineComment(query: string, start: nat) returns (charIndex: nat)
    requires start < |query| - 2
    ensures charIndex == LineCommentEnd(query, start + 2)
  {
    charIndex := start + 2;
    while charIndex < |query| - 1 && query[charIndex + 1] != '\n'
      invariant start + 2 <= charIndex < |query|
      invariant LineCommentEnd(query, charIndex) == LineCommentEnd(query, start + 2)
      decreases |query| - charIndex
    {
      charIndex := charIndex + 1;
    }
  }

  /** The delimited-text case (src/QueryParser.cs:104-117), entered with
      `charIndex` on a quote or `[`: appends characters to `currentQuery`
      until the closer. `None` is the read of `query[query.Length]`. */
  method CopyDelimited(query: string, start: nat, currentQuery: string)
    returns (r: Option<(nat, string)>)
    requires start < |query|
    ensures ClosingIndex(query, start, Closer(query[start])).None? ==> r.None?
    ensures ClosingIndex(query, start, Closer(query[start])).Some? ==>
      var e := ClosingIndex(query, start, Closer(query[start])).value;
      r == Some((e, currentQuery + query[start..e + 1]))
  {
    var charIndex := start;
    var currentChar := query[charIndex];
    var text := currentQuery + [query[charIndex]];
    if currentChar == '[' {
      currentChar := ']';
    }
    while charIndex < |query| && query[charIndex] != currentChar
      invariant start <= charIndex < |query|
      invariant ClosingIndex(query, charIndex, currentChar) == ClosingIndex(query, start, Closer(query[start]))
      invariant text == currentQuery + query[start..charIndex + 1]
      decreases |query| - charIndex
    {
      charIndex := charIndex + 1;
      if charIndex == |query| {
        return None;
      }
      text := text + [query[charIndex]];
    }
    r := Some((charIndex, text));
  }

  /** The blank-skipping loop (src/QueryParser.cs:132-137). */
  method SkipBlankRun(query: string, start: nat) returns (tempIndex: nat)
    requires start <= |query|
    ensures tempIndex == SkipBlanks(query, start)
  {
    tempIndex := start;
    while tempIndex < |query| - 1 && (query[tempIndex] == ' ' || query[tempIndex] == '\t')
      invariant start <= tempIndex <= |query|
      invariant SkipBlanks(query, tempIndex) == SkipBlanks(query, start)
      decreases |query| - tempIndex
    {
      tempIndex := tempIndex + 1;
    }
  }

  /** The `do ... while` over a `GO` line (src/QueryParser.cs:150-185),
      entered with `tempIndex` just past the `GO`. Returns where it breaks
      out; the caller commits the batch as the two `break` branches do. */
  method ScanGoLine(query: string, start: nat) returns (stop: GoLineStop)
    requires start < |query|
    ensures stop == GoLineEnd(query, start)
  {
    var tempIndex := start;
    // Digits after GO are collected but never used.
    ghost var queryRepeaterString: string := [];
    while true
      invariant start <= tempIndex < |query|
      invariant GoLineEnd(query, tempIndex) == GoLineEnd(query, start)
      decreases |query| - tempIndex
    {
      if query[tempIndex] == '\n' || query[tempIndex] == '\r' || query[tempIndex] == ';' {
        return Terminator(tempIndex);
      }
      if IsDigit(query[tempIndex]) {
        queryRepeaterString := queryRepeaterString + [query[tempIndex]];
      }
      if tempIndex < |query| - 2 &&
         ((query[tempIndex] == '/' && query[tempIndex + 1] == '*') ||
          (query[tempIndex] == '-' && query[tempIndex + 1] == '-'))
      {
        return CommentAt(tempIndex);
      }
      tempIndex := tempIndex + 1;
      if tempIndex >= |query| - 1 {
        return Unterminated;
      }
    }
  }

  /** One pass of the `switch` in the body of the outer loop
      (src/QueryParser.cs:47-196) at `charIndex`, followed by the loop's
      `charIndex++`. Returns the new `charIndex`, `currentQuery` and
      `queries`, or the read of `query[query.Length]` after an unterminated
      `[`. */
  method ScanCharacter(query: string, charIndex: nat, currentQuery: string, queries: seq<string>)
    returns (s: StepResult)
    requires charIndex < |query|
    ensures s == Step(query, charIndex, currentQuery, queries)
  {
    var c := query[charIndex];
    if c == '/' && charIndex < |query| - 2 && query[charIndex + 1] == '*' {
      var i := SkipBlockComment(query, charIndex);
      s := Advance(i + 1, currentQuery, queries);
    } else if c == '-' && charIndex < |query| - 2 && query[charIndex + 1] == '-' {
      var i := SkipLineComment(query, charIndex);
      s := Advance(i + 1, currentQuery, queries);
    } else if c == '"' || c == '\'' || c == '[' {
      var copied := CopyDelimited(query, charIndex, currentQuery);
      if copied.None? {
        return Crash(|query|);
      }
      s := Advance(copied.value.0 + 1, copied.value.1, queries);
    } else if c == '\n' {
      var text := currentQuery + [c];
      s := Advance(charIndex + 1, text, queries);
      var tempIndex := SkipBlankRun(query, charIndex + 1);
      if tempIndex < |query| - 2 &&
         (query[tempIndex] == 'G' || query[tempIndex] == 'g') &&
         (query[tempIndex + 1] == 'O' || query[tempIndex + 1] == 'o')
      {
        var stop := ScanGoLine(query, tempIndex + 2);
        match stop
        case Terminator(k) =>
          // The terminator is consumed: the scan resumes after it.
          s := Advance(k + 1, [], queries + [text]);
        case CommentAt(k) =>
          // charIndex = tempIndex - 1, so the comment is scanned next.
          s := Advance(k, [], queries + [text]);
        case Unterminated =>
      }
    } else {
      // Any other character, including a slash or dash that opens no comment.
      s := Advance(charIndex + 1, currentQuery + [c], queries);
    }
  }

  /** The QueryParser constructor (src/QueryParser.cs:39-200): the outer
      `for` loop over `charIndex`, then the unconditional addition of the
      last batch. The read of `query[query.Length]` after an unterminated
      `[` is returned as `IndexOutOfRange`. */
  method Parse(query: string) returns (r: ParseResult)
    ensures r == Scan(query)
  {
    var queries: seq<string> := [];
    var currentQuery: string := [];
    var charIndex: nat := 0;
    while charIndex < |query|
      invariant charIndex <= |query| + 1
      invariant ScanFrom(query, charIndex, currentQuery, queries) == Scan(query)
      decreases |query| + 1 - charIndex
    {
      var s := ScanCharacter(query, charIndex, currentQuery, queries);
      if s.Crash? {
        return IndexOutOfRange(s.index);
      }
      charIndex, currentQuery, queries := s.next, s.current, s.committed;
    }
    queries := queries + [currentQuery];
    r := Parsed(queries);
  }

  /** A parsed script. `queries` is the private list field that the
      constructor fills and the `Queries` property returns. */
  class QueryParser {
    var queries: seq<string>

    /** The batch list has the shape every split produces. */
    ghost predicate Valid()
      reads this
    {
      WellFormedBatches(queries)
    }

    /** Splits `query` into batches. The source throws on an unterminated
        `[`; a caller must not construct a parser for such a script. */
    constructor (query: string)
      requires Scan(query).Parsed?
      ensures queries == Scan(query).batches
      ensures Valid()
    {
      var r := Parse(query);
      queries := r.batches;
      ScanShape(query);
    }

    /** The `Queries` property (src/QueryParser.cs:202-205). */
    function Queries(): (r: seq<string>)
      reads this
      requires Valid()
      ensures |r| >= 1
      ensures forall i :: 0 <= i < |r| - 1 ==> EndsInNewline(r[i])
    {
      assert Committed(queries[..|queries| - 1]);
      assert forall i :: 0 <= i < |queries| - 1 ==> queries[..|queries| - 1][i] == queries[i];
      queries
    }
  }
}
