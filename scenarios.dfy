// Concrete scripts and the batches the splitter of src/QueryParser.cs
// produces for them, each derived step by step from the case lemmas of
// BatchProperties. The script is a parameter fixed by the precondition, and
// the intermediate batches are written as slices of it.

module Scenarios {
  import opened BatchScan
  import opened BatchProperties

  /** A `GO` line between two statements splits them; the line feed before
      the `GO` stays in the first batch. */
  lemma TwoBatches(q: string)
    requires q == "SELECT 1\nGO\nSELECT 2"
    ensures Scan(q) == Parsed(["SELECT 1\n", "SELECT 2"])
  {
    calc {
      Scan(q);
    == { PlainRun(q, 0, 8, [], []); assert [] + q[0..8] == q[..8]; }
      ScanFrom(q, 8, q[..8], []);
    == { GoLineCommitsAtTerminator(q, 8, 9, 11, q[..8], []);
         assert q[..8] + [q[8]] == q[..9]; assert [] + [q[..9]] == [q[..9]]; }
      ScanFrom(q, 12, [], [q[..9]]);
    == { PlainRun(q, 12, 20, [], [q[..9]]); assert [] + q[12..20] == q[12..]; }
      ScanFrom(q, 20, q[12..], [q[..9]]);
    == { assert [q[..9]] + [q[12..]] == [q[..9], q[12..]]; }
      Parsed([q[..9], q[12..]]);
    }
    assert q[..9] == "SELECT 1\n" && q[12..] == "SELECT 2";
  }

  /** A script without `GO` is one batch. */
  lemma NoGo(q: string)
    requires q == "SELECT 1"
    ensures Scan(q) == Parsed(["SELECT 1"])
  {
    PlainScriptIsOneBatch(q);
  }

  /** A leading line comment is dropped but the line feed that ends it is
      kept, and a `GO` that ends the script with nothing after it is not
      recognised, so the script is a single batch. */
  lemma CommentThenTrailingGo(q: string)
    requires q == "-- comment\nSELECT 1\nGO"
    ensures Scan(q) == Parsed(["\nSELECT 1\nGO"])
  {
    // The line after the comment starts with neither a blank nor `GO`.
    assert !IsBlank(q[11]) && !StartsGo(q, 11);
    calc {
      Scan(q);
    == { LineCommentDropped(q, 0, 10, [], []); }
      ScanFrom(q, 10, [], []);
    == { NewlineWithoutGo(q, 10, [], []); assert [] + [q[10]] == q[10..11]; }
      ScanFrom(q, 11, q[10..11], []);
    == { PlainRun(q, 11, 19, q[10..11], []); assert q[10..11] + q[11..19] == q[10..19]; }
      ScanFrom(q, 19, q[10..19], []);
    == { NewlineWithoutGo(q, 19, q[10..19], []); assert q[10..19] + [q[19]] == q[10..20]; }
      ScanFrom(q, 20, q[10..20], []);
    == { PlainRun(q, 20, 22, q[10..20], []); assert q[10..20] + q[20..22] == q[10..]; }
      ScanFrom(q, 22, q[10..], []);
    == { assert [] + [q[10..]] == [q[10..]]; }
      Parsed([q[10..]]);
    }
    assert q[10..] == "\nSELECT 1\nGO";
  }

  /** A `[` inside a quote is still a bracket: its text is copied verbatim
      up to the `]`, and the split happens at `GO`. */
  lemma BracketInsideQuote(q: string)
    requires q == "'[b]'\nGO\nB"
    ensures Scan(q) == Parsed(["'[b]'\n", "B"])
  {
    calc {
      Scan(q);
    == { PlainRun(q, 0, 1, [], []); assert [] + q[0..1] == q[..1]; }
      ScanFrom(q, 1, q[..1], []);
    == { BracketVerbatim(q, 1, 3, q[..1], []); assert q[..1] + q[1..4] == q[..4]; }
      ScanFrom(q, 4, q[..4], []);
    == { PlainRun(q, 4, 5, q[..4], []); assert q[..4] + q[4..5] == q[..5]; }
      ScanFrom(q, 5, q[..5], []);
    == { GoLineCommitsAtTerminator(q, 5, 6, 8, q[..5], []);
         assert q[..5] + [q[5]] == q[..6]; assert [] + [q[..6]] == [q[..6]]; }
      ScanFrom(q, 9, [], [q[..6]]);
    == { PlainRun(q, 9, 10, [], [q[..6]]); assert [] + q[9..10] == q[9..]; }
      ScanFrom(q, 10, q[9..], [q[..6]]);
    == { assert [q[..6]] + [q[9..]] == [q[..6], q[9..]]; }
      Parsed([q[..6], q[9..]]);
    }
    assert q[..6] == "'[b]'\n" && q[9..] == "B";
  }

  /** A `GO` line inside a block comment is skipped with the comment. */
  lemma GoInsideBlockComment(q: string)
    requires q == "A /* \nGO\n */\nGO\nB"
    ensures Scan(q) == Parsed(["A \n", "B"])
  {
    calc {
      Scan(q);
    == { PlainRun(q, 0, 2, [], []); assert [] + q[0..2] == q[..2]; }
      ScanFrom(q, 2, q[..2], []);
    == { BlockCommentDropped(q, 2, 12, q[..2], []); }
      ScanFrom(q, 12, q[..2], []);
    == { GoLineCommitsAtTerminator(q, 12, 13, 15, q[..2], []);
         assert [] + [q[..2] + [q[12]]] == [q[..2] + [q[12]]]; }
      ScanFrom(q, 16, [], [q[..2] + [q[12]]]);
    == { PlainRun(q, 16, 17, [], [q[..2] + [q[12]]]); assert [] + q[16..17] == q[16..]; }
      ScanFrom(q, 17, q[16..], [q[..2] + [q[12]]]);
    == { assert [q[..2] + [q[12]]] + [q[16..]] == [q[..2] + [q[12]], q[16..]]; }
      Parsed([q[..2] + [q[12]], q[16..]]);
    }
    assert q[..2] + [q[12]] == "A \n" && q[16..] == "B";
  }

  /** Quotes do not protect a `GO` line: the split happens inside the
      quoted text. */
  lemma GoInsideQuote(q: string)
    requires q == "A '\nGO\n'"
    ensures Scan(q) == Parsed(["A '\n", "'"])
  {
    calc {
      Scan(q);
    == { PlainRun(q, 0, 3, [], []); assert [] + q[0..3] == q[..3]; }
      ScanFrom(q, 3, q[..3], []);
    == { GoLineCommitsAtTerminator(q, 3, 4, 6, q[..3], []);
         assert q[..3] + [q[3]] == q[..4]; assert [] + [q[..4]] == [q[..4]]; }
      ScanFrom(q, 7, [], [q[..4]]);
    == { PlainRun(q, 7, 8, [], [q[..4]]); assert [] + q[7..8] == q[7..]; }
      ScanFrom(q, 8, q[7..], [q[..4]]);
    == { assert [q[..4]] + [q[7..]] == [q[..4], q[7..]]; }
      Parsed([q[..4], q[7..]]);
    }
    assert q[..4] == "A '\n" && q[7..] == "'";
  }

  /** A bracket does protect a `GO` line. */
  lemma GoInsideBracket(q: string)
    requires q == "A [\nGO\n]"
    ensures Scan(q) == Parsed([q])
  {
    calc {
      Scan(q);
    == { PlainRun(q, 0, 2, [], []); assert [] + q[0..2] == q[..2]; }
      ScanFrom(q, 2, q[..2], []);
    == { assert forall k :: 2 < k < 7 ==> q[k] != ']';
         BracketVerbatim(q, 2, 7, q[..2], []); assert q[..2] + q[2..8] == q; }
      ScanFrom(q, 8, q, []);
    == { assert [] + [q] == [q]; }
      Parsed([q]);
    }
  }

  /** An unterminated bracket makes the copy loop read one past the end. */
  lemma UnterminatedBracket(q: string)
    requires q == "SELECT [x"
    ensures Scan(q) == IndexOutOfRange(9)
  {
    calc {
      Scan(q);
    == { PlainRun(q, 0, 7, [], []); }
      ScanFrom(q, 7, [] + q[0..7], []);
    == { UnterminatedBracketFails(q, 7, [] + q[0..7], []); }
      IndexOutOfRange(|q|);
    }
  }

  /** The character after `--` is not examined, so a line feed right after
      it does not end the comment and the next line is dropped too. */
  lemma EmptyLineCommentSwallowsNextLine(q: string)
    requires q == "--\nGO\nA"
    ensures Scan(q) == Parsed(["\nA"])
  {
    calc {
      Scan(q);
    == { LineCommentDropped(q, 0, 5, [], []); }
      ScanFrom(q, 5, [], []);
    == { NewlineWithoutGo(q, 5, [], []); assert [] + [q[5]] == q[5..6]; }
      ScanFrom(q, 6, q[5..6], []);
    == { PlainRun(q, 6, 7, q[5..6], []); assert q[5..6] + q[6..7] == q[5..]; }
      ScanFrom(q, 7, q[5..], []);
    == { assert [] + [q[5..]] == [q[5..]]; }
      Parsed([q[5..]]);
    }
    assert q[5..] == "\nA";
  }

  /** `GO` on the first line is not a terminator: only a line feed starts
      the search for one. */
  lemma GoOnFirstLine(q: string)
    requires q == "GO\nA"
    ensures Scan(q) == Parsed([q])
  {
    calc {
      Scan(q);
    == { PlainRun(q, 0, 2, [], []); assert [] + q[0..2] == q[..2]; }
      ScanFrom(q, 2, q[..2], []);
    == { NewlineWithoutGo(q, 2, q[..2], []); assert q[..2] + [q[2]] == q[..3]; }
      ScanFrom(q, 3, q[..3], []);
    == { PlainRun(q, 3, 4, q[..3], []); assert q[..3] + q[3..4] == q; }
      ScanFrom(q, 4, q, []);
    == { assert [] + [q] == [q]; }
      Parsed([q]);
    }
  }

  /** After a `GO` line whose terminator is a line feed, that line feed is
      consumed, so a `GO` on the next line is ordinary text. */
  lemma GoRightAfterGo(q: string)
    requires q == "A\nGO\nGO\nB"
    ensures Scan(q) == Parsed(["A\n", "GO\nB"])
  {
    calc {
      Scan(q);
    == { PlainRun(q, 0, 1, [], []); assert [] + q[0..1] == q[..1]; }
      ScanFrom(q, 1, q[..1], []);
    == { GoLineCommitsAtTerminator(q, 1, 2, 4, q[..1], []);
         assert q[..1] + [q[1]] == q[..2]; assert [] + [q[..2]] == [q[..2]]; }
      ScanFrom(q, 5, [], [q[..2]]);
    == { PlainRun(q, 5, 7, [], [q[..2]]); assert [] + q[5..7] == q[5..7]; }
      ScanFrom(q, 7, q[5..7], [q[..2]]);
    == { NewlineWithoutGo(q, 7, q[5..7], [q[..2]]); assert q[5..7] + [q[7]] == q[5..8]; }
      ScanFrom(q, 8, q[5..8], [q[..2]]);
    == { PlainRun(q, 8, 9, q[5..8], [q[..2]]); assert q[5..8] + q[8..9] == q[5..]; }
      ScanFrom(q, 9, q[5..], [q[..2]]);
    == { assert [q[..2]] + [q[5..]] == [q[..2], q[5..]]; }
      Parsed([q[..2], q[5..]]);
    }
    assert q[..2] == "A\n" && q[5..] == "GO\nB";
  }

  /** Leading blanks, lower case and a repeat count are accepted; the count
      is dropped with the `GO` line. */
  lemma GoWithCount(q: string)
    requires q == "A\n  go 3\nB"
    ensures Scan(q) == Parsed(["A\n", "B"])
  {
    calc {
      Scan(q);
    == { PlainRun(q, 0, 1, [], []); assert [] + q[0..1] == q[..1]; }
      ScanFrom(q, 1, q[..1], []);
    == { GoLineCommitsAtTerminator(q, 1, 4, 8, q[..1], []);
         assert q[..1] + [q[1]] == q[..2]; assert [] + [q[..2]] == [q[..2]]; }
      ScanFrom(q, 9, [], [q[..2]]);
    == { PlainRun(q, 9, 10, [], [q[..2]]); assert [] + q[9..10] == q[9..]; }
      ScanFrom(q, 10, q[9..], [q[..2]]);
    == { assert [q[..2]] + [q[9..]] == [q[..2], q[9..]]; }
      Parsed([q[..2], q[9..]]);
    }
    assert q[..2] == "A\n" && q[9..] == "B";
  }

  /** A comment on the `GO` line ends it, and the comment is then skipped;
      the line feed that ends the comment starts the next batch. */
  lemma GoFollowedByComment(q: string)
    requires q == "A\nGO -- x\nB"
    ensures Scan(q) == Parsed(["A\n", "\nB"])
  {
    calc {
      Scan(q);
    == { PlainRun(q, 0, 1, [], []); assert [] + q[0..1] == q[..1]; }
      ScanFrom(q, 1, q[..1], []);
    == { GoLineCommitsBeforeComment(q, 1, 2, 5, q[..1], []);
         assert q[..1] + [q[1]] == q[..2]; assert [] + [q[..2]] == [q[..2]]; }
      ScanFrom(q, 5, [], [q[..2]]);
    == { LineCommentDropped(q, 5, 9, [], [q[..2]]); }
      ScanFrom(q, 9, [], [q[..2]]);
    == { NewlineWithoutGo(q, 9, [], [q[..2]]); assert [] + [q[9]] == q[9..10]; }
      ScanFrom(q, 10, q[9..10], [q[..2]]);
    == { PlainRun(q, 10, 11, q[9..10], [q[..2]]); assert q[9..10] + q[10..11] == q[9..]; }
      ScanFrom(q, 11, q[9..], [q[..2]]);
    == { assert [q[..2]] + [q[9..]] == [q[..2], q[9..]]; }
      Parsed([q[..2], q[9..]]);
    }
    assert q[..2] == "A\n" && q[9..] == "\nB";
  }

  /** A `;` right after `GO` ends the line even as the last character of
      the script, and the empty remainder is added as a last batch. */
  lemma SemicolonAtEnd(q: string)
    requires q == "A\nGO;"
    ensures Scan(q) == Parsed(["A\n", ""])
  {
    calc {
      Scan(q);
    == { PlainRun(q, 0, 1, [], []); assert [] + q[0..1] == q[..1]; }
      ScanFrom(q, 1, q[..1], []);
    == { GoLineCommitsAtTerminator(q, 1, 2, 4, q[..1], []);
         assert q[..1] + [q[1]] == q[..2]; assert [] + [q[..2]] == [q[..2]]; }
      ScanFrom(q, 5, [], [q[..2]]);
    == { assert [q[..2]] + [[]] == [q[..2], []]; }
      Parsed([q[..2], []]);
    }
    assert q[..2] == "A\n";
  }

  /** The last character of the script is examined only right after the
      `GO`: a `;` after a blank there is not seen, and the `GO` line is
      ordinary text. */
  lemma SemicolonAfterBlankAtEnd(q: string)
    requires q == "A\nGO ;"
    ensures Scan(q) == Parsed([q])
  {
    calc {
      Scan(q);
    == { PlainRun(q, 0, 1, [], []); assert [] + q[0..1] == q[..1]; }
      ScanFrom(q, 1, q[..1], []);
    == { GoLineUnterminated(q, 1, 2, q[..1], []); assert q[..1] + [q[1]] == q[..2]; }
      ScanFrom(q, 2, q[..2], []);
    == { PlainRun(q, 2, 6, q[..2], []); assert q[..2] + q[2..6] == q; }
      ScanFrom(q, 6, q, []);
    == { assert [] + [q] == [q]; }
      Parsed([q]);
    }
  }

  /** Any other text after `GO` is skipped, not rejected. */
  lemma OtherTextOnGoLine(q: string)
    requires q == "A\nGOX;B"
    ensures Scan(q) == Parsed(["A\n", "B"])
  {
    calc {
      Scan(q);
    == { PlainRun(q, 0, 1, [], []); assert [] + q[0..1] == q[..1]; }
      ScanFrom(q, 1, q[..1], []);
    == { GoLineCommitsAtTerminator(q, 1, 2, 5, q[..1], []);
         assert q[..1] + [q[1]] == q[..2]; assert [] + [q[..2]] == [q[..2]]; }
      ScanFrom(q, 6, [], [q[..2]]);
    == { PlainRun(q, 6, 7, [], [q[..2]]); assert [] + q[6..7] == q[6..]; }
      ScanFrom(q, 7, q[6..], [q[..2]]);
    == { assert [q[..2]] + [q[6..]] == [q[..2], q[6..]]; }
      Parsed([q[..2], q[6..]]);
    }
    assert q[..2] == "A\n" && q[6..] == "B";
  }
}
