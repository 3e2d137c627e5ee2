// Properties of the batch splitter of src/QueryParser.cs, proved about the
// reference definition BatchScan.ScanFrom.

module BatchProperties {
  import opened BatchScan
  import opened Sequences

  predicate EndsInNewline(s: string)
  {
    |s| > 0 && s[|s| - 1] == '\n'
  }

  /** Every batch is non-empty and ends in the line feed before its `GO`. */
  ghost predicate Committed(ds: seq<string>)
  {
    forall i :: 0 <= i < |ds| ==> EndsInNewline(ds[i])
  }

  /** The shape of every list of batches the splitter returns: at least one
      batch, and every batch but the last ends in a line feed. */
  ghost predicate WellFormedBatches(bs: seq<string>)
  {
    |bs| >= 1 && Committed(bs[..|bs| - 1])
  }

  function Min(a: int, b: int): int { if a <= b then a else b }

  /** What holds at the head of the outer loop: committed batches end in a
      line feed, and all text kept so far is a subsequence of the text read. */
  ghost predicate ScanInvariant(q: string, p: nat, cur: string, done: seq<string>)
  {
    Committed(done) && IsSubsequence(Flatten(done) + cur, q[..Min(p, |q|)])
  }

  lemma CommitKeepsInvariant(q: string, p: nat, j: nat, cur: string, done: seq<string>)
    requires p < |q| && q[p] == '\n' && p + 1 <= j <= |q|
    requires ScanInvariant(q, p, cur, done)
    ensures ScanInvariant(q, j, [], done + [cur + ['\n']])
  {
    FlattenSnoc(done, cur + ['\n']);
    SubsequenceSnoc(Flatten(done) + cur, q[..p], '\n');
    assert q[..p] + [q[p]] == q[..p + 1];
    assert Flatten(done) + cur + ['\n'] == Flatten(done + [cur + ['\n']]) + [];
    SubsequenceOfPrefix(Flatten(done + [cur + ['\n']]) + [], q, p + 1, j);
  }

  lemma AppendKeepsInvariant(q: string, p: nat, cur: string, done: seq<string>)
    requires p < |q|
    requires ScanInvariant(q, p, cur, done)
    ensures ScanInvariant(q, p + 1, cur + [q[p]], done)
  {
    SubsequenceSnoc(Flatten(done) + cur, q[..p], q[p]);
    assert q[..p] + [q[p]] == q[..p + 1];
    assert Flatten(done) + cur + [q[p]] == Flatten(done) + (cur + [q[p]]);
  }

  lemma SkipKeepsInvariant(q: string, p: nat, j: nat, cur: string, done: seq<string>)
    requires p < |q| && p <= j
    requires ScanInvariant(q, p, cur, done)
    ensures ScanInvariant(q, j, cur, done)
  {
    SubsequenceOfPrefix(Flatten(done) + cur, q, p, Min(j, |q|));
  }

  /** The shape every successful result has. */
  ghost predicate ShapeOf(q: string, r: ParseResult)
  {
    r.Parsed? ==> WellFormedBatches(r.batches) && IsSubsequence(Flatten(r.batches), q)
  }

  lemma DelimitedKeepsInvariant(q: string, p: nat, cur: string, done: seq<string>)
    requires p < |q| && (q[p] == '"' || q[p] == '\'' || q[p] == '[')
    requires ScanInvariant(q, p, cur, done)
    ensures ClosingIndex(q, p, Closer(q[p])).Some? ==>
      var e := ClosingIndex(q, p, Closer(q[p])).value;
      ScanInvariant(q, e + 1, cur + q[p..e + 1], done)
  {
    match ClosingIndex(q, p, Closer(q[p]))
    case None =>
    case Some(e) =>
      var kept := Flatten(done) + cur;
      assert Min(p, |q|) == p && Min(e + 1, |q|) == e + 1;
      SubsequenceAppendSlice(kept, q, p, e + 1);
      assert kept + q[p..e + 1] == Flatten(done) + (cur + q[p..e + 1]);
  }

  lemma NewlineKeepsInvariant(q: string, p: nat, cur: string, done: seq<string>)
    requires p < |q| && q[p] == '\n'
    requires ScanInvariant(q, p, cur, done)
    ensures Step(q, p, cur, done).Advance?
    ensures ScanInvariant(q, Step(q, p, cur, done).next, Step(q, p, cur, done).current,
                          Step(q, p, cur, done).committed)
  {
    var t := SkipBlanks(q, p + 1);
    if t < |q| - 2 && StartsGo(q, t) {
      match GoLineEnd(q, t + 2)
      case Terminator(k) =>
        assert Step(q, p, cur, done) == Advance(k + 1, [], done + [cur + ['\n']]);
        CommitKeepsInvariant(q, p, k + 1, cur, done);
      case CommentAt(k) =>
        assert Step(q, p, cur, done) == Advance(k, [], done + [cur + ['\n']]);
        CommitKeepsInvariant(q, p, k, cur, done);
      case Unterminated =>
        assert Step(q, p, cur, done) == Advance(p + 1, cur + [q[p]], done);
        AppendKeepsInvariant(q, p, cur, done);
    } else {
      assert Step(q, p, cur, done) == Advance(p + 1, cur + [q[p]], done);
      AppendKeepsInvariant(q, p, cur, done);
    }
  }

  /** One iteration of the outer loop keeps the invariant. */
  lemma StepKeepsInvariant(q: string, p: nat, cur: string, done: seq<string>)
    requires p < |q|
    requires ScanInvariant(q, p, cur, done)
    ensures Step(q, p, cur, done).Advance? ==>
      ScanInvariant(q, Step(q, p, cur, done).next, Step(q, p, cur, done).current,
                    Step(q, p, cur, done).committed)
  {
    if q[p] == '/' && p < |q| - 2 && q[p + 1] == '*' {
      SkipKeepsInvariant(q, p, BlockCommentEnd(q, p + 3) + 1, cur, done);
    } else if q[p] == '-' && p < |q| - 2 && q[p + 1] == '-' {
      SkipKeepsInvariant(q, p, LineCommentEnd(q, p + 2) + 1, cur, done);
    } else if q[p] == '"' || q[p] == '\'' || q[p] == '[' {
      DelimitedKeepsInvariant(q, p, cur, done);
    } else if q[p] == '\n' {
      NewlineKeepsInvariant(q, p, cur, done);
    } else {
      AppendKeepsInvariant(q, p, cur, done);
    }
  }

  /** The invariant holds until the end of the scan, where it gives the
      shape of the result. */
  lemma {:induction false} ScanFromShape(q: string, p: nat, cur: string, done: seq<string>)
    requires p <= |q| + 1
    requires ScanInvariant(q, p, cur, done)
    ensures ShapeOf(q, ScanFrom(q, p, cur, done))
    decreases |q| + 1 - p
  {
    if p >= |q| {
      FlattenSnoc(done, cur);
      assert (done + [cur])[..|done|] == done;
      assert q[..|q|] == q;
    } else {
      StepKeepsInvariant(q, p, cur, done);
      match Step(q, p, cur, done)
      case Crash(_) =>
      case Advance(p', cur', done') => ScanFromShape(q, p', cur', done');
    }
  }

  /** A successful split returns at least one batch; every batch but the
      last is non-empty and ends in a line feed; and the batches laid end to
      end are a subsequence of the script: nothing is invented or reordered. */
  lemma ScanShape(q: string)
    ensures Scan(q).Parsed? ==>
      WellFormedBatches(Scan(q).batches) && IsSubsequence(Flatten(Scan(q).batches), q)
  {
    assert Flatten([]) + [] == [];
    ScanFromShape(q, 0, [], []);
  }

  /** The empty script is one empty batch. */
  lemma EmptyScript()
    ensures Scan("") == Parsed([""])
  {
  }

  lemma {:induction false} CommittedNewlines(ds: seq<string>)
    requires Committed(ds)
    ensures |ds| <= NewlineCount(Flatten(ds))
    decreases |ds|
  {
    if ds != [] {
      var last := ds[|ds| - 1];
      assert Committed(ds[..|ds| - 1]) by {
        var init := ds[..|ds| - 1];
        forall i | 0 <= i < |init| ensures EndsInNewline(init[i]) {
          assert init[i] == ds[i];
        }
      }
      CommittedNewlines(ds[..|ds| - 1]);
      assert EndsInNewline(last);
      assert last == last[..|last| - 1] + ['\n'];
      assert multiset(last)['\n'] >= 1;
    }
  }

  /** Each split consumes a distinct line feed of the script, so there are
      at most one more batches than line feeds. */
  lemma BatchesBoundedByNewlines(q: string)
    requires Scan(q).Parsed?
    ensures |Scan(q).batches| <= NewlineCount(q) + 1
  {
    var bs := Scan(q).batches;
    ScanShape(q);
    var init := bs[..|bs| - 1];
    CommittedNewlines(init);
    assert Flatten(bs) == Flatten(init) + bs[|bs| - 1];
    SubsequenceMultiset(Flatten(bs), q);
  }

  /** A script without a line feed is never split. */
  lemma SingleLineIsOneBatch(q: string)
    requires '\n' !in q
    requires Scan(q).Parsed?
    ensures |Scan(q).batches| == 1
  {
    BatchesBoundedByNewlines(q);
    ScanShape(q);
    assert multiset(q)['\n'] == 0;
  }

  /** A `[` whose text has no later `]`. */
  ghost predicate UnclosedBracketAt(q: string, j: nat)
    requires j < |q|
  {
    q[j] == '[' && forall k :: j < k < |q| ==> q[k] != ']'
  }

  /** The only way one iteration fails is a `[` with no later `]`. */
  lemma StepFails(q: string, p: nat, cur: string, done: seq<string>)
    requires p < |q|
    ensures Step(q, p, cur, done).Crash? ==>
      Step(q, p, cur, done).index == |q| && UnclosedBracketAt(q, p)
  {
    if q[p] == '"' || q[p] == '\'' {
      assert ClosingIndex(q, p, Closer(q[p])) == Some(p);
    }
  }

  lemma {:induction false} ScanFromFails(q: string, p: nat, cur: string, done: seq<string>)
    requires p <= |q| + 1
    ensures ScanFrom(q, p, cur, done).IndexOutOfRange? ==>
      ScanFrom(q, p, cur, done).index == |q| &&
      exists j :: p <= j < |q| && UnclosedBracketAt(q, j)
    decreases |q| + 1 - p
  {
    if p < |q| {
      StepFails(q, p, cur, done);
      match Step(q, p, cur, done)
      case Crash(_) =>
      case Advance(p', cur', done') => ScanFromFails(q, p', cur', done');
    }
  }

  /** The only failure is the read one past the end, and it needs a `[`
      with no `]` after it. */
  lemma FailsOnlyOnUnclosedBracket(q: string)
    ensures Scan(q).IndexOutOfRange? ==>
      Scan(q).index == |q| && exists j :: 0 <= j < |q| && UnclosedBracketAt(q, j)
  {
    ScanFromFails(q, 0, [], []);
  }

  /** A character that one iteration of the outer loop simply appends: not
      a line feed, not a `[`, and not the start of a comment opener before
      the last two characters. Quotes are included. */
  predicate PlainAt(q: string, k: nat)
    requires k < |q|
  {
    q[k] != '\n' && q[k] != '[' && !(k < |q| - 2 && OpensComment(q, k))
  }

  /** A run of plain characters is copied unchanged onto the batch under
      construction, and nothing is committed. */
  lemma {:induction false} PlainRun(q: string, p: nat, m: nat, cur: string, done: seq<string>)
    requires p <= m <= |q|
    requires forall k :: p <= k < m ==> PlainAt(q, k)
    ensures ScanFrom(q, p, cur, done) == ScanFrom(q, m, cur + q[p..m], done)
    decreases m - p
  {
    if p == m {
      assert cur + q[p..m] == cur;
    } else {
      assert PlainAt(q, p);
      assert q[p..p + 1] == [q[p]];
      assert Step(q, p, cur, done) == Advance(p + 1, cur + [q[p]], done);
      PlainRun(q, p + 1, m, cur + [q[p]], done);
      assert cur + [q[p]] + q[p + 1..m] == cur + q[p..m];
    }
  }

  /** A script made only of plain characters is one batch holding the whole
      script. */
  lemma PlainScriptIsOneBatch(q: string)
    requires forall k :: 0 <= k < |q| ==> PlainAt(q, k)
    ensures Scan(q) == Parsed([q])
  {
    PlainRun(q, 0, |q|, [], []);
    assert [] + q[0..|q|] == q;
  }

  // ---------------------------------------------------------------------
  // One iteration of the outer loop, case by case.

  // A block-comment opener (slash, star) before the last two characters is
  // skipped through the first closer (star, slash) whose star is at least two
  // characters after the opener; the batch under construction is unchanged
  // and no line feed inside the comment is examined.
  lemma BlockCommentDropped(q: string, p: nat, e: nat, cur: string, done: seq<string>)
    requires p < |q| - 2 && q[p] == '/' && q[p + 1] == '*'
    requires p + 4 <= e <= |q| && q[e - 2] == '*' && q[e - 1] == '/'
    requires forall k :: p + 3 <= k < e - 1 ==> !ClosesBlockAt(q, k)
    ensures ScanFrom(q, p, cur, done) == ScanFrom(q, e, cur, done)
  {
    assert ClosesBlockAt(q, e - 1);
  }

  // An unclosed block-comment opener before the last two characters drops
  // the rest of the script.
  lemma BlockCommentToEnd(q: string, p: nat, cur: string, done: seq<string>)
    requires p < |q| - 2 && q[p] == '/' && q[p + 1] == '*'
    requires forall k :: p + 3 <= k < |q| ==> !ClosesBlockAt(q, k)
    ensures ScanFrom(q, p, cur, done) == Parsed(done + [cur])
  {
    var r := BlockCommentEnd(q, p + 3);
  }

  // A block-comment opener that starts in the last two characters is
  // ordinary text.
  lemma LateBlockOpenerIsText(q: string, p: nat, cur: string, done: seq<string>)
    requires |q| - 2 <= p < |q| && q[p] == '/'
    ensures ScanFrom(q, p, cur, done) == ScanFrom(q, p + 1, cur + ['/'], done)
  {
  }

  /** A `--` before the last two characters is dropped up to, not including,
      the next line feed from the third character after it on; that line
      feed is then handled as usual. The character right after `--` is
      skipped without being examined. */
  lemma LineCommentDropped(q: string, p: nat, n: nat, cur: string, done: seq<string>)
    requires p < |q| - 2 && q[p] == '-' && q[p + 1] == '-'
    requires p + 3 <= n < |q| && q[n] == '\n'
    requires forall k :: p + 3 <= k < n ==> q[k] != '\n'
    ensures ScanFrom(q, p, cur, done) == ScanFrom(q, n, cur, done)
  {
    var r := LineCommentEnd(q, p + 2);
  }

  /** A `--` with no line feed after it drops the rest of the script. */
  lemma LineCommentToEnd(q: string, p: nat, cur: string, done: seq<string>)
    requires p < |q| - 2 && q[p] == '-' && q[p + 1] == '-'
    requires forall k :: p + 3 <= k < |q| ==> q[k] != '\n'
    ensures ScanFrom(q, p, cur, done) == Parsed(done + [cur])
  {
    var r := LineCommentEnd(q, p + 2);
  }

  /** A single or double quote is appended like any other character: the
      delimited-text loop stops on the quote itself. */
  lemma QuoteIsOrdinary(q: string, p: nat, cur: string, done: seq<string>)
    requires p < |q| && (q[p] == '\'' || q[p] == '"')
    ensures ScanFrom(q, p, cur, done) == ScanFrom(q, p + 1, cur + [q[p]], done)
  {
    assert q[p..p + 1] == [q[p]];
  }

  /** A `[` copies everything through the next `]` verbatim; nothing inside
      is examined. */
  lemma BracketVerbatim(q: string, p: nat, e: nat, cur: string, done: seq<string>)
    requires p < e < |q| && q[p] == '[' && q[e] == ']'
    requires forall k :: p < k < e ==> q[k] != ']'
    ensures ScanFrom(q, p, cur, done) == ScanFrom(q, e + 1, cur + q[p..e + 1], done)
  {
    var r := ClosingIndex(q, p, ']');
    assert r.Some? && r.value == e;
  }

  /** A `[` with no later `]` reads one past the end of the script. */
  lemma UnterminatedBracketFails(q: string, p: nat, cur: string, done: seq<string>)
    requires p < |q| && UnclosedBracketAt(q, p)
    ensures ScanFrom(q, p, cur, done) == IndexOutOfRange(|q|)
  {
    var r := ClosingIndex(q, p, ']');
    assert r.None?;
  }

  /** The line feed at `p` is followed by blanks and a `GO` at `t`, with at
      least one character after the `GO`. */
  ghost predicate GoLineAt(q: string, p: nat, t: nat)
  {
    p < t < |q| - 2 && q[p] == '\n' && StartsGo(q, t) &&
    forall k :: p < k < t ==> IsBlank(q[k])
  }

  lemma SkipBlanksToGo(q: string, p: nat, t: nat)
    requires GoLineAt(q, p, t)
    ensures SkipBlanks(q, p + 1) == t
  {
    var r := SkipBlanks(q, p + 1);
  }

  /** A `GO` line whose first stop is a `\n`, `\r` or `;` ends the batch
      with the line feed before the `GO`; the `GO` text and the terminator
      belong to no batch. The last character of the script is examined only
      when it directly follows the `GO`. */
  lemma GoLineCommitsAtTerminator(q: string, p: nat, t: nat, k: nat, cur: string, done: seq<string>)
    requires GoLineAt(q, p, t)
    requires t + 2 <= k < |q| && (k < |q| - 1 || k == t + 2) && IsGoTerminator(q[k])
    requires forall j :: t + 2 <= j < k ==> !GoStopAt(q, j)
    ensures ScanFrom(q, p, cur, done) == ScanFrom(q, k + 1, [], done + [cur + ['\n']])
  {
    SkipBlanksToGo(q, p, t);
    assert GoStopAt(q, k);
    var r := GoLineEnd(q, t + 2);
    if r.Terminator? && r.at < k {
      assert GoStopAt(q, r.at);
      assert false;
    } else if r.CommentAt? && r.at < k {
      assert GoStopAt(q, r.at);
      assert false;
    }
    assert r == Terminator(k);
    assert Step(q, p, cur, done) == Advance(k + 1, [], done + [cur + ['\n']]);
  }

  /** A `GO` line whose first stop opens a comment ends the batch, and the
      scan resumes at the comment opener. */
  lemma GoLineCommitsBeforeComment(q: string, p: nat, t: nat, k: nat, cur: string, done: seq<string>)
    requires GoLineAt(q, p, t)
    requires t + 2 <= k < |q| - 2 && OpensComment(q, k)
    requires forall j :: t + 2 <= j < k ==> !GoStopAt(q, j)
    ensures ScanFrom(q, p, cur, done) == ScanFrom(q, k, [], done + [cur + ['\n']])
  {
    SkipBlanksToGo(q, p, t);
    assert GoStopAt(q, k);
    var r := GoLineEnd(q, t + 2);
    if r.Terminator? && r.at < k {
      assert GoStopAt(q, r.at);
      assert false;
    } else if r.CommentAt? && r.at < k {
      assert GoStopAt(q, r.at);
      assert false;
    }
    assert r == CommentAt(k);
    assert Step(q, p, cur, done) == Advance(k, [], done + [cur + ['\n']]);
  }

  /** A `GO` line on which no stop is found commits nothing: the line feed
      is appended and the `GO` text is scanned as ordinary text. */
  lemma GoLineUnterminated(q: string, p: nat, t: nat, cur: string, done: seq<string>)
    requires GoLineAt(q, p, t)
    requires forall j :: t + 2 <= j < |q| && (j < |q| - 1 || j == t + 2) ==> !GoStopAt(q, j)
    ensures ScanFrom(q, p, cur, done) == ScanFrom(q, p + 1, cur + ['\n'], done)
  {
    SkipBlanksToGo(q, p, t);
    var r := GoLineEnd(q, t + 2);
    if r.Terminator? {
      assert GoStopAt(q, r.at);
      assert false;
    } else if r.CommentAt? {
      assert GoStopAt(q, r.at);
      assert false;
    }
  }

  /** A line feed not followed by a `GO` line is appended and nothing is
      committed. */
  lemma NewlineWithoutGo(q: string, p: nat, cur: string, done: seq<string>)
    requires p < |q| && q[p] == '\n'
    requires forall t :: !GoLineAt(q, p, t)
    ensures ScanFrom(q, p, cur, done) == ScanFrom(q, p + 1, cur + ['\n'], done)
  {
    var t := SkipBlanks(q, p + 1);
    if t < |q| - 2 && StartsGo(q, t) {
      assert GoLineAt(q, p, t);
      assert false;
    }
  }

  /** An iteration commits a batch only at a line feed that starts a `GO`
      line, and the batch it commits is the current one with that line feed
      appended. */
  lemma StepCommitsOnlyAtGoLine(q: string, p: nat, cur: string, done: seq<string>)
    requires p < |q|
    ensures Step(q, p, cur, done).Advance? && Step(q, p, cur, done).committed != done ==>
      q[p] == '\n' && (exists t :: GoLineAt(q, p, t)) &&
      Step(q, p, cur, done).committed == done + [cur + ['\n']]
  {
    if q[p] == '\n' {
      var t := SkipBlanks(q, p + 1);
      if t < |q| - 2 && StartsGo(q, t) {
        assert GoLineAt(q, p, t);
      }
    }
  }

  /** A `GO` at the very start of the script is ordinary text: its two
      characters are appended to the first batch and nothing is committed. */
  lemma GoOnFirstLineIsText(q: string)
    requires |q| >= 2 && StartsGo(q, 0)
    ensures Scan(q) == ScanFrom(q, 2, q[..2], [])
  {
    PlainRun(q, 0, 2, [], []);
    assert [] + q[0..2] == q[..2];
  }

  /** A `GO` line ended by a line feed consumes that line feed, so a `GO`
      at the start of the next line is ordinary text: it becomes the start
      of the next batch. */
  lemma GoAfterConsumedLineFeedIsText(q: string, p: nat, t: nat, k: nat, cur: string, done: seq<string>)
    requires GoLineAt(q, p, t)
    requires t + 2 <= k && k + 3 <= |q| && q[k] == '\n' && StartsGo(q, k + 1)
    requires forall j :: t + 2 <= j < k ==> !GoStopAt(q, j)
    ensures ScanFrom(q, p, cur, done) ==
      ScanFrom(q, k + 3, q[k + 1..k + 3], done + [cur + ['\n']])
  {
    GoLineCommitsAtTerminator(q, p, t, k, cur, done);
    PlainRun(q, k + 1, k + 3, [], done + [cur + ['\n']]);
    assert [] + q[k + 1..k + 3] == q[k + 1..k + 3];
  }
}
