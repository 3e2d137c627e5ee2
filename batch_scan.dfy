// Reference definition of the batch splitter of src/QueryParser.cs.
//
// The constructor of QueryParser walks the script with a cursor `charIndex`
// and a look-ahead cursor `tempIndex`. `ScanFrom` below is that walk stated
// one iteration of the outer `for` loop at a time: `p` is the value of
// `charIndex` when the loop condition is evaluated, `cur` is `currentQuery` and
// `done` the batches already added to `queries`. Each inner loop of the
// source is a recursive function of its own whose contract characterises
// where it stops without referring to the loop.

module BatchScan {

  /** Outcome of splitting a script: the batches, or the out-of-range read
      (`query[index]` with `index == query.Length`) that the source performs
      on an unterminated `[`. */
  datatype ParseResult = Parsed(batches: seq<string>) | IndexOutOfRange(index: int)

  /** Where the scan of a recognised `GO` line stopped. */
  datatype GoLineStop =
    | Terminator(at: nat)   // a `\n`, `\r` or `;`: the batch ends, the character is consumed
    | CommentAt(at: nat)    // a `/*` or `--`: the batch ends, the comment is scanned again
    | Unterminated          // neither was found: nothing is committed

  predicate IsBlank(c: char) { c == ' ' || c == '\t' }

  predicate IsGoTerminator(c: char) { c == '\n' || c == '\r' || c == ';' }

  predicate IsDigit(c: char) { '0' <= c <= '9' }

  /** `q[k..k + 2]` is `GO` in either case (any mix of cases). */
  predicate StartsGo(q: string, k: nat)
    requires k + 1 < |q|
  {
    (q[k] == 'G' || q[k] == 'g') && (q[k + 1] == 'O' || q[k + 1] == 'o')
  }

  /** `q[k..k + 2]` opens a block or a line comment. */
  predicate OpensComment(q: string, k: nat)
    requires k + 1 < |q|
  {
    (q[k] == '/' && q[k + 1] == '*') || (q[k] == '-' && q[k + 1] == '-')
  }

  /** `q[k - 1..k + 1]` is the closing `*` `/` of a block comment. */
  predicate ClosesBlockAt(q: string, k: nat)
    requires 1 <= k < |q|
  {
    q[k - 1] == '*' && q[k] == '/'
  }

  /** The last index the `do ... while` over a `GO` line examines when it
      starts at `t`: the body runs once, then again while `t < Length - 1`. */
  function GoScanLast(q: string, t: nat): int
  {
    if t < |q| - 1 then |q| - 2 else t
  }

  /** A character at which the scan of a `GO` line stops. */
  predicate GoStopAt(q: string, k: nat)
    requires k < |q|
  {
    IsGoTerminator(q[k]) || (k < |q| - 2 && OpensComment(q, k))
  }

  predicate NoGoStop(q: string, i: nat, j: int)
    requires j <= |q|
  {
    forall k :: i <= k < j ==> !GoStopAt(q, k)
  }

  /** The closing character the delimited-text loop looks for. */
  function Closer(c: char): char
  {
    if c == '[' then ']' else c
  }

  /** Final `charIndex` of the block-comment loop (src/QueryParser.cs:60-65)
      started at `i`: the first `k >= i` below `Length - 1` where `q[k - 1..k + 1]`
      is `*` `/`, or `max(i, Length - 1)` when there is none. */
  function BlockCommentEnd(q: string, i: nat): (r: nat)
    requires 1 <= i <= |q|
    ensures i <= r <= |q|
    ensures r == i || r <= |q| - 1
    ensures forall k :: i <= k < r ==> !ClosesBlockAt(q, k)
    ensures r < |q| - 1 ==> ClosesBlockAt(q, r)
    decreases |q| - i
  {
    if i < |q| - 1 && !ClosesBlockAt(q, i) then BlockCommentEnd(q, i + 1) else i
  }

  /** Final `charIndex` of the line-comment loop (src/QueryParser.cs:82-86)
      started at `i`: the first `k >= i` such that `q[k + 1]` is a line feed,
      or `Length - 1` when there is none. */
  function LineCommentEnd(q: string, i: nat): (r: nat)
    requires i < |q|
    ensures i <= r < |q|
    ensures forall k :: i < k <= r ==> q[k] != '\n'
    ensures r < |q| - 1 ==> q[r + 1] == '\n'
    decreases |q| - i
  {
    if i < |q| - 1 && q[i + 1] != '\n' then LineCommentEnd(q, i + 1) else i
  }

  /** Index at which the delimited-text loop (src/QueryParser.cs:113-117)
      started at `i` finds `closer`; `None` when it runs off the end, which
      in the source is a read of `query[query.Length]`. */
  function ClosingIndex(q: string, i: nat, closer: char): (r: Option<nat>)
    requires i < |q|
    ensures r.Some? ==> i <= r.value < |q| && q[r.value] == closer
    ensures r.Some? ==> forall k :: i <= k < r.value ==> q[k] != closer
    ensures r.None? ==> forall k :: i <= k < |q| ==> q[k] != closer
    decreases |q| - i
  {
    if q[i] == closer then Some(i)
    else if i + 1 == |q| then None
    else ClosingIndex(q, i + 1, closer)
  }

  /** Final `tempIndex` of the blank-skipping loop (src/QueryParser.cs:133-137):
      the first index `>= t` that is not a space or tab, capped at `Length - 1`. */
  function SkipBlanks(q: string, t: nat): (r: nat)
    requires t <= |q|
    ensures t <= r <= |q|
    ensures r == t || r <= |q| - 1
    ensures forall k :: t <= k < r ==> IsBlank(q[k])
    ensures r < |q| - 1 ==> !IsBlank(q[r])
    decreases |q| - t
  {
    if t < |q| - 1 && IsBlank(q[t]) then SkipBlanks(q, t + 1) else t
  }

  /** Outcome of the `do ... while` over a `GO` line (src/QueryParser.cs:153-185)
      started at `t`: the first index in `t..GoScanLast(q, t)` holding a
      terminator or opening a comment, or `Unterminated` when there is none. */
  function GoLineEnd(q: string, t: nat): (r: GoLineStop)
    requires t < |q|
    ensures r.Terminator? ==>
      t <= r.at <= GoScanLast(q, t) && IsGoTerminator(q[r.at]) && NoGoStop(q, t, r.at)
    ensures r.CommentAt? ==>
      t <= r.at < |q| - 2 && OpensComment(q, r.at) && NoGoStop(q, t, r.at)
    ensures r.Unterminated? ==> NoGoStop(q, t, GoScanLast(q, t) + 1)
    decreases |q| - t
  {
    if IsGoTerminator(q[t]) then Terminator(t)
    else if t < |q| - 2 && OpensComment(q, t) then CommentAt(t)
    else if t + 1 < |q| - 1 then GoLineEnd(q, t + 1)
    else Unterminated
  }

  datatype Option<T> = None | Some(value: T)

  /** What one iteration of the outer loop leaves behind: the next value
      of `charIndex` with `currentQuery` and `queries`, or the crash. */
  datatype StepResult =
    | Advance(next: nat, current: string, committed: seq<string>)
    | Crash(index: int)

  /** One iteration of the outer `for` loop (src/QueryParser.cs:45-197) at
      `p`, including the `charIndex++` that ends it. */
  function Step(q: string, p: nat, cur: string, done: seq<string>): (r: StepResult)
    requires p < |q|
    ensures r.Advance? ==> p < r.next <= |q| + 1
    ensures r.Advance? ==> r.committed == done || r.committed == done + [cur + ['\n']]
    ensures r.Crash? ==> r.index == |q|
  {
    if q[p] == '/' && p < |q| - 2 && q[p + 1] == '*' then
      Advance(BlockCommentEnd(q, p + 3) + 1, cur, done)
    else if q[p] == '-' && p < |q| - 2 && q[p + 1] == '-' then
      Advance(LineCommentEnd(q, p + 2) + 1, cur, done)
    else if q[p] == '"' || q[p] == '\'' || q[p] == '[' then
      match ClosingIndex(q, p, Closer(q[p]))
      case None => Crash(|q|)
      case Some(e) => Advance(e + 1, cur + q[p..e + 1], done)
    else if q[p] == '\n' then
      var t := SkipBlanks(q, p + 1);
      if t < |q| - 2 && StartsGo(q, t) then
        match GoLineEnd(q, t + 2)
        case Terminator(k) => Advance(k + 1, [], done + [cur + ['\n']])
        case CommentAt(k) => Advance(k, [], done + [cur + ['\n']])
        case Unterminated => Advance(p + 1, cur + ['\n'], done)
      else
        Advance(p + 1, cur + ['\n'], done)
    else
      Advance(p + 1, cur + [q[p]], done)
  }

  /** The rest of the scan from outer-loop position `p` with batch `cur`
      under construction and batches `done` already committed; the final
      `currentQuery` is added unconditionally (src/QueryParser.cs:199).
      Batches once committed are never changed, and a failure is always the
      read at index `Length`. */
  function ScanFrom(q: string, p: nat, cur: string, done: seq<string>): (r: ParseResult)
    requires p <= |q| + 1
    ensures r.Parsed? ==> |done| < |r.batches| && r.batches[..|done|] == done
    ensures r.IndexOutOfRange? ==> r.index == |q|
    decreases |q| + 1 - p
  {
    if p >= |q| then Parsed(done + [cur])
    else
      match Step(q, p, cur, done)
      case Crash(i) => IndexOutOfRange(i)
      case Advance(p', cur', done') => ScanFrom(q, p', cur', done')
  }

  /** The batches the QueryParser constructor produces for `query`. */
  function Scan(query: string): (r: ParseResult)
    ensures r.Parsed? ==> |r.batches| >= 1
    ensures r.IndexOutOfRange? ==> r.index == |query|
  {
    ScanFrom(query, 0, [], [])
  }
}
