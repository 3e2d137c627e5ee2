// Sequence helpers used to state what the batch splitter keeps of its input.

module Sequences {

  /** True when `a` can be obtained from `b` by deleting characters
      (order preserved, nothing invented). Greedy left-to-right match. */
  ghost predicate IsSubsequence(a: string, b: string)
    decreases |b|
  {
    if a == [] then true
    else if b == [] then false
    else if a[0] == b[0] then IsSubsequence(a[1..], b[1..])
    else IsSubsequence(a, b[1..])
  }

  /** The concatenation of a list of batches, in order. */
  function Flatten(bs: seq<string>): string
  {
    if bs == [] then [] else Flatten(bs[..|bs| - 1]) + bs[|bs| - 1]
  }

  /** Number of line feeds in `s`. */
  function NewlineCount(s: string): nat
  {
    multiset(s)['\n']
  }

  lemma FlattenSnoc(bs: seq<string>, x: string)
    ensures Flatten(bs + [x]) == Flatten(bs) + x
  {
    assert (bs + [x])[..|bs|] == bs;
  }

  lemma {:induction false} SubsequenceOfLonger(a: string, b: string, c: string)
    requires IsSubsequence(a, b)
    ensures IsSubsequence(a, b + c)
    decreases |b|
  {
    if a == [] {
    } else {
      assert b != [];
      assert (b + c)[0] == b[0] && (b + c)[1..] == b[1..] + c;
      if a[0] == b[0] {
        SubsequenceOfLonger(a[1..], b[1..], c);
      } else {
        SubsequenceOfLonger(a, b[1..], c);
      }
    }
  }

  lemma {:induction false} SingletonSubsequence(b: string, x: char)
    ensures IsSubsequence([x], b + [x])
    decreases |b|
  {
    if b == [] {
      assert [x][1..] == [];
    } else {
      assert (b + [x])[1..] == b[1..] + [x];
      if x == b[0] {
        assert [x][1..] == [];
      } else {
        SingletonSubsequence(b[1..], x);
      }
    }
  }

  /** Appending the same character to both sides keeps the relation. */
  lemma {:induction false} SubsequenceSnoc(a: string, b: string, x: char)
    requires IsSubsequence(a, b)
    ensures IsSubsequence(a + [x], b + [x])
    decreases |b|
  {
    if a == [] {
      SingletonSubsequence(b, x);
      assert a + [x] == [x];
    } else {
      assert b != [];
      assert (a + [x])[0] == a[0] && (a + [x])[1..] == a[1..] + [x];
      assert (b + [x])[0] == b[0] && (b + [x])[1..] == b[1..] + [x];
      if a[0] == b[0] {
        SubsequenceSnoc(a[1..], b[1..], x);
      } else {
        SubsequenceSnoc(a, b[1..], x);
      }
    }
  }

  /** Copying a slice of the input onto a subsequence of the prefix before it
      gives a subsequence of the longer prefix. */
  lemma {:induction false} SubsequenceAppendSlice(a: string, q: string, i: nat, j: nat)
    requires i <= j <= |q|
    requires IsSubsequence(a, q[..i])
    ensures IsSubsequence(a + q[i..j], q[..j])
    decreases j - i
  {
    if i == j {
      assert a + q[i..j] == a;
    } else {
      SubsequenceAppendSlice(a, q, i, j - 1);
      SubsequenceSnoc(a + q[i..j - 1], q[..j - 1], q[j - 1]);
      assert a + q[i..j - 1] + [q[j - 1]] == a + q[i..j];
      assert q[..j - 1] + [q[j - 1]] == q[..j];
    }
  }

  /** A subsequence of a prefix of `q` is a subsequence of every longer prefix. */
  lemma SubsequenceOfPrefix(a: string, q: string, i: nat, j: nat)
    requires i <= j <= |q|
    requires IsSubsequence(a, q[..i])
    ensures IsSubsequence(a, q[..j])
  {
    SubsequenceOfLonger(a, q[..i], q[i..j]);
    assert q[..i] + q[i..j] == q[..j];
  }

  /** A subsequence never has more of any character than its source. */
  lemma {:induction false} SubsequenceMultiset(a: string, b: string)
    requires IsSubsequence(a, b)
    ensures multiset(a) <= multiset(b)
    decreases |b|
  {
    if a == [] {
    } else {
      assert b != [];
      assert b == [b[0]] + b[1..];
      assert multiset(b) == multiset([b[0]]) + multiset(b[1..]);
      if a[0] == b[0] {
        SubsequenceMultiset(a[1..], b[1..]);
        assert a == [a[0]] + a[1..];
        assert multiset(a) == multiset([a[0]]) + multiset(a[1..]);
      } else {
        SubsequenceMultiset(a, b[1..]);
      }
    }
  }
}
