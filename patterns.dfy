/** The regular expression of main.py (line 107) that recognises a payment
    correctly rejected for lack of funds. It has two alternatives, each
    surrounded by `.*`: one of the two spellings of "insufficient funds"
    (upper- or lower-case first letter); or "amount to block exceeds", then a
    lazy `.*?`, then "balance on the account". It is compiled without `DOTALL`
    and used only through the truthiness of `re.findall`, so a search for it
    succeeds exactly when one of two fixed-string conditions holds: for the
    first alternative, one spelling occurs anywhere; for the second, the first
    phrase occurs and the second begins after its end with no newline in
    between (`.` does not match a newline). The ghost predicates state those
    conditions; the functions below them search the way the regular
    expression does and are proved equal to them. */
module Patterns {

  const InsufficientLower := "недостаточно средств"
  const InsufficientUpper := "Недостаточно средств"
  const BlockExceeds := "сумма на блокировку превышает"
  const BalanceRemaining := "остаток на счете"

  // Specification

  predicate OccursAt(s: string, p: string, i: int) {
    0 <= i && i + |p| <= |s| && s[i..i + |p|] == p
  }

  ghost predicate Contains(s: string, p: string) {
    exists i :: OccursAt(s, p, i)
  }

  predicate NoNewline(s: string, lo: int, hi: int)
    requires 0 <= lo <= hi <= |s|
  {
    forall k :: lo <= k < hi ==> s[k] != '\n'
  }

  /** The pair starts at `i` and its second phrase at `j`. */
  predicate PairAt(s: string, p1: string, p2: string, i: int, j: int) {
    OccursAt(s, p1, i) && OccursAt(s, p2, j) && i + |p1| <= j && NoNewline(s, i + |p1|, j)
  }

  /** `p1` occurs, and `p2` begins at or after its end, with no newline in the gap. */
  ghost predicate FollowedOnLine(s: string, p1: string, p2: string) {
    exists i, j :: PairAt(s, p1, p2, i, j)
  }

  ghost predicate PatternA(s: string) {
    Contains(s, InsufficientLower) || Contains(s, InsufficientUpper)
  }

  ghost predicate PatternB(s: string) {
    FollowedOnLine(s, BlockExceeds, BalanceRemaining)
  }

  ghost predicate InsufficientFunds(s: string) {
    PatternA(s) || PatternB(s)
  }

  // Search

  function StartsWith(s: string, p: string): bool {
    |p| <= |s| && s[..|p|] == p
  }

  /** Tries every start position from the left, as a search does. */
  function Find(s: string, p: string): bool
    decreases |s|
  {
    StartsWith(s, p) || (|s| > 0 && Find(s[1..], p))
  }

  /** The lazy `.*?` followed by `p`: either `p` starts here, or one more
      character other than a newline is consumed. */
  function LazyThen(t: string, p: string): bool
    decreases |t|
  {
    StartsWith(t, p) || (|t| > 0 && t[0] != '\n' && LazyThen(t[1..], p))
  }

  /** `p1`, then `.*?`, then `p2`, tried at every start position. */
  function FindPair(s: string, p1: string, p2: string): bool
    decreases |s|
  {
    (StartsWith(s, p1) && LazyThen(s[|p1|..], p2)) || (|s| > 0 && FindPair(s[1..], p1, p2))
  }

  /** Whether `re.findall` of the expression above returns a non-empty list. */
  function Matches(s: string): (b: bool)
    ensures b <==> InsufficientFunds(s)
  {
    FindIsContains(s, InsufficientLower);
    FindIsContains(s, InsufficientUpper);
    FindPairIsFollowedOnLine(s, BlockExceeds, BalanceRemaining);
    Find(s, InsufficientLower) || Find(s, InsufficientUpper) ||
    FindPair(s, BlockExceeds, BalanceRemaining)
  }

  // Proofs

  lemma OccursAfterDrop(s: string, p: string, k: int, i: int)
    requires 0 <= k <= |s|
    ensures OccursAt(s[k..], p, i) <==> i >= 0 && OccursAt(s, p, i + k)
  {
  }

  lemma NoNewlineAfterDrop(s: string, k: int, j: int)
    requires 0 <= k <= |s| && 0 <= j <= |s| - k
    ensures NoNewline(s[k..], 0, j) <==> NoNewline(s, k, k + j)
  {
  }

  lemma {:induction false} FindIsContains(s: string, p: string)
    ensures Find(s, p) <==> Contains(s, p)
    decreases |s|
  {
    if StartsWith(s, p) {
      assert OccursAt(s, p, 0);
    } else if |s| > 0 {
      FindIsContains(s[1..], p);
      if Find(s[1..], p) {
        var i :| OccursAt(s[1..], p, i);
        OccursAfterDrop(s, p, 1, i);
      }
      if Contains(s, p) {
        var i :| OccursAt(s, p, i);
        OccursAfterDrop(s, p, 1, i - 1);
      }
    }
  }

  /** `p` starts at `j` and no newline comes before it. */
  predicate FirstLineAt(t: string, p: string, j: int) {
    OccursAt(t, p, j) && NoNewline(t, 0, j)
  }

  lemma FirstLineAtDrop(t: string, p: string, j: int)
    requires |t| > 0 && t[0] != '\n'
    ensures FirstLineAt(t[1..], p, j) <==> j >= 0 && FirstLineAt(t, p, j + 1)
  {
  }

  /** `LazyThen` holds exactly when `p` occurs with no newline before it. */
  lemma {:induction false} LazyThenIsGap(t: string, p: string)
    ensures LazyThen(t, p) <==> exists j :: FirstLineAt(t, p, j)
    decreases |t|
  {
    if StartsWith(t, p) {
      assert FirstLineAt(t, p, 0);
    } else if |t| > 0 && t[0] != '\n' {
      LazyThenIsGap(t[1..], p);
      if LazyThen(t[1..], p) {
        var j :| FirstLineAt(t[1..], p, j);
        FirstLineAtDrop(t, p, j);
      }
      if j :| FirstLineAt(t, p, j) {
        FirstLineAtDrop(t, p, j - 1);
      }
    } else {
      forall j | OccursAt(t, p, j) ensures !NoNewline(t, 0, j) {
        assert j != 0;
        assert t[0] == '\n';
      }
    }
  }

  lemma PairAtDrop(s: string, p1: string, p2: string, i: int, j: int)
    requires |s| > 0
    ensures PairAt(s[1..], p1, p2, i, j) <==> i >= 0 && PairAt(s, p1, p2, i + 1, j + 1)
  {
  }

  lemma PairAtStart(s: string, p1: string, p2: string)
    ensures (StartsWith(s, p1) && LazyThen(s[|p1|..], p2)) <==> exists j :: PairAt(s, p1, p2, 0, j)
  {
    if StartsWith(s, p1) {
      var t := s[|p1|..];
      LazyThenIsGap(t, p2);
      if LazyThen(t, p2) {
        var j :| FirstLineAt(t, p2, j);
        OccursAfterDrop(s, p2, |p1|, j);
        NoNewlineAfterDrop(s, |p1|, j);
        assert PairAt(s, p1, p2, 0, |p1| + j);
      }
      if j :| PairAt(s, p1, p2, 0, j) {
        OccursAfterDrop(s, p2, |p1|, j - |p1|);
        NoNewlineAfterDrop(s, |p1|, j - |p1|);
        assert FirstLineAt(t, p2, j - |p1|);
      }
    }
  }

  lemma {:induction false} FindPairIsFollowedOnLine(s: string, p1: string, p2: string)
    ensures FindPair(s, p1, p2) <==> FollowedOnLine(s, p1, p2)
    decreases |s|
  {
    PairAtStart(s, p1, p2);
    if |s| > 0 {
      FindPairIsFollowedOnLine(s[1..], p1, p2);
      if FindPair(s[1..], p1, p2) {
        var i, j :| PairAt(s[1..], p1, p2, i, j);
        PairAtDrop(s, p1, p2, i, j);
      }
    }
    if FollowedOnLine(s, p1, p2) {
      var i, j :| PairAt(s, p1, p2, i, j);
      if i > 0 {
        PairAtDrop(s, p1, p2, i - 1, j - 1);
        assert PairAt(s[1..], p1, p2, i - 1, j - 1);
      }
    }
  }
}
