/** The wrap-around index arithmetic shared by the banner carousel and the two image
    galleries: forward is `(i + 1) % n`, back is `(i - 1 + n) % n`. */
module Cyclic {

  /** `(prev + 1) % n` */
  function Next(i: nat, n: nat): (j: nat)
    requires i < n
    ensures j < n
    ensures j == if i == n - 1 then 0 else i + 1
  {
    (i + 1) % n
  }

  /** `(prev - 1 + n) % n` */
  function Prev(i: nat, n: nat): (j: nat)
    requires i < n
    ensures j < n
    ensures j == if i == 0 then n - 1 else i - 1
  {
    if i == 0 then ModOfDecomposition(n - 1, 0, n - 1, n); (i - 1 + n) % n
    else ModShift(i - 1 + n, n); (i - 1 + n) % n
  }

  lemma ModShift(a: int, n: nat)
    requires 0 < n <= a < 2 * n
    ensures a % n == a - n
  {
    ModOfDecomposition(a, 1, a - n, n);
  }

  /** Going back undoes going forward. */
  lemma PrevUndoesNext(i: nat, n: nat)
    requires i < n
    ensures Prev(Next(i, n), n) == i
  {
  }

  /** Going forward undoes going back. */
  lemma NextUndoesPrev(i: nat, n: nat)
    requires i < n
    ensures Next(Prev(i, n), n) == i
  {
  }

  /** The index after `k` forward steps from `i`. */
  function Advance(i: nat, k: nat, n: nat): (j: nat)
    requires i < n
    ensures j < n
  {
    if k == 0 then i else Next(Advance(i, k - 1, n), n)
  }

  /** `k` forward steps land on `(i + k) % n`. */
  lemma {:induction false} AdvanceIsSum(i: nat, k: nat, n: nat)
    requires i < n
    ensures Advance(i, k, n) == (i + k) % n
  {
    if k > 0 {
      AdvanceIsSum(i, k - 1, n);
      StepMod(i + k - 1, n);
    }
  }

  lemma StepMod(a: nat, n: nat)
    requires 0 < n
    ensures ((a % n) + 1) % n == (a + 1) % n
  {
    var q, r := a / n, a % n;
    assert a == q * n + r;
    if r + 1 < n {
      ModOfDecomposition(r + 1, 0, r + 1, n);
      ModOfDecomposition(a + 1, q, r + 1, n);
    } else {
      ModOfDecomposition(n, 1, 0, n);
      MulSucc(q, n);
      ModOfDecomposition(a + 1, q + 1, 0, n);
    }
  }

  lemma MulSucc(q: int, n: int)
    ensures (q + 1) * n == q * n + n
  {
  }

  lemma ModOfDecomposition(a: int, q: int, r: int, n: nat)
    requires 0 < n && 0 <= r < n && a == q * n + r
    ensures a % n == r
  {
    var q', r' := a / n, a % n;
    assert a == q' * n + r';
    MulDistinct(q, q', n);
    assert q * n - q' * n == r' - r;
    if q > q' {
      MulAtLeast(q - q', n);
    } else if q < q' {
      MulAtLeast(q' - q, n);
    }
  }

  lemma MulDistinct(q: int, q': int, n: int)
    ensures q * n - q' * n == (q - q') * n
  {
  }

  lemma MulAtLeast(d: int, n: nat)
    requires d >= 1
    ensures d * n >= n
  {
  }

  /** `n` forward steps (a full turn of the carousel) return to the start. */
  lemma FullTurn(i: nat, n: nat)
    requires i < n
    ensures Advance(i, n, n) == i
  {
    AdvanceIsSum(i, n, n);
    ModShift(i + n, n);
  }

  /** A dot of the indicator row is drawn highlighted exactly when it stands for the
      picture on show (`index === current`). */
  predicate DotHighlighted(index: nat, current: nat)
  {
    index == current
  }

  /** The highlighted dots among the `n` dots of the row. */
  function HighlightedDots(current: nat, n: nat): set<nat>
  {
    set i: nat | i < n && DotHighlighted(i, current)
  }

  /** While the index is in range, exactly one dot is highlighted: the current one. */
  lemma ExactlyOneDot(current: nat, n: nat)
    requires current < n
    ensures HighlightedDots(current, n) == {current}
    ensures |HighlightedDots(current, n)| == 1
  {
    assert current in HighlightedDots(current, n);
  }
}
