/** The index arithmetic behind "Next" and "Back": one step along the question list,
    a no-op at the respective end. */
module Navigation {

  /** The index after `nextQuestion` on a list of `n` questions. */
  function NextIndex(i: int, n: int): int
  {
    if i < n - 1 then i + 1 else i
  }

  /** The index after `previousQuestion`. */
  function PrevIndex(i: int): int
  {
    if i > 0 then i - 1 else i
  }

  /** Both steps keep an in-bounds index in bounds and move it by at most one. */
  lemma StepsStayInBounds(i: int, n: int)
    requires 0 <= i < n
    ensures 0 <= NextIndex(i, n) < n && 0 <= PrevIndex(i) < n
    ensures NextIndex(i, n) == i + 1 || (NextIndex(i, n) == i && i == n - 1)
    ensures PrevIndex(i) == i - 1 || (PrevIndex(i) == i && i == 0)
  {
  }

  /** A "Next" that moved is undone by "Back", and a "Back" that moved by "Next". */
  lemma NextThenPrevious(i: int, n: int)
    requires 0 <= i < n - 1
    ensures PrevIndex(NextIndex(i, n)) == i
  {
  }

  lemma PreviousThenNext(i: int, n: int)
    requires 0 < i < n
    ensures NextIndex(PrevIndex(i), n) == i
  {
  }

  /** The index after pressing "Next" `k` times. */
  function NextTimes(i: int, n: int, k: nat): int
    decreases k
  {
    if k == 0 then i else NextTimes(NextIndex(i, n), n, k - 1)
  }

  /** The index after pressing "Back" `k` times. */
  function PrevTimes(i: int, k: nat): int
    decreases k
  {
    if k == 0 then i else PrevTimes(PrevIndex(i), k - 1)
  }

  function Min(a: int, b: int): int { if a <= b then a else b }
  function Max(a: int, b: int): int { if a >= b then a else b }

  /** Repeated "Next" climbs one question per press and then sticks at the last one. */
  lemma {:induction false} NextTimesClamps(i: int, n: int, k: nat)
    requires 0 <= i < n
    ensures NextTimes(i, n, k) == Min(i + k, n - 1)
    decreases k
  {
    if k > 0 {
      NextTimesClamps(NextIndex(i, n), n, k - 1);
    }
  }

  /** Repeated "Back" descends one question per press and then sticks at the first one. */
  lemma {:induction false} PrevTimesClamps(i: int, k: nat)
    requires 0 <= i
    ensures PrevTimes(i, k) == Max(i - k, 0)
    decreases k
  {
    if k > 0 {
      PrevTimesClamps(PrevIndex(i), k - 1);
    }
  }
}
