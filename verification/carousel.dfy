/**
 * The index arithmetic both carousels share: `(i + 1) % n` for the next
 * slide and `(i - 1 + n) % n` for the previous one, with JavaScript's `%`.
 */
module Carousel {

  /**
   * JavaScript's `a % n` on integers: the remainder takes the sign of the
   * dividend (Dafny's own `%` never returns a negative value).
   */
  function JsRem(a: int, n: int): (r: int)
    requires n >= 1
    ensures a >= 0 ==> r == a % n
    ensures a < 0 ==> r == -((-a) % n)
    ensures -n < r < n
  {
    if a >= 0 then a % n else -((-a) % n)
  }

  /** `(i + 1) % n`. */
  function Next(i: int, n: int): int
    requires n >= 1
  {
    JsRem(i + 1, n)
  }

  /** `(i - 1 + n) % n`. */
  function Prev(i: int, n: int): int
    requires n >= 1
  {
    JsRem(i - 1 + n, n)
  }

  /** From a valid slide, the next slide is the following one, wrapping from the last to the first. */
  lemma NextStep(i: int, n: int)
    requires n >= 1 && 0 <= i < n
    ensures 0 <= Next(i, n) < n
    ensures Next(i, n) == if i == n - 1 then 0 else i + 1
  {
  }

  /** From a valid slide, the previous slide is the preceding one, wrapping from the first to the last. */
  lemma PrevStep(i: int, n: int)
    requires n >= 1 && 0 <= i < n
    ensures 0 <= Prev(i, n) < n
    ensures Prev(i, n) == if i == 0 then n - 1 else i - 1
  {
    if i == 0 {
      assert i - 1 + n == n - 1;
    } else {
      assert (i - 1 + n) % n == i - 1 by {
        assert i - 1 + n == (i - 1) + 1 * n;
      }
    }
  }

  /** Going forward then back, or back then forward, returns to the same slide. */
  lemma NextPrevInverse(i: int, n: int)
    requires n >= 1 && 0 <= i < n
    ensures Prev(Next(i, n), n) == i
    ensures Next(Prev(i, n), n) == i
  {
    NextStep(i, n);
    PrevStep(i, n);
    NextStep(Prev(i, n), n);
    PrevStep(Next(i, n), n);
  }

  /** The slide reached from `i` after `k` presses of "next". */
  function Forward(i: int, n: int, k: nat): int
    requires n >= 1
    decreases k
  {
    if k == 0 then i else Next(Forward(i, n, k - 1), n)
  }

  /** Steps compose: `a + b` presses are `a` presses followed by `b` more. */
  lemma {:induction false} ForwardAdd(i: int, n: int, a: nat, b: nat)
    requires n >= 1
    ensures Forward(i, n, a + b) == Forward(Forward(i, n, a), n, b)
    decreases b
  {
    if b > 0 {
      ForwardAdd(i, n, a, b - 1);
      assert a + b - 1 == a + (b - 1);
    }
  }

  /** Before the last slide is passed, `k` presses move exactly `k` slides on. */
  lemma {:induction false} ForwardBelow(i: int, n: int, k: nat)
    requires n >= 1 && 0 <= i && i + k < n
    ensures Forward(i, n, k) == i + k
    decreases k
  {
    if k > 0 {
      ForwardBelow(i, n, k - 1);
      NextStep(i + k - 1, n);
    }
  }

  /** After `n` presses of "next" the carousel is back where it started. */
  lemma FullCycle(i: int, n: int)
    requires n >= 1 && 0 <= i < n
    ensures Forward(i, n, n) == i
  {
    var a: nat := n - 1 - i;
    ForwardBelow(i, n, a);
    NextStep(n - 1, n);
    assert Forward(i, n, a + 1) == 0;
    ForwardAdd(i, n, a + 1, i);
    ForwardBelow(0, n, i);
    assert a + 1 + i == n;
  }
}
