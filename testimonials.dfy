/** The testimonial carousel: one index stepped forwards by a timer and the
    next button, backwards by the previous button, or set by a dot. */
module Testimonials {

  /** JavaScript's `%`, which truncates toward zero, so a negative dividend
      gives a non-positive remainder: `a` is the quotient truncated toward
      zero times `n`, plus the remainder. */
  function JsRem(a: int, n: int): (r: int)
    requires n > 0
    ensures a >= 0 ==> r == a % n
    ensures a < 0 ==> -n < r <= 0
    ensures a < 0 ==> a == n * -((-a) / n) + r
  {
    if a >= 0 then a % n else -((-a) % n)
  }

  /** `(prev + 1) % n`. */
  function Next(i: int, n: int): (r: int)
    requires n > 0
    ensures 0 <= i < n ==> 0 <= r < n && (i < n - 1 ==> r == i + 1) && (i == n - 1 ==> r == 0)
  {
    JsRem(i + 1, n)
  }

  /** `(prev - 1 + n) % n`. */
  function Prev(i: int, n: int): (r: int)
    requires n > 0
    ensures 0 <= i < n ==> 0 <= r < n && (i > 0 ==> r == i - 1) && (i == 0 ==> r == n - 1)
  {
    JsRem(i - 1 + n, n)
  }

  /** Stepping back undoes stepping forward, and the other way round. */
  lemma PrevUndoesNext(i: int, n: int)
    requires 0 <= i < n
    ensures Prev(Next(i, n), n) == i
    ensures Next(Prev(i, n), n) == i
  {
  }

  /** `k` forward steps from `i`, as the timer takes them. */
  function Advance(i: int, n: int, k: nat): int
    requires n > 0
  {
    if k == 0 then i else Next(Advance(i, n, k - 1), n)
  }

  /** However many steps the timer takes, the index stays in range. */
  lemma {:induction false} AdvanceStaysInRange(i: int, n: int, k: nat)
    requires 0 <= i < n
    ensures 0 <= Advance(i, n, k) < n
  {
    if k > 0 {
      AdvanceStaysInRange(i, n, k - 1);
    }
  }

  /** Before it wraps, the timer shows the testimonials in order. */
  lemma {:induction false} AdvanceCountsUp(i: int, n: int, k: nat)
    requires 0 <= i && i + k < n
    ensures Advance(i, n, k) == i + k
  {
    if k > 0 {
      AdvanceCountsUp(i, n, k - 1);
    }
  }

  /** From the last testimonial, `n` steps come back round to it. */
  lemma FullCycleFromLast(n: int)
    requires n > 0
    ensures Advance(n - 1, n, n) == n - 1
  {
    AdvanceShift(n - 1, n, 1, n - 1);
    AdvanceCountsUp(0, n, n - 1);
  }

  /** Taking `a` steps and then `b` more is taking `a + b` steps. */
  lemma {:induction false} AdvanceShift(i: int, n: int, a: nat, b: nat)
    requires n > 0
    ensures Advance(i, n, a + b) == Advance(Advance(i, n, a), n, b)
  {
    if b > 0 {
      AdvanceShift(i, n, a, b - 1);
    }
  }

  class Carousel {
    const count: int
    var currentIndex: int

    predicate Valid()
      reads this
    {
      count > 0 && 0 <= currentIndex < count
    }

    constructor(n: int)
      requires n > 0
      ensures Valid() && count == n && currentIndex == 0
    {
      count := n;
      currentIndex := 0;
    }

    /** The five-second timer's step. */
    method Tick()
      requires Valid()
      modifies this
      ensures Valid() && currentIndex == Next(old(currentIndex), count)
    {
      currentIndex := Next(currentIndex, count);
    }

    /** `nextTestimonial`. */
    method NextTestimonial()
      requires Valid()
      modifies this
      ensures Valid() && currentIndex == Next(old(currentIndex), count)
    {
      currentIndex := Next(currentIndex, count);
    }

    /** `prevTestimonial`. */
    method PrevTestimonial()
      requires Valid()
      modifies this
      ensures Valid() && currentIndex == Prev(old(currentIndex), count)
    {
      currentIndex := Prev(currentIndex, count);
    }

    /** A click on dot `k`; one dot is drawn per testimonial. */
    method SelectDot(k: int)
      requires Valid() && 0 <= k < count
      modifies this
      ensures Valid() && currentIndex == k
    {
      currentIndex := k;
    }
  }
}
