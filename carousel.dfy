/**
 The registration-steps carousel: which step is shown, and the animation
 lock that makes navigation ignore clicks and ticks while a slide change
 is under way.
 */
module Carousel {

  /** Number of steps the landing page shows (payment4, payment3, payment1). */
  const RegistrationStepCount: nat := 3

  /** The step after `i`, wrapping from the last step to the first. */
  function NextIndex(i: nat, n: nat): (r: nat)
    requires i < n
    ensures r < n
    ensures r == if i == n - 1 then 0 else i + 1
  {
    (i + 1) % n
  }

  /** The step before `i`, wrapping from the first step to the last. */
  function PrevIndex(i: nat, n: nat): (r: nat)
    requires i < n
    ensures r < n
    ensures r == if i == 0 then n - 1 else i - 1
  {
    (i - 1 + n) % n
  }

  /** On the landing page's three steps, forward from the last shows the first and back from the first shows the last. */
  lemma RegistrationStepsWrap()
    ensures NextIndex(RegistrationStepCount - 1, RegistrationStepCount) == 0
    ensures PrevIndex(0, RegistrationStepCount) == RegistrationStepCount - 1
    ensures forall i :: 0 <= i < RegistrationStepCount ==> NextIndex(i, RegistrationStepCount) != i
  {
  }

  /** Going back after going forward returns to the step one started from. */
  lemma PrevAfterNext(i: nat, n: nat)
    requires i < n
    ensures PrevIndex(NextIndex(i, n), n) == i
  {
  }

  /** Going forward after going back returns to the step one started from. */
  lemma NextAfterPrev(i: nat, n: nat)
    requires i < n
    ensures NextIndex(PrevIndex(i, n), n) == i
  {
  }

  /** The step shown after `k` successive auto-advances from step `i`. */
  function Advance(i: nat, n: nat, k: nat): (r: nat)
    requires i < n
    ensures r < n
  {
    if k == 0 then i else NextIndex(Advance(i, n, k - 1), n)
  }

  /** One more step on a remainder is the remainder of one more step. */
  lemma {:induction false} SuccMod(x: nat, n: nat)
    requires 0 < n
    ensures NextIndex(x % n, n) == (x + 1) % n
  {
    var q, m := x / n, x % n;
    assert x == q * n + m;
    if m == n - 1 {
      RemainderUnique(x + 1, q + 1, 0, n);
    } else {
      RemainderUnique(x + 1, q, m + 1, n);
    }
  }

  /** A positive multiple of `n` is at least `n`. */
  lemma {:induction false} MulAtLeast(d: int, n: int)
    requires 1 <= d && 0 < n
    ensures n <= d * n
  {
    if d > 1 {
      MulAtLeast(d - 1, n);
      assert d * n == (d - 1) * n + n;
    }
  }

  /** The remainder of `q * n + r` is `r` whenever `r` is below `n`. */
  lemma {:induction false} RemainderUnique(x: int, q: int, r: int, n: int)
    requires 0 < n && 0 <= r < n && x == q * n + r
    ensures x % n == r
  {
    var q', r' := x / n, x % n;
    assert x == q' * n + r';
    assert (q - q') * n == r' - r;
    if q - q' >= 1 {
      MulAtLeast(q - q', n);
    } else if q' - q >= 1 {
      MulAtLeast(q' - q, n);
    }
  }

  /**
   `k` auto-advances from step `i` show step `(i + k) mod n`: the carousel
   cycles through the steps in order, and every `n` ticks it is back where
   it started.
   */
  lemma {:induction false} AdvanceIsRotation(i: nat, n: nat, k: nat)
    requires i < n
    ensures Advance(i, n, k) == (i + k) % n
  {
    if k == 0 {
      RemainderUnique(i, 0, i, n);
    } else {
      AdvanceIsRotation(i, n, k - 1);
      SuccMod(i + k - 1, n);
    }
  }

  /**
   The slider component's state. `stepCount` is the length of the steps
   list; `isAnimating` is true from a slide change until its 500 ms
   timeout fires.
   */
  class StepsSlider {
    const stepCount: nat
    var currentIndex: nat
    var isAnimating: bool

    ghost predicate Valid()
      reads this
    {
      currentIndex < stepCount
    }

    /** Mounting the component: the first step is shown and nothing is animating. */
    constructor (count: nat)
      requires 0 < count
      ensures Valid()
      ensures stepCount == count && currentIndex == 0 && !isAnimating
    {
      stepCount := count;
      currentIndex := 0;
      isAnimating := false;
    }

    /** The "next" button and every auto-advance tick. */
    method NextSlide()
      requires Valid()
      modifies this
      ensures Valid()
      ensures old(isAnimating) ==> currentIndex == old(currentIndex) && isAnimating
      ensures !old(isAnimating) ==> currentIndex == NextIndex(old(currentIndex), stepCount) && isAnimating
    {
      if isAnimating {
        return;
      }
      isAnimating := true;
      currentIndex := (currentIndex + 1) % stepCount;
    }

    /** The "previous" button. */
    method PrevSlide()
      requires Valid()
      modifies this
      ensures Valid()
      ensures old(isAnimating) ==> currentIndex == old(currentIndex) && isAnimating
      ensures !old(isAnimating) ==> currentIndex == PrevIndex(old(currentIndex), stepCount) && isAnimating
    {
      if isAnimating {
        return;
      }
      isAnimating := true;
      currentIndex := (currentIndex - 1 + stepCount) % stepCount;
    }

    /** The dot button of step `k`; the component renders one per step. */
    method GoToSlide(k: nat)
      requires Valid() && k < stepCount
      modifies this
      ensures Valid()
      ensures old(isAnimating) ==> currentIndex == old(currentIndex) && isAnimating
      ensures !old(isAnimating) ==> currentIndex == k && isAnimating
    {
      if isAnimating {
        return;
      }
      isAnimating := true;
      currentIndex := k;
    }

    /** The 500 ms timeout scheduled by a slide change: the only way the lock is released. */
    method AnimationEnds()
      requires Valid()
      modifies this`isAnimating
      ensures Valid()
      ensures !isAnimating && currentIndex == old(currentIndex)
    {
      isAnimating := false;
    }

    /** The 7000 ms interval: exactly a NextSlide call. */
    method AutoAdvanceTick()
      requires Valid()
      modifies this
      ensures Valid()
      ensures old(isAnimating) ==> currentIndex == old(currentIndex) && isAnimating
      ensures !old(isAnimating) ==> currentIndex == NextIndex(old(currentIndex), stepCount) && isAnimating
    {
      NextSlide();
    }
  }

  /**
   A visitor presses "next", waits for the animation, then presses
   "previous": the carousel is back on the step it showed before.
   */
  method NextThenPrev(slider: StepsSlider)
    requires slider.Valid() && !slider.isAnimating
    modifies slider
    ensures slider.Valid() && slider.currentIndex == old(slider.currentIndex)
  {
    slider.NextSlide();
    slider.AnimationEnds();
    slider.PrevSlide();
    PrevAfterNext(old(slider.currentIndex), slider.stepCount);
  }
}
