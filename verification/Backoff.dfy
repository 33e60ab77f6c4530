// nextAttemptAt: the delay before the next webhook attempt, in 64-bit arithmetic.
module Backoff {

  const TWO_62 := 0x4000_0000_0000_0000
  const TWO_63 := 0x8000_0000_0000_0000
  const DEFAULT_INITIAL := 1_000_000_000

  type Duration = x: int | -TWO_63 <= x < TWO_63

  // Two's-complement doubling of a time.Duration.
  function Doubled(d: Duration): Duration {
    var x := 2 * d;
    if x >= TWO_63 then x - 2 * TWO_63 else if x < -TWO_63 then x + 2 * TWO_63 else x
  }

  function Base(initial: Duration): (b: Duration)
    ensures b > 0
  {
    if initial <= 0 then DEFAULT_INITIAL else initial
  }

  // The value after up to k turns of the loop, which stops once the cap is reached.
  function AfterTurns(b: Duration, max: Duration, k: nat): Duration
    decreases k
  {
    if k == 0 then b
    else if Doubled(b) >= max then max
    else AfterTurns(Doubled(b), max, k - 1)
  }

  // The delay for this many attempts.
  function DelayAfter(initial: Duration, max: Duration, attempts: int): Duration {
    AfterTurns(Base(initial), max, if attempts <= 1 then 0 else attempts - 1)
  }

  method Delay(initial: Duration, max: Duration, attempts: int) returns (delay: Duration)
    ensures delay == DelayAfter(initial, max, attempts)
  {
    delay := Base(initial);
    var i := 1;
    while i < attempts
      invariant 1 <= i && (i <= attempts || attempts < 1)
      invariant attempts < 1 ==> delay == Base(initial)
      invariant attempts >= 1 ==> AfterTurns(delay, max, attempts - i) == DelayAfter(initial, max, attempts)
      decreases attempts - i
    {
      delay := Doubled(delay);
      if delay >= max {
        delay := max;
        break;
      }
      i := i + 1;
    }
  }

  // b * 2^k.
  function Scaled(b: int, k: nat): int {
    if k == 0 then b else 2 * Scaled(b, k - 1)
  }

  function Pow2(k: nat): nat {
    if k == 0 then 1 else 2 * Pow2(k - 1)
  }

  lemma {:induction false} ScaledIsProduct(b: int, k: nat)
    ensures Scaled(b, k) == b * Pow2(k)
  {
    if k > 0 {
      ScaledIsProduct(b, k - 1);
    }
  }

  function Min(a: int, b: int): int {
    if a < b then a else b
  }

  lemma {:induction false} ScaledShift(b: int, k: nat)
    ensures Scaled(2 * b, k) == Scaled(b, k + 1)
  {
    if k > 0 {
      ScaledShift(b, k - 1);
    }
  }

  lemma {:induction false} ScaledGrows(b: int, k: nat)
    requires b > 0
    ensures b <= Scaled(b, k) && (k > 0 ==> 2 * b <= Scaled(b, k))
  {
    if k > 0 {
      ScaledGrows(b, k - 1);
    }
  }

  // Some doubling wraps around: one of the initial delay that the wrap hides from the cap, or
  // one of a value below the cap.
  ghost predicate Overflows(b: Duration, max: Duration) {
    (b >= TWO_62 && Doubled(b) < max) || exists k: nat :: TWO_62 <= Scaled(b, k) < max
  }

  lemma NoOverflowBelow62(b: Duration, max: Duration)
    requires b < TWO_62 && max <= TWO_62
    ensures !Overflows(b, max)
  {
  }

  // min(initial * 2^(n-1), cap), except that the first attempt is not capped.
  function Capped(b: Duration, max: Duration, k: nat): int {
    if k == 0 then b else Min(Scaled(b, k), max)
  }

  lemma {:induction false} CappedDoubling(b: Duration, max: Duration, k: nat)
    requires 0 < b && !Overflows(b, max)
    ensures AfterTurns(b, max, k) == Capped(b, max, k)
    decreases k
  {
    if k > 0 {
      ScaledGrows(b, k);
      if Doubled(b) < max {
        NextNoOverflow(b, max);
        CappedDoubling(2 * b, max, k - 1);
        ScaledShift(b, k - 1);
      }
    }
  }

  lemma NextNoOverflow(b: Duration, max: Duration)
    requires 0 < b && !Overflows(b, max) && Doubled(b) < max
    ensures Doubled(b) == 2 * b < TWO_62 && !Overflows(2 * b, max)
  {
    assert Scaled(b, 1) == 2 * Scaled(b, 0) == 2 * b;
    if Overflows(2 * b, max) {
      var k: nat :| TWO_62 <= Scaled(2 * b, k) < max;
      ScaledShift(b, k);
    }
  }

  // With overflow some delay is negative and below the cap.
  lemma {:induction false} OverflowShows(b: Duration, max: Duration, k: nat) returns (n: nat)
    requires 0 < b && TWO_62 <= Scaled(b, k) < max
    ensures n > 0 && AfterTurns(b, max, n) < 0 < max
    decreases k
  {
    ScaledGrows(b, k);
    if b >= TWO_62 {
      n := 1;
      assert AfterTurns(b, max, 1) == AfterTurns(Doubled(b), max, 0);
    } else {
      ScaledShift(b, k - 1);
      ScaledGrows(2 * b, k - 1);
      var m := OverflowShows(2 * b, max, k - 1);
      n := m + 1;
      assert AfterTurns(b, max, m + 1) == AfterTurns(2 * b, max, m);
    }
  }

  lemma OverflowWitness(b: Duration, max: Duration) returns (n: nat)
    requires 0 < b && Overflows(b, max)
    ensures n > 0 && AfterTurns(b, max, n) < 0 && AfterTurns(b, max, n) < max
  {
    if b >= TWO_62 && Doubled(b) < max {
      n := 1;
      assert AfterTurns(b, max, 1) == AfterTurns(Doubled(b), max, 0);
    } else {
      var k: nat :| TWO_62 <= Scaled(b, k) < max;
      n := OverflowShows(b, max, k);
    }
  }

  // The formula holds for every number of attempts exactly when no doubling overflows.
  lemma DelayIsCappedDoublingIff(b: Duration, max: Duration)
    requires 0 < b
    ensures (forall k: nat :: AfterTurns(b, max, k) == Capped(b, max, k)) <==> !Overflows(b, max)
  {
    if Overflows(b, max) {
      var n := OverflowWitness(b, max);
      ScaledGrows(b, n);
      assert AfterTurns(b, max, n) != Capped(b, max, n);
    } else {
      forall k: nat
        ensures AfterTurns(b, max, k) == Capped(b, max, k)
      {
        CappedDoubling(b, max, k);
      }
    }
  }

  // Without overflow every value the loop doubles stays below the cap, and its double below
  // twice the cap.
  lemma IntermediatesBounded(b: Duration, max: Duration, k: nat)
    requires 0 < b <= max && !Overflows(b, max) && AfterTurns(b, max, k) < max
    ensures Doubled(AfterTurns(b, max, k)) == 2 * AfterTurns(b, max, k) < 2 * max
  {
    CappedDoubling(b, max, k);
    ScaledGrows(b, k);
    assert Scaled(b, 0) == b;
  }

  ghost predicate NeverShrinks(b: Duration, max: Duration) {
    forall k: nat :: AfterTurns(b, max, k) <= AfterTurns(b, max, k + 1)
  }

  // Delays never shrink exactly when the first one is within the cap and no doubling overflows.
  lemma NonDecreasingIff(b: Duration, max: Duration)
    requires 0 < b
    ensures NeverShrinks(b, max) <==> b <= max && !Overflows(b, max)
  {
    if Overflows(b, max) {
      var n := OverflowWitness(b, max);
      if NeverShrinks(b, max) {
        FirstIsLeast(b, max, n);
      }
    } else if b <= max {
      forall k: nat
        ensures AfterTurns(b, max, k) <= AfterTurns(b, max, k + 1)
      {
        CappedDoubling(b, max, k);
        CappedDoubling(b, max, k + 1);
        ScaledGrows(b, k);
      }
    } else {
      CappedDoubling(b, max, 0);
      CappedDoubling(b, max, 1);
      assert AfterTurns(b, max, 0) > AfterTurns(b, max, 0 + 1);
    }
  }

  lemma {:induction false} FirstIsLeast(b: Duration, max: Duration, n: nat)
    requires NeverShrinks(b, max)
    ensures AfterTurns(b, max, 0) <= AfterTurns(b, max, n)
  {
    if n > 0 {
      FirstIsLeast(b, max, n - 1);
    }
  }

  // The delay after a number of attempts already made, by its promise: the initial delay at first,
  // then min(initial * 2^attempts, cap); an initial delay that is not positive counts as one second.
  ghost predicate IsDelay(initial: Duration, max: Duration, made: int, delay: int) {
    var b := if initial <= 0 then 1_000_000_000 else initial;
    && (made <= 0 ==> delay == b)
    && (made > 0 && !Overflows(b, max) ==> delay == if b * Pow2(made) < max then b * Pow2(made) else max)
    && (made > 0 && !Overflows(b, max) && max > 0 ==> delay > 0)
  }

  lemma {:induction false} DelayIsPromised(initial: Duration, max: Duration, made: int)
    ensures IsDelay(initial, max, made, DelayAfter(initial, max, made + 1))
  {
    var b := Base(initial);
    if made > 0 && !Overflows(b, max) {
      CappedDoubling(b, max, made);
      ScaledGrows(b, made);
      ScaledIsProduct(b, made);
    }
  }
}
