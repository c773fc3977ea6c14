/** The Agent's retry delays, in nanoseconds. */
module Backoff {
  const SECOND := 1_000_000_000
  const MILLISECOND := 1_000_000
  const MINIMUM := SECOND
  const MAXIMUM := 60 * SECOND
  const WORD := 0x1_0000_0000_0000_0000

  function Power(n: nat): nat {
    if n == 0 then 1 else 2 * Power(n - 1)
  }

  function Min(a: int, b: int): int { if a < b then a else b }
  function Max(a: int, b: int): int { if a > b then a else b }

  /** The delay before jitter: doubled at most five times */
  function Base(attempt: nat): int {
    Min(MINIMUM * Power(Min(attempt, 5)), MAXIMUM)
  }

  function Range(attempt: nat): int {
    Max(Base(attempt) / 5, MILLISECOND)
  }

  function Delay(attempt: nat, draw: int): int {
    Min(Max(Base(attempt) + draw - Range(attempt), MINIMUM), MAXIMUM)
  }

  lemma Doublings(n: nat)
    requires n <= 5
    ensures Power(n) == [1, 2, 4, 8, 16, 32][n]
  {
    assert Power(0) == 1 && Power(1) == 2 && Power(2) == 4 && Power(3) == 8;
    assert Power(4) == 16;
    assert Power(5) == 32;
  }

  /** Every delay is at least a second and below 38.4 seconds, so the upper clamp never takes effect. */
  lemma DelayBounds(attempt: nat, draw: int)
    requires 0 <= draw < 2 * Range(attempt)
    ensures MINIMUM <= Delay(attempt, draw) < 38_400 * MILLISECOND < MAXIMUM
    ensures Base(attempt) + draw - Range(attempt) < MAXIMUM && Base(attempt) == MINIMUM * Power(Min(attempt, 5))
    ensures Range(attempt) == Base(attempt) / 5
  {
    Doublings(Min(attempt, 5));
  }

  /**
   The delays of an attempt run from a fifth below 1, 2, 4, 8, 16 or 32 seconds up to a fifth above,
   which is excluded, and are no shorter than one second; each of these is drawn by some number.
   */
  lemma DelaysExactly(attempt: nat, delay: int)
    ensures var base := [1, 2, 4, 8, 16, 32][Min(attempt, 5)] * SECOND;
            (exists draw :: 0 <= draw < 2 * Range(attempt) && Delay(attempt, draw) == delay) <==>
              MINIMUM <= delay && 4 * base <= 5 * delay < 6 * base
  {
    Doublings(Min(attempt, 5));
    var base := [1, 2, 4, 8, 16, 32][Min(attempt, 5)] * SECOND;
    assert Base(attempt) == base && Range(attempt) == base / 5;
    var draw := delay - base + base / 5;
    if MINIMUM <= delay && 4 * base <= 5 * delay < 6 * base {
      assert 0 <= draw < 2 * Range(attempt) && Delay(attempt, draw) == delay;
    }
  }

  /** After a reset the first six delays strictly increase, whatever is drawn. */
  lemma FirstSixIncrease(i: nat, j: nat, first: int, second: int)
    requires i < j < 6 && 0 <= first < 2 * Range(i) && 0 <= second < 2 * Range(j)
    ensures Delay(i, first) < Delay(j, second)
  {
    Doublings(i);
    Doublings(j);
  }

  class Counter {
    var attempt: nat

    constructor ()
      ensures attempt == 0
    {
      attempt := 0;
    }

    method Reset()
      modifies this
      ensures attempt == 0
    {
      attempt := 0;
    }

    /** `draw` is a random number below twice the jitter range; the counter wraps around. */
    method Next(draw: int) returns (delay: int)
      requires attempt < WORD && 0 <= draw < 2 * Range(attempt)
      modifies this
      ensures attempt == (old(attempt) + 1) % WORD
      ensures delay == Delay(old(attempt), draw) && MINIMUM <= delay < 38_400 * MILLISECOND
    {
      DelayBounds(attempt, draw);
      var base := MINIMUM * Power(Min(attempt, 5));
      if base > MAXIMUM {
        base := MAXIMUM;
      }
      attempt := (attempt + 1) % WORD;
      var jitterRange := Max(base / 5, MILLISECOND);
      delay := base + draw - jitterRange;
      if delay < MINIMUM {
        return MINIMUM;
      }
      if delay > MAXIMUM {
        return MAXIMUM;
      }
    }
  }
}
