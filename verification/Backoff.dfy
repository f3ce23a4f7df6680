/** The retry delay, with the machine arithmetic it is computed in, and its closed form. */
module Backoff {
  import opened Ordering

  const I64_MAX := 0x7FFF_FFFF_FFFF_FFFF
  const MAX_EXPONENT := 12
  const MAX_DELAY := 86_400

  function Pow2(n: nat): int {
    if n == 0 then 1 else 2 * Pow2(n - 1)
  }

  /** `1_i64.checked_shl(e).unwrap_or(i64::MAX)`; a shift by 63 sets the sign bit. */
  function ShiftedOne(exponent: nat): int {
    if exponent >= 64 then I64_MAX else if exponent == 63 then -I64_MAX - 1 else Pow2(exponent)
  }

  /** `saturating_mul` on `i64`. */
  function SaturatingMul(a: int, b: int): int {
    if a * b > I64_MAX then I64_MAX else if a * b < -I64_MAX - 1 then -I64_MAX - 1 else a * b
  }

  /** `u32::try_from(attempts.saturating_sub(1)).unwrap_or(0).min(12)`. */
  function Exponent(attempts: int): nat {
    if attempts <= 1 then 0 else Min(attempts - 1, MAX_EXPONENT)
  }

  function Delay(base: int, attempts: int): int {
    Min(SaturatingMul(base, ShiftedOne(Exponent(attempts))), MAX_DELAY)
  }

  predicate ValidBase(base: int) {
    1 <= base <= 3_600
  }

  lemma {:induction false} Pow2Monotone(m: nat, n: nat)
    requires m <= n
    ensures 1 <= Pow2(m) <= Pow2(n)
    decreases n
  {
    if m < n {
      Pow2Monotone(m, n - 1);
    } else if n > 0 {
      Pow2Monotone(m - 1, n - 1);
    }
  }

  lemma Pow2Twelve()
    ensures Pow2(12) == 4096
  {
    assert Pow2(4) == 16;
    assert Pow2(8) == 16 * Pow2(4) by {
      assert Pow2(8) == 2 * Pow2(7) && Pow2(7) == 2 * Pow2(6) && Pow2(6) == 2 * Pow2(5) && Pow2(5) == 2 * Pow2(4);
    }
    assert Pow2(12) == 2 * Pow2(11) && Pow2(11) == 2 * Pow2(10) && Pow2(10) == 2 * Pow2(9) && Pow2(9) == 2 * Pow2(8);
  }

  lemma Scale(base: int, p: int, q: int)
    requires base >= 0 && p <= q
    ensures base * p <= base * q
  {
  }

  /** On configured values nothing saturates. */
  lemma DelayClosedForm(base: int, attempts: int)
    requires ValidBase(base)
    ensures Delay(base, attempts) == Min(base * Pow2(Exponent(attempts)), MAX_DELAY)
    ensures base <= base * Pow2(Exponent(attempts)) <= base * 4096
  {
    Pow2Twelve();
    Pow2Monotone(0, Exponent(attempts));
    Pow2Monotone(Exponent(attempts), 12);
    var p := Pow2(Exponent(attempts));
    Scale(base, 1, p);
    Scale(base, p, 4096);
  }

  lemma DelayMonotone(base: int, m: int, n: int)
    requires ValidBase(base) && m <= n
    ensures base <= Delay(base, m) <= Delay(base, n) <= MAX_DELAY
  {
    DelayClosedForm(base, m);
    DelayClosedForm(base, n);
    Pow2Monotone(Exponent(m), Exponent(n));
    Scale(base, Pow2(Exponent(m)), Pow2(Exponent(n)));
    hide Delay, Pow2;
  }

  /** The cap of a day is reached by some attempt if and only if the base is at least 22 seconds. */
  lemma DelayReachesCap(base: int)
    requires ValidBase(base)
    ensures (exists attempts :: Delay(base, attempts) == MAX_DELAY) <==> base >= 22
  {
    Pow2Twelve();
    DelayClosedForm(base, 13);
    if base >= 22 {
      assert Exponent(13) == 12;
      assert Delay(base, 13) == MAX_DELAY;
    } else {
      forall attempts ensures Delay(base, attempts) != MAX_DELAY {
        DelayClosedForm(base, attempts);
        assert base * 4096 <= 21 * 4096;
      }
    }
  }

  /** The first attempt waits the base; up to the thirteenth each waits twice as long as the one before, a day at most;
      from then on the delay stays. */
  lemma DelayDoubles(base: int, attempts: int)
    requires ValidBase(base)
    ensures attempts <= 1 ==> Delay(base, attempts) == base
    ensures 1 <= attempts <= 12 ==>
      Delay(base, attempts + 1) == if 2 * Delay(base, attempts) <= 86_400 then 2 * Delay(base, attempts) else 86_400
    ensures attempts >= 13 ==> Delay(base, attempts + 1) == Delay(base, attempts)
  {
    DelayClosedForm(base, attempts);
    DelayClosedForm(base, attempts + 1);
    hide Delay;
    if 1 <= attempts <= 12 {
      var p := Pow2(Exponent(attempts));
      assert Pow2(Exponent(attempts + 1)) == 2 * p;
      Twice(base, p);
    }
  }

  lemma Twice(base: int, p: int)
    ensures base * (2 * p) == 2 * (base * p)
  {
  }
}
