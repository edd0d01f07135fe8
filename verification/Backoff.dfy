/** The device's pauses between attempts: exponential, with a jitter computed from the attempt number. */
module Backoff {
  function Pow2(n: nat): (r: real)
    ensures r >= 1.0
  {
    if n == 0 then 1.0 else 2.0 * Pow2(n - 1)
  }

  /** Int is 64 bits wide and &* wraps. */
  function Wrap64(x: int): int {
    var m := x % 0x1_0000_0000_0000_0000;
    if m < 0x8000_0000_0000_0000 then m else m - 0x1_0000_0000_0000_0000
  }

  /** Swift's %, which takes the sign of the dividend. */
  function Remainder(x: int, m: nat): int
    requires m > 0
  {
    if x >= 0 then x % m else -((-x) % m)
  }

  /** backoff's pause after the given attempt, in seconds. */
  function Delay(attempt: nat): real
    requires attempt >= 1
  {
    var base := 0.25 * Pow2(attempt - 1);
    var jitter := Remainder(Wrap64(attempt * 2_654_435_761), 1_000) as real / 1_000.0;
    base * (0.85 + 0.3 * jitter)
  }

  lemma NoWrap(x: int)
    requires 0 <= x < 0x8000_0000_0000_0000
    ensures Wrap64(x) == x
  {
  }

  lemma Fraction(m: int)
    requires 0 <= m < 1_000
    ensures 0.85 <= 0.85 + 0.3 * (m as real / 1_000.0) < 1.15
  {
  }

  /** The random-looking factor of the pause. */
  lemma FactorIsSmall(attempt: nat) returns (factor: real)
    requires 1 <= attempt < 0x8000_0000
    ensures 0.85 <= factor < 1.15 && Delay(attempt) == 0.25 * Pow2(attempt - 1) * factor
  {
    var w := attempt * 2_654_435_761;
    NoWrap(w);
    Fraction(w % 1_000);
    factor := 0.85 + 0.3 * ((w % 1_000) as real / 1_000.0);
  }

  lemma Scales(power: real, factor: real, delay: real)
    requires power >= 1.0 && 0.85 <= factor < 1.15 && delay == 0.25 * power * factor
    ensures 0.25 * power * 0.85 <= delay < 0.25 * power * 1.15
  {
  }

  lemma JitterIsSmall(attempt: nat)
    requires 1 <= attempt < 0x8000_0000
    ensures 0.25 * Pow2(attempt - 1) * 0.85 <= Delay(attempt) < 0.25 * Pow2(attempt - 1) * 1.15
  {
    var factor := FactorIsSmall(attempt);
    Scales(Pow2(attempt - 1), factor, Delay(attempt));
  }

  /** The jitter never undoes the doubling: as long as &* does not wrap, every pause is longer than all before. */
  lemma {:induction false} DelaysGrow(a: nat, b: nat)
    requires 1 <= a < b < 0x8000_0000
    ensures Delay(a) < Delay(b)
    decreases b
  {
    JitterIsSmall(b - 1);
    JitterIsSmall(b);
    assert Pow2(b - 1) == 2.0 * Pow2(b - 2);
    if a < b - 1 { DelaysGrow(a, b - 1); }
  }

  /** The three pauses a call can make, in seconds. */
  lemma FirstPauses()
    ensures Delay(1) == 0.269575 && Delay(2) == 0.5033 && Delay(3) == 0.9349
  {
    assert Pow2(1) == 2.0 && Pow2(2) == 4.0;
  }

  lemma RemainderIsSmall(x: int)
    ensures -1_000 < Remainder(x, 1_000) < 1_000 && (x >= 0 ==> Remainder(x, 1_000) >= 0) && (x <= 0 ==> Remainder(x, 1_000) <= 0)
  {
  }

  /** Beyond the range, where &* wraps to a negative number, the jitter turns around and halves the pause at most. */
  lemma WrappedPauses(attempt: nat)
    requires attempt >= 1
    ensures 0.25 * Pow2(attempt - 1) * 0.55 < Delay(attempt) < 0.25 * Pow2(attempt - 1) * 1.15
    ensures Wrap64(attempt * 2_654_435_761) < 0 ==> Delay(attempt) <= 0.25 * Pow2(attempt - 1) * 0.85
  {
    var w := Wrap64(attempt * 2_654_435_761);
    RemainderIsSmall(w);
    var factor := 0.85 + 0.3 * (Remainder(w, 1_000) as real / 1_000.0);
    assert 0.55 < factor < 1.15 && (w < 0 ==> factor <= 0.85);
    ScalesAll(Pow2(attempt - 1), factor, Delay(attempt));
  }

  lemma ScalesAll(power: real, factor: real, delay: real)
    requires power >= 1.0 && 0.55 < factor < 1.15 && delay == 0.25 * power * factor
    ensures 0.25 * power * 0.55 < delay < 0.25 * power * 1.15
    ensures factor <= 0.85 ==> delay <= 0.25 * power * 0.85
  {
    Grows(0.25 * power, 0.55, factor);
    Grows(0.25 * power, factor, 1.15);
    if factor < 0.85 { Grows(0.25 * power, factor, 0.85); }
  }

  lemma Grows(x: real, a: real, b: real)
    requires x > 0.0 && a < b
    ensures x * a < x * b
  {
  }
}
