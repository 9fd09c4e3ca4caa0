/**
 Queue-level backoff in nanoseconds, in int64 arithmetic
 (internal/agents/cloud_vault_replicator.go, `cloudVaultBackoff`).
 */
module CloudBackoff {
  const TWO_63 := 0x8000_0000_0000_0000
  const TWO_64 := 0x1_0000_0000_0000_0000
  const BASE := 30_000_000_000
  const CAP := 3_600_000_000_000
  const JITTER := 5_000_000_000

  function Pow2(n: nat): (p: nat)
    ensures p >= 1
  {
    if n == 0 then 1 else 2 * Pow2(n - 1)
  }

  /** The int64 an exact integer is stored as. */
  function Wrap(x: int): int {
    var m := x % TWO_64;
    if m >= TWO_63 then m - TWO_64 else m
  }

  /** `1 << n` at int64: bits shifted out are lost. */
  function ShiftOne(n: nat): int {
    if n >= 64 then 0 else Wrap(Pow2(n))
  }

  /** `uint(attempts)` for an int. */
  function ToUint(attempts: int): nat
    requires -TWO_63 <= attempts
  {
    if attempts < 0 then TWO_64 + attempts else attempts
  }

  function Product(attempts: int): int
    requires -TWO_63 <= attempts
  {
    Wrap(BASE * ShiftOne(ToUint(attempts)))
  }

  /** The wait before jitter is added. */
  function Deterministic(attempts: int): int
    requires -TWO_63 <= attempts
  {
    var d := Product(attempts);
    if d > CAP || d <= 0 then CAP else d
  }

  function CloudVaultBackoff(attempts: int, jitter: int): int
    requires -TWO_63 <= attempts && 0 <= jitter < JITTER
  {
    Deterministic(attempts) + jitter
  }

  // ---------------------------------------------------------------- reference: exact, saturating

  function Exact(n: nat): int {
    if BASE * Pow2(n) <= CAP then BASE * Pow2(n) else CAP
  }

  lemma {:induction false} Pow2Add(a: nat, b: nat)
    ensures Pow2(a + b) == Pow2(a) * Pow2(b)
    decreases b
  {
    if b == 0 {
    } else {
      Pow2Add(a, b - 1);
      assert Pow2(a + b) == 2 * Pow2(a + b - 1);
      assert Pow2(a) * (2 * Pow2(b - 1)) == 2 * (Pow2(a) * Pow2(b - 1));
    }
  }

  lemma {:induction false} Pow2Monotone(a: nat, b: nat)
    requires a <= b
    ensures Pow2(a) <= Pow2(b)
    decreases b
  {
    if a < b {
      Pow2Monotone(a, b - 1);
    }
  }

  lemma Pow2Values()
    ensures Pow2(28) == 0x1000_0000 && Pow2(29) == 0x2000_0000 && Pow2(30) == 0x4000_0000
    ensures Pow2(31) == 0x8000_0000 && Pow2(32) == 0x1_0000_0000
    ensures Pow2(62) == 0x4000_0000_0000_0000 && Pow2(63) == TWO_63
  {
    assert Pow2(7) == 128;
    Pow2Add(7, 7);
    Pow2Add(14, 14);
    Pow2Add(28, 3);
    assert Pow2(3) == 8;
    Pow2Add(31, 31);
  }

  /** A multiple of 2^42 wraps to zero, a negative value or at least 2^42, all of which the guard sends to the cap. */
  lemma WrapMultiple(q: int)
    ensures var w := Wrap(0x400_0000_0000 * q); w <= 0 || w > CAP
  {
    var d, r := q / 0x40_0000, q % 0x40_0000;
    assert q == 0x40_0000 * d + r;
    assert 0x400_0000_0000 * q == TWO_64 * d + 0x400_0000_0000 * r;
    assert (TWO_64 * d + 0x400_0000_0000 * r) % TWO_64 == 0x400_0000_0000 * r;
  }

  lemma SmallShift(n: nat)
    requires n < 63
    ensures ShiftOne(n) == Pow2(n)
  {
    Pow2Monotone(n, 62);
    Pow2Values();
  }

  lemma WrapFits(x: int)
    requires 0 <= x < TWO_63
    ensures Wrap(x) == x
  {
  }

  lemma FitsBelow29(n: nat)
    requires n < 29
    ensures Wrap(BASE * ShiftOne(n)) == BASE * Pow2(n) > 0
  {
    assert ShiftOne(n) == Pow2(n) by { SmallShift(n); }
    assert 1 <= Pow2(n) <= 0x1000_0000 by { Pow2Values(); Pow2Monotone(n, 28); }
    WrapFits(BASE * Pow2(n));
  }

  lemma GuardCatchesWrap(n: nat)
    requires 29 <= n
    ensures var w := Wrap(BASE * ShiftOne(n)); w <= 0 || w > CAP
  {
    hide Pow2;
    Pow2Values();
    if n >= 64 {
    } else if n == 63 {
      assert BASE * ShiftOne(63) == TWO_64 * -15_000_000_000;
    } else {
      SmallShift(n);
      if n >= 32 {
        Pow2Add(32, n - 32);
        assert BASE * Pow2(n) == 0x400_0000_0000 * (29_296_875 * Pow2(n - 32));
        WrapMultiple(29_296_875 * Pow2(n - 32));
      }
    }
  }

  lemma SmallPowers(n: nat)
    ensures n < 7 ==> Pow2(n) == [1, 2, 4, 8, 16, 32, 64][n]
    ensures n >= 7 ==> Pow2(n) >= 128
  {
    assert Pow2(1) == 2 && Pow2(2) == 4 && Pow2(3) == 8 && Pow2(4) == 16;
    assert Pow2(5) == 32 && Pow2(6) == 64 && Pow2(7) == 128;
    if n >= 7 {
      Pow2Monotone(7, n);
    }
  }

  /** The wrapping computation is the exact saturating one: min(30s * 2^n, 1h) for every n. */
  lemma {:induction false} DeterministicIsExact(n: nat)
    ensures Deterministic(n) == Exact(n)
  {
    Pow2Values();
    if n < 29 {
      FitsBelow29(n);
    } else {
      GuardCatchesWrap(n);
      Pow2Monotone(29, n);
    }
  }

  /** The waits in seconds: half a minute, doubled each time, up to an hour. */
  lemma {:induction false} DeterministicValues(n: nat)
    ensures Deterministic(n) == 1_000_000_000 * if n < 7 then [30, 60, 120, 240, 480, 960, 1920][n] else 3600
  {
    DeterministicIsExact(n);
    SmallPowers(n);
    hide Deterministic, Pow2;
  }

  lemma {:induction false} BackoffBounds(attempts: int, jitter: int)
    requires -TWO_63 <= attempts && 0 <= jitter < JITTER
    ensures BASE <= Deterministic(attempts) <= CAP
    ensures BASE <= CloudVaultBackoff(attempts, jitter) < CAP + JITTER < TWO_63
  {
    if attempts >= 0 {
      DeterministicIsExact(attempts);
    }
  }

  lemma {:induction false} BackoffMonotone(a: nat, b: nat)
    requires a <= b
    ensures Deterministic(a) <= Deterministic(b)
  {
    DeterministicIsExact(a);
    DeterministicIsExact(b);
    Pow2Monotone(a, b);
  }

  /** A product that left the int64 range is never mistaken for a short wait. */
  lemma {:induction false} NoWrapSlipsThrough(n: nat)
    requires BASE * Pow2(n) >= TWO_63 || n >= 64
    ensures Product(n) <= 0 || Product(n) > CAP
  {
    assert 29 <= n by {
      if n < 29 {
        FitsBelow29(n);
      }
    }
    GuardCatchesWrap(n);
  }
}
