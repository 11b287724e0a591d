/** The retry delay: exponential, capped, with a little jitter. */
module Backoff {
  import opened Common

  const MAX_INT64: int := 0x7FFF_FFFF_FFFF_FFFF
  const MIN_INT64: int := -0x8000_0000_0000_0000

  function Pow2(n: nat): nat {
    if n == 0 then 1 else 2 * Pow2(n - 1)
  }

  function Shift(attempt: int): nat {
    if attempt < 1 then 0 else if attempt > 11 then 10 else attempt - 1
  }

  const EXACT: nat := 0x20_0000_0000_0000

  /** The spacing of float64 values around n: 1 below 2^53, doubling with every binary place. */
  function Ulp(n: nat): (u: nat)
    ensures 1 <= u && (n > 0 ==> u <= n)
  {
    if n < EXACT then 1 else 2 * Ulp(n / 2)
  }

  /** float64(n): the nearest value, ties to the even multiple. */
  function Float64(n: nat): nat {
    var u := Ulp(n);
    var q, r := n / u, n % u;
    if 2 * r < u || (2 * r == u && q % 2 == 0) then q * u else (q + 1) * u
  }

  /** time.Duration(f) for a non-negative f: exact in range; out of range the result is up
      to the platform, which yields one end of the int64 range (`wrapped`). */
  function ToDuration(f: nat, wrapped: int): int {
    if f <= MAX_INT64 then f else wrapped
  }

  /** The delay before jitter. Multiplying a float64 by a power of two does not round. */
  function Delay(attempt: int, base: int, max: int, wrapped: int): (d: int)
    requires base > 0 && max > 0
    ensures 0 < d <= max
  {
    var d := ToDuration(Float64(base) * Pow2(Shift(attempt)), wrapped);
    if d > max || d <= 0 then max else d
  }

  /** backoff; `nanos` is the clock reading the jitter is taken from. */
  function Wait(attempt: int, base: int, max: int, wrapped: int, nanos: nat): int
    requires base > 0 && max > 0
  {
    var d := Delay(attempt, base, max, wrapped);
    d + nanos % (d / 10 + 1)
  }

  lemma {:induction false} Pow2Grows(m: nat, n: nat)
    requires m <= n
    ensures 1 <= Pow2(m) <= Pow2(n)
    decreases n
  {
    if m < n {
      Pow2Grows(m, n - 1);
    } else if n > 0 {
      Pow2Grows(m - 1, n - 1);
    }
  }

  lemma ScaleGrows(base: nat, p: nat, r: nat)
    requires p <= r
    ensures base * p <= base * r
  {
  }

  /** Rounding is exact below 2^53, moves a number by at most half the spacing around it, and
      so by less than half of it. */
  lemma FloatIsClose(n: nat)
    requires n > 0
    ensures n < EXACT ==> Float64(n) == n
    ensures n <= 2 * Float64(n) <= 3 * n
    ensures 2 * n <= 2 * Float64(n) + Ulp(n) && 2 * Float64(n) <= 2 * n + Ulp(n)
  {
    var u := Ulp(n);
    Nearest(n, u);
    hide Ulp;
  }

  lemma Nearest(n: nat, u: nat)
    requires u > 0
    ensures var q, r := n / u, n % u;
            && 0 <= r < u && q * u == n - r && (q + 1) * u == n - r + u
            && (u == 1 ==> r == 0)
  {
    var q, r := n / u, n % u;
    assert n == q * u + r && (q + 1) * u == q * u + u;
  }

  /** A float64 keeps 53 binary digits. */
  lemma {:induction false} UlpKeepsDigits(n: nat)
    ensures if n < EXACT then Ulp(n) == 1 else EXACT / 2 * Ulp(n) <= n < EXACT * Ulp(n)
  {
    if n >= EXACT {
      UlpKeepsDigits(n / 2);
    }
  }

  /** Every wait up to a tenth above the delay comes from some clock reading. */
  lemma JitterSpreads(attempt: int, base: int, max: int, wrapped: int, extra: nat)
    requires base > 0 && max > 0 && extra <= Delay(attempt, base, max, wrapped) / 10
    ensures Wait(attempt, base, max, wrapped, extra) == Delay(attempt, base, max, wrapped) + extra
  {
    hide Delay;
  }

  function Capped(d: nat, max: nat): nat {
    if d <= max then d else max
  }

  /** With the positive settings New guarantees, overflow or not, the delay is
      min(float64(base) * 2^min(attempt - 1, 10), max), and the wait adds at most a tenth. */
  lemma WaitBounds(attempt: int, base: int, max: int, wrapped: int, nanos: nat)
    requires 0 < base <= MAX_INT64 && 0 < max <= MAX_INT64 && wrapped in {MIN_INT64, MAX_INT64}
    ensures var d := Delay(attempt, base, max, wrapped);
            && d == Capped(Float64(base) * Pow2(Shift(attempt)), max)
            && d <= Wait(attempt, base, max, wrapped, nanos) <= d + d / 10
  {
    FloatIsClose(base);
    Pow2Grows(0, Shift(attempt));
    ScaleGrows(Float64(base), 1, Pow2(Shift(attempt)));
  }

  /** Delays never shrink from one attempt to the next and stop growing at attempt 11. */
  lemma DelayMonotone(a: int, b: int, base: int, max: int, wa: int, wb: int)
    requires a <= b && 0 < base <= MAX_INT64 && 0 < max <= MAX_INT64
    requires wa in {MIN_INT64, MAX_INT64} && wb in {MIN_INT64, MAX_INT64}
    ensures Delay(a, base, max, wa) <= Delay(b, base, max, wb)
    ensures a >= 11 ==> Delay(a, base, max, wa) == Delay(b, base, max, wb)
  {
    hide Delay, Float64;
    WaitBounds(a, base, max, wa, 0);
    WaitBounds(b, base, max, wb, 0);
    Pow2Grows(Shift(a), Shift(b));
    ScaleGrows(Float64(base), Pow2(Shift(a)), Pow2(Shift(b)));
  }

  /** The described delay, base * 2^(attempt - 1) capped at max, is the real one up to
      attempt 11 if the base is exact as a float64 or the cap hides the difference, and
      later exactly if the cap is reached with the tenth doubling. */
  lemma DescribedDelay(attempt: int, base: int, max: int, wrapped: int)
    requires attempt >= 1 && 0 < base <= MAX_INT64 && 0 < max <= MAX_INT64 && wrapped in {MIN_INT64, MAX_INT64}
    ensures Delay(attempt, base, max, wrapped) == Capped(base * Pow2(attempt - 1), max) <==>
              if attempt <= 11 then Float64(base) == base || Min(Float64(base), base) * Pow2(attempt - 1) >= max
              else Float64(base) * 1024 >= max
    ensures base < EXACT ==>
              (Delay(attempt, base, max, wrapped) == Capped(base * Pow2(attempt - 1), max) <==>
                 attempt <= 11 || base * 1024 >= max)
  {
    var f := Float64(base);
    WaitBounds(attempt, base, max, wrapped, 0);
    FloatIsClose(base);
    hide Delay, Float64, Ulp;
    if attempt <= 11 {
      ScaleOrder(f, base, Pow2(attempt - 1));
      Pow2Grows(0, attempt - 1);
    } else {
      Pow2Ten();
      Pow2Grows(11, attempt - 1);
      ScaleGrows(base, 2048, Pow2(attempt - 1));
    }
  }

  lemma Pow2Ten()
    ensures Pow2(10) == 1024 && Pow2(11) == 2048
  {
  }

  lemma ScaleOrder(x: nat, y: nat, p: nat)
    ensures x * p <= y * p || y * p <= x * p
    ensures x <= y ==> x * p <= y * p
    ensures y <= x ==> y * p <= x * p
    ensures p > 0 && x * p == y * p ==> x == y
  {
  }

  /** With a base of two seconds and a cap of one hour, attempt 12 waits 2048 seconds where
      the description gives the hour. */
  lemma DescribedDelayFails(wrapped: int)
    requires wrapped in {MIN_INT64, MAX_INT64}
    ensures Delay(12, 2_000_000_000, 3_600_000_000_000, wrapped) == 2_048_000_000_000
    ensures Capped(2_000_000_000 * Pow2(11), 3_600_000_000_000) == 3_600_000_000_000
  {
  }
}
