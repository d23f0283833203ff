/**
 * The retry delay of both processors: calculateBackoff, which
 * internal/worker/labor/labor_processor.go and
 * internal/worker/email/email_processor.go each declare with the same body.
 *
 * The source computes int32(math.Pow(2, n) * 10) and caps it at one hour.
 * The float is exact for every n it can see, and the int32 conversion is exact
 * as long as the value fits; from n = 28 on 10 * 2^n no longer fits in an int32
 * and Go leaves the result of the conversion to the implementation.
 * CalculateBackoff models the code where it is defined; Backoff is the total,
 * capped schedule the code evidently means, and the processors use it.
 */
module RetryBackoff {

  const BaseDelay := 10
  const MaxDelay := 3600
  const MaxInt32 := 0x7fff_ffff
  /** The largest retry count whose scaled delay still fits in an int32. */
  const LastExactCount := 27

  function Pow2(n: nat): (p: nat)
    ensures p >= 1
  {
    if n == 0 then 1 else 2 * Pow2(n - 1)
  }

  lemma {:induction false} Pow2Monotone(m: nat, n: nat)
    requires m <= n
    ensures Pow2(m) <= Pow2(n)
  {
    if m < n {
      Pow2Monotone(m, n - 1);
    }
  }

  /** The powers of two the schedule and the int32 bound depend on. */
  lemma Pow2Landmarks()
    ensures Pow2(8) == 256 && Pow2(9) == 512
    ensures Pow2(LastExactCount) == 134217728 && Pow2(LastExactCount + 1) == 268435456
  {
    assert Pow2(1) == 2;
    assert Pow2(2) == 4;
    assert Pow2(3) == 8;
    assert Pow2(4) == 16;
    assert Pow2(5) == 32;
    assert Pow2(6) == 64;
    assert Pow2(7) == 128;
    assert Pow2(8) == 256;
    assert Pow2(9) == 512;
    assert Pow2(10) == 1024;
    assert Pow2(11) == 2048;
    assert Pow2(12) == 4096;
    assert Pow2(13) == 8192;
    assert Pow2(14) == 16384;
    assert Pow2(15) == 32768;
    assert Pow2(16) == 65536;
    assert Pow2(17) == 131072;
    assert Pow2(18) == 262144;
    assert Pow2(19) == 524288;
    assert Pow2(20) == 1048576;
    assert Pow2(21) == 2097152;
    assert Pow2(22) == 4194304;
    assert Pow2(23) == 8388608;
    assert Pow2(24) == 16777216;
    assert Pow2(25) == 33554432;
    assert Pow2(26) == 67108864;
    assert Pow2(27) == 134217728;
    assert Pow2(28) == 268435456;
  }

  lemma DivisionShrinks(a: nat, p: nat)
    requires p >= 1
    ensures 0 <= a / p <= a
  {
  }

  function Min(a: int, b: int): int {
    if a <= b then a else b
  }

  /**
   * int32(math.Pow(2, retryCount) * 10). For a negative count the product is
   * a positive fraction and the conversion truncates it.
   */
  function ScaledDelay(retryCount: int): (d: int)
    requires retryCount <= LastExactCount
    ensures 0 <= d <= MaxInt32
  {
    if retryCount >= 0 then
      Pow2Monotone(retryCount, LastExactCount);
      Pow2Landmarks();
      BaseDelay * Pow2(retryCount)
    else
      DivisionShrinks(BaseDelay, Pow2(-retryCount));
      BaseDelay / Pow2(-retryCount)
  }

  /** calculateBackoff as written, on the counts where Go defines it. */
  function CalculateBackoff(retryCount: int): (d: int)
    requires retryCount <= LastExactCount
    ensures 0 <= d <= MaxDelay
    ensures retryCount >= 0 ==> d == Min(BaseDelay * Pow2(retryCount), MaxDelay)
  {
    var backoff := ScaledDelay(retryCount);
    if backoff > MaxDelay then MaxDelay else backoff
  }

  /** The first retry count at which the as-written conversion leaves the int32 range. */
  lemma CalculateBackoffOverflowsAt28()
    ensures BaseDelay * Pow2(LastExactCount + 1) > MaxInt32
  {
    Pow2Landmarks();
  }

  /**
   * The intended schedule min(10 * 2^n, 3600), defined for every count:
   * from 28 on it is the cap, which is what the formula gives there.
   */
  function Backoff(retryCount: int): (d: int)
    ensures 0 <= d <= MaxDelay
    ensures retryCount >= 0 ==> d == Min(BaseDelay * Pow2(retryCount), MaxDelay)
  {
    if retryCount > LastExactCount then
      Pow2Monotone(LastExactCount, retryCount);
      Pow2Landmarks();
      MaxDelay
    else
      CalculateBackoff(retryCount)
  }

  /** The delay never decreases as the retry count grows. */
  lemma BackoffMonotone(m: int, n: int)
    requires 0 <= m <= n
    ensures Backoff(m) <= Backoff(n)
  {
    Pow2Monotone(m, n);
  }

  /** From the ninth retry on the delay is the one-hour cap. */
  lemma BackoffSaturates(n: int)
    requires n >= 9
    ensures Backoff(n) == MaxDelay
  {
    Pow2Monotone(9, n);
    Pow2Landmarks();
  }

  /** The first steps of the schedule: 10, 20, 40, 80 seconds. */
  lemma BackoffSchedule()
    ensures Backoff(0) == 10 && Backoff(1) == 20 && Backoff(2) == 40 && Backoff(3) == 80
    ensures Backoff(8) == 2560 && Backoff(9) == MaxDelay
  {
    Pow2Landmarks();
  }
}
