// The delay before a retry: exponential with a cap, and a random jitter.
module RetryDelay {

  const LOW := 0.8
  const HIGH := 1.2

  predicate Jitter(j: real) {
    LOW <= j <= HIGH
  }

  function Pow2(n: nat): (r: nat)
    ensures r >= 1
  {
    if n == 0 then 1 else 2 * Pow2(n - 1)
  }

  /** Doubles with each attempt after the first, up to `cap` seconds. */
  function Base(first: real, cap: real, attempts: nat): real {
    var grown := first * Pow2(if attempts == 0 then 0 else attempts - 1) as real;
    if grown < cap then grown else cap
  }

  /** Milliseconds, truncated, and at least one. */
  function DelayMs(first: real, cap: real, attempts: nat, jitter: real): int {
    var ms := (Base(first, cap, attempts) * jitter * 1000.0).Floor;
    if ms > 1 then ms else 1
  }

  lemma Scale(a: real, b: real, c: real)
    requires a <= b && c >= 0.0
    ensures a * c <= b * c
  {
  }

  lemma FloorMonotone(a: real, b: real)
    requires a <= b
    ensures a.Floor <= b.Floor
  {
  }

  lemma Product(x: real, j: real, y: real, k: real)
    requires 0.0 <= x <= y && 0.0 <= j <= k
    ensures x * j * 1000.0 <= y * k * 1000.0
  {
    Scale(j, k, x);
    Scale(x, y, k);
    assert x * j <= x * k <= y * k;
  }

  lemma BasePositive(first: real, cap: real, attempts: nat)
    requires first > 0.0 && cap > 0.0
    ensures 0.0 < Base(first, cap, attempts) <= cap
  {
    var p := Pow2(if attempts == 0 then 0 else attempts - 1) as real;
    Scale(1.0, p, first);
    assert first * 1.0 == first;
    assert first * p == p * first;
  }

  /** The first delay's base is the setting, and each further one twice the last, both up to the cap. */
  lemma BaseDoubles(first: real, cap: real, attempts: nat)
    requires first > 0.0 && cap > 0.0 && attempts >= 1
    ensures Base(first, cap, 0) == Base(first, cap, 1) == if first < cap then first else cap
    ensures var b := Base(first, cap, attempts); Base(first, cap, attempts + 1) == if 2.0 * b < cap then 2.0 * b else cap
  {
    var p := Pow2(attempts - 1) as real;
    assert Pow2(attempts) as real == 2.0 * p && Pow2(0) == 1;
    assert first * (2.0 * p) == 2.0 * (first * p);
  }

  /** At least a millisecond, and at most the largest jittered cap. */
  lemma DelayBounded(first: real, cap: real, attempts: nat, jitter: real)
    requires first > 0.0 && cap > 0.0 && Jitter(jitter)
    ensures var top := (cap * HIGH * 1000.0).Floor;
      1 <= DelayMs(first, cap, attempts, jitter) <= if top > 1 then top else 1
  {
    BasePositive(first, cap, attempts);
    Product(Base(first, cap, attempts), jitter, cap, HIGH);
    FloorMonotone(Base(first, cap, attempts) * jitter * 1000.0, cap * HIGH * 1000.0);
  }

  lemma DelayMonotone(first: real, cap: real, attempts: nat, j: real, k: real)
    requires first > 0.0 && cap > 0.0 && 0.0 <= j <= k
    ensures DelayMs(first, cap, attempts, j) <= DelayMs(first, cap, attempts, k)
  {
    BasePositive(first, cap, attempts);
    Product(Base(first, cap, attempts), j, Base(first, cap, attempts), k);
    FloorMonotone(Base(first, cap, attempts) * j * 1000.0, Base(first, cap, attempts) * k * 1000.0);
  }

  ghost predicate NotReordered(first: real, cap: real, attempts: nat) {
    forall j, k | Jitter(j) && Jitter(k) :: DelayMs(first, cap, attempts, j) <= DelayMs(first, cap, attempts + 1, k)
  }

  /** Only the extreme draws matter. */
  lemma ExtremesDecide(first: real, cap: real, attempts: nat)
    requires first > 0.0 && cap > 0.0
    ensures NotReordered(first, cap, attempts) <==>
      DelayMs(first, cap, attempts, HIGH) <= DelayMs(first, cap, attempts + 1, LOW)
  {
    if DelayMs(first, cap, attempts, HIGH) <= DelayMs(first, cap, attempts + 1, LOW) {
      forall j, k | Jitter(j) && Jitter(k)
        ensures DelayMs(first, cap, attempts, j) <= DelayMs(first, cap, attempts + 1, k)
      {
        DelayMonotone(first, cap, attempts, j, HIGH);
        DelayMonotone(first, cap, attempts + 1, LOW, k);
      }
    } else {
      assert Jitter(HIGH) && Jitter(LOW);
    }
  }

  /**
   * Jitter never makes an attempt wait less than the one before if and only if
   * the longest draw of the earlier base, `b`, is below two milliseconds or,
   * in whole milliseconds, at most the shortest draw of the later base, `c`.
   */
  lemma NotReorderedIff(first: real, cap: real, attempts: nat)
    requires first > 0.0 && cap > 0.0
    ensures var b, c := Base(first, cap, attempts), Base(first, cap, attempts + 1);
      NotReordered(first, cap, attempts) <==> b * 1200.0 < 2.0 || (b * 1200.0).Floor as real <= c * 800.0
  {
    var b, c := Base(first, cap, attempts), Base(first, cap, attempts + 1);
    ExtremesDecide(first, cap, attempts);
    assert b * HIGH * 1000.0 == b * 1200.0 && c * LOW * 1000.0 == c * 800.0;
    var high, low := (b * 1200.0).Floor, (c * 800.0).Floor;
    assert DelayMs(first, cap, attempts, HIGH) == if high > 1 then high else 1;
    assert DelayMs(first, cap, attempts + 1, LOW) == if low > 1 then low else 1;
  }

  /** A later base at least half as long again is enough. */
  lemma HalfAgainSuffices(first: real, cap: real, attempts: nat)
    requires first > 0.0 && cap > 0.0
    requires 3.0 * Base(first, cap, attempts) <= 2.0 * Base(first, cap, attempts + 1)
    ensures NotReordered(first, cap, attempts)
  {
    NotReorderedIff(first, cap, attempts);
  }

  /** A later base shorter than that by more than the rounding is too little. */
  lemma LessReorders(first: real, cap: real, attempts: nat)
    requires first > 0.0 && cap > 0.0
    requires var b, c := Base(first, cap, attempts), Base(first, cap, attempts + 1);
      b * 1200.0 >= 2.0 && b * 1200.0 >= c * 800.0 + 1.0
    ensures !NotReordered(first, cap, attempts)
  {
    NotReorderedIff(first, cap, attempts);
  }

  lemma Doubles(first: real, attempts: nat)
    requires first > 0.0
    ensures var n := if attempts == 0 then 0 else attempts - 1; first * Pow2(n) as real <= first * Pow2(attempts) as real
  {
    var n := if attempts == 0 then 0 else attempts - 1;
    Scale(Pow2(n) as real, Pow2(attempts) as real, first);
    assert first * Pow2(n) as real == Pow2(n) as real * first;
    assert first * Pow2(attempts) as real == Pow2(attempts) as real * first;
  }

  /** Once the cap is reached, from the smallest cap the settings allow on, jitter can always reorder. */
  lemma AtCapReorders(first: real, cap: real, attempts: nat)
    requires first > 0.0 && cap >= 0.1
    requires first * Pow2(if attempts == 0 then 0 else attempts - 1) as real >= cap
    ensures !NotReordered(first, cap, attempts)
  {
    Doubles(first, attempts);
    assert Base(first, cap, attempts) == cap && Base(first, cap, attempts + 1) == cap;
    LessReorders(first, cap, attempts);
  }

  /** While the cap is not reached, jitter never makes an attempt wait less than the one before. */
  lemma UncappedNotReordered(first: real, cap: real, attempts: nat)
    requires first > 0.0 && attempts >= 1 && first * Pow2(attempts) as real <= cap
    ensures NotReordered(first, cap, attempts)
  {
    var p := Pow2(attempts - 1) as real;
    assert Pow2(attempts) as real == 2.0 * p;
    Scale(1.0, p, first);
    assert first * p == p * first && 1.0 * first == first && first * (2.0 * p) == 2.0 * (first * p);
    var b := first * p;
    assert Base(first, cap, attempts) == b;
    assert Base(first, cap, attempts + 1) == 2.0 * b;
    assert b > 0.0;
    HalfAgainSuffices(first, cap, attempts);
  }

  /** For one, two attempts with the same base of two seconds. */
  lemma CappedCanReorder()
    ensures !NotReordered(2.0, 2.0, 1)
  {
    assert Pow2(0) == 1;
    AtCapReorders(2.0, 2.0, 1);
  }
}
