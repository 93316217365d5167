/** Unsigned fixed-width arithmetic of the timer variables.
    Every counter and setting of timedefs.h has the instantiator's type `ttype`;
    the sample application instantiates its timers with uint8_t, so `Count` is
    fixed here to that width (one constant, WORD). The burst generator's pulse
    count and pulse counter are uint8_t regardless of `ttype` (`Byte`). */
module Counters {

  /** Number of values of `ttype`. */
  const WORD: int := 256
  /** Number of values of uint8_t. */
  const BYTE: int := 256

  type Count = x: int | 0 <= x < WORD
  type Byte = x: int | 0 <= x < BYTE

  /** The value of `--c` (and of `c` afterwards) on an unsigned `ttype` variable:
      the modular predecessor, so that 0 wraps to the largest value. */
  function PreDec(c: Count): (r: Count)
    ensures (r + 1) % WORD == c
    ensures c != 0 ==> r < c
  {
    if c == 0 then WORD - 1 else c - 1
  }

  /** The value of `++c` on an unsigned `ttype` variable: the modular successor. */
  function PreInc(c: Count): (r: Count)
    ensures PreDec(r) == c
  {
    if c == WORD - 1 then 0 else c + 1
  }

  /** The value of `c += s` on an unsigned `ttype` variable. */
  function AddWrap(c: Count, s: Count): (r: Count)
    ensures c + s < WORD ==> r == c + s
    ensures c + s >= WORD ==> r == c + s - WORD
  {
    (c + s) % WORD
  }

  /** The value of `--p` on a uint8_t variable. */
  function PreDecByte(p: Byte): (r: Byte)
    ensures (r + 1) % BYTE == p
    ensures p != 0 ==> r < p
  {
    if p == 0 then BYTE - 1 else p - 1
  }

  /** The conversion of a macro argument to `ttype` when it is assigned to a
      timer variable: congruent to the argument modulo WORD, and the argument
      itself when it already fits. */
  function Narrow(x: int): (r: Count)
    ensures (x - r) % WORD == 0
    ensures 0 <= x < WORD ==> r == x
  {
    x % WORD
  }

  /** A difference clamped at zero. */
  function Max0(x: int): nat { if x < 0 then 0 else x }

  /** Number of pre-decrements that take a counter loaded with per down to
      zero: per itself, or WORD when per = 0 because the first pre-decrement
      wraps around. */
  function Period(per: Count): (r: nat)
    ensures 1 <= r <= WORD
    ensures per != 0 ==> r == per
  {
    if per == 0 then WORD else per
  }

  /** Counter value after k wrapping pre-decrements of c, before it hits zero. */
  function Remaining(c: Count, k: nat): Count
    requires k < Period(c)
  {
    if k <= c then c - k else c + WORD - k
  }

  /** Counter value of a reloading countdown k ticks after it was loaded with
      per, when every zero reloads it with per again. */
  function CounterAt(per: Count, k: nat): Count
  {
    (Period(per) - k % Period(per)) % WORD
  }

  /** How CounterAt moves from one tick to the next: reloaded with per after
      reaching 1, otherwise decremented; the period is complete exactly then. */
  lemma CounterAtSucc(per: Count, k: nat)
    ensures CounterAt(per, k + 1) ==
      if CounterAt(per, k) == 1 then per else PreDec(CounterAt(per, k))
    ensures (k + 1 >= Period(per)) == (k >= Period(per) || CounterAt(per, k) == 1)
  {
    var p, j := Period(per), k % Period(per);
    ModSucc(k, p);
    if j == p - 1 {
      assert CounterAt(per, k) == 1;
      assert CounterAt(per, k + 1) == p % WORD;
    } else {
      assert (k + 1) % p == j + 1;
      assert CounterAt(per, k) == (p - j) % WORD && 2 <= p - j <= WORD;
    }
    if k < p {
      ModUnique(k, p, 0, k);
    }
  }

  /** A reloading countdown shows 1 exactly on the last tick of each period. */
  lemma CounterAtOne(per: Count, k: nat)
    ensures CounterAt(per, k) == 1 <==> (k + 1) % Period(per) == 0
  {
    ModSucc(k, Period(per));
  }

  // Arithmetic helpers for the periodic timers.

  lemma {:induction false} MulAtLeast(d: nat, p: nat)
    requires d >= 1
    ensures d * p >= p
  {
    if d > 1 {
      MulAtLeast(d - 1, p);
      assert d * p == (d - 1) * p + p;
    }
  }

  lemma ModUnique(n: int, p: int, q: int, m: int)
    requires p >= 1 && 0 <= m < p && n == q * p + m
    ensures n % p == m
  {
    var q2, m2 := n / p, n % p;
    assert n == q2 * p + m2;
    var d := q - q2;
    assert d * p == m2 - m by {
      assert q * p - q2 * p == (q - q2) * p;
    }
    if d > 0 {
      MulAtLeast(d, p);
    } else if d < 0 {
      MulAtLeast(-d, p);
    }
  }

  lemma ModSucc(k: nat, p: nat)
    requires p >= 1
    ensures (k + 1) % p == if k % p == p - 1 then 0 else k % p + 1
  {
    var q, m := k / p, k % p;
    assert k == q * p + m;
    if m == p - 1 {
      assert k + 1 == (q + 1) * p + 0;
      ModUnique(k + 1, p, q + 1, 0);
    } else {
      ModUnique(k + 1, p, q, m + 1);
    }
  }

  lemma {:induction false} MulMonotone(j: nat, k: nat, s: nat)
    requires j <= k
    ensures j * s <= k * s
  {
    if j < k {
      MulMonotone(j, k - 1, s);
      assert k * s == (k - 1) * s + s;
    }
  }

  lemma ModAddPeriod(k: nat, p: nat)
    requires p >= 1
    ensures (k + p) % p == k % p
  {
    var q, m := k / p, k % p;
    assert k == q * p + m;
    assert k + p == (q + 1) * p + m;
    ModUnique(k + p, p, q + 1, m);
  }
}
