/** Unsigned 64-bit words, modelled on natural numbers below U64. */
module Words {

  const U64: nat := 0x1_0000_0000_0000_0000

  type Word = n: nat | n < U64

  /** True exactly of 1, 2, 4, 8, ... */
  predicate PowerOfTwo(n: nat) {
    n == 1 || (n > 1 && n % 2 == 0 && PowerOfTwo(n / 2))
  }

  /** The C operator `&`, digit by digit. */
  function BitAnd(a: nat, b: nat): (r: nat)
    ensures r <= a
  {
    if a == 0 || b == 0 then 0 else (if a % 2 == 1 && b % 2 == 1 then 1 else 0) + 2 * BitAnd(a / 2, b / 2)
  }

  /** The C operator `~` on an unsigned 64-bit word. */
  function BitNot(x: nat): nat
    requires x < U64
  {
    U64 - 1 - x
  }

  /** The largest multiple of p that is not above x. */
  function Floor(x: nat, p: nat): nat
    requires p > 0
  {
    x - x % p
  }

  lemma {:induction false} HalfOfFloor(x: nat, p: nat)
    requires p > 1 && p % 2 == 0
    ensures Floor(x, p) == 2 * Floor(x / 2, p / 2)
  {
    var h := p / 2;
    var q, r := x / 2 / h, x / 2 % h;
    assert x == q * p + (2 * r + x % 2) by {
      assert x / 2 == q * h + r;
      assert q * p == 2 * (q * h);
    }
    RemainderUnique(x, p, q, 2 * r + x % 2);
  }

  lemma {:induction false} RemainderUnique(x: nat, p: nat, q: int, r: nat)
    requires r < p && x == q * p + r
    ensures x % p == r && x / p == q
  {
    var d := x / p - q;
    assert d * p == r - x % p by {
      assert x == (x / p) * p + x % p;
      assert d * p == (x / p) * p - q * p;
    }
    if d != 0 {
      NonZeroMultiple(d, p);
    }
  }

  lemma NextMultiple(a: int, b: int, p: nat)
    requires a > b
    ensures a * p >= b * p + p
  {
    var d: nat := a - b - 1;
    assert d * p >= 0;
    assert a * p == (b + 1 + d) * p == b * p + p + d * p;
  }

  lemma NonZeroMultiple(d: int, p: int)
    requires d != 0 && p >= 0
    ensures d * p >= p || d * p <= -p
  {
    if d > 0 {
      assert (d - 1) * p >= 0;
    } else {
      assert (-d - 1) * p >= 0;
    }
  }

  /** In a word of any width w, masking with ~(p - 1) rounds down to a multiple of p. */
  lemma {:induction false} MaskAtWidth(x: nat, w: nat, p: nat)
    requires PowerOfTwo(w) && PowerOfTwo(p) && p <= w && x < w
    ensures BitAnd(x, w - p) == Floor(x, p)
    decreases w, 1
  {
    if w == p {
      RemainderUnique(x, p, 0, x);
    } else if p == 1 {
      AllOnes(x, w);
      RemainderUnique(x, 1, x, 0);
    } else {
      HalvesOrdered(w, p);
      MaskHalf(x, w, p);
    }
  }

  lemma {:induction false} MaskHalf(x: nat, w: nat, p: nat)
    requires PowerOfTwo(w) && PowerOfTwo(p) && 1 < p <= w && x < w
    requires w == 2 * (w / 2) && p == 2 * (p / 2) && p / 2 <= w / 2
    ensures BitAnd(x, w - p) == Floor(x, p)
    decreases w, 0
  {
    MaskAtWidth(x / 2, w / 2, p / 2);
    AndDigit(x, w / 2 - p / 2, 0);
    HalfOfFloor(x, p);
  }

  lemma {:induction false} AllOnes(x: nat, w: nat)
    requires PowerOfTwo(w) && x < w
    ensures BitAnd(x, w - 1) == x
    decreases w
  {
    if w <= 1 {
    } else {
      AllOnes(x / 2, w / 2);
      AndDigit(x, w / 2 - 1, 1);
    }
  }

  lemma AndDigit(x: nat, b: nat, d: nat)
    requires d < 2
    ensures BitAnd(x, 2 * b + d) == (if d == 1 then x % 2 else 0) + 2 * BitAnd(x / 2, b)
  {
    assert (2 * b + d) / 2 == b && (2 * b + d) % 2 == d;
  }

  lemma HalvesOrdered(w: nat, p: nat)
    requires PowerOfTwo(w) && PowerOfTwo(p) && p <= w && 1 < p
    ensures w == 2 * (w / 2) && p == 2 * (p / 2) && p / 2 <= w / 2
    ensures PowerOfTwo(w / 2) && PowerOfTwo(p / 2)
  {
  }

  lemma {:induction false} PowersDivide(w: nat, p: nat)
    requires PowerOfTwo(w) && PowerOfTwo(p) && p <= w
    ensures w % p == 0
  {
    if p == 1 {
      assert w % 1 == 0;
    } else {
      PowersDivide(w / 2, p / 2);
      HalfOfFloor(w, p);
      assert Floor(w, p) == w;
    }
  }

  lemma U64IsPowerOfTwo()
    ensures PowerOfTwo(U64)
  {
    EightTimesDoubled(1);
    EightTimesDoubled(0x100);
    EightTimesDoubled(0x1_0000);
    EightTimesDoubled(0x100_0000);
    EightTimesDoubled(0x1_0000_0000);
    EightTimesDoubled(0x100_0000_0000);
    EightTimesDoubled(0x1_0000_0000_0000);
    EightTimesDoubled(0x100_0000_0000_0000);
  }

  lemma Doubled(n: nat)
    requires PowerOfTwo(n)
    ensures PowerOfTwo(2 * n)
  {
    assert 2 * n / 2 == n;
  }

  lemma EightTimesDoubled(n: nat)
    requires PowerOfTwo(n)
    ensures PowerOfTwo(0x100 * n)
  {
    hide PowerOfTwo;
    Doubled(n);
    Doubled(2 * n);
    Doubled(4 * n);
    Doubled(8 * n);
    Doubled(0x10 * n);
    Doubled(0x20 * n);
    Doubled(0x40 * n);
    Doubled(0x80 * n);
  }

  lemma MaskU64(x: nat, p: nat)
    requires x < U64 && PowerOfTwo(p) && p <= U64
    ensures BitAnd(x, U64 - p) == Floor(x, p)
  {
    U64IsPowerOfTwo();
    MaskAtWidth(x, U64, p);
  }

  /** Wrap-around of unsigned 64-bit arithmetic. */
  function Wrap(x: int): (r: nat)
    ensures r < U64
    ensures 0 <= x < U64 ==> r == x
  {
    x % U64
  }

  /** What the source writes as `x & ~(p - 1)`. */
  function Mask(x: nat, p: nat): (r: nat)
    requires x < U64 && 0 < p <= U64
    ensures r <= x
  {
    BitAnd(x, BitNot(p - 1))
  }

  lemma MaskIsFloor(x: nat, p: nat)
    requires x < U64 && PowerOfTwo(p) && p <= U64
    ensures Mask(x, p) == Floor(x, p)
  {
    MaskU64(x, p);
  }
}
