/** Bitwise operations on natural numbers, bit by bit, and the arithmetic they amount to
    on the masks and disjoint fields that the channel core uses. */
module Bits {

  function And(a: nat, b: nat): nat {
    if a == 0 || b == 0 then 0
    else 2 * And(a / 2, b / 2) + (if a % 2 == 1 && b % 2 == 1 then 1 else 0)
  }

  function Or(a: nat, b: nat): nat
    decreases a + b
  {
    if a == 0 && b == 0 then 0
    else 2 * Or(a / 2, b / 2) + (if a % 2 == 1 || b % 2 == 1 then 1 else 0)
  }

  /** The powers of two up to 64. */
  predicate SmallPower(m: nat) {
    m == 1 || m == 2 || m == 4 || m == 8 || m == 16 || m == 32 || m == 64
  }

  // A mask of ones keeps the low bits.
  lemma {:induction false} AndMask(a: nat, m: nat)
    requires SmallPower(m)
    ensures And(a, m - 1) == a % m
    decreases m
  {
    if m > 1 {
      var k := m / 2;
      AndMask(a / 2, k);
      assert (m - 1) / 2 == k - 1 && (m - 1) % 2 == 1;
      assert And(a, m - 1) == 2 * And(a / 2, k - 1) + a % 2;
      ModDouble(a, k);
    }
  }

  // Fields that do not overlap are joined by addition.
  lemma {:induction false} OrDisjoint(a: nat, b: nat, m: nat)
    requires SmallPower(m) && a % m == 0 && b < m
    ensures Or(a, b) == a + b
    decreases m
  {
    if m == 1 {
      OrZero(a);
    } else {
      ModDouble(a, m / 2);
      OrDisjoint(a / 2, b / 2, m / 2);
    }
  }

  lemma ModDouble(a: nat, m: nat)
    requires m > 0
    ensures a % (2 * m) == 2 * (a / 2 % m) + a % 2
  {
    var h, n := a / 2, 2 * m;
    var q, s := h / m, h % m;
    assert n * q == 2 * (m * q);
    RemainderIs(a, n, q, 2 * s + a % 2);
  }

  lemma RemainderIs(a: nat, n: nat, q: nat, r: nat)
    requires r < n && a == n * q + r
    ensures a % n == r && a / n == q
  {
    QuotientIsUnique(n, a / n, a % n, q, r);
  }

  lemma QuotientIsUnique(m: nat, q: nat, r: nat, q': nat, r': nat)
    requires r < m && r' < m && m * q + r == m * q' + r'
    ensures q == q' && r == r'
  {
    if q < q' {
      MulMonotone(m, q + 1, q');
    } else if q' < q {
      MulMonotone(m, q' + 1, q);
    }
  }

  lemma MulMonotone(m: nat, a: nat, b: nat)
    requires a <= b
    ensures m * a <= m * b
  {
  }

  lemma {:induction false} OrZero(a: nat)
    ensures Or(a, 0) == a
  {
    if a > 0 {
      OrZero(a / 2);
    }
  }
}

/** Arithmetic of words laid out as fields. */
module Fields {
  import opened Bits

  // The fields of a word laid out as one-bit fields below a count.
  lemma FieldsOf(c: nat, e: nat, d: nat, n: nat)
    requires c <= 1 && e <= 1 && d <= 1
    ensures var w := c + 2 * e + 4 * d + 8 * n;
            w % 2 == c && w / 2 % 2 == e && w / 4 % 2 == d && w / 8 == n
  {
    var w := c + 2 * e + 4 * d + 8 * n;
    assert w / 2 == e + 2 * (d + 2 * n);
    assert w / 4 == d + 2 * n;
  }

  // The fields of a word laid out below a position.
  lemma PositionFieldsOf(p: nat, c: nat)
    ensures c < 64 ==> (p * 64 + c) / 64 == p
    ensures c < 32 ==> (p * 32 + c) / 32 == p
    ensures c <= 1 ==> (p * 64 + c) % 2 == c && (p * 32 + c) % 2 == c
  {
    if c <= 1 {
      Parity(p * 32, c);
      Parity(p * 16, c);
    }
  }

  // Adding a whole lap of 64 or of 32 slots.
  lemma LapsOn(v: nat)
    ensures (v + 63 * 64) / 64 == v / 64 + 63 && (v + 31 * 32) / 32 == v / 32 + 31
  {
  }

  lemma Parity(k: nat, c: nat)
    requires c <= 1
    ensures (2 * k + c) % 2 == c
  {
  }

  lemma SmallRemainder(x: nat, m: nat)
    requires x < m
    ensures x % m == x
  {
  }

  lemma NextRemainder(x: nat, m: nat)
    requires m > 1
    ensures (x % m + 1) % m == (x + 1) % m
  {
    var q, r := x / m, x % m;
    assert x == m * q + r;
    if r + 1 < m {
      RemainderIs(x + 1, m, q, r + 1);
      SmallRemainder(r + 1, m);
    } else {
      MulNext(m, q);
      RemainderIs(x + 1, m, q + 1, 0);
      RemainderIs(r + 1, m, 1, 0);
    }
  }

  lemma MulNext(m: nat, q: nat)
    ensures m * (q + 1) == m * q + m
  {
  }

  // Shifting a position into a 16-bit word loses it only when it is the first one too large.
  lemma ShiftedPosition(p: nat)
    ensures p <= 1024 ==> p * 64 % 0x1_0000 == if p == 1024 then 0 else p * 64
    ensures p <= 2048 ==> p * 32 % 0x1_0000 == if p == 2048 then 0 else p * 32
  {
    if p < 1024 {
      SmallRemainder(p * 64, 0x1_0000);
    }
    if p < 2048 {
      SmallRemainder(p * 32, 0x1_0000);
    }
  }

  // Positions less than a lap apart use different slots, positions a lap apart the same one.
  lemma Laps(p: nat, d: nat, m: nat)
    requires d <= m && m > 0
    ensures 0 < d < m ==> p % m != (p + d) % m
    ensures d == m ==> (p + d) % m == p % m
  {
    var q, r := p / m, p % m;
    if r + d < m {
      RemainderIs(p + d, m, q, r + d);
    } else {
      assert m * (q + 1) == m * q + m;
      RemainderIs(p + d, m, q + 1, r + d - m);
    }
  }

  // Every residue occurs among `m` consecutive positions.
  lemma Occurrence(p: nat, from: nat, m: nat) returns (q: nat)
    requires m > 0
    ensures from <= q < from + m && q % m == p % m
  {
    var a, r := from / m, p % m;
    assert from == m * a + from % m;
    q := m * a + r;
    RemainderIs(q, m, a, r);
    if q < from {
      Laps(q, m, m);
      q := q + m;
    }
  }
}
