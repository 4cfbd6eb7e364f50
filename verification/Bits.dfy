/** Powers of two and bitwise exclusive-or on naturals: the fixed-width unsigned
    arithmetic of the C code, stated without bit-vectors. */
module Bits {

  function Pow2(n: nat): (r: nat)
    ensures r >= 1
  {
    if n == 0 then 1 else 2 * Pow2(n - 1)
  }

  /** Bitwise exclusive-or, one binary digit at a time. */
  function Xor(a: nat, b: nat): (r: nat)
    decreases a + b
  {
    if a == 0 && b == 0 then 0
    else (if a % 2 == b % 2 then 0 else 1) + 2 * Xor(a / 2, b / 2)
  }

  lemma {:induction false} Pow2Add(m: nat, n: nat)
    ensures Pow2(m + n) == Pow2(m) * Pow2(n)
  {
    if m == 0 {
    } else {
      Pow2Add(m - 1, n);
      assert Pow2(m + n) == 2 * Pow2(m - 1 + n);
    }
  }

  lemma {:induction false} Pow2Monotone(m: nat, n: nat)
    requires m <= n
    ensures Pow2(m) <= Pow2(n)
  {
    if m < n { Pow2Monotone(m, n - 1); }
  }

  /** Every operand undoes itself: what makes one Feistel round invertible. */
  lemma {:induction false} XorCancel(a: nat, b: nat)
    ensures Xor(Xor(a, b), b) == a
    decreases a + b
  {
    if a == 0 && b == 0 {
    } else {
      XorCancel(a / 2, b / 2);
      var x := Xor(a, b);
      assert x / 2 == Xor(a / 2, b / 2);
    }
  }

  lemma {:induction false} XorSwap(a: nat, b: nat)
    ensures Xor(a, b) == Xor(b, a)
    decreases a + b
  {
    if a != 0 || b != 0 { XorSwap(a / 2, b / 2); }
  }

  lemma {:induction false} XorBound(a: nat, b: nat, k: nat)
    requires a < Pow2(k) && b < Pow2(k)
    ensures Xor(a, b) < Pow2(k)
    decreases k
  {
    if k == 0 {
    } else {
      XorBound(a / 2, b / 2, k - 1);
    }
  }

  /** A remainder is unchanged by first reducing modulo a multiple of the modulus. */
  lemma ModMod(a: nat, m: nat, k: nat)
    requires m > 0 && k > 0
    ensures a % (m * k) % m == a % m
  {
    var q := a / (m * k);
    var r := a % (m * k);
    assert a == m * k * q + r;
    assert m * k * q == m * (k * q);
    ModUnique(a, m, k * q + r / m, r % m);
  }

  lemma ModUnique(a: nat, m: nat, q: int, r: nat)
    requires m > 0 && r < m && a == m * q + r
    ensures a % m == r && a / m == q
  {
    var d := a / m - q;
    assert m * d == r - a % m;
    MulMagnitude(m, d);
  }

  lemma MulMagnitude(m: int, d: int)
    requires m > 0
    ensures d >= 1 ==> m * d >= m
    ensures d <= -1 ==> m * d <= -m
  {
  }

  /** Two digits in base m. */
  lemma TwoDigits(m: nat, l: nat, r: nat)
    requires l < m && r < m
    ensures l * m + r < m * m
    ensures (l * m + r) / m == l && (l * m + r) % m == r
  {
    MulAtMost(l, m - 1, m);
    ModUnique(l * m + r, m, l, r);
  }

  lemma MulAtMost(a: int, b: int, m: nat)
    requires a <= b
    ensures a * m <= b * m
  {
  }

  lemma LowDigits(m: nat, n: nat)
    requires m > 0
    ensures m * m > 0
    ensures n / m % m * m + n % m == n % (m * m)
  {
    hide *;
    var q := n / m;
    var l, r, k := q % m, n % m, q / m;
    DivMod(n, m);
    DivMod(q, m);
    TwoDigits(m, l, r);
    Expand(m, k, l);
    ModUnique(n, m * m, k, l * m + r);
  }

  lemma DivMod(n: nat, m: nat)
    requires m > 0
    ensures n == m * (n / m) + n % m && m * m > 0
  {
  }

  lemma Expand(m: nat, k: int, l: int)
    ensures m * (m * k + l) == m * m * k + l * m
  {
  }

  lemma ModStep(t: nat, n: nat)
    requires n > 0
    ensures (t + 1) % n == if t % n == n - 1 then 0 else t % n + 1
  {
    if t % n == n - 1 {
      assert t + 1 == n * (t / n) + n == n * (t / n + 1) by { MulAtMost(t / n, t / n, n); }
      ModUnique(t + 1, n, t / n + 1, 0);
    } else {
      ModUnique(t + 1, n, t / n, t % n + 1);
    }
  }

  lemma ModShift(t: nat, n: nat, q: nat)
    requires n > 0
    ensures (t + n * q) % n == t % n
  {
    Distribute(n, t / n, q);
    ModUnique(t + n * q, n, t / n + q, t % n);
  }

  lemma Distribute(n: int, a: int, b: int)
    ensures n * a + n * b == n * (a + b)
  {
  }

  /** Two naturals less than n apart with the same remainder are equal. */
  lemma SameRemainder(i: nat, j: nat, n: nat)
    requires n > 0 && i <= j < i + n && i % n == j % n
    ensures i == j
  {
    Distribute(n, i / n, j / n - i / n);
    assert j - i == n * (j / n - i / n);
    MulMagnitude(n, j / n - i / n);
  }

  /** Every remainder occurs in every window of n consecutive naturals. */
  lemma RemainderInWindow(t: nat, n: nat, r: nat) returns (i: nat)
    requires r < n
    ensures t <= i < t + n && i % n == r
  {
    var k := t % n;
    if r >= k {
      i := t + (r - k);
      ModUnique(i, n, t / n, r);
    } else {
      i := t + (n - k) + r;
      Distribute(n, t / n, 1);
      ModUnique(i, n, t / n + 1, r);
    }
  }

  lemma WordPowers()
    ensures Pow2(16) == 0x1_0000 && Pow2(31) == 0x8000_0000 && Pow2(32) == 0x1_0000_0000
  {
    assert Pow2(8) == 256 by { assert Pow2(4) == 16; Pow2Add(4, 4); }
    Pow2Add(8, 8);
    Pow2Add(16, 16);
    assert Pow2(32) == 2 * Pow2(31);
  }

  /** A power of two divides every larger one. */
  lemma Pow2Divides(m: nat, n: nat)
    requires m <= n
    ensures Pow2(n) % Pow2(m) == 0
  {
    Pow2Add(m, n - m);
    ModUnique(Pow2(n), Pow2(m), Pow2(n - m), 0);
  }
}
