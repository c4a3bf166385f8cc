/** Multiples and remainders. */
module Arithmetic {

  /** Zero is the only multiple of `n` closer than `n` to zero. */
  lemma SmallMultiple(n: int, d: int)
    requires n > 0 && -n < n * d < n
    ensures d == 0
  {
  }

  lemma ShiftMod(n: int, i: int, k: int)
    requires n > 0 && 0 <= i < n
    ensures (i + n * k) % n == i
  {
    var q := (i + n * k) / n;
    var r := (i + n * k) % n;
    assert i + n * k == n * q + r;
    assert n * (k - q) == r - i;
    SmallMultiple(n, k - q);
  }

  lemma MultipleMod(n: int, k: int)
    requires n > 0
    ensures (n * k) % n == 0
  {
    ShiftMod(n, 0, k);
  }

  lemma NoMultipleBetween(n: int, a: int, b: int)
    requires n > 0 && -n < n * a - n * b < n
    ensures a == b
  {
    assert n * a - n * b == n * (a - b);
    SmallMultiple(n, a - b);
  }

  lemma ScaleMonotone(x: int, y: int, b: int)
    requires x <= y && b >= 0
    ensures x * b <= y * b
  {
  }

  lemma PositiveFactor(x: int, b: int)
    requires b > 0 && x * b > 0
    ensures x > 0
  {
  }

  lemma Distribute(p: int, a: int, b: int)
    ensures p * (a + b) == p * a + p * b
  {
  }
}
