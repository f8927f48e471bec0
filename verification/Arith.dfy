// Division with remainder, for a divisor that is not a constant.
module Arith {

  lemma MulMono(a: int, b: int, d: int)
    requires a <= b && d >= 0
    ensures a * d <= b * d
    decreases b - a
  {
    if a < b {
      MulMono(a, b - 1, d);
      assert b * d == (b - 1) * d + d;
    }
  }

  // Quotient and remainder are unique.
  lemma DivUnique(x: int, q: int, r: int, d: int)
    requires d > 0 && 0 <= r < d && x == q * d + r
    ensures x / d == q && x % d == r
  {
    var a, b := x / d, x % d;
    DivMod(x, d);
    assert (q - a) * d == q * d - a * d == b - r;
    if q - a >= 1 { MulMono(1, q - a, d); }
    if q - a <= -1 { MulMono(q - a, -1, d); }
  }

  lemma DivMod(x: int, d: int)
    requires d > 0
    ensures x == x / d * d + x % d && 0 <= x % d < d
  {
  }

  lemma ModShift(x: int, k: int, d: int)
    requires d > 0
    ensures (x + k * d) % d == x % d
  {
    DivMod(x, d);
    assert x + k * d == (x / d + k) * d + x % d by { Distribute(x / d, k, d); }
    DivUnique(x + k * d, x / d + k, x % d, d);
  }

  lemma Distribute(a: int, b: int, d: int)
    ensures (a + b) * d == a * d + b * d
  {
  }

  lemma SmallMod(x: int, d: int)
    requires 0 <= x < d
    ensures x % d == x
  {
    DivUnique(x, 0, x, d);
  }

  // Equal remainders: the difference is a multiple of the divisor.
  lemma SameMod(x: int, y: int, d: int)
    requires d > 0 && x % d == y % d && x <= y
    ensures x == y || x + d <= y
  {
    DivMod(x, d);
    DivMod(y, d);
    var a, b := x / d, y / d;
    assert y - x == b * d - a * d;
    if b > a { MulMono(a + 1, b, d); Distribute(a, 1, d); }
    if b < a { MulMono(b, a - 1, d); Distribute(a, -1, d); }
  }
}
