// Machine words: 64-bit wrap-around, the signed difference, and bitwise AND.
module Words {
  import opened Arith

  const WORD: int := 0x1_0000_0000_0000_0000
  const HALF: int := 0x8000_0000_0000_0000

  type Word = x: int | 0 <= x < WORD

  function Wrap(x: int): Word {
    x % WORD
  }

  // (intptr_t)w
  function ToSigned(w: Word): int {
    if w < HALF then w else w - WORD
  }

  // The two's complement difference of two words, read as signed.
  function SignedDiff(a: Word, b: Word): int {
    ToSigned(Wrap(a - b))
  }

  // The signed difference of two wrapped counters is their true difference
  // exactly when that fits a signed word.
  lemma SignedDiffExact(x: int, y: int)
    ensures SignedDiff(Wrap(x), Wrap(y)) == x - y <==> -HALF <= x - y < HALF
  {
    WrapDiff(x, y);
    if -HALF <= x - y < 0 {
      ModShift(x - y, 1, WORD);
      SmallMod(x - y + WORD, WORD);
    } else if 0 <= x - y < HALF {
      SmallMod(x - y, WORD);
    }
  }

  lemma WrapDiff(x: int, y: int)
    ensures Wrap(Wrap(x) - Wrap(y)) == Wrap(x - y)
  {
    DivMod(x, WORD);
    DivMod(y, WORD);
    ModShift(x - y, y / WORD - x / WORD, WORD);
  }

  // Wrapped counters less than a whole word range apart compare equal only when
  // they are equal.
  lemma WrapEqual(x: int, y: int)
    requires y <= x < y + WORD
    ensures Wrap(x) == Wrap(y) <==> x == y
  {
    if Wrap(x) == Wrap(y) {
      SameMod(y, x, WORD);
    }
  }

  lemma WrapAdd(x: int, k: int)
    ensures Wrap(Wrap(x) + k) == Wrap(x + k)
  {
    DivMod(x, WORD);
    ModShift(x + k, -(x / WORD), WORD);
  }

  // ------------------------------------------------------------- bitwise AND

  function And(x: nat, y: nat): (r: nat)
    ensures r <= y
    decreases x
  {
    if x == 0 then 0 else (if x % 2 == 1 && y % 2 == 1 then 1 else 0) + 2 * And(x / 2, y / 2)
  }

  function Pow2(k: nat): (r: nat)
    ensures r >= 1
  {
    if k == 0 then 1 else 2 * Pow2(k - 1)
  }

  ghost predicate IsPow2(c: int) {
    exists k: nat :: c == Pow2(k)
  }

  lemma HalfMod(x: nat, p: nat)
    requires p > 0
    ensures x % (2 * p) == 2 * (x / 2 % p) + x % 2
  {
    DivMod(x / 2, p);
    var q, r := x / 2 / p, x / 2 % p;
    assert q * (2 * p) == 2 * (q * p);
    DivUnique(x, q, 2 * r + x % 2, 2 * p);
  }

  // Masking with 2^k - 1 keeps the remainder.
  lemma {:induction false} AndMask(x: nat, k: nat)
    ensures And(x, Pow2(k) - 1) == x % Pow2(k)
  {
    if k == 0 {
      AndZero(x);
    } else if x > 0 {
      AndMask(x / 2, k - 1);
      HalfMod(x, Pow2(k - 1));
      assert (Pow2(k) - 1) / 2 == Pow2(k - 1) - 1 && (Pow2(k) - 1) % 2 == 1;
    } else {
      SmallMod(0, Pow2(k));
    }
  }

  lemma {:induction false} AndZero(x: nat)
    ensures And(x, 0) == 0
  {
  }

  lemma {:induction false} AndSelf(x: nat)
    ensures And(x, x) == x
  {
    if x > 0 { AndSelf(x / 2); }
  }

  // The usual test for a power of two is exact.
  lemma {:induction false} PowerOfTwoTest(c: nat)
    requires c > 0
    ensures And(c, c - 1) == 0 <==> IsPow2(c)
  {
    if c % 2 == 1 {
      AndSelf(c / 2);
      assert (c - 1) / 2 == c / 2;
      OddPow2(c);
    } else {
      PowerOfTwoTest(c / 2);
      assert (c - 1) / 2 == c / 2 - 1;
      EvenPow2(c);
    }
  }

  lemma OddPow2(c: nat)
    requires c % 2 == 1
    ensures IsPow2(c) <==> c == 1
  {
    assert Pow2(0) == 1;
    forall k: nat | c == Pow2(k)
      ensures k == 0
    {
    }
  }

  lemma EvenPow2(c: nat)
    requires c > 0 && c % 2 == 0
    ensures IsPow2(c) <==> IsPow2(c / 2)
  {
    if IsPow2(c) {
      var k: nat :| c == Pow2(k);
      assert c / 2 == Pow2(k - 1);
    }
    if IsPow2(c / 2) {
      var k: nat :| c / 2 == Pow2(k);
      assert c == Pow2(k + 1);
    }
  }

  lemma {:induction false} Pow2Mono(j: nat, k: nat)
    requires j < k
    ensures 2 * Pow2(j) <= Pow2(k)
    decreases k
  {
    if j < k - 1 { Pow2Mono(j, k - 1); }
  }

  lemma {:induction false} Pow2Add(j: nat, k: nat)
    ensures Pow2(j + k) == Pow2(j) * Pow2(k)
  {
    if j > 0 {
      Pow2Add(j - 1, k);
      assert 2 * (Pow2(j - 1) * Pow2(k)) == 2 * Pow2(j - 1) * Pow2(k);
    }
  }

  lemma WordIsPow2()
    ensures Pow2(64) == WORD
  {
    assert Pow2(4) == 16;
    Pow2Add(4, 4);
    Pow2Add(8, 8);
    Pow2Add(16, 16);
    Pow2Add(32, 32);
  }

  // A power of two below 2^64 divides it, so wrapping keeps remainders.
  lemma WrapMod(x: int, c: int)
    requires 0 < c < WORD && IsPow2(c)
    ensures Wrap(x) % c == x % c
  {
    var k: nat :| c == Pow2(k);
    WordIsPow2();
    if k > 64 { Pow2Mono(64, k); }
    Pow2Add(64 - k, k);
    DivMod(x, WORD);
    ModMultiple(Wrap(x), x / WORD, Pow2(64 - k), c);
  }

  lemma ModMultiple(x: int, a: int, m: int, c: int)
    requires c > 0
    ensures (x + a * (m * c)) % c == x % c
  {
    assert a * (m * c) == (a * m) * c;
    ModShift(x, a * m, c);
  }

  // pos & slot_mask picks the slot of the unbounded position.
  lemma MaskedSlot(x: int, c: int)
    requires 0 < c < WORD && IsPow2(c)
    ensures And(Wrap(x), c - 1) == x % c
  {
    var k: nat :| c == Pow2(k);
    AndMask(Wrap(x), k);
    WrapMod(x, c);
  }

  // -------------------------------------------------------- ALIGN_UP_SAFE

  // (x + a - 1) & ~(a - 1)
  function AlignUp(x: Word, a: Word): Word
    requires a > 0
  {
    And(Wrap(x + a - 1), WORD - 1 - (a - 1))
  }

  lemma HalfMask(n: nat, k: nat)
    requires 0 < k <= n && Pow2(k) <= Pow2(n)
    ensures Pow2(k - 1) <= Pow2(n - 1)
    ensures (Pow2(n) - Pow2(k)) / 2 == Pow2(n - 1) - Pow2(k - 1) && (Pow2(n) - Pow2(k)) % 2 == 0
  {
  }

  lemma {:induction false} AndHighMask(x: nat, n: nat, k: nat)
    requires k <= n && x < Pow2(n) && Pow2(k) <= Pow2(n)
    ensures And(x, Pow2(n) - Pow2(k)) == x - x % Pow2(k)
    decreases k
  {
    if k == 0 {
      AndMask(x, n);
      SmallMod(x, Pow2(n));
    } else if x > 0 {
      AndHighMask(x / 2, n - 1, k - 1);
      HalfMod(x, Pow2(k - 1));
      HalfMask(n, k);
    } else {
      SmallMod(0, Pow2(k));
    }
  }

  // Without overflow ALIGN_UP_SAFE rounds up to a multiple.
  lemma AlignUpRounds(x: Word, a: Word)
    requires IsPow2(a) && x + a - 1 < WORD
    ensures AlignUp(x, a) % a == 0
    ensures x <= AlignUp(x, a) < x + a
  {
    var k: nat :| a == Pow2(k);
    WordIsPow2();
    if k > 64 { Pow2Mono(64, k); }
    var y := x + a - 1;
    SmallMod(y, WORD);
    AndHighMask(y, 64, k);
    DivMod(y, a);
    DivUnique(AlignUp(x, a), y / a, 0, a);
  }

  // No multiple lies between x and its rounding.
  lemma AlignUpLeast(x: Word, a: Word, m: int)
    requires IsPow2(a) && x + a - 1 < WORD && x <= m && m % a == 0
    ensures AlignUp(x, a) <= m
  {
    AlignUpRounds(x, a);
    if m < AlignUp(x, a) { SameMod(m, AlignUp(x, a), a); }
  }
}
