/** Machine integers as the compiler and the target see them: 32-bit
    two's-complement values, C++ division truncating toward zero, and the
    wrap-around the target's `add`, `sub` and `mult`/`mflo` perform. */
module Int32 {

  const Modulus: int := 0x1_0000_0000
  const MinInt: int := -0x8000_0000
  const MaxInt: int := 0x7FFF_FFFF

  predicate InRange(x: int) { MinInt <= x <= MaxInt }

  /** The 32-bit two's-complement value congruent to x. */
  function Wrap(x: int): (r: int)
    ensures InRange(r)
    ensures (x - r) % Modulus == 0
    ensures InRange(x) ==> r == x
  {
    var m := x % Modulus;
    if m > MaxInt then m - Modulus else m
  }

  function Abs(x: int): (r: int)
    ensures r >= 0
  {
    if x < 0 then -x else x
  }

  /** C++ `/` on int: the quotient truncated toward zero. */
  function Quot(a: int, b: int): int
    requires b != 0
  {
    var q := Abs(a) / Abs(b);
    if (a < 0) == (b < 0) then q else -q
  }

  /** C++ `%` on int: what is left after the truncated quotient. */
  function Rem(a: int, b: int): int
    requires b != 0
  {
    a - b * Quot(a, b)
  }

  /** The guarantees C++ gives for `/` and `%`: the remainder is smaller
      than the divisor in magnitude and takes the sign of the dividend. */
  lemma QuotRem(a: int, b: int)
    requires b != 0
    ensures a == b * Quot(a, b) + Rem(a, b)
    ensures Abs(Rem(a, b)) < Abs(b)
    ensures Rem(a, b) == 0 || ((Rem(a, b) < 0) <==> (a < 0))
    ensures Abs(Quot(a, b)) * Abs(b) <= Abs(a)
  {
    var q := Abs(a) / Abs(b);
    var m := Abs(a) % Abs(b);
    DivMod(Abs(a), Abs(b));
    var p := Abs(b) * q;
    assert b * Quot(a, b) == (if a < 0 then -p else p) by {
      SignedProduct(b, q, (a < 0) == (b < 0));
    }
    assert Rem(a, b) == (if a < 0 then -m else m);
  }

  lemma DivMod(x: int, y: int)
    requires x >= 0 && y > 0
    ensures x == y * (x / y) + x % y && 0 <= x % y < y && 0 <= x / y
  {
  }

  /** b times the quotient magnitude, with its sign. */
  lemma SignedProduct(b: int, q: int, same: bool)
    requires b != 0
    ensures b * (if same then q else -q) == (if same == (b < 0) then -(Abs(b) * q) else Abs(b) * q)
  {
    if b < 0 {
      assert b == -Abs(b);
      Negate(Abs(b), q);
      if !same {
        Negate(-Abs(b), q);
      }
    } else if !same {
      Negate(q, b);
    }
  }

  lemma Negate(x: int, y: int)
    ensures (-x) * y == -(x * y) && x * (-y) == -(x * y)
  {
  }

  /** Truncation differs from Dafny's own (Euclidean) division exactly on a
      negative dividend that the divisor does not divide. */
  lemma TruncatedExample()
    ensures Quot(-7, 2) == -3 && Rem(-7, 2) == -1
    ensures -7 / 2 == -4 && -7 % 2 == 1
  {
  }
}
