// Integer bit operations as Python performs them on non-negative ints:
// powers of two, masking with 2^w - 1, single-bit tests and bitwise OR.
module Bits {

  function Pow2(k: nat): (p: nat)
    ensures p >= 1
  {
    if k == 0 then 1 else 2 * Pow2(k - 1)
  }

  /** `x & mask` for a mask of the form 2^w - 1, the only masks the driver uses:
      for such masks two's-complement AND is the Euclidean remainder, so this
      holds for negative `x` too. */
  function AndMask(x: int, mask: nat): (m: nat)
    ensures m <= mask
  {
    x % (mask + 1)
  }

  /** The value of a flag placed in bit 0. */
  function Flag(b: bool): nat {
    if b then 1 else 0
  }

  /** `v & bit != 0` for a single-bit mask `bit`. */
  predicate BitSet(v: nat, bit: nat)
    requires bit > 0
  {
    (v / bit) % 2 == 1
  }

  /** Reading a single bit back as a flag. */
  lemma FlagOfBitSet(v: nat, bit: nat)
    requires bit > 0
    ensures Flag(BitSet(v, bit)) == (v / bit) % 2
  {
  }

  /** A bit read as a flag gives the flag back. */
  lemma BitOfFlag(v: nat, bit: nat, b: bool)
    requires bit > 0 && (v / bit) % 2 == Flag(b)
    ensures BitSet(v, bit) == b
  {
  }

  /** The powers the driver's shifts use. */
  lemma Pow2Values()
    ensures Pow2(2) == 4 && Pow2(3) == 8 && Pow2(5) == 0x20 && Pow2(6) == 0x40
    ensures Pow2(7) == 0x80 && Pow2(8) == 0x100 && Pow2(9) == 0x200 && Pow2(10) == 0x400
    ensures Pow2(11) == 0x800 && Pow2(12) == 0x1000 && Pow2(13) == 0x2000 && Pow2(15) == 0x8000
    ensures Pow2(16) == 0x1_0000 && Pow2(17) == 0x2_0000 && Pow2(20) == 0x10_0000
    ensures Pow2(21) == 0x20_0000 && Pow2(24) == 0x100_0000
  {
    assert Pow2(4) == 16;
    assert Pow2(8) == 0x100;
    assert Pow2(12) == 0x1000;
    assert Pow2(16) == 0x1_0000;
    assert Pow2(20) == 0x10_0000;
  }

  /** Python's `a | b` on non-negative ints, bit by bit from the least significant. */
  function Or(a: nat, b: nat): (r: nat)
    ensures a <= r && b <= r && r <= a + b
    decreases a + b
  {
    if a == 0 then b
    else if b == 0 then a
    else 2 * Or(a / 2, b / 2) + (if a % 2 == 1 || b % 2 == 1 then 1 else 0)
  }

  /** OR-ing a field into bits that are all still clear adds it: the value so
      far is `h * 2^k` (no bit below position k) and the field `b` is below 2^k. */
  lemma {:induction false} OrDisjoint(h: nat, b: nat, k: nat)
    requires b < Pow2(k)
    ensures Or(h * Pow2(k), b) == h * Pow2(k) + b
  {
    if k == 0 {
      assert b == 0;
    } else {
      var x := h * Pow2(k - 1);
      assert h * Pow2(k) == 2 * x;
      if x != 0 && b != 0 {
        assert (2 * x) / 2 == x && (2 * x) % 2 == 0;
        assert b / 2 < Pow2(k - 1);
        OrDisjoint(h, b / 2, k - 1);
        assert Or(2 * x, b) == 2 * Or(x, b / 2) + b % 2;
      }
    }
  }

  /** The step `value |= field` of a packer: the bits so far are a multiple
      of the weight `p == 2^k` just above the field, so OR-ing adds. */
  lemma OrField(v: nat, h: nat, b: nat, p: nat, k: nat)
    requires p == Pow2(k) && v == h * p && b < p
    ensures Or(v, b) == v + b
  {
    OrDisjoint(h, b, k);
  }

  /** `value |= field` in a packer, where every bit already set in `value` is
      at weight `p == 2^k` or above and the field lies below it: the OR puts
      the field into clear bits, so it adds. */
  method OrInto(value: nat, field: nat, ghost h: nat, ghost p: nat, ghost k: nat) returns (r: nat)
    requires p == Pow2(k) && value == h * p && field < p
    ensures r == value + field
  {
    OrField(value, h, field, p, k);
    r := Or(value, field);
  }

  // ---------------------------------------------------------- bit fields

  lemma MulSign(a: int, p: nat)
    requires p > 0
    ensures a >= 1 ==> a * p >= p
    ensures a <= -1 ==> a * p + p <= 0
  {
  }

  /** Division by `p` undoes `x * p + lo` when `lo < p`. */
  lemma DivMulAdd(x: nat, lo: nat, p: nat)
    requires p > 0 && lo < p
    ensures (x * p + lo) / p == x && (x * p + lo) % p == lo
  {
    var w := x * p + lo;
    var d, r := w / p, w % p;
    assert w == d * p + r;
    assert (d - x) * p == lo - r;
    MulSign(d - x, p);
  }

  /** A word made of a high part, a field `f` of q values at weight p, and a low
      part below p: the field is read back as `(w / p) % q`. */
  lemma Field(w: nat, hi: nat, f: nat, lo: nat, p: nat, q: nat)
    requires p > 0 && q > 0 && f < q && lo < p && w == (hi * q + f) * p + lo
    ensures w / p == hi * q + f && (w / p) % q == f && w % p == lo && w / (p * q) == hi
  {
    DivMulAdd(hi * q + f, lo, p);
    DivMulAdd(hi, f, q);
    assert w == hi * (p * q) + (f * p + lo);
    assert f * p + lo < p * q by {
      MulSign(q - f, p);
    }
    DivMulAdd(hi, f * p + lo, p * q);
  }

  /** Euclidean division by a positive m. */
  lemma DivMod(x: nat, m: nat)
    requires m > 0
    ensures x == (x / m) * m + x % m && x % m < m
  {
  }

  /** A value below p * q holds fewer than q multiples of p. */
  lemma DivBelow(r: nat, p: nat, q: nat)
    requires p > 0 && r < p * q
    ensures r / p < q
  {
    var f := r / p;
    assert f * p <= r;
    assert (q - f) * p == q * p - f * p;
    MulSign(q - f, p);
  }

  /** Dividing by p and then by q is dividing by p * q. */
  lemma DivDiv(x: nat, p: nat, q: nat)
    requires p > 0 && q > 0
    ensures x / p / q == x / (p * q)
  {
    var hi, r := x / (p * q), x % (p * q);
    DivMod(x, p * q);
    var f, lo := r / p, r % p;
    DivMod(r, p);
    DivBelow(r, p, q);
    Regroup(hi, q, f, p, lo);
    Field(x, hi, f, lo, p, q);
    DivMulAdd(hi, f, q);
  }

  lemma Regroup(hi: int, q: int, f: int, p: int, lo: int)
    ensures hi * (p * q) + (f * p + lo) == (hi * q + f) * p + lo
  {
  }

  /** Conversely the bits of a word below weight p * q are its field of q values
      at weight p and the bits below p. */
  lemma ModSplit(w: nat, p: nat, q: nat)
    requires p > 0 && q > 0
    ensures w % (p * q) == ((w / p) % q) * p + w % p
  {
    var hi, r := w / (p * q), w % (p * q);
    DivMod(w, p * q);
    var f, lo := r / p, r % p;
    DivMod(r, p);
    DivBelow(r, p, q);
    Regroup(hi, q, f, p, lo);
    Field(w, hi, f, lo, p, q);
  }


}
