// Big-endian byte strings: Python's `int.to_bytes(n, byteorder="big")` and the
// shift-and-OR accumulation that reads them back.
module Bytes {
  import opened Errors

  type byte = x: int | 0 <= x < 256

  function Pow256(n: nat): (p: nat)
    ensures p >= 1
  {
    if n == 0 then 1 else 256 * Pow256(n - 1)
  }

  /** The ranges of one-, two- and three-byte registers. */
  lemma Pow256Values()
    ensures Pow256(1) == 0x100 && Pow256(2) == 0x1_0000 && Pow256(3) == 0x100_0000
  {
    assert Pow256(1) == 0x100;
    assert Pow256(2) == 0x1_0000;
  }

  /** The number whose big-endian bytes are `s` (most significant first). */
  function Decode(s: seq<byte>): (v: nat)
    ensures v < Pow256(|s|)
  {
    if s == [] then 0 else Decode(s[..|s| - 1]) * 256 + s[|s| - 1]
  }

  /** The `n` big-endian bytes of `v`; defined only when `v` fits. */
  function Encode(v: nat, n: nat): (s: seq<byte>)
    requires v < Pow256(n)
    ensures |s| == n
  {
    if n == 0 then [] else Encode(v / 256, n - 1) + [v % 256]
  }

  function Zeros(n: nat): (s: seq<byte>)
    ensures |s| == n && forall i :: 0 <= i < n ==> s[i] == 0
  {
    seq(n, _ => 0)
  }

  /** `value.to_bytes(n, byteorder="big")`: raises OverflowError for a negative
      value and for one that needs more than `n` bytes. */
  function ToBytes(value: int, n: nat): (r: Result<seq<byte>>)
    ensures r.Success? <==> 0 <= value < Pow256(n)
    ensures r.Success? ==> |r.value| == n && Decode(r.value) == value
    ensures r.Failure? ==> r.error == OverflowError
  {
    if 0 <= value < Pow256(n) then
      DecodeEncode(value, n);
      Success(Encode(value, n))
    else Failure(OverflowError)
  }

  /** Reading back what was encoded gives the value. */
  lemma {:induction false} DecodeEncode(v: nat, n: nat)
    requires v < Pow256(n)
    ensures Decode(Encode(v, n)) == v
  {
    if n > 0 {
      var s := Encode(v, n);
      assert s[..n - 1] == Encode(v / 256, n - 1);
      DecodeEncode(v / 256, n - 1);
    }
  }

  /** Encoding what was decoded gives the bytes back. */
  lemma {:induction false} EncodeDecode(s: seq<byte>)
    ensures Encode(Decode(s), |s|) == s
  {
    if s != [] {
      var init := s[..|s| - 1];
      EncodeDecode(init);
      assert Decode(s) / 256 == Decode(init);
      assert s == init + [s[|s| - 1]];
    }
  }

  /** `(0).to_bytes(n)`: the padding a read request sends. */
  lemma {:induction false} EncodeZero(n: nat)
    ensures Encode(0, n) == Zeros(n)
  {
    if n > 0 {
      EncodeZero(n - 1);
    }
  }

}
