/**
 * Bytes and the big-endian unsigned integers of `struct.pack('>H')` and
 * `struct.pack('>Q')`, and the socket reads the server performs.
 */
module Bytes {

  /**
   * An element of a Python `bytes` object: an int from 0 to 255. The
   * bitwise operators the server applies to bytes are defined on these
   * ints below.
   */
  newtype byte = x: int | 0 <= x < 256

  /** 256 to the power `k`: the number of values `k` bytes can hold. */
  function Pow256(k: nat): (r: nat)
    ensures r >= 1
  {
    if k == 0 then 1 else 256 * Pow256(k - 1)
  }

  /** The unsigned integer whose big-endian encoding is `bs`. */
  function FromBigEndian(bs: seq<byte>): (n: nat)
    ensures n < Pow256(|bs|)
  {
    if bs == [] then 0
    else FromBigEndian(bs[..|bs| - 1]) * 256 + bs[|bs| - 1] as nat
  }

  /**
   * `struct.pack('>...', n)` with a `width`-byte field: the big-endian
   * bytes of `n`, which read back as `n`.
   */
  function ToBigEndian(n: nat, width: nat): (bs: seq<byte>)
    requires n < Pow256(width)
    ensures |bs| == width
    ensures FromBigEndian(bs) == n
  {
    if width == 0 then []
    else
      DivMod256(n, Pow256(width - 1));
      var high := ToBigEndian(n / 256, width - 1);
      var low := (n % 256) as byte;
      AppendByte(high, low);
      high + [low]
  }

  lemma AppendByte(bs: seq<byte>, b: byte)
    ensures FromBigEndian(bs + [b]) == FromBigEndian(bs) * 256 + b as nat
  {
    assert (bs + [b])[..|bs|] == bs;
  }

  lemma DivMod256(n: nat, p: nat)
    requires n < 256 * p
    ensures n / 256 < p
    ensures n == (n / 256) * 256 + n % 256
  {
  }

  /** Two to the power `k`. */
  function Pow2(k: nat): (r: nat)
    ensures r >= 1
  {
    if k == 0 then 1 else 2 * Pow2(k - 1)
  }

  /**
   * `a ^ b` on the lowest `k` bits: the lowest bit is set where exactly
   * one of the two lowest bits is, and the higher bits are those of
   * `a // 2 ^ b // 2`.
   */
  function XorBits(a: nat, b: nat, k: nat): (r: nat)
    requires a < Pow2(k) && b < Pow2(k)
    ensures r < Pow2(k)
  {
    if k == 0 then 0
    else 2 * XorBits(a / 2, b / 2, k - 1) + (if a % 2 == b % 2 then 0 else 1)
  }

  /** `a ^ b` on two bytes. */
  function Xor(a: byte, b: byte): byte {
    assert Pow2(8) == 256;
    XorBits(a as nat, b as nat, 8) as byte
  }

  /** Exclusive or with the same value twice is the identity. */
  lemma {:induction false} XorBitsTwice(a: nat, b: nat, k: nat)
    requires a < Pow2(k) && b < Pow2(k)
    ensures XorBits(XorBits(a, b, k), b, k) == a
  {
    if k > 0 {
      var high := XorBits(a / 2, b / 2, k - 1);
      var low := if a % 2 == b % 2 then 0 else 1;
      var x := XorBits(a, b, k);
      assert x == 2 * high + low;
      assert x / 2 == high && x % 2 == low;
      XorBitsTwice(a / 2, b / 2, k - 1);
    }
  }

  lemma XorTwice(a: byte, k: byte)
    ensures Xor(Xor(a, k), k) == a
  {
    assert Pow2(8) == 256;
    XorBitsTwice(a as nat, k as nat, 8);
  }

  /** `b & 0x7F`: the lowest seven bits. */
  function Low7(b: byte): (r: nat)
    ensures r < 128 && (b < 128 ==> r == b as nat)
  {
    b as nat % 128
  }

  /** `b | 0x80` for a byte whose highest bit is clear; its lowest seven bits are `b`. */
  function SetHigh(b: byte): (r: byte)
    requires b < 128
    ensures r >= 128 && Low7(r) == b as nat
  {
    (b as int + 128) as byte
  }

  function Min(a: int, b: int): int {
    if a <= b then a else b
  }

  /**
   * `sock.recv(n)` on a connection whose remaining input is `stream`: the
   * first `n` bytes, or all that remain when fewer do; the empty result
   * means the peer has closed. The rest is what later reads see.
   */
  function Recv(stream: seq<byte>, n: nat): (r: (seq<byte>, seq<byte>))
    ensures |r.0| == Min(n, |stream|)
    ensures r.0 + r.1 == stream
  {
    var k := Min(n, |stream|);
    (stream[..k], stream[k..])
  }
}
