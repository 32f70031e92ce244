/** Bytes and 32-bit big-endian integers. */
module Bytes {
  type byte = x: int | 0 <= x < 256

  function Be32(b: seq<byte>): nat
    requires |b| == 4
  {
    var b0: int, b1: int, b2: int, b3: int := b[0], b[1], b[2], b[3];
    b0 * 0x100_0000 + b1 * 0x1_0000 + b2 * 0x100 + b3
  }

  function ToBe32(n: nat): seq<byte>
    requires n < 0x1_0000_0000
  {
    [n / 0x100_0000, n / 0x1_0000 % 0x100, n / 0x100 % 0x100, n % 0x100]
  }

  lemma Digits(n: nat, q: nat)
    requires q == n / 0x100
    ensures n == q * 0x100 + n % 0x100 && n % 0x100 < 0x100
  {
  }

  lemma HighBytes(n: nat, q1: nat, q2: nat, q3: nat)
    requires q1 == n / 0x100 && q2 == q1 / 0x100 && q3 == q2 / 0x100
    ensures n / 0x1_0000 == q2 && n / 0x100_0000 == q3
  {
  }

  lemma DecodeEncoded(n: nat)
    requires n < 0x1_0000_0000
    ensures Be32(ToBe32(n)) == n
  {
    var q1 := n / 0x100;
    var q2 := q1 / 0x100;
    var q3 := q2 / 0x100;
    HighBytes(n, q1, q2, q3);
    Digits(q2, q3);
    Digits(q1, q2);
    Digits(n, q1);
    assert ToBe32(n) == [q3, q2 % 0x100, q1 % 0x100, n % 0x100];
  }

  lemma EncodeDecoded(b: seq<byte>)
    requires |b| == 4
    ensures Be32(b) < 0x1_0000_0000 && ToBe32(Be32(b)) == b
  {
    var m := Be32(b);
    var b0: int, b1: int, b2: int := b[0], b[1], b[2];
    assert m / 0x100_0000 == b0;
    assert m / 0x1_0000 == b0 * 0x100 + b1;
    assert m / 0x100 == b0 * 0x1_0000 + b1 * 0x100 + b2;
    assert ToBe32(m) == [b[0], b[1], b[2], b[3]];
  }
}
