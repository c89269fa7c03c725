/** Bytes and the little-endian 32-bit words stored in message headers. */
module Bytes {

  type byte = x: int | 0 <= x < 256

  const U32Modulus: int := 0x1_0000_0000

  type u32 = x: int | 0 <= x < 0x1_0000_0000

  /** The four bytes of `v`, least significant first. */
  function U32ToLE(v: u32): (r: seq<byte>)
    ensures |r| == 4
  {
    [v % 256, (v / 256) % 256, (v / 65536) % 256, v / 16777216]
  }

  /** The word whose little-endian bytes are `b`. */
  function LEToU32(b: seq<byte>): (r: u32)
    requires |b| == 4
  {
    var w: int := b[0] as int + 256 * b[1] as int + 65536 * b[2] as int + 16777216 * b[3] as int;
    w
  }

  lemma {:induction false} U32RoundTrip(v: u32)
    ensures LEToU32(U32ToLE(v)) == v
  {
    var q1 := v / 256;
    var q2 := q1 / 256;
    var q3 := q2 / 256;
    assert v / 65536 == q2 && v / 16777216 == q3;
    assert v == v % 256 + 256 * q1;
    assert q1 == q1 % 256 + 256 * q2;
    assert q2 == q2 % 256 + 256 * q3;
  }

  lemma {:induction false} LERoundTrip(b: seq<byte>)
    requires |b| == 4
    ensures U32ToLE(LEToU32(b)) == b
  {
    var v: int := LEToU32(b);
    var b0, b1, b2, b3: int := b[0], b[1], b[2], b[3];
    assert v == b0 + 256 * (b1 + 256 * (b2 + 256 * b3));
    assert v % 256 == b0;
    assert v / 256 == b1 + 256 * (b2 + 256 * b3);
    assert v / 65536 == (v / 256) / 256;
    assert v / 65536 == b2 + 256 * b3;
    assert v / 16777216 == (v / 65536) / 256;
  }
}
