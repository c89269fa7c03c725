/** The C++ integer operations the engine relies on, written out over
    unbounded integers. */
module CArith {

  const Int32Modulus: int := 0x1_0000_0000
  const SizeTModulus: int := 0x1_0000_0000_0000_0000

  type int32 = x: int | -0x8000_0000 <= x < 0x8000_0000

  /** Conversion of any integer to a 32-bit `int`: keep the low 32 bits, two's complement. */
  function Int32Wrap(x: int): (r: int32)
    ensures (r - x) % Int32Modulus == 0
  {
    (x + 0x8000_0000) % Int32Modulus - 0x8000_0000
  }

  /** C++ `x / 1000` on a signed `x`: the quotient rounded toward zero. */
  function TruncDiv1000(a: int): (q: int)
    ensures a >= 0 ==> q >= 0 && 0 <= a - q * 1000 < 1000
    ensures a < 0 ==> q <= 0 && -1000 < a - q * 1000 <= 0
  {
    if a >= 0 then a / 1000 else -((-a) / 1000)
  }

  /** `size_t` subtraction: wraps below zero. */
  function SizeTSub(a: nat, b: nat): (r: nat)
    ensures r < SizeTModulus || a >= SizeTModulus
    ensures b <= a < SizeTModulus ==> r == a - b
  {
    if a >= b then a - b else (a - b) % SizeTModulus
  }

  lemma Int32WrapKeepsInRange(x: int)
    requires -0x8000_0000 <= x < 0x8000_0000
    ensures Int32Wrap(x) == x
  {
  }
}
