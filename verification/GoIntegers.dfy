/** Go's fixed-width integers and truncating remainder, written out over unbounded integers. */
module GoIntegers {
  const TWO31: int := 0x8000_0000
  const TWO32: int := 0x1_0000_0000
  const TWO62: int := 0x4000_0000_0000_0000
  const TWO63: int := 0x8000_0000_0000_0000
  const TWO64: int := 0x1_0000_0000_0000_0000

  type int32 = x: int | -TWO31 <= x < TWO31
  type int64 = x: int | -TWO63 <= x < TWO63

  /** The int32 with the same low 32 bits as x. */
  function Wrap32(x: int): int32 {
    (x + TWO31) % TWO32 - TWO31
  }

  /** The int64 with the same low 64 bits as x. */
  function Wrap64(x: int): int64 {
    (x + TWO63) % TWO64 - TWO63
  }

  /** Go's a % m for a positive m: the remainder takes the sign of a. */
  function Rem(a: int, m: int): int
    requires 0 < m
  {
    if a >= 0 then a % m else -(-a % m)
  }

  lemma Wrap32Absorbs(a: int, b: int)
    ensures Wrap32(Wrap32(a) + b) == Wrap32(a + b)
  {
    var q := (a + TWO31) / TWO32;
    assert Wrap32(a) == a - q * TWO32;
    assert (a + b + TWO31 - q * TWO32) % TWO32 == (a + b + TWO31) % TWO32;
  }

  lemma Wrap32Unsigned(v: nat)
    requires v < TWO32
    ensures Wrap32(v) % TWO32 == v
  {
    assert Wrap32(v) == v || Wrap32(v) == v - TWO32;
  }

  function Sum(xs: seq<int>): int {
    if xs == [] then 0 else Sum(xs[..|xs| - 1]) + xs[|xs| - 1]
  }

  /** The commitment hash of a secret: an int32 sum that wraps at every addition. */
  method Hash(input: seq<int32>) returns (h: int32)
    ensures h == Wrap32(Sum(input))
  {
    h := 0;
    for i := 0 to |input|
      invariant h == Wrap32(Sum(input[..i]))
    {
      assert input[..i + 1][..i] == input[..i];
      Wrap32Absorbs(Sum(input[..i]), input[i]);
      h := Wrap32(h + input[i]);
    }
    assert input[..|input|] == input;
  }
}
