/** The little-endian byte codecs of impl/utils/hashing.go. */
module Bytes {
  import opened GoIntegers

  type byte = x: int | 0 <= x < 256

  function LittleEndian(v: nat, k: nat): (s: seq<byte>)
    ensures |s| == k
  {
    if k == 0 then [] else [v % 256] + LittleEndian(v / 256, k - 1)
  }

  /** The number a little-endian byte string denotes. */
  function Value(s: seq<byte>): nat {
    if s == [] then 0 else s[0] + 256 * Value(s[1..])
  }

  function Pow256(k: nat): (p: nat)
    ensures p > 0
  {
    if k == 0 then 1 else 256 * Pow256(k - 1)
  }

  lemma {:induction false} LittleEndianOfValue(s: seq<byte>)
    ensures LittleEndian(Value(s), |s|) == s
    ensures Value(s) < Pow256(|s|)
  {
    if s != [] {
      LittleEndianOfValue(s[1..]);
      assert Value(s) / 256 == Value(s[1..]) && Value(s) % 256 == s[0];
    }
  }

  lemma {:induction false} ValueOfLittleEndian(v: nat, k: nat)
    requires v < Pow256(k)
    ensures Value(LittleEndian(v, k)) == v
  {
    if k > 0 {
      ValueOfLittleEndian(v / 256, k - 1);
      assert LittleEndian(v, k)[1..] == LittleEndian(v / 256, k - 1);
    }
  }

  lemma {:induction false} ZeroPadding(s: seq<byte>, z: nat)
    ensures Value(s + seq(z, _ => 0)) == Value(s)
    decreases |s|, z
  {
    var t: seq<byte> := s + seq(z, _ => 0);
    if s != [] {
      assert t[1..] == s[1..] + seq(z, _ => 0);
      ZeroPadding(s[1..], z);
    } else if z > 0 {
      assert t[1..] == s + seq(z - 1, _ => 0);
      ZeroPadding(s, z - 1);
    }
  }

  /** At most the first eight bytes; shorter inputs read as if padded with zeros. */
  function Uint64Of(bytes: seq<byte>): (h: nat)
    ensures h < TWO64
  {
    var prefix := if |bytes| > 8 then bytes[..8] else bytes;
    Pow256Is8();
    LittleEndianOfValue(prefix);
    Pow256Monotone(|prefix|, 8);
    Value(prefix)
  }

  lemma Pow256Is8()
    ensures Pow256(4) == TWO32 && Pow256(8) == TWO64
  {
    assert Pow256(2) == 0x1_0000;
    assert Pow256(4) == 0x1_0000_0000;
    assert Pow256(6) == 0x1_0000_0000_0000;
  }

  lemma {:induction false} Pow256Monotone(j: nat, k: nat)
    requires j <= k
    ensures Pow256(j) <= Pow256(k)
  {
    if j < k {
      Pow256Monotone(j, k - 1);
    }
  }

  method ToUint64(bytes: seq<byte>) returns (h: nat)
    ensures h == Uint64Of(bytes)
  {
    var size := if |bytes| > 8 then 8 else |bytes|;
    var data := new byte[8](_ => 0);
    for i := 0 to size
      invariant data[..] == bytes[..i] + seq(8 - i, _ => 0)
    {
      data[i] := bytes[i];
    }
    ZeroPadding(bytes[..size], 8 - size);
    assert bytes[..size] == if |bytes| > 8 then bytes[..8] else bytes;
    h := Value(data[..]);
  }

  function ToBytes(value: nat): (s: seq<byte>)
    requires value < TWO64
  {
    LittleEndian(value, 8)
  }

  function Int32ToBytes(value: int32): (s: seq<byte>)
    ensures |s| == 4
  {
    LittleEndian(value % TWO32, 4)
  }

  /** Shorter inputs make the Go library index out of range. */
  function ToInt32(bytes: seq<byte>): int32
    requires |bytes| >= 4
  {
    Wrap32(Value(bytes[..4]))
  }

  lemma ToUint64RoundTrip(v: nat)
    requires v < TWO64
    ensures Uint64Of(ToBytes(v)) == v
  {
    Pow256Is8();
    ValueOfLittleEndian(v, 8);
  }

  lemma Int32RoundTrip(v: int32)
    ensures ToInt32(Int32ToBytes(v)) == v
  {
    Pow256Is8();
    ValueOfLittleEndian(v % TWO32, 4);
    assert Int32ToBytes(v)[..4] == Int32ToBytes(v);
  }

  lemma Int32BytesRoundTrip(s: seq<byte>)
    requires |s| == 4
    ensures Int32ToBytes(ToInt32(s)) == s
  {
    Pow256Is8();
    LittleEndianOfValue(s);
    assert s[..4] == s;
    Wrap32Unsigned(Value(s));
  }

  method AreEqual(fst: seq<byte>, snd: seq<byte>) returns (equal: bool)
    ensures equal <==> fst == snd
  {
    if |fst| != |snd| {
      return false;
    }
    for i := 0 to |fst|
      invariant fst[..i] == snd[..i]
    {
      if fst[i] != snd[i] {
        return false;
      }
    }
    return true;
  }

  /** The bytes of a committed secret, four per entry, in order. */
  function SecretBytes(secret: seq<int32>): (s: seq<byte>)
    ensures |s| == 4 * |secret|
  {
    if secret == [] then []
    else SecretBytes(secret[..|secret| - 1]) + Int32ToBytes(secret[|secret| - 1])
  }

  /** Entry i takes the i-th group of four bytes. */
  lemma {:induction false} SecretBytesAt(secret: seq<int32>, i: nat)
    requires i < |secret|
    ensures SecretBytes(secret)[4 * i..4 * i + 4] == Int32ToBytes(secret[i])
  {
    var k := |secret| - 1;
    if i < k {
      SecretBytesAt(secret[..k], i);
      assert SecretBytes(secret)[4 * i..4 * i + 4] == SecretBytes(secret[..k])[4 * i..4 * i + 4];
    }
  }

  lemma {:induction false} SecretBytesInjective(x: seq<int32>, y: seq<int32>)
    requires SecretBytes(x) == SecretBytes(y)
    ensures x == y
  {
    if x != [] {
      var i := |x| - 1;
      assert |x| == |y|;
      assert SecretBytes(x[..i]) == SecretBytes(x)[..4 * i] == SecretBytes(y)[..4 * i] == SecretBytes(y[..i]);
      assert Int32ToBytes(x[i]) == SecretBytes(x)[4 * i..] == Int32ToBytes(y[i]);
      SecretBytesInjective(x[..i], y[..i]);
      Int32RoundTrip(x[i]);
      Int32RoundTrip(y[i]);
      assert x == x[..i] + [x[i]] && y == y[..i] + [y[i]];
    } else {
      assert |y| == 0;
    }
  }
}
