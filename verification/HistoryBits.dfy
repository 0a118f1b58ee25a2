/**
 * Which bin of a history hash an entry moves, and which way, in terms of the bits of its digest. With 2^k bins the
 * lowest k bits name the bin and the next one tells the direction.
 */
module HistoryBits {
  import opened Bytes
  import opened Rings
  import opened Histories

  function Pow2(k: nat): (p: nat)
    ensures p > 0
  {
    if k == 0 then 1 else 2 * Pow2(k - 1)
  }

  /** Bit j of a number, the lowest first. */
  function Bit(x: nat, j: nat): (b: nat)
    ensures b < 2
  {
    if j == 0 then x % 2 else Bit(x / 2, j - 1)
  }

  lemma HalveThenDivide(x: nat, p: nat)
    requires p > 0
    ensures x / 2 / p == x / (2 * p)
  {
    var q, r := x / 2 / p, x / 2 % p;
    assert x / 2 == q * p + r;
    assert x == q * (2 * p) + (2 * r + x % 2);
    ModUnique(x, 2 * p, q, 2 * r + x % 2);
  }

  lemma {:induction false} BitIsDigit(x: nat, j: nat)
    ensures Bit(x, j) == x / Pow2(j) % 2
  {
    if j > 0 {
      BitIsDigit(x / 2, j - 1);
      HalveThenDivide(x, Pow2(j - 1));
    }
  }

  lemma {:induction false} NoBits(j: nat)
    ensures Bit(0, j) == 0
  {
    if j > 0 {
      NoBits(j - 1);
    }
  }

  /** Every bit of the bitwise and is the product of the two. */
  lemma {:induction false} BitOfAnd(a: nat, b: nat, j: nat)
    ensures Bit(BitAnd(a, b), j) == Bit(a, j) * Bit(b, j)
  {
    NoBits(j);
    if a != 0 && b != 0 {
      LowBits(a % 2, b % 2);
      HalfAndLow(BitAnd(a / 2, b / 2), (a % 2) * (b % 2));
      if j > 0 {
        BitOfAnd(a / 2, b / 2, j - 1);
      }
    }
  }

  lemma LowBits(a: nat, b: nat)
    requires a < 2 && b < 2
    ensures 0 <= a * b < 2
  {
  }

  lemma HalfAndLow(h: nat, low: nat)
    requires low < 2
    ensures (low + 2 * h) / 2 == h && (low + 2 * h) % 2 == low
  {
  }

  lemma {:induction false} SomeBit(x: nat) returns (j: nat)
    requires x != 0
    ensures Bit(x, j) == 1
  {
    if x % 2 == 1 {
      j := 0;
    } else {
      j := SomeBit(x / 2);
      j := j + 1;
    }
  }

  lemma AndIsZero(a: nat, b: nat)
    ensures BitAnd(a, b) == 0 <==> forall j :: Bit(a, j) == 0 || Bit(b, j) == 0
  {
    if BitAnd(a, b) == 0 {
      forall j
        ensures Bit(a, j) == 0 || Bit(b, j) == 0
      {
        BitOfAnd(a, b, j);
        NoBits(j);
      }
    } else {
      var j := SomeBit(BitAnd(a, b));
      BitOfAnd(a, b, j);
    }
  }

  lemma {:induction false} BitOfPower(k: nat, j: nat)
    ensures Bit(Pow2(k), j) == if j == k then 1 else 0
  {
    if j > 0 {
      if k == 0 {
        NoBits(j - 1);
      } else {
        BitOfPower(k - 1, j - 1);
      }
    }
  }

  /** Tested against a power of two, a number shows one of its binary digits. */
  lemma AndWithPower(a: nat, k: nat)
    ensures BitAnd(a, Pow2(k)) == 0 <==> a / Pow2(k) % 2 == 0
  {
    AndIsZero(a, Pow2(k));
    BitIsDigit(a, k);
    BitOfPower(k, k);
    forall j
      ensures j == k || Bit(Pow2(k), j) == 0
    {
      BitOfPower(k, j);
    }
  }

  lemma RemainderOfDouble(x: nat, p: nat)
    requires p > 0
    ensures x % (2 * p) == x % 2 + 2 * (x / 2 % p)
  {
    var q, r := x / 2 / p, x / 2 % p;
    assert x / 2 == q * p + r;
    assert x == q * (2 * p) + (2 * r + x % 2);
    ModUnique(x, 2 * p, q, 2 * r + x % 2);
  }

  /** A remainder modulo 2^k keeps the lowest k bits. */
  lemma {:induction false} BitsOfRemainder(x: nat, k: nat, j: nat)
    ensures Bit(x % Pow2(k), j) == if j < k then Bit(x, j) else 0
  {
    if k == 0 {
      NoBits(j);
    } else {
      var p := Pow2(k - 1);
      RemainderOfDouble(x, p);
      HalfAndLow(x / 2 % p, x % 2);
      if j > 0 {
        BitsOfRemainder(x / 2, k - 1, j - 1);
      }
    }
  }

  /** Numbers below 2^k are told apart by their lowest k bits. */
  lemma {:induction false} SameBits(x: nat, y: nat, k: nat)
    requires x < Pow2(k) && y < Pow2(k) && forall j | 0 <= j < k :: Bit(x, j) == Bit(y, j)
    ensures x == y
  {
    if k > 0 {
      assert Bit(x, 0) == Bit(y, 0);
      forall j | 0 <= j < k - 1
        ensures Bit(x / 2, j) == Bit(y / 2, j)
      {
        assert Bit(x, j + 1) == Bit(y, j + 1);
      }
      SameBits(x / 2, y / 2, k - 1);
    }
  }

  // ---------------------------------------------------------------- the bits of a digest

  /** Bit j of a hash, its bytes lowest first; only the first eight bytes count, and missing ones are zero. */
  function HashBit(hash: seq<byte>, j: nat): nat {
    if j < 64 && j / 8 < |hash| then Bit(hash[j / 8], j % 8) else 0
  }

  lemma {:induction false} BitOfBoth(low: nat, high: nat, k: nat, j: nat)
    requires low < Pow2(k)
    ensures Bit(low + Pow2(k) * high, j) == if j < k then Bit(low, j) else Bit(high, j - k)
  {
    if k > 0 {
      var both := low + Pow2(k) * high;
      assert Pow2(k) * high == 2 * (Pow2(k - 1) * high);
      assert both / 2 == low / 2 + Pow2(k - 1) * high && both % 2 == low % 2;
      if j > 0 {
        BitOfBoth(low / 2, high, k - 1, j - 1);
      }
    }
  }

  lemma {:induction false} BitOfValue(s: seq<byte>, j: nat)
    ensures Bit(Value(s), j) == if j / 8 < |s| then Bit(s[j / 8], j % 8) else 0
  {
    if s == [] {
      NoBits(j);
    } else {
      assert Pow2(8) == 256;
      BitOfBoth(s[0], Value(s[1..]), 8, j);
      if j >= 8 {
        BitOfValue(s[1..], j - 8);
      }
    }
  }

  lemma BitOfDigest(hash: seq<byte>, j: nat)
    ensures Bit(Uint64Of(hash), j) == HashBit(hash, j)
  {
    BitOfValue(if |hash| > 8 then hash[..8] else hash, j);
  }

  /** For any number of bins the direction is forward exactly if the digest and that number share a bit. */
  lemma DirectionIsASharedBit(ps: Params, e: Entry)
    ensures Direction(ps, e) == 1 || Direction(ps, e) == -1
    ensures Direction(ps, e) == 1 <==> exists j :: HashBit(ps.hasher(e + ps.seed), j) == 1 && Bit(ps.binNum, j) == 1
  {
    var hash := ps.hasher(e + ps.seed);
    AndIsZero(Uint64Of(hash), ps.binNum);
    forall j
      ensures HashBit(hash, j) == Bit(Uint64Of(hash), j)
    {
      BitOfDigest(hash, j);
    }
  }

  /** For any number of bins the bin is what the first eight bytes of the hash leave over. */
  lemma IndexIsTheRest(ps: Params, e: Entry) returns (q: nat)
    requires ps.Sound()
    ensures Uint64Of(ps.hasher(e + ps.seed)) == q * ps.binNum + Index(ps, e) && Index(ps, e) < ps.binNum
  {
    q := Uint64Of(ps.hasher(e + ps.seed)) / ps.binNum;
  }

  /** With 2^k bins the lowest k bits of the hash are those of the bin, and the next tells the direction. */
  lemma BinAndDirection(ps: Params, e: Entry, k: nat, j: nat)
    requires ps.Sound() && ps.binNum == Pow2(k) && j < k
    ensures var hash := ps.hasher(e + ps.seed);
            && Bit(Index(ps, e), j) == HashBit(hash, j)
            && Direction(ps, e) == if HashBit(hash, k) == 1 then 1 else -1
  {
    var hash := ps.hasher(e + ps.seed);
    BitOfDigest(hash, j);
    BitsOfRemainder(Uint64Of(hash), k, j);
    PowerDirection(ps, e, k);
  }

  lemma PowerDirection(ps: Params, e: Entry, k: nat)
    requires ps.binNum == Pow2(k)
    ensures Direction(ps, e) == if HashBit(ps.hasher(e + ps.seed), k) == 1 then 1 else -1
  {
    var hash := ps.hasher(e + ps.seed);
    BitOfDigest(hash, k);
    BitIsDigit(Uint64Of(hash), k);
    AndWithPower(Uint64Of(hash), k);
  }

  /** Entries that name one bin and opposite directions. */
  ghost predicate Opposite(ps: Params, d: Entry, e: Entry, k: nat) {
    var x, y := ps.hasher(d + ps.seed), ps.hasher(e + ps.seed);
    (forall j | 0 <= j < k :: HashBit(x, j) == HashBit(y, j)) && HashBit(x, k) != HashBit(y, k)
  }

  /** Two entries whose hashes agree in the lowest k bits and differ in the next leave no trace in 2^k bins. */
  lemma OppositesCancel(ps: Params, history: seq<Entry>, d: Entry, e: Entry, k: nat)
    requires ps.Sound() && ps.binNum == Pow2(k) && Opposite(ps, d, e, k)
    ensures Bins(ps, history + [d, e]) == Bins(ps, history)
  {
    SameBin(ps, d, e, k);
    PowerDirection(ps, d, k);
    PowerDirection(ps, e, k);
    forall i | 0 <= i < ps.binNum
      ensures Bins(ps, history + [d, e])[i] == Bins(ps, history)[i]
    {
      BinsAreTallies(ps, history, i);
      BinsAreTallies(ps, history + [d, e], i);
      TallyConcat(ps, history, [d, e], i);
      TallyConcat(ps, [d], [e], i);
      assert [d] + [e] == [d, e];
      TallyOfOne(ps, d, i);
      TallyOfOne(ps, e, i);
    }
  }

  lemma TallyOfOne(ps: Params, e: Entry, i: nat)
    requires ps.Sound()
    ensures Tally(ps, [e], i) == if Index(ps, e) == i then Direction(ps, e) else 0
  {
    assert [e][..0] == [];
  }

  lemma SameBin(ps: Params, d: Entry, e: Entry, k: nat)
    requires ps.Sound() && ps.binNum == Pow2(k) && Opposite(ps, d, e, k)
    ensures Index(ps, d) == Index(ps, e)
  {
    forall j | 0 <= j < k
      ensures Bit(Index(ps, d), j) == Bit(Index(ps, e), j)
    {
      BinAndDirection(ps, d, k, j);
      BinAndDirection(ps, e, k, j);
    }
    SameBits(Index(ps, d), Index(ps, e), k);
  }
}
