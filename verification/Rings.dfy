/** Vectors of integers modulo m and the circular L1 distance between them. */
module Rings {
  import opened GoIntegers

  predicate InRange(m: nat, v: seq<int>) {
    forall i | 0 <= i < |v| :: 0 <= v[i] < m
  }

  function Zeros(n: nat): seq<int> {
    seq(n, _ => 0)
  }

  /** The value `set` stores, in the 64-bit arithmetic of the source. */
  function StoredEntry(m: int64, value: int64): int64
    requires 0 < m
  {
    Wrap64(Rem(Wrap64(Rem(value, m) + m), m))
  }

  /** Storing reduces every 64-bit value to [0, m), negative ones included, exactly when m <= 2^62. */
  lemma StoredEntryIsModulo(m: int64)
    requires 0 < m
    ensures (forall v: int64 :: StoredEntry(m, v) == v % m) <==> m <= TWO62
  {
    if m <= TWO62 {
      forall v: int64
        ensures StoredEntry(m, v) == v % m
      {
        StoredEntryInBounds(m, v);
      }
    } else {
      LargestEntryOverflows(m);
    }
  }

  lemma LargestEntryOverflows(m: int64)
    requires m > TWO62
    ensures StoredEntry(m, m - 1) != (m - 1) % m
  {
    ModUnique(m - 1, m, 0, m - 1);
    assert Rem(m - 1, m) + m == 2 * m - 1;
    assert Wrap64(2 * m - 1) == 2 * m - 1 - TWO64 < 0;
    RemModulo(2 * m - 1 - TWO64, m);
  }

  lemma StoredEntryInBounds(m: int64, v: int64)
    requires 0 < m <= TWO62
    ensures StoredEntry(m, v) == v % m
  {
    var r := Rem(v, m);
    RemModulo(v, m);
    assert Wrap64(r + m) == r + m;
    assert Rem(r + m, m) == v % m;
  }

  lemma RemModulo(a: int, m: int)
    requires 0 < m
    ensures -m < Rem(a, m) < m
    ensures (Rem(a, m) + m) % m == a % m
  {
    if a >= 0 {
      ModAddMultiple(a % m, m, 1);
      ModUnique(a % m, m, 0, a % m);
    } else {
      var q, r := -a / m, -a % m;
      if r == 0 {
        ModUnique(m, m, 1, 0);
        ModUnique(a, m, -q, 0);
      } else {
        ModUnique(m - r, m, 0, m - r);
        Distribute(-q, -1, m);
        ModUnique(a, m, -q - 1, m - r);
      }
    }
  }

  lemma Distribute(a: int, b: int, m: int)
    ensures (a + b) * m == a * m + b * m
    ensures (a - b) * m == a * m - b * m
    ensures (-a) * m == -(a * m)
  {
  }

  lemma AtLeastOneMultiple(k: int, m: int)
    requires 0 < m
    ensures k >= 1 ==> k * m >= m
    ensures k <= -1 ==> k * m <= -m
  {
  }

  lemma ModUnique(x: int, m: int, q: int, r: int)
    requires 0 < m && 0 <= r < m && x == q * m + r
    ensures x % m == r && x / m == q
  {
    var q', r' := x / m, x % m;
    assert x == q' * m + r' && 0 <= r' < m;
    Distribute(q', q, m);
    AtLeastOneMultiple(q' - q, m);
  }

  lemma ModAddMultiple(x: int, m: int, k: int)
    requires 0 < m
    ensures (x + k * m) % m == x % m
  {
    Distribute(x / m, k, m);
    ModUnique(x + k * m, m, x / m + k, x % m);
  }

  /** A sum may be reduced at every addition or once at the end. */
  lemma ModAbsorbs(a: int, b: int, m: int)
    requires 0 < m
    ensures (a % m + b) % m == (a + b) % m
  {
    var q := a / m;
    assert a % m + b + q * m == a + b;
    ModAddMultiple(a % m + b, m, q);
  }

  function Added(m: nat, v: seq<int>, i: nat, d: int): (r: seq<int>)
    requires 0 < m && i < |v|
  {
    v[i := (v[i] + d) % m]
  }

  function Merged(m: nat, a: seq<int>, b: seq<int>): (r: seq<int>)
    requires 0 < m && |a| == |b|
  {
    seq(|a|, i requires 0 <= i < |a| => (a[i] + b[i]) % m)
  }

  function Min(x: int, y: int): int {
    if x <= y then x else y
  }

  function Abs(x: int): nat {
    if x >= 0 then x else -x
  }

  /** The shorter way round the ring from x to y. */
  function Arc(m: nat, x: int, y: int): int
    requires 0 < m
  {
    Min(Rem(m + x - y, m), Rem(m + y - x, m))
  }

  function Arcs(m: nat, a: seq<int>, b: seq<int>): (arcs: seq<int>)
    requires 0 < m && |a| == |b|
    ensures |arcs| == |a| && forall i | 0 <= i < |a| :: arcs[i] == Arc(m, a[i], b[i])
  {
    seq(|a|, i requires 0 <= i < |a| => Arc(m, a[i], b[i]))
  }

  /** The L1 distance round the ring. */
  function Distance(m: nat, a: seq<int>, b: seq<int>): int
    requires 0 < m && |a| == |b|
  {
    Sum(Arcs(m, a, b))
  }

  lemma {:induction false} SumsCompare(x: seq<int>, y: seq<int>, z: seq<int>)
    requires |x| == |y| == |z| && forall i | 0 <= i < |x| :: x[i] <= y[i] + z[i]
    ensures Sum(x) <= Sum(y) + Sum(z)
  {
    if x != [] {
      SumsCompare(x[..|x| - 1], y[..|x| - 1], z[..|x| - 1]);
    }
  }

  lemma {:induction false} SumBounds(x: seq<int>, bound: nat)
    requires forall i | 0 <= i < |x| :: 0 <= x[i] <= bound
    ensures 0 <= Sum(x) <= |x| * bound
    ensures Sum(x) == 0 ==> forall i | 0 <= i < |x| :: x[i] == 0
  {
    if x != [] {
      SumBounds(x[..|x| - 1], bound);
      Distribute(|x| - 1, 1, bound);
    }
  }

  /** A vector of zeros but for one entry. */
  lemma {:induction false} SumOfOne(x: seq<int>, k: nat)
    requires k < |x| && forall i | 0 <= i < |x| && i != k :: x[i] == 0
    ensures Sum(x) == x[k]
  {
    if k < |x| - 1 {
      SumOfOne(x[..|x| - 1], k);
    } else {
      SumBounds(x[..k], 0);
    }
  }

  lemma ArcClosedForm(m: nat, x: int, y: int)
    requires 0 <= x < m && 0 <= y < m
    ensures Arc(m, x, y) == Min(Abs(x - y), m - Abs(x - y))
  {
    ShortMod(m + x - y, m);
    ShortMod(m + y - x, m);
  }

  lemma ShortMod(x: int, m: int)
    requires 0 < m && -m <= x < 2 * m
    ensures x % m == if x < 0 then x + m else if x < m then x else x - m
  {
    if x < 0 {
      ModUnique(x, m, -1, x + m);
    } else if x < m {
      ModUnique(x, m, 0, x);
    } else {
      ModUnique(x, m, 1, x - m);
    }
  }

  lemma ArcIsMetric(m: nat, x: int, y: int, z: int)
    requires 0 <= x < m && 0 <= y < m && 0 <= z < m
    ensures Arc(m, x, y) == Arc(m, y, x)
    ensures Arc(m, x, y) == 0 <==> x == y
    ensures Arc(m, x, z) <= Arc(m, x, y) + Arc(m, y, z)
    ensures 0 <= Arc(m, x, y) <= m / 2
  {
    ArcClosedForm(m, x, y);
    ArcClosedForm(m, y, x);
    ArcClosedForm(m, y, z);
    ArcClosedForm(m, x, z);
  }

  lemma ArcShift(m: nat, x: int, y: int, z: int)
    requires 0 <= x < m && 0 <= y < m && 0 <= z < m
    ensures Arc(m, (x + z) % m, (y + z) % m) == Arc(m, x, y)
  {
    ShortMod(x + z, m);
    ShortMod(y + z, m);
    ArcClosedForm(m, x, y);
    ArcClosedForm(m, (x + z) % m, (y + z) % m);
  }

  lemma ArcStep(m: nat, x: int, d: int)
    requires 0 <= x < m && -1 <= d <= 1
    ensures Arc(m, x, (x + d) % m) <= 1
  {
    ShortMod(x + d, m);
    ArcClosedForm(m, x, (x + d) % m);
  }

  lemma DistanceIsMetric(m: nat, a: seq<int>, b: seq<int>, c: seq<int>)
    requires 0 < m && |a| == |b| == |c|
    requires InRange(m, a) && InRange(m, b) && InRange(m, c)
    ensures Distance(m, a, b) == Distance(m, b, a)
    ensures Distance(m, a, b) == 0 <==> a == b
    ensures Distance(m, a, c) <= Distance(m, a, b) + Distance(m, b, c)
  {
    DistanceSymmetric(m, a, b);
    DistanceSeparates(m, a, b);
    forall i | 0 <= i < |a|
      ensures Arcs(m, a, c)[i] <= Arcs(m, a, b)[i] + Arcs(m, b, c)[i]
    {
      ArcIsMetric(m, a[i], b[i], c[i]);
    }
    SumsCompare(Arcs(m, a, c), Arcs(m, a, b), Arcs(m, b, c));
  }

  lemma DistanceSymmetric(m: nat, a: seq<int>, b: seq<int>)
    requires 0 < m && |a| == |b| && InRange(m, a) && InRange(m, b)
    ensures Distance(m, a, b) == Distance(m, b, a)
  {
    forall i | 0 <= i < |a|
      ensures Arcs(m, a, b)[i] == Arcs(m, b, a)[i]
    {
      ArcIsMetric(m, a[i], b[i], a[i]);
    }
    assert Arcs(m, a, b) == Arcs(m, b, a);
  }

  lemma DistanceSeparates(m: nat, a: seq<int>, b: seq<int>)
    requires 0 < m && |a| == |b| && InRange(m, a) && InRange(m, b)
    ensures Distance(m, a, b) == 0 <==> a == b
  {
    var arcs := Arcs(m, a, b);
    forall i | 0 <= i < |a|
      ensures 0 <= arcs[i] <= m / 2 && (arcs[i] == 0 <==> a[i] == b[i])
    {
      ArcIsMetric(m, a[i], b[i], a[i]);
    }
    SumBounds(arcs, m / 2);
    if a == b {
      SumBounds(arcs, 0);
    }
  }

  lemma DistanceBounded(m: nat, a: seq<int>, b: seq<int>)
    requires 0 < m && |a| == |b| && InRange(m, a) && InRange(m, b)
    ensures 0 <= Distance(m, a, b) <= |a| * (m / 2)
  {
    forall i | 0 <= i < |a|
      ensures 0 <= Arcs(m, a, b)[i] <= m / 2
    {
      ArcIsMetric(m, a[i], b[i], a[i]);
    }
    SumBounds(Arcs(m, a, b), m / 2);
  }

  lemma DistanceIgnoresCommonPart(m: nat, a: seq<int>, b: seq<int>, c: seq<int>)
    requires 0 < m && |a| == |b| == |c|
    requires InRange(m, a) && InRange(m, b) && InRange(m, c)
    ensures Distance(m, Merged(m, a, c), Merged(m, b, c)) == Distance(m, a, b)
  {
    var before, after := Arcs(m, a, b), Arcs(m, Merged(m, a, c), Merged(m, b, c));
    forall i | 0 <= i < |a|
      ensures after[i] == before[i]
    {
      ArcShift(m, a[i], b[i], c[i]);
    }
    assert after == before;
  }

  /** Moving one entry by one step moves the vector by at most one. */
  lemma DistanceOfStep(m: nat, v: seq<int>, i: nat, d: int)
    requires 0 < m && InRange(m, v) && i < |v| && -1 <= d <= 1
    ensures Distance(m, v, Added(m, v, i, d)) <= 1
  {
    var arcs := Arcs(m, v, Added(m, v, i, d));
    forall k | 0 <= k < |v| && k != i
      ensures arcs[k] == 0
    {
      ArcIsMetric(m, v[k], v[k], v[k]);
    }
    ArcStep(m, v[i], d);
    SumOfOne(arcs, i);
  }
}
