/**
 * What a history hash means: every inserted byte string moves one bin of a modular vector by one step.
 * The bins are shown to depend on the multiset of insertions only, and to move slowly as it changes.
 */
module Histories {
  import opened GoIntegers
  import opened Bytes
  import opened Rings

  type Entry = seq<byte>

  datatype Params = Params(binNum: nat, capacity: nat, hasher: seq<byte> -> seq<byte>, seed: seq<byte>) {
    ghost predicate Sound() {
      0 < binNum < TWO64 && 0 < capacity <= TWO62
    }
  }

  /** Bitwise and of two unsigned integers. */
  function BitAnd(a: nat, b: nat): nat {
    if a == 0 || b == 0 then 0 else (a % 2) * (b % 2) + 2 * BitAnd(a / 2, b / 2)
  }

  function Digest(ps: Params, e: Entry): nat {
    Uint64Of(ps.hasher(e + ps.seed))
  }

  function Index(ps: Params, e: Entry): (i: nat)
    requires ps.Sound()
    ensures i < ps.binNum
  {
    Digest(ps, e) % ps.binNum
  }

  function Direction(ps: Params, e: Entry): int {
    if BitAnd(Digest(ps, e), ps.binNum) == 0 then -1 else 1
  }

  /** The bins after a sequence of insertions. */
  function Bins(ps: Params, history: seq<Entry>): (v: seq<int>)
    requires ps.Sound()
    ensures |v| == ps.binNum && InRange(ps.capacity, v)
  {
    if history == [] then Zeros(ps.binNum)
    else
      var e := history[|history| - 1];
      Added(ps.capacity, Bins(ps, history[..|history| - 1]), Index(ps, e), Direction(ps, e))
  }

  function Contribution(ps: Params, e: Entry, i: nat): int
    requires ps.Sound()
  {
    if Index(ps, e) == i then Direction(ps, e) else 0
  }

  /** Net number of steps bin i has been moved. */
  function Tally(ps: Params, history: seq<Entry>, i: nat): int
    requires ps.Sound()
  {
    if history == [] then 0
    else Tally(ps, history[..|history| - 1], i) + Contribution(ps, history[|history| - 1], i)
  }

  lemma {:induction false} BinsAreTallies(ps: Params, history: seq<Entry>, i: nat)
    requires ps.Sound() && i < ps.binNum
    ensures Bins(ps, history)[i] == Tally(ps, history, i) % ps.capacity
  {
    if history == [] {
      ModUnique(0, ps.capacity, 0, 0);
    } else {
      var prefix, e := history[..|history| - 1], history[|history| - 1];
      BinsAreTallies(ps, prefix, i);
      ModAbsorbs(Tally(ps, prefix, i), Contribution(ps, e, i), ps.capacity);
    }
  }

  lemma {:induction false} TallyConcat(ps: Params, a: seq<Entry>, b: seq<Entry>, i: nat)
    requires ps.Sound()
    ensures Tally(ps, a + b, i) == Tally(ps, a, i) + Tally(ps, b, i)
  {
    if b == [] {
      assert a + b == a;
    } else {
      var n := |b| - 1;
      TallyConcat(ps, a, b[..n], i);
      assert (a + b)[..|a + b| - 1] == a + b[..n];
    }
  }

  lemma SameWithoutOne(a: seq<Entry>, b: seq<Entry>, j: nat)
    requires j < |b| && multiset(a + [b[j]]) == multiset(b)
    ensures multiset(a) == multiset(b[..j] + b[j + 1..])
  {
    var rest := b[..j] + b[j + 1..];
    assert b == b[..j] + [b[j]] + b[j + 1..];
    assert multiset(b) == multiset(rest) + multiset{b[j]};
    assert multiset(a + [b[j]]) == multiset(a) + multiset{b[j]};
    assert multiset(a) == multiset(a + [b[j]]) - multiset{b[j]};
    assert multiset(rest) == multiset(b) - multiset{b[j]};
  }

  lemma {:induction false} TallyOfMultiset(ps: Params, a: seq<Entry>, b: seq<Entry>, i: nat)
    requires ps.Sound() && multiset(a) == multiset(b)
    ensures Tally(ps, a, i) == Tally(ps, b, i)
    decreases |a|
  {
    if a == [] {
      assert |multiset(b)| == |multiset(a)| == 0;
    } else {
      var n, e := |a| - 1, a[|a| - 1];
      assert a == a[..n] + [e];
      assert e in multiset(b);
      var j :| 0 <= j < |b| && b[j] == e;
      assert b == b[..j] + ([e] + b[j + 1..]);
      SameWithoutOne(a[..n], b, j);
      TallyOfMultiset(ps, a[..n], b[..j] + b[j + 1..], i);
      TallyConcat(ps, b[..j], b[j + 1..], i);
      TallyConcat(ps, b[..j], [e] + b[j + 1..], i);
      TallyConcat(ps, [e], b[j + 1..], i);
      assert Tally(ps, [e], i) == Contribution(ps, e, i);
    }
  }

  /** The order in which transactions commit does not show in the history hash. */
  lemma OrderIndependent(ps: Params, a: seq<Entry>, b: seq<Entry>)
    requires ps.Sound() && multiset(a) == multiset(b)
    ensures Bins(ps, a) == Bins(ps, b)
  {
    forall i | 0 <= i < ps.binNum
      ensures Bins(ps, a)[i] == Bins(ps, b)[i]
    {
      BinsAreTallies(ps, a, i);
      BinsAreTallies(ps, b, i);
      TallyOfMultiset(ps, a, b, i);
    }
  }

  lemma ModOfSum(x: int, y: int, m: int)
    requires 0 < m
    ensures (x % m + y % m) % m == (x + y) % m
  {
    ModAbsorbs(x, y % m, m);
    ModAbsorbs(y, x, m);
  }

  lemma MergedBin(ps: Params, a: seq<Entry>, b: seq<Entry>, i: nat)
    requires ps.Sound() && i < ps.binNum
    ensures (Bins(ps, a)[i] + Bins(ps, b)[i]) % ps.capacity == Bins(ps, a + b)[i]
  {
    BinsAreTallies(ps, a, i);
    BinsAreTallies(ps, b, i);
    BinsAreTallies(ps, a + b, i);
    TallyConcat(ps, a, b, i);
    ModOfSum(Tally(ps, a, i), Tally(ps, b, i), ps.capacity);
  }

  /** Merging two history vectors gives the vector of the joint history. */
  lemma MergeIsConcatenation(ps: Params, a: seq<Entry>, b: seq<Entry>)
    requires ps.Sound()
    ensures Merged(ps.capacity, Bins(ps, a), Bins(ps, b)) == Bins(ps, a + b)
  {
    forall i | 0 <= i < ps.binNum
      ensures Merged(ps.capacity, Bins(ps, a), Bins(ps, b))[i] == Bins(ps, a + b)[i]
    {
      MergedBin(ps, a, b, i);
    }
  }

  /** Each insertion moves the vector by at most one. */
  lemma InsertMovesByOne(ps: Params, history: seq<Entry>, e: Entry)
    requires ps.Sound()
    ensures Distance(ps.capacity, Bins(ps, history), Bins(ps, history + [e])) <= 1
  {
    assert (history + [e])[..|history|] == history;
    DistanceOfStep(ps.capacity, Bins(ps, history), Index(ps, e), Direction(ps, e));
  }

  function FromOrigin(ps: Params, history: seq<Entry>): int
    requires ps.Sound()
  {
    Distance(ps.capacity, Zeros(ps.binNum), Bins(ps, history))
  }

  /** Where each node's hash stands after a history. */
  ghost function RanksAfter(params: seq<Params>, history: seq<Entry>): (ds: seq<int>)
    requires forall i | 0 <= i < |params| :: params[i].Sound()
    ensures |ds| == |params| && forall i | 0 <= i < |ds| :: ds[i] == FromOrigin(params[i], history)
  {
    if params == [] then []
    else RanksAfter(params[..|params| - 1], history) + [FromOrigin(params[|params| - 1], history)]
  }

  lemma {:induction false} OriginBound(ps: Params, history: seq<Entry>)
    requires ps.Sound()
    ensures FromOrigin(ps, history) <= |history|
  {
    var zero := Bins(ps, []);
    if history == [] {
      DistanceIsMetric(ps.capacity, zero, zero, zero);
    } else {
      var prefix, e := history[..|history| - 1], history[|history| - 1];
      assert history == prefix + [e];
      OriginBound(ps, prefix);
      InsertMovesByOne(ps, prefix, e);
      DistanceIsMetric(ps.capacity, zero, Bins(ps, prefix), Bins(ps, history));
    }
  }

  ghost function Listing(m: multiset<Entry>): (s: seq<Entry>)
    ensures multiset(s) == m && |s| == |m|
    decreases |m|
  {
    if m == multiset{} then []
    else
      var e :| e in m;
      Listing(m - multiset{e}) + [e]
  }

  /** The number of entries in which two histories differ, counted on both sides. */
  ghost function Disagreement(a: seq<Entry>, b: seq<Entry>): nat {
    |multiset(a) - multiset(b)| + |multiset(b) - multiset(a)|
  }

  lemma SplitByOther(a: multiset<Entry>, b: multiset<Entry>)
    ensures a == (a - b) + (a * b)
  {
  }

  lemma CommonPart(a: seq<Entry>, b: seq<Entry>) returns (c: seq<Entry>, x: seq<Entry>, y: seq<Entry>)
    ensures multiset(a) == multiset(x + c) && multiset(b) == multiset(y + c)
    ensures |x| + |y| == Disagreement(a, b)
  {
    var ma, mb := multiset(a), multiset(b);
    c, x, y := Listing(ma * mb), Listing(ma - mb), Listing(mb - ma);
    SplitByOther(ma, mb);
    SplitByOther(mb, ma);
    assert mb * ma == ma * mb;
  }

  lemma SharedSuffix(ps: Params, x: seq<Entry>, y: seq<Entry>, c: seq<Entry>)
    requires ps.Sound()
    ensures Distance(ps.capacity, Bins(ps, x + c), Bins(ps, y + c)) == Distance(ps.capacity, Bins(ps, x), Bins(ps, y))
  {
    MergeIsConcatenation(ps, x, c);
    MergeIsConcatenation(ps, y, c);
    DistanceIgnoresCommonPart(ps.capacity, Bins(ps, x), Bins(ps, y), Bins(ps, c));
  }

  lemma ThroughTheOrigin(ps: Params, x: seq<Entry>, y: seq<Entry>)
    requires ps.Sound()
    ensures Distance(ps.capacity, Bins(ps, x), Bins(ps, y)) <= |x| + |y|
  {
    var m, zero := ps.capacity, Zeros(ps.binNum);
    DistanceIsMetric(m, Bins(ps, x), zero, Bins(ps, y));
    DistanceIsMetric(m, zero, Bins(ps, x), zero);
    OriginBound(ps, x);
    OriginBound(ps, y);
  }

  lemma NearbyHistories(ps: Params, a: seq<Entry>, b: seq<Entry>)
    requires ps.Sound()
    ensures Distance(ps.capacity, Bins(ps, a), Bins(ps, b)) <= Disagreement(a, b)
  {
    var c, x, y := CommonPart(a, b);
    OrderIndependent(ps, a, x + c);
    OrderIndependent(ps, b, y + c);
    SharedSuffix(ps, x, y, c);
    ThroughTheOrigin(ps, x, y);
  }

  /** Nearby histories give every node nearly the same rank: the reason for having two radii. */
  lemma NearbyRanks(ps: Params, a: seq<Entry>, b: seq<Entry>)
    requires ps.Sound()
    ensures FromOrigin(ps, b) <= FromOrigin(ps, a) + Disagreement(a, b)
  {
    NearbyHistories(ps, a, b);
    DistanceIsMetric(ps.capacity, Zeros(ps.binNum), Bins(ps, a), Bins(ps, b));
  }
}
