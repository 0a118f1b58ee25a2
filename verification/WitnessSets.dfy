/**
 * What the selection loop computes, for whatever order the sort leaves equal distances in, and why processes
 * with nearby histories pick overlapping sets.
 */
module WitnessSets {
  import opened GoIntegers
  import opened Bytes
  import opened Rings
  import opened Histories
  import opened Selection

  ghost predicate Distinct<T(!new)>(ids: seq<T>) {
    forall i, j | 0 <= i < j < |ids| :: ids[i] != ids[j]
  }

  lemma {:induction false} PotMembers<T(!new)>(ids: seq<T>, ds: seq<int>, order: seq<Dist>, c: nat, k: nat)
    requires |ids| == |ds| && Distinct(ids) && IsRanking(ds, order) && c <= |order| && k < |order|
    ensures ids[order[k].ind] in PotUpTo(ids, order, c) <==> k < c
    ensures |PotUpTo(ids, order, c)| == c
  {
    if c > 0 {
      PotMembers(ids, ds, order, c - 1, k);
      PotMembers(ids, ds, order, c - 1, c - 1);
    }
  }

  lemma {:induction false} OwnMembers<T(!new)>(
    ws: Selector, ids: seq<T>, ds: seq<int>, order: seq<Dist>, c: nat, k: nat)
    requires |ids| == |ds| && Distinct(ids) && IsRanking(ds, order) && c <= |order| && k < |order|
    ensures ids[order[k].ind] in OwnUpTo(ws, ids, order, c) <==> k < c && ws.Owns(k, order[k].d)
  {
    if c > 0 {
      OwnMembers(ws, ids, ds, order, c - 1, k);
    }
  }

  /** Ownership, too, is a prefix of the ranking: its size is where that prefix ends. */
  lemma {:induction false} OwnSize<T(!new)>(ws: Selector, ids: seq<T>, ds: seq<int>, order: seq<Dist>, c: nat)
    returns (size: nat)
    requires |ids| == |ds| && Distinct(ids) && IsRanking(ds, order) && c <= |order|
    ensures |OwnUpTo(ws, ids, order, c)| == size <= c
    ensures forall k | 0 <= k < c :: ws.Owns(k, order[k].d) <==> k < size
  {
    if c == 0 {
      size := 0;
    } else {
      size := OwnSize(ws, ids, ds, order, c - 1);
      OwnMembers(ws, ids, ds, order, c - 1, c - 1);
      assert forall p | 0 <= p < c :: order[p].d <= order[c - 1].d;
      if ws.Owns(c - 1, order[c - 1].d) {
        size := size + 1;
      }
    }
  }

  lemma PositionOf(ds: seq<int>, order: seq<Dist>, i: nat) returns (k: nat)
    requires IsRanking(ds, order) && i < |ds|
    ensures k < |order| && order[k].ind == i && order[k].d == ds[i]
  {
    assert Ranked(order, i);
    k :| k < |order| && order[k].ind == i;
  }

  /** The declarative reading of the potential set. */
  lemma PotentialSet<T(!new)>(ws: Selector, ids: seq<T>, ds: seq<int>, order: seq<Dist>, i: nat, j: nat)
    requires |ids| == |ds| && Distinct(ids) && IsRanking(ds, order) && i < |ds| && j < |ds|
    ensures ds[i] as real < ws.potWitnessSetRadius ==> ids[i] in Pot(ws, ids, order)
    ensures ids[i] in Pot(ws, ids, order) && ids[j] !in Pot(ws, ids, order) ==> ds[i] <= ds[j]
    ensures |Pot(ws, ids, order)| >= Min(|ids|, ws.minPotWitnessSetSize)
    ensures ids[i] in Pot(ws, ids, order) && ds[i] as real >= ws.potWitnessSetRadius
            ==> |Pot(ws, ids, order)| <= ws.minPotWitnessSetSize
  {
    var c := CutLength(ws, order);
    var k := PositionOf(ds, order, i);
    var l := PositionOf(ds, order, j);
    PotMembers(ids, ds, order, c, k);
    PotMembers(ids, ds, order, c, l);
    if c <= k {
      assert order[c].d <= order[k].d;
    } else {
      assert order[k].d <= order[c - 1].d;
    }
  }

  /** The declarative reading of the own set. */
  lemma OwnWitnesses<T(!new)>(ws: Selector, ids: seq<T>, ds: seq<int>, order: seq<Dist>, i: nat, j: nat)
    requires |ids| == |ds| && Distinct(ids) && IsRanking(ds, order) && i < |ds| && j < |ds|
    ensures ids[i] in Own(ws, ids, order) ==> ids[i] in Pot(ws, ids, order)
    ensures ids[i] in Pot(ws, ids, order) && ds[i] as real < ws.ownWitnessSetRadius ==> ids[i] in Own(ws, ids, order)
    ensures ids[i] in Own(ws, ids, order) && ids[j] !in Own(ws, ids, order) ==> ds[i] <= ds[j]
    ensures |Own(ws, ids, order)| >= Min(|ids|, Min(ws.minOwnWitnessSetSize, ws.minPotWitnessSetSize))
    ensures ids[i] in Own(ws, ids, order) && ds[i] as real >= ws.ownWitnessSetRadius
            ==> |Own(ws, ids, order)| <= ws.minOwnWitnessSetSize
  {
    var c := CutLength(ws, order);
    var k := PositionOf(ds, order, i);
    var l := PositionOf(ds, order, j);
    PotMembers(ids, ds, order, c, k);
    OwnMembers(ws, ids, ds, order, c, k);
    OwnMembers(ws, ids, ds, order, c, l);
    var size := OwnSize(ws, ids, ds, order, c);
    if k < c {
      assert forall p | k <= p < c :: order[k].d <= order[p].d;
    }
    if size < c {
      assert !ws.Owns(size, order[size].d);
    }
    if k < l {
      assert order[k].d <= order[l].d;
    }
    if size > 0 && k < size {
      assert order[k].d <= order[size - 1].d && ws.Owns(size - 1, order[size - 1].d);
    }
  }

  /** Node i's rank after a history: the distance of its own hash, seeded with its index, from the origin. */
  ghost predicate RanksOf(params: seq<Params>, history: seq<Entry>, ds: seq<int>) {
    && |ds| == |params|
    && forall i | 0 <= i < |ds| :: params[i].Sound() && ds[i] == FromOrigin(params[i], history)
  }

  /**
   * Two processes whose committed secrets differ in at most k entries, with radii at least k apart: whatever
   * the first owns by radius, the second has in its potential set. The orders may break ties differently.
   */
  lemma WitnessOverlap<T(!new)>(
    ws: Selector, ids: seq<T>, params: seq<Params>,
    historyA: seq<Entry>, dsA: seq<int>,
    historyB: seq<Entry>, dsB: seq<int>, orderB: seq<Dist>, k: nat, i: nat)
    requires Distinct(ids) && |ids| == |params|
    requires RanksOf(params, historyA, dsA) && RanksOf(params, historyB, dsB)
    requires IsRanking(dsB, orderB)
    requires Disagreement(historyA, historyB) <= k
    requires ws.potWitnessSetRadius - ws.ownWitnessSetRadius >= k as real
    requires i < |ids| && dsA[i] as real < ws.ownWitnessSetRadius
    ensures ids[i] in Pot(ws, ids, orderB)
  {
    NearbyRanks(params[i], historyA, historyB);
    PotentialSet(ws, ids, dsB, orderB, i, i);
  }

  // ---------------------------------------------------------------- exactly which nodes nearby processes share

  /** Distances another process may measure when the histories differ in at most k entries. */
  ghost predicate Near(dsA: seq<int>, dsB: seq<int>, k: nat) {
    |dsA| == |dsB| && forall j | 0 <= j < |dsA| :: 0 <= dsB[j] && Abs(dsA[j] - dsB[j]) <= k
  }

  /** The nodes that could come before node i in the ranking of such distances. */
  function MayPrecede(dsA: seq<int>, k: nat, i: nat): set<nat>
    requires i < |dsA|
  {
    set j: nat | j < |dsA| && j != i && dsA[j] - k <= dsA[i] + k
  }

  /** The nodes that do come before position p. */
  function Before(order: seq<Dist>, p: nat): set<nat>
    requires p <= |order|
  {
    set l | 0 <= l < p :: order[l].ind
  }

  lemma {:induction false} BeforeSize(order: seq<Dist>, p: nat)
    requires p <= |order| && forall k, l | 0 <= k < l < |order| :: order[k].ind != order[l].ind
    ensures |Before(order, p)| == p
  {
    if p > 0 {
      BeforeSize(order, p - 1);
      assert order[p - 1].ind !in Before(order, p - 1);
      assert Before(order, p) == Before(order, p - 1) + {order[p - 1].ind};
    }
  }

  lemma InFirst(order: seq<Dist>, l: nat, p: nat)
    requires l < p <= |order|
    ensures order[l].ind in Before(order, p)
  {
  }

  lemma SmallerSet(a: set<nat>, b: set<nat>)
    requires a <= b
    ensures |a| <= |b|
  {
    assert b == a + (b - a);
  }

  /** Reaching a node is a matter of its own place in the ranking. */
  lemma PotAtPosition<T(!new)>(ws: Selector, ids: seq<T>, ds: seq<int>, order: seq<Dist>, p: nat)
    requires |ids| == |ds| && Distinct(ids) && IsRanking(ds, order) && p < |order|
    ensures ids[order[p].ind] in Pot(ws, ids, order) <==> ws.Reaches(p, order[p].d)
  {
    var c := CutLength(ws, order);
    PotMembers(ids, ds, order, c, p);
    if c <= p {
      assert order[c].d <= order[p].d;
    }
  }

  /** The distances that push node i as far back as they can, and a ranking with every tie decided against it. */
  function WorstFor(dsA: seq<int>, k: nat, i: nat): (dsB: seq<int>)
    requires i < |dsA|
    ensures |dsB| == |dsA|
  {
    seq(|dsA|, j requires 0 <= j < |dsA| => if j == i then dsA[i] + k else if dsA[j] < k then 0 else dsA[j] - k)
  }

  ghost function TiesAgainst(ds: seq<int>, i: nat): (order: seq<Dist>)
    ensures |order| == |ds|
  {
    var keys := seq(|ds|, j requires 0 <= j < |ds| => 2 * ds[j] + if j == i then 1 else 0);
    RankingIsRanking(keys);
    var ranked := Ranking(keys);
    seq(|ds|, l requires 0 <= l < |ds| => Dist(ranked[l].ind, ds[ranked[l].ind]))
  }

  lemma TiesAgainstRanks(ds: seq<int>, i: nat, p: nat)
    requires p < |ds|
    ensures var order := TiesAgainst(ds, i);
            && IsRanking(ds, order)
            && (order[p].ind == i ==> forall l | p < l < |ds| :: order[l].d > order[p].d)
  {
    var keys := seq(|ds|, j requires 0 <= j < |ds| => 2 * ds[j] + if j == i then 1 else 0);
    RankingIsRanking(keys);
    var ranked, order := Ranking(keys), TiesAgainst(ds, i);
    assert forall l | 0 <= l < |ds| :: ranked[l].d == keys[ranked[l].ind] && order[l].ind == ranked[l].ind;
    forall j | 0 <= j < |ds|
      ensures Ranked(order, j)
    {
      assert Ranked(ranked, j);
      var l :| 0 <= l < |ranked| && ranked[l].ind == j;
      assert order[l].ind == j;
    }
  }

  /**
   * Exactly when node i is a potential witness for everybody nearby, whatever the order of equal distances: its own
   * distance leaves room below the potential radius, or too few nodes could come before it to use up the minimum.
   */
  lemma PotentialForAllNearby<T(!new)>(ws: Selector, ids: seq<T>, dsA: seq<int>, k: nat, i: nat)
    requires Distinct(ids) && i < |ids| == |dsA| && forall j | 0 <= j < |dsA| :: dsA[j] >= 0
    ensures (forall dsB, orderB | Near(dsA, dsB, k) && IsRanking(dsB, orderB) :: ids[i] in Pot(ws, ids, orderB))
            <==> (dsA[i] + k) as real < ws.potWitnessSetRadius || |MayPrecede(dsA, k, i)| < ws.minPotWitnessSetSize
  {
    if (dsA[i] + k) as real < ws.potWitnessSetRadius || |MayPrecede(dsA, k, i)| < ws.minPotWitnessSetSize {
      forall dsB, orderB | Near(dsA, dsB, k) && IsRanking(dsB, orderB)
        ensures ids[i] in Pot(ws, ids, orderB)
      {
        PotentialNearby(ws, ids, dsA, dsB, orderB, k, i);
      }
    } else {
      NotPotentialSomewhere(ws, ids, dsA, k, i);
    }
  }

  lemma PotentialNearby<T(!new)>(
    ws: Selector, ids: seq<T>, dsA: seq<int>, dsB: seq<int>, orderB: seq<Dist>, k: nat, i: nat)
    requires Distinct(ids) && i < |ids| == |dsA| && Near(dsA, dsB, k) && IsRanking(dsB, orderB)
    requires (dsA[i] + k) as real < ws.potWitnessSetRadius || |MayPrecede(dsA, k, i)| < ws.minPotWitnessSetSize
    ensures ids[i] in Pot(ws, ids, orderB)
  {
    var p := PositionOf(dsB, orderB, i);
    PotAtPosition(ws, ids, dsB, orderB, p);
    BeforeSize(orderB, p);
    forall j | j in Before(orderB, p)
      ensures j in MayPrecede(dsA, k, i)
    {
      var l :| 0 <= l < p && orderB[l].ind == j;
      assert orderB[l].d <= orderB[p].d;
    }
    SmallerSet(Before(orderB, p), MayPrecede(dsA, k, i));
  }

  lemma NotPotentialSomewhere<T(!new)>(ws: Selector, ids: seq<T>, dsA: seq<int>, k: nat, i: nat)
    requires Distinct(ids) && i < |ids| == |dsA| && forall j | 0 <= j < |dsA| :: dsA[j] >= 0
    requires (dsA[i] + k) as real >= ws.potWitnessSetRadius && |MayPrecede(dsA, k, i)| >= ws.minPotWitnessSetSize
    ensures var dsB := WorstFor(dsA, k, i);
            var orderB := TiesAgainst(dsB, i);
            Near(dsA, dsB, k) && IsRanking(dsB, orderB) && ids[i] !in Pot(ws, ids, orderB)
  {
    var dsB := WorstFor(dsA, k, i);
    var orderB := TiesAgainst(dsB, i);
    TiesAgainstRanks(dsB, i, 0);
    var p := PositionOf(dsB, orderB, i);
    TiesAgainstRanks(dsB, i, p);
    PotAtPosition(ws, ids, dsB, orderB, p);
    BeforeSize(orderB, p);
    forall j | j in MayPrecede(dsA, k, i)
      ensures j in Before(orderB, p)
    {
      var l := PositionOf(dsB, orderB, j);
      assert dsB[j] <= dsB[i];
      InFirst(orderB, l, p);
    }
    SmallerSet(MayPrecede(dsA, k, i), Before(orderB, p));
  }

  /** The same of histories: this is what a process can tell from its own distances alone. */
  lemma StaysPotential<T(!new)>(
    ws: Selector, ids: seq<T>, params: seq<Params>,
    historyA: seq<Entry>, dsA: seq<int>,
    historyB: seq<Entry>, dsB: seq<int>, orderB: seq<Dist>, k: nat, i: nat)
    requires Distinct(ids) && i < |ids| == |params|
    requires RanksOf(params, historyA, dsA) && RanksOf(params, historyB, dsB)
    requires IsRanking(dsB, orderB)
    requires Disagreement(historyA, historyB) <= k
    requires (dsA[i] + k) as real < ws.potWitnessSetRadius || |MayPrecede(dsA, k, i)| < ws.minPotWitnessSetSize
    ensures ids[i] in Pot(ws, ids, orderB)
  {
    NearbyAreNear(params, historyA, dsA, historyB, dsB, k);
    PotentialNearby(ws, ids, dsA, dsB, orderB, k, i);
  }

  lemma NearbyAreNear(
    params: seq<Params>, historyA: seq<Entry>, dsA: seq<int>, historyB: seq<Entry>, dsB: seq<int>, k: nat)
    requires RanksOf(params, historyA, dsA) && RanksOf(params, historyB, dsB)
    requires Disagreement(historyA, historyB) <= k
    ensures Near(dsA, dsB, k)
  {
    forall j | 0 <= j < |dsA|
      ensures 0 <= dsB[j] && Abs(dsA[j] - dsB[j]) <= k
    {
      NearbyRanks(params[j], historyA, historyB);
      NearbyRanks(params[j], historyB, historyA);
      DistanceBounded(params[j].capacity, Zeros(params[j].binNum), Bins(params[j], historyB));
    }
  }

  // ---------------------------------------------------------------- sizes alone do not overlap

  /** A hash of one bit: entry [t] moves the only bin of node t back, and that of any other node on. */
  function OneBin(node: int32): Params {
    Params(1, 16, (s: seq<byte>) => if |s| >= 2 && s[0] == s[1] then [0] else [1], Int32ToBytes(node))
  }

  lemma OneBinMoves(node: int32, t: byte)
    requires 0 <= node < 256
    ensures Index(OneBin(node), [t]) == 0 && Direction(OneBin(node), [t]) == if t == node then -1 else 1
  {
    var ps := OneBin(node);
    var s := [t] + ps.seed;
    assert s[0] == t && s[1] == ps.seed[0] == node % TWO32 % 256;
    assert Value([0]) == 0 && Value([1]) == 1;
    assert BitAnd(0, 1) == 0 && BitAnd(1, 1) == 1;
  }

  lemma OneBinAfterTwo(node: int32, s: byte, t: byte)
    requires 0 <= node < 256 && s != node
    ensures FromOrigin(OneBin(node), [[s], [t]]) == if t == node then 0 else 2
  {
    var ps, history: seq<Entry> := OneBin(node), [[s], [t]];
    OneBinMoves(node, s);
    OneBinMoves(node, t);
    assert history[..1] == [[s]] && history[..1][..0] == [];
    assert Bins(ps, []) == [0];
    assert Bins(ps, history[..1]) == [1];
    assert Bins(ps, history) == [if t == node then 0 else 2];
    var arcs := Arcs(16, [0], Bins(ps, history));
    assert Zeros(1) == [0] && arcs[..0] == [];
    assert Sum(arcs) == arcs[0];
  }

  lemma NearestOfTwo(ws: Selector)
    requires ws == Selector(1, 1, 2.0, 0.0)
    ensures OwnSet(ws, [0, 1], [0, 2]) == {0} == PotSet(ws, [0, 1], [0, 2])
    ensures OwnSet(ws, [0, 1], [2, 0]) == {1} == PotSet(ws, [0, 1], [2, 0])
  {
    var a, b := [0, 2], [2, 0];
    assert a[..1] == [0] && b[..1] == [2];
    assert Enumerated(a) == [Dist(0, 0), Dist(1, 2)] && Enumerated(b) == [Dist(0, 2), Dist(1, 0)];
    assert Enumerated(a)[..1] == [Dist(0, 0)] && Enumerated(b)[..1] == [Dist(0, 2)];
    assert SortByDist([Dist(0, 0)]) == [Dist(0, 0)] && SortByDist([Dist(0, 2)]) == [Dist(0, 2)];
    assert Ranking(a) == [Dist(0, 0), Dist(1, 2)];
    assert [Dist(0, 2)][..0] + [Dist(1, 0)] + [Dist(0, 2)] == [Dist(1, 0), Dist(0, 2)];
    InsertDistAt([Dist(0, 2)], Dist(1, 0), 0);
    assert Ranking(b) == [Dist(1, 0), Dist(0, 2)];
  }

  lemma OneBinRanks(t: byte)
    requires t < 2
    ensures RanksAfter([OneBin(0), OneBin(1)], [[2], [t]]) == if t == 0 then [0, 2] else [2, 0]
  {
    OneBinAfterTwo(0, 2, t);
    OneBinAfterTwo(1, 2, t);
  }

  lemma LastsDiffer(x: Entry, y: Entry, z: Entry)
    requires y != z
    ensures Disagreement([x, y], [x, z]) == 2
  {
    assert multiset([x, y]) - multiset([x, z]) == multiset{y};
    assert multiset([x, z]) - multiset([x, y]) == multiset{z};
  }

  /**
   * Membership earned by the minimum size alone need not carry over. Two histories of two insertions differ in one of
   * them, the radii are as far apart as the disagreement, and yet each process owns a node that the other does not
   * even have in its potential set.
   */
  lemma MinimumSizeNeedNotOverlap()
    ensures var ws, params := Selector(1, 1, 2.0, 0.0), [OneBin(0), OneBin(1)];
            var a: seq<Entry>, b: seq<Entry> := [[2], [0]], [[2], [1]];
            var dsA, dsB := RanksAfter(params, a), RanksAfter(params, b);
            && Disagreement(a, b) == 2
            && OwnSet(ws, [0, 1], dsA) == {0} == PotSet(ws, [0, 1], dsA)
            && OwnSet(ws, [0, 1], dsB) == {1} == PotSet(ws, [0, 1], dsB)
  {
    OneBinRanks(0);
    OneBinRanks(1);
    LastsDiffer([2], [0], [1]);
    NearestOfTwo(Selector(1, 1, 2.0, 0.0));
  }

  /** Equal committed secrets, in whatever order, give equal ranks and so equal sets. */
  lemma EqualHistoriesEqualSets(
    params: seq<Params>, historyA: seq<Entry>, dsA: seq<int>, historyB: seq<Entry>, dsB: seq<int>)
    requires RanksOf(params, historyA, dsA) && RanksOf(params, historyB, dsB)
    requires multiset(historyA) == multiset(historyB)
    ensures dsA == dsB
  {
    forall i | 0 <= i < |dsA|
      ensures dsA[i] == dsB[i]
    {
      OrderIndependent(params[i], historyA, historyB);
    }
  }
}
