/** How a process ranks the nodes by their history hashes and cuts its own and potential witness sets. */
module Selection {
  import opened Histories
  import opened HistoryHashing
  import opened Options

  datatype Dist = Dist(ind: nat, d: int)

  ghost predicate SortedByDist(s: seq<Dist>) {
    forall i, j | 0 <= i < j < |s| :: s[i].d <= s[j].d
  }

  function InsertDist(s: seq<Dist>, x: Dist): seq<Dist> {
    if s == [] || s[|s| - 1].d <= x.d then s + [x]
    else InsertDist(s[..|s| - 1], x) + [s[|s| - 1]]
  }

  function SortByDist(s: seq<Dist>): (r: seq<Dist>) {
    if s == [] then [] else InsertDist(SortByDist(s[..|s| - 1]), s[|s| - 1])
  }

  lemma {:induction false} InsertDistAt(s: seq<Dist>, x: Dist, j: nat)
    requires j <= |s| && (j > 0 ==> s[j - 1].d <= x.d)
    requires forall k | j <= k < |s| :: x.d < s[k].d
    ensures InsertDist(s, x) == s[..j] + [x] + s[j..]
  {
    if j < |s| {
      var n := |s| - 1;
      InsertDistAt(s[..n], x, j);
      assert s[..j] + [x] + s[j..] == (s[..n][..j] + [x] + s[..n][j..]) + [s[n]];
    }
  }

  lemma InsertionPoint(s: seq<Dist>, x: Dist) returns (j: nat)
    requires SortedByDist(s)
    ensures j <= |s| && InsertDist(s, x) == s[..j] + [x] + s[j..]
    ensures j > 0 ==> s[j - 1].d <= x.d
    ensures forall k | j <= k < |s| :: x.d < s[k].d
  {
    j := |s|;
    while j > 0 && x.d < s[j - 1].d
      invariant j <= |s| && forall k | j <= k < |s| :: x.d < s[k].d
    {
      j := j - 1;
    }
    InsertDistAt(s, x, j);
  }

  lemma InsertDistSorts(s: seq<Dist>, x: Dist)
    requires SortedByDist(s)
    ensures SortedByDist(InsertDist(s, x))
    ensures multiset(InsertDist(s, x)) == multiset(s) + multiset{x}
  {
    var j := InsertionPoint(s, x);
    var a, b := s[..j], s[j..];
    assert s == a + b;
    SortedAround(a, x, b);
    MultisetAround(a, x, b);
  }

  lemma MultisetAround(a: seq<Dist>, x: Dist, b: seq<Dist>)
    ensures multiset(a + [x] + b) == multiset(a + b) + multiset{x}
  {
  }

  lemma SortedAround(a: seq<Dist>, x: Dist, b: seq<Dist>)
    requires SortedByDist(a + b)
    requires a != [] ==> a[|a| - 1].d <= x.d
    requires b != [] ==> x.d <= b[0].d
    ensures SortedByDist(a + [x] + b)
  {
    var s, r := a + b, a + [x] + b;
    forall i, j | 0 <= i < j < |r|
      ensures r[i].d <= r[j].d
    {
      var i' := if i <= |a| then i else i - 1;
      var j' := if j <= |a| then j else j - 1;
      if i == |a| {
        assert x.d <= s[|a|].d <= s[j'].d;
      } else if j == |a| {
        assert s[i'].d <= s[|a| - 1].d <= x.d;
      } else {
        assert s[i'].d <= s[j'].d;
      }
    }
  }

  lemma {:induction false} SortByDistSorts(s: seq<Dist>)
    ensures SortedByDist(SortByDist(s)) && multiset(SortByDist(s)) == multiset(s)
  {
    if s != [] {
      var n := |s| - 1;
      assert s == s[..n] + [s[n]];
      SortByDistSorts(s[..n]);
      InsertDistSorts(SortByDist(s[..n]), s[n]);
    }
  }

  /** Moves a[i] down to its place in the sorted prefix before it. */
  method Sink(a: array<Dist>, i: nat)
    requires i < a.Length
    modifies a
    ensures a[..i + 1] == InsertDist(old(a[..i]), old(a[i])) && a[i + 1..] == old(a[i + 1..])
  {
    ghost var s, x := a[..i], a[i];
    var j := i;
    while j > 0 && a[j].d < a[j - 1].d
      invariant 0 <= j <= i && a[j] == x
      invariant forall k | 0 <= k < j :: a[k] == s[k]
      invariant forall k | j < k <= i :: a[k] == s[k - 1]
      invariant forall k | i < k < a.Length :: a[k] == old(a[k])
      invariant forall k | j <= k < i :: x.d < s[k].d
    {
      a[j], a[j - 1] := a[j - 1], a[j];
      j := j - 1;
    }
    InsertDistAt(s, x, j);
    assert a[..i + 1] == s[..j] + [x] + s[j..];
  }

  /** In-place insertion sort, standing in for the library sort. */
  method Sort(a: array<Dist>)
    modifies a
    ensures a[..] == SortByDist(old(a[..]))
  {
    ghost var was := a[..];
    for i := 0 to a.Length
      invariant a[..i] == SortByDist(was[..i]) && a[i..] == was[i..]
    {
      assert a[i] == a[i..][0] == was[i];
      assert was[..i + 1][..i] == was[..i];
      Sink(a, i);
      assert a[i + 1..] == was[i..][1..];
    }
    assert a[..a.Length] == a[..] && was[..a.Length] == was;
  }

  datatype Selector = Selector(
    minPotWitnessSetSize: int,
    minOwnWitnessSetSize: int,
    potWitnessSetRadius: real,
    ownWitnessSetRadius: real
  ) {
    predicate Reaches(i: nat, d: int) {
      i < minPotWitnessSetSize || d as real < potWitnessSetRadius
    }

    predicate Owns(i: nat, d: int) {
      i < minOwnWitnessSetSize || d as real < ownWitnessSetRadius
    }
  }

  function Enumerated(ds: seq<int>): (s: seq<Dist>)
    ensures |s| == |ds|
  {
    if ds == [] then [] else Enumerated(ds[..|ds| - 1]) + [Dist(|ds| - 1, ds[|ds| - 1])]
  }

  function Ranking(ds: seq<int>): (order: seq<Dist>) {
    SortByDist(Enumerated(ds))
  }

  /** Any order a sort may produce: each node once, with its distance, nearest first. */
  ghost predicate IsRanking(ds: seq<int>, order: seq<Dist>) {
    && |order| == |ds|
    && SortedByDist(order)
    && (forall k | 0 <= k < |order| :: order[k].ind < |ds| && order[k].d == ds[order[k].ind])
    && (forall k, l | 0 <= k < l < |order| :: order[k].ind != order[l].ind)
    && (forall i | 0 <= i < |ds| :: Ranked(order, i))
  }

  lemma EnumeratedExtends(ds: seq<int>, d: int)
    ensures Enumerated(ds + [d]) == Enumerated(ds) + [Dist(|ds|, d)]
  {
    assert (ds + [d])[..|ds|] == ds;
  }

  ghost predicate Ranked(order: seq<Dist>, i: nat) {
    exists k :: 0 <= k < |order| && order[k].ind == i
  }

  lemma {:induction false} EnumeratedOnce(ds: seq<int>, x: Dist)
    ensures multiset(Enumerated(ds))[x] <= 1
    ensures x in multiset(Enumerated(ds)) <==> x.ind < |ds| && x.d == ds[x.ind]
    decreases |ds|
  {
    if ds != [] {
      var n := |ds| - 1;
      EnumeratedOnce(ds[..n], x);
      assert multiset(Enumerated(ds)) == multiset(Enumerated(ds[..n])) + multiset{Dist(n, ds[n])};
    }
  }

  lemma RepeatedTwice(s: seq<Dist>, k: nat, l: nat)
    requires k < l < |s| && s[k] == s[l]
    ensures multiset(s)[s[k]] >= 2
  {
    assert s == s[..l] + [s[l]] + s[l + 1..];
    assert s[k] in s[..l];
  }

  lemma RankingIsRanking(ds: seq<int>)
    ensures IsRanking(ds, Ranking(ds))
  {
    var e, order := Enumerated(ds), Ranking(ds);
    SortByDistSorts(e);
    assert |order| == |multiset(order)| == |multiset(e)| == |e|;
    forall k | 0 <= k < |order|
      ensures order[k].ind < |ds| && order[k].d == ds[order[k].ind]
    {
      assert order[k] in multiset(order);
      EnumeratedOnce(ds, order[k]);
    }
    forall k, l | 0 <= k < l < |order|
      ensures order[k].ind != order[l].ind
    {
      if order[k] == order[l] {
        RepeatedTwice(order, k, l);
        EnumeratedOnce(ds, order[k]);
      }
    }
    forall i | 0 <= i < |ds|
      ensures Ranked(order, i)
    {
      EnumeratedOnce(ds, Dist(i, ds[i]));
      assert Dist(i, ds[i]) in multiset(order);
      assert Dist(i, ds[i]) in order;
    }
  }

  /** The number of nodes the selection loop visits before it stops. */
  function CutLength(ws: Selector, order: seq<Dist>, i: nat := 0): (c: nat)
    requires i <= |order|
    ensures i <= c <= |order|
    ensures forall k | i <= k < c :: ws.Reaches(k, order[k].d)
    ensures c < |order| ==> !ws.Reaches(c, order[c].d)
    decreases |order| - i
  {
    if i < |order| && ws.Reaches(i, order[i].d) then CutLength(ws, order, i + 1) else i
  }

  ghost predicate Indexes<T>(ids: seq<T>, order: seq<Dist>) {
    forall k | 0 <= k < |order| :: order[k].ind < |ids|
  }

  /** The first c nodes of a ranking, and those of them that are also owned. */
  ghost function PotUpTo<T>(ids: seq<T>, order: seq<Dist>, c: nat): (s: set<T>)
    requires Indexes(ids, order) && c <= |order|
  {
    if c == 0 then {} else PotUpTo(ids, order, c - 1) + {ids[order[c - 1].ind]}
  }

  ghost function OwnUpTo<T>(ws: Selector, ids: seq<T>, order: seq<Dist>, c: nat): (s: set<T>)
    requires Indexes(ids, order) && c <= |order|
  {
    if c == 0 then {}
    else if ws.Owns(c - 1, order[c - 1].d) then OwnUpTo(ws, ids, order, c - 1) + {ids[order[c - 1].ind]}
    else OwnUpTo(ws, ids, order, c - 1)
  }

  ghost function Pot<T>(ws: Selector, ids: seq<T>, order: seq<Dist>): set<T>
    requires Indexes(ids, order)
  {
    PotUpTo(ids, order, CutLength(ws, order))
  }

  ghost function Own<T>(ws: Selector, ids: seq<T>, order: seq<Dist>): set<T>
    requires Indexes(ids, order)
  {
    OwnUpTo(ws, ids, order, CutLength(ws, order))
  }

  /** The sets the process picks when its nodes are at distances ds. */
  ghost function OwnSet<T>(ws: Selector, ids: seq<T>, ds: seq<int>): set<T>
    requires |ids| == |ds|
  {
    RankingIsRanking(ds);
    Own(ws, ids, Ranking(ds))
  }

  ghost function PotSet<T>(ws: Selector, ids: seq<T>, ds: seq<int>): set<T>
    requires |ids| == |ds|
  {
    RankingIsRanking(ds);
    Pot(ws, ids, Ranking(ds))
  }

  predicate Alike(h: HistoryHash, g: HistoryHash) {
    h.binCapacity == g.binCapacity && h.binNum == g.binNum
  }

  predicate SameShape(hashes: seq<HistoryHash>, n: nat)
    requires n <= |hashes|
  {
    forall i | 0 <= i < n :: Alike(hashes[i], hashes[0])
  }

  /** The first n histories have moved ds away from the origin. */
  ghost predicate AreAt(hashes: seq<HistoryHash>, ds: seq<int>, n: nat)
    requires n <= |ds| <= |hashes|
    reads hashes, set h | h in hashes :: h.bins, set h | h in hashes :: h.bins.vector
  {
    n > 0 ==>
      && AreAt(hashes, ds, n - 1)
      && hashes[n - 1].Valid()
      && FromOrigin(hashes[n - 1].Params(), hashes[n - 1].history) == ds[n - 1]
  }

  lemma {:induction false} EachIsAt(hashes: seq<HistoryHash>, ds: seq<int>, n: nat, i: nat)
    requires i < n <= |ds| <= |hashes| && AreAt(hashes, ds, n)
    ensures hashes[i].Valid() && FromOrigin(hashes[i].Params(), hashes[i].history) == ds[i]
  {
    if i < n - 1 {
      EachIsAt(hashes, ds, n - 1, i);
    }
  }

  /** The first hash gives the origin its shape; a hash of another shape has no distance. */
  method MeasureDistance(hashes: seq<HistoryHash>, i: nat, ghost ds: seq<int>) returns (d: Option<int>)
    requires i < |ds| <= |hashes| && AreAt(hashes, ds, |ds|)
    ensures d == if Alike(hashes[i], hashes[0]) then Some(ds[i]) else None
  {
    EachIsAt(hashes, ds, |ds|, i);
    EachIsAt(hashes, ds, |ds|, 0);
    var defaultRing := new MultiRing(hashes[0].binCapacity, hashes[0].binNum);
    d := MultiRing.MultiRingDistance(defaultRing, hashes[i].bins);
  }

  /** The first loop. */
  method MeasureDistances(n: nat, hashes: seq<HistoryHash>, ghost ds: seq<int>)
    returns (distances: Option<seq<Dist>>)
    requires n == |ds| <= |hashes| && AreAt(hashes, ds, n)
    ensures distances == if SameShape(hashes, n) then Some(Enumerated(ds)) else None
  {
    var measured := [];
    for i := 0 to n
      invariant SameShape(hashes, i)
      invariant measured == Enumerated(ds[..i])
    {
      var d := MeasureDistance(hashes, i, ds);
      if d.None? {
        return None;
      }
      measured := measured + [Dist(i, d.value)];
      assert ds[..i + 1] == ds[..i] + [ds[i]];
      EnumeratedExtends(ds[..i], ds[i]);
    }
    assert ds[..n] == ds;
    distances := Some(measured);
  }

  /** The second loop: cuts the ranking into the two sets. */
  method Cut<T(==)>(ws: Selector, nodeIds: seq<T>, distances: array<Dist>) returns (own: set<T>, pot: set<T>)
    requires distances.Length == |nodeIds| && Indexes(nodeIds, distances[..])
    ensures own == Own(ws, nodeIds, distances[..]) && pot == Pot(ws, nodeIds, distances[..])
  {
    ghost var order := distances[..];
    pot, own := {}, {};
    var i := 0;
    while i < |nodeIds| && ws.Reaches(i, distances[i].d)
      invariant 0 <= i <= |nodeIds|
      invariant CutLength(ws, order) == CutLength(ws, order, i)
      invariant pot == PotUpTo(nodeIds, order, i)
      invariant own == OwnUpTo(ws, nodeIds, order, i)
    {
      assert distances[i] == order[i];
      var id := nodeIds[distances[i].ind];
      pot := pot + {id};
      if ws.Owns(i, distances[i].d) {
        own := own + {id};
      }
      i := i + 1;
    }
  }

  method GetWitnessSet<T(==)>(
    ws: Selector, nodeIds: seq<T>, historyHashes: seq<HistoryHash>, ghost ds: seq<int>)
    returns (ownWitnessSet: set<T>, potWitnessSet: set<T>)
    requires |nodeIds| == |ds| <= |historyHashes| && AreAt(historyHashes, ds, |ds|)
    ensures SameShape(historyHashes, |ds|) ==>
              ownWitnessSet == OwnSet(ws, nodeIds, ds) && potWitnessSet == PotSet(ws, nodeIds, ds)
    ensures !SameShape(historyHashes, |ds|) ==> ownWitnessSet == {} && potWitnessSet == {}
  {
    var measured := MeasureDistances(|nodeIds|, historyHashes, ds);
    if measured.None? {
      return {}, {};
    }
    var distances := new Dist[|nodeIds|](i requires 0 <= i < |measured.value| => measured.value[i]);
    assert distances[..] == Enumerated(ds);
    Sort(distances);
    RankingIsRanking(ds);
    ownWitnessSet, potWitnessSet := Cut(ws, nodeIds, distances);
  }
}
