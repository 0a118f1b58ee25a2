/** Commits and the choice of witnesses: the sets of the next instance follow from the committed secrets. */
module ReliableWitnesses {
  import opened GoIntegers
  import opened Bytes
  import opened Histories
  import opened Selection
  import opened WitnessSets
  import opened Reliable

  /** Processes of one system agree on everything witness sets are computed with. */
  ghost predicate SameSystem(c: Config, d: Config) {
    c.Sound() && d.Sound() && c.n == d.n && c.params == d.params && c.selector == d.selector
  }

  lemma IdsDistinct(n: nat)
    ensures Distinct(Ids(n))
  {
  }

  lemma RanksOfCommits(c: Config, p: Process)
    requires c.Sound()
    ensures RanksOf(c.params, SecretsOf(p.commits), RanksAfter(c.params, SecretsOf(p.commits)))
  {
  }

  lemma SecretsOfPermuted(a: seq<Commit>, b: seq<Commit>)
    requires multiset(Secrets(a)) == multiset(Secrets(b))
    ensures multiset(SecretsOf(a)) == multiset(SecretsOf(b))
  {
    SecretsOfIsImage(a);
    SecretsOfIsImage(b);
    ImageOfPermutation(Secrets(a), Secrets(b));
  }

  function Secrets(commits: seq<Commit>): (xs: seq<seq<int32>>)
    ensures |xs| == |commits| && forall i | 0 <= i < |xs| :: xs[i] == commits[i].x
  {
    seq(|commits|, i requires 0 <= i < |commits| => commits[i].x)
  }

  function Images(xs: seq<seq<int32>>): (es: seq<Entry>)
    ensures |es| == |xs|
  {
    if xs == [] then [] else Images(xs[..|xs| - 1]) + [SecretBytes(xs[|xs| - 1])]
  }

  lemma {:induction false} SecretsOfIsImage(commits: seq<Commit>)
    ensures SecretsOf(commits) == Images(Secrets(commits))
  {
    if commits != [] {
      var k := |commits| - 1;
      SecretsOfIsImage(commits[..k]);
      assert Secrets(commits)[..k] == Secrets(commits[..k]);
    }
  }

  lemma {:induction false} ImagesConcat(a: seq<seq<int32>>, b: seq<seq<int32>>)
    ensures Images(a + b) == Images(a) + Images(b)
  {
    if b == [] {
      assert a + b == a;
    } else {
      ImagesConcat(a, b[..|b| - 1]);
      assert (a + b)[..|a + b| - 1] == a + b[..|b| - 1];
    }
  }

  lemma {:induction false} ImageOfPermutation(a: seq<seq<int32>>, b: seq<seq<int32>>)
    requires multiset(a) == multiset(b)
    ensures multiset(Images(a)) == multiset(Images(b))
    decreases |a|
  {
    if a == [] {
      assert |multiset(b)| == |multiset(a)| == 0;
    } else {
      var n, x := |a| - 1, a[|a| - 1];
      assert a == a[..n] + [x];
      assert x in multiset(b);
      var j :| 0 <= j < |b| && b[j] == x;
      var front, back := b[..j], b[j + 1..];
      assert b == front + ([x] + back);
      WithoutLast(a[..n], x, front, back);
      ImageOfPermutation(a[..n], front + back);
      ImagesConcat(front, back);
      ImagesConcat(front, [x] + back);
      ImagesConcat([x], back);
      assert Images([x]) == [SecretBytes(x)];
      AddedAnywhere(Images(a[..n]), SecretBytes(x), Images(front), Images(back));
    }
  }

  lemma WithoutLast<T>(a: seq<T>, x: T, front: seq<T>, back: seq<T>)
    requires multiset(a + [x]) == multiset(front + ([x] + back))
    ensures multiset(a) == multiset(front + back)
  {
    assert multiset(a + [x]) == multiset(a) + multiset{x};
    AddedAnywhere(front + back, x, front, back);
    assert multiset(front + back + [x]) == multiset(front + back) + multiset{x};
    Cancels(multiset(a), multiset(front + back), x);
  }

  lemma Cancels<T>(a: multiset<T>, b: multiset<T>, x: T)
    requires a + multiset{x} == b + multiset{x}
    ensures a == b
  {
    assert a == a + multiset{x} - multiset{x};
    assert b == b + multiset{x} - multiset{x};
  }

  lemma AddedAnywhere<T>(a: seq<T>, x: T, front: seq<T>, back: seq<T>)
    requires multiset(a) == multiset(front + back)
    ensures multiset(a + [x]) == multiset(front + ([x] + back))
  {
  }

  /** The same secrets committed, in whatever order, give the next instance the same state at both processes. */
  lemma EqualCommitsEqualWitnesses(c: Config, d: Config, p: Process, q: Process)
    requires SameSystem(c, d)
    requires multiset(Secrets(p.commits)) == multiset(Secrets(q.commits))
    ensures FreshState(c, p) == FreshState(d, q)
  {
    SecretsOfPermuted(p.commits, q.commits);
    RanksOfCommits(c, p);
    RanksOfCommits(d, q);
    EqualHistoriesEqualSets(c.params, SecretsOf(p.commits), RanksAfter(c.params, SecretsOf(p.commits)),
                            SecretsOf(q.commits), RanksAfter(d.params, SecretsOf(q.commits)));
  }

  /** How far node i is from the origin after what p has committed. */
  ghost function Rank(c: Config, p: Process, i: nat): int
    requires c.Sound() && i < c.n
  {
    FromOrigin(c.params[i], SecretsOf(p.commits))
  }

  lemma RadiiApart(pot: real, own: real, k: nat)
    requires pot - own >= k as real
    ensures pot >= own
  {
  }

  lemma PotByRadius(c: Config, d: Config, p: Process, q: Process, k: nat, i: nat)
    requires SameSystem(c, d) && i < c.n
    requires Disagreement(SecretsOf(p.commits), SecretsOf(q.commits)) <= k
    requires c.selector.potWitnessSetRadius - c.selector.ownWitnessSetRadius >= k as real
    requires Rank(c, p, i) as real < c.selector.ownWitnessSetRadius
    ensures i in FreshState(d, q).pot
  {
    var dsA, dsB := RanksAfter(c.params, SecretsOf(p.commits)), RanksAfter(d.params, SecretsOf(q.commits));
    RanksOfCommits(c, p);
    RanksOfCommits(d, q);
    IdsDistinct(c.n);
    RankingIsRanking(dsB);
    WitnessOverlap(c.selector, Ids(c.n), c.params, SecretsOf(p.commits), dsA,
                   SecretsOf(q.commits), dsB, Ranking(dsB), k, i);
  }

  lemma OwnByRadius(c: Config, p: Process, i: nat)
    requires c.Sound() && i < c.n && c.selector.potWitnessSetRadius >= c.selector.ownWitnessSetRadius
    requires Rank(c, p, i) as real < c.selector.ownWitnessSetRadius
    ensures i in FreshState(c, p).own
  {
    var ds := RanksAfter(c.params, SecretsOf(p.commits));
    IdsDistinct(c.n);
    RankingIsRanking(ds);
    PotentialSet(c.selector, Ids(c.n), ds, Ranking(ds), i, i);
    OwnWitnesses(c.selector, Ids(c.n), ds, Ranking(ds), i, i);
  }

  /**
   * The reason for two radii, at the level of the protocol: when the committed secrets of two processes differ in
   * at most k, and the radii by at least k, a node the first makes its own witness by radius is a potential
   * witness for the second.
   */
  lemma NearbyCommitsOverlap(c: Config, d: Config, p: Process, q: Process, k: nat, i: nat)
    requires SameSystem(c, d) && i < c.n
    requires Disagreement(SecretsOf(p.commits), SecretsOf(q.commits)) <= k
    requires c.selector.potWitnessSetRadius - c.selector.ownWitnessSetRadius >= k as real
    requires Rank(c, p, i) as real < c.selector.ownWitnessSetRadius
    ensures i in FreshState(d, q).pot && i in FreshState(c, p).own
  {
    RadiiApart(c.selector.potWitnessSetRadius, c.selector.ownWitnessSetRadius, k);
    PotByRadius(c, d, p, q, k, i);
    OwnByRadius(c, p, i);
  }
}
