/** A process's array of history hashes, one for every node, which move together when a secret is committed. */
module HistoryBanks {
  import opened GoIntegers
  import opened Bytes
  import opened Histories
  import opened HistoryHashing
  import opened Selection

  /** The hash of node i is seeded with i. */
  function NodeParams(n: nat, binNum: nat, capacity: nat, hasher: seq<byte> -> seq<byte>): (ps: seq<Params>)
    ensures |ps| == n && forall i | 0 <= i < n :: ps[i] == Params(binNum, capacity, hasher, Int32ToBytes(Wrap32(i)))
  {
    seq(n, i => Params(binNum, capacity, hasher, Int32ToBytes(Wrap32(i))))
  }

  /** The seed reads as the index of the node. */
  lemma SeedIsIndex(n: nat, binNum: nat, capacity: nat, hasher: seq<byte> -> seq<byte>, i: nat)
    requires i < n && i < TWO31
    ensures var seed := NodeParams(n, binNum, capacity, hasher)[i].seed; |seed| == 4 && ToInt32(seed) == i
  {
    Int32RoundTrip(Wrap32(i));
  }

  class HistoryBank {
    const hashes: seq<HistoryHash>
    ghost const params: seq<Params>
    ghost const repr: set<object>
    ghost var history: seq<Entry>

    /** Each hash is of the same history, under its own parameters. */
    ghost predicate IsOf(i: nat, entries: seq<Entry>)
      requires i < |hashes| == |params|
      reads hashes[i], hashes[i].bins, hashes[i].bins.vector
    {
      hashes[i].Valid() && hashes[i].Params() == params[i] && hashes[i].history == entries
    }

    ghost predicate Owned(i: nat)
      requires i < |hashes|
    {
      hashes[i] in repr && hashes[i].bins in repr && hashes[i].bins.vector in repr
    }

    ghost predicate Apart(i: nat, j: nat)
      requires i < |hashes| && j < |hashes|
    {
      hashes[i] != hashes[j] && hashes[i].bins != hashes[j].bins && hashes[i].bins.vector != hashes[j].bins.vector
    }

    ghost predicate Layout() {
      && |hashes| == |params| && this in repr
      && (forall i | 0 <= i < |hashes| :: Owned(i))
      && (forall i, j | 0 <= i < j < |hashes| :: Apart(i, j))
    }

    ghost predicate Valid()
      reads this, repr
    {
      && Layout()
      && (forall i | 0 <= i < |hashes| :: params[i].Sound() && Alike(hashes[i], hashes[0]))
      && (forall i | 0 <= i < |hashes| :: Owned(i) && IsOf(i, history))
    }

    constructor (n: nat, binNum: nat, binCapacity: nat, hasher: seq<byte> -> seq<byte>)
      ensures fresh(repr) && history == [] && params == NodeParams(n, binNum, binCapacity, hasher)
      ensures (forall i | 0 <= i < n :: params[i].Sound()) ==> Valid()
    {
      var made: seq<HistoryHash> := [];
      ghost var owned: set<object> := {};
      for i := 0 to n
        invariant |made| == i && fresh(owned)
        invariant forall j | 0 <= j < i ::
            && (made[j].Params().Sound() ==> made[j].Valid()) && made[j].history == []
            && made[j].Params() == Params(binNum, binCapacity, hasher, Int32ToBytes(Wrap32(j)))
            && made[j] in owned && made[j].bins in owned && made[j].bins.vector in owned
        invariant forall j, k | 0 <= j < k < i ::
            made[j] != made[k] && made[j].bins != made[k].bins && made[j].bins.vector != made[k].bins.vector
      {
        var h := new HistoryHash(binNum, binCapacity, hasher, Wrap32(i));
        made := made + [h];
        owned := owned + {h, h.bins, h.bins.vector};
      }
      hashes := made;
      params := NodeParams(n, binNum, binCapacity, hasher);
      repr := owned + {this};
      history := [];
    }

    /** Every hash takes in the bytes of the secret. */
    method AddSecret(secret: seq<int32>)
      requires Valid()
      modifies repr
      ensures Valid() && history == old(history) + [SecretBytes(secret)]
    {
      var secretBytes := [];
      for i := 0 to |secret|
        invariant secretBytes == SecretBytes(secret[..i])
      {
        assert secret[..i + 1][..i] == secret[..i];
        secretBytes := secretBytes + Int32ToBytes(secret[i]);
      }
      assert secret[..|secret|] == secret;
      InsertEverywhere(secretBytes);
    }

    method InsertEverywhere(entry: seq<byte>)
      requires Valid()
      modifies repr
      ensures Valid() && history == old(history) + [entry]
    {
      ghost var before := history;
      for i := 0 to |hashes|
        invariant history == before
        invariant forall j | 0 <= j < i :: IsOf(j, before + [entry])
        invariant forall j | i <= j < |hashes| :: IsOf(j, before)
      {
        label L:
        assert Owned(i) && IsOf(i, before);
        hashes[i].Insert(entry);
        forall j | 0 <= j < |hashes| && j != i
          ensures old@L(IsOf(j, before)) ==> IsOf(j, before)
          ensures old@L(IsOf(j, before + [entry])) ==> IsOf(j, before + [entry])
        {
          assert if i < j then Apart(i, j) else Apart(j, i);
        }
      }
      history := history + [entry];
    }

    /** The same witness sets as everyone with the same history. */
    method GetWitnessSet<T(==)>(ws: Selector, nodeIds: seq<T>) returns (own: set<T>, pot: set<T>)
      requires Valid() && |nodeIds| == |hashes|
      ensures own == OwnSet(ws, nodeIds, RanksAfter(params, history))
      ensures pot == PotSet(ws, nodeIds, RanksAfter(params, history))
    {
      ghost var ds := RanksAfter(params, history);
      AllAt(ds, |ds|);
      own, pot := Selection.GetWitnessSet(ws, nodeIds, hashes, ds);
    }

    lemma {:induction false} AllAt(ds: seq<int>, k: nat)
      requires Valid() && ds == RanksAfter(params, history) && k <= |ds|
      ensures AreAt(hashes, ds, k)
    {
      if k > 0 {
        AllAt(ds, k - 1);
        assert IsOf(k - 1, history);
      }
    }
  }
}
