/** The objects that hold history hashes: rings updated in place, one insertion at a time. */
module HistoryHashing {
  import opened GoIntegers
  import opened Bytes
  import opened Rings
  import opened Histories
  import opened Options

  class MultiRing {
    const modulo: nat
    const dimension: nat
    const vector: array<int>

    ghost predicate Valid()
      reads this, vector
    {
      0 < modulo <= TWO62 && vector.Length == dimension && InRange(modulo, vector[..])
    }

    /** A modulus outside these bounds makes a ring that cannot be written to as intended. */
    constructor (modulo: nat, dimension: nat)
      ensures fresh(vector) && (0 < modulo <= TWO62 ==> Valid())
      ensures this.modulo == modulo && this.dimension == dimension && vector[..] == Zeros(dimension)
    {
      this.modulo := modulo;
      this.dimension := dimension;
      this.vector := new int[dimension](_ => 0);
    }

    method Copy() returns (mr: MultiRing)
      requires Valid()
      ensures mr.Valid() && fresh(mr) && fresh(mr.vector)
      ensures mr.modulo == modulo && mr.dimension == dimension && mr.vector[..] == vector[..]
    {
      mr := new MultiRing(modulo, dimension);
      for i := 0 to dimension
        invariant mr.vector[..i] == vector[..i]
      {
        mr.vector[i] := vector[i];
      }
      assert mr.vector[..dimension] == mr.vector[..] && vector[..dimension] == vector[..];
    }

    method Set(i: nat, value: int64)
      requires Valid() && i < dimension
      modifies vector
      ensures Valid() && vector[..] == old(vector[..])[i := value % modulo]
    {
      StoredEntryInBounds(modulo, value);
      vector[i] := StoredEntry(modulo, value);
    }

    /** Addition wraps in 64 bits before it is reduced. */
    method Add(i: nat, value: int64)
      requires Valid() && i < dimension
      modifies vector
      ensures Valid() && vector[..] == old(vector[..])[i := Wrap64(old(vector[i]) + value) % modulo]
      ensures -TWO62 <= value <= TWO62 ==> vector[..] == Added(modulo, old(vector[..]), i, value)
    {
      Set(i, Wrap64(vector[i] + value));
    }

    /** Holds for rx == this too. */
    method Merge(rx: MultiRing)
      requires Valid() && rx.Valid() && rx.dimension >= dimension
      modifies vector
      ensures Valid()
      ensures vector[..] == Merged(modulo, old(vector[..]), old(rx.vector[..dimension]))
    {
      ghost var mine, other := vector[..], rx.vector[..dimension];
      for i := 0 to dimension
        invariant Valid()
        invariant rx.vector == vector || rx.vector[..] == old(rx.vector[..])
        invariant forall k | i <= k < dimension :: vector[k] == mine[k]
        invariant forall k | 0 <= k < i :: vector[k] == (mine[k] + other[k]) % modulo
      {
        assert rx.vector[i] == other[i];
        Add(i, rx.vector[i]);
      }
    }

    /** The error of the source, for rings of different shape, is None. */
    static method MultiRingDistance(r1: MultiRing, r2: MultiRing) returns (d: Option<int>)
      requires r1.Valid() && r2.Valid()
      ensures d.None? <==> r1.modulo != r2.modulo || r1.dimension != r2.dimension
      ensures d.Some? ==> d.value == Distance(r1.modulo, r1.vector[..], r2.vector[..])
    {
      if r1.modulo != r2.modulo || r1.dimension != r2.dimension {
        return None;
      }
      ghost var arcs := Arcs(r1.modulo, r1.vector[..], r2.vector[..]);
      var sum := 0;
      for i := 0 to r1.dimension
        invariant sum == Sum(arcs[..i])
      {
        assert arcs[..i + 1][..i] == arcs[..i];
        sum := sum + Arc(r1.modulo, r1.vector[i], r2.vector[i]);
      }
      assert arcs[..r1.dimension] == arcs;
      return Some(sum);
    }
  }

  class HistoryHash {
    const binNum: nat
    const binCapacity: nat
    const hasher: seq<byte> -> seq<byte>
    const bins: MultiRing
    const seed: seq<byte>

    ghost var history: seq<Entry>

    ghost function Params(): Params {
      Histories.Params(binNum, binCapacity, hasher, seed)
    }

    ghost predicate Valid()
      reads this, bins, bins.vector
    {
      && Params().Sound()
      && bins.Valid() && bins.modulo == binCapacity && bins.dimension == binNum
      && bins.vector[..] == Bins(Params(), history)
    }

    constructor (binNum: nat, binCapacity: nat, hasher: seq<byte> -> seq<byte>, seed: int32)
      ensures fresh(bins) && fresh(bins.vector) && (Params().Sound() ==> Valid())
      ensures Params() == Histories.Params(binNum, binCapacity, hasher, Int32ToBytes(seed)) && history == []
      ensures bins.modulo == binCapacity && bins.dimension == binNum && bins.vector[..] == Zeros(binNum)
    {
      this.binNum := binNum;
      this.binCapacity := binCapacity;
      this.hasher := hasher;
      this.bins := new MultiRing(binCapacity, binNum);
      this.seed := Int32ToBytes(seed);
      this.history := [];
    }

    method Insert(bytes: seq<byte>)
      requires Valid()
      modifies this`history, bins.vector
      ensures Valid() && history == old(history) + [bytes]
    {
      var h := ToUint64(hasher(bytes + seed));
      var binIndex := h % binNum;
      var direction := 1;
      if BitAnd(h, binNum) == 0 {
        direction := -1;
      }
      bins.Add(binIndex, direction);
      history := history + [bytes];
      assert history[..|history| - 1] == old(history);
    }
  }
}
