/**
 * Libraries that meet what ReliableSecrets assumes, for the smallest system of 3f + 1 processes: an erasure code with
 * two data and two parity shares, and an encryption with a key for every process.
 */
module ReliableLibraries {
  import opened Bytes
  import opened Options
  import opened Quorums
  import opened Reliable
  import opened ReliableSecrets

  // ---------------------------------------------------------------- shares, byte by byte

  function Add8(x: int, y: int): (z: byte)
    requires 0 <= x < 256 && 0 <= y < 256
  {
    if x + y < 256 then x + y else x + y - 256
  }

  function Sub8(x: int, y: int): (z: byte)
    requires 0 <= x < 256 && 0 <= y < 256
  {
    if x >= y then x - y else x - y + 256
  }

  function Plus(a: Share, b: Share): (s: Share)
    requires |a| == |b| == 4
    ensures |s| == 4
  {
    [Add8(a[0], b[0]), Add8(a[1], b[1]), Add8(a[2], b[2]), Add8(a[3], b[3])]
  }

  function Minus(a: Share, b: Share): (s: Share)
    requires |a| == |b| == 4
    ensures |s| == 4
  {
    [Sub8(a[0], b[0]), Sub8(a[1], b[1]), Sub8(a[2], b[2]), Sub8(a[3], b[3])]
  }

  /** On two halves: (h, l) to (h + l, h). */
  function Turn(a: Share): (s: Share)
    requires |a| == 4
    ensures |s| == 4
  {
    [Add8(a[0], a[2]), Add8(a[1], a[3]), a[0], a[1]]
  }

  function Unturn(a: Share): (s: Share)
    requires |a| == 4
    ensures |s| == 4
  {
    [a[2], a[3], Sub8(a[0], a[2]), Sub8(a[1], a[3])]
  }

  lemma MinusUndoesPlus(a: Share, b: Share)
    requires |a| == |b| == 4
    ensures Minus(Plus(a, b), b) == a && Minus(Plus(a, b), a) == b
  {
  }

  lemma UnturnUndoesTurn(a: Share)
    requires |a| == 4
    ensures Unturn(Turn(a)) == a
  {
  }

  lemma SharedPartCancels(a: Share, x: Share, y: Share)
    requires |a| == |x| == |y| == 4
    ensures Minus(Plus(a, x), Plus(a, y)) == Minus(x, y)
  {
  }

  /** Turning and turning back differ by the identity. */
  lemma TurnUndoesStep(a: Share)
    requires |a| == 4
    ensures Turn(Minus(Turn(a), a)) == a
  {
  }

  // ---------------------------------------------------------------- the code

  /** Any two of the four shares give the others. */
  function CodeWord(a: Share, b: Share): (s: seq<Share>)
    requires |a| == |b| == 4
    ensures |s| == 4 && forall i | 0 <= i < 4 :: |s[i]| == 4
  {
    [a, b, Plus(a, b), Plus(a, Turn(b))]
  }

  /** The data shares, from the first two shares known. */
  function DataOf(s: seq<Share>): (r: Option<(Share, Share)>)
    requires |s| == 4 && forall i | 0 <= i < 4 :: s[i] == [] || |s[i]| == 4
    ensures r.Some? ==> |r.value.0| == |r.value.1| == 4
  {
    if s[0] != [] && s[1] != [] then Some((s[0], s[1]))
    else if s[0] != [] && s[2] != [] then Some((s[0], Minus(s[2], s[0])))
    else if s[0] != [] && s[3] != [] then Some((s[0], Unturn(Minus(s[3], s[0]))))
    else if s[1] != [] && s[2] != [] then Some((Minus(s[2], s[1]), s[1]))
    else if s[1] != [] && s[3] != [] then Some((Minus(s[3], Turn(s[1])), s[1]))
    else if s[2] != [] && s[3] != [] then
      var b := Turn(Minus(s[3], s[2]));
      Some((Minus(s[2], b), b))
    else None
  }

  lemma TwoOfFour(a: Share, b: Share, partial: seq<Share>, known: set<Id>)
    requires |a| == |b| == 4 && PartOf(partial, CodeWord(a, b), known) && |known| >= 2
    ensures DataOf(partial) == Some((a, b))
  {
    MinusUndoesPlus(a, b);
    MinusUndoesPlus(a, Turn(b));
    UnturnUndoesTurn(b);
    SharedPartCancels(a, Turn(b), b);
    TurnUndoesStep(b);
    TwoKnown(known);
  }

  lemma TwoKnown(known: set<Id>)
    requires |known| >= 2 && forall i | i in known :: i < 4
    ensures exists i, j :: i in known && j in known && i < j < 4
  {
    var i :| i in known;
    assert known == known - {i} + {i};
    assert known - {i} != {};
    var j :| j in known - {i};
    assert i < j || j < i;
  }

  // ---------------------------------------------------------------- the configuration

  function Reconstruct(shares: seq<Share>): Option<seq<Share>> {
    if |shares| != 4 || exists i | 0 <= i < 4 :: shares[i] != [] && |shares[i]| != 4 then None
    else
      match DataOf(shares)
      case None => None
      case Some((a, b)) => Some(CodeWord(a, b))
  }

  /** One of four processes may be faulty; a ciphertext starts with the number of its key. */
  function FourProcesses(c: Config): Config {
    c.(f := 1,
       encrypt := (i: Id, share: Share) => Some([i % 256] + share),
       decrypt := KeyOf(c.self),
       encode := (shards: seq<Share>) =>
         if |shards| == 4 && |shards[0]| == 4 && |shards[1]| == 4 then Some(CodeWord(shards[0], shards[1])) else None,
       reconstruct := Reconstruct)
  }

  function KeyOf(i: Id): Share -> Option<Share> {
    (ciphertext: Share) => if ciphertext != [] && ciphertext[0] == i % 256 then Some(ciphertext[1..]) else None
  }

  lemma FourProcessesAreSound(c: Config)
    requires c.n == 4
    ensures SoundLibraries(FourProcesses(c), KeyOf) && FourProcesses(c).decrypt == KeyOf(c.self)
    ensures c.Sound() ==> FourProcesses(c).Sound()
  {
    var d := FourProcesses(c);
    forall shards, partial, known |
      Shardlike(d, shards) && d.encode(shards).Some? && PartOf(partial, d.encode(shards).value, known)
      && |known| >= d.DataShares()
      ensures d.reconstruct(partial) == d.encode(shards)
    {
      TwoOfFour(shards[0], shards[1], partial, known);
    }
    forall shards | Shardlike(d, shards)
      ensures d.encode(shards).Some? && d.encode(shards).value[..2] == shards[..2]
    {
      assert d.encode(shards).value[..2] == [shards[0], shards[1]] == shards[..2];
    }
  }
}
