/**
 * The life of a secret: sampled and split by its author, encrypted share by share, checked against the
 * ciphertexts when revealed, and put together again. The erasure code and the encryption are assumed of the
 * configuration; ReliableLibraries shows that the assumptions can be met.
 */
module ReliableSecrets {
  import opened GoIntegers
  import opened Bytes
  import opened Options
  import opened Quorums
  import opened Reliable

  // ---------------------------------------------------------------- what is assumed of the libraries

  ghost predicate Shardlike(c: Config, shards: seq<Share>) {
    |shards| == c.n && forall i | 0 <= i < |shards| :: |shards[i]| == 4
  }

  /** The first f + 1 shards are kept as they are and the others are filled in. */
  ghost predicate Systematic(c: Config) {
    c.f + 1 <= c.n && forall shards | Shardlike(c, shards) ::
      && c.encode(shards).Some?
      && Shardlike(c, c.encode(shards).value)
      && c.encode(shards).value[..c.f + 1] == shards[..c.f + 1]
  }

  /** Shares present at the indices in known, and missing elsewhere. */
  ghost predicate PartOf(partial: seq<Share>, full: seq<Share>, known: set<Id>) {
    && |partial| == |full|
    && (forall i | i in known :: i < |full|)
    && (forall i | 0 <= i < |full| :: partial[i] == if i in known then full[i] else [])
  }

  /** Any f + 1 shares determine the rest. */
  ghost predicate Reconstructs(c: Config) {
    forall shards, partial, known |
      Shardlike(c, shards) && c.encode(shards).Some? && PartOf(partial, c.encode(shards).value, known)
      && |known| >= c.f + 1 ::
      c.reconstruct(partial) == c.encode(shards)
  }

  /** Every private key undoes its public key. */
  ghost predicate Decrypts(c: Config, decrypts: Id -> Share -> Option<Share>) {
    forall i: Id, share | c.encrypt(i, share).Some? :: decrypts(i)(c.encrypt(i, share).value) == Some(share)
  }

  ghost predicate SoundLibraries(c: Config, decrypts: Id -> Share -> Option<Share>) {
    Systematic(c) && Reconstructs(c) && Decrypts(c, decrypts)
  }

  // ---------------------------------------------------------------- what an honest author hands out

  /** data is the code word of x, and shares are its parts under everyone's keys. */
  ghost predicate Honest(c: Config, x: seq<int32>, data: seq<Share>, shares: seq<Share>) {
    && |x| == c.f + 1 <= c.n
    && c.encode(Shards(x, c.n)) == Some(data)
    && |data| == |shares| == c.n
    && forall i | 0 <= i < c.n :: c.encrypt(i, data[i]) == Some(shares[i])
  }

  lemma {:induction false} AllEncrypted(c: Config, data: seq<Share>, k: nat)
    requires k <= |data|
    ensures EncryptEach(c, data, k).Some? <==> forall i | 0 <= i < k :: c.encrypt(i, data[i]).Some?
  {
    if k > 0 {
      AllEncrypted(c, data, k - 1);
    }
  }

  /** The shards hold the secret, and zeros where the code is to go. */
  lemma ShardsHold(x: seq<int32>, n: nat, i: nat)
    requires |x| <= n && i < n
    ensures ToInt32(Shards(x, n)[i]) == if i < |x| then x[i] else 0
  {
    if i < |x| {
      Int32RoundTrip(x[i]);
    } else {
      Int32RoundTrip(0);
      assert Int32ToBytes(0) == [0, 0, 0, 0];
    }
  }

  /**
   * A broadcast goes out exactly if every share of the code word can be encrypted, and otherwise brings the process
   * down. It goes to the author's witnesses, with honest shares and the hash of the secret, under the next number.
   */
  lemma BroadcastIsHonest(c: Config, p: Process, value: int32, x: seq<int32>, st: State)
    returns (data: seq<Share>, shares: seq<Share>)
    requires |x| == c.f + 1 <= c.n && Systematic(c)
    ensures var s, b := BroadcastOn(c, p, value, x, st), Instance(c.self, p.transactionCounter);
            && c.encode(Shards(x, c.n)) == Some(data) && |data| == c.n
            && if forall i | 0 <= i < c.n :: c.encrypt(i, data[i]).Some? then
                 && Honest(c, x, data, shares)
                 && s.out == [ToSet(b, st.pot, Protocol(ProtocolMessage(NOTIFY, Broadcast(value, HashOf(x)), shares)))]
                 && s.p == p.(log := p.log[b := st], transactionCounter := Wrap32(p.transactionCounter + 1))
               else s == Step(p.(halted := true), [])
  {
    assert Shardlike(c, Shards(x, c.n));
    data := c.encode(Shards(x, c.n)).value;
    shares := [];
    AllEncrypted(c, data, c.n);
    assert SharesOf(c, x) == EncryptEach(c, data, c.n);
    if SharesOf(c, x).Some? {
      shares := SharesOf(c, x).value;
    }
  }

  lemma {:induction false} SumConcat(x: seq<int>, y: seq<int>)
    ensures Sum(x + y) == Sum(x) + Sum(y)
  {
    if y == [] {
      assert x + y == x;
    } else {
      SumConcat(x, y[..|y| - 1]);
      assert (x + y)[..|x + y| - 1] == x + y[..|y| - 1];
    }
  }

  /** The commitment hash is the sum in 32 bits: that of a joined list is the wrapped sum of the two. */
  lemma HashAddsUp(x: seq<int32>, y: seq<int32>, v: int32)
    ensures HashOf([]) == 0 && HashOf([v]) == v
    ensures HashOf(x + y) == Wrap32(HashOf(x) + HashOf(y))
  {
    SumConcat(x, y);
    SumConcat([], [v]);
    Wrap32Absorbs(Sum(x), HashOf(y));
    Wrap32Absorbs(Sum(y), Sum(x));
  }

  /** Distinct plaintexts have distinct ciphertexts: they decrypt differently. */
  lemma EncryptionIsInjective(c: Config, decrypts: Id -> Share -> Option<Share>, i: Id, s: Share, t: Share)
    requires Decrypts(c, decrypts) && c.encrypt(i, s).Some? && c.encrypt(i, s) == c.encrypt(i, t)
    ensures s == t
  {
    assert decrypts(i)(c.encrypt(i, s).value) == Some(s);
  }

  /** No one, Byzantine or not, gets another share past a witness that has the author's ciphertexts. */
  lemma OnlyTheRealShareIsGenuine(
    c: Config, decrypts: Id -> Share -> Option<Share>, x: seq<int32>, data: seq<Share>, st: State,
    sender: Id, share: Share)
    requires Decrypts(c, decrypts) && Honest(c, x, data, st.encryptedShares) && sender < c.n
    ensures Genuine(c, st, sender, share) <==> share == data[sender]
  {
    if Genuine(c, st, sender, share) {
      EncryptionIsInjective(c, decrypts, sender, share, data[sender]);
    }
  }

  /** A process that holds its own ciphertext reveals exactly what the witnesses accept from it. */
  lemma OwnShareIsGenuine(
    c: Config, decrypts: Id -> Share -> Option<Share>, x: seq<int32>, data: seq<Share>, p: Process, t: Instance)
    requires Decrypts(c, decrypts) && c.decrypt == decrypts(c.self) && c.self < c.n
    requires t in p.log && exists shares :: Honest(c, x, data, shares) && p.log[t].ownEncryptedShare == shares[c.self]
    ensures StartReveal(c, p, t) == Step(p.(revealed := p.revealed + [t]),
                                         [ToPot(p.log[t], t, Reveal(data[c.self]))])
  {
    assert c.encrypt(c.self, data[c.self]).Some?;
  }

  // ---------------------------------------------------------------- integers and shares

  lemma {:induction false} IntegersOfShards(data: seq<Share>, x: seq<int32>, k: nat)
    requires k <= |x| && k <= |data| && forall i | 0 <= i < k :: data[i] == Int32ToBytes(x[i])
    ensures Integers(data, k) == Some(x[..k])
  {
    if k > 0 {
      IntegersOfShards(data, x, k - 1);
      Int32RoundTrip(x[k - 1]);
      assert x[..k] == x[..k - 1] + [x[k - 1]];
    }
  }

  /** What comes out of the code word is the sampled secret, with the hash that was announced. */
  lemma CodeWordHoldsSecret(c: Config, x: seq<int32>, data: seq<Share>)
    requires Systematic(c) && |x| == c.DataShares() <= c.n && c.encode(Shards(x, c.n)) == Some(data)
    ensures Shardlike(c, data) && Integers(data, c.DataShares()) == Some(x)
  {
    var shards, k := Shards(x, c.n), c.DataShares();
    assert Shardlike(c, shards);
    forall i | 0 <= i < k
      ensures data[i] == Int32ToBytes(x[i])
    {
      assert data[i] == data[..k][i] == shards[..k][i];
    }
    IntegersOfShards(data, x, k);
    assert x[..k] == x;
  }

  // ---------------------------------------------------------------- collecting reveals

  datatype Opening = Opening(sender: Id, share: Share)

  /** A witness handling reveals one after another, until it comes down. */
  function Collect(c: Config, b: Instance, st: State, openings: seq<Opening>, xHash: int32): Reaction {
    if openings == [] then Reaction(st, [], Go)
    else
      var k := |openings| - 1;
      var before := Collect(c, b, st, openings[..k], xHash);
      if before.verdict == Crash then before
      else
        var r := OnReveal(c, b, before.st, openings[k].sender, openings[k].share, xHash);
        Reaction(r.st, before.out + r.out, r.verdict)
  }

  function Senders(openings: seq<Opening>): (s: set<Id>) {
    if openings == [] then {} else Senders(openings[..|openings| - 1]) + {openings[|openings| - 1].sender}
  }

  /** A witness that has the author's ciphertexts and has not taken part in the reveal yet. */
  ghost predicate Ready(c: Config, st: State) {
    && c.self in st.pot && st.revealStage != SentDoneToProcesses && st.revealStage != SentFailedToProcesses
    && st.revealFromProcesses == {} && st.decryptedShares == []
  }

  /** Short of 2f + 1 reveals. */
  ghost predicate Collecting(c: Config, st: State, st': State, data: seq<Share>, senders: set<Id>) {
    && st' == st.(revealFromProcesses := senders, decryptedShares := st'.decryptedShares)
    && |senders| < 2 * c.f + 1
    && (if senders == {} then st'.decryptedShares == [] else PartOf(st'.decryptedShares, data, senders))
  }

  /** The reveals received so far, the latest included, in their slots. */
  lemma SlotFilled(c: Config, st: State, st': State, data: seq<Share>, senders: set<Id>, sender: Id)
    requires Collecting(c, st, st', data, senders) && sender < c.n == |data|
    ensures var shares := if st'.decryptedShares == [] then seq(c.n, _ => []) else st'.decryptedShares;
            |shares| == c.n && PartOf(shares[sender := data[sender]], data, senders + {sender})
  {
  }

  /** What a witness says of a secret it has put together, when xHash was delivered. */
  function Announcement(x: seq<int32>, xHash: int32): CommitmentMessage {
    if HashOf(x) == xHash then Done(x) else Failed
  }

  function Conclusion(x: seq<int32>, xHash: int32): RevealStage {
    if HashOf(x) == xHash then SentDoneToProcesses else SentFailedToProcesses
  }

  lemma RebuildOf(c: Config, b: Instance, st: State, x: seq<int32>, data: seq<Share>, xHash: int32)
    requires c.reconstruct(st.decryptedShares) == Some(data) && Integers(data, c.DataShares()) == Some(x)
    ensures var r := Rebuild(c, b, st, xHash);
            r.out == [ToAll(c, b, Announcement(x, xHash))] && r.verdict == Go
            && r.st.revealStage == Conclusion(x, xHash) && r.st.revealFromProcesses == st.revealFromProcesses
  {
  }

  lemma RebuildConcludes(
    c: Config, b: Instance, st: State, x: seq<int32>, data: seq<Share>, known: set<Id>, xHash: int32)
    requires Systematic(c) && Reconstructs(c) && |x| == c.DataShares() <= c.n
    requires c.encode(Shards(x, c.n)) == Some(data)
    requires PartOf(st.decryptedShares, data, known) && |known| >= 2 * c.f + 1
    ensures var r := Rebuild(c, b, st, xHash);
            r.out == [ToAll(c, b, Announcement(x, xHash))] && r.verdict == Go
            && r.st.revealStage == Conclusion(x, xHash) && r.st.revealFromProcesses == st.revealFromProcesses
  {
    CodeWordHoldsSecret(c, x, data);
    assert Shardlike(c, Shards(x, c.n));
    assert c.reconstruct(st.decryptedShares) == c.encode(Shards(x, c.n));
    RebuildOf(c, b, st, x, data, xHash);
  }

  /** What a witness has said and where it stands after reveals from these senders. */
  ghost predicate Stands(
    c: Config, b: Instance, st: State, r: Reaction, x: seq<int32>, data: seq<Share>, senders: set<Id>, xHash: int32)
  {
    if |senders| < 2 * c.f + 1 then Collecting(c, st, r.st, data, senders) && r.out == []
    else r.out == [ToAll(c, b, Announcement(x, xHash))] && r.st.revealStage == Conclusion(x, xHash)
  }

  lemma OneReveal(
    c: Config, decrypts: Id -> Share -> Option<Share>, b: Instance, st: State, st': State, x: seq<int32>,
    data: seq<Share>, senders: set<Id>, sender: Id, share: Share, xHash: int32)
    requires SoundLibraries(c, decrypts) && Ready(c, st) && Honest(c, x, data, st.encryptedShares)
    requires Collecting(c, st, st', data, senders) && sender < c.n
    ensures var r := OnReveal(c, b, st', sender, share, xHash);
            && (r.verdict == Crash <==> sender !in senders && share != data[sender])
            && (r.verdict == Crash ==> r.out == [])
            && (r.verdict != Crash ==> Stands(c, b, st, r, x, data, senders + {sender}, xHash))
  {
    if sender in senders {
      assert senders + {sender} == senders;
    } else {
      SlotFilled(c, st, st', data, senders, sender);
      var shares := if st'.decryptedShares == [] then seq(c.n, _ => []) else st'.decryptedShares;
      var next := st'.(revealFromProcesses := senders + {sender}, decryptedShares := shares[sender := share]);
      OnlyTheRealShareIsGenuine(c, decrypts, x, data, next, sender, share);
      NewReveal(c, b, st', sender, share, xHash);
      if share == data[sender] && |senders + {sender}| >= 2 * c.f + 1 {
        RebuildConcludes(c, b, next, x, data, senders + {sender}, xHash);
      }
    }
  }

  /** The last part of the handler, for a first reveal while reveals are collected. */
  lemma NewReveal(c: Config, b: Instance, st: State, sender: Id, share: Share, xHash: int32)
    requires c.self in st.pot && sender !in st.revealFromProcesses && sender < c.n
    requires st.revealStage != SentDoneToProcesses && st.revealStage != SentFailedToProcesses
    requires st.decryptedShares == [] || |st.decryptedShares| == c.n
    ensures var shares := if st.decryptedShares == [] then seq(c.n, _ => []) else st.decryptedShares;
            var next := st.(revealFromProcesses := st.revealFromProcesses + {sender},
                            decryptedShares := shares[sender := share]);
            OnReveal(c, b, st, sender, share, xHash) ==
            if !Genuine(c, next, sender, share) then Reaction(next, [], Crash)
            else if |next.revealFromProcesses| < 2 * c.f + 1 then Reaction(next, [], Go)
            else Rebuild(c, b, next, xHash)
  {
  }

  /** One more reveal, before or after the secret has been put together. */
  lemma StandsOn(
    c: Config, decrypts: Id -> Share -> Option<Share>, b: Instance, st: State, before: Reaction, x: seq<int32>,
    data: seq<Share>, senders: set<Id>, sender: Id, share: Share, xHash: int32)
    requires SoundLibraries(c, decrypts) && Ready(c, st) && Honest(c, x, data, st.encryptedShares) && sender < c.n
    requires Stands(c, b, st, before, x, data, senders, xHash)
    ensures var r := OnReveal(c, b, before.st, sender, share, xHash);
            && (r.verdict == Crash ==> r.out == [] && share != data[sender])
            && (r.verdict != Crash ==>
                  Stands(c, b, st, Reaction(r.st, before.out + r.out, r.verdict), x, data, senders + {sender}, xHash))
  {
    if |senders| < 2 * c.f + 1 {
      OneReveal(c, decrypts, b, st, before.st, x, data, senders, sender, share, xHash);
    } else {
      SubsetCount(senders, senders + {sender});
      assert before.out + [] == before.out;
    }
  }

  /**
   * The secret round trip. A witness that holds an honest author's ciphertexts, whoever reveals to it and in
   * whatever order, either comes down on a forged share or accepts; and once 2f + 1 processes have revealed it
   * has said, once, DONE with the very secret that was sampled, or FAILED if that is not the secret whose hash was
   * delivered.
   */
  lemma {:induction false} SecretRoundTrip(
    c: Config, decrypts: Id -> Share -> Option<Share>, b: Instance, st: State, x: seq<int32>,
    data: seq<Share>, openings: seq<Opening>, xHash: int32)
    requires SoundLibraries(c, decrypts) && Ready(c, st) && Honest(c, x, data, st.encryptedShares)
    requires forall i | 0 <= i < |openings| :: openings[i].sender < c.n
    ensures var r := Collect(c, b, st, openings, xHash);
            && (r.verdict != Crash ==> Stands(c, b, st, r, x, data, Senders(openings), xHash))
            && ((forall i | 0 <= i < |openings| :: openings[i].share == data[openings[i].sender])
                ==> r.verdict != Crash)
            && (r.out == [] || r.out == [ToAll(c, b, Announcement(x, xHash))])
  {
    if openings != [] {
      var k := |openings| - 1;
      var before := Collect(c, b, st, openings[..k], xHash);
      SecretRoundTrip(c, decrypts, b, st, x, data, openings[..k], xHash);
      if before.verdict != Crash {
        var senders, sender := Senders(openings[..k]), openings[k].sender;
        StandsOn(c, decrypts, b, st, before, x, data, senders, sender, openings[k].share, xHash);
      }
    }
  }

  // ---------------------------------------------------------------- a witness without the ciphertexts

  /** The first share of every sender, in its slot. */
  function Slots(n: nat, openings: seq<Opening>): (slots: seq<Share>)
    requires forall o | o in openings :: o.sender < n
    ensures |slots| == n
  {
    if openings == [] then seq(n, _ => [])
    else
      var before, o := openings[..|openings| - 1], openings[|openings| - 1];
      if o.sender in Senders(before) then Slots(n, before) else Slots(n, before)[o.sender := o.share]
  }

  /** Nothing checked and nothing said yet. */
  ghost predicate Gathers(c: Config, st: State, r: Reaction, openings: seq<Opening>)
    requires forall o | o in openings :: o.sender < c.n
  {
    && r.verdict == Go && r.out == []
    && r.st == st.(revealFromProcesses := Senders(openings),
                   decryptedShares := if openings == [] then [] else Slots(c.n, openings))
  }

  lemma GathersOneMore(c: Config, b: Instance, st: State, before: Reaction, openings: seq<Opening>, xHash: int32)
    requires openings != [] && (forall o | o in openings :: o.sender < c.n) && st.encryptedShares == []
    requires Ready(c, st) && Gathers(c, st, before, openings[..|openings| - 1])
    ensures var o := openings[|openings| - 1];
            var r := OnReveal(c, b, before.st, o.sender, o.share, xHash);
            var next := st.(revealFromProcesses := Senders(openings), decryptedShares := Slots(c.n, openings));
            if |Senders(openings)| < 2 * c.f + 1 then Gathers(c, st, r, openings)
            else o.sender !in Senders(openings[..|openings| - 1]) ==> r == Rebuild(c, b, next, xHash)
  {
    var o, known := openings[|openings| - 1], Senders(openings[..|openings| - 1]);
    if o.sender in known {
      assert known + {o.sender} == known;
    } else {
      NewReveal(c, b, before.st, o.sender, o.share, xHash);
    }
  }

  lemma SomeSender(openings: seq<Opening>)
    ensures openings != [] ==> Senders(openings) != {}
  {
  }

  /**
   * A witness that never had the author's shares checks none: short of 2f + 1 revealers it takes what each says first.
   */
  lemma {:induction false} UncheckedCollection(
    c: Config, b: Instance, st: State, openings: seq<Opening>, xHash: int32)
    requires Ready(c, st) && st.encryptedShares == [] && forall o | o in openings :: o.sender < c.n
    requires |Senders(openings)| < 2 * c.f + 1
    ensures Gathers(c, st, Collect(c, b, st, openings, xHash), openings)
  {
    if openings != [] {
      var k := |openings| - 1;
      SubsetCount(Senders(openings[..k]), Senders(openings));
      UncheckedCollection(c, b, st, openings[..k], xHash);
      GathersOneMore(c, b, st, Collect(c, b, st, openings[..k], xHash), openings, xHash);
    }
  }

  lemma {:induction false} IntegersShort(shares: seq<Share>, k: nat)
    ensures Integers(shares, k).None? <==> |shares| < k || exists i :: 0 <= i < k && |shares[i]| < 4
  {
    if k > 0 && |shares| >= k {
      IntegersShort(shares, k - 1);
    }
  }

  /**
   * With the share of the (2f + 1)-th revealer it puts the secret together, comes down if that cannot be done, and
   * otherwise says to everyone DONE with what came out, if that has the delivered hash, or FAILED.
   */
  lemma UncheckedRebuild(
    c: Config, b: Instance, st: State, openings: seq<Opening>, o: Opening, xHash: int32)
    requires Ready(c, st) && st.encryptedShares == [] && forall p | p in openings + [o] :: p.sender < c.n
    requires |Senders(openings)| < 2 * c.f + 1 <= |Senders(openings + [o])|
    ensures var r, full := Collect(c, b, st, openings + [o], xHash), c.reconstruct(Slots(c.n, openings + [o]));
            if full.None? || |full.value| < c.f + 1 || exists i :: 0 <= i < c.f + 1 && |full.value[i]| < 4
            then r.verdict == Crash && r.out == []
            else
              && Integers(full.value, c.f + 1).Some? && r.verdict == Go
              && var x := Integers(full.value, c.f + 1).value;
                 r.out == [ToSet(b, Everyone(c.n), Commitment(if HashOf(x) == xHash then Done(x) else Failed))]
  {
    var full := c.reconstruct(Slots(c.n, openings + [o]));
    UncheckedLast(c, b, st, openings, o, xHash);
    if full.Some? {
      IntegersShort(full.value, c.f + 1);
    }
    RebuildSays(c, b, Gathered(c, st, openings + [o]), xHash);
  }

  /** The state with what these reveals give. */
  function Gathered(c: Config, st: State, openings: seq<Opening>): State
    requires forall p | p in openings :: p.sender < c.n
  {
    st.(revealFromProcesses := Senders(openings), decryptedShares := Slots(c.n, openings))
  }

  lemma UncheckedLast(c: Config, b: Instance, st: State, openings: seq<Opening>, o: Opening, xHash: int32)
    requires Ready(c, st) && st.encryptedShares == [] && forall p | p in openings + [o] :: p.sender < c.n
    requires |Senders(openings)| < 2 * c.f + 1 <= |Senders(openings + [o])|
    ensures Collect(c, b, st, openings + [o], xHash) == Rebuild(c, b, Gathered(c, st, openings + [o]), xHash)
  {
    var longer, before := openings + [o], Collect(c, b, st, openings, xHash);
    assert longer[..|openings|] == openings;
    assert forall p | p in openings :: p in longer;
    UncheckedCollection(c, b, st, openings, xHash);
    GathersOneMore(c, b, st, before, longer, xHash);
    assert o.sender in Senders(openings) ==> Senders(openings) + {o.sender} == Senders(openings);
    var r := Rebuild(c, b, Gathered(c, st, longer), xHash);
    assert [] + r.out == r.out;
  }

  lemma RebuildSays(c: Config, b: Instance, st: State, xHash: int32)
    ensures var r, full := Rebuild(c, b, st, xHash), c.reconstruct(st.decryptedShares);
            if full.None? || Integers(full.value, c.f + 1).None? then r.verdict == Crash && r.out == []
            else
              var x := Integers(full.value, c.f + 1).value;
              && r.verdict == Go
              && r.out == [ToSet(b, Everyone(c.n), Commitment(if HashOf(x) == xHash then Done(x) else Failed))]
  {
  }
}
