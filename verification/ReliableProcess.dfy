/**
 * The process object of the accountable broadcast: a log of mutable instance states with counters instead of
 * vote records, loops that send one message at a time, and history hashes updated in place. Every handler call is
 * one step of the machine in Reliable, and what it sends are the messages of that step's broadcasts.
 */
module ReliableProcess {
  import opened GoIntegers
  import opened Bytes
  import opened Options
  import opened Quorums
  import opened HistoryBanks
  import opened Selection
  import opened Reliable
  import opened ReliableOutbox

  /** Who has been heard at one stage, and how often each value was. */
  datatype Ballot = Ballot(heard: set<Id>, stat: map<int, nat>) {
    ghost predicate Records(votes: map<Id, int>) {
      Tallies(heard, stat, votes)
    }
  }

  const NO_VOTES := Ballot({}, map[])

  method CountVote(ballot: Ballot, ghost votes: map<Id, int>, sender: Id, value: int)
    returns (counted: Ballot, count: nat)
    requires ballot.Records(votes) && sender !in ballot.heard
    ensures counted.Records(votes[sender := value]) && count == |Voters(votes[sender := value], value)|
  {
    TallyVote(ballot.heard, ballot.stat, votes, sender, value);
    count := Counter(ballot.stat, value) + 1;
    counted := Ballot(ballot.heard + {sender}, ballot.stat[value := count]);
    assert Counter(counted.stat, value) == count;
  }

  class MessageState {
    var echoFromProcesses: Ballot
    var readyFromProcesses: Ballot
    var readyFromWitnesses: Ballot
    var validateFromWitnesses: Ballot
    var revealFromProcesses: set<Id>
    var stage: nat
    var witnessStage: nat
    var revealStage: RevealStage
    var ownWitnessSet: set<Id>
    var potWitnessSet: set<Id>
    var encryptedShares: seq<Share>
    var ownEncryptedShare: Share
    var decryptedShares: seq<Share>
    var receivedMessagesCnt: nat
    var pendingRevealProtocolMessages: seq<Pending>

    ghost const instance: Instance
    ghost var echoVotes: map<Id, int>
    ghost var readyVotes: map<Id, int>
    ghost var witnessVotes: map<Id, int>
    ghost var validateVotes: map<Id, int>

    /** The counters represent the first votes. */
    ghost predicate Valid()
      reads this
    {
      && echoFromProcesses.Records(echoVotes) && readyFromProcesses.Records(readyVotes)
      && readyFromWitnesses.Records(witnessVotes) && validateFromWitnesses.Records(validateVotes)
    }

    ghost function View(): State
      reads this
    {
      State(stage, witnessStage, revealStage, echoVotes, readyVotes, witnessVotes, validateVotes, revealFromProcesses,
            ownWitnessSet, potWitnessSet, encryptedShares, ownEncryptedShare, decryptedShares,
            receivedMessagesCnt, pendingRevealProtocolMessages)
    }

    constructor (ghost b: Instance, own: set<Id>, pot: set<Id>)
      ensures Valid() && instance == b
      ensures View() == State(INITIAL_STAGE, INITIAL_WITNESS_STAGE, InitialRevealStage, map[], map[], map[], map[], {},
                              own, pot, [], [], [], 0, [])
    {
      instance := b;
      echoFromProcesses, readyFromProcesses := NO_VOTES, NO_VOTES;
      readyFromWitnesses, validateFromWitnesses := NO_VOTES, NO_VOTES;
      revealFromProcesses := {};
      stage, witnessStage, revealStage := INITIAL_STAGE, INITIAL_WITNESS_STAGE, InitialRevealStage;
      ownWitnessSet, potWitnessSet := own, pot;
      encryptedShares, ownEncryptedShare, decryptedShares := [], [], [];
      receivedMessagesCnt := 0;
      pendingRevealProtocolMessages := [];
      echoVotes, readyVotes, witnessVotes, validateVotes := map[], map[], map[], map[];
    }

    method CountMessage()
      requires Valid()
      modifies this`receivedMessagesCnt
      ensures Valid() && View() == Counted(old(View()))
    {
      receivedMessagesCnt := receivedMessagesCnt + 1;
    }

    method Append(p: Pending)
      requires Valid()
      modifies this`pendingRevealProtocolMessages
      ensures Valid() && View() == old(View()).(pending := old(View()).pending + [p])
    {
      pendingRevealProtocolMessages := pendingRevealProtocolMessages + [p];
    }

    method ClearPending()
      modifies this`pendingRevealProtocolMessages
      ensures Valid() == old(Valid()) && View() == old(View()).(pending := [])
    {
      pendingRevealProtocolMessages := [];
    }

    method Finish()
      modifies this`stage
      ensures Valid() == old(Valid()) && View() == old(View()).(stage := DELIVERED_STAGE)
    {
      stage := DELIVERED_STAGE;
    }

    method CountEcho(sender: Id, value: int) returns (count: nat)
      requires Valid() && sender !in echoFromProcesses.heard
      modifies this`echoFromProcesses, this`echoVotes
      ensures Valid() && View() == old(View()).(echoFromProcesses := old(echoVotes)[sender := value])
      ensures count == |Voters(echoVotes, value)|
    {
      echoFromProcesses, count := CountVote(echoFromProcesses, echoVotes, sender, value);
      echoVotes := echoVotes[sender := value];
    }

    method CountReady(sender: Id, value: int) returns (count: nat)
      requires Valid() && sender !in readyFromProcesses.heard
      modifies this`readyFromProcesses, this`readyVotes
      ensures Valid() && View() == old(View()).(readyFromProcesses := old(readyVotes)[sender := value])
      ensures count == |Voters(readyVotes, value)|
    {
      readyFromProcesses, count := CountVote(readyFromProcesses, readyVotes, sender, value);
      readyVotes := readyVotes[sender := value];
    }

    method CountWitnessReady(sender: Id, value: int) returns (count: nat)
      requires Valid() && sender !in readyFromWitnesses.heard
      modifies this`readyFromWitnesses, this`witnessVotes
      ensures Valid() && View() == old(View()).(readyFromWitnesses := old(witnessVotes)[sender := value])
      ensures count == |Voters(witnessVotes, value)|
    {
      readyFromWitnesses, count := CountVote(readyFromWitnesses, witnessVotes, sender, value);
      witnessVotes := witnessVotes[sender := value];
    }

    method CountValidate(sender: Id, value: int) returns (count: nat)
      requires Valid() && sender !in validateFromWitnesses.heard
      modifies this`validateFromWitnesses, this`validateVotes
      ensures Valid() && View() == old(View()).(validateFromWitnesses := old(validateVotes)[sender := value])
      ensures count == |Voters(validateVotes, value)|
    {
      validateFromWitnesses, count := CountVote(validateFromWitnesses, validateVotes, sender, value);
      validateVotes := validateVotes[sender := value];
    }
  }

  class Process {
    const c: Config
    const quorumThreshold: nat
    const readyMessagesThreshold: nat
    const dataShares: nat
    const historyHashes: HistoryBank

    var transactionCounter: int32
    var deliveredMessages: map<Instance, Broadcast>
    var messagesLog: map<Instance, MessageState>
    var checkpoints: map<int, Instance>
    var finallyCommittedMessages: map<Instance, int32>
    var transactionToCheckpoint: map<Instance, nat>
    var deliveredMessagesCount: nat
    var halted: bool
    var outbox: multiset<Packet>

    ghost var states: map<Instance, State>
    ghost var deliveries: seq<Instance>
    ghost var revealed: seq<Instance>
    ghost var commits: seq<Commit>

    ghost predicate Sized() {
      && c.Sound() && quorumThreshold == c.Quorum()
      && readyMessagesThreshold == c.ReadyThreshold() && dataShares == c.DataShares()
    }

    ghost predicate Histories()
      reads historyHashes, historyHashes.repr
    {
      historyHashes.Valid() && historyHashes.params == c.params
    }

    /** The object of b holds what states says, and is part of nothing else. */
    ghost predicate Holds(b: Instance)
      requires b in messagesLog && b in states
      reads this`messagesLog, this`states, messagesLog[b]
    {
      && messagesLog[b].instance == b && messagesLog[b] !in historyHashes.repr
      && messagesLog[b].Valid() && messagesLog[b].View() == states[b]
    }

    ghost predicate Log()
      reads this`messagesLog, this`states, messagesLog.Values
    {
      (forall b :: b in messagesLog <==> b in states) && (forall b {:trigger Holds(b)} | b in messagesLog :: Holds(b))
    }

    /** The history hashes hold the committed secrets. */
    ghost predicate Bank()
      reads this`commits, historyHashes, historyHashes.repr
    {
      this !in historyHashes.repr && Histories() && historyHashes.history == SecretsOf(commits)
    }

    ghost predicate Valid()
      reads this, messagesLog.Values, historyHashes, historyHashes.repr
    {
      Sized() && Bank() && Log()
    }

    /** The value that the machine works on. */
    ghost function View(): Reliable.Process
      reads this
    {
      Reliable.Process(deliveredMessages, states, checkpoints, finallyCommittedMessages, transactionToCheckpoint,
                       deliveredMessagesCount, transactionCounter, halted, deliveries, revealed, commits)
    }

    /** Any configuration makes a process; one with rings that overflow or no room for an erasure code is not sound. */
    constructor (
      self: Id, processCount: nat, faultyProcesses: nat, witnessThreshold: int, mixingTime: int, selector: Selector,
      binNum: nat, binCapacity: nat, hasher: seq<byte> -> seq<byte>,
      encrypt: (Id, Share) -> Option<Share>, decrypt: Share -> Option<Share>,
      encode: seq<Share> -> Option<seq<Share>>, reconstruct: seq<Share> -> Option<seq<Share>>)
      ensures (c.Sound() ==> Valid()) && View() == NEW_PROCESS && outbox == multiset{}
      ensures c == Config(self, processCount, faultyProcesses, witnessThreshold, mixingTime, selector,
                          NodeParams(processCount, binNum, binCapacity, hasher), encrypt, decrypt, encode, reconstruct)
    {
      var bank := new HistoryBank(processCount, binNum, binCapacity, hasher);
      historyHashes := bank;
      c := Config(self, processCount, faultyProcesses, witnessThreshold, mixingTime, selector,
                  NodeParams(processCount, binNum, binCapacity, hasher), encrypt, decrypt, encode, reconstruct);
      var half := (processCount + faultyProcesses + 1) / 2;
      quorumThreshold := if (processCount + faultyProcesses + 1) % 2 == 0 then half else half + 1;
      readyMessagesThreshold := faultyProcesses + 1;
      dataShares := faultyProcesses + 1;
      transactionCounter := 0;
      deliveredMessages, messagesLog, checkpoints := map[], map[], map[];
      finallyCommittedMessages, transactionToCheckpoint := map[], map[];
      deliveredMessagesCount := 0;
      halted := false;
      outbox := multiset{};
      states, deliveries, revealed, commits := map[], [], [], [];
    }

    // -------------------------------------------------------------- sending

    method BroadcastMessage(b: Instance, content: Content)
      modifies this`outbox
      ensures outbox == old(outbox) + Packets([ToSet(b, Everyone(c.n), content)])
    {
      for i := 0 to c.n
        invariant outbox == old(outbox) + multiset(Addressed(Everyone(i), b, content))
      {
        OneMore(Everyone(i), i, b, content);
        outbox := outbox + multiset{Packet(i, b, content)};
      }
      PacketsOfOne(ToSet(b, Everyone(c.n), content));
    }

    /** In whatever order the map of witnesses is ranged over. */
    method BroadcastToWitnesses(b: Instance, content: Content, msgState: MessageState)
      modifies this`outbox
      ensures outbox == old(outbox) + Packets([ToSet(b, msgState.potWitnessSet, content)])
    {
      var told: set<Id> := {};
      while told != msgState.potWitnessSet
        invariant told <= msgState.potWitnessSet
        invariant outbox == old(outbox) + multiset(Addressed(told, b, content))
        decreases msgState.potWitnessSet - told
      {
        assert msgState.potWitnessSet - told != {} by {
          SubsetOrOutside(msgState.potWitnessSet, told);
        }
        var q :| q in msgState.potWitnessSet - told;
        OneMore(told, q, b, content);
        outbox := outbox + multiset{Packet(q, b, content)};
        told := told + {q};
      }
      PacketsOfOne(ToSet(b, told, content));
    }

    method BroadcastReadyFromWitness(b: Instance, bm: Broadcast, msgState: MessageState)
      modifies this`outbox, msgState`witnessStage
      ensures outbox == old(outbox) + Packets([Broadcasting(c, b, READY_FROM_WITNESS, bm)])
      ensures msgState.witnessStage == SENT_READY_FROM_WITNESS
    {
      BroadcastMessage(b, Protocol(ProtocolMessage(READY_FROM_WITNESS, bm, [])));
      msgState.witnessStage := SENT_READY_FROM_WITNESS;
    }

    // -------------------------------------------------------------- one state, the protocol layer

    /** The loop over processes panics where the list of shares ends. */
    method SendShares(b: Instance, bm: Broadcast, shares: seq<Share>) returns (done: bool)
      modifies this`outbox
      ensures done <==> |shares| >= c.n
      ensures outbox == old(outbox) + Packets([ShareEach(b, bm, if done then shares[..c.n] else shares)])
    {
      var i := 0;
      while i < c.n && i < |shares|
        invariant i <= c.n && i <= |shares|
        invariant outbox == old(outbox) + ShareByShare(b, bm, shares[..i])
      {
        assert shares[..i + 1][..i] == shares[..i];
        outbox := outbox + multiset{Packet(i, b, ShareMessage(bm, shares[i]))};
        i := i + 1;
      }
      PacketsOfOne(ShareEach(b, bm, shares[..i]));
      assert i == |shares| ==> shares[..i] == shares;
      return i == c.n;
    }

    method OnNotify(b: Instance, bm: Broadcast, shares: seq<Share>, msgState: MessageState) returns (verdict: Verdict)
      requires Sized() && msgState.Valid()
      modifies this`outbox, msgState
      ensures msgState.Valid()
      ensures var r := Reliable.OnNotify(c, b, old(msgState.View()), bm, shares);
              msgState.View() == r.st && outbox == old(outbox) + Packets(r.out) && verdict == r.verdict
    {
      if c.self !in msgState.potWitnessSet || msgState.witnessStage >= SENT_ECHO_FROM_WITNESS {
        return Go;
      }
      msgState.encryptedShares := shares;
      if c.self >= |shares| {
        return Crash;
      }
      msgState.ownEncryptedShare := shares[c.self];
      assert msgState.View() == old(msgState.View()).(encryptedShares := shares, ownEncryptedShare := shares[c.self]);
      var done := SendShares(b, bm, shares);
      if !done {
        return Crash;
      }
      msgState.witnessStage := SENT_ECHO_FROM_WITNESS;
      return Go;
    }

    method OnEchoFromWitness(sender: Id, b: Instance, bm: Broadcast, shares: seq<Share>, msgState: MessageState)
      returns (verdict: Verdict)
      requires msgState.Valid()
      modifies this`outbox, msgState
      ensures msgState.Valid()
      ensures var r := Reliable.OnEchoFromWitness(b, old(msgState.View()), sender, bm, shares);
              msgState.View() == r.st && outbox == old(outbox) + Packets(r.out) && verdict == r.verdict
    {
      if sender !in msgState.ownWitnessSet || msgState.stage >= SENT_ECHO_FROM_PROCESS {
        return Go;
      }
      if |shares| == 0 {
        return Crash;
      }
      msgState.ownEncryptedShare := shares[0];
      var message := Protocol(ProtocolMessage(ECHO_FROM_PROCESS, bm, []));
      BroadcastToWitnesses(b, message, msgState);
      msgState.stage := SENT_ECHO_FROM_PROCESS;
      assert msgState.View() == old(msgState.View()).(ownEncryptedShare := shares[0], stage := SENT_ECHO_FROM_PROCESS);
      return Go;
    }

    method OnEchoFromProcess(sender: Id, b: Instance, bm: Broadcast, msgState: MessageState)
      returns (verdict: Verdict)
      requires Sized() && msgState.Valid()
      modifies this`outbox, msgState
      ensures msgState.Valid()
      ensures var r := Reliable.OnEchoFromProcess(c, b, old(msgState.View()), sender, bm);
              msgState.View() == r.st && outbox == old(outbox) + Packets(r.out) && verdict == r.verdict
    {
      if || c.self !in msgState.potWitnessSet || msgState.witnessStage >= SENT_READY_FROM_WITNESS
         || sender in msgState.echoFromProcesses.heard
      {
        return Go;
      }
      var count := msgState.CountEcho(sender, bm.value);
      if count >= quorumThreshold {
        BroadcastReadyFromWitness(b, bm, msgState);
      }
      return Go;
    }

    method OnReadyFromWitness(sender: Id, b: Instance, bm: Broadcast, msgState: MessageState)
      returns (verdict: Verdict)
      requires Sized() && msgState.Valid()
      modifies this`outbox, msgState
      ensures msgState.Valid()
      ensures var r := Reliable.OnReadyFromWitness(c, b, old(msgState.View()), sender, bm);
              msgState.View() == r.st && outbox == old(outbox) + Packets(r.out) && verdict == r.verdict
    {
      if || sender !in msgState.ownWitnessSet || msgState.stage >= SENT_READY_FROM_PROCESS
         || sender in msgState.readyFromWitnesses.heard
      {
        return Go;
      }
      var count := msgState.CountWitnessReady(sender, bm.value);
      if count >= c.witnessThreshold {
        BroadcastToWitnesses(b, Protocol(ProtocolMessage(READY_FROM_PROCESS, bm, [])), msgState);
        msgState.stage := SENT_READY_FROM_PROCESS;
      }
      return Go;
    }

    /** The two conditionals that follow a counted READY. */
    method Promote(b: Instance, bm: Broadcast, count: nat, msgState: MessageState)
      requires Sized()
      modifies this`outbox, msgState`witnessStage
      ensures var r := Promoted(c, b, old(msgState.View()), bm, count);
              msgState.View() == r.st && outbox == old(outbox) + Packets(r.out)
    {
      var ready, validate := Broadcasting(c, b, READY_FROM_WITNESS, bm), Broadcasting(c, b, VALIDATE, bm);
      PacketsOfTwo(ready, validate);
      if msgState.witnessStage < SENT_READY_FROM_WITNESS && count >= readyMessagesThreshold {
        BroadcastReadyFromWitness(b, bm, msgState);
      }
      if msgState.witnessStage < SENT_VALIDATE && count >= quorumThreshold {
        BroadcastMessage(b, Protocol(ProtocolMessage(VALIDATE, bm, [])));
        msgState.witnessStage := SENT_VALIDATE;
      }
    }

    method OnReadyFromProcess(sender: Id, b: Instance, bm: Broadcast, msgState: MessageState)
      returns (verdict: Verdict)
      requires Sized() && msgState.Valid()
      modifies this`outbox, msgState
      ensures msgState.Valid()
      ensures var r := Reliable.OnReadyFromProcess(c, b, old(msgState.View()), sender, bm);
              msgState.View() == r.st && outbox == old(outbox) + Packets(r.out) && verdict == r.verdict
    {
      if c.self !in msgState.potWitnessSet || sender in msgState.readyFromProcesses.heard {
        return Go;
      }
      var count := msgState.CountReady(sender, bm.value);
      Promote(b, bm, count, msgState);
      return Go;
    }

    /** Up to the delivery, which the caller carries out. */
    method OnValidate(sender: Id, bm: Broadcast, msgState: MessageState) returns (verdict: Verdict)
      requires msgState.Valid()
      modifies msgState
      ensures msgState.Valid()
      ensures var r := Reliable.OnValidate(c, old(msgState.View()), sender, bm);
              msgState.View() == r.st && r.out == [] && verdict == r.verdict
    {
      if || sender !in msgState.ownWitnessSet || msgState.stage >= DELIVERED_STAGE
         || sender in msgState.validateFromWitnesses.heard
      {
        return Go;
      }
      var count := msgState.CountValidate(sender, bm.value);
      return if count >= c.witnessThreshold then Deliver else Go;
    }

    /** The switch over the stage of a protocol message. */
    method React(sender: Id, b: Instance, m: ProtocolMessage, msgState: MessageState) returns (verdict: Verdict)
      requires Sized() && msgState.Valid()
      modifies this`outbox, msgState
      ensures msgState.Valid()
      ensures var r := Reliable.React(c, b, old(msgState.View()), sender, m);
              msgState.View() == r.st && outbox == old(outbox) + Packets(r.out) && verdict == r.verdict
    {
      match m.kind
      case NOTIFY => verdict := OnNotify(b, m.broadcast, m.shares, msgState);
      case ECHO_FROM_WITNESS => verdict := OnEchoFromWitness(sender, b, m.broadcast, m.shares, msgState);
      case ECHO_FROM_PROCESS => verdict := OnEchoFromProcess(sender, b, m.broadcast, msgState);
      case READY_FROM_WITNESS => verdict := OnReadyFromWitness(sender, b, m.broadcast, msgState);
      case READY_FROM_PROCESS => verdict := OnReadyFromProcess(sender, b, m.broadcast, msgState);
      case VALIDATE => verdict := OnValidate(sender, m.broadcast, msgState);
    }

    // -------------------------------------------------------------- one state, the commitment layer

    method DecodeIntegers(shares: seq<Share>) returns (x: Option<seq<int32>>)
      requires Sized()
      ensures x == Integers(shares, c.DataShares())
    {
      var xPrime := [];
      for i := 0 to dataShares
        invariant Integers(shares, i) == Some(xPrime)
      {
        if i >= |shares| || |shares[i]| < 4 {
          TooShort(shares, i + 1, dataShares);
          return None;
        }
        xPrime := xPrime + [ToInt32(shares[i])];
      }
      return Some(xPrime);
    }

    lemma {:induction false} TooShort(shares: seq<Share>, k: nat, n: nat)
      requires k <= n && Integers(shares, k).None?
      ensures Integers(shares, n).None?
    {
      if k < n {
        TooShort(shares, k, n - 1);
      }
    }

    /** The comparison with what the author handed out; failing to encrypt is as fatal as a difference. */
    method IsGenuine(sender: Id, share: Share, msgState: MessageState) returns (genuine: bool)
      ensures genuine == Genuine(c, msgState.View(), sender, share)
    {
      if |msgState.encryptedShares| == 0 {
        return true;
      }
      var encryptedShare := c.encrypt(sender, share);
      if encryptedShare.None? || sender >= |msgState.encryptedShares| {
        return false;
      }
      genuine := AreEqual(encryptedShare.value, msgState.encryptedShares[sender]);
    }

    method Rebuild(b: Instance, xHash: int32, msgState: MessageState) returns (verdict: Verdict)
      requires Sized() && msgState.Valid()
      modifies this`outbox, msgState
      ensures msgState.Valid()
      ensures var r := Reliable.Rebuild(c, b, old(msgState.View()), xHash);
              msgState.View() == r.st && outbox == old(outbox) + Packets(r.out) && verdict == r.verdict
    {
      var full := c.reconstruct(msgState.decryptedShares);
      if full.None? {
        return Crash;
      }
      msgState.decryptedShares := full.value;
      var x := DecodeIntegers(full.value);
      if x.None? {
        return Crash;
      }
      var xPrimeHash := Hash(x.value);
      if xPrimeHash == xHash {
        BroadcastMessage(b, Commitment(Done(x.value)));
        msgState.revealStage := SentDoneToProcesses;
      } else {
        BroadcastMessage(b, Commitment(Failed));
        msgState.revealStage := SentFailedToProcesses;
      }
      return Go;
    }

    method OnReveal(sender: Id, b: Instance, share: Share, xHash: int32, msgState: MessageState)
      returns (verdict: Verdict)
      requires Sized() && msgState.Valid()
      modifies this`outbox, msgState
      ensures msgState.Valid()
      ensures var r := Reliable.OnReveal(c, b, old(msgState.View()), sender, share, xHash);
              msgState.View() == r.st && outbox == old(outbox) + Packets(r.out) && verdict == r.verdict
    {
      if || c.self !in msgState.potWitnessSet || sender in msgState.revealFromProcesses
         || msgState.revealStage == SentDoneToProcesses || msgState.revealStage == SentFailedToProcesses
      {
        return Go;
      }
      msgState.revealFromProcesses := msgState.revealFromProcesses + {sender};
      var shares := if msgState.decryptedShares == [] then seq(c.n, _ => []) else msgState.decryptedShares;
      if sender >= |shares| {
        return Crash;
      }
      msgState.decryptedShares := shares[sender := share];
      var genuine := IsGenuine(sender, share, msgState);
      if !genuine {
        return Crash;
      }
      if |msgState.revealFromProcesses| < 2 * c.f + 1 {
        return Go;
      }
      verdict := Rebuild(b, xHash, msgState);
    }

    method EchoDone(b: Instance, x: seq<int32>, msgState: MessageState)
      modifies this`outbox, msgState`revealStage
      ensures var (st, out) := Reliable.EchoDone(c, b, old(msgState.View()), x);
              msgState.View() == st && outbox == old(outbox) + Packets(out)
    {
      if c.self in msgState.potWitnessSet && msgState.revealStage != SentDoneToProcesses {
        BroadcastMessage(b, Commitment(Done(x)));
        msgState.revealStage := SentDoneToProcesses;
      }
    }

    method TellDone(b: Instance, x: seq<int32>, msgState: MessageState)
      modifies this`outbox, msgState`revealStage
      ensures var (st, out) := Reliable.TellDone(b, old(msgState.View()), x);
              msgState.View() == st && outbox == old(outbox) + Packets(out)
    {
      if msgState.revealStage != SentDoneToWitnesses {
        BroadcastToWitnesses(b, Commitment(Done(x)), msgState);
        msgState.revealStage := SentDoneToWitnesses;
      }
    }

    /** Up to the commit, which the caller carries out. */
    method OnDone(sender: Id, b: Instance, x: seq<int32>, xHash: int32, age: int, msgState: MessageState)
      returns (verdict: Verdict)
      requires msgState.Valid()
      modifies this`outbox, msgState
      ensures msgState.Valid()
      ensures var r := Reliable.OnDone(c, b, old(msgState.View()), sender, x, xHash, age);
              msgState.View() == r.st && outbox == old(outbox) + Packets(r.out) && verdict == r.verdict
    {
      var h := Hash(x);
      if h != xHash {
        return Go;
      }
      ghost var (st1, echoed) := Reliable.EchoDone(c, b, msgState.View(), x);
      EchoDone(b, x, msgState);
      assert msgState.View() == st1;
      if sender in msgState.ownWitnessSet && age >= c.mixingTime {
        ghost var (st2, told) := Reliable.TellDone(b, st1, x);
        PacketsConcat(echoed, told);
        SumsAssociate(old(outbox), Packets(echoed), Packets(told));
        TellDone(b, x, msgState);
        assert msgState.View() == st2;
        return CommitTo(x);
      }
      return Go;
    }

    method OnFailed(sender: Id, b: Instance, msgState: MessageState)
      requires msgState.Valid()
      modifies this`outbox, msgState
      ensures msgState.Valid()
      ensures var r := Reliable.OnFailed(c, b, old(msgState.View()), sender);
              msgState.View() == r.st && outbox == old(outbox) + Packets(r.out) && r.verdict == Go
    {
      var toAll, toPot := ToAll(c, b, Failed), ToPot(msgState.View(), b, Failed);
      PacketsOfTwo(toPot, toAll);
      if sender in msgState.ownWitnessSet && msgState.revealStage != SentFailedToWitnesses {
        BroadcastToWitnesses(b, Commitment(Failed), msgState);
        msgState.revealStage := SentFailedToWitnesses;
      }
      if c.self in msgState.potWitnessSet && msgState.revealStage != SentFailedToProcesses {
        BroadcastMessage(b, Commitment(Failed));
        msgState.revealStage := SentFailedToProcesses;
      }
    }

    /** The switch over the stage of a commitment message. */
    method ReactToCommitment(
      sender: Id, b: Instance, m: CommitmentMessage, xHash: int32, age: int, msgState: MessageState)
      returns (verdict: Verdict)
      requires Sized() && msgState.Valid()
      modifies this`outbox, msgState
      ensures msgState.Valid()
      ensures var r := Reliable.ReactToCommitment(c, b, old(msgState.View()), sender, m, xHash, age);
              msgState.View() == r.st && outbox == old(outbox) + Packets(r.out) && verdict == r.verdict
    {
      match m
      case Reveal(share) => verdict := OnReveal(sender, b, share, xHash, msgState);
      case Done(x) => verdict := OnDone(sender, b, x, xHash, age, msgState);
      case Failed =>
        OnFailed(sender, b, msgState);
        verdict := Go;
    }

    // -------------------------------------------------------------- the log

    /** The witness sets of a new state are those of the history as it stands. */
    method NewMessageState(ghost b: Instance) returns (msgState: MessageState)
      requires Sized() && Histories() && historyHashes.history == SecretsOf(commits)
      ensures fresh(msgState) && msgState.instance == b && msgState.Valid() && msgState.View() == FreshState(c, View())
    {
      var own, pot := historyHashes.GetWitnessSet(c.selector, Ids(c.n));
      msgState := new MessageState(b, own, pot);
    }

    method Install(b: Instance, msgState: MessageState)
      requires Log() && msgState.Valid() && msgState.instance == b && msgState !in historyHashes.repr
      modifies this`messagesLog, this`states
      ensures Log() && messagesLog == old(messagesLog)[b := msgState] && states == old(states)[b := msgState.View()]
    {
      messagesLog := messagesLog[b := msgState];
      states := states[b := msgState.View()];
      forall d | d in messagesLog
        ensures Holds(d)
      {
        assert d != b ==> old(Holds(d));
      }
    }

    method Remove(b: Instance)
      requires Log()
      modifies this`messagesLog, this`states
      ensures Log() && messagesLog == old(messagesLog) - {b} && states == old(states) - {b}
    {
      messagesLog := messagesLog - {b};
      states := states - {b};
      forall d | d in messagesLog
        ensures Holds(d)
      {
        assert old(Holds(d));
      }
    }

    method InitMessageState(b: Instance) returns (msgState: MessageState)
      requires Valid()
      modifies this`messagesLog, this`states
      ensures Valid() && fresh(msgState)
      ensures messagesLog == old(messagesLog)[b := msgState]
      ensures View() == WithState(old(View()), b, FreshState(c, old(View())))
    {
      ghost var p, st := View(), FreshState(c, View());
      msgState := NewMessageState(b);
      assert Log() && msgState.View() == st;
      Install(b, msgState);
      assert View() == WithState(p, b, st);
    }

    method RegisterMessage(b: Instance) returns (msgState: MessageState)
      requires Valid()
      modifies this`messagesLog, this`states
      ensures Valid() && b in messagesLog && messagesLog[b] == msgState
      ensures if b in old(messagesLog) then messagesLog == old(messagesLog)
              else fresh(msgState) && messagesLog == old(messagesLog)[b := msgState]
      ensures View() == WithState(old(View()), b, Register(c, old(View()), b))
    {
      if b in messagesLog {
        assert states[b := states[b]] == states;
        msgState := messagesLog[b];
      } else {
        msgState := InitMessageState(b);
      }
    }

    method AddSecret(x: seq<int32>)
      requires Bank() && Log()
      modifies historyHashes.repr
      ensures Histories() && historyHashes.history == SecretsOf(commits) + [SecretBytes(x)]
      ensures Log()
    {
      historyHashes.AddSecret(x);
      forall d | d in messagesLog
        ensures Holds(d)
      {
        assert old(Holds(d));
      }
    }

    // -------------------------------------------------------------- commitment messages

    lemma SecretsOfLonger(commits: seq<Commit>, b: Instance, x: seq<int32>)
      ensures SecretsOf(commits + [Commit(b, x)]) == SecretsOf(commits) + [SecretBytes(x)]
    {
      assert (commits + [Commit(b, x)])[..|commits|] == commits;
    }

    /** Deleting the state and recording the value; the secret has been added before. */
    method CleanUp(b: Instance, x: seq<int32>, value: int32)
      requires Sized() && Log() && this !in historyHashes.repr && Histories()
      requires historyHashes.history == SecretsOf(commits) + [SecretBytes(x)]
      modifies this`messagesLog, this`states, this`finallyCommittedMessages, this`commits
      ensures Valid() && messagesLog == old(messagesLog) - {b} && b in finallyCommittedMessages
      ensures View() == Reliable.CleanUp(old(View()), b, x, value)
    {
      SecretsOfLonger(commits, b, x);
      Remove(b);
      finallyCommittedMessages := finallyCommittedMessages[b := value];
      commits := commits + [Commit(b, x)];
    }

    /** What reaction r of p leads to beyond the state of its instance, which is in place. */
    method Settle(b: Instance, verdict: Verdict, ghost p: Reliable.Process, ghost r: Reaction)
      requires Valid() && b in messagesLog && b in deliveredMessages
      requires b in p.delivered && View() == WithState(p, b, r.st) && verdict == r.verdict
      modifies this`messagesLog, this`states, this`finallyCommittedMessages, this`commits, this`halted
      modifies historyHashes.repr
      ensures Valid()
      ensures View() == Apply(p, b, r).p
      ensures || messagesLog == old(messagesLog)
              || (messagesLog == old(messagesLog) - {b} && b in finallyCommittedMessages)
    {
      match verdict
      case CommitTo(x) =>
        AddSecret(x);
        CleanUp(b, x, deliveredMessages[b].value);
      case Crash => halted := true;
      case _ =>
    }

    /** After a change to the object of b alone. */
    ghost method Note(b: Instance)
      requires b in messagesLog && b in states
      requires messagesLog[b].Valid() && messagesLog[b].instance == b && messagesLog[b] !in historyHashes.repr
      requires forall d :: d in messagesLog <==> d in states
      requires forall d {:trigger Holds(d)} | d in messagesLog && d != b :: Holds(d)
      modifies this`states
      ensures Log() && states == old(states)[b := messagesLog[b].View()]
    {
      states := states[b := messagesLog[b].View()];
      forall d | d in messagesLog
        ensures Holds(d)
      {
        assert d != b ==> old(Holds(d));
      }
    }

    /** A change to the object of b leaves the others as they were. */
    twostate lemma OthersHold(b: Instance)
      requires old(Log()) && messagesLog == old(messagesLog) && states == old(states)
      requires b in messagesLog
      requires forall d | d in messagesLog && messagesLog[d] != messagesLog[b] :: unchanged(messagesLog[d])
      ensures forall d {:trigger Holds(d)} | d in messagesLog && d != b :: Holds(d)
    {
      assert old(Holds(b));
      forall d | d in messagesLog && d != b
        ensures Holds(d)
      {
        assert old(Holds(d));
      }
    }

    /** Deferred until the instance is delivered. */
    method Defer(sender: Id, b: Instance, m: CommitmentMessage)
      requires Log() && b in messagesLog
      modifies this`states, messagesLog[b]
      ensures Log()
      ensures var st := Counted(old(states[b]));
              states == old(states)[b := st.(pending := st.pending + [Pending(sender, m)])]
    {
      ghost var st := Counted(states[b]);
      var msgState := messagesLog[b];
      assert Holds(b);
      msgState.CountMessage();
      msgState.Append(Pending(sender, m));
      assert msgState.View() == st.(pending := st.pending + [Pending(sender, m)]);
      OthersHold(b);
      Note(b);
    }

    /** Counting the message and reacting to it, on the state of b. */
    method CountAndReact(sender: Id, b: Instance, m: CommitmentMessage) returns (verdict: Verdict)
      requires Sized() && Log() && b in messagesLog && b in deliveredMessages
      modifies this`states, this`outbox, messagesLog[b]
      ensures Log()
      ensures var r := ReactionTo(c, old(View()), sender, b, m, Counted(old(states[b])));
              && View() == WithState(old(View()), b, r.st)
              && outbox == old(outbox) + Packets(r.out) && verdict == r.verdict
    {
      var checkpoint := if b in transactionToCheckpoint then transactionToCheckpoint[b] else 0;
      ghost var p, r := View(), ReactionTo(c, View(), sender, b, m, Counted(states[b]));
      verdict := ReactWithin(sender, b, m, deliveredMessages[b].xHash, deliveredMessagesCount - checkpoint, r);
      assert View() == WithState(p, b, r.st);
    }

    method ReactWithin(sender: Id, b: Instance, m: CommitmentMessage, xHash: int32, age: int, ghost r: Reaction)
      returns (verdict: Verdict)
      requires Sized() && Log() && b in messagesLog
      requires r == Reliable.ReactToCommitment(c, b, Counted(states[b]), sender, m, xHash, age)
      modifies this`states, this`outbox, messagesLog[b]
      ensures Log() && states == old(states)[b := r.st]
      ensures outbox == old(outbox) + Packets(r.out) && verdict == r.verdict
    {
      var msgState := messagesLog[b];
      assert Holds(b);
      msgState.CountMessage();
      verdict := ReactToCommitment(sender, b, m, xHash, age, msgState);
      assert msgState.View() == r.st;
      OthersHold(b);
      Note(b);
    }

    twostate lemma BankKept()
      requires old(Bank()) && unchanged(historyHashes.repr) && commits == old(commits)
      ensures Bank()
    {
    }

    /** A message for an instance that has been delivered. */
    method ReactIfDelivered(sender: Id, b: Instance, m: CommitmentMessage)
      requires Valid() && b in messagesLog && b in deliveredMessages
      modifies this`messagesLog, this`states, this`finallyCommittedMessages, this`commits, this`halted, this`outbox
      modifies messagesLog[b], historyHashes.repr
      ensures Valid()
      ensures var r := ReactionTo(c, old(View()), sender, b, m, Counted(old(states[b])));
              View() == Apply(old(View()), b, r).p && outbox == old(outbox) + Packets(r.out)
      ensures || messagesLog == old(messagesLog)
              || (messagesLog == old(messagesLog) - {b} && b in finallyCommittedMessages)
    {
      ghost var p, r := View(), ReactionTo(c, View(), sender, b, m, Counted(states[b]));
      assert Holds(b);
      label L:
      var verdict := CountAndReact(sender, b, m);
      assert outbox == old(outbox) + Packets(r.out);
      BankKept@L();
      Settle(b, verdict, p, r);
    }

    lemma RegisteringFirst(p: Reliable.Process, sender: Id, b: Instance, m: CommitmentMessage, st: State)
      ensures CommitmentOn(c, WithState(p, b, st), sender, b, m, st) == CommitmentOn(c, p, sender, b, m, st)
    {
      var later := if b in p.delivered then ReactionTo(c, p, sender, b, m, Counted(st)).st
                   else Counted(st).(pending := st.pending + [Pending(sender, m)]);
      assert p.log[b := st][b := later] == p.log[b := later];
    }

    /** Whether deferred or reacted to, once there is a state. */
    method HandleRegistered(sender: Id, b: Instance, m: CommitmentMessage)
      requires Valid() && b in messagesLog
      modifies this`messagesLog, this`states, this`finallyCommittedMessages, this`commits, this`halted, this`outbox
      modifies messagesLog[b], historyHashes.repr
      ensures Valid()
      ensures var t := CommitmentOn(c, old(View()), sender, b, m, old(states[b]));
              View() == t.p && outbox == old(outbox) + Packets(t.out)
      ensures || messagesLog == old(messagesLog)
              || (messagesLog == old(messagesLog) - {b} && b in finallyCommittedMessages)
    {
      if b in deliveredMessages {
        ReactIfDelivered(sender, b, m);
      } else {
        ghost var p, st := View(), Counted(states[b]);
        assert Holds(b);
        label L:
        Defer(sender, b, m);
        BankKept@L();
        assert View() == WithState(p, b, st.(pending := st.pending + [Pending(sender, m)]));
      }
    }

    /** Objects stay where they are; new ones may appear. */
    twostate predicate LogGrown()
      reads this
    {
      forall d | d in messagesLog ::
        (d in old(messagesLog) && messagesLog[d] == old(messagesLog)[d]) || fresh(messagesLog[d])
    }

    method ProcessCommitmentProtocolMessage(sender: Id, b: Instance, m: CommitmentMessage)
      requires Valid()
      modifies this`messagesLog, this`states, this`finallyCommittedMessages, this`commits, this`halted, this`outbox
      modifies messagesLog.Values, historyHashes.repr
      ensures Valid() && LogGrown()
      ensures var t := HandleCommitment(c, old(View()), sender, b, m);
              View() == t.p && outbox == old(outbox) + Packets(t.out)
      ensures b in old(finallyCommittedMessages) ==> messagesLog == old(messagesLog)
      ensures b in old(messagesLog) ==>
                || messagesLog == old(messagesLog)
                || (messagesLog == old(messagesLog) - {b} && b in finallyCommittedMessages)
    {
      if halted || b in finallyCommittedMessages {
        return;
      }
      if b.author >= c.n {
        halted := true;
        return;
      }
      ghost var p, st := View(), Register(c, View(), b);
      var msgState := RegisterMessage(b);
      RegisteringFirst(p, sender, b, m, st);
      HandleRegistered(sender, b, m);
    }

    // -------------------------------------------------------------- deliveries

    method Record(b: Instance, bm: Broadcast)
      requires Valid()
      modifies this`deliveredMessages, this`deliveredMessagesCount, this`checkpoints, this`transactionToCheckpoint
      modifies this`deliveries
      ensures Valid() && View() == Recorded(old(View()), b, bm)
    {
      assert Log() && Bank();
      deliveredMessages := deliveredMessages[b := bm];
      deliveredMessagesCount := deliveredMessagesCount + 1;
      checkpoints := checkpoints[deliveredMessagesCount := b];
      transactionToCheckpoint := transactionToCheckpoint[b := deliveredMessagesCount];
      deliveries := deliveries + [b];
    }

    lemma ReplayExtends(p: Reliable.Process, b: Instance, deferred: seq<Pending>, i: nat)
      requires c.Sound() && i < |deferred|
      ensures var before := Replay(c, p, b, deferred[..i]);
              var t := HandleCommitment(c, before.p, deferred[i].sender, b, deferred[i].m);
              && Replay(c, p, b, deferred[..i + 1]).p == t.p
              && Packets(Replay(c, p, b, deferred[..i + 1]).out) == Packets(before.out) + Packets(t.out)
    {
      assert deferred[..i + 1][..i] == deferred[..i];
      var before := Replay(c, p, b, deferred[..i]);
      PacketsConcat(before.out, HandleCommitment(c, before.p, deferred[i].sender, b, deferred[i].m).out);
    }

    /** One more deferred message, before being the replay so far; one that commits leaves the later ones nothing. */
    method ReplayOne(sender: Id, b: Instance, m: CommitmentMessage, ghost before: Step, ghost sent: multiset<Packet>)
      requires Valid() && View() == before.p && outbox == sent + Packets(before.out)
      requires b in messagesLog || b in finallyCommittedMessages
      modifies this`messagesLog, this`states, this`finallyCommittedMessages, this`commits, this`halted, this`outbox
      modifies messagesLog.Values, historyHashes.repr
      ensures Valid()
      ensures var t := HandleCommitment(c, before.p, sender, b, m);
              View() == t.p && outbox == sent + (Packets(before.out) + Packets(t.out))
      ensures b in messagesLog || b in finallyCommittedMessages
      ensures messagesLog == if b in messagesLog then old(messagesLog) else old(messagesLog) - {b}
      ensures b !in old(messagesLog) ==> messagesLog == old(messagesLog)
    {
      ghost var earlier, now := Packets(before.out), Packets(HandleCommitment(c, before.p, sender, b, m).out);
      SumsAssociate(sent, earlier, now);
      ProcessCommitmentProtocolMessage(sender, b, m);
    }

    method ReplayPending(b: Instance, deferred: seq<Pending>)
      requires Valid() && b in messagesLog
      modifies this`messagesLog, this`states, this`finallyCommittedMessages, this`commits, this`halted, this`outbox
      modifies messagesLog.Values, historyHashes.repr
      ensures Valid()
      ensures var t := Replay(c, old(View()), b, deferred);
              View() == t.p && outbox == old(outbox) + Packets(t.out)
      ensures messagesLog == if b in messagesLog then old(messagesLog) else old(messagesLog) - {b}
    {
      ghost var p := View();
      assert deferred[..0] == [];
      for i := 0 to |deferred|
        invariant Valid() && View() == Replay(c, p, b, deferred[..i]).p
        invariant outbox == old(outbox) + Packets(Replay(c, p, b, deferred[..i]).out)
        invariant b in messagesLog || b in finallyCommittedMessages
        invariant messagesLog == if b in messagesLog then old(messagesLog) else old(messagesLog) - {b}
      {
        ReplayExtends(p, b, deferred, i);
        ReplayOne(deferred[i].sender, b, deferred[i].m, Replay(c, p, b, deferred[..i]), old(outbox));
      }
      assert deferred[..|deferred|] == deferred;
    }

    /** A transaction without a state is a nil pointer; a share that does not decrypt is fatal. */
    method StartRevealPhase(t: Instance)
      requires Log()
      modifies this`outbox, this`halted, this`revealed
      ensures var s := StartReveal(c, old(View()), t); View() == s.p && outbox == old(outbox) + Packets(s.out)
    {
      revealed := revealed + [t];
      if t !in messagesLog {
        halted := true;
        return;
      }
      var msgState := messagesLog[t];
      assert Holds(t);
      var share := c.decrypt(msgState.ownEncryptedShare);
      if share.None? {
        halted := true;
        return;
      }
      BroadcastToWitnesses(t, Commitment(Reveal(share.value)), msgState);
    }

    method RevealWhatIsDue()
      requires Log() && !halted
      modifies this`outbox, this`halted, this`revealed, this`checkpoints
      ensures var s := RevealDue(c, old(View())); View() == s.p && outbox == old(outbox) + Packets(s.out)
    {
      var due := deliveredMessagesCount - c.mixingTime;
      if due in checkpoints {
        StartRevealPhase(checkpoints[due]);
        if !halted {
          checkpoints := checkpoints - {due};
        }
      }
    }

    /** The object is cleared even if a commit has just taken it off the log. */
    method ClearPending(b: Instance, msgState: MessageState)
      requires Log() && !halted
      requires b in messagesLog ==> messagesLog[b] == msgState
      requires msgState.instance == b && msgState !in historyHashes.repr
      modifies msgState, this`states
      ensures Log() && View() == PendingCleared(old(View()), b)
    {
      if b in messagesLog {
        ClearLogged(b);
      } else {
        ClearStray(b, msgState);
      }
    }

    method ClearStray(b: Instance, msgState: MessageState)
      requires Log() && b !in messagesLog && msgState.instance == b
      modifies msgState
      ensures Log()
    {
      msgState.ClearPending();
      forall d | d in messagesLog
        ensures Holds(d)
      {
        assert old(Holds(d));
      }
    }

    method ClearLogged(b: Instance)
      requires Log() && b in messagesLog
      modifies messagesLog[b], this`states
      ensures Log() && View() == WithState(old(View()), b, old(states[b]).(pending := []))
    {
      ghost var p, st := View(), states[b].(pending := []);
      assert Holds(b);
      var msgState := messagesLog[b];
      msgState.ClearPending();
      assert msgState.View() == st;
      OthersHold(b);
      Note(b);
      assert View() == WithState(p, b, st);
    }

    /** What a delivery does once the deferred messages have been replayed. */
    method FinishDelivery(b: Instance, msgState: MessageState)
      requires Valid() && (b in messagesLog ==> messagesLog[b] == msgState)
      requires msgState.instance == b && msgState !in historyHashes.repr
      modifies msgState
      modifies this`states, this`outbox, this`halted, this`revealed, this`checkpoints
      ensures Valid()
      ensures var s := RevealDue(c, PendingCleared(old(View()), b));
              View() == s.p && outbox == old(outbox) + Packets(s.out)
    {
      if halted {
        return;
      }
      label L:
      ClearPending(b, msgState);
      RevealWhatIsDue();
      BankKept@L();
    }

    method RecordAndReplay(b: Instance, bm: Broadcast, deferred: seq<Pending>)
      requires Valid() && b in messagesLog
      modifies this`deliveredMessages, this`deliveredMessagesCount, this`checkpoints, this`transactionToCheckpoint
      modifies this`deliveries
      modifies this`messagesLog, this`states, this`finallyCommittedMessages, this`commits, this`halted, this`outbox
      modifies messagesLog.Values, historyHashes.repr
      ensures Valid()
      ensures var replayed := Replay(c, Recorded(old(View()), b, bm), b, deferred);
              View() == replayed.p && outbox == old(outbox) + Packets(replayed.out)
      ensures messagesLog == if b in messagesLog then old(messagesLog) else old(messagesLog) - {b}
    {
      Record(b, bm);
      ReplayPending(b, deferred);
    }

    lemma DeliverySplits(p: Reliable.Process, b: Instance, bm: Broadcast, sent: multiset<Packet>)
      requires c.Sound() && b in p.log
      ensures var replayed := Replay(c, Recorded(p, b, bm), b, p.log[b].pending);
              var due := RevealDue(c, PendingCleared(replayed.p, b));
              var s := DeliverInstance(c, p, b, bm);
              s.p == due.p && sent + Packets(replayed.out) + Packets(due.out) == sent + Packets(s.out)
    {
      var replayed := Replay(c, Recorded(p, b, bm), b, p.log[b].pending);
      var due := RevealDue(c, PendingCleared(replayed.p, b));
      PacketsConcat(replayed.out, due.out);
      SumsAssociate(sent, Packets(replayed.out), Packets(due.out));
    }

    method DeliverBroadcast(b: Instance, bm: Broadcast)
      requires Valid() && b in messagesLog
      modifies this`deliveredMessages, this`deliveredMessagesCount, this`checkpoints, this`transactionToCheckpoint
      modifies this`deliveries, this`revealed
      modifies this`messagesLog, this`states, this`finallyCommittedMessages, this`commits, this`halted, this`outbox
      modifies messagesLog.Values, historyHashes.repr
      ensures Valid()
      ensures var s := DeliverInstance(c, old(View()), b, bm);
              View() == s.p && outbox == old(outbox) + Packets(s.out)
      ensures messagesLog == if b in messagesLog then old(messagesLog) else old(messagesLog) - {b}
    {
      assert Holds(b);
      var msgState := messagesLog[b];
      DeliverySplits(View(), b, bm, outbox);
      RecordAndReplay(b, bm, msgState.pendingRevealProtocolMessages);
      FinishDelivery(b, msgState);
    }

    // -------------------------------------------------------------- protocol messages

    method CountAndReactToProtocol(sender: Id, b: Instance, m: ProtocolMessage) returns (verdict: Verdict)
      requires Sized() && Log() && b in messagesLog
      modifies this`states, this`outbox, messagesLog[b]
      ensures Log()
      ensures var r := Reliable.React(c, b, Counted(old(states[b])), sender, m);
              && View() == WithState(old(View()), b, r.st)
              && outbox == old(outbox) + Packets(r.out) && verdict == r.verdict
    {
      ghost var p, st, r := View(), Counted(states[b]), Reliable.React(c, b, Counted(states[b]), sender, m);
      var msgState := messagesLog[b];
      assert Holds(b);
      msgState.CountMessage();
      assert msgState.View() == st;
      verdict := React(sender, b, m, msgState);
      assert msgState.View() == r.st;
      OthersHold(b);
      Note(b);
      assert View() == WithState(p, b, r.st);
    }

    /** Set on the object even if a commit has just taken it off the log. */
    method SetDelivered(b: Instance, msgState: MessageState)
      requires Valid() && !halted
      requires b in messagesLog ==> messagesLog[b] == msgState
      requires msgState.instance == b && msgState !in historyHashes.repr
      modifies msgState, this`states
      ensures Valid() && View() == StageSet(old(View()), b)
    {
      if b in messagesLog {
        FinishLogged(b);
      } else {
        FinishStray(b, msgState);
      }
      BankKept();
    }

    method FinishStray(b: Instance, msgState: MessageState)
      requires Log() && b !in messagesLog && msgState.instance == b
      modifies msgState
      ensures Log()
    {
      msgState.Finish();
      forall d | d in messagesLog
        ensures Holds(d)
      {
        assert old(Holds(d));
      }
    }

    method FinishLogged(b: Instance)
      requires Log() && b in messagesLog
      modifies messagesLog[b], this`states
      ensures Log() && View() == WithState(old(View()), b, old(states[b]).(stage := DELIVERED_STAGE))
    {
      ghost var p, st := View(), states[b].(stage := DELIVERED_STAGE);
      assert Holds(b);
      var msgState := messagesLog[b];
      msgState.Finish();
      assert msgState.View() == st;
      OthersHold(b);
      Note(b);
      assert View() == WithState(p, b, st);
    }

    /** The delivery that a VALIDATE has brought about, and the change of stage after it. */
    method DeliverAndSetStage(b: Instance, bm: Broadcast)
      requires Valid() && b in messagesLog
      modifies this`deliveredMessages, this`deliveredMessagesCount, this`checkpoints, this`transactionToCheckpoint
      modifies this`deliveries, this`revealed
      modifies this`messagesLog, this`states, this`finallyCommittedMessages, this`commits, this`halted, this`outbox
      modifies messagesLog.Values, historyHashes.repr
      ensures Valid()
      ensures var s := DeliverInstance(c, old(View()), b, bm);
              View() == StageSet(s.p, b) && outbox == old(outbox) + Packets(s.out)
      ensures messagesLog == if b in messagesLog then old(messagesLog) else old(messagesLog) - {b}
    {
      assert Holds(b);
      var msgState := messagesLog[b];
      DeliverBroadcast(b, bm);
      if !halted {
        SetDelivered(b, msgState);
      }
    }

    /** What reaction r of p leads to beyond the state of its instance, which is in place. */
    method SettleProtocol(
      b: Instance, bm: Broadcast, verdict: Verdict,
      ghost p: Reliable.Process, ghost r: Reaction, ghost sent: multiset<Packet>)
      requires Valid() && b in messagesLog && verdict == r.verdict
      requires View() == WithState(p, b, r.st) && outbox == sent + Packets(r.out)
      modifies this`deliveredMessages, this`deliveredMessagesCount, this`checkpoints, this`transactionToCheckpoint
      modifies this`deliveries, this`revealed
      modifies this`messagesLog, this`states, this`finallyCommittedMessages, this`commits, this`halted, this`outbox
      modifies messagesLog.Values, historyHashes.repr
      ensures Valid() && LogGrown()
      ensures var t := ApplyProtocol(c, p, b, bm, r);
              View() == t.p && outbox == sent + Packets(t.out)
    {
      match verdict
      case Crash => halted := true;
      case Deliver =>
        ghost var d := DeliverInstance(c, View(), b, bm);
        PacketsConcat(r.out, d.out);
        SumsAssociate(sent, Packets(r.out), Packets(d.out));
        DeliverAndSetStage(b, bm);
      case _ =>
    }

    lemma RegisteringFirstToo(
      p: Reliable.Process, sender: Id, b: Instance, m: ProtocolMessage, st: State, r: Reaction)
      requires c.Sound()
      ensures ApplyProtocol(c, WithState(p, b, st), b, m.broadcast, r) == ApplyProtocol(c, p, b, m.broadcast, r)
    {
      assert p.log[b := st][b := r.st] == p.log[b := r.st];
    }

    method ProcessReliableProtocolMessage(sender: Id, b: Instance, m: ProtocolMessage)
      requires Valid()
      modifies this`deliveredMessages, this`deliveredMessagesCount, this`checkpoints, this`transactionToCheckpoint
      modifies this`deliveries, this`revealed
      modifies this`messagesLog, this`states, this`finallyCommittedMessages, this`commits, this`halted, this`outbox
      modifies messagesLog.Values, historyHashes.repr
      ensures Valid() && LogGrown()
      ensures var t := HandleProtocol(c, old(View()), sender, b, m);
              View() == t.p && outbox == old(outbox) + Packets(t.out)
    {
      if halted || b in finallyCommittedMessages {
        return;
      }
      if b.author >= c.n {
        halted := true;
        return;
      }
      RegisterAndHandle(sender, b, m);
    }

    method RegisterAndHandle(sender: Id, b: Instance, m: ProtocolMessage)
      requires Valid()
      modifies this`deliveredMessages, this`deliveredMessagesCount, this`checkpoints, this`transactionToCheckpoint
      modifies this`deliveries, this`revealed
      modifies this`messagesLog, this`states, this`finallyCommittedMessages, this`commits, this`halted, this`outbox
      modifies messagesLog.Values, historyHashes.repr
      ensures Valid() && LogGrown()
      ensures var st := Register(c, old(View()), b);
              var t := ApplyProtocol(c, old(View()), b, m.broadcast, Reliable.React(c, b, Counted(st), sender, m));
              View() == t.p && outbox == old(outbox) + Packets(t.out)
    {
      ghost var p, st := View(), Register(c, View(), b);
      var msgState := RegisterMessage(b);
      HandleRegisteredProtocol(sender, b, m, p, st);
    }

    method HandleRegisteredProtocol(
      sender: Id, b: Instance, m: ProtocolMessage, ghost p: Reliable.Process, ghost st: State)
      requires Valid() && b in messagesLog && View() == WithState(p, b, st)
      modifies this`deliveredMessages, this`deliveredMessagesCount, this`checkpoints, this`transactionToCheckpoint
      modifies this`deliveries, this`revealed
      modifies this`messagesLog, this`states, this`finallyCommittedMessages, this`commits, this`halted, this`outbox
      modifies messagesLog.Values, historyHashes.repr
      ensures Valid() && LogGrown()
      ensures var t := ApplyProtocol(c, p, b, m.broadcast, Reliable.React(c, b, Counted(st), sender, m));
              View() == t.p && outbox == old(outbox) + Packets(t.out)
    {
      ghost var q, r := View(), Reliable.React(c, b, Counted(st), sender, m);
      RegisteringFirstToo(p, sender, b, m, st, r);
      assert Holds(b);
      label L:
      var verdict := CountAndReactToProtocol(sender, b, m);
      BankKept@L();
      SettleProtocol(b, m.broadcast, verdict, q, r, old(outbox));
    }

    // -------------------------------------------------------------- broadcasting

    /** The data shares, then zero shares for the encoder to fill in. */
    method EncodeEntropy(x: seq<int32>) returns (data: Option<seq<Share>>)
      requires Sized() && |x| == dataShares
      ensures data == c.encode(Shards(x, c.n))
    {
      var shards := [];
      for i := 0 to dataShares
        invariant |shards| == i && forall j | 0 <= j < i :: shards[j] == Int32ToBytes(x[j])
      {
        shards := shards + [Int32ToBytes(x[i])];
      }
      for i := dataShares to c.n
        invariant |shards| == i
        invariant forall j | 0 <= j < i :: shards[j] == if j < |x| then Int32ToBytes(x[j]) else [0, 0, 0, 0]
      {
        shards := shards + [[0, 0, 0, 0]];
      }
      assert shards == Shards(x, c.n);
      data := c.encode(shards);
    }

    method EncryptShares(data: seq<Share>) returns (shares: Option<seq<Share>>)
      requires |data| >= c.n
      ensures shares == EncryptEach(c, data, c.n)
    {
      var encryptedShares := [];
      for i := 0 to c.n
        invariant EncryptEach(c, data, i) == Some(encryptedShares)
      {
        var share := c.encrypt(i, data[i]);
        if share.None? {
          NothingEncrypted(data, i + 1, c.n);
          return None;
        }
        encryptedShares := encryptedShares + [share.value];
      }
      return Some(encryptedShares);
    }

    lemma {:induction false} NothingEncrypted(data: seq<Share>, k: nat, n: nat)
      requires k <= n <= |data| && EncryptEach(c, data, k).None?
      ensures EncryptEach(c, data, n).None?
    {
      if k < n {
        NothingEncrypted(data, k, n - 1);
      }
    }

    method EncodeAndEncrypt(x: seq<int32>) returns (shares: Option<seq<Share>>)
      requires Sized() && |x| == dataShares
      ensures shares == SharesOf(c, x)
    {
      var data := EncodeEntropy(x);
      if data.None? || |data.value| < c.n {
        return None;
      }
      shares := EncryptShares(data.value);
    }

    /** x is what the process has sampled. The state is created whether or not there was one. */
    method Broadcast(value: int32, x: seq<int32>)
      requires Valid() && |x| == dataShares
      modifies this`messagesLog, this`states, this`transactionCounter, this`halted, this`outbox
      ensures Valid() && LogGrown()
      ensures var t := HandleBroadcast(c, old(View()), value, x);
              View() == t.p && outbox == old(outbox) + Packets(t.out)
    {
      if halted {
        return;
      }
      var shares := EncodeAndEncrypt(x);
      if shares.None? {
        halted := true;
        return;
      }
      Initiate(value, x, shares.value);
    }

    method Initiate(value: int32, x: seq<int32>, shares: seq<Share>)
      requires Valid() && |x| == dataShares && SharesOf(c, x) == Some(shares)
      modifies this`messagesLog, this`states, this`transactionCounter, this`outbox
      ensures Valid() && LogGrown()
      ensures var t := BroadcastOn(c, old(View()), value, x, FreshState(c, old(View())));
              View() == t.p && outbox == old(outbox) + Packets(t.out)
    {
      ghost var p, st := View(), FreshState(c, View());
      ghost var t := BroadcastOn(c, p, value, x, st);
      var msgState := InitMessageState(Instance(c.self, transactionCounter));
      assert View() == WithState(p, Instance(c.self, transactionCounter), st);
      assert Log() && Bank() && LogGrown();
      label L:
      Announce(value, x, shares, msgState, p, st);
      assert View() == t.p && outbox == old(outbox) + Packets(t.out);
      assert Log() && LogGrown();
      BankKept@L();
    }

    /** Telling the witnesses of the new instance, and moving on to the next sequence number. */
    method Announce(
      value: int32, x: seq<int32>, shares: seq<Share>, msgState: MessageState,
      ghost p: Reliable.Process, ghost st: State)
      requires Sized() && Log() && |x| == dataShares && SharesOf(c, x) == Some(shares)
      requires var b := Instance(c.self, transactionCounter);
               View() == WithState(p, b, st) && b in messagesLog && messagesLog[b] == msgState
      modifies this`transactionCounter, this`outbox
      ensures var t := BroadcastOn(c, p, value, x, st); View() == t.p && outbox == old(outbox) + Packets(t.out)
    {
      var b := Instance(c.self, transactionCounter);
      assert Holds(b);
      var xHash := Hash(x);
      var notify := Protocol(ProtocolMessage(NOTIFY, Reliable.Broadcast(value, xHash), shares));
      BroadcastToWitnesses(b, notify, msgState);
      transactionCounter := Wrap32(transactionCounter + 1);
    }
  }
}
