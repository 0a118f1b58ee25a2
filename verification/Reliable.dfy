/**
 * The accountable reliable broadcast at one process, as a state machine over values: message states keep first
 * votes by sender, sends are recorded as broadcasts to sets of recipients, and the order of deliveries, reveals
 * and commits is remembered. ReliableProcess implements it with counters and objects.
 *
 * A halted process is one that logged a fatal error or ran into a Go panic; it does nothing more.
 */
module Reliable {
  import opened GoIntegers
  import opened Bytes
  import opened Options
  import opened Quorums
  import opened Histories
  import opened Selection

  type Share = seq<byte>

  datatype Instance = Instance(author: nat, seqNumber: int32)

  datatype Broadcast = Broadcast(value: int32, xHash: int32)

  datatype Kind =
    | NOTIFY
    | ECHO_FROM_WITNESS
    | ECHO_FROM_PROCESS
    | READY_FROM_WITNESS
    | READY_FROM_PROCESS
    | VALIDATE

  datatype ProtocolMessage = ProtocolMessage(kind: Kind, broadcast: Broadcast, shares: seq<Share>)

  datatype CommitmentMessage = Reveal(share: Share) | Done(x: seq<int32>) | Failed

  datatype Content = Protocol(m: ProtocolMessage) | Commitment(c: CommitmentMessage)

  /** One content to a set of processes, or share i of a list to each process i. */
  datatype Send =
    | ToSet(instance: Instance, to: set<Id>, content: Content)
    | ShareEach(instance: Instance, broadcast: Broadcast, shares: seq<Share>)

  const INITIAL_STAGE: nat := 0
  const SENT_ECHO_FROM_PROCESS: nat := 1
  const SENT_READY_FROM_PROCESS: nat := 2
  const DELIVERED_STAGE: nat := 3

  const INITIAL_WITNESS_STAGE: nat := 0
  const SENT_ECHO_FROM_WITNESS: nat := 1
  const SENT_READY_FROM_WITNESS: nat := 2
  const SENT_VALIDATE: nat := 3

  datatype RevealStage =
    | InitialRevealStage
    | SentDoneToWitnesses
    | SentDoneToProcesses
    | SentFailedToProcesses
    | SentFailedToWitnesses

  datatype Pending = Pending(sender: Id, m: CommitmentMessage)

  datatype State = State(
    stage: nat,
    witnessStage: nat,
    revealStage: RevealStage,
    echoFromProcesses: map<Id, int>,
    readyFromProcesses: map<Id, int>,
    readyFromWitnesses: map<Id, int>,
    validateFromWitnesses: map<Id, int>,
    revealFromProcesses: set<Id>,
    own: set<Id>,
    pot: set<Id>,
    encryptedShares: seq<Share>,
    ownEncryptedShare: Share,
    decryptedShares: seq<Share>,
    received: nat,
    pending: seq<Pending>)

  /** What a process is started with. An empty share is a missing one. */
  datatype Config = Config(
    self: Id,
    n: nat,
    f: nat,
    witnessThreshold: int,
    mixingTime: int,
    selector: Selector,
    params: seq<Params>,
    encrypt: (Id, Share) -> Option<Share>,
    decrypt: Share -> Option<Share>,
    encode: seq<Share> -> Option<seq<Share>>,
    reconstruct: seq<Share> -> Option<seq<Share>>
  ) {
    function Quorum(): nat { Quorums.Quorum(n, f) }
    function ReadyThreshold(): nat { f + 1 }
    function DataShares(): nat { f + 1 }

    ghost predicate Sound() {
      && self < n && f < n && |params| == n
      && (forall i | 0 <= i < n :: params[i].Sound())
      && (forall i | 0 <= i < n :: params[i].capacity == params[0].capacity && params[i].binNum == params[0].binNum)
    }
  }

  datatype Commit = Commit(instance: Instance, x: seq<int32>)

  datatype Process = Process(
    delivered: map<Instance, Broadcast>,
    log: map<Instance, State>,
    checkpoints: map<int, Instance>,
    committed: map<Instance, int32>,
    toCheckpoint: map<Instance, nat>,
    deliveredCount: nat,
    transactionCounter: int32,
    halted: bool,
    deliveries: seq<Instance>,
    revealed: seq<Instance>,
    commits: seq<Commit>)

  const NEW_PROCESS := Process(map[], map[], map[], map[], map[], 0, 0, false, [], [], [])

  // ---------------------------------------------------------------- witness sets

  function SecretsOf(commits: seq<Commit>): (history: seq<Entry>)
    ensures |history| == |commits|
  {
    if commits == [] then []
    else SecretsOf(commits[..|commits| - 1]) + [SecretBytes(commits[|commits| - 1].x)]
  }

  function Ids(n: nat): (ids: seq<Id>)
    ensures |ids| == n && forall i | 0 <= i < n :: ids[i] == i
  {
    seq(n, i requires 0 <= i => i)
  }

  /** A new instance state, with the witness sets that follow from what is committed so far. */
  ghost function FreshState(c: Config, p: Process): State
    requires c.Sound()
  {
    var ds := RanksAfter(c.params, SecretsOf(p.commits));
    State(INITIAL_STAGE, INITIAL_WITNESS_STAGE, InitialRevealStage, map[], map[], map[], map[], {},
          OwnSet(c.selector, Ids(c.n), ds), PotSet(c.selector, Ids(c.n), ds), [], [], [], 0, [])
  }

  ghost function Register(c: Config, p: Process, b: Instance): State
    requires c.Sound()
  {
    if b in p.log then p.log[b] else FreshState(c, p)
  }

  function Counted(st: State): State {
    st.(received := st.received + 1)
  }

  // ---------------------------------------------------------------- the two protocol layers, on one instance

  datatype Verdict = Go | Deliver | CommitTo(x: seq<int32>) | Crash

  datatype Reaction = Reaction(st: State, out: seq<Send>, verdict: Verdict)

  function Broadcasting(c: Config, b: Instance, kind: Kind, bm: Broadcast): Send {
    ToSet(b, Everyone(c.n), Protocol(ProtocolMessage(kind, bm, [])))
  }

  function ToWitnesses(st: State, b: Instance, kind: Kind, bm: Broadcast): Send {
    ToSet(b, st.pot, Protocol(ProtocolMessage(kind, bm, [])))
  }

  /** Too short a list of shares is a panic, at the process's own share or while sending the others. */
  function OnNotify(c: Config, b: Instance, st: State, bm: Broadcast, shares: seq<Share>): Reaction {
    if c.self !in st.pot || st.witnessStage >= SENT_ECHO_FROM_WITNESS then Reaction(st, [], Go)
    else if |shares| <= c.self then Reaction(st.(encryptedShares := shares), [], Crash)
    else
      var st := st.(encryptedShares := shares, ownEncryptedShare := shares[c.self]);
      if |shares| < c.n then Reaction(st, [ShareEach(b, bm, shares)], Crash)
      else Reaction(st.(witnessStage := SENT_ECHO_FROM_WITNESS), [ShareEach(b, bm, shares[..c.n])], Go)
  }

  function OnEchoFromWitness(b: Instance, st: State, sender: Id, bm: Broadcast, shares: seq<Share>): Reaction {
    if sender !in st.own || st.stage >= SENT_ECHO_FROM_PROCESS then Reaction(st, [], Go)
    else if shares == [] then Reaction(st, [], Crash)
    else
      Reaction(st.(ownEncryptedShare := shares[0], stage := SENT_ECHO_FROM_PROCESS),
               [ToWitnesses(st, b, ECHO_FROM_PROCESS, bm)], Go)
  }

  function OnEchoFromProcess(c: Config, b: Instance, st: State, sender: Id, bm: Broadcast): Reaction {
    if c.self !in st.pot || st.witnessStage >= SENT_READY_FROM_WITNESS || sender in st.echoFromProcesses
    then Reaction(st, [], Go)
    else
      var st := st.(echoFromProcesses := st.echoFromProcesses[sender := bm.value]);
      if |Voters(st.echoFromProcesses, bm.value)| >= c.Quorum()
      then Reaction(st.(witnessStage := SENT_READY_FROM_WITNESS), [Broadcasting(c, b, READY_FROM_WITNESS, bm)], Go)
      else Reaction(st, [], Go)
  }

  function OnReadyFromWitness(c: Config, b: Instance, st: State, sender: Id, bm: Broadcast): Reaction {
    if sender !in st.own || st.stage >= SENT_READY_FROM_PROCESS || sender in st.readyFromWitnesses
    then Reaction(st, [], Go)
    else
      var st := st.(readyFromWitnesses := st.readyFromWitnesses[sender := bm.value]);
      if |Voters(st.readyFromWitnesses, bm.value)| >= c.witnessThreshold
      then Reaction(st.(stage := SENT_READY_FROM_PROCESS), [ToWitnesses(st, b, READY_FROM_PROCESS, bm)], Go)
      else Reaction(st, [], Go)
  }

  /** What so many READYs from processes for one value lead a witness to. */
  function Promoted(c: Config, b: Instance, st: State, bm: Broadcast, votes: nat): Reaction {
    var ready := st.witnessStage < SENT_READY_FROM_WITNESS && votes >= c.ReadyThreshold();
    var st := if ready then st.(witnessStage := SENT_READY_FROM_WITNESS) else st;
    var out := if ready then [Broadcasting(c, b, READY_FROM_WITNESS, bm)] else [];
    if st.witnessStage < SENT_VALIDATE && votes >= c.Quorum()
    then Reaction(st.(witnessStage := SENT_VALIDATE), out + [Broadcasting(c, b, VALIDATE, bm)], Go)
    else Reaction(st, out, Go)
  }

  function OnReadyFromProcess(c: Config, b: Instance, st: State, sender: Id, bm: Broadcast): Reaction {
    if c.self !in st.pot || sender in st.readyFromProcesses then Reaction(st, [], Go)
    else
      var st := st.(readyFromProcesses := st.readyFromProcesses[sender := bm.value]);
      Promoted(c, b, st, bm, |Voters(st.readyFromProcesses, bm.value)|)
  }

  /** The stage is set after the delivery, by the caller. */
  function OnValidate(c: Config, st: State, sender: Id, bm: Broadcast): Reaction {
    if sender !in st.own || st.stage >= DELIVERED_STAGE || sender in st.validateFromWitnesses
    then Reaction(st, [], Go)
    else
      var st := st.(validateFromWitnesses := st.validateFromWitnesses[sender := bm.value]);
      Reaction(st, [], if |Voters(st.validateFromWitnesses, bm.value)| >= c.witnessThreshold then Deliver else Go)
  }

  function React(c: Config, b: Instance, st: State, sender: Id, m: ProtocolMessage): Reaction {
    match m.kind
    case NOTIFY => OnNotify(c, b, st, m.broadcast, m.shares)
    case ECHO_FROM_WITNESS => OnEchoFromWitness(b, st, sender, m.broadcast, m.shares)
    case ECHO_FROM_PROCESS => OnEchoFromProcess(c, b, st, sender, m.broadcast)
    case READY_FROM_WITNESS => OnReadyFromWitness(c, b, st, sender, m.broadcast)
    case READY_FROM_PROCESS => OnReadyFromProcess(c, b, st, sender, m.broadcast)
    case VALIDATE => OnValidate(c, st, sender, m.broadcast)
  }

  function ToAll(c: Config, b: Instance, m: CommitmentMessage): Send {
    ToSet(b, Everyone(c.n), Commitment(m))
  }

  function ToPot(st: State, b: Instance, m: CommitmentMessage): Send {
    ToSet(b, st.pot, Commitment(m))
  }

  function HashOf(x: seq<int32>): int32 {
    Wrap32(Sum(x))
  }

  /** The first k shares as integers; a share shorter than an integer is a panic. */
  function Integers(shares: seq<Share>, k: nat): Option<seq<int32>> {
    if k == 0 then Some([])
    else if |shares| < k || |shares[k - 1]| < 4 then None
    else
      match Integers(shares, k - 1)
      case None => None
      case Some(xs) => Some(xs + [ToInt32(shares[k - 1])])
  }

  /** A revealed share passes if it encrypts to what the author handed out; a witness without shares cannot tell. */
  function Genuine(c: Config, st: State, sender: Id, share: Share): bool {
    |st.encryptedShares| > 0 ==>
      sender < |st.encryptedShares| && c.encrypt(sender, share) == Some(st.encryptedShares[sender])
  }

  function OnReveal(c: Config, b: Instance, st: State, sender: Id, share: Share, xHash: int32): Reaction
  {
    if || c.self !in st.pot || sender in st.revealFromProcesses
       || st.revealStage == SentDoneToProcesses || st.revealStage == SentFailedToProcesses
    then Reaction(st, [], Go)
    else
      var shares := if st.decryptedShares == [] then seq(c.n, _ => []) else st.decryptedShares;
      if |shares| <= sender
      then Reaction(st.(revealFromProcesses := st.revealFromProcesses + {sender}), [], Crash)
      else
        var st := st.(revealFromProcesses := st.revealFromProcesses + {sender},
                      decryptedShares := shares[sender := share]);
        if !Genuine(c, st, sender, share) then Reaction(st, [], Crash)
        else if |st.revealFromProcesses| < 2 * c.f + 1 then Reaction(st, [], Go)
        else Rebuild(c, b, st, xHash)
  }

  /** Reconstruction of the secret from the revealed shares, and its comparison with the delivered hash. */
  function Rebuild(c: Config, b: Instance, st: State, xHash: int32): Reaction {
    match c.reconstruct(st.decryptedShares)
    case None => Reaction(st, [], Crash)
    case Some(full) =>
      var st := st.(decryptedShares := full);
      match Integers(full, c.DataShares())
      case None => Reaction(st, [], Crash)
      case Some(x) =>
        if HashOf(x) == xHash
        then Reaction(st.(revealStage := SentDoneToProcesses), [ToAll(c, b, Done(x))], Go)
        else Reaction(st.(revealStage := SentFailedToProcesses), [ToAll(c, b, Failed)], Go)
  }

  /** A witness passes a DONE on to everyone. */
  function EchoDone(c: Config, b: Instance, st: State, x: seq<int32>): (State, seq<Send>) {
    if c.self in st.pot && st.revealStage != SentDoneToProcesses
    then (st.(revealStage := SentDoneToProcesses), [ToAll(c, b, Done(x))])
    else (st, [])
  }

  /** A process about to commit tells its potential witnesses. */
  function TellDone(b: Instance, st: State, x: seq<int32>): (State, seq<Send>) {
    if st.revealStage != SentDoneToWitnesses
    then (st.(revealStage := SentDoneToWitnesses), [ToPot(st, b, Done(x))])
    else (st, [])
  }

  /** age is the number of deliveries since this instance was delivered. */
  function OnDone(c: Config, b: Instance, st: State, sender: Id, x: seq<int32>, xHash: int32, age: int): Reaction {
    if HashOf(x) != xHash then Reaction(st, [], Go)
    else
      var (st1, echoed) := EchoDone(c, b, st, x);
      if sender in st.own && age >= c.mixingTime then
        var (st2, told) := TellDone(b, st1, x);
        Reaction(st2, echoed + told, CommitTo(x))
      else Reaction(st1, echoed, Go)
  }

  function OnFailed(c: Config, b: Instance, st: State, sender: Id): Reaction {
    var tell := sender in st.own && st.revealStage != SentFailedToWitnesses;
    var st := if tell then st.(revealStage := SentFailedToWitnesses) else st;
    var out := if tell then [ToPot(st, b, Failed)] else [];
    if c.self in st.pot && st.revealStage != SentFailedToProcesses
    then Reaction(st.(revealStage := SentFailedToProcesses), out + [ToAll(c, b, Failed)], Go)
    else Reaction(st, out, Go)
  }

  function ReactToCommitment(
    c: Config, b: Instance, st: State, sender: Id, m: CommitmentMessage, xHash: int32, age: int): Reaction
  {
    match m
    case Reveal(share) => OnReveal(c, b, st, sender, share, xHash)
    case Done(x) => OnDone(c, b, st, sender, x, xHash, age)
    case Failed => OnFailed(c, b, st, sender)
  }

  // ---------------------------------------------------------------- the process

  datatype Step = Step(p: Process, out: seq<Send>)

  function Checkpoint(p: Process, b: Instance): nat {
    if b in p.toCheckpoint then p.toCheckpoint[b] else 0
  }

  function CleanUp(p: Process, b: Instance, x: seq<int32>, value: int32): Process {
    p.(commits := p.commits + [Commit(b, x)], log := p.log - {b}, committed := p.committed[b := value])
  }

  /** The process after a reaction to a commitment message. */
  function Apply(p: Process, b: Instance, r: Reaction): Step
    requires b in p.delivered
  {
    var q := p.(log := p.log[b := r.st]);
    match r.verdict
    case CommitTo(x) => Step(CleanUp(q, b, x, p.delivered[b].value), r.out)
    case Crash => Step(q.(halted := true), r.out)
    case _ => Step(q, r.out)
  }

  /** The reaction, on state st, to a commitment message for an instance that has been delivered. */
  function ReactionTo(c: Config, p: Process, sender: Id, b: Instance, m: CommitmentMessage, st: State): Reaction
    requires b in p.delivered
  {
    ReactToCommitment(c, b, st, sender, m, p.delivered[b].xHash, p.deliveredCount - Checkpoint(p, b))
  }

  /** st is the state registered for b. */
  function CommitmentOn(c: Config, p: Process, sender: Id, b: Instance, m: CommitmentMessage, st: State): Step {
    var st := Counted(st);
    if b !in p.delivered then
      Step(p.(log := p.log[b := st.(pending := st.pending + [Pending(sender, m)])]), [])
    else
      Apply(p, b, ReactionTo(c, p, sender, b, m, st))
  }

  /** An author that does not exist has no log to register its instance in: a panic. */
  ghost function HandleCommitment(c: Config, p: Process, sender: Id, b: Instance, m: CommitmentMessage): Step
    requires c.Sound()
  {
    if p.halted || b in p.committed then Step(p, [])
    else if b.author >= c.n then Step(p.(halted := true), [])
    else CommitmentOn(c, p, sender, b, m, Register(c, p, b))
  }

  /** Deferred commitment messages, in arrival order. */
  ghost function Replay(c: Config, p: Process, b: Instance, deferred: seq<Pending>): Step
    requires c.Sound()
  {
    if deferred == [] then Step(p, [])
    else
      var k := |deferred| - 1;
      var before := Replay(c, p, b, deferred[..k]);
      var last := HandleCommitment(c, before.p, deferred[k].sender, b, deferred[k].m);
      Step(last.p, before.out + last.out)
  }

  /** A transaction with no state left, or no share that decrypts, brings the process down. */
  function StartReveal(c: Config, p: Process, t: Instance): Step {
    var p := p.(revealed := p.revealed + [t]);
    if t !in p.log then Step(p.(halted := true), [])
    else
      match c.decrypt(p.log[t].ownEncryptedShare)
      case None => Step(p.(halted := true), [])
      case Some(share) => Step(p, [ToPot(p.log[t], t, Reveal(share))])
  }

  /** The reveal that a delivery brings due, if its checkpoint is live. */
  function RevealDue(c: Config, p: Process): Step {
    var due := p.deliveredCount - c.mixingTime;
    if p.halted || due !in p.checkpoints then Step(p, [])
    else
      var s := StartReveal(c, p, p.checkpoints[due]);
      if s.p.halted then s else s.(p := s.p.(checkpoints := s.p.checkpoints - {due}))
  }

  function Recorded(p: Process, b: Instance, bm: Broadcast): Process {
    var k := p.deliveredCount + 1;
    p.(delivered := p.delivered[b := bm], deliveredCount := k, checkpoints := p.checkpoints[k := b],
       toCheckpoint := p.toCheckpoint[b := k], deliveries := p.deliveries + [b])
  }

  function WithState(p: Process, b: Instance, st: State): Process {
    p.(log := p.log[b := st])
  }

  function PendingCleared(p: Process, b: Instance): Process {
    if b in p.log && !p.halted then WithState(p, b, p.log[b].(pending := [])) else p
  }

  ghost function DeliverInstance(c: Config, p: Process, b: Instance, bm: Broadcast): Step
    requires c.Sound() && b in p.log
  {
    var replayed := Replay(c, Recorded(p, b, bm), b, p.log[b].pending);
    var due := RevealDue(c, PendingCleared(replayed.p, b));
    Step(due.p, replayed.out + due.out)
  }

  function StageSet(p: Process, b: Instance): Process {
    if b in p.log && !p.halted then WithState(p, b, p.log[b].(stage := DELIVERED_STAGE)) else p
  }

  /** The process after a reaction to a protocol message. */
  ghost function ApplyProtocol(c: Config, p: Process, b: Instance, bm: Broadcast, r: Reaction): Step
    requires c.Sound()
  {
    var p := WithState(p, b, r.st);
    match r.verdict
    case Crash => Step(p.(halted := true), r.out)
    case Deliver =>
      var d := DeliverInstance(c, p, b, bm);
      Step(StageSet(d.p, b), r.out + d.out)
    case _ => Step(p, r.out)
  }

  ghost function HandleProtocol(c: Config, p: Process, sender: Id, b: Instance, m: ProtocolMessage): Step
    requires c.Sound()
  {
    if p.halted || b in p.committed then Step(p, [])
    else if b.author >= c.n then Step(p.(halted := true), [])
    else ApplyProtocol(c, p, b, m.broadcast, React(c, b, Counted(Register(c, p, b)), sender, m))
  }

  // ---------------------------------------------------------------- broadcasting

  /** The secret as data shares, followed by room for the parity shares. */
  function Shards(x: seq<int32>, n: nat): (shards: seq<Share>)
    requires |x| <= n
    ensures |shards| == n
  {
    seq(n, i requires 0 <= i < n => if i < |x| then Int32ToBytes(x[i]) else [0, 0, 0, 0])
  }

  /** Every process's share under its own key. */
  function EncryptEach(c: Config, data: seq<Share>, k: nat): (r: Option<seq<Share>>)
    requires k <= |data|
    ensures r.Some? ==> |r.value| == k && forall i | 0 <= i < k :: c.encrypt(i, data[i]) == Some(r.value[i])
  {
    if k == 0 then Some([])
    else
      match (EncryptEach(c, data, k - 1), c.encrypt(k - 1, data[k - 1]))
      case (Some(shares), Some(share)) => Some(shares + [share])
      case _ => None
  }

  /** The encrypted shares of a secret, unless one of the libraries gives up. */
  function SharesOf(c: Config, x: seq<int32>): (r: Option<seq<Share>>)
    requires |x| == c.DataShares() <= c.n
  {
    match c.encode(Shards(x, c.n))
    case None => None
    case Some(data) => if |data| < c.n then None else EncryptEach(c, data, c.n)
  }

  /** x is the sampled secret and st the new state of the instance. */
  function BroadcastOn(c: Config, p: Process, value: int32, x: seq<int32>, st: State): Step
    requires |x| == c.DataShares() <= c.n
  {
    var b := Instance(c.self, p.transactionCounter);
    match SharesOf(c, x)
    case None => Step(p.(halted := true), [])
    case Some(shares) =>
      Step(WithState(p, b, st).(transactionCounter := Wrap32(p.transactionCounter + 1)),
           [ToSet(b, st.pot, Protocol(ProtocolMessage(NOTIFY, Broadcast(value, HashOf(x)), shares)))])
  }

  /** The state of the instance is created anew whether or not there was one. */
  ghost function HandleBroadcast(c: Config, p: Process, value: int32, x: seq<int32>): Step
    requires c.Sound() && |x| == c.DataShares()
  {
    if p.halted then Step(p, []) else BroadcastOn(c, p, value, x, FreshState(c, p))
  }

  // ---------------------------------------------------------------- runs of one process among arbitrary others

  datatype Input =
    | OnProtocol(sender: Id, b: Instance, m: ProtocolMessage)
    | OnCommitment(sender: Id, b: Instance, c: CommitmentMessage)
    | Ask(value: int32, x: seq<int32>)

  /** An author has handled nothing of an instance it has yet to broadcast. */
  predicate Possible(c: Config, p: Process, i: Input) {
    match i
    case OnProtocol(sender, _, _) => sender < c.n
    case OnCommitment(sender, _, _) => sender < c.n
    case Ask(_, x) =>
      var b := Instance(c.self, p.transactionCounter);
      |x| == c.DataShares() && b !in p.log && b !in p.committed
  }

  /** An input that cannot happen changes nothing. */
  ghost function Take(c: Config, p: Process, i: Input): Step
    requires c.Sound()
  {
    if !Possible(c, p, i) then Step(p, [])
    else
      match i
      case OnProtocol(sender, b, m) => HandleProtocol(c, p, sender, b, m)
      case OnCommitment(sender, b, m) => HandleCommitment(c, p, sender, b, m)
      case Ask(value, x) => HandleBroadcast(c, p, value, x)
  }
}
