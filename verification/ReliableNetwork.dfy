/**
 * n processes running the accountable broadcast, all instances and both layers at once. Byzantine processes send
 * anything under their own names; what a correct process sent may arrive in any order and any number of times.
 * Witness sets are whatever each process selected for itself.
 */
module ReliableNetwork {
  import opened GoIntegers
  import opened Options
  import opened Quorums
  import opened Reliable
  import opened ReliableRuns
  import opened ReliableTraces

  /** What all processes share, apart from their private keys. */
  datatype World = World(common: Config, decrypts: Id -> Share -> Option<Share>, byz: set<Id>) {
    ghost predicate WellFormed() {
      common.Sound() && common.mixingTime >= 1 && byz <= Everyone(common.n) && |byz| <= common.f
    }

    function Correct(): set<Id> {
      Everyone(common.n) - byz
    }

    function ConfigOf(p: Id): Config {
      common.(self := p, decrypt := decrypts(p))
    }
  }

  datatype Net = Net(procs: map<Id, Process>, outs: map<Id, seq<Send>>)

  /** A correct process takes one input: a message that may arrive, or a request to broadcast. */
  datatype Event = Event(p: Id, i: Input)

  /** This send puts this message on its way to p. */
  predicate Carries(x: Send, p: Id, b: Instance, content: Content) {
    x.instance == b &&
    match x
    case ToSet(_, to, sent) => p in to && content == sent
    case ShareEach(_, bm, shares) =>
      p < |shares| && content == Protocol(ProtocolMessage(ECHO_FROM_WITNESS, bm, [shares[p]]))
  }

  predicate Arrives(w: World, s: Net, sender: Id, p: Id, b: Instance, content: Content) {
    sender in w.byz || (sender in s.outs && exists x :: x in s.outs[sender] && Carries(x, p, b, content))
  }

  predicate MayTake(w: World, s: Net, p: Id, i: Input) {
    match i
    case OnProtocol(sender, b, m) => Arrives(w, s, sender, p, b, Protocol(m))
    case OnCommitment(sender, b, m) => Arrives(w, s, sender, p, b, Commitment(m))
    case Ask(_, _) => true
  }

  predicate Enabled(w: World, s: Net, e: Event) {
    e.p < w.common.n && e.p in s.procs && e.p in s.outs && MayTake(w, s, e.p, e.i)
  }

  function Initially(w: World): Net {
    Net(map p | p in w.Correct() :: NEW_PROCESS, map p | p in w.Correct() :: [])
  }

  ghost function Next(w: World, s: Net, e: Event): Net
    requires w.common.Sound()
  {
    if !Enabled(w, s, e) then s
    else
      var t := Take(w.ConfigOf(e.p), s.procs[e.p], e.i);
      Net(s.procs[e.p := t.p], s.outs[e.p := s.outs[e.p] + t.out])
  }

  /** The network after a sequence of events; one that cannot happen changes nothing. */
  ghost function RunOf(w: World, events: seq<Event>): Net
    requires w.common.Sound()
  {
    if events == [] then Initially(w)
    else Next(w, RunOf(w, events[..|events| - 1]), events[|events| - 1])
  }

  // ---------------------------------------------------------------- who said what

  /** x announces value v for b at this stage. */
  predicate Utters(x: Send, b: Instance, kind: Kind, v: int) {
    Opens(x, b, kind) && ValueIn(x) == v
  }

  function ValueIn(x: Send): int {
    match x
    case ShareEach(_, bm, _) => bm.value
    case ToSet(_, _, Protocol(m)) => m.broadcast.value
    case ToSet(_, _, Commitment(_)) => 0
  }

  ghost predicate Said(outs: map<Id, seq<Send>>, q: Id, b: Instance, kind: Kind, v: int) {
    q in outs && exists x :: x in outs[q] && Utters(x, b, kind, v)
  }

  /** Those who may have echoed v: all Byzantine processes and the correct ones that did. */
  ghost function Echoers(w: World, outs: map<Id, seq<Send>>, b: Instance, v: int): (q: set<Id>)
    ensures q <= Everyone(w.common.n)
  {
    set q | q in Everyone(w.common.n) && (q in w.byz || Said(outs, q, b, ECHO_FROM_PROCESS, v))
  }

  ghost predicate Quorate(w: World, outs: map<Id, seq<Send>>, b: Instance, v: int) {
    |Echoers(w, outs, b, v)| >= w.common.Quorum()
  }

  predicate Endorsing(kind: Kind) {
    kind == READY_FROM_WITNESS || kind == READY_FROM_PROCESS || kind == VALIDATE
  }

  predicate FromWitness(kind: Kind) {
    kind == READY_FROM_WITNESS || kind == VALIDATE
  }

  // ---------------------------------------------------------------- votes and what they justify

  /** The votes counted at one stage of the protocol, by sender; none are counted for the first two. */
  function VotesFor(st: State, kind: Kind): map<Id, int> {
    match kind
    case ECHO_FROM_PROCESS => st.echoFromProcesses
    case READY_FROM_PROCESS => st.readyFromProcesses
    case READY_FROM_WITNESS => st.readyFromWitnesses
    case VALIDATE => st.validateFromWitnesses
    case _ => map[]
  }

  /** At most the sender's vote at the message's own stage is added; a witness's only if it is in the own set. */
  ghost predicate VotesStep(st: State, st': State, sender: Id, m: ProtocolMessage) {
    forall kind ::
      || VotesFor(st', kind) == VotesFor(st, kind)
      || (&& kind == m.kind && VotesFor(st', kind) == VotesFor(st, kind)[sender := m.broadcast.value]
          && (FromWitness(kind) ==> sender in st.own))
  }

  /** The votes that let a process announce v at this stage. */
  ghost predicate Reason(c: Config, st: State, kind: Kind, v: int) {
    match kind
    case READY_FROM_WITNESS =>
      |Voters(st.echoFromProcesses, v)| >= c.Quorum() || |Voters(st.readyFromProcesses, v)| >= c.ReadyThreshold()
    case READY_FROM_PROCESS => |Voters(st.readyFromWitnesses, v)| >= c.witnessThreshold
    case VALIDATE => |Voters(st.readyFromProcesses, v)| >= c.ReadyThreshold()
    case _ => true
  }

  /** Whatever is announced has its reason, and so has a delivery. */
  ghost predicate Justified(c: Config, b: Instance, r: Reaction, v: int) {
    && (forall x, kind | x in r.out && Opens(x, b, kind) && Endorsing(kind) ::
          ValueIn(x) == v && Reason(c, r.st, kind, v))
    && (r.verdict == Deliver ==> |Voters(r.st.validateFromWitnesses, v)| >= c.witnessThreshold)
  }

  ghost predicate Reasoned(c: Config, b: Instance, st: State, r: Reaction, sender: Id, m: ProtocolMessage) {
    VotesStep(st, r.st, sender, m) && Justified(c, b, r, m.broadcast.value)
  }

  lemma NotifyReasoned(c: Config, b: Instance, st: State, sender: Id, m: ProtocolMessage)
    ensures Reasoned(c, b, st, OnNotify(c, b, st, m.broadcast, m.shares), sender, m)
  {
  }

  lemma EchoFromWitnessReasoned(c: Config, b: Instance, st: State, sender: Id, m: ProtocolMessage)
    ensures Reasoned(c, b, st, OnEchoFromWitness(b, st, sender, m.broadcast, m.shares), sender, m)
  {
  }

  lemma EchoFromProcessCounts(c: Config, b: Instance, st: State, sender: Id, m: ProtocolMessage)
    requires m.kind == ECHO_FROM_PROCESS
    ensures VotesStep(st, OnEchoFromProcess(c, b, st, sender, m.broadcast).st, sender, m)
  {
  }

  lemma EchoFromProcessJustified(c: Config, b: Instance, st: State, sender: Id, bm: Broadcast)
    ensures Justified(c, b, OnEchoFromProcess(c, b, st, sender, bm), bm.value)
  {
  }

  lemma ReadyFromWitnessReasoned(c: Config, b: Instance, st: State, sender: Id, m: ProtocolMessage)
    requires m.kind == READY_FROM_WITNESS
    ensures Reasoned(c, b, st, OnReadyFromWitness(c, b, st, sender, m.broadcast), sender, m)
  {
  }

  lemma ReadyFromProcessCounts(c: Config, b: Instance, st: State, sender: Id, m: ProtocolMessage)
    requires m.kind == READY_FROM_PROCESS
    ensures VotesStep(st, OnReadyFromProcess(c, b, st, sender, m.broadcast).st, sender, m)
  {
    var st' := OnReadyFromProcess(c, b, st, sender, m.broadcast).st;
    assert st' == st.(witnessStage := st'.witnessStage, readyFromProcesses := st'.readyFromProcesses);
  }

  /** A quorum is more than enough for a READY: f < n. */
  lemma ReadyFromProcessJustified(c: Config, b: Instance, st: State, sender: Id, bm: Broadcast)
    requires c.f < c.n
    ensures Justified(c, b, OnReadyFromProcess(c, b, st, sender, bm), bm.value)
  {
  }

  lemma ValidateReasoned(c: Config, b: Instance, st: State, sender: Id, m: ProtocolMessage)
    requires m.kind == VALIDATE
    ensures Reasoned(c, b, st, OnValidate(c, st, sender, m.broadcast), sender, m)
  {
  }

  lemma ReactReasoned(c: Config, b: Instance, st: State, sender: Id, m: ProtocolMessage)
    requires c.f < c.n
    ensures Reasoned(c, b, st, React(c, b, st, sender, m), sender, m)
  {
    match m.kind
    case NOTIFY => NotifyReasoned(c, b, st, sender, m);
    case ECHO_FROM_WITNESS => EchoFromWitnessReasoned(c, b, st, sender, m);
    case ECHO_FROM_PROCESS =>
      EchoFromProcessCounts(c, b, st, sender, m);
      EchoFromProcessJustified(c, b, st, sender, m.broadcast);
    case READY_FROM_WITNESS => ReadyFromWitnessReasoned(c, b, st, sender, m);
    case READY_FROM_PROCESS =>
      ReadyFromProcessCounts(c, b, st, sender, m);
      ReadyFromProcessJustified(c, b, st, sender, m.broadcast);
    case VALIDATE => ValidateReasoned(c, b, st, sender, m);
  }

  // ---------------------------------------------------------------- the invariant

  /** Every counted vote is a Byzantine process's or was really said, and witnesses are in the own set. */
  ghost predicate KindBacked(
    w: World, outs: map<Id, seq<Send>>, b: Instance, own: set<Id>, kind: Kind, votes: map<Id, int>)
  {
    forall q | q in votes ::
      && q < w.common.n
      && (q in w.byz || Said(outs, q, b, kind, votes[q]))
      && (FromWitness(kind) ==> q in own)
  }

  ghost predicate VotesBacked(w: World, outs: map<Id, seq<Send>>, b: Instance, st: State) {
    forall kind :: KindBacked(w, outs, b, st.own, kind, VotesFor(st, kind))
  }

  /** Fewer than witnessThreshold members of the process's own set are Byzantine. */
  ghost predicate OwnHonest(w: World, st: State) {
    |st.own * w.byz| < w.common.witnessThreshold
  }

  ghost predicate HonestFor(w: World, p: Process, b: Instance) {
    b in p.log ==> OwnHonest(w, p.log[b])
  }

  /** Correct processes announce for b only values that a quorum may have echoed. */
  ghost predicate Endorsed(w: World, outs: map<Id, seq<Send>>, b: Instance) {
    forall q, kind, v | q in w.Correct() && Endorsing(kind) && Said(outs, q, b, kind, v) :: Quorate(w, outs, b, v)
  }

  ghost predicate AnnouncesEndorsed(w: World, outs: map<Id, seq<Send>>, out: seq<Send>, b: Instance) {
    forall x, kind | x in out && Endorsing(kind) && Opens(x, b, kind) :: Quorate(w, outs, b, ValueIn(x))
  }

  ghost predicate Grounded(w: World, outs: map<Id, seq<Send>>, p: Process, b: Instance) {
    && (b in p.log ==> VotesBacked(w, outs, b, p.log[b]))
    && (b in p.delivered ==> Quorate(w, outs, b, p.delivered[b].value))
  }

  ghost predicate NetInv(w: World, s: Net, b: Instance) {
    && (forall p :: p in s.procs <==> p in w.Correct())
    && (forall p :: p in s.outs <==> p in w.Correct())
    && (forall p | p in s.procs && p in s.outs :: TraceInv(s.procs[p], s.outs[p]))
    && (forall p | p in s.procs :: Grounded(w, s.outs, s.procs[p], b))
    && Endorsed(w, s.outs, b)
  }

  // ---------------------------------------------------------------- reasons give quorums of echoes

  lemma EchoVotersEndorse(w: World, outs: map<Id, seq<Send>>, b: Instance, st: State, v: int)
    requires VotesBacked(w, outs, b, st) && |Voters(st.echoFromProcesses, v)| >= w.common.Quorum()
    ensures Quorate(w, outs, b, v)
  {
    var voters := Voters(st.echoFromProcesses, v);
    assert KindBacked(w, outs, b, st.own, ECHO_FROM_PROCESS, VotesFor(st, ECHO_FROM_PROCESS));
    assert voters <= Echoers(w, outs, b, v);
    SubsetCount(voters, Echoers(w, outs, b, v));
  }

  /** A correct voter said v at an endorsing stage, so v is endorsed. */
  lemma CorrectVoterEndorses(
    w: World, outs: map<Id, seq<Send>>, b: Instance, own: set<Id>, kind: Kind, votes: map<Id, int>, v: int)
    requires Endorsed(w, outs, b) && KindBacked(w, outs, b, own, kind, votes) && Endorsing(kind)
    requires |Voters(votes, v)| > |Voters(votes, v) * w.byz|
    ensures Quorate(w, outs, b, v)
  {
    var q := SomeCorrectAmong(Voters(votes, v), w.byz);
    assert Said(outs, q, b, kind, v);
  }

  lemma ProcessVotersEndorse(w: World, outs: map<Id, seq<Send>>, b: Instance, st: State, v: int)
    requires |w.byz| <= w.common.f && Endorsed(w, outs, b) && VotesBacked(w, outs, b, st)
    requires |Voters(st.readyFromProcesses, v)| >= w.common.ReadyThreshold()
    ensures Quorate(w, outs, b, v)
  {
    var votes := VotesFor(st, READY_FROM_PROCESS);
    SubsetCount(Voters(votes, v) * w.byz, w.byz);
    CorrectVoterEndorses(w, outs, b, st.own, READY_FROM_PROCESS, votes, v);
  }

  /** The only place where the choice of witnesses matters. */
  lemma WitnessVotersEndorse(w: World, outs: map<Id, seq<Send>>, b: Instance, st: State, kind: Kind, v: int)
    requires Endorsed(w, outs, b) && VotesBacked(w, outs, b, st) && FromWitness(kind) && OwnHonest(w, st)
    requires |Voters(VotesFor(st, kind), v)| >= w.common.witnessThreshold
    ensures Quorate(w, outs, b, v)
  {
    var votes := VotesFor(st, kind);
    assert KindBacked(w, outs, b, st.own, kind, votes);
    assert Voters(votes, v) * w.byz <= st.own * w.byz;
    SubsetCount(Voters(votes, v) * w.byz, st.own * w.byz);
    CorrectVoterEndorses(w, outs, b, st.own, kind, votes, v);
  }

  /** The configuration of a process agrees with the world's on what votes are measured by. */
  ghost predicate Measures(w: World, c: Config) {
    && c.Sound() && c.mixingTime >= 1 && |w.byz| <= w.common.f
    && c.n == w.common.n && c.f == w.common.f && c.witnessThreshold == w.common.witnessThreshold
  }

  lemma ReasonEndorses(w: World, outs: map<Id, seq<Send>>, c: Config, b: Instance, st: State, kind: Kind, v: int)
    requires Measures(w, c) && Endorsed(w, outs, b) && VotesBacked(w, outs, b, st) && OwnHonest(w, st)
    requires Endorsing(kind) && Reason(c, st, kind, v)
    ensures Quorate(w, outs, b, v)
  {
    match kind
    case READY_FROM_WITNESS =>
      if |Voters(st.echoFromProcesses, v)| >= c.Quorum() {
        EchoVotersEndorse(w, outs, b, st, v);
      } else {
        ProcessVotersEndorse(w, outs, b, st, v);
      }
    case READY_FROM_PROCESS => WitnessVotersEndorse(w, outs, b, st, READY_FROM_WITNESS, v);
    case VALIDATE => ProcessVotersEndorse(w, outs, b, st, v);
  }

  lemma ReactionEndorsed(
    w: World, outs: map<Id, seq<Send>>, c: Config, b: Instance, r: Reaction, bm: Broadcast)
    requires Measures(w, c) && Endorsed(w, outs, b) && VotesBacked(w, outs, b, r.st) && OwnHonest(w, r.st)
    requires Justified(c, b, r, bm.value)
    ensures AnnouncesEndorsed(w, outs, r.out, b)
    ensures r.verdict == Deliver ==> Quorate(w, outs, b, bm.value)
  {
    forall x, kind | x in r.out && Endorsing(kind) && Opens(x, b, kind)
      ensures Quorate(w, outs, b, ValueIn(x))
    {
      ReasonEndorses(w, outs, c, b, r.st, kind, ValueIn(x));
    }
    if r.verdict == Deliver {
      WitnessVotersEndorse(w, outs, b, r.st, VALIDATE, bm.value);
    }
  }

  // ---------------------------------------------------------------- one step of one process

  lemma VotesBackedAfter(
    w: World, outs: map<Id, seq<Send>>, b: Instance, st: State, st': State, sender: Id, m: ProtocolMessage)
    requires VotesBacked(w, outs, b, st) && VotesStep(st, st', sender, m) && st'.own == st.own
    requires sender < w.common.n
    requires sender in w.byz || Said(outs, sender, b, m.kind, m.broadcast.value)
    ensures VotesBacked(w, outs, b, st')
  {
    forall kind
      ensures KindBacked(w, outs, b, st'.own, kind, VotesFor(st', kind))
    {
      assert KindBacked(w, outs, b, st.own, kind, VotesFor(st, kind));
    }
  }

  lemma ArrivalWasSaid(w: World, s: Net, sender: Id, p: Id, b: Instance, m: ProtocolMessage)
    requires Arrives(w, s, sender, p, b, Protocol(m))
    ensures sender in w.byz || Said(s.outs, sender, b, m.kind, m.broadcast.value)
  {
    if sender !in w.byz {
      var x :| x in s.outs[sender] && Carries(x, p, b, Protocol(m));
      assert Utters(x, b, m.kind, m.broadcast.value);
    }
  }

  lemma SameVotesBacked(w: World, outs: map<Id, seq<Send>>, b: Instance, st: State, st': State)
    requires VotesBacked(w, outs, b, st) && SameVotes(st, st')
    ensures VotesBacked(w, outs, b, st')
  {
    forall kind
      ensures KindBacked(w, outs, b, st'.own, kind, VotesFor(st', kind))
    {
      assert KindBacked(w, outs, b, st.own, kind, VotesFor(st, kind));
      assert VotesFor(st', kind) == VotesFor(st, kind);
    }
  }

  /** A reaction changes the state of b alone, with the votes it counted, and delivers b at most. */
  ghost predicate Leaves(p: Process, p': Process, b: Instance, bm: Broadcast, r: Reaction) {
    && (forall d :: d in p'.log <==> d in p.log || d == b)
    && (forall d | d in p.log && d != b :: p'.log[d] == p.log[d])
    && SameVotes(r.st, p'.log[b])
    && p'.delivered == if r.verdict == Deliver then p.delivered[b := bm] else p.delivered
  }

  lemma ReactionLeaves(c: Config, p: Process, b: Instance, bm: Broadcast, r: Reaction)
    requires c.Sound() && c.mixingTime >= 1 && !p.halted && b !in p.committed
    requires r.verdict == Deliver ==> r.st.stage < DELIVERED_STAGE
    requires !r.verdict.CommitTo?
    ensures Leaves(p, ApplyProtocol(c, p, b, bm, r).p, b, bm, r)
  {
    var q := WithState(p, b, r.st);
    assert q == p.(log := p.log[b := r.st]);
    if r.verdict == Deliver {
      DeliveryLeaves(c, q, b, bm);
    }
  }

  lemma DeliveryLeaves(c: Config, q: Process, b: Instance, bm: Broadcast)
    requires c.Sound() && c.mixingTime >= 1 && !q.halted && b !in q.committed
    requires b in q.log && q.log[b].stage < DELIVERED_STAGE
    ensures var p' := StageSet(DeliverInstance(c, q, b, bm).p, b);
            && p'.log.Keys == q.log.Keys && (forall d | d in q.log && d != b :: p'.log[d] == q.log[d])
            && SameVotes(q.log[b], p'.log[b]) && p'.delivered == q.delivered[b := bm]
  {
    DeliverEffect(c, q, b, bm);
  }

  lemma GroundedAfterReaction(
    w: World, outs: map<Id, seq<Send>>, p: Process, p': Process, b: Instance, bm: Broadcast, r: Reaction)
    requires Grounded(w, outs, p, b) && Leaves(p, p', b, bm, r) && VotesBacked(w, outs, b, r.st)
    requires r.verdict == Deliver ==> Quorate(w, outs, b, bm.value)
    ensures Grounded(w, outs, p', b)
  {
    SameVotesBacked(w, outs, b, r.st, p'.log[b]);
  }

  lemma CommitmentsAnnounceNothing(
    w: World, outs: map<Id, seq<Send>>, out: seq<Send>, rest: seq<Send>, b: Instance)
    requires AnnouncesEndorsed(w, outs, out, b) && OnlyCommitments(rest)
    ensures AnnouncesEndorsed(w, outs, out + rest, b)
  {
  }

  lemma ReactionGrounded(
    w: World, outs: map<Id, seq<Send>>, c: Config, p: Process, b: Instance, st: State, r: Reaction, bm: Broadcast)
    requires Measures(w, c) && !p.halted && b !in p.committed
    requires Endorsed(w, outs, b) && Grounded(w, outs, p, b) && VotesBacked(w, outs, b, r.st)
    requires Moves(c, b, st, r, bm) && Justified(c, b, r, bm.value)
    requires HonestFor(w, ApplyProtocol(c, p, b, bm, r).p, b)
    ensures var t := ApplyProtocol(c, p, b, bm, r);
            Grounded(w, outs, t.p, b) && AnnouncesEndorsed(w, outs, t.out, b)
  {
    var t := ApplyProtocol(c, p, b, bm, r);
    ReactionLeaves(c, p, b, bm, r);
    ReactionAdvances(c, p, b, bm, r);
    ReactionEndorsed(w, outs, c, b, r, bm);
    GroundedAfterReaction(w, outs, p, t.p, b, bm, r);
    var rest :| t.out == r.out + rest && OnlyCommitments(rest);
    CommitmentsAnnounceNothing(w, outs, r.out, rest, b);
  }

  lemma ProtocolGrounded(
    w: World, outs: map<Id, seq<Send>>, c: Config, p: Process, sender: Id, b: Instance, m: ProtocolMessage, st: State)
    requires Measures(w, c) && !p.halted && b !in p.committed
    requires Endorsed(w, outs, b) && Grounded(w, outs, p, b) && VotesBacked(w, outs, b, st)
    requires sender < w.common.n && (sender in w.byz || Said(outs, sender, b, m.kind, m.broadcast.value))
    requires HonestFor(w, ApplyProtocol(c, p, b, m.broadcast, React(c, b, Counted(st), sender, m)).p, b)
    ensures var t := ApplyProtocol(c, p, b, m.broadcast, React(c, b, Counted(st), sender, m));
            Grounded(w, outs, t.p, b) && AnnouncesEndorsed(w, outs, t.out, b)
  {
    var r := React(c, b, Counted(st), sender, m);
    ReactMoves(c, b, Counted(st), sender, m);
    ReactReasoned(c, b, Counted(st), sender, m);
    SameVotesBacked(w, outs, b, st, Counted(st));
    VotesBackedAfter(w, outs, b, Counted(st), r.st, sender, m);
    ReactionGrounded(w, outs, c, p, b, Counted(st), r, m.broadcast);
  }

  /** Messages for another instance leave b alone, whatever witnesses that instance has. */
  lemma ElsewhereGrounded(
    w: World, outs: map<Id, seq<Send>>, c: Config, p: Process, sender: Id, d: Instance, m: ProtocolMessage, st: State,
    b: Instance)
    requires c.Sound() && c.mixingTime >= 1 && !p.halted && d !in p.committed && d != b && Grounded(w, outs, p, b)
    ensures var t := ApplyProtocol(c, p, d, m.broadcast, React(c, d, Counted(st), sender, m));
            Grounded(w, outs, t.p, b) && AnnouncesEndorsed(w, outs, t.out, b)
  {
    var r := React(c, d, Counted(st), sender, m);
    var t := ApplyProtocol(c, p, d, m.broadcast, r);
    ReactMoves(c, d, Counted(st), sender, m);
    PhasesStayHome(c, d, Counted(st), r, m.broadcast);
    ReactionLeaves(c, p, d, m.broadcast, r);
    ReactionAdvances(c, p, d, m.broadcast, r);
    var rest :| t.out == r.out + rest && OnlyCommitments(rest);
    CommitmentsAnnounceNothing(w, outs, r.out, rest, b);
  }

  lemma TouchGrounded(w: World, outs: map<Id, seq<Send>>, p: Process, p': Process, b: Instance, st: State)
    requires Grounded(w, outs, p, b) && VotesBacked(w, outs, b, st)
    requires Touches(p, p', b) && SameStages(st, p'.log[b])
    ensures Grounded(w, outs, p', b)
  {
    SameVotesBacked(w, outs, b, st, p'.log[b]);
  }

  lemma CommitmentGrounded(
    w: World, outs: map<Id, seq<Send>>, c: Config, p: Process, sender: Id, b: Instance, m: CommitmentMessage, st: State)
    requires !p.halted && Grounded(w, outs, p, b) && VotesBacked(w, outs, b, st)
    ensures var t := CommitmentOn(c, p, sender, b, m, st);
            Grounded(w, outs, t.p, b) && AnnouncesEndorsed(w, outs, t.out, b)
  {
    var t := CommitmentOn(c, p, sender, b, m, st);
    CommitmentOutput(c, p, sender, b, m, st);
    var commit := CommitmentEffect(c, p, sender, b, m, st);
    if commit.None? {
      TouchGrounded(w, outs, p, t.p, b, st);
    }
  }

  lemma BroadcastGrounded(
    w: World, outs: map<Id, seq<Send>>, c: Config, p: Process, value: int32, x: seq<int32>, st: State, b: Instance)
    requires |x| == c.DataShares() <= c.n
    requires Grounded(w, outs, p, b) && VotesBacked(w, outs, Instance(c.self, p.transactionCounter), st)
    ensures var t := BroadcastOn(c, p, value, x, st);
            Grounded(w, outs, t.p, b) && AnnouncesEndorsed(w, outs, t.out, b)
  {
    var t := BroadcastOn(c, p, value, x, st);
    BroadcastLeaves(c, p, value, x, st);
    if b in t.p.log {
      assert VotesBacked(w, outs, b, t.p.log[b]);
    }
  }

  lemma BroadcastLeaves(c: Config, p: Process, value: int32, x: seq<int32>, st: State)
    requires |x| == c.DataShares() <= c.n
    ensures var t := BroadcastOn(c, p, value, x, st);
            && t.p.delivered == p.delivered
            && (t.p.log == p.log || t.p.log == p.log[Instance(c.self, p.transactionCounter) := st])
            && forall y, kind, d | y in t.out && Endorsing(kind) :: !Opens(y, d, kind)
  {
  }

  lemma FreshBacked(w: World, outs: map<Id, seq<Send>>, c: Config, p: Process, b: Instance)
    requires c.Sound()
    ensures VotesBacked(w, outs, b, FreshState(c, p))
  {
    forall kind
      ensures VotesFor(FreshState(c, p), kind) == map[]
    {
    }
  }

  lemma HandleProtocolGrounded(
    w: World, s: Net, c: Config, p: Process, to: Id, sender: Id, d: Instance, m: ProtocolMessage, b: Instance)
    requires Measures(w, c) && Endorsed(w, s.outs, b) && Grounded(w, s.outs, p, b)
    requires sender < w.common.n && Arrives(w, s, sender, to, d, Protocol(m))
    requires HonestFor(w, HandleProtocol(c, p, sender, d, m).p, b)
    ensures var t := HandleProtocol(c, p, sender, d, m);
            Grounded(w, s.outs, t.p, b) && AnnouncesEndorsed(w, s.outs, t.out, b)
  {
    if !p.halted && d !in p.committed && d.author < c.n {
      var st := Register(c, p, d);
      assert HandleProtocol(c, p, sender, d, m)
          == ApplyProtocol(c, p, d, m.broadcast, React(c, d, Counted(st), sender, m));
      if d == b {
        ArrivalWasSaid(w, s, sender, to, b, m);
        FreshBacked(w, s.outs, c, p, b);
        ProtocolGrounded(w, s.outs, c, p, sender, b, m, st);
      } else {
        ElsewhereGrounded(w, s.outs, c, p, sender, d, m, st, b);
      }
    }
  }

  lemma HandleCommitmentGrounded(
    w: World, s: Net, c: Config, p: Process, sender: Id, d: Instance, m: CommitmentMessage, b: Instance)
    requires c.Sound() && Grounded(w, s.outs, p, b)
    ensures var t := HandleCommitment(c, p, sender, d, m);
            Grounded(w, s.outs, t.p, b) && AnnouncesEndorsed(w, s.outs, t.out, b)
  {
    if !p.halted && d !in p.committed && d.author < c.n {
      var st := Register(c, p, d);
      assert HandleCommitment(c, p, sender, d, m) == CommitmentOn(c, p, sender, d, m, st);
      if d == b {
        FreshBacked(w, s.outs, c, p, b);
        assert VotesBacked(w, s.outs, b, st);
        CommitmentGrounded(w, s.outs, c, p, sender, b, m, st);
      } else {
        CommitmentElsewhere(w, s.outs, c, p, sender, d, m, st, b);
      }
    }
  }

  lemma CommitmentElsewhere(
    w: World, outs: map<Id, seq<Send>>, c: Config, p: Process, sender: Id, d: Instance, m: CommitmentMessage, st: State,
    b: Instance)
    requires !p.halted && Grounded(w, outs, p, b) && d != b
    ensures var t := CommitmentOn(c, p, sender, d, m, st);
            Grounded(w, outs, t.p, b) && AnnouncesEndorsed(w, outs, t.out, b)
  {
    CommitmentOutput(c, p, sender, d, m, st);
    var commit := CommitmentEffect(c, p, sender, d, m, st);
  }

  lemma HandleBroadcastGrounded(
    w: World, s: Net, c: Config, p: Process, value: int32, x: seq<int32>, b: Instance)
    requires c.Sound() && |x| == c.DataShares() && Grounded(w, s.outs, p, b)
    ensures var t := HandleBroadcast(c, p, value, x);
            Grounded(w, s.outs, t.p, b) && AnnouncesEndorsed(w, s.outs, t.out, b)
  {
    if !p.halted {
      FreshBacked(w, s.outs, c, p, Instance(c.self, p.transactionCounter));
      BroadcastGrounded(w, s.outs, c, p, value, x, FreshState(c, p), b);
    }
  }

  lemma TakeGrounded(w: World, s: Net, c: Config, p: Process, to: Id, i: Input, b: Instance)
    requires Measures(w, c) && Endorsed(w, s.outs, b) && Grounded(w, s.outs, p, b)
    requires MayTake(w, s, to, i)
    requires HonestFor(w, Take(c, p, i).p, b)
    ensures var t := Take(c, p, i); Grounded(w, s.outs, t.p, b) && AnnouncesEndorsed(w, s.outs, t.out, b)
  {
    if Possible(c, p, i) {
      match i
      case OnProtocol(sender, d, m) => HandleProtocolGrounded(w, s, c, p, to, sender, d, m, b);
      case OnCommitment(sender, d, m) => HandleCommitmentGrounded(w, s, c, p, sender, d, m, b);
      case Ask(value, x) => HandleBroadcastGrounded(w, s, c, p, value, x, b);
    }
  }

  // ---------------------------------------------------------------- runs of the network

  ghost predicate Grows(outs: map<Id, seq<Send>>, outs': map<Id, seq<Send>>) {
    forall q | q in outs :: q in outs' && forall x | x in outs[q] :: x in outs'[q]
  }

  lemma SaidGrows(
    outs: map<Id, seq<Send>>, outs': map<Id, seq<Send>>, q: Id, b: Instance, kind: Kind, v: int)
    requires Grows(outs, outs')
    ensures Said(outs, q, b, kind, v) ==> Said(outs', q, b, kind, v)
  {
  }

  lemma QuorateGrows(w: World, outs: map<Id, seq<Send>>, outs': map<Id, seq<Send>>, b: Instance, v: int)
    requires Grows(outs, outs') && Quorate(w, outs, b, v)
    ensures Quorate(w, outs', b, v)
  {
    forall q | q in Echoers(w, outs, b, v)
      ensures q in Echoers(w, outs', b, v)
    {
      SaidGrows(outs, outs', q, b, ECHO_FROM_PROCESS, v);
    }
    SubsetCount(Echoers(w, outs, b, v), Echoers(w, outs', b, v));
  }

  lemma VotesBackedGrow(w: World, outs: map<Id, seq<Send>>, outs': map<Id, seq<Send>>, b: Instance, st: State)
    requires Grows(outs, outs') && VotesBacked(w, outs, b, st)
    ensures VotesBacked(w, outs', b, st)
  {
    forall kind
      ensures KindBacked(w, outs', b, st.own, kind, VotesFor(st, kind))
    {
      assert KindBacked(w, outs, b, st.own, kind, VotesFor(st, kind));
      forall q, v
        ensures Said(outs, q, b, kind, v) ==> Said(outs', q, b, kind, v)
      {
        SaidGrows(outs, outs', q, b, kind, v);
      }
    }
  }

  lemma GroundedGrows(
    w: World, outs: map<Id, seq<Send>>, outs': map<Id, seq<Send>>, p: Process, b: Instance)
    requires Grows(outs, outs') && Grounded(w, outs, p, b)
    ensures Grounded(w, outs', p, b)
  {
    if b in p.log {
      VotesBackedGrow(w, outs, outs', b, p.log[b]);
    }
    if b in p.delivered {
      QuorateGrows(w, outs, outs', b, p.delivered[b].value);
    }
  }

  lemma EndorsedAfter(w: World, outs: map<Id, seq<Send>>, p: Id, out: seq<Send>, b: Instance)
    requires Endorsed(w, outs, b) && p in outs && AnnouncesEndorsed(w, outs, out, b)
    ensures Endorsed(w, outs[p := outs[p] + out], b)
  {
    var outs' := outs[p := outs[p] + out];
    forall q, kind, v | q in w.Correct() && Endorsing(kind) && Said(outs', q, b, kind, v)
      ensures Quorate(w, outs', b, v)
    {
      var x :| x in outs'[q] && Utters(x, b, kind, v);
      assert q in outs && x in outs[q] ==> Said(outs, q, b, kind, v);
      QuorateGrows(w, outs, outs', b, v);
    }
  }

  /** t is what p did with an input that arrived. */
  lemma StepKeepsInv(w: World, s: Net, p: Id, t: Step, b: Instance)
    requires NetInv(w, s, b) && p in s.procs
    requires Grounded(w, s.outs, t.p, b) && AnnouncesEndorsed(w, s.outs, t.out, b)
    requires TraceInv(t.p, s.outs[p] + t.out)
    ensures NetInv(w, Net(s.procs[p := t.p], s.outs[p := s.outs[p] + t.out]), b)
  {
    var s' := Net(s.procs[p := t.p], s.outs[p := s.outs[p] + t.out]);
    EndorsedAfter(w, s.outs, p, t.out, b);
    forall q | q in s'.procs
      ensures Grounded(w, s'.outs, s'.procs[q], b)
    {
      GroundedGrows(w, s.outs, s'.outs, s'.procs[q], b);
    }
  }

  lemma ConfigMeasures(w: World, p: Id)
    requires w.WellFormed() && p < w.common.n
    ensures Measures(w, w.ConfigOf(p))
  {
  }

  lemma NextKeepsInv(w: World, s: Net, e: Event, b: Instance)
    requires w.WellFormed() && NetInv(w, s, b)
    requires e.p in Next(w, s, e).procs ==> HonestFor(w, Next(w, s, e).procs[e.p], b)
    ensures NetInv(w, Next(w, s, e), b)
  {
    if Enabled(w, s, e) {
      var c, p := w.ConfigOf(e.p), s.procs[e.p];
      ConfigMeasures(w, e.p);
      TakeGrounded(w, s, c, p, e.p, e.i, b);
      TakeKeepsTrace(c, p, e.i, s.outs[e.p]);
      StepKeepsInv(w, s, e.p, Take(c, p, e.i), b);
    }
  }

  ghost predicate NetHonest(w: World, s: Net, b: Instance) {
    forall p | p in s.procs :: HonestFor(w, s.procs[p], b)
  }

  /** At every moment of the run, the own set of every correct process for b has few enough Byzantine members. */
  ghost predicate HonestThroughout(w: World, events: seq<Event>, b: Instance)
    requires w.common.Sound()
  {
    forall k | 0 <= k <= |events| :: NetHonest(w, RunOf(w, events[..k]), b)
  }

  lemma StartsWell(w: World, b: Instance)
    ensures NetInv(w, Initially(w), b)
  {
    assert forall d :: LevelOf(NEW_PROCESS, d) == At(INITIAL_STAGE, INITIAL_WITNESS_STAGE);
  }

  lemma HonestBefore(w: World, events: seq<Event>, b: Instance)
    requires w.common.Sound() && events != [] && HonestThroughout(w, events, b)
    ensures NetHonest(w, RunOf(w, events), b) && HonestThroughout(w, events[..|events| - 1], b)
  {
    var k := |events| - 1;
    assert events[..|events|] == events;
    forall j | 0 <= j <= k
      ensures NetHonest(w, RunOf(w, events[..k][..j]), b)
    {
      HonestAt(w, events, b, k, j);
    }
  }

  lemma HonestAt(w: World, events: seq<Event>, b: Instance, k: nat, j: nat)
    requires w.common.Sound() && j <= k <= |events| && HonestThroughout(w, events, b)
    ensures NetHonest(w, RunOf(w, events[..k][..j]), b)
  {
    assert events[..k][..j] == events[..j];
  }

  lemma {:induction false} RunKeepsNetInv(w: World, events: seq<Event>, b: Instance)
    requires w.WellFormed() && HonestThroughout(w, events, b)
    ensures NetInv(w, RunOf(w, events), b)
  {
    if events == [] {
      StartsWell(w, b);
    } else {
      var k := |events| - 1;
      HonestBefore(w, events, b);
      RunKeepsNetInv(w, events[..k], b);
      NextKeepsInv(w, RunOf(w, events[..k]), events[k], b);
    }
  }

  // ---------------------------------------------------------------- agreement

  /** Whoever may have echoed two values is Byzantine: a correct process echoes once. */
  lemma EchoesOnce(p: Process, trace: seq<Send>, b: Instance, x: Send, y: Send)
    requires TraceInv(p, trace) && x in trace && y in trace
    requires Opens(x, b, ECHO_FROM_PROCESS) && Opens(y, b, ECHO_FROM_PROCESS)
    ensures x == y
  {
    var i :| 0 <= i < |trace| && trace[i] == x;
    var j :| 0 <= j < |trace| && trace[j] == y;
    assert LevelHolds(trace, b, LevelOf(p, b), p.halted);
    if i < j {
      CountedOnceIsUnique(trace, b, ECHO_FROM_PROCESS, i, j);
    } else if j < i {
      CountedOnceIsUnique(trace, b, ECHO_FROM_PROCESS, j, i);
    }
  }

  lemma OneEndorsedValue(w: World, s: Net, b: Instance, v: int, u: int)
    requires w.WellFormed() && NetInv(w, s, b) && Quorate(w, s.outs, b, v) && Quorate(w, s.outs, b, u)
    ensures v == u
  {
    var q := QuorumsMeet(w.common.n, w.common.f, w.byz, Echoers(w, s.outs, b, v), Echoers(w, s.outs, b, u));
    var x :| x in s.outs[q] && Utters(x, b, ECHO_FROM_PROCESS, v);
    var y :| y in s.outs[q] && Utters(y, b, ECHO_FROM_PROCESS, u);
    EchoesOnce(s.procs[q], s.outs[q], b, x, y);
  }

  /**
   * Accountable agreement: two correct processes that delivered the same instance delivered the same value,
   * whatever their witness sets, as long as each correct process's own set for that very instance keeps its Byzantine
   * members below the witness threshold. Nothing is asked of the witnesses of other instances.
   */
  lemma Agreement(w: World, events: seq<Event>, p: Id, q: Id, b: Instance)
    requires w.WellFormed() && HonestThroughout(w, events, b)
    requires var s := RunOf(w, events);
             p in s.procs && q in s.procs && b in s.procs[p].delivered && b in s.procs[q].delivered
    ensures var s := RunOf(w, events); s.procs[p].delivered[b].value == s.procs[q].delivered[b].value
  {
    RunKeepsNetInv(w, events, b);
    var s := RunOf(w, events);
    OneEndorsedValue(w, s, b, s.procs[p].delivered[b].value, s.procs[q].delivered[b].value);
  }

  /** All READYs and VALIDATEs of correct processes for an instance, at either layer, carry one value. */
  lemma OneReadyValue(w: World, events: seq<Event>, p: Id, q: Id, b: Instance, kind: Kind, kind': Kind, v: int, u: int)
    requires w.WellFormed() && HonestThroughout(w, events, b) && Endorsing(kind) && Endorsing(kind')
    requires p in w.Correct() && Said(RunOf(w, events).outs, p, b, kind, v)
    requires q in w.Correct() && Said(RunOf(w, events).outs, q, b, kind', u)
    ensures v == u
  {
    RunKeepsNetInv(w, events, b);
    OneEndorsedValue(w, RunOf(w, events), b, v, u);
  }
}
