/**
 * What one process keeps over every run, whatever the others send: deliveries, checkpoints and reveals move in
 * step, and a transaction commits once, late enough, with a secret that hashes to what was delivered.
 */
module ReliableRuns {
  import opened GoIntegers
  import opened Options
  import opened Quorums
  import opened Reliable

  // ---------------------------------------------------------------- effects of the handlers

  /** Only the state of b has changed, and possibly the process has halted. */
  ghost predicate Touches(p: Process, p': Process, b: Instance) {
    && p' == p.(log := p'.log, halted := p'.halted)
    && p'.log.Keys == p.log.Keys + {b}
    && forall d | d in p.log && d != b :: p'.log[d] == p.log[d]
  }

  ghost predicate Commits(c: Config, p: Process, p': Process, b: Instance, x: seq<int32>) {
    && b in p.delivered
    && p.deliveredCount - Checkpoint(p, b) >= c.mixingTime
    && HashOf(x) == p.delivered[b].xHash
    && p' == CleanUp(p, b, x, p.delivered[b].value)
  }

  ghost predicate SameVotes(st: State, st': State) {
    && st'.own == st.own
    && st'.echoFromProcesses == st.echoFromProcesses && st'.readyFromProcesses == st.readyFromProcesses
    && st'.readyFromWitnesses == st.readyFromWitnesses && st'.validateFromWitnesses == st.validateFromWitnesses
  }

  /** The commitment layer keeps to its own part of a state. */
  ghost predicate SameStages(st: State, st': State) {
    st' == st.(revealStage := st'.revealStage, revealFromProcesses := st'.revealFromProcesses,
               decryptedShares := st'.decryptedShares, received := st'.received, pending := st'.pending)
  }

  ghost predicate CommitmentMoves(c: Config, st: State, r: Reaction, xHash: int32, age: int) {
    && SameStages(st, r.st)
    && !r.verdict.Deliver?
    && (r.verdict.CommitTo? ==> age >= c.mixingTime && HashOf(r.verdict.x) == xHash)
  }

  lemma RebuildMoves(c: Config, b: Instance, st: State, xHash: int32, age: int)
    ensures CommitmentMoves(c, st, Rebuild(c, b, st, xHash), xHash, age)
  {
  }

  lemma RevealMoves(c: Config, b: Instance, st: State, sender: Id, share: Share, xHash: int32, age: int)
    ensures CommitmentMoves(c, st, OnReveal(c, b, st, sender, share, xHash), xHash, age)
  {
    var shares := if st.decryptedShares == [] then seq(c.n, _ => []) else st.decryptedShares;
    if sender < |shares| {
      RebuildMoves(c, b, st.(revealFromProcesses := st.revealFromProcesses + {sender},
                             decryptedShares := shares[sender := share]), xHash, age);
    }
  }

  lemma RevealNeverCommits(c: Config, b: Instance, st: State, sender: Id, share: Share, xHash: int32)
    ensures !OnReveal(c, b, st, sender, share, xHash).verdict.CommitTo?
  {
  }

  lemma DoneMoves(c: Config, b: Instance, st: State, sender: Id, x: seq<int32>, xHash: int32, age: int)
    ensures CommitmentMoves(c, st, OnDone(c, b, st, sender, x, xHash, age), xHash, age)
  {
    var st1 := EchoDone(c, b, st, x).0;
    assert st1 == st.(revealStage := st1.revealStage);
    var st2 := TellDone(b, st1, x).0;
    assert st2 == st.(revealStage := st2.revealStage);
  }

  lemma CommitmentReactionMoves(
    c: Config, b: Instance, st: State, sender: Id, m: CommitmentMessage, xHash: int32, age: int)
    ensures CommitmentMoves(c, st, ReactToCommitment(c, b, st, sender, m, xHash, age), xHash, age)
  {
    match m
    case Reveal(share) => RevealMoves(c, b, st, sender, share, xHash, age);
    case Done(x) => DoneMoves(c, b, st, sender, x, xHash, age);
    case Failed =>
  }

  lemma ApplyTouches(c: Config, p: Process, b: Instance, st: State, r: Reaction)
    requires !p.halted && b in p.delivered && SameStages(st, r.st) && !r.verdict.Deliver? && !r.verdict.CommitTo?
    ensures var q := Apply(p, b, r).p; Touches(p, q, b) && SameStages(st, q.log[b])
  {
  }

  lemma ApplyCommits(c: Config, p: Process, b: Instance, r: Reaction)
    requires b in p.delivered && p.deliveredCount - Checkpoint(p, b) >= c.mixingTime
    requires r.verdict.CommitTo? && HashOf(r.verdict.x) == p.delivered[b].xHash
    ensures Commits(c, p, Apply(p, b, r).p, b, r.verdict.x)
  {
    assert p.log[b := r.st] - {b} == p.log - {b};
  }

  /** Either b's own state changes, keeping its stages, or b commits. */
  lemma CommitmentEffect(c: Config, p: Process, sender: Id, b: Instance, m: CommitmentMessage, st: State)
    returns (commit: Option<seq<int32>>)
    requires !p.halted
    ensures var q := CommitmentOn(c, p, sender, b, m, st).p;
            if commit.None? then Touches(p, q, b) && SameStages(st, q.log[b])
            else Commits(c, p, q, b, commit.value)
  {
    commit := None;
    if b in p.delivered {
      var age, xHash := p.deliveredCount - Checkpoint(p, b), p.delivered[b].xHash;
      var r := ReactToCommitment(c, b, Counted(st), sender, m, xHash, age);
      CommitmentReactionMoves(c, b, Counted(st), sender, m, xHash, age);
      if r.verdict.CommitTo? {
        ApplyCommits(c, p, b, r);
        commit := Some(r.verdict.x);
      } else {
        ApplyTouches(c, p, b, st, r);
      }
    }
  }

  /** A message that commits its instance when that is delivered and old enough. */
  predicate CommitsAtOnce(own: set<Id>, xHash: int32, d: Pending) {
    d.m.Done? && d.sender in own && HashOf(d.m.x) == xHash
  }

  lemma CommitVerdict(c: Config, p: Process, sender: Id, b: Instance, m: CommitmentMessage, st: State)
    requires b in p.delivered
    ensures ReactionTo(c, p, sender, b, m, st).verdict.CommitTo?
            <==> CommitsAtOnce(st.own, p.delivered[b].xHash, Pending(sender, m))
                 && p.deliveredCount - Checkpoint(p, b) >= c.mixingTime
  {
    match m
    case Reveal(share) => RevealNeverCommits(c, b, st, sender, share, p.delivered[b].xHash);
    case Done(x) =>
    case Failed =>
  }

  /**
   * When a commitment message commits: exactly when it is a DONE with the delivered hash, from an own witness, and
   * mixingTime deliveries have followed. Anything else leaves the instance its state.
   */
  lemma CommitsExactly(c: Config, p: Process, sender: Id, b: Instance, m: CommitmentMessage)
    requires c.Sound() && !p.halted && b.author < c.n && b in p.log && b !in p.committed && b in p.delivered
    ensures var q := HandleCommitment(c, p, sender, b, m).p;
            && (b in q.committed <==>
                  && m.Done? && sender in p.log[b].own && HashOf(m.x) == p.delivered[b].xHash
                  && p.deliveredCount - Checkpoint(p, b) >= c.mixingTime)
            && (if b in q.committed then q == CleanUp(p, b, m.x, p.delivered[b].value)
                else Touches(p, q, b) && SameStages(p.log[b], q.log[b]))
  {
    var st := Counted(p.log[b]);
    var r := ReactionTo(c, p, sender, b, m, st);
    CommitVerdict(c, p, sender, b, m, st);
    CommitmentReactionMoves(c, b, st, sender, m, p.delivered[b].xHash, p.deliveredCount - Checkpoint(p, b));
    assert HandleCommitment(c, p, sender, b, m) == Apply(p, b, r);
    if r.verdict.CommitTo? {
      CommitSecret(c, b, st, sender, m, p.delivered[b].xHash, p.deliveredCount - Checkpoint(p, b));
      ApplyCommits(c, p, b, r);
    } else {
      ApplyTouches(c, p, b, p.log[b], r);
    }
  }

  lemma CommitSecret(c: Config, b: Instance, st: State, sender: Id, m: CommitmentMessage, xHash: int32, age: int)
    requires ReactToCommitment(c, b, st, sender, m, xHash, age).verdict.CommitTo?
    ensures m.Done? && ReactToCommitment(c, b, st, sender, m, xHash, age).verdict == CommitTo(m.x)
  {
    match m
    case Reveal(share) => RevealNeverCommits(c, b, st, sender, share, xHash);
    case Done(x) =>
    case Failed =>
  }

  /** Deferred messages replayed right after a delivery are too early to commit. */
  lemma {:induction false} ReplayEffect(c: Config, p: Process, b: Instance, deferred: seq<Pending>)
    requires c.Sound() && !p.halted && b in p.log && b in p.delivered && b !in p.committed
    requires p.deliveredCount - Checkpoint(p, b) < c.mixingTime
    ensures var s := Replay(c, p, b, deferred); Touches(p, s.p, b) && SameStages(p.log[b], s.p.log[b])
  {
    if deferred != [] {
      var k := |deferred| - 1;
      ReplayEffect(c, p, b, deferred[..k]);
      var q := Replay(c, p, b, deferred[..k]).p;
      if !q.halted {
        var commit := CommitmentEffect(c, q, deferred[k].sender, b, deferred[k].m, q.log[b]);
      }
    }
  }

  /** Every protocol message leaves at the moment a stage passes the level that goes with its kind. */
  ghost predicate Phases(c: Config, b: Instance, st: State, r: Reaction, bm: Broadcast) {
    || (r.out == [] && r.st.stage == st.stage && r.st.witnessStage == st.witnessStage)
    || (|r.out| == 1 && r.out[0].ShareEach? && r.out[0].instance == b && r.out[0].broadcast == bm
        && r.st.stage == st.stage && st.witnessStage < SENT_ECHO_FROM_WITNESS
        && (r.st.witnessStage == SENT_ECHO_FROM_WITNESS
            || (r.verdict == Crash && r.st.witnessStage == st.witnessStage)))
    || (r.out == [ToWitnesses(st, b, ECHO_FROM_PROCESS, bm)] && r.st.witnessStage == st.witnessStage
        && st.stage < SENT_ECHO_FROM_PROCESS && r.st.stage == SENT_ECHO_FROM_PROCESS)
    || (r.out == [ToWitnesses(st, b, READY_FROM_PROCESS, bm)] && r.st.witnessStage == st.witnessStage
        && st.stage < SENT_READY_FROM_PROCESS && r.st.stage == SENT_READY_FROM_PROCESS)
    || (r.out == [Broadcasting(c, b, READY_FROM_WITNESS, bm)] && r.st.stage == st.stage
        && st.witnessStage < SENT_READY_FROM_WITNESS && r.st.witnessStage == SENT_READY_FROM_WITNESS)
    || (r.out == [Broadcasting(c, b, READY_FROM_WITNESS, bm), Broadcasting(c, b, VALIDATE, bm)]
        && r.st.stage == st.stage && st.witnessStage < SENT_READY_FROM_WITNESS && r.st.witnessStage == SENT_VALIDATE)
    || (r.out == [Broadcasting(c, b, VALIDATE, bm)] && r.st.stage == st.stage
        && st.witnessStage == SENT_READY_FROM_WITNESS && r.st.witnessStage == SENT_VALIDATE)
  }

  /** Stages only grow; deferred messages and the reveal are left alone. */
  ghost predicate Moves(c: Config, b: Instance, st: State, r: Reaction, bm: Broadcast) {
    && r.st.own == st.own && r.st.pot == st.pot && r.st.pending == st.pending
    && st.stage <= r.st.stage && st.witnessStage <= r.st.witnessStage
    && (r.st.stage == DELIVERED_STAGE <==> st.stage == DELIVERED_STAGE)
    && (r.verdict == Deliver ==> r.st.stage < DELIVERED_STAGE && r.out == [])
    && !r.verdict.CommitTo?
    && Phases(c, b, st, r, bm)
  }

  lemma NotifyMoves(c: Config, b: Instance, st: State, bm: Broadcast, shares: seq<Share>)
    ensures Moves(c, b, st, OnNotify(c, b, st, bm, shares), bm)
  {
  }

  lemma EchoFromWitnessMoves(c: Config, b: Instance, st: State, sender: Id, bm: Broadcast, shares: seq<Share>)
    ensures Moves(c, b, st, OnEchoFromWitness(b, st, sender, bm, shares), bm)
  {
  }

  lemma EchoFromProcessMoves(c: Config, b: Instance, st: State, sender: Id, bm: Broadcast)
    ensures Moves(c, b, st, OnEchoFromProcess(c, b, st, sender, bm), bm)
  {
  }

  lemma ReadyFromWitnessMoves(c: Config, b: Instance, st: State, sender: Id, bm: Broadcast)
    ensures Moves(c, b, st, OnReadyFromWitness(c, b, st, sender, bm), bm)
  {
  }

  /** VALIDATE never overtakes READY_FROM_WITNESS: a quorum is more than f. */
  lemma ReadyFromProcessMoves(c: Config, b: Instance, st: State, sender: Id, bm: Broadcast)
    requires c.f < c.n
    ensures Moves(c, b, st, OnReadyFromProcess(c, b, st, sender, bm), bm)
  {
  }

  lemma ReactMoves(c: Config, b: Instance, st: State, sender: Id, m: ProtocolMessage)
    requires c.f < c.n
    ensures Moves(c, b, st, React(c, b, st, sender, m), m.broadcast)
  {
    match m.kind
    case NOTIFY => NotifyMoves(c, b, st, m.broadcast, m.shares);
    case ECHO_FROM_WITNESS => EchoFromWitnessMoves(c, b, st, sender, m.broadcast, m.shares);
    case ECHO_FROM_PROCESS => EchoFromProcessMoves(c, b, st, sender, m.broadcast);
    case READY_FROM_WITNESS => ReadyFromWitnessMoves(c, b, st, sender, m.broadcast);
    case READY_FROM_PROCESS => ReadyFromProcessMoves(c, b, st, sender, m.broadcast);
    case VALIDATE =>
  }

  // ---------------------------------------------------------------- the invariant

  function Max(x: int, y: int): int {
    if x >= y then x else y
  }

  /** Deliveries are numbered from 1 in the order in which they happened. */
  ghost predicate Numbered(deliveries: seq<Instance>, toCheckpoint: map<Instance, nat>) {
    && (forall i | 0 <= i < |deliveries| :: deliveries[i] in toCheckpoint && toCheckpoint[deliveries[i]] == i + 1)
    && (forall b | b in toCheckpoint ::
          1 <= toCheckpoint[b] <= |deliveries| && deliveries[toCheckpoint[b] - 1] == b)
  }

  /** The live checkpoints are the last mixingTime deliveries, and all earlier ones have begun their reveal. */
  ghost predicate Window(
    mixingTime: int, deliveries: seq<Instance>, checkpoints: map<int, Instance>, revealed: seq<Instance>)
  {
    var past := Max(0, |deliveries| - mixingTime);
    && (forall k :: k in checkpoints <==> past < k <= |deliveries|)
    && (forall k | k in checkpoints :: 0 < k <= |deliveries| && checkpoints[k] == deliveries[k - 1])
    && past <= |deliveries| && revealed == deliveries[..past]
  }

  /** A delivered instance is at its last stage and keeps its state until it commits. */
  ghost predicate Kept(
    log: map<Instance, State>, delivered: map<Instance, Broadcast>, committed: map<Instance, int32>)
  {
    && (forall b | b in log :: log[b].stage == DELIVERED_STAGE <==> b in delivered)
    && (forall b | b in delivered :: b in log || b in committed)
  }

  /** Every committed instance is listed, and none twice. */
  ghost predicate Listed(commits: seq<Commit>, committed: map<Instance, int32>) {
    && (forall i | 0 <= i < |commits| :: commits[i].instance in committed)
    && (forall b | b in committed :: exists i :: 0 <= i < |commits| && commits[i].instance == b)
    && (forall i, j | 0 <= i < j < |commits| :: commits[i].instance != commits[j].instance)
  }

  /** Committed values and secrets are those delivered. */
  ghost predicate Backed(
    commits: seq<Commit>, committed: map<Instance, int32>, delivered: map<Instance, Broadcast>)
  {
    && (forall b | b in committed :: b in delivered && committed[b] == delivered[b].value)
    && (forall i | 0 <= i < |commits| ::
          commits[i].instance in delivered && HashOf(commits[i].x) == delivered[commits[i].instance].xHash)
  }

  /** Nothing commits before mixingTime further deliveries. */
  ghost predicate Aged(
    mixingTime: int, count: int, committed: map<Instance, int32>, toCheckpoint: map<Instance, nat>)
  {
    forall b | b in committed :: b in toCheckpoint && count - toCheckpoint[b] >= mixingTime
  }

  ghost predicate SameInstances(toCheckpoint: map<Instance, nat>, delivered: map<Instance, Broadcast>) {
    forall b :: b in toCheckpoint <==> b in delivered
  }

  ghost predicate Apart(log: map<Instance, State>, committed: map<Instance, int32>) {
    forall b | b in log :: b !in committed
  }

  ghost predicate Inv(c: Config, p: Process) {
    && p.deliveredCount == |p.deliveries|
    && SameInstances(p.toCheckpoint, p.delivered)
    && Numbered(p.deliveries, p.toCheckpoint)
    && Listed(p.commits, p.committed)
    && Backed(p.commits, p.committed, p.delivered)
    && Aged(c.mixingTime, p.deliveredCount, p.committed, p.toCheckpoint)
    && Apart(p.log, p.committed)
    && (!p.halted ==> Window(c.mixingTime, p.deliveries, p.checkpoints, p.revealed))
    && (!p.halted ==> Kept(p.log, p.delivered, p.committed))
  }

  // ---------------------------------------------------------------- deliveries

  lemma RevealDueEffect(c: Config, p: Process)
    requires !p.halted
    ensures var q := RevealDue(c, p).p;
            && q == p.(checkpoints := q.checkpoints, revealed := q.revealed, halted := q.halted)
            && (!q.halted ==>
                  var due := p.deliveredCount - c.mixingTime;
                  if due in p.checkpoints
                  then q.checkpoints == p.checkpoints - {due} && q.revealed == p.revealed + [p.checkpoints[due]]
                  else q == p)
  {
  }

  /** What a delivery leaves in the log, once the stage is set. */
  ghost predicate LogAfterDelivery(p: Process, p': Process, b: Instance) {
    && b in p.log && p'.log.Keys == p.log.Keys
    && (forall d | d in p.log && d != b :: p'.log[d] == p.log[d])
    && SameVotes(p.log[b], p'.log[b]) && p'.log[b].pot == p.log[b].pot
    && p'.log[b].witnessStage == p.log[b].witnessStage
    && p.log[b].stage <= p'.log[b].stage
    && (!p'.halted ==> p'.log[b].stage == DELIVERED_STAGE)
  }

  ghost predicate WindowAfterDelivery(c: Config, p: Process, p': Process, b: Instance) {
    var k := p.deliveredCount + 1;
    var checkpoints := p.checkpoints[k := b];
    if k - c.mixingTime in checkpoints
    then && p'.checkpoints == checkpoints - {k - c.mixingTime}
         && p'.revealed == p.revealed + [checkpoints[k - c.mixingTime]]
    else p'.checkpoints == checkpoints && p'.revealed == p.revealed
  }

  /** From the replay to the end of a delivery. */
  function Finished(c: Config, r: Process, b: Instance): Process {
    StageSet(RevealDue(c, PendingCleared(r, b)).p, b)
  }

  lemma FinishedLog(c: Config, p: Process, r: Process, b: Instance)
    requires b in p.log && p.log[b].stage < DELIVERED_STAGE
    requires r.log.Keys == p.log.Keys && SameStages(p.log[b], r.log[b])
    requires forall d | d in p.log && d != b :: r.log[d] == p.log[d]
    ensures LogAfterDelivery(p, Finished(c, r, b), b)
  {
    if r.halted {
      assert Finished(c, r, b) == r;
    } else {
      FinishedUp(c, r, b);
    }
  }

  /** A delivery that was not cut short clears the queue and, if it does not come down on the reveal, sets the stage. */
  lemma FinishedUp(c: Config, r: Process, b: Instance)
    requires !r.halted && b in r.log
    ensures var q, cleared := Finished(c, r, b), r.log[b].(pending := []);
            q.log == r.log[b := if q.halted then cleared else cleared.(stage := DELIVERED_STAGE)]
  {
    var q := PendingCleared(r, b);
    RevealDueEffect(c, q);
    assert RevealDue(c, q).p.log == q.log == r.log[b := r.log[b].(pending := [])];
  }

  lemma FinishedWindow(c: Config, p: Process, r: Process, b: Instance)
    requires b in r.log
    requires r.deliveredCount == p.deliveredCount + 1 && r.checkpoints == p.checkpoints[p.deliveredCount + 1 := b]
    requires r.revealed == p.revealed
    ensures var p' := Finished(c, r, b);
            && p' == r.(log := p'.log, checkpoints := p'.checkpoints, revealed := p'.revealed, halted := p'.halted)
            && (!p'.halted ==> WindowAfterDelivery(c, p, p', b))
  {
    if !r.halted {
      RevealDueEffect(c, PendingCleared(r, b));
    }
  }

  lemma DeliverEffect(c: Config, p: Process, b: Instance, bm: Broadcast)
    requires c.Sound() && c.mixingTime >= 1
    requires !p.halted && b in p.log && b !in p.committed && p.log[b].stage < DELIVERED_STAGE
    ensures var p', q := StageSet(DeliverInstance(c, p, b, bm).p, b), Recorded(p, b, bm);
            && p' == q.(log := p'.log, checkpoints := p'.checkpoints, revealed := p'.revealed, halted := p'.halted)
            && LogAfterDelivery(p, p', b)
            && (!p'.halted ==> WindowAfterDelivery(c, p, p', b))
  {
    var q := Recorded(p, b, bm);
    var r := Replay(c, q, b, p.log[b].pending).p;
    JustRecorded(c, p, b, bm);
    ReplayEffect(c, q, b, p.log[b].pending);
    assert StageSet(DeliverInstance(c, p, b, bm).p, b) == Finished(c, r, b);
    FinishedEffect(c, p, q, r, b, bm);
  }

  lemma FinishedEffect(c: Config, p: Process, q: Process, r: Process, b: Instance, bm: Broadcast)
    requires b in p.log && p.log[b].stage < DELIVERED_STAGE && q == Recorded(p, b, bm)
    requires Touches(q, r, b) && SameStages(q.log[b], r.log[b])
    ensures var p' := Finished(c, r, b);
            && p' == q.(log := p'.log, checkpoints := p'.checkpoints, revealed := p'.revealed, halted := p'.halted)
            && LogAfterDelivery(p, p', b)
            && (!p'.halted ==> WindowAfterDelivery(c, p, p', b))
  {
    FinishedLog(c, p, r, b);
    FinishedWindow(c, p, r, b);
  }

  lemma JustRecorded(c: Config, p: Process, b: Instance, bm: Broadcast)
    requires c.mixingTime >= 1
    ensures var q := Recorded(p, b, bm);
            && q.log == p.log && q.committed == p.committed && q.halted == p.halted && b in q.delivered
            && q.deliveredCount - Checkpoint(q, b) < c.mixingTime
  {
  }

  /** The transaction whose reveal is due, if any, is in the log. */
  ghost predicate DueHasState(c: Config, q: Process) {
    q.deliveredCount - c.mixingTime in q.checkpoints ==>
      q.checkpoints[q.deliveredCount - c.mixingTime] in q.log
  }

  /** After recording the delivery of b and replaying what was deferred, the reveal due has its state. */
  ghost predicate FindsItsState(c: Config, p: Process, b: Instance, bm: Broadcast)
    requires c.Sound() && b in p.log
  {
    DueHasState(c, PendingCleared(Replay(c, Recorded(p, b, bm), b, p.log[b].pending).p, b))
  }

  /** When a reveal falls due, its transaction still has its state. */
  lemma DueIsLogged(c: Config, p: Process, b: Instance, bm: Broadcast)
    requires c.Sound() && c.mixingTime >= 1 && Inv(c, p)
    requires !p.halted && b in p.log && b !in p.delivered
    ensures FindsItsState(c, p, b, bm)
  {
    JustRecorded(c, p, b, bm);
    assert Apart(p.log, p.committed);
    ReplayEffect(c, Recorded(p, b, bm), b, p.log[b].pending);
    OldCheckpointIsLogged(c, p, p.deliveredCount + 1 - c.mixingTime);
    DueAfterReplay(c, p, b, bm, Replay(c, Recorded(p, b, bm), b, p.log[b].pending).p);
  }

  lemma DueAfterReplay(c: Config, p: Process, b: Instance, bm: Broadcast, s: Process)
    requires c.mixingTime >= 1 && b in p.log && Touches(Recorded(p, b, bm), s, b)
    requires var due := p.deliveredCount + 1 - c.mixingTime; due in p.checkpoints ==> p.checkpoints[due] in p.log
    ensures DueHasState(c, PendingCleared(s, b))
  {
  }

  lemma OldCheckpointIsLogged(c: Config, p: Process, due: int)
    requires c.mixingTime >= 1 && Inv(c, p) && !p.halted && due == p.deliveredCount + 1 - c.mixingTime
    ensures due in p.checkpoints ==> p.checkpoints[due] in p.log
  {
    if due in p.checkpoints {
      var t := p.checkpoints[due];
      assert t == p.deliveries[due - 1] && p.toCheckpoint[t] == due;
      assert t in p.delivered && t !in p.committed;
    }
  }

  // ---------------------------------------------------------------- preservation

  lemma NumberedExtends(deliveries: seq<Instance>, toCheckpoint: map<Instance, nat>, b: Instance)
    requires Numbered(deliveries, toCheckpoint) && b !in toCheckpoint
    ensures Numbered(deliveries + [b], toCheckpoint[b := |deliveries| + 1])
  {
  }

  lemma WindowSlides(c: Config, p: Process, p': Process, b: Instance)
    requires c.mixingTime >= 1 && p.deliveredCount == |p.deliveries| && p'.deliveries == p.deliveries + [b]
    requires Window(c.mixingTime, p.deliveries, p.checkpoints, p.revealed) && WindowAfterDelivery(c, p, p', b)
    ensures Window(c.mixingTime, p'.deliveries, p'.checkpoints, p'.revealed)
  {
    var due := p.deliveredCount + 1 - c.mixingTime;
    assert due in p.checkpoints[p.deliveredCount + 1 := b] <==> due >= 1;
    CheckpointsSlide(c.mixingTime, p.deliveries, b, p.checkpoints);
    if due >= 1 {
      assert p'.deliveries[..due] == p.deliveries[..due - 1] + [p'.deliveries[due - 1]];
    }
  }

  /** The live checkpoints after one more delivery: the new one is in, and the one now past, if any, is out. */
  lemma CheckpointsSlide(mixingTime: int, deliveries: seq<Instance>, b: Instance, checkpoints: map<int, Instance>)
    requires mixingTime >= 1
    requires forall k :: k in checkpoints <==> Max(0, |deliveries| - mixingTime) < k <= |deliveries|
    requires forall k | k in checkpoints :: 0 < k <= |deliveries| && checkpoints[k] == deliveries[k - 1]
    ensures var slid := checkpoints[|deliveries| + 1 := b] - {|deliveries| + 1 - mixingTime};
            && (forall k :: k in slid <==> Max(0, |deliveries| + 1 - mixingTime) < k <= |deliveries| + 1)
            && (forall k | k in slid :: 0 < k <= |deliveries| + 1 && slid[k] == (deliveries + [b])[k - 1])
  {
  }

  lemma KeptAfterTouch(log: map<Instance, State>, log': map<Instance, State>, b: Instance,
                       delivered: map<Instance, Broadcast>, committed: map<Instance, int32>)
    requires Kept(log, delivered, committed) && b !in committed && log'.Keys == log.Keys + {b}
    requires forall d | d in log && d != b :: log'[d] == log[d]
    requires log'[b].stage == DELIVERED_STAGE <==> b in log && log[b].stage == DELIVERED_STAGE
    ensures Kept(log', delivered, committed)
  {
  }

  lemma TouchKeepsInv(c: Config, p: Process, p': Process, b: Instance)
    requires Inv(c, p) && !p.halted && b !in p.committed && Touches(p, p', b)
    requires p'.log[b].stage == DELIVERED_STAGE <==> b in p.log && p.log[b].stage == DELIVERED_STAGE
    ensures Inv(c, p')
  {
    assert p' == p.(log := p'.log, halted := p'.halted);
    assert Apart(p'.log, p.committed);
    if !p'.halted {
      KeptAfterTouch(p.log, p'.log, b, p.delivered, p.committed);
    }
  }

  lemma ListedExtends(
    commits: seq<Commit>, committed: map<Instance, int32>, b: Instance, x: seq<int32>, value: int32)
    requires Listed(commits, committed) && b !in committed
    ensures Listed(commits + [Commit(b, x)], committed[b := value])
  {
    var longer := commits + [Commit(b, x)];
    assert longer[|commits|].instance == b;
    var more := committed[b := value];
    forall d | d in more
      ensures exists i :: 0 <= i < |longer| && longer[i].instance == d
    {
      if d != b {
        var i :| 0 <= i < |commits| && commits[i].instance == d;
        assert longer[i].instance == d;
      }
    }
  }

  lemma BackedExtends(c: Config, p: Process, p': Process, b: Instance, x: seq<int32>)
    requires Backed(p.commits, p.committed, p.delivered) && Commits(c, p, p', b, x)
    ensures Backed(p'.commits, p'.committed, p'.delivered)
  {
  }

  lemma KeptAfterCommit(log: map<Instance, State>, b: Instance, delivered: map<Instance, Broadcast>,
                        committed: map<Instance, int32>, value: int32)
    requires Kept(log, delivered, committed)
    ensures Kept(log - {b}, delivered, committed[b := value])
  {
  }

  lemma AgedAfterCommit(c: Config, p: Process, b: Instance)
    requires Aged(c.mixingTime, p.deliveredCount, p.committed, p.toCheckpoint) && b in p.delivered
    requires SameInstances(p.toCheckpoint, p.delivered) && p.deliveredCount - Checkpoint(p, b) >= c.mixingTime
    ensures Aged(c.mixingTime, p.deliveredCount, p.committed[b := p.delivered[b].value], p.toCheckpoint)
  {
  }

  lemma CommitKeepsInv(c: Config, p: Process, p': Process, b: Instance, x: seq<int32>)
    requires Inv(c, p) && !p.halted && b !in p.committed && Commits(c, p, p', b, x)
    ensures Inv(c, p')
  {
    ListedExtends(p.commits, p.committed, b, x, p.delivered[b].value);
    BackedExtends(c, p, p', b, x);
    AgedAfterCommit(c, p, b);
    KeptAfterCommit(p.log, b, p.delivered, p.committed, p.delivered[b].value);
  }

  lemma BackedAfterDelivery(p: Process, b: Instance, bm: Broadcast)
    requires Backed(p.commits, p.committed, p.delivered) && b !in p.delivered
    ensures Backed(p.commits, p.committed, p.delivered[b := bm])
  {
  }

  lemma KeptAfterDelivery(p: Process, p': Process, b: Instance, bm: Broadcast)
    requires Kept(p.log, p.delivered, p.committed) && LogAfterDelivery(p, p', b) && !p'.halted
    ensures Kept(p'.log, p.delivered[b := bm], p.committed)
  {
  }

  lemma AgedAfterDelivery(c: Config, p: Process, b: Instance)
    requires Aged(c.mixingTime, p.deliveredCount, p.committed, p.toCheckpoint) && b !in p.committed
    ensures Aged(c.mixingTime, p.deliveredCount + 1, p.committed, p.toCheckpoint[b := p.deliveredCount + 1])
  {
  }

  lemma DeliverKeepsInv(c: Config, p: Process, b: Instance, bm: Broadcast)
    requires c.Sound() && c.mixingTime >= 1 && Inv(c, p)
    requires !p.halted && b in p.log && p.log[b].stage < DELIVERED_STAGE
    ensures Inv(c, StageSet(DeliverInstance(c, p, b, bm).p, b))
  {
    var p' := StageSet(DeliverInstance(c, p, b, bm).p, b);
    DeliverEffect(c, p, b, bm);
    assert b !in p.delivered;
    NumberedExtends(p.deliveries, p.toCheckpoint, b);
    BackedAfterDelivery(p, b, bm);
    AgedAfterDelivery(c, p, b);
    DeliveryKeepsInv(c, p, p', b, bm);
  }

  lemma DeliveryKeepsInv(c: Config, p: Process, p': Process, b: Instance, bm: Broadcast)
    requires c.mixingTime >= 1 && p.deliveredCount == |p.deliveries| && SameInstances(p.toCheckpoint, p.delivered)
    requires Apart(p.log, p.committed) && Listed(p.commits, p.committed)
    requires Window(c.mixingTime, p.deliveries, p.checkpoints, p.revealed)
    requires Kept(p.log, p.delivered, p.committed)
    requires p'.deliveries == p.deliveries + [b] && p'.deliveredCount == p.deliveredCount + 1
    requires p'.delivered == p.delivered[b := bm]
    requires p'.toCheckpoint == p.toCheckpoint[b := p.deliveredCount + 1]
    requires p'.committed == p.committed && p'.commits == p.commits
    requires Numbered(p'.deliveries, p'.toCheckpoint) && Backed(p'.commits, p'.committed, p'.delivered)
    requires Aged(c.mixingTime, p'.deliveredCount, p'.committed, p'.toCheckpoint)
    requires LogAfterDelivery(p, p', b) && (!p'.halted ==> WindowAfterDelivery(c, p, p', b))
    ensures Inv(c, p')
  {
    assert SameInstances(p'.toCheckpoint, p'.delivered);
    assert Apart(p'.log, p'.committed);
    if !p'.halted {
      WindowSlides(c, p, p', b);
      KeptAfterDelivery(p, p', b, bm);
    }
  }

  // ---------------------------------------------------------------- runs

  lemma ProtocolKeepsInv(c: Config, p: Process, sender: Id, b: Instance, m: ProtocolMessage, st: State)
    requires c.Sound() && c.mixingTime >= 1 && Inv(c, p) && !p.halted && b !in p.committed
    requires b in p.log ==> st == p.log[b]
    requires b !in p.log ==> st.stage == INITIAL_STAGE
    ensures Inv(c, ApplyProtocol(c, p, b, m.broadcast, React(c, b, Counted(st), sender, m)).p)
  {
    var r := React(c, b, Counted(st), sender, m);
    ReactMoves(c, b, Counted(st), sender, m);
    ReactionKeepsInv(c, p, b, m.broadcast, st, r);
  }

  lemma HaltKeepsInv(c: Config, p: Process)
    requires Inv(c, p)
    ensures Inv(c, p.(halted := true))
  {
  }

  lemma ReactionKeepsInv(c: Config, p: Process, b: Instance, bm: Broadcast, st: State, r: Reaction)
    requires c.Sound() && c.mixingTime >= 1 && Inv(c, p) && !p.halted && b !in p.committed
    requires b in p.log ==> st == p.log[b]
    requires b !in p.log ==> st.stage == INITIAL_STAGE
    requires r.st.stage == DELIVERED_STAGE <==> st.stage == DELIVERED_STAGE
    requires r.verdict == Deliver ==> r.st.stage < DELIVERED_STAGE
    requires !r.verdict.CommitTo?
    ensures Inv(c, ApplyProtocol(c, p, b, bm, r).p)
  {
    var q := WithState(p, b, r.st);
    assert Touches(p, q, b);
    TouchKeepsInv(c, p, q, b);
    if r.verdict == Deliver {
      DeliverKeepsInv(c, q, b, bm);
    } else if r.verdict == Crash {
      HaltKeepsInv(c, q);
    }
  }

  lemma CommitmentKeepsInv(c: Config, p: Process, sender: Id, b: Instance, m: CommitmentMessage, st: State)
    requires Inv(c, p) && !p.halted && b !in p.committed
    requires b in p.log ==> st == p.log[b]
    requires b !in p.log ==> st.stage == INITIAL_STAGE
    ensures Inv(c, CommitmentOn(c, p, sender, b, m, st).p)
  {
    var commit := CommitmentEffect(c, p, sender, b, m, st);
    var p' := CommitmentOn(c, p, sender, b, m, st).p;
    if commit.Some? {
      CommitKeepsInv(c, p, p', b, commit.value);
    } else {
      TouchKeepsInv(c, p, p', b);
    }
  }

  lemma BroadcastKeepsInv(c: Config, p: Process, value: int32, x: seq<int32>, st: State)
    requires Inv(c, p) && !p.halted && c.DataShares() <= c.n && Possible(c, p, Ask(value, x))
    requires st.stage == INITIAL_STAGE
    ensures Inv(c, BroadcastOn(c, p, value, x, st).p)
  {
    var b, p' := Instance(c.self, p.transactionCounter), BroadcastOn(c, p, value, x, st).p;
    KeptAfterTouch(p.log, p.log[b := st], b, p.delivered, p.committed);
    assert p' == p.(halted := true)
        || p' == p.(log := p.log[b := st], transactionCounter := p'.transactionCounter);
  }

  lemma HandleProtocolKeepsInv(c: Config, p: Process, sender: Id, b: Instance, m: ProtocolMessage)
    requires c.Sound() && c.mixingTime >= 1 && Inv(c, p)
    ensures Inv(c, HandleProtocol(c, p, sender, b, m).p)
  {
    if !p.halted && b !in p.committed {
      if b.author >= c.n {
        HaltKeepsInv(c, p);
      } else {
        var st := Register(c, p, b);
        ProtocolKeepsInv(c, p, sender, b, m, st);
        assert HandleProtocol(c, p, sender, b, m)
            == ApplyProtocol(c, p, b, m.broadcast, React(c, b, Counted(st), sender, m));
      }
    }
  }

  lemma HandleCommitmentKeepsInv(c: Config, p: Process, sender: Id, b: Instance, m: CommitmentMessage)
    requires c.Sound() && Inv(c, p)
    ensures Inv(c, HandleCommitment(c, p, sender, b, m).p)
  {
    if !p.halted && b !in p.committed {
      if b.author >= c.n {
        HaltKeepsInv(c, p);
      } else {
        var st := Register(c, p, b);
        CommitmentKeepsInv(c, p, sender, b, m, st);
        assert HandleCommitment(c, p, sender, b, m) == CommitmentOn(c, p, sender, b, m, st);
      }
    }
  }

  lemma TakeKeepsInv(c: Config, p: Process, i: Input)
    requires c.Sound() && c.mixingTime >= 1 && Inv(c, p)
    ensures Inv(c, Take(c, p, i).p)
  {
    if Possible(c, p, i) && !p.halted {
      match i
      case OnProtocol(sender, b, m) => HandleProtocolKeepsInv(c, p, sender, b, m);
      case OnCommitment(sender, b, m) => HandleCommitmentKeepsInv(c, p, sender, b, m);
      case Ask(value, x) => BroadcastKeepsInv(c, p, value, x, FreshState(c, p));
    }
  }

  /** The process after the given inputs, and everything it sent. */
  ghost function Run(c: Config, inputs: seq<Input>): Step
    requires c.Sound()
  {
    if inputs == [] then Step(NEW_PROCESS, [])
    else
      var before := Run(c, inputs[..|inputs| - 1]);
      var last := Take(c, before.p, inputs[|inputs| - 1]);
      Step(last.p, before.out + last.out)
  }

  lemma {:induction false} RunKeepsInv(c: Config, inputs: seq<Input>)
    requires c.Sound() && c.mixingTime >= 1
    ensures Inv(c, Run(c, inputs).p)
  {
    if inputs != [] {
      RunKeepsInv(c, inputs[..|inputs| - 1]);
      TakeKeepsInv(c, Run(c, inputs[..|inputs| - 1]).p, inputs[|inputs| - 1]);
    }
  }

  /**
   * The reveal window. In every run the checkpoint numbers are a bijection between delivered transactions and
   * 1..D; those in (D - M, D] are live; and the reveals begun are those of the first D - M deliveries, in order.
   */
  lemma RevealWindow(c: Config, inputs: seq<Input>, k: int)
    requires c.Sound() && c.mixingTime >= 1
    ensures WindowIs(c, Run(c, inputs).p, k)
  {
    RunKeepsInv(c, inputs);
    InvGivesWindow(c, Run(c, inputs).p, k);
  }

  ghost predicate WindowIs(c: Config, p: Process, k: int) {
    && Numbered(p.deliveries, p.toCheckpoint)
    && |p.deliveries| == p.deliveredCount == |p.delivered| && p.toCheckpoint.Keys == p.delivered.Keys
    && (!p.halted ==> LiveIs(c.mixingTime, p.deliveries, p.checkpoints, p.revealed, k))
  }

  /** k is live exactly if it is one of the last mixingTime, and all earlier ones have begun their reveal. */
  ghost predicate LiveIs(
    mixingTime: int, deliveries: seq<Instance>, checkpoints: map<int, Instance>, revealed: seq<Instance>, k: int)
  {
    var past := Max(0, |deliveries| - mixingTime);
    && (k in checkpoints <==> past < k <= |deliveries|)
    && (k in checkpoints ==> 0 < k && checkpoints[k] == deliveries[k - 1])
    && past <= |deliveries| && revealed == deliveries[..past]
  }

  lemma InvGivesWindow(c: Config, p: Process, k: int)
    requires Inv(c, p) && c.mixingTime >= 1
    ensures WindowIs(c, p, k)
  {
    NumberedMeans(p.deliveries, p.toCheckpoint, p.delivered);
    if !p.halted {
      AtCheckpoint(c.mixingTime, p.deliveries, p.checkpoints, p.revealed, k);
    }
  }

  lemma NumberedMeans(
    deliveries: seq<Instance>, toCheckpoint: map<Instance, nat>, delivered: map<Instance, Broadcast>)
    requires Numbered(deliveries, toCheckpoint) && SameInstances(toCheckpoint, delivered)
    ensures |deliveries| == |delivered| && toCheckpoint.Keys == delivered.Keys
  {
    DeliveredCount(deliveries, toCheckpoint);
    SameCount(toCheckpoint, delivered);
  }

  lemma AtCheckpoint(
    mixingTime: int, deliveries: seq<Instance>, checkpoints: map<int, Instance>, revealed: seq<Instance>, k: int)
    requires Window(mixingTime, deliveries, checkpoints, revealed)
    ensures LiveIs(mixingTime, deliveries, checkpoints, revealed, k)
  {
  }

  lemma SameCount(toCheckpoint: map<Instance, nat>, delivered: map<Instance, Broadcast>)
    requires SameInstances(toCheckpoint, delivered)
    ensures toCheckpoint.Keys == delivered.Keys && |toCheckpoint| == |delivered|
  {
    assert toCheckpoint.Keys == delivered.Keys;
  }

  lemma {:induction false} DeliveredCount(deliveries: seq<Instance>, toCheckpoint: map<Instance, nat>)
    requires Numbered(deliveries, toCheckpoint)
    ensures |toCheckpoint| == |deliveries|
  {
    if deliveries == [] {
      assert toCheckpoint == map[];
    } else {
      var k, b := |deliveries| - 1, deliveries[|deliveries| - 1];
      var rest := toCheckpoint - {b};
      assert Numbered(deliveries[..k], rest);
      DeliveredCount(deliveries[..k], rest);
      WithoutOne(toCheckpoint, b);
    }
  }

  /**
   * A transaction commits at most once, after its delivery and mixingTime more, with the delivered value and a
   * secret that hashes to the delivered hash; its state is gone then and never comes back.
   */
  lemma CommitsOnce(c: Config, inputs: seq<Input>, i: nat, j: nat)
    requires c.Sound() && c.mixingTime >= 1
    ensures CommitsAre(c, Run(c, inputs).p, i, j)
  {
    RunKeepsInv(c, inputs);
    InvGivesCommits(c, Run(c, inputs).p, i, j);
  }

  ghost predicate CommitsAre(c: Config, p: Process, i: nat, j: nat) {
    && |SecretsOf(p.commits)| == |p.commits| == |p.committed|
    && (i < j < |p.commits| ==> p.commits[i].instance != p.commits[j].instance)
    && (i < |p.commits| ==>
          var Commit(b, x) := p.commits[i];
          && b in p.committed && b in p.delivered && b in p.toCheckpoint && b !in p.log
          && p.committed[b] == p.delivered[b].value && HashOf(x) == p.delivered[b].xHash
          && p.deliveredCount - p.toCheckpoint[b] >= c.mixingTime)
  }

  lemma InvGivesCommits(c: Config, p: Process, i: nat, j: nat)
    requires Inv(c, p)
    ensures CommitsAre(c, p, i, j)
  {
    ListedCount(p.commits, p.committed);
  }

  lemma WithoutOne<K, V>(m: map<K, V>, k: K)
    requires k in m
    ensures |m| == |m - {k}| + 1
  {
    assert (m - {k}).Keys == m.Keys - {k};
  }

  lemma {:induction false} ListedCount(commits: seq<Commit>, committed: map<Instance, int32>)
    requires Listed(commits, committed)
    ensures |committed| == |commits|
  {
    if commits == [] {
      assert committed == map[];
    } else {
      var k, b := |commits| - 1, commits[|commits| - 1].instance;
      var rest := committed - {b};
      ListedShrinks(commits, committed);
      ListedCount(commits[..k], rest);
      WithoutOne(committed, b);
    }
  }

  lemma ListedShrinks(commits: seq<Commit>, committed: map<Instance, int32>)
    requires commits != [] && Listed(commits, committed)
    ensures Listed(commits[..|commits| - 1], committed - {commits[|commits| - 1].instance})
  {
    var k, b := |commits| - 1, commits[|commits| - 1].instance;
    forall d | d in committed - {b}
      ensures exists i :: 0 <= i < k && commits[..k][i].instance == d
    {
      var i :| 0 <= i < |commits| && commits[i].instance == d;
      assert commits[..k][i].instance == d;
    }
  }

  /**
   * In every run, whatever message brings a delivery about, also one that is the first of its instance: the delivery
   * finds the state of the transaction whose reveal it brings due.
   */
  lemma RevealFindsItsState(c: Config, inputs: seq<Input>, sender: Id, b: Instance, m: ProtocolMessage)
    requires c.Sound() && c.mixingTime >= 1
    requires var p := Run(c, inputs).p;
             && !p.halted && b !in p.committed
             && React(c, b, Counted(Register(c, p, b)), sender, m).verdict == Deliver
    ensures var p := Run(c, inputs).p;
            var r := React(c, b, Counted(Register(c, p, b)), sender, m);
            FindsItsState(c, WithState(p, b, r.st), b, m.broadcast)
  {
    var p := Run(c, inputs).p;
    RunKeepsInv(c, inputs);
    DeliveryFindsItsState(c, p, sender, b, m, Register(c, p, b));
  }

  lemma DeliveryFindsItsState(
    c: Config, p: Process, sender: Id, b: Instance, m: ProtocolMessage, st: State)
    requires c.Sound() && c.mixingTime >= 1 && Inv(c, p) && !p.halted && b !in p.committed
    requires b in p.log ==> st == p.log[b]
    requires b !in p.log ==> st.stage == INITIAL_STAGE
    requires React(c, b, Counted(st), sender, m).verdict == Deliver
    ensures FindsItsState(c, WithState(p, b, React(c, b, Counted(st), sender, m).st), b, m.broadcast)
  {
    var r := React(c, b, Counted(st), sender, m);
    var q := WithState(p, b, r.st);
    ReactMoves(c, b, Counted(st), sender, m);
    TouchKeepsInv(c, p, q, b);
    assert b !in q.delivered;
    DueIsLogged(c, q, b, m.broadcast);
  }
}
