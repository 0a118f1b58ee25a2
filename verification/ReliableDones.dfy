/**
 * What a process says about secrets over a run: every DONE carries a secret that hashes to what was delivered, and
 * no transaction commits without its secret having gone out in a DONE.
 */
module ReliableDones {
  import opened GoIntegers
  import opened Quorums
  import opened Reliable
  import opened ReliableRuns
  import opened ReliableTraces

  predicate IsDone(y: Send) {
    y.ToSet? && y.content.Commitment? && y.content.c.Done?
  }

  /** Every DONE sent is for a delivered instance, with the hash that was delivered. */
  ghost predicate Truthful(delivered: map<Instance, Broadcast>, trace: seq<Send>) {
    forall y | y in trace && IsDone(y) ::
      y.instance in delivered && HashOf(y.content.c.x) == delivered[y.instance].xHash
  }

  /** Every committed secret has been sent as DONE for its instance. */
  ghost predicate Announced(commits: seq<Commit>, trace: seq<Send>) {
    forall i | 0 <= i < |commits| :: Told(trace, commits[i].instance, commits[i].x)
  }

  ghost predicate Told(trace: seq<Send>, b: Instance, x: seq<int32>) {
    exists y :: y in trace && IsDone(y) && y.instance == b && y.content.c.x == x
  }

  /** Telling the witnesses and committing go together: no state is left at that stage. */
  ghost predicate NoneWaiting(log: map<Instance, State>) {
    forall b | b in log :: log[b].revealStage != SentDoneToWitnesses
  }

  ghost predicate DoneInv(p: Process, trace: seq<Send>) {
    NoneWaiting(p.log) && Truthful(p.delivered, trace) && Announced(p.commits, trace)
  }

  // ---------------------------------------------------------------- reactions

  ghost predicate TellsOnly(out: seq<Send>, b: Instance, xHash: int32) {
    forall y | y in out && IsDone(y) :: y.instance == b && HashOf(y.content.c.x) == xHash
  }

  ghost predicate Honest(b: Instance, r: Reaction, xHash: int32) {
    && TellsOnly(r.out, b, xHash)
    && (if r.verdict.CommitTo? then Told(r.out, b, r.verdict.x) else r.st.revealStage != SentDoneToWitnesses)
  }

  lemma RebuildHonest(c: Config, b: Instance, st: State, xHash: int32)
    requires st.revealStage != SentDoneToWitnesses
    ensures Honest(b, Rebuild(c, b, st, xHash), xHash)
  {
  }

  lemma RevealHonest(c: Config, b: Instance, st: State, sender: Id, share: Share, xHash: int32)
    requires st.revealStage != SentDoneToWitnesses
    ensures Honest(b, OnReveal(c, b, st, sender, share, xHash), xHash)
  {
    var shares := if st.decryptedShares == [] then seq(c.n, _ => []) else st.decryptedShares;
    if sender < |shares| {
      RebuildHonest(c, b, st.(revealFromProcesses := st.revealFromProcesses + {sender},
                              decryptedShares := shares[sender := share]), xHash);
    }
  }

  lemma DoneHonest(c: Config, b: Instance, st: State, sender: Id, x: seq<int32>, xHash: int32, age: int)
    requires st.revealStage != SentDoneToWitnesses
    ensures Honest(b, OnDone(c, b, st, sender, x, xHash, age), xHash)
  {
    var r := OnDone(c, b, st, sender, x, xHash, age);
    if r.verdict.CommitTo? {
      var y := r.out[|r.out| - 1];
      assert y in r.out && IsDone(y) && y.instance == b && y.content.c.x == x;
    }
  }

  lemma FailedHonest(c: Config, b: Instance, st: State, sender: Id, xHash: int32)
    requires st.revealStage != SentDoneToWitnesses
    ensures Honest(b, OnFailed(c, b, st, sender), xHash)
  {
  }

  lemma ReactionHonest(c: Config, p: Process, sender: Id, b: Instance, m: CommitmentMessage, st: State)
    requires b in p.delivered && st.revealStage != SentDoneToWitnesses
    ensures Honest(b, ReactionTo(c, p, sender, b, m, st), p.delivered[b].xHash)
  {
    var xHash := p.delivered[b].xHash;
    match m
    case Reveal(share) => RevealHonest(c, b, st, sender, share, xHash);
    case Done(x) => DoneHonest(c, b, st, sender, x, xHash, p.deliveredCount - Checkpoint(p, b));
    case Failed => FailedHonest(c, b, st, sender, xHash);
  }

  lemma ProtocolKeepsRevealStage(c: Config, b: Instance, st: State, sender: Id, m: ProtocolMessage)
    ensures React(c, b, st, sender, m).st.revealStage == st.revealStage
  {
    match m.kind
    case NOTIFY =>
    case ECHO_FROM_WITNESS =>
    case ECHO_FROM_PROCESS =>
    case READY_FROM_WITNESS =>
    case READY_FROM_PROCESS =>
    case VALIDATE =>
  }

  // ---------------------------------------------------------------- one step

  ghost predicate NoDones(out: seq<Send>) {
    forall y | y in out :: !IsDone(y)
  }

  lemma TruthfulExtends(delivered: map<Instance, Broadcast>, trace: seq<Send>, out: seq<Send>, b: Instance)
    requires Truthful(delivered, trace)
    requires NoDones(out) || (b in delivered && TellsOnly(out, b, delivered[b].xHash))
    ensures Truthful(delivered, trace + out)
  {
  }

  lemma AnnouncedExtends(commits: seq<Commit>, trace: seq<Send>, out: seq<Send>)
    requires Announced(commits, trace)
    ensures Announced(commits, trace + out)
  {
    forall i | 0 <= i < |commits|
      ensures Told(trace + out, commits[i].instance, commits[i].x)
    {
      assert Told(trace, commits[i].instance, commits[i].x);
      var y :| y in trace && IsDone(y) && y.instance == commits[i].instance && y.content.c.x == commits[i].x;
      assert y in trace + out;
    }
  }

  lemma CommitAnnounced(commits: seq<Commit>, trace: seq<Send>, out: seq<Send>, b: Instance, x: seq<int32>)
    requires Announced(commits, trace) && Told(out, b, x)
    ensures Announced(commits + [Commit(b, x)], trace + out)
  {
    AnnouncedExtends(commits, trace, out);
    var y :| y in out && IsDone(y) && y.instance == b && y.content.c.x == x;
    assert y in trace + out;
  }

  /** A step that says nothing about secrets and commits nothing. */
  lemma SilentStep(p: Process, p': Process, trace: seq<Send>, out: seq<Send>)
    requires DoneInv(p, trace) && NoDones(out)
    requires p'.delivered == p.delivered && p'.commits == p.commits && NoneWaiting(p'.log)
    ensures DoneInv(p', trace + out)
  {
    AnnouncedExtends(p.commits, trace, out);
  }

  lemma Associates<T>(a: seq<T>, b: seq<T>, c: seq<T>)
    ensures a + (b + c) == a + b + c
  {
  }

  lemma ApplyKeepsDones(p: Process, b: Instance, r: Reaction, trace: seq<Send>)
    requires DoneInv(p, trace) && b in p.delivered && Honest(b, r, p.delivered[b].xHash)
    ensures DoneInv(Apply(p, b, r).p, trace + r.out)
  {
    TruthfulExtends(p.delivered, trace, r.out, b);
    AnnouncedExtends(p.commits, trace, r.out);
    if r.verdict.CommitTo? {
      CommitAnnounced(p.commits, trace, r.out, b, r.verdict.x);
    }
  }

  lemma CommitmentKeepsDones(
    c: Config, p: Process, sender: Id, b: Instance, m: CommitmentMessage, st: State, trace: seq<Send>)
    requires DoneInv(p, trace) && st.revealStage != SentDoneToWitnesses
    ensures var s := CommitmentOn(c, p, sender, b, m, st); DoneInv(s.p, trace + s.out)
  {
    if b in p.delivered {
      var r := ReactionTo(c, p, sender, b, m, Counted(st));
      ReactionHonest(c, p, sender, b, m, Counted(st));
      ApplyKeepsDones(p, b, r, trace);
      ApplyOutput(p, b, r);
    } else {
      assert trace + [] == trace;
    }
  }

  lemma RegisterWaitsForNone(c: Config, p: Process, b: Instance)
    requires c.Sound() && NoneWaiting(p.log)
    ensures Register(c, p, b).revealStage != SentDoneToWitnesses
  {
  }

  lemma HandleCommitmentKeepsDones(
    c: Config, p: Process, sender: Id, b: Instance, m: CommitmentMessage, trace: seq<Send>)
    requires c.Sound() && DoneInv(p, trace)
    ensures var s := HandleCommitment(c, p, sender, b, m); DoneInv(s.p, trace + s.out)
  {
    assert trace + [] == trace;
    if !p.halted && b !in p.committed && b.author < c.n {
      var st := Register(c, p, b);
      RegisterWaitsForNone(c, p, b);
      CommitmentKeepsDones(c, p, sender, b, m, st, trace);
      assert HandleCommitment(c, p, sender, b, m) == CommitmentOn(c, p, sender, b, m, st);
    }
  }

  lemma {:induction false} ReplayKeepsDones(
    c: Config, p: Process, b: Instance, deferred: seq<Pending>, trace: seq<Send>)
    requires c.Sound() && DoneInv(p, trace)
    ensures var s := Replay(c, p, b, deferred); DoneInv(s.p, trace + s.out)
  {
    if deferred == [] {
      assert trace + [] == trace;
    } else {
      var k := |deferred| - 1;
      var before := Replay(c, p, b, deferred[..k]);
      var last := HandleCommitment(c, before.p, deferred[k].sender, b, deferred[k].m);
      ReplayKeepsDones(c, p, b, deferred[..k], trace);
      HandleCommitmentKeepsDones(c, before.p, deferred[k].sender, b, deferred[k].m, trace + before.out);
      Associates(trace, before.out, last.out);
    }
  }

  /** Delivering b says nothing yet about its secret: no DONE can have gone out for it before. */
  lemma RecordKeepsDones(p: Process, b: Instance, bm: Broadcast, trace: seq<Send>)
    requires DoneInv(p, trace) && b !in p.delivered
    ensures DoneInv(Recorded(p, b, bm), trace)
  {
  }

  lemma DueSaysNothing(c: Config, p: Process)
    ensures var s := RevealDue(c, p);
            NoDones(s.out) && s.p.delivered == p.delivered && s.p.commits == p.commits && s.p.log == p.log
  {
  }

  lemma StillNoneWaiting(p: Process, b: Instance)
    requires NoneWaiting(p.log)
    ensures NoneWaiting(PendingCleared(p, b).log) && NoneWaiting(StageSet(p, b).log)
  {
  }

  lemma FinishKeepsDones(c: Config, p: Process, b: Instance, trace: seq<Send>)
    requires DoneInv(p, trace)
    ensures var s := RevealDue(c, PendingCleared(p, b)); DoneInv(StageSet(s.p, b), trace + s.out)
  {
    var q := PendingCleared(p, b);
    var s := RevealDue(c, q);
    StillNoneWaiting(p, b);
    DueSaysNothing(c, q);
    StillNoneWaiting(s.p, b);
    assert q.delivered == p.delivered && q.commits == p.commits;
    SilentStep(p, StageSet(s.p, b), trace, s.out);
  }

  lemma DeliverKeepsDones(c: Config, p: Process, b: Instance, bm: Broadcast, trace: seq<Send>)
    requires c.Sound() && DoneInv(p, trace) && b in p.log && b !in p.delivered
    ensures var s := DeliverInstance(c, p, b, bm); DoneInv(StageSet(s.p, b), trace + s.out)
  {
    var replayed := Replay(c, Recorded(p, b, bm), b, p.log[b].pending);
    var due := RevealDue(c, PendingCleared(replayed.p, b));
    RecordKeepsDones(p, b, bm, trace);
    ReplayKeepsDones(c, Recorded(p, b, bm), b, p.log[b].pending, trace);
    FinishKeepsDones(c, replayed.p, b, trace + replayed.out);
    Associates(trace, replayed.out, due.out);
  }

  lemma ReactionKeepsDones(
    c: Config, p: Process, b: Instance, bm: Broadcast, r: Reaction, trace: seq<Send>)
    requires c.Sound() && DoneInv(p, trace) && NoDones(r.out) && r.st.revealStage != SentDoneToWitnesses
    requires r.verdict == Deliver ==> b !in p.delivered
    requires !r.verdict.CommitTo?
    ensures var s := ApplyProtocol(c, p, b, bm, r); DoneInv(s.p, trace + s.out)
  {
    var q := WithState(p, b, r.st);
    SilentStep(p, q, trace, r.out);
    if r.verdict == Deliver {
      var d := DeliverInstance(c, q, b, bm);
      DeliverKeepsDones(c, q, b, bm, trace + r.out);
      Associates(trace, r.out, d.out);
    }
  }

  lemma PhasesSayNothing(c: Config, b: Instance, st: State, r: Reaction, bm: Broadcast)
    requires Phases(c, b, st, r, bm)
    ensures NoDones(r.out)
  {
  }

  lemma UndeliveredBelow(c: Config, p: Process, b: Instance, st: State)
    requires c.Sound() && Inv(c, p) && !p.halted && b !in p.committed && st == Counted(Register(c, p, b))
    ensures st.stage != DELIVERED_STAGE ==> b !in p.delivered
  {
    assert Kept(p.log, p.delivered, p.committed);
  }

  lemma HandleProtocolKeepsDones(
    c: Config, p: Process, sender: Id, b: Instance, m: ProtocolMessage, trace: seq<Send>)
    requires c.Sound() && Inv(c, p) && DoneInv(p, trace)
    ensures var s := HandleProtocol(c, p, sender, b, m); DoneInv(s.p, trace + s.out)
  {
    assert trace + [] == trace;
    if !p.halted && b !in p.committed && b.author < c.n {
      var st := Counted(Register(c, p, b));
      var r := React(c, b, st, sender, m);
      RegisterWaitsForNone(c, p, b);
      ReactMoves(c, b, st, sender, m);
      PhasesSayNothing(c, b, st, r, m.broadcast);
      ProtocolKeepsRevealStage(c, b, st, sender, m);
      UndeliveredBelow(c, p, b, st);
      ReactionKeepsDones(c, p, b, m.broadcast, r, trace);
      assert HandleProtocol(c, p, sender, b, m) == ApplyProtocol(c, p, b, m.broadcast, r);
    }
  }

  lemma BroadcastKeepsDones(c: Config, p: Process, value: int32, x: seq<int32>, st: State, trace: seq<Send>)
    requires |x| == c.DataShares() <= c.n && DoneInv(p, trace) && st.revealStage != SentDoneToWitnesses
    ensures var s := BroadcastOn(c, p, value, x, st); DoneInv(s.p, trace + s.out)
  {
    var b, s := Instance(c.self, p.transactionCounter), BroadcastOn(c, p, value, x, st);
    assert s.p.log == p.log || s.p.log == p.log[b := st];
    SilentStep(p, s.p, trace, s.out);
  }

  lemma TakeKeepsDones(c: Config, p: Process, i: Input, trace: seq<Send>)
    requires c.Sound() && Inv(c, p) && DoneInv(p, trace)
    ensures var s := Take(c, p, i); DoneInv(s.p, trace + s.out)
  {
    assert trace + [] == trace;
    if Possible(c, p, i) && !p.halted {
      match i
      case OnProtocol(sender, b, m) => HandleProtocolKeepsDones(c, p, sender, b, m, trace);
      case OnCommitment(sender, b, m) => HandleCommitmentKeepsDones(c, p, sender, b, m, trace);
      case Ask(value, x) => BroadcastKeepsDones(c, p, value, x, FreshState(c, p), trace);
    }
  }

  /**
   * In every run, whatever the others send: a DONE goes out only for a delivered instance and only with a secret
   * that hashes to the delivered hash, and a transaction commits only with a secret it has sent in a DONE.
   */
  lemma {:induction false} DonesAreTrue(c: Config, inputs: seq<Input>)
    requires c.Sound() && c.mixingTime >= 1
    ensures DoneInv(Run(c, inputs).p, Run(c, inputs).out)
  {
    if inputs != [] {
      var k := |inputs| - 1;
      var before := Run(c, inputs[..k]);
      DonesAreTrue(c, inputs[..k]);
      RunKeepsInv(c, inputs[..k]);
      TakeKeepsDones(c, before.p, inputs[k], before.out);
    }
  }

  /**
   * In every run, a DONE that commits its instance goes on, as it came, to all of the process's potential witnesses.
   */
  lemma CommitTellsWitnesses(c: Config, inputs: seq<Input>, sender: Id, b: Instance, x: seq<int32>)
    requires c.Sound() && c.mixingTime >= 1 && b.author < c.n
    requires var p := Run(c, inputs).p;
             && !p.halted && b in p.log && b in p.delivered && b !in p.committed
             && sender in p.log[b].own && HashOf(x) == p.delivered[b].xHash
             && p.deliveredCount - Checkpoint(p, b) >= c.mixingTime
    ensures var p := Run(c, inputs).p;
            var s := HandleCommitment(c, p, sender, b, Done(x));
            && b in s.p.committed && s.out != []
            && s.out[|s.out| - 1] == ToSet(b, p.log[b].pot, Commitment(Done(x)))
  {
    var p := Run(c, inputs).p;
    DonesAreTrue(c, inputs);
    CommitsExactly(c, p, sender, b, Done(x));
    var st := Counted(p.log[b]);
    var r := ReactionTo(c, p, sender, b, Done(x), st);
    TellsOnCommit(c, b, st, sender, x, p.delivered[b].xHash, p.deliveredCount - Checkpoint(p, b));
    ApplyOutput(p, b, r);
    assert HandleCommitment(c, p, sender, b, Done(x)) == Apply(p, b, r);
  }

  lemma TellsOnCommit(c: Config, b: Instance, st: State, sender: Id, x: seq<int32>, xHash: int32, age: int)
    requires st.revealStage != SentDoneToWitnesses
    requires sender in st.own && HashOf(x) == xHash && age >= c.mixingTime
    ensures var r := OnDone(c, b, st, sender, x, xHash, age);
            r.out != [] && r.out[|r.out| - 1] == ToSet(b, st.pot, Commitment(Done(x)))
  {
  }
}
