/**
 * The secret round trip over whole runs: a witness with an honest author's ciphertexts, among any other inputs for any
 * instances, before and after the delivery, deferred messages and commits included.
 */
module ReliableRoundTrip {
  import opened GoIntegers
  import opened Options
  import opened Quorums
  import opened Reliable
  import opened ReliableRuns
  import opened ReliableSecrets
  import opened ReliableTraces
  import opened ReliableReveals

  // ---------------------------------------------------------------- the end of a delivery

  lemma DueLeaves(c: Config, p: Process, b: Instance)
    ensures Quiet(RevealDue(c, p).out, b) && RevealDue(c, p).p.log == p.log
  {
  }

  lemma FinishLeaves(c: Config, p: Process, b: Instance)
    ensures var s := RevealDue(c, PendingCleared(p, b));
            var log := StageSet(s.p, b).log;
            && Quiet(s.out, b)
            && (b in log <==> b in p.log)
            && (b in log ==> log[b] == p.log[b].(pending := log[b].pending, stage := log[b].stage))
  {
    var q := PendingCleared(p, b);
    DueLeaves(c, q, b);
    ClearedLeaves(p, b);
    StageSetLeaves(RevealDue(c, q).p, b);
  }

  lemma ClearedLeaves(p: Process, b: Instance)
    ensures var log := PendingCleared(p, b).log;
            (b in log <==> b in p.log) && (b in log ==> log[b] == p.log[b].(pending := log[b].pending))
  {
  }

  lemma StageSetLeaves(p: Process, b: Instance)
    ensures var log := StageSet(p, b).log;
            (b in log <==> b in p.log) && (b in log ==> log[b] == p.log[b].(stage := log[b].stage))
  {
  }

  lemma FinishSettles(
    c: Config, p: Process, b: Instance, out: seq<Send>, heard: seq<Pending>, x: seq<int32>, data: seq<Share>)
    requires b in p.delivered && Settled(c, p, out, heard, b, x, data)
    ensures var s := RevealDue(c, PendingCleared(p, b));
            && StageSet(s.p, b).delivered == p.delivered
            && Settled(c, StageSet(s.p, b), out + s.out, heard, b, x, data)
  {
    var s := RevealDue(c, PendingCleared(p, b));
    FinishLeaves(c, p, b);
    FinishDelivered(c, p, b);
    StillOutcome(c, b, out, s.out, heard, x, p.delivered[b].xHash);
  }

  lemma FinishDelivered(c: Config, p: Process, b: Instance)
    ensures StageSet(RevealDue(c, PendingCleared(p, b)).p, b).delivered == p.delivered
  {
    var q := PendingCleared(p, b);
    assert q.delivered == p.delivered;
    DueDelivers(c, q);
  }

  lemma DueDelivers(c: Config, p: Process)
    ensures RevealDue(c, p).p.delivered == p.delivered
  {
  }

  /** A delivery settles the instance, unless a deferred share was forged or the reveal that is due goes wrong. */
  lemma DeliverySettles(
    c: Config, decrypts: Id -> Share -> Option<Share>, p: Process, b: Instance, bm: Broadcast, out: seq<Send>,
    x: seq<int32>, data: seq<Share>)
    requires c.Sound() && c.mixingTime >= 1 && SoundLibraries(c, decrypts) && b.author < c.n
    requires !p.halted && b in p.log && b !in p.committed
    requires Holds(c, p.log[b], x, data) && Untouched(p.log[b]) && Quiet(out, b)
    requires forall d | d in p.log[b].pending :: d.sender < c.n
    ensures var s, deferred := DeliverInstance(c, p, b, bm), p.log[b].pending;
            && (ForgedIn(c, deferred, data, bm.xHash) ==> s.p.halted)
            && (!s.p.halted ==>
                  b in StageSet(s.p, b).delivered
                  && Settled(c, StageSet(s.p, b), out + s.out, deferred, b, x, data))
  {
    var q, deferred := Recorded(p, b, bm), p.log[b].pending;
    var replayed := Replay(c, q, b, deferred);
    var due := RevealDue(c, PendingCleared(replayed.p, b));
    ReplaySettles(c, decrypts, q, b, out, deferred, x, data);
    if !replayed.p.halted {
      FinishSettles(c, replayed.p, b, out + replayed.out, deferred, x, data);
      Regroup(out, replayed.out, due.out);
    }
  }

  // ---------------------------------------------------------------- other instances

  /** The instance an input is about. */
  function Subject(c: Config, p: Process, i: Input): Instance {
    match i
    case OnProtocol(_, b, _) => b
    case OnCommitment(_, b, _) => b
    case Ask(_, _) => Instance(c.self, p.transactionCounter)
  }

  ghost predicate SameAt(p: Process, p': Process, b: Instance) {
    && (b in p'.log <==> b in p.log) && (b in p.log ==> p'.log[b] == p.log[b])
    && (b in p'.delivered <==> b in p.delivered) && (b in p.delivered ==> p'.delivered[b] == p.delivered[b])
    && (b in p'.committed <==> b in p.committed)
  }

  ghost predicate About(out: seq<Send>, d: Instance) {
    forall y | y in out :: y.instance == d
  }

  lemma CommitmentAbout(c: Config, p: Process, sender: Id, d: Instance, m: CommitmentMessage, st: State)
    ensures About(CommitmentOn(c, p, sender, d, m, st).out, d)
  {
    if d in p.delivered {
      ApplyOutput(p, d, ReactionTo(c, p, sender, d, m, Counted(st)));
      match m {
        case Reveal(share) => RevealAbout(c, d, Counted(st), sender, share, p.delivered[d].xHash);
        case Done(y) =>
        case Failed =>
      }
    }
  }

  lemma RevealAbout(c: Config, d: Instance, st: State, sender: Id, share: Share, xHash: int32)
    ensures About(OnReveal(c, d, st, sender, share, xHash).out, d)
  {
  }

  lemma {:induction false} ReplayAbout(c: Config, p: Process, d: Instance, deferred: seq<Pending>)
    requires c.Sound()
    ensures About(Replay(c, p, d, deferred).out, d)
  {
    if deferred != [] {
      var k := |deferred| - 1;
      ReplayAbout(c, p, d, deferred[..k]);
      var q := Replay(c, p, d, deferred[..k]).p;
      CommitmentAbout(c, q, deferred[k].sender, d, deferred[k].m, Register(c, q, d));
    }
  }

  lemma PhasesQuiet(c: Config, d: Instance, st: State, r: Reaction, bm: Broadcast, b: Instance)
    requires Phases(c, d, st, r, bm)
    ensures Quiet(r.out, b)
  {
  }

  lemma DeliveryElsewhere(c: Config, p: Process, d: Instance, bm: Broadcast, b: Instance)
    requires c.Sound() && c.mixingTime >= 1 && d != b
    requires !p.halted && d in p.log && d !in p.committed && p.log[d].stage < DELIVERED_STAGE
    ensures var s := DeliverInstance(c, p, d, bm); SameAt(p, StageSet(s.p, d), b) && Quiet(s.out, b)
  {
    var replayed := Replay(c, Recorded(p, d, bm), d, p.log[d].pending);
    var due := RevealDue(c, PendingCleared(replayed.p, d));
    DeliverEffect(c, p, d, bm);
    ReplayAbout(c, Recorded(p, d, bm), d, p.log[d].pending);
    DueLeaves(c, PendingCleared(replayed.p, d), b);
    QuietConcat(replayed.out, due.out, b);
  }

  lemma ReactionElsewhere(c: Config, p: Process, d: Instance, bm: Broadcast, st: State, r: Reaction, b: Instance)
    requires c.Sound() && c.mixingTime >= 1 && d != b && !p.halted && d !in p.committed
    requires Moves(c, d, st, r, bm)
    ensures var s := ApplyProtocol(c, p, d, bm, r); SameAt(p, s.p, b) && Quiet(s.out, b)
  {
    PhasesQuiet(c, d, st, r, bm, b);
    if r.verdict == Deliver {
      var q := WithState(p, d, r.st);
      DeliveryElsewhere(c, q, d, bm, b);
      QuietConcat(r.out, DeliverInstance(c, q, d, bm).out, b);
    }
  }

  /** Inputs for other instances leave b alone and say nothing of it. */
  lemma TakeElsewhere(c: Config, p: Process, i: Input, b: Instance)
    requires c.Sound() && c.mixingTime >= 1 && Subject(c, p, i) != b
    ensures var s := Take(c, p, i); SameAt(p, s.p, b) && Quiet(s.out, b)
  {
    if Possible(c, p, i) && !p.halted {
      match i
      case OnProtocol(sender, d, m) => ProtocolElsewhere(c, p, sender, d, m, b);
      case OnCommitment(sender, d, m) => CommitmentElsewhere(c, p, sender, d, m, b);
      case Ask(value, x) => BroadcastElsewhere(c, p, value, x, FreshState(c, p), b);
    }
  }

  lemma ProtocolElsewhere(c: Config, p: Process, sender: Id, d: Instance, m: ProtocolMessage, b: Instance)
    requires c.Sound() && c.mixingTime >= 1 && d != b && !p.halted
    ensures var s := HandleProtocol(c, p, sender, d, m); SameAt(p, s.p, b) && Quiet(s.out, b)
  {
    if d !in p.committed && d.author < c.n {
      var st := Counted(Register(c, p, d));
      ReactMoves(c, d, st, sender, m);
      ReactionElsewhere(c, p, d, m.broadcast, st, React(c, d, st, sender, m), b);
    }
  }

  lemma CommitmentElsewhere(c: Config, p: Process, sender: Id, d: Instance, m: CommitmentMessage, b: Instance)
    requires c.Sound() && d != b && !p.halted
    ensures var s := HandleCommitment(c, p, sender, d, m); SameAt(p, s.p, b) && Quiet(s.out, b)
  {
    if d !in p.committed && d.author < c.n {
      var commit := CommitmentEffect(c, p, sender, d, m, Register(c, p, d));
      CommitmentAbout(c, p, sender, d, m, Register(c, p, d));
    }
  }

  lemma BroadcastElsewhere(c: Config, p: Process, value: int32, x: seq<int32>, st: State, b: Instance)
    requires |x| == c.DataShares() <= c.n && b != Instance(c.self, p.transactionCounter)
    ensures var s := BroadcastOn(c, p, value, x, st); SameAt(p, s.p, b) && Quiet(s.out, b)
  {
  }

  // ---------------------------------------------------------------- until there is something to decide

  /** What was taken in for an instance not yet delivered has been deferred; until something is, nothing is said. */
  ghost predicate Waiting(p: Process, out: seq<Send>, taken: seq<Pending>, b: Instance) {
    !p.halted && (b !in p.delivered || taken == []) ==>
      && Quiet(out, b)
      && if b in p.log then Untouched(p.log[b]) && p.log[b].pending == taken else taken == []
  }

  /** The protocol layer leaves the reveal alone, and a witness past its echo takes no other shares. */
  ghost predicate KeepsReveal(st: State, st': State) {
    && st'.revealStage == st.revealStage && st'.revealFromProcesses == st.revealFromProcesses
    && st'.decryptedShares == st.decryptedShares
    && (st.witnessStage >= SENT_ECHO_FROM_WITNESS ==> st'.encryptedShares == st.encryptedShares)
  }

  lemma ReactKeepsReveal(c: Config, b: Instance, st: State, sender: Id, m: ProtocolMessage)
    ensures KeepsReveal(st, React(c, b, st, sender, m).st)
  {
    match m.kind
    case NOTIFY =>
    case ECHO_FROM_WITNESS =>
    case ECHO_FROM_PROCESS =>
    case READY_FROM_WITNESS =>
    case READY_FROM_PROCESS =>
    case VALIDATE =>
  }

  lemma NothingMore(out: seq<Send>, taken: seq<Pending>)
    ensures out + [] == out && taken + [] == taken
  {
  }

  lemma TakesCommitment(c: Config, p: Process, b: Instance, d: Pending)
    requires c.Sound() && d.sender < c.n
    ensures Take(c, p, OnCommitment(d.sender, b, d.m)) == HandleCommitment(c, p, d.sender, b, d.m)
    ensures b !in p.committed ==> TakenIn(c, p, OnCommitment(d.sender, b, d.m), b) == [d]
  {
  }

  lemma TakeWaits(c: Config, p: Process, i: Input, out: seq<Send>, taken: seq<Pending>, b: Instance)
    requires c.Sound() && c.mixingTime >= 1 && Inv(c, p) && !p.halted && Waiting(p, out, taken, b)
    ensures var s := Take(c, p, i); Waiting(s.p, out + s.out, taken + TakenIn(c, p, i, b), b)
  {
    NothingMore(out, taken);
    if Subject(c, p, i) != b {
      TakeElsewhere(c, p, i, b);
      StillWaiting(p, Take(c, p, i).p, out, Take(c, p, i).out, taken, b);
    } else if !Possible(c, p, i) || b in p.committed {
      TakeNothing(c, p, i, b);
    } else {
      match i
      case OnProtocol(sender, _, m) => ProtocolWaits(c, p, sender, b, m, out, taken);
      case OnCommitment(sender, _, m) =>
        CommitmentWaits(c, p, sender, b, m, out, taken);
        TakesCommitment(c, p, b, Pending(sender, m));
      case Ask(value, x) => BroadcastWaits(c, p, value, x, FreshState(c, p), out, taken);
    }
  }

  lemma TakeNothing(c: Config, p: Process, i: Input, b: Instance)
    requires c.Sound() && Subject(c, p, i) == b && (!Possible(c, p, i) || b in p.committed)
    ensures Take(c, p, i) == Step(p, []) && TakenIn(c, p, i, b) == []
  {
  }

  lemma StillWaiting(
    p: Process, p': Process, out: seq<Send>, more: seq<Send>, taken: seq<Pending>, b: Instance)
    requires !p.halted && SameAt(p, p', b) && Quiet(more, b) && Waiting(p, out, taken, b)
    ensures Waiting(p', out + more, taken, b)
  {
    QuietConcat(out, more, b);
  }

  lemma ProtocolWaits(
    c: Config, p: Process, sender: Id, b: Instance, m: ProtocolMessage, out: seq<Send>, taken: seq<Pending>)
    requires c.Sound() && c.mixingTime >= 1 && Inv(c, p) && !p.halted && b !in p.committed
    requires Waiting(p, out, taken, b)
    ensures var s := HandleProtocol(c, p, sender, b, m); Waiting(s.p, out + s.out, taken, b)
  {
    if b.author < c.n {
      var st := Counted(Register(c, p, b));
      var r := React(c, b, st, sender, m);
      ReactMoves(c, b, st, sender, m);
      ReactKeepsReveal(c, b, st, sender, m);
      PhasesQuiet(c, b, st, r, m.broadcast, b);
      assert HandleProtocol(c, p, sender, b, m) == ApplyProtocol(c, p, b, m.broadcast, r);
      assert b in p.delivered ==> b in p.log && p.log[b].stage == DELIVERED_STAGE;
      ReactionWaits(c, p, b, m.broadcast, r, out, taken);
    }
  }

  lemma ReactionWaits(
    c: Config, p: Process, b: Instance, bm: Broadcast, r: Reaction, out: seq<Send>, taken: seq<Pending>)
    requires c.Sound() && c.mixingTime >= 1 && !p.halted && b !in p.committed
    requires Quiet(r.out, b)
    requires b !in p.delivered || taken == [] ==> Quiet(out, b) && Untouched(r.st) && r.st.pending == taken
    requires r.verdict == Deliver ==> r.st.stage < DELIVERED_STAGE
    requires !r.verdict.CommitTo?
    ensures var s := ApplyProtocol(c, p, b, bm, r); Waiting(s.p, out + s.out, taken, b)
  {
    QuietConcat(out, r.out, b);
    if r.verdict == Deliver {
      var q := WithState(p, b, r.st);
      DeliverEffect(c, q, b, bm);
      if taken == [] {
        EmptyDelivery(c, q, b, bm);
        QuietConcat(out + r.out, DeliverInstance(c, q, b, bm).out, b);
        Regroup(out, r.out, DeliverInstance(c, q, b, bm).out);
      }
    }
  }

  /** A delivery with nothing deferred. */
  lemma EmptyDelivery(c: Config, q: Process, b: Instance, bm: Broadcast)
    requires c.Sound() && b in q.log && q.log[b].pending == [] && Untouched(q.log[b])
    ensures var s := DeliverInstance(c, q, b, bm);
            var log := StageSet(s.p, b).log;
            Quiet(s.out, b) && b in log && Untouched(log[b]) && log[b].pending == []
  {
    var r := Recorded(q, b, bm);
    assert Replay(c, r, b, []) == Step(r, []);
    FinishLeaves(c, r, b);
    FinishPending(c, r, b);
    QuietConcat([], RevealDue(c, PendingCleared(r, b)).out, b);
  }

  lemma FinishPending(c: Config, p: Process, b: Instance)
    requires b in p.log && p.log[b].pending == []
    ensures var log := StageSet(RevealDue(c, PendingCleared(p, b)).p, b).log; b in log && log[b].pending == []
  {
    DueLeaves(c, PendingCleared(p, b), b);
  }

  lemma CommitmentWaits(
    c: Config, p: Process, sender: Id, b: Instance, m: CommitmentMessage, out: seq<Send>, taken: seq<Pending>)
    requires c.Sound() && Inv(c, p) && !p.halted && b !in p.committed && Waiting(p, out, taken, b)
    ensures var s := HandleCommitment(c, p, sender, b, m); Waiting(s.p, out + s.out, taken + [Pending(sender, m)], b)
  {
    if b in p.delivered {
      CommitmentDelivers(c, p, sender, b, m);
    } else if b.author < c.n {
      var st := Register(c, p, b);
      DeferredOnly(c, p, sender, b, m, st);
      NothingMore(out, taken);
    }
  }

  lemma CommitmentDelivers(c: Config, p: Process, sender: Id, b: Instance, m: CommitmentMessage)
    requires c.Sound() && !p.halted
    ensures HandleCommitment(c, p, sender, b, m).p.delivered == p.delivered
  {
    if b !in p.committed && b.author < c.n {
      var commit := CommitmentEffect(c, p, sender, b, m, Register(c, p, b));
    }
  }

  lemma DeferredOnly(c: Config, p: Process, sender: Id, b: Instance, m: CommitmentMessage, st: State)
    requires c.Sound() && !p.halted && b.author < c.n && b !in p.committed && b !in p.delivered
    requires st == Register(c, p, b)
    ensures HandleCommitment(c, p, sender, b, m)
            == Step(WithState(p, b, Counted(st).(pending := st.pending + [Pending(sender, m)])), [])
  {
  }

  lemma BroadcastWaits(
    c: Config, p: Process, value: int32, x: seq<int32>, st: State, out: seq<Send>, taken: seq<Pending>)
    requires |x| == c.DataShares() <= c.n && Untouched(st) && st.pending == [] && !p.halted
    requires var b := Instance(c.self, p.transactionCounter); b !in p.log && Waiting(p, out, taken, b)
    ensures var s := BroadcastOn(c, p, value, x, st);
            Waiting(s.p, out + s.out, taken, Instance(c.self, p.transactionCounter))
  {
    QuietConcat(out, BroadcastOn(c, p, value, x, st).out, Instance(c.self, p.transactionCounter));
  }

  lemma {:induction false} RunWaits(c: Config, inputs: seq<Input>, b: Instance)
    requires c.Sound() && c.mixingTime >= 1
    ensures Waiting(Run(c, inputs).p, Run(c, inputs).out, Taken(c, inputs, b), b)
  {
    if inputs != [] {
      var k := |inputs| - 1;
      var before := Run(c, inputs[..k]);
      RunWaits(c, inputs[..k], b);
      RunKeepsInv(c, inputs[..k]);
      HaltedStays(c, before.p, inputs[k]);
      if !before.p.halted {
        TakeWaits(c, before.p, inputs[k], before.out, Taken(c, inputs[..k], b), b);
      }
    }
  }

  // ---------------------------------------------------------------- from the shares on

  /** A witness that holds the ciphertexts, before and after the delivery. */
  ghost predicate Witnessing(
    c: Config, p: Process, out: seq<Send>, taken: seq<Pending>, b: Instance, x: seq<int32>, data: seq<Share>)
  {
    if b !in p.delivered then b in p.log && Holds(c, p.log[b], x, data)
    else Settled(c, p, out, taken, b, x, data)
  }

  /** The witness has its shares in time: before the delivery, or before it takes in anything of the secret. */
  ghost predicate InTime(c: Config, inputs: seq<Input>, b: Instance, x: seq<int32>, data: seq<Share>)
    requires c.Sound()
  {
    var p := Run(c, inputs).p;
    && b in p.log && Holds(c, p.log[b], x, data)
    && (b !in p.delivered || Taken(c, inputs, b) == [])
  }

  lemma InTimeWitnesses(c: Config, inputs: seq<Input>, b: Instance, x: seq<int32>, data: seq<Share>)
    requires c.Sound() && c.mixingTime >= 1 && !Run(c, inputs).p.halted && InTime(c, inputs, b, x, data)
    ensures Witnessing(c, Run(c, inputs).p, Run(c, inputs).out, Taken(c, inputs, b), b, x, data)
  {
    var s, taken := Run(c, inputs), Taken(c, inputs, b);
    RunWaits(c, inputs, b);
    if b in s.p.delivered {
      NothingTakenSettles(c, s.p, s.out, b, x, data);
      assert taken == [];
    }
  }

  lemma NothingTakenSettles(c: Config, p: Process, out: seq<Send>, b: Instance, x: seq<int32>, data: seq<Share>)
    requires b in p.delivered && b in p.log && Holds(c, p.log[b], x, data) && Untouched(p.log[b]) && Quiet(out, b)
    ensures Settled(c, p, out, [], b, x, data)
  {
  }

  lemma StillWitnessing(
    c: Config, p: Process, p': Process, out: seq<Send>, more: seq<Send>, taken: seq<Pending>, b: Instance,
    x: seq<int32>, data: seq<Share>)
    requires SameAt(p, p', b) && Quiet(more, b) && Witnessing(c, p, out, taken, b, x, data)
    ensures Witnessing(c, p', out + more, taken, b, x, data)
  {
    if b in p.delivered {
      StillOutcome(c, b, out, more, taken, x, p.delivered[b].xHash);
    }
  }

  /** An author that has heard of an instance does not start it. */
  lemma NotAskedAgain(
    c: Config, p: Process, out: seq<Send>, taken: seq<Pending>, b: Instance, x: seq<int32>, data: seq<Share>)
    requires Inv(c, p) && !p.halted && Witnessing(c, p, out, taken, b, x, data)
    ensures b in p.log || b in p.committed
  {
  }

  lemma CommitmentWitnesses(
    c: Config, decrypts: Id -> Share -> Option<Share>, p: Process, sender: Id, b: Instance, m: CommitmentMessage,
    out: seq<Send>, taken: seq<Pending>, x: seq<int32>, data: seq<Share>)
    requires c.Sound() && SoundLibraries(c, decrypts) && Inv(c, p) && !p.halted && b !in p.committed
    requires Witnessing(c, p, out, taken, b, x, data) && sender < c.n
    ensures var s := HandleCommitment(c, p, sender, b, m);
            !s.p.halted ==> Witnessing(c, s.p, out + s.out, taken + [Pending(sender, m)], b, x, data)
  {
    if b.author < c.n {
      assert b in p.log;
      if b in p.delivered {
        HandledSettles(c, decrypts, p, b, out, taken, x, data, Pending(sender, m));
      } else {
        DeferredOnly(c, p, sender, b, m, p.log[b]);
      }
    }
  }

  lemma ProtocolWitnesses(
    c: Config, decrypts: Id -> Share -> Option<Share>, p: Process, sender: Id, b: Instance, m: ProtocolMessage,
    out: seq<Send>, taken: seq<Pending>, x: seq<int32>, data: seq<Share>)
    requires c.Sound() && c.mixingTime >= 1 && SoundLibraries(c, decrypts) && Inv(c, p) && !p.halted
    requires b !in p.committed && forall d | d in taken :: d.sender < c.n
    requires Waiting(p, out, taken, b) && Witnessing(c, p, out, taken, b, x, data)
    ensures var s := HandleProtocol(c, p, sender, b, m);
            !s.p.halted ==> Witnessing(c, s.p, out + s.out, taken, b, x, data)
  {
    if b.author < c.n {
      NotAskedAgain(c, p, out, taken, b, x, data);
      var st := Counted(p.log[b]);
      var r := React(c, b, st, sender, m);
      ReactMoves(c, b, st, sender, m);
      ReactKeepsReveal(c, b, st, sender, m);
      PhasesQuiet(c, b, st, r, m.broadcast, b);
      ReactionWitnesses(c, decrypts, p, b, m.broadcast, r, out, taken, x, data);
      assert HandleProtocol(c, p, sender, b, m) == ApplyProtocol(c, p, b, m.broadcast, r);
    }
  }

  lemma ReactionWitnesses(
    c: Config, decrypts: Id -> Share -> Option<Share>, p: Process, b: Instance, bm: Broadcast, r: Reaction,
    out: seq<Send>, taken: seq<Pending>, x: seq<int32>, data: seq<Share>)
    requires c.Sound() && c.mixingTime >= 1 && SoundLibraries(c, decrypts) && Inv(c, p) && !p.halted
    requires b in p.log && b.author < c.n && forall d | d in taken :: d.sender < c.n
    requires Waiting(p, out, taken, b) && Witnessing(c, p, out, taken, b, x, data)
    requires KeepsReveal(p.log[b], r.st) && r.st.pot == p.log[b].pot && r.st.pending == p.log[b].pending
    requires p.log[b].witnessStage <= r.st.witnessStage && Quiet(r.out, b) && !r.verdict.CommitTo?
    requires r.verdict == Deliver ==> b !in p.delivered && r.st.stage < DELIVERED_STAGE
    ensures var s := ApplyProtocol(c, p, b, bm, r);
            !s.p.halted ==> Witnessing(c, s.p, out + s.out, taken, b, x, data)
  {
    var q := WithState(p, b, r.st);
    if r.verdict == Deliver {
      var d := DeliverInstance(c, q, b, bm);
      DeliverEffect(c, q, b, bm);
      QuietConcat(out, r.out, b);
      DeliverySettles(c, decrypts, q, b, bm, out + r.out, x, data);
      Regroup(out, r.out, d.out);
    } else if b in p.delivered {
      StillOutcome(c, b, out, r.out, taken, x, p.delivered[b].xHash);
    }
  }

  lemma TakeWitnesses(
    c: Config, decrypts: Id -> Share -> Option<Share>, p: Process, i: Input, out: seq<Send>, taken: seq<Pending>,
    b: Instance, x: seq<int32>, data: seq<Share>)
    requires c.Sound() && c.mixingTime >= 1 && SoundLibraries(c, decrypts) && Inv(c, p) && !p.halted
    requires Waiting(p, out, taken, b) && Witnessing(c, p, out, taken, b, x, data)
    requires forall d | d in taken :: d.sender < c.n
    ensures var s := Take(c, p, i);
            !s.p.halted ==> Witnessing(c, s.p, out + s.out, taken + TakenIn(c, p, i, b), b, x, data)
  {
    var s := Take(c, p, i);
    NothingMore(out, taken);
    if Subject(c, p, i) != b {
      TakeElsewhere(c, p, i, b);
      StillWitnessing(c, p, s.p, out, s.out, taken, b, x, data);
    } else if !Possible(c, p, i) || b in p.committed {
      TakeNothing(c, p, i, b);
    } else {
      match i
      case OnProtocol(sender, _, m) => ProtocolWitnesses(c, decrypts, p, sender, b, m, out, taken, x, data);
      case OnCommitment(sender, _, m) =>
        CommitmentWitnesses(c, decrypts, p, sender, b, m, out, taken, x, data);
        TakesCommitment(c, p, b, Pending(sender, m));
      case Ask(value, y) => NotAskedAgain(c, p, out, taken, b, x, data);
    }
  }

  /** How a witness comes to hold the ciphertexts: an honest NOTIFY, the first it takes. */
  lemma NotifyGivesShares(
    c: Config, p: Process, sender: Id, b: Instance, bm: Broadcast, x: seq<int32>, data: seq<Share>,
    shares: seq<Share>)
    requires c.Sound() && !p.halted && b.author < c.n && b !in p.committed
    requires var st := Register(c, p, b); c.self in st.pot && st.witnessStage == INITIAL_WITNESS_STAGE
    requires Honest(c, x, data, shares)
    ensures var q := HandleProtocol(c, p, sender, b, ProtocolMessage(NOTIFY, bm, shares)).p;
            !q.halted && q.delivered == p.delivered && b in q.log && Holds(c, q.log[b], x, data)
  {
    var m := ProtocolMessage(NOTIFY, bm, shares);
    var r := OnNotify(c, b, Counted(Register(c, p, b)), bm, shares);
    assert r.verdict == Go && Holds(c, r.st, x, data);
    assert HandleProtocol(c, p, sender, b, m) == ApplyProtocol(c, p, b, bm, r);
  }

  lemma {:induction false} RunWitnesses(
    c: Config, decrypts: Id -> Share -> Option<Share>, inputs: seq<Input>, k: nat, b: Instance, x: seq<int32>,
    data: seq<Share>)
    requires c.Sound() && c.mixingTime >= 1 && SoundLibraries(c, decrypts) && k <= |inputs|
    requires InTime(c, inputs[..k], b, x, data) && !Run(c, inputs).p.halted
    ensures Witnessing(c, Run(c, inputs).p, Run(c, inputs).out, Taken(c, inputs, b), b, x, data)
  {
    if k == |inputs| {
      assert inputs[..k] == inputs;
      InTimeWitnesses(c, inputs, b, x, data);
    } else {
      var j := |inputs| - 1;
      assert inputs[..j][..k] == inputs[..k];
      UpBefore(c, inputs);
      RunWitnesses(c, decrypts, inputs[..j], k, b, x, data);
      LastWitnesses(c, decrypts, inputs, b, x, data);
    }
  }

  lemma UpBefore(c: Config, inputs: seq<Input>)
    requires c.Sound() && inputs != [] && !Run(c, inputs).p.halted
    ensures !Run(c, inputs[..|inputs| - 1]).p.halted
  {
    HaltedStays(c, Run(c, inputs[..|inputs| - 1]).p, inputs[|inputs| - 1]);
  }

  lemma LastWitnesses(
    c: Config, decrypts: Id -> Share -> Option<Share>, inputs: seq<Input>, b: Instance, x: seq<int32>,
    data: seq<Share>)
    requires c.Sound() && c.mixingTime >= 1 && SoundLibraries(c, decrypts) && inputs != []
    requires !Run(c, inputs).p.halted && !Run(c, inputs[..|inputs| - 1]).p.halted
    requires var before := inputs[..|inputs| - 1];
             Witnessing(c, Run(c, before).p, Run(c, before).out, Taken(c, before, b), b, x, data)
    ensures Witnessing(c, Run(c, inputs).p, Run(c, inputs).out, Taken(c, inputs, b), b, x, data)
  {
    var before, i := inputs[..|inputs| - 1], inputs[|inputs| - 1];
    var s := Run(c, before);
    RunKeepsInv(c, before);
    RunWaits(c, before, b);
    TakeWitnesses(c, decrypts, s.p, i, s.out, Taken(c, before, b), b, x, data);
    assert Run(c, inputs) == Step(Take(c, s.p, i).p, s.out + Take(c, s.p, i).out);
    assert Taken(c, inputs, b) == Taken(c, before, b) + TakenIn(c, s.p, i, b);
  }

  // ---------------------------------------------------------------- the round trip

  lemma RunOneMore(c: Config, inputs: seq<Input>, i: Input, b: Instance)
    requires c.Sound()
    ensures var s := Run(c, inputs);
            && Run(c, inputs + [i]) == Step(Take(c, s.p, i).p, s.out + Take(c, s.p, i).out)
            && Taken(c, inputs + [i], b) == Taken(c, inputs, b) + TakenIn(c, s.p, i, b)
  {
    assert (inputs + [i])[..|inputs|] == inputs;
  }

  /** All that was heard has been taken in, up to the commit. */
  lemma {:induction false} TakenIsHeard(c: Config, inputs: seq<Input>, b: Instance)
    requires c.Sound() && c.mixingTime >= 1
    ensures Taken(c, inputs, b) <= Heard(c, inputs, b)
    ensures b !in Run(c, inputs).p.committed ==> Taken(c, inputs, b) == Heard(c, inputs, b)
  {
    if inputs != [] {
      var k := |inputs| - 1;
      TakenIsHeard(c, inputs[..k], b);
      StillCommitted(c, inputs, b);
    }
  }

  lemma StillCommitted(c: Config, inputs: seq<Input>, b: Instance)
    requires c.Sound() && c.mixingTime >= 1 && inputs != []
    ensures b in Run(c, inputs[..|inputs| - 1]).p.committed ==> b in Run(c, inputs).p.committed
  {
    var before := Run(c, inputs[..|inputs| - 1]).p;
    RunKeepsInv(c, inputs[..|inputs| - 1]);
    TakeOnward(c, before, inputs[|inputs| - 1]);
    assert Below(LevelOf(before, b), LevelOf(Run(c, inputs).p, b));
  }

  lemma {:induction false} DueInLonger(
    c: Config, taken: seq<Pending>, heard: seq<Pending>, x: seq<int32>, xHash: int32, a: Answer)
    requires taken <= heard && Due(c, taken, x, xHash, a)
    ensures Due(c, heard, x, xHash, a)
    decreases |heard|
  {
    if taken != heard {
      var k := |heard| - 1;
      DueInLonger(c, taken, heard[..k], x, xHash, a);
      DueGrows(c, heard[..k], heard[k], x, xHash, a);
      Split(heard);
    }
  }

  lemma TellsOnlyInLonger(
    out: seq<Send>, b: Instance, taken: seq<Pending>, heard: seq<Pending>, x: seq<int32>, xHash: int32)
    requires taken <= heard && TellsOnly(out, b, taken, x, xHash)
    ensures TellsOnly(out, b, heard, x, xHash)
  {
    assert forall d | d in taken :: d in heard;
  }

  /**
   * The secret round trip in every run. Suppose that at some moment a witness has passed on an honest author's shares,
   * in time, and that it does not come down. Once the instance is delivered it has said DONE exactly when someone has
   * told it a secret with the delivered hash, or that is the author's hash and 2f + 1 processes revealed to it before
   * the first such DONE or FAILED it heard. It has said FAILED exactly when it heard one before committing, or the
   * hash is not the author's and so many revealed. Either way it has said so to everyone. A DONE carries the author's
   * secret or one it was told.
   */
  lemma SecretRoundTripInRuns(
    c: Config, decrypts: Id -> Share -> Option<Share>, inputs: seq<Input>, k: nat, b: Instance, x: seq<int32>,
    data: seq<Share>)
    requires c.Sound() && c.mixingTime >= 1 && SoundLibraries(c, decrypts) && k <= |inputs|
    requires InTime(c, inputs[..k], b, x, data)
    requires !Run(c, inputs).p.halted && b in Run(c, inputs).p.delivered
    ensures var s, heard, taken := Run(c, inputs), Heard(c, inputs, b), Taken(c, inputs, b);
            var xHash := s.p.delivered[b].xHash;
            && TellsOnly(s.out, b, heard, x, xHash)
            && (!Silent(s.out, b, SaidDone) <==> Due(c, heard, x, xHash, SaidDone))
            && (Heralded(c, s.out, b, SaidDone) <==> Due(c, heard, x, xHash, SaidDone))
            && (!Silent(s.out, b, SaidFailed) <==> Due(c, taken, x, xHash, SaidFailed))
            && (Heralded(c, s.out, b, SaidFailed) <==> Due(c, taken, x, xHash, SaidFailed))
            && (b !in s.p.committed ==> taken == heard)
  {
    var s, heard, taken := Run(c, inputs), Heard(c, inputs, b), Taken(c, inputs, b);
    var xHash := s.p.delivered[b].xHash;
    RunWitnesses(c, decrypts, inputs, k, b, x, data);
    TakenIsHeard(c, inputs, b);
    TellsOnlyInLonger(s.out, b, taken, heard, x, xHash);
    if b in s.p.committed {
      RunKeepsInv(c, inputs);
      assert b !in s.p.log;
      DueInLonger(c, taken, heard, x, xHash, SaidDone);
    }
  }

  /** A commitment message brings such a witness down exactly when it is a forged share. */
  lemma ForgedShareBringsDown(
    c: Config, decrypts: Id -> Share -> Option<Share>, inputs: seq<Input>, k: nat, b: Instance, x: seq<int32>,
    data: seq<Share>, d: Pending)
    requires c.Sound() && c.mixingTime >= 1 && SoundLibraries(c, decrypts) && k <= |inputs|
    requires InTime(c, inputs[..k], b, x, data) && b.author < c.n && d.sender < c.n == |data|
    requires var p := Run(c, inputs).p; !p.halted && b in p.delivered && b !in p.committed
    ensures var p, next := Run(c, inputs).p, inputs + [OnCommitment(d.sender, b, d.m)];
            && (Run(c, next).p.halted <==> Forged(c, Taken(c, inputs, b), d, data, p.delivered[b].xHash))
            && Run(c, next).p.delivered == p.delivered
            && (b in Run(c, next).p.committed ==> d.m.Done?)
            && Taken(c, next, b) == Taken(c, inputs, b) + [d]
  {
    var s := Run(c, inputs);
    var i := OnCommitment(d.sender, b, d.m);
    RunWitnesses(c, decrypts, inputs, k, b, x, data);
    RunKeepsInv(c, inputs);
    RunOneMore(c, inputs, i, b);
    assert b in s.p.log;
    HandledSettles(c, decrypts, s.p, b, s.out, Taken(c, inputs, b), x, data, d);
    CommitsExactly(c, s.p, d.sender, b, d.m);
    TakesCommitment(c, s.p, b, d);
  }

  function Reveals(b: Instance, openings: seq<Opening>): (inputs: seq<Input>)
    ensures |inputs| == |openings|
  {
    seq(|openings|, i requires 0 <= i < |openings| => OnCommitment(openings[i].sender, b, Reveal(openings[i].share)))
  }

  /** A witness in time that is up after a FAILED came first and only reveals since. */
  ghost predicate Spoilt(
    c: Config, inputs: seq<Input>, k: nat, b: Instance, x: seq<int32>, data: seq<Share>, xHash: int32)
    requires c.Sound()
  {
    var p, taken := Run(c, inputs).p, Taken(c, inputs, b);
    && k <= |inputs| && InTime(c, inputs[..k], b, x, data)
    && !p.halted && b in p.delivered && p.delivered[b].xHash == xHash && b !in p.committed
    && FailureIn(taken) && !ToldOf(taken, xHash) && Revealers(taken, xHash) == {}
  }

  lemma FailureSpoils(
    c: Config, decrypts: Id -> Share -> Option<Share>, inputs: seq<Input>, k: nat, b: Instance, x: seq<int32>,
    data: seq<Share>, teller: Id)
    requires c.Sound() && c.mixingTime >= 1 && SoundLibraries(c, decrypts) && k <= |inputs|
    requires InTime(c, inputs[..k], b, x, data) && b.author < c.n && teller < c.n == |data|
    requires var p := Run(c, inputs).p;
             !p.halted && b in p.delivered && b !in p.committed && Taken(c, inputs, b) == []
    ensures Spoilt(c, inputs + [OnCommitment(teller, b, Failed)], k, b, x, data, Run(c, inputs).p.delivered[b].xHash)
  {
    var d, xHash := Pending(teller, Failed), Run(c, inputs).p.delivered[b].xHash;
    ForgedShareBringsDown(c, decrypts, inputs, k, b, x, data, d);
    HeardOneMore([], d, xHash);
    SamePrefix(inputs, OnCommitment(teller, b, Failed), k);
    assert Taken(c, inputs + [OnCommitment(teller, b, Failed)], b) == [] + [d];
  }

  lemma SamePrefix(inputs: seq<Input>, i: Input, k: nat)
    requires k <= |inputs|
    ensures (inputs + [i])[..k] == inputs[..k]
  {
  }

  lemma RevealSpoilsNoMore(
    c: Config, decrypts: Id -> Share -> Option<Share>, inputs: seq<Input>, k: nat, b: Instance, x: seq<int32>,
    data: seq<Share>, o: Opening, xHash: int32)
    requires c.Sound() && c.mixingTime >= 1 && SoundLibraries(c, decrypts)
    requires Spoilt(c, inputs, k, b, x, data, xHash) && b.author < c.n && o.sender < c.n == |data|
    ensures Spoilt(c, inputs + [OnCommitment(o.sender, b, Reveal(o.share))], k, b, x, data, xHash)
  {
    var d := Pending(o.sender, Reveal(o.share));
    ForgedShareBringsDown(c, decrypts, inputs, k, b, x, data, d);
    HeardOneMore(Taken(c, inputs, b), d, xHash);
    SamePrefix(inputs, OnCommitment(o.sender, b, Reveal(o.share)), k);
  }

  lemma RevealNobody(inputs: seq<Input>, b: Instance)
    ensures inputs + Reveals(b, []) == inputs
  {
  }

  lemma OneMoreReveal(inputs: seq<Input>, b: Instance, openings: seq<Opening>)
    requires openings != []
    ensures var j := |openings| - 1;
            inputs + Reveals(b, openings[..j]) + [OnCommitment(openings[j].sender, b, Reveal(openings[j].share))]
            == inputs + Reveals(b, openings)
  {
  }

  lemma {:induction false} StaysSpoilt(
    c: Config, decrypts: Id -> Share -> Option<Share>, inputs: seq<Input>, k: nat, b: Instance, x: seq<int32>,
    data: seq<Share>, openings: seq<Opening>, xHash: int32)
    requires c.Sound() && c.mixingTime >= 1 && SoundLibraries(c, decrypts)
    requires Spoilt(c, inputs, k, b, x, data, xHash) && b.author < c.n == |data|
    requires forall i | 0 <= i < |openings| :: openings[i].sender < c.n
    ensures Spoilt(c, inputs + Reveals(b, openings), k, b, x, data, xHash)
  {
    if openings == [] {
      RevealNobody(inputs, b);
    } else {
      var j := |openings| - 1;
      var before, o := inputs + Reveals(b, openings[..j]), openings[j];
      StaysSpoilt(c, decrypts, inputs, k, b, x, data, openings[..j], xHash);
      RevealSpoilsNoMore(c, decrypts, before, k, b, x, data, o, xHash);
      OneMoreReveal(inputs, b, openings);
    }
  }

  /**
   * One FAILED is enough to keep a witness from saying DONE, whoever sends it: if it is the first it takes in, no
   * number of reveals brings the secret out, the author's own shares included, and the witness says FAILED itself.
   */
  lemma FailureFirst(
    c: Config, decrypts: Id -> Share -> Option<Share>, inputs: seq<Input>, k: nat, b: Instance, x: seq<int32>,
    data: seq<Share>, teller: Id, openings: seq<Opening>)
    requires c.Sound() && c.mixingTime >= 1 && SoundLibraries(c, decrypts) && k <= |inputs|
    requires InTime(c, inputs[..k], b, x, data) && b.author < c.n && teller < c.n == |data|
    requires forall i | 0 <= i < |openings| :: openings[i].sender < c.n
    requires var p := Run(c, inputs).p;
             !p.halted && b in p.delivered && b !in p.committed && Taken(c, inputs, b) == []
    ensures var s := Run(c, inputs + [OnCommitment(teller, b, Failed)] + Reveals(b, openings));
            !s.p.halted && Silent(s.out, b, SaidDone) && Heralded(c, s.out, b, SaidFailed)
  {
    var failed := inputs + [OnCommitment(teller, b, Failed)];
    var xHash := Run(c, inputs).p.delivered[b].xHash;
    FailureSpoils(c, decrypts, inputs, k, b, x, data, teller);
    StaysSpoilt(c, decrypts, failed, k, b, x, data, openings, xHash);
    SpoiltSays(c, decrypts, failed + Reveals(b, openings), k, b, x, data, xHash);
  }

  lemma SpoiltSays(
    c: Config, decrypts: Id -> Share -> Option<Share>, inputs: seq<Input>, k: nat, b: Instance, x: seq<int32>,
    data: seq<Share>, xHash: int32)
    requires c.Sound() && c.mixingTime >= 1 && SoundLibraries(c, decrypts)
    requires Spoilt(c, inputs, k, b, x, data, xHash)
    ensures var s := Run(c, inputs); Silent(s.out, b, SaidDone) && Heralded(c, s.out, b, SaidFailed)
  {
    SecretRoundTripInRuns(c, decrypts, inputs, k, b, x, data);
  }
}
