/**
 * What leaves a process over a run: each phase of an instance is entered at most once, even after the state of
 * the instance has been deleted, and the REVEALs sent are those of the reveals begun.
 */
module ReliableTraces {
  import opened GoIntegers
  import opened Quorums
  import opened Reliable
  import opened ReliableRuns

  /** x opens the phase of this kind for b; an ECHO_FROM_WITNESS goes out share by share. */
  predicate Opens(x: Send, b: Instance, kind: Kind) {
    x.instance == b &&
    match x
    case ShareEach(_, _, _) => kind == ECHO_FROM_WITNESS
    case ToSet(_, _, Protocol(m)) => m.kind == kind
    case ToSet(_, _, Commitment(_)) => false
  }

  function Count(trace: seq<Send>, b: Instance, kind: Kind): nat {
    if trace == [] then 0
    else Count(trace[..|trace| - 1], b, kind) + if Opens(trace[|trace| - 1], b, kind) then 1 else 0
  }

  lemma {:induction false} CountConcat(a: seq<Send>, x: seq<Send>, b: Instance, kind: Kind)
    ensures Count(a + x, b, kind) == Count(a, b, kind) + Count(x, b, kind)
  {
    if x == [] {
      assert a + x == a;
    } else {
      CountConcat(a, x[..|x| - 1], b, kind);
      assert (a + x)[..|a + x| - 1] == a + x[..|x| - 1];
    }
  }

  lemma CountOfFew(x: Send, y: Send, b: Instance, kind: Kind)
    ensures Count([x], b, kind) == if Opens(x, b, kind) then 1 else 0
    ensures Count([x, y], b, kind) == Count([x], b, kind) + Count([y], b, kind)
  {
    assert [x, y][..1] == [x];
    assert Count([x], b, kind) == Count([x][..0], b, kind) + if Opens(x, b, kind) then 1 else 0;
    assert Count([y], b, kind) == Count([y][..0], b, kind) + if Opens(y, b, kind) then 1 else 0;
  }

  lemma {:induction false} CountedOnceIsUnique(trace: seq<Send>, b: Instance, kind: Kind, i: nat, j: nat)
    requires i < j < |trace| && Opens(trace[i], b, kind) && Opens(trace[j], b, kind)
    ensures Count(trace, b, kind) >= 2
  {
    var k := |trace| - 1;
    if j < k {
      CountedOnceIsUnique(trace[..k], b, kind, i, j);
    } else {
      SomeCount(trace[..k], b, kind, i);
    }
  }

  lemma {:induction false} SomeCount(trace: seq<Send>, b: Instance, kind: Kind, i: nat)
    requires i < |trace| && Opens(trace[i], b, kind)
    ensures Count(trace, b, kind) >= 1
  {
    var k := |trace| - 1;
    if i < k {
      SomeCount(trace[..k], b, kind, i);
    }
  }

  lemma {:induction false} CountWitness(trace: seq<Send>, b: Instance, kind: Kind) returns (i: nat)
    requires Count(trace, b, kind) >= 1
    ensures i < |trace| && Opens(trace[i], b, kind)
  {
    var k := |trace| - 1;
    if Opens(trace[k], b, kind) {
      i := k;
    } else {
      i := CountWitness(trace[..k], b, kind);
    }
  }

  // ---------------------------------------------------------------- the commitment layer opens no phase

  ghost predicate OnlyCommitments(out: seq<Send>) {
    forall x | x in out :: x.ToSet? && x.content.Commitment?
  }

  lemma {:induction false} CommitmentsDoNotCount(out: seq<Send>, b: Instance, kind: Kind)
    requires OnlyCommitments(out)
    ensures Count(out, b, kind) == 0
  {
    if out != [] {
      CommitmentsDoNotCount(out[..|out| - 1], b, kind);
    }
  }

  lemma RevealOutput(c: Config, b: Instance, st: State, sender: Id, share: Share, xHash: int32)
    ensures OnlyCommitments(OnReveal(c, b, st, sender, share, xHash).out)
  {
  }

  lemma DoneOutput(c: Config, b: Instance, st: State, sender: Id, x: seq<int32>, xHash: int32, age: int)
    ensures OnlyCommitments(OnDone(c, b, st, sender, x, xHash, age).out)
  {
  }

  lemma ReactionOutput(
    c: Config, b: Instance, st: State, sender: Id, m: CommitmentMessage, xHash: int32, age: int)
    ensures OnlyCommitments(ReactToCommitment(c, b, st, sender, m, xHash, age).out)
  {
    match m
    case Reveal(share) => RevealOutput(c, b, st, sender, share, xHash);
    case Done(x) => DoneOutput(c, b, st, sender, x, xHash, age);
    case Failed =>
  }

  lemma CommitmentOutput(c: Config, p: Process, sender: Id, b: Instance, m: CommitmentMessage, st: State)
    ensures OnlyCommitments(CommitmentOn(c, p, sender, b, m, st).out)
  {
    if b in p.delivered {
      var age, xHash := p.deliveredCount - Checkpoint(p, b), p.delivered[b].xHash;
      ReactionOutput(c, b, Counted(st), sender, m, xHash, age);
      ApplyOutput(p, b, ReactToCommitment(c, b, Counted(st), sender, m, xHash, age));
    }
  }

  lemma ApplyOutput(p: Process, b: Instance, r: Reaction)
    requires b in p.delivered
    ensures Apply(p, b, r).out == r.out
  {
  }

  lemma {:induction false} ReplayOutput(c: Config, p: Process, b: Instance, deferred: seq<Pending>)
    requires c.Sound()
    ensures OnlyCommitments(Replay(c, p, b, deferred).out)
  {
    if deferred != [] {
      var k := |deferred| - 1;
      ReplayOutput(c, p, b, deferred[..k]);
      var q := Replay(c, p, b, deferred[..k]).p;
      CommitmentOutput(c, q, deferred[k].sender, b, deferred[k].m, Register(c, q, b));
    }
  }

  lemma DeliverOutput(c: Config, p: Process, b: Instance, bm: Broadcast)
    requires c.Sound() && b in p.log
    ensures OnlyCommitments(DeliverInstance(c, p, b, bm).out)
  {
    ReplayOutput(c, Recorded(p, b, bm), b, p.log[b].pending);
  }

  // ---------------------------------------------------------------- phases against stages

  /** How many times each phase of b has been opened, given b's two stages; a crash may leave one unrecorded. */
  ghost predicate Levels(trace: seq<Send>, b: Instance, stage: nat, witnessStage: nat, crashed: bool) {
    && AtMostOnce(trace, b)
    && (stage < SENT_ECHO_FROM_PROCESS ==> Count(trace, b, ECHO_FROM_PROCESS) == 0)
    && (stage < SENT_READY_FROM_PROCESS ==> Count(trace, b, READY_FROM_PROCESS) == 0)
    && (witnessStage < SENT_ECHO_FROM_WITNESS && !crashed ==> Count(trace, b, ECHO_FROM_WITNESS) == 0)
    && (witnessStage < SENT_READY_FROM_WITNESS ==> Count(trace, b, READY_FROM_WITNESS) == 0)
    && (witnessStage >= SENT_READY_FROM_WITNESS ==> Count(trace, b, READY_FROM_WITNESS) == 1)
    && (witnessStage < SENT_VALIDATE ==> Count(trace, b, VALIDATE) == 0)
  }

  ghost predicate AtMostOnce(trace: seq<Send>, b: Instance) {
    && Count(trace, b, ECHO_FROM_WITNESS) <= 1
    && Count(trace, b, ECHO_FROM_PROCESS) <= 1
    && Count(trace, b, READY_FROM_WITNESS) <= 1
    && Count(trace, b, READY_FROM_PROCESS) <= 1
    && Count(trace, b, VALIDATE) <= Count(trace, b, READY_FROM_WITNESS)
  }

  function Hits(out: seq<Send>, i: nat, b: Instance, kind: Kind): nat {
    if i < |out| && Opens(out[i], b, kind) then 1 else 0
  }

  lemma CountAppended(trace: seq<Send>, out: seq<Send>, b: Instance, kind: Kind)
    requires |out| <= 2
    ensures Count(trace + out, b, kind) == Count(trace, b, kind) + Hits(out, 0, b, kind) + Hits(out, 1, b, kind)
  {
    CountConcat(trace, out, b, kind);
    if |out| == 1 {
      assert out == [out[0]];
      CountOfFew(out[0], out[0], b, kind);
    } else if |out| == 2 {
      assert out == [out[0], out[1]];
      CountOfFew(out[0], out[1], b, kind);
      CountOfFew(out[1], out[1], b, kind);
    }
  }

  lemma PhasesKeepLevels(c: Config, trace: seq<Send>, b: Instance, st: State, r: Reaction, bm: Broadcast)
    requires Levels(trace, b, st.stage, st.witnessStage, false) && Moves(c, b, st, r, bm)
    ensures Levels(trace + r.out, b, r.st.stage, r.st.witnessStage, r.verdict == Crash)
  {
    forall kind
      ensures Count(trace + r.out, b, kind)
              == Count(trace, b, kind) + Hits(r.out, 0, b, kind) + Hits(r.out, 1, b, kind)
    {
      CountAppended(trace, r.out, b, kind);
    }
    assert |r.out| <= 2;
  }

  lemma CountElsewhere(out: seq<Send>, b: Instance, kind: Kind)
    requires forall x | x in out :: x.instance != b
    ensures Count(out, b, kind) == 0
  {
    if out != [] {
      CountElsewhere(out[..|out| - 1], b, kind);
    }
  }

  lemma PhasesStayHome(c: Config, b: Instance, st: State, r: Reaction, bm: Broadcast)
    requires Phases(c, b, st, r, bm)
    ensures forall x | x in r.out :: x.instance == b
  {
  }

  // ---------------------------------------------------------------- the invariant over runs

  datatype Level = Gone | At(stage: nat, witnessStage: nat)

  /** Where an instance stands: committed and collected, or at the stages of its state, or at the start. */
  function LevelOf(p: Process, b: Instance): Level {
    if b in p.committed then Gone
    else if b in p.log then At(p.log[b].stage, p.log[b].witnessStage)
    else At(INITIAL_STAGE, INITIAL_WITNESS_STAGE)
  }

  ghost predicate LevelHolds(trace: seq<Send>, b: Instance, l: Level, halted: bool) {
    match l
    case Gone => AtMostOnce(trace, b)
    case At(stage, witnessStage) => Levels(trace, b, stage, witnessStage, halted)
  }

  ghost predicate TraceInv(p: Process, trace: seq<Send>) {
    forall b :: LevelHolds(trace, b, LevelOf(p, b), p.halted)
  }

  lemma Unmoved(trace: seq<Send>, out: seq<Send>, b: Instance, l: Level, halted: bool, halted': bool)
    requires LevelHolds(trace, b, l, halted) && (halted ==> halted')
    requires forall kind | kind != NOTIFY :: Count(out, b, kind) == 0
    ensures LevelHolds(trace + out, b, l, halted')
  {
    CountConcat(trace, out, b, ECHO_FROM_WITNESS);
    CountConcat(trace, out, b, ECHO_FROM_PROCESS);
    CountConcat(trace, out, b, READY_FROM_WITNESS);
    CountConcat(trace, out, b, READY_FROM_PROCESS);
    CountConcat(trace, out, b, VALIDATE);
  }

  /** A step that changes the state of b only, keeping its stages, and opens no phase. */
  lemma TouchKeepsTrace(p: Process, p': Process, b: Instance, st: State, trace: seq<Send>, out: seq<Send>)
    requires TraceInv(p, trace) && !p.halted && b !in p.committed && Touches(p, p', b)
    requires LevelOf(p, b) == At(st.stage, st.witnessStage) && SameStages(st, p'.log[b])
    requires forall d, kind | kind != NOTIFY :: Count(out, d, kind) == 0
    ensures TraceInv(p', trace + out)
  {
    forall d
      ensures LevelHolds(trace + out, d, LevelOf(p', d), p'.halted)
    {
      assert LevelOf(p', d) == LevelOf(p, d);
      Unmoved(trace, out, d, LevelOf(p, d), p.halted, p'.halted);
    }
  }

  lemma CommitKeepsTrace(
    c: Config, p: Process, p': Process, b: Instance, x: seq<int32>, trace: seq<Send>, out: seq<Send>)
    requires TraceInv(p, trace) && !p.halted && Commits(c, p, p', b, x)
    requires forall d, kind | kind != NOTIFY :: Count(out, d, kind) == 0
    ensures TraceInv(p', trace + out)
  {
    forall d
      ensures LevelHolds(trace + out, d, LevelOf(p', d), p'.halted)
    {
      assert LevelHolds(trace, d, LevelOf(p, d), p.halted);
      Unmoved(trace, out, d, LevelOf(p', d), p.halted, p'.halted);
    }
  }

  lemma CommitmentKeepsTrace(
    c: Config, p: Process, sender: Id, b: Instance, m: CommitmentMessage, st: State, trace: seq<Send>)
    requires TraceInv(p, trace) && !p.halted && b !in p.committed
    requires LevelOf(p, b) == At(st.stage, st.witnessStage)
    ensures var s := CommitmentOn(c, p, sender, b, m, st); TraceInv(s.p, trace + s.out)
  {
    var s := CommitmentOn(c, p, sender, b, m, st);
    CommitmentOutput(c, p, sender, b, m, st);
    NoPhases(s.out);
    var commit := CommitmentEffect(c, p, sender, b, m, st);
    if commit.Some? {
      CommitKeepsTrace(c, p, s.p, b, commit.value, trace, s.out);
    } else {
      TouchKeepsTrace(p, s.p, b, st, trace, s.out);
    }
  }

  lemma NoPhases(out: seq<Send>)
    requires OnlyCommitments(out)
    ensures forall d, kind :: Count(out, d, kind) == 0
  {
    forall d, kind
      ensures Count(out, d, kind) == 0
    {
      CommitmentsDoNotCount(out, d, kind);
    }
  }

  /** Raising the process stage, with or without a crash, forgets nothing that was counted. */
  lemma LevelsRise(
    trace: seq<Send>, b: Instance, stage: nat, witnessStage: nat, crashed: bool, stage': nat, crashed': bool)
    requires Levels(trace, b, stage, witnessStage, crashed) && stage <= stage' && (crashed ==> crashed')
    ensures Levels(trace, b, stage', witnessStage, crashed')
  {
  }

  /** What a handler for a protocol message does to the levels of all instances. */
  ghost predicate Advances(p: Process, p': Process, b: Instance, r: Reaction) {
    && (forall d | d != b :: LevelOf(p', d) == LevelOf(p, d))
    && (exists stage: nat :: r.st.stage <= stage && LevelOf(p', b) == At(stage, r.st.witnessStage))
    && (r.verdict == Crash ==> p'.halted)
  }

  lemma ReactionAdvances(c: Config, p: Process, b: Instance, bm: Broadcast, r: Reaction)
    requires c.Sound() && c.mixingTime >= 1 && !p.halted && b !in p.committed
    requires r.verdict == Deliver ==> r.st.stage < DELIVERED_STAGE && r.out == []
    requires !r.verdict.CommitTo?
    ensures var s := ApplyProtocol(c, p, b, bm, r);
            && Advances(p, s.p, b, r)
            && exists rest :: s.out == r.out + rest && OnlyCommitments(rest)
  {
    var s := ApplyProtocol(c, p, b, bm, r);
    var q := WithState(p, b, r.st);
    if r.verdict == Deliver {
      DeliverEffect(c, q, b, bm);
      DeliverOutput(c, q, b, bm);
      assert LevelOf(s.p, b) == At(s.p.log[b].stage, r.st.witnessStage);
      assert s.out == r.out + DeliverInstance(c, q, b, bm).out;
    } else {
      assert LevelOf(s.p, b) == At(r.st.stage, r.st.witnessStage);
      assert s.out == r.out + [];
    }
  }

  lemma AdvanceKeepsTrace(
    c: Config, p: Process, p': Process, b: Instance, st: State, r: Reaction, bm: Broadcast,
    trace: seq<Send>, rest: seq<Send>)
    requires TraceInv(p, trace) && !p.halted && LevelOf(p, b) == At(st.stage, st.witnessStage)
    requires Moves(c, b, st, r, bm) && Advances(p, p', b, r) && OnlyCommitments(rest)
    ensures TraceInv(p', trace + (r.out + rest))
  {
    NoPhases(rest);
    forall d
      ensures LevelHolds(trace + (r.out + rest), d, LevelOf(p', d), p'.halted)
    {
      assert trace + (r.out + rest) == (trace + r.out) + rest;
      assert LevelHolds(trace, d, LevelOf(p, d), false);
      if d == b {
        PhasesKeepLevels(c, trace, b, st, r, bm);
        LevelsRise(trace + r.out, b, r.st.stage, r.st.witnessStage, r.verdict == Crash,
                   LevelOf(p', b).stage, p'.halted);
      } else {
        PhasesStayHome(c, b, st, r, bm);
        forall kind
          ensures Count(r.out, d, kind) == 0
        {
          CountElsewhere(r.out, d, kind);
        }
        Unmoved(trace, r.out, d, LevelOf(p, d), false, p'.halted);
      }
      Unmoved(trace + r.out, rest, d, LevelOf(p', d), p'.halted, p'.halted);
    }
  }

  lemma ProtocolKeepsTrace(
    c: Config, p: Process, sender: Id, b: Instance, m: ProtocolMessage, st: State, trace: seq<Send>)
    requires c.Sound() && c.mixingTime >= 1 && TraceInv(p, trace) && !p.halted && b !in p.committed
    requires LevelOf(p, b) == At(st.stage, st.witnessStage)
    ensures var s := ApplyProtocol(c, p, b, m.broadcast, React(c, b, Counted(st), sender, m));
            TraceInv(s.p, trace + s.out)
  {
    var r := React(c, b, Counted(st), sender, m);
    ReactMoves(c, b, Counted(st), sender, m);
    ReactionAdvances(c, p, b, m.broadcast, r);
    var s := ApplyProtocol(c, p, b, m.broadcast, r);
    var rest :| s.out == r.out + rest && OnlyCommitments(rest);
    AdvanceKeepsTrace(c, p, s.p, b, Counted(st), r, m.broadcast, trace, rest);
  }

  lemma BroadcastKeepsTrace(c: Config, p: Process, value: int32, x: seq<int32>, st: State, trace: seq<Send>)
    requires TraceInv(p, trace) && !p.halted && c.DataShares() <= c.n && Possible(c, p, Ask(value, x))
    requires st.stage == INITIAL_STAGE && st.witnessStage == INITIAL_WITNESS_STAGE
    ensures var s := BroadcastOn(c, p, value, x, st); TraceInv(s.p, trace + s.out)
  {
    var s := BroadcastOn(c, p, value, x, st);
    BroadcastOpensNoPhase(c, p, value, x, st);
    forall d
      ensures LevelHolds(trace + s.out, d, LevelOf(s.p, d), s.p.halted)
    {
      BroadcastKeepsLevel(c, p, value, x, st, d);
      Unmoved(trace, s.out, d, LevelOf(p, d), p.halted, s.p.halted);
    }
  }

  lemma BroadcastKeepsLevel(c: Config, p: Process, value: int32, x: seq<int32>, st: State, d: Instance)
    requires |x| == c.DataShares() <= c.n && Instance(c.self, p.transactionCounter) !in p.log
    requires st.stage == INITIAL_STAGE && st.witnessStage == INITIAL_WITNESS_STAGE
    ensures LevelOf(BroadcastOn(c, p, value, x, st).p, d) == LevelOf(p, d)
  {
  }

  lemma BroadcastOpensNoPhase(c: Config, p: Process, value: int32, x: seq<int32>, st: State)
    requires |x| == c.DataShares() <= c.n
    ensures var out := BroadcastOn(c, p, value, x, st).out;
            forall d, kind | kind != NOTIFY :: Count(out, d, kind) == 0
  {
    var out := BroadcastOn(c, p, value, x, st).out;
    if out != [] {
      var y := out[0];
      assert out == [y] && y.ToSet? && y.content.Protocol? && y.content.m.kind == NOTIFY;
      forall d, kind | kind != NOTIFY
        ensures Count(out, d, kind) == 0
      {
        CountOfFew(y, y, d, kind);
      }
    }
  }

  lemma HaltKeepsTrace(p: Process, trace: seq<Send>)
    requires TraceInv(p, trace)
    ensures TraceInv(p.(halted := true), trace)
  {
    forall b
      ensures LevelHolds(trace, b, LevelOf(p.(halted := true), b), true)
    {
      assert LevelHolds(trace, b, LevelOf(p, b), p.halted);
    }
  }

  lemma TakeKeepsTrace(c: Config, p: Process, i: Input, trace: seq<Send>)
    requires c.Sound() && c.mixingTime >= 1 && TraceInv(p, trace)
    ensures var s := Take(c, p, i); TraceInv(s.p, trace + s.out)
  {
    assert trace + [] == trace;
    if Possible(c, p, i) && !p.halted {
      match i
      case OnProtocol(sender, b, m) =>
        if b !in p.committed && b.author >= c.n {
          HaltKeepsTrace(p, trace);
        } else if b !in p.committed {
          ProtocolKeepsTrace(c, p, sender, b, m, Register(c, p, b), trace);
        }
      case OnCommitment(sender, b, m) =>
        if b !in p.committed && b.author >= c.n {
          HaltKeepsTrace(p, trace);
        } else if b !in p.committed {
          CommitmentKeepsTrace(c, p, sender, b, m, Register(c, p, b), trace);
        }
      case Ask(value, x) => BroadcastKeepsTrace(c, p, value, x, FreshState(c, p), trace);
    }
  }

  /**
   * Send-once: over every run, also after the state of the instance is gone, each phase of an instance is opened
   * at most once, and VALIDATE only with or after READY_FROM_WITNESS.
   */
  lemma {:induction false} SendOnce(c: Config, inputs: seq<Input>, b: Instance)
    requires c.Sound() && c.mixingTime >= 1
    ensures AtMostOnce(Run(c, inputs).out, b)
    ensures TraceInv(Run(c, inputs).p, Run(c, inputs).out)
  {
    if inputs == [] {
      assert forall d :: LevelOf(NEW_PROCESS, d) == At(INITIAL_STAGE, INITIAL_WITNESS_STAGE);
    } else {
      var k := |inputs| - 1;
      SendOnce(c, inputs[..k], b);
      TakeKeepsTrace(c, Run(c, inputs[..k]).p, inputs[k], Run(c, inputs[..k]).out);
    }
    assert LevelHolds(Run(c, inputs).out, b, LevelOf(Run(c, inputs).p, b), Run(c, inputs).p.halted);
  }

  // ---------------------------------------------------------------- nothing is ever taken back

  predicate Below(l: Level, l': Level) {
    l'.Gone? || (l.At? && l.stage <= l'.stage && l.witnessStage <= l'.witnessStage)
  }

  /** Stages have not fallen, and what was delivered is still delivered, with the same broadcast. */
  ghost predicate Onward(p: Process, p': Process) {
    && (forall b :: Below(LevelOf(p, b), LevelOf(p', b)))
    && (forall b | b in p.delivered :: b in p'.delivered && p'.delivered[b] == p.delivered[b])
  }

  lemma ReactionOnward(c: Config, p: Process, b: Instance, bm: Broadcast, st: State, r: Reaction)
    requires c.Sound() && c.mixingTime >= 1 && Inv(c, p) && !p.halted && b !in p.committed
    requires LevelOf(p, b) == At(st.stage, st.witnessStage) && Moves(c, b, st, r, bm)
    ensures Onward(p, ApplyProtocol(c, p, b, bm, r).p)
  {
    ReactionAdvances(c, p, b, bm, r);
    ReactionDelivers(c, p, b, bm, r);
    AdvanceIsOnward(p, ApplyProtocol(c, p, b, bm, r).p, b, bm, st, r);
  }

  lemma ReactionDelivers(c: Config, p: Process, b: Instance, bm: Broadcast, r: Reaction)
    requires c.Sound() && c.mixingTime >= 1 && !p.halted && b !in p.committed && !r.verdict.CommitTo?
    requires r.verdict == Deliver ==> r.st.stage < DELIVERED_STAGE
    ensures ApplyProtocol(c, p, b, bm, r).p.delivered
            == if r.verdict == Deliver then p.delivered[b := bm] else p.delivered
  {
    if r.verdict == Deliver {
      DeliverEffect(c, WithState(p, b, r.st), b, bm);
    }
  }

  /** What is being delivered has not been delivered before: its state would be at the last stage. */
  lemma AdvanceIsOnward(p: Process, p': Process, b: Instance, bm: Broadcast, st: State, r: Reaction)
    requires Kept(p.log, p.delivered, p.committed) && b !in p.committed
    requires LevelOf(p, b) == At(st.stage, st.witnessStage) && Advances(p, p', b, r)
    requires st.stage <= r.st.stage && st.witnessStage <= r.st.witnessStage
    requires r.verdict == Deliver ==> r.st.stage < DELIVERED_STAGE
    requires p'.delivered == if r.verdict == Deliver then p.delivered[b := bm] else p.delivered
    ensures Onward(p, p')
  {
    forall d
      ensures Below(LevelOf(p, d), LevelOf(p', d))
    {
      assert d != b ==> LevelOf(p', d) == LevelOf(p, d);
    }
  }

  lemma ProtocolOnward(c: Config, p: Process, sender: Id, b: Instance, m: ProtocolMessage, st: State)
    requires c.Sound() && c.mixingTime >= 1 && Inv(c, p) && !p.halted && b !in p.committed
    requires LevelOf(p, b) == At(st.stage, st.witnessStage)
    ensures Onward(p, ApplyProtocol(c, p, b, m.broadcast, React(c, b, Counted(st), sender, m)).p)
  {
    ReactMoves(c, b, Counted(st), sender, m);
    ReactionOnward(c, p, b, m.broadcast, Counted(st), React(c, b, Counted(st), sender, m));
  }

  lemma CommitmentOnward(c: Config, p: Process, sender: Id, b: Instance, m: CommitmentMessage, st: State)
    requires !p.halted && b !in p.committed && LevelOf(p, b) == At(st.stage, st.witnessStage)
    ensures Onward(p, CommitmentOn(c, p, sender, b, m, st).p)
  {
    var commit := CommitmentEffect(c, p, sender, b, m, st);
    var q := CommitmentOn(c, p, sender, b, m, st).p;
    assert q.delivered == p.delivered;
    forall d
      ensures Below(LevelOf(p, d), LevelOf(q, d))
    {
      assert d != b ==> LevelOf(q, d) == LevelOf(p, d);
    }
  }

  lemma BroadcastOnward(c: Config, p: Process, value: int32, x: seq<int32>, st: State)
    requires !p.halted && c.DataShares() <= c.n && Possible(c, p, Ask(value, x))
    requires st.stage == INITIAL_STAGE && st.witnessStage == INITIAL_WITNESS_STAGE
    ensures Onward(p, BroadcastOn(c, p, value, x, st).p)
  {
  }

  lemma HaltOnward(p: Process)
    ensures Onward(p, p.(halted := true)) && Onward(p, p)
  {
    assert forall b :: LevelOf(p.(halted := true), b) == LevelOf(p, b);
  }

  lemma HandleProtocolOnward(c: Config, p: Process, sender: Id, b: Instance, m: ProtocolMessage)
    requires c.Sound() && c.mixingTime >= 1 && Inv(c, p)
    ensures Onward(p, HandleProtocol(c, p, sender, b, m).p)
  {
    HaltOnward(p);
    if !p.halted && b !in p.committed && b.author < c.n {
      ProtocolOnward(c, p, sender, b, m, Register(c, p, b));
    }
  }

  lemma HandleCommitmentOnward(c: Config, p: Process, sender: Id, b: Instance, m: CommitmentMessage)
    requires c.Sound()
    ensures Onward(p, HandleCommitment(c, p, sender, b, m).p)
  {
    HaltOnward(p);
    if !p.halted && b !in p.committed && b.author < c.n {
      CommitmentOnward(c, p, sender, b, m, Register(c, p, b));
    }
  }

  lemma TakeOnward(c: Config, p: Process, i: Input)
    requires c.Sound() && c.mixingTime >= 1 && Inv(c, p)
    ensures Onward(p, Take(c, p, i).p)
  {
    HaltOnward(p);
    if Possible(c, p, i) && !p.halted {
      match i
      case OnProtocol(sender, b, m) => HandleProtocolOnward(c, p, sender, b, m);
      case OnCommitment(sender, b, m) => HandleCommitmentOnward(c, p, sender, b, m);
      case Ask(value, x) => BroadcastOnward(c, p, value, x, FreshState(c, p));
    }
  }

  /** From any moment of a run to its end, stages only grow and deliveries stand. */
  lemma {:induction false} StagesOnlyGrow(c: Config, inputs: seq<Input>, k: nat)
    requires c.Sound() && c.mixingTime >= 1 && k <= |inputs|
    ensures Onward(Run(c, inputs[..k]).p, Run(c, inputs).p)
  {
    var j := |inputs| - 1;
    if k == |inputs| {
      assert inputs[..k] == inputs;
    } else {
      assert inputs[..j][..k] == inputs[..k];
      StagesOnlyGrow(c, inputs[..j], k);
      RunKeepsInv(c, inputs[..j]);
      TakeOnward(c, Run(c, inputs[..j]).p, inputs[j]);
      OnwardIsTransitive(Run(c, inputs[..k]).p, Run(c, inputs[..j]).p, Run(c, inputs).p);
    }
  }

  lemma OnwardIsTransitive(p: Process, q: Process, r: Process)
    requires Onward(p, q) && Onward(q, r)
    ensures Onward(p, r)
  {
    forall b
      ensures Below(LevelOf(p, b), LevelOf(r, b))
    {
      assert Below(LevelOf(p, b), LevelOf(q, b)) && Below(LevelOf(q, b), LevelOf(r, b));
    }
  }

  /** Every state in the log is still there, as it was. */
  ghost predicate NothingLost(p: Process, p': Process) {
    forall d | d in p.log :: d in p'.log && p'.log[d] == p.log[d]
  }

  /**
   * Broadcasting creates the author's state anew. Nothing is lost exactly when there was no state or it was just as a
   * new one is; the instance stays collected exactly when it was not committed; and no stage falls exactly when the
   * author was still at the start or past its commit.
   */
  lemma RebroadcastingForgets(c: Config, p: Process, value: int32, x: seq<int32>)
    requires c.Sound() && !p.halted && |x| == c.DataShares() && SharesOf(c, x).Some?
    ensures var b, p' := Instance(c.self, p.transactionCounter), HandleBroadcast(c, p, value, x).p;
            && (NothingLost(p, p') <==> b !in p.log || p.log[b] == FreshState(c, p))
            && (Apart(p.log, p.committed) ==> (Apart(p'.log, p'.committed) <==> b !in p.committed))
            && (Onward(p, p') <==> LevelOf(p, b) in {Gone, At(INITIAL_STAGE, INITIAL_WITNESS_STAGE)})
  {
    BroadcastReplaces(c, p, value, x, FreshState(c, p));
  }

  lemma BroadcastReplaces(c: Config, p: Process, value: int32, x: seq<int32>, st: State)
    requires |x| == c.DataShares() <= c.n && SharesOf(c, x).Some?
    requires st.stage == INITIAL_STAGE && st.witnessStage == INITIAL_WITNESS_STAGE
    ensures var b, p' := Instance(c.self, p.transactionCounter), BroadcastOn(c, p, value, x, st).p;
            && (NothingLost(p, p') <==> b !in p.log || p.log[b] == st)
            && (Apart(p.log, p.committed) ==> (Apart(p'.log, p'.committed) <==> b !in p.committed))
            && (Onward(p, p') <==> LevelOf(p, b) in {Gone, At(INITIAL_STAGE, INITIAL_WITNESS_STAGE)})
  {
    var b, p' := Instance(c.self, p.transactionCounter), BroadcastOn(c, p, value, x, st).p;
    assert p'.log == p.log[b := st] && p'.committed == p.committed && p'.delivered == p.delivered;
    assert b !in p.committed ==> LevelOf(p', b) == At(INITIAL_STAGE, INITIAL_WITNESS_STAGE);
    assert forall d :: d != b ==> LevelOf(p', d) == LevelOf(p, d);
    assert Onward(p, p') ==> Below(LevelOf(p, b), LevelOf(p', b));
  }

  /**
   * What that does to send-once when nothing keeps an author from handling messages of an instance it has yet to
   * broadcast: an own witness's echo before and another after, and the author echoes the same instance twice.
   */
  lemma EchoesTwice(
    c: Config, teller: Id, early: Broadcast, late: Broadcast, share: Share, value: int32, x: seq<int32>)
    requires c.Sound() && |x| == c.DataShares() && SharesOf(c, x).Some?
    requires teller in FreshState(c, NEW_PROCESS).own
    ensures var b := Instance(c.self, 0);
            var s1 := HandleProtocol(c, NEW_PROCESS, teller, b, ProtocolMessage(ECHO_FROM_WITNESS, early, [share]));
            var s2 := HandleBroadcast(c, s1.p, value, x);
            var s3 := HandleProtocol(c, s2.p, teller, b, ProtocolMessage(ECHO_FROM_WITNESS, late, [share]));
            && !s3.p.halted
            && Count(s1.out + s2.out + s3.out, b, ECHO_FROM_PROCESS) == 2
  {
    var b, st := Instance(c.self, 0), FreshState(c, NEW_PROCESS);
    var s1 := HandleProtocol(c, NEW_PROCESS, teller, b, ProtocolMessage(ECHO_FROM_WITNESS, early, [share]));
    var s2 := HandleBroadcast(c, s1.p, value, x);
    var s3 := HandleProtocol(c, s2.p, teller, b, ProtocolMessage(ECHO_FROM_WITNESS, late, [share]));
    EchoesNow(c, NEW_PROCESS, b, teller, early, share);
    assert FreshState(c, s1.p) == st;
    assert s2 == BroadcastOn(c, s1.p, value, x, st) && s2.p.log[b] == st;
    EchoesNow(c, s2.p, b, teller, late, share);
    var y := s2.out[0];
    assert s2.out == [y] && !Opens(y, b, ECHO_FROM_PROCESS);
    CountOfFew(y, y, b, ECHO_FROM_PROCESS);
    CountConcat(s1.out, s2.out, b, ECHO_FROM_PROCESS);
    CountConcat(s1.out + s2.out, s3.out, b, ECHO_FROM_PROCESS);
  }

  /** A process at the start of an instance echoes the first of its own witnesses it hears. */
  lemma EchoesNow(c: Config, p: Process, b: Instance, teller: Id, bm: Broadcast, share: Share)
    requires c.Sound() && !p.halted && b !in p.committed && b.author < c.n
    requires var st := Register(c, p, b); teller in st.own && st.stage == INITIAL_STAGE
    ensures var s := HandleProtocol(c, p, teller, b, ProtocolMessage(ECHO_FROM_WITNESS, bm, [share]));
            && Count(s.out, b, ECHO_FROM_PROCESS) == 1
            && s.p == p.(log := s.p.log)
  {
    var m := ProtocolMessage(ECHO_FROM_WITNESS, bm, [share]);
    var r := OnEchoFromWitness(b, Counted(Register(c, p, b)), teller, bm, [share]);
    FirstEcho(b, Counted(Register(c, p, b)), teller, bm, share);
    JustHandled(c, p, teller, b, m);
  }

  /** A message that is neither fatal nor delivers leaves the state of the reaction. */
  lemma JustHandled(c: Config, p: Process, sender: Id, b: Instance, m: ProtocolMessage)
    requires c.Sound() && !p.halted && b !in p.committed && b.author < c.n
    requires React(c, b, Counted(Register(c, p, b)), sender, m).verdict == Go
    ensures var r := React(c, b, Counted(Register(c, p, b)), sender, m);
            HandleProtocol(c, p, sender, b, m) == Step(WithState(p, b, r.st), r.out)
  {
    var r := React(c, b, Counted(Register(c, p, b)), sender, m);
    assert HandleProtocol(c, p, sender, b, m) == ApplyProtocol(c, p, b, m.broadcast, r);
  }

  lemma FirstEcho(b: Instance, st: State, teller: Id, bm: Broadcast, share: Share)
    requires teller in st.own && st.stage == INITIAL_STAGE
    ensures var r := OnEchoFromWitness(b, st, teller, bm, [share]);
            r.verdict == Go && Count(r.out, b, ECHO_FROM_PROCESS) == 1
  {
    var y := OnEchoFromWitness(b, st, teller, bm, [share]).out[0];
    CountOfFew(y, y, b, ECHO_FROM_PROCESS);
  }

  // ---------------------------------------------------------------- reveals

  /** The instances whose secret share was sent out, in order. */
  function RevealsIn(trace: seq<Send>): seq<Instance> {
    if trace == [] then []
    else
      var x := trace[|trace| - 1];
      RevealsIn(trace[..|trace| - 1])
      + if x.ToSet? && x.content.Commitment? && x.content.c.Reveal? then [x.instance] else []
  }

  lemma {:induction false} RevealsConcat(a: seq<Send>, x: seq<Send>)
    ensures RevealsIn(a + x) == RevealsIn(a) + RevealsIn(x)
  {
    if x == [] {
      assert a + x == a;
    } else {
      RevealsConcat(a, x[..|x| - 1]);
      assert (a + x)[..|a + x| - 1] == a + x[..|x| - 1];
    }
  }

  ghost predicate NoReveals(out: seq<Send>) {
    forall x | x in out :: !(x.ToSet? && x.content.Commitment? && x.content.c.Reveal?)
  }

  lemma {:induction false} NoRevealsIn(out: seq<Send>)
    requires NoReveals(out)
    ensures RevealsIn(out) == []
  {
    if out != [] {
      NoRevealsIn(out[..|out| - 1]);
    }
  }

  lemma RevealReacts(c: Config, b: Instance, st: State, sender: Id, share: Share, xHash: int32)
    ensures NoReveals(OnReveal(c, b, st, sender, share, xHash).out)
  {
  }

  lemma DoneReacts(c: Config, b: Instance, st: State, sender: Id, x: seq<int32>, xHash: int32, age: int)
    ensures NoReveals(OnDone(c, b, st, sender, x, xHash, age).out)
  {
  }

  lemma CommitmentRevealsNothing(c: Config, p: Process, sender: Id, b: Instance, m: CommitmentMessage, st: State)
    ensures NoReveals(CommitmentOn(c, p, sender, b, m, st).out)
    ensures CommitmentOn(c, p, sender, b, m, st).p.revealed == p.revealed
  {
    if b in p.delivered {
      var age, xHash := p.deliveredCount - Checkpoint(p, b), p.delivered[b].xHash;
      var r := ReactToCommitment(c, b, Counted(st), sender, m, xHash, age);
      match m {
        case Reveal(share) => RevealReacts(c, b, Counted(st), sender, share, xHash);
        case Done(x) => DoneReacts(c, b, Counted(st), sender, x, xHash, age);
        case Failed =>
      }
      assert NoReveals(r.out);
      ApplyOutput(p, b, r);
      ApplyKeepsRevealed(p, b, r);
    }
  }

  lemma ApplyKeepsRevealed(p: Process, b: Instance, r: Reaction)
    requires b in p.delivered
    ensures Apply(p, b, r).p.revealed == p.revealed
  {
  }

  lemma {:induction false} ReplayRevealsNothing(c: Config, p: Process, b: Instance, deferred: seq<Pending>)
    requires c.Sound()
    ensures NoReveals(Replay(c, p, b, deferred).out) && Replay(c, p, b, deferred).p.revealed == p.revealed
  {
    if deferred != [] {
      var k := |deferred| - 1;
      ReplayRevealsNothing(c, p, b, deferred[..k]);
      var q := Replay(c, p, b, deferred[..k]).p;
      CommitmentRevealsNothing(c, q, deferred[k].sender, b, deferred[k].m, Register(c, q, b));
    }
  }

  /** What goes on the list of begun reveals goes out, unless the process comes down on it. */
  lemma DueReveals(c: Config, p: Process)
    ensures var s := RevealDue(c, p); !s.p.halted ==> s.p.revealed == p.revealed + RevealsIn(s.out)
  {
    var s := RevealDue(c, p);
    if s.out != [] {
      assert s.out == [s.out[0]];
      assert RevealsIn(s.out) == RevealsIn(s.out[..0]) + RevealsIn([s.out[0]]);
    }
  }

  lemma ReactRevealsNothing(c: Config, b: Instance, st: State, r: Reaction, bm: Broadcast)
    requires Phases(c, b, st, r, bm)
    ensures NoReveals(r.out)
  {
  }

  lemma DeliverReveals(c: Config, p: Process, b: Instance, bm: Broadcast)
    requires c.Sound() && b in p.log
    ensures var s := DeliverInstance(c, p, b, bm); !s.p.halted ==> s.p.revealed == p.revealed + RevealsIn(s.out)
  {
    var replayed := Replay(c, Recorded(p, b, bm), b, p.log[b].pending);
    var due := RevealDue(c, PendingCleared(replayed.p, b));
    ReplayRevealsNothing(c, Recorded(p, b, bm), b, p.log[b].pending);
    DueReveals(c, PendingCleared(replayed.p, b));
    NoRevealsIn(replayed.out);
    RevealsConcat(replayed.out, due.out);
  }

  lemma StageSetReveals(p: Process, b: Instance)
    ensures StageSet(p, b).revealed == p.revealed && StageSet(p, b).halted == p.halted
  {
  }

  lemma NothingBefore(out: seq<Send>, rest: seq<Send>)
    requires NoReveals(out)
    ensures RevealsIn(out + rest) == RevealsIn(rest)
  {
    NoRevealsIn(out);
    RevealsConcat(out, rest);
  }

  lemma ReactionReveals(c: Config, p: Process, b: Instance, bm: Broadcast, r: Reaction)
    requires c.Sound() && NoReveals(r.out)
    ensures var s := ApplyProtocol(c, p, b, bm, r); !s.p.halted ==> s.p.revealed == p.revealed + RevealsIn(s.out)
  {
    if r.verdict == Deliver {
      var q := WithState(p, b, r.st);
      var d := DeliverInstance(c, q, b, bm);
      DeliverReveals(c, q, b, bm);
      NothingBefore(r.out, d.out);
      StageSetReveals(d.p, b);
      assert q.revealed == p.revealed;
    } else {
      NoRevealsIn(r.out);
    }
  }

  lemma HandleProtocolReveals(c: Config, p: Process, sender: Id, b: Instance, m: ProtocolMessage)
    requires c.Sound()
    ensures var s := HandleProtocol(c, p, sender, b, m); !s.p.halted ==> s.p.revealed == p.revealed + RevealsIn(s.out)
  {
    if !p.halted && b !in p.committed && b.author < c.n {
      var st := Counted(Register(c, p, b));
      ReactMoves(c, b, st, sender, m);
      ReactRevealsNothing(c, b, st, React(c, b, st, sender, m), m.broadcast);
      ReactionReveals(c, p, b, m.broadcast, React(c, b, st, sender, m));
    }
  }

  lemma HandleCommitmentReveals(c: Config, p: Process, sender: Id, b: Instance, m: CommitmentMessage)
    requires c.Sound()
    ensures var s := HandleCommitment(c, p, sender, b, m); s.p.revealed == p.revealed && RevealsIn(s.out) == []
  {
    if !p.halted && b !in p.committed && b.author < c.n {
      var st := Register(c, p, b);
      CommitmentRevealsNothing(c, p, sender, b, m, st);
      NoRevealsIn(CommitmentOn(c, p, sender, b, m, st).out);
    }
  }

  lemma TakeReveals(c: Config, p: Process, i: Input)
    requires c.Sound()
    ensures var s := Take(c, p, i); !s.p.halted ==> s.p.revealed == p.revealed + RevealsIn(s.out)
  {
    if Possible(c, p, i) && !p.halted {
      match i
      case OnProtocol(sender, b, m) => HandleProtocolReveals(c, p, sender, b, m);
      case OnCommitment(sender, b, m) => HandleCommitmentReveals(c, p, sender, b, m);
      case Ask(value, x) => BroadcastRevealsNothing(c, p, value, x, FreshState(c, p));
    }
  }

  lemma BroadcastRevealsNothing(c: Config, p: Process, value: int32, x: seq<int32>, st: State)
    requires |x| == c.DataShares() <= c.n
    ensures var s := BroadcastOn(c, p, value, x, st); s.p.revealed == p.revealed && RevealsIn(s.out) == []
  {
    NoRevealsIn(BroadcastOn(c, p, value, x, st).out);
  }

  /** The shares a process has sent out are those of all but its last mixingTime deliveries, in order. */
  ghost predicate RevealsAre(c: Config, p: Process, out: seq<Send>) {
    && p.revealed == RevealsIn(out) <= p.deliveries
    && |p.revealed| == Max(0, p.deliveredCount - c.mixingTime)
  }

  lemma InvGivesReveals(c: Config, p: Process, out: seq<Send>)
    requires Inv(c, p) && !p.halted && c.mixingTime >= 1 && p.revealed == RevealsIn(out)
    ensures RevealsAre(c, p, out)
  {
  }

  /** In every run that has not come down, each transaction's share goes out exactly once, when its time comes. */
  lemma RevealsSent(c: Config, inputs: seq<Input>)
    requires c.Sound() && c.mixingTime >= 1 && !Run(c, inputs).p.halted
    ensures RevealsAre(c, Run(c, inputs).p, Run(c, inputs).out)
  {
    RunReveals(c, inputs);
    RunKeepsInv(c, inputs);
    InvGivesReveals(c, Run(c, inputs).p, Run(c, inputs).out);
  }

  lemma {:induction false} RunReveals(c: Config, inputs: seq<Input>)
    requires c.Sound() && !Run(c, inputs).p.halted
    ensures Run(c, inputs).p.revealed == RevealsIn(Run(c, inputs).out)
  {
    if inputs != [] {
      var k := |inputs| - 1;
      var before := Run(c, inputs[..k]);
      TakeReveals(c, before.p, inputs[k]);
      HaltedStays(c, before.p, inputs[k]);
      RunReveals(c, inputs[..k]);
      RevealsConcat(before.out, Take(c, before.p, inputs[k]).out);
    }
  }

  lemma HaltedStays(c: Config, p: Process, i: Input)
    requires c.Sound()
    ensures p.halted ==> Take(c, p, i) == Step(p, [])
  {
  }

  // ---------------------------------------------------------------- a process's own broadcasts

  predicate IsNotify(y: Send) {
    y.ToSet? && y.content.Protocol? && y.content.m.kind == NOTIFY
  }

  /** The instances broadcast, in order. */
  function Started(trace: seq<Send>): seq<Instance> {
    if trace == [] then []
    else
      Started(trace[..|trace| - 1])
      + if IsNotify(trace[|trace| - 1]) then [trace[|trace| - 1].instance] else []
  }

  lemma {:induction false} NothingStarted(trace: seq<Send>, out: seq<Send>)
    requires forall y | y in out :: !IsNotify(y)
    ensures Started(trace + out) == Started(trace)
  {
    if out == [] {
      assert trace + out == trace;
    } else {
      NothingStarted(trace, out[..|out| - 1]);
      assert (trace + out)[..|trace + out| - 1] == trace + out[..|out| - 1];
    }
  }

  lemma OneStarted(trace: seq<Send>, y: Send)
    requires IsNotify(y)
    ensures Started(trace + [y]) == Started(trace) + [y.instance]
  {
    assert (trace + [y])[..|trace|] == trace;
  }

  lemma ProtocolStartsNothing(c: Config, p: Process, sender: Id, b: Instance, m: ProtocolMessage)
    requires c.Sound() && c.mixingTime >= 1 && !p.halted
    ensures var s := HandleProtocol(c, p, sender, b, m);
            s.p.transactionCounter == p.transactionCounter && forall y | y in s.out :: !IsNotify(y)
  {
    if b !in p.committed && b.author < c.n {
      var st := Counted(Register(c, p, b));
      var r := React(c, b, st, sender, m);
      ReactMoves(c, b, st, sender, m);
      PhasesStartNothing(c, b, st, r, m.broadcast);
      ReactionAdvances(c, p, b, m.broadcast, r);
      ReactionKeepsCounter(c, p, b, m.broadcast, r);
      assert HandleProtocol(c, p, sender, b, m) == ApplyProtocol(c, p, b, m.broadcast, r);
    }
  }

  lemma PhasesStartNothing(c: Config, b: Instance, st: State, r: Reaction, bm: Broadcast)
    requires Phases(c, b, st, r, bm)
    ensures forall y | y in r.out :: !IsNotify(y)
  {
  }

  lemma ReactionKeepsCounter(c: Config, p: Process, b: Instance, bm: Broadcast, r: Reaction)
    requires c.Sound() && c.mixingTime >= 1 && !p.halted && b !in p.committed
    requires r.verdict == Deliver ==> r.st.stage < DELIVERED_STAGE
    ensures ApplyProtocol(c, p, b, bm, r).p.transactionCounter == p.transactionCounter
  {
    if r.verdict == Deliver {
      DeliverEffect(c, WithState(p, b, r.st), b, bm);
    }
  }

  lemma CommitmentStartsNothing(c: Config, p: Process, sender: Id, b: Instance, m: CommitmentMessage)
    requires c.Sound() && !p.halted
    ensures var s := HandleCommitment(c, p, sender, b, m);
            s.p.transactionCounter == p.transactionCounter && forall y | y in s.out :: !IsNotify(y)
  {
    if b !in p.committed && b.author < c.n {
      var commit := CommitmentEffect(c, p, sender, b, m, Register(c, p, b));
      CommitmentOutput(c, p, sender, b, m, Register(c, p, b));
    }
  }

  /** Broadcasts are numbered one after the other, from 0 on, in 32 bits. */
  ghost predicate InSequence(c: Config, p: Process, started: seq<Instance>) {
    && p.transactionCounter == Wrap32(|started|)
    && forall k | 0 <= k < |started| :: started[k] == Instance(c.self, Wrap32(k))
  }

  lemma AskStarts(c: Config, p: Process, value: int32, x: seq<int32>, st: State, trace: seq<Send>)
    requires |x| == c.DataShares() <= c.n && InSequence(c, p, Started(trace))
    ensures var s := BroadcastOn(c, p, value, x, st); InSequence(c, s.p, Started(trace + s.out))
  {
    var s := BroadcastOn(c, p, value, x, st);
    if s.out == [] {
      NothingStarted(trace, []);
    } else {
      OneStarted(trace, s.out[0]);
      assert s.out == [s.out[0]];
      Wrap32Absorbs(|Started(trace)|, 1);
    }
  }

  /**
   * In every run, a process's own broadcasts are numbered in sequence: the k-th NOTIFY it sent out opens the instance
   * with its own index and the number k in 32 bits, and nothing else makes the counter move.
   */
  lemma {:induction false} BroadcastsInSequence(c: Config, inputs: seq<Input>)
    requires c.Sound() && c.mixingTime >= 1
    ensures InSequence(c, Run(c, inputs).p, Started(Run(c, inputs).out))
  {
    if inputs != [] {
      var k := |inputs| - 1;
      var before, i := Run(c, inputs[..k]), inputs[k];
      var s := Take(c, before.p, i);
      BroadcastsInSequence(c, inputs[..k]);
      assert Run(c, inputs) == Step(s.p, before.out + s.out);
      if !Possible(c, before.p, i) || before.p.halted {
        NothingStarted(before.out, []);
        HaltedStays(c, before.p, i);
      } else {
        match i
        case OnProtocol(sender, b, m) =>
          ProtocolStartsNothing(c, before.p, sender, b, m);
          NothingStarted(before.out, s.out);
        case OnCommitment(sender, b, m) =>
          CommitmentStartsNothing(c, before.p, sender, b, m);
          NothingStarted(before.out, s.out);
        case Ask(value, x) => AskStarts(c, before.p, value, x, FreshState(c, before.p), before.out);
      }
    }
  }

  // ---------------------------------------------------------------- VALIDATE comes after READY_FROM_WITNESS

  ghost predicate ReadiedBefore(trace: seq<Send>, b: Instance, j: nat) {
    exists i :: 0 <= i < j && i < |trace| && Opens(trace[i], b, READY_FROM_WITNESS)
  }

  ghost predicate InOrder(trace: seq<Send>, b: Instance) {
    forall j | 0 <= j < |trace| && Opens(trace[j], b, VALIDATE) :: ReadiedBefore(trace, b, j)
  }

  lemma OrderExtends(trace: seq<Send>, out: seq<Send>, b: Instance)
    requires InOrder(trace, b)
    requires Count(trace, b, READY_FROM_WITNESS) >= 1 || InOrder(out, b)
    ensures InOrder(trace + out, b)
  {
    var longer := trace + out;
    forall j | 0 <= j < |longer| && Opens(longer[j], b, VALIDATE)
      ensures ReadiedBefore(longer, b, j)
    {
      if j < |trace| {
        assert ReadiedBefore(trace, b, j);
        var i :| 0 <= i < j && i < |trace| && Opens(trace[i], b, READY_FROM_WITNESS);
        assert Opens(longer[i], b, READY_FROM_WITNESS);
      } else if Count(trace, b, READY_FROM_WITNESS) >= 1 {
        var i := CountWitness(trace, b, READY_FROM_WITNESS);
        assert Opens(longer[i], b, READY_FROM_WITNESS);
      } else {
        assert ReadiedBefore(out, b, j - |trace|);
        var i :| 0 <= i < j - |trace| && i < |out| && Opens(out[i], b, READY_FROM_WITNESS);
        assert Opens(longer[|trace| + i], b, READY_FROM_WITNESS);
      }
    }
  }

  lemma PhasesInOrder(c: Config, trace: seq<Send>, b: Instance, st: State, r: Reaction, bm: Broadcast)
    requires InOrder(trace, b) && Phases(c, b, st, r, bm) && Levels(trace, b, st.stage, st.witnessStage, false)
    ensures InOrder(trace + r.out, b)
  {
    if Count(trace, b, READY_FROM_WITNESS) == 0 {
      assert st.witnessStage < SENT_READY_FROM_WITNESS;
      forall j | 0 <= j < |r.out| && Opens(r.out[j], b, VALIDATE)
        ensures ReadiedBefore(r.out, b, j)
      {
        assert j == 1 && Opens(r.out[0], b, READY_FROM_WITNESS);
      }
    }
    OrderExtends(trace, r.out, b);
  }

  /** Sends among which there is no VALIDATE for b. */
  lemma QuietInOrder(trace: seq<Send>, out: seq<Send>, b: Instance)
    requires InOrder(trace, b) && forall y | y in out :: !Opens(y, b, VALIDATE)
    ensures InOrder(trace + out, b)
  {
    OrderExtends(trace, out, b);
  }

  lemma ReactionInOrder(
    c: Config, p: Process, d: Instance, bm: Broadcast, st: State, r: Reaction, trace: seq<Send>, b: Instance)
    requires c.Sound() && c.mixingTime >= 1 && !p.halted && d !in p.committed
    requires InOrder(trace, b) && TraceInv(p, trace)
    requires LevelOf(p, d) == At(st.stage, st.witnessStage) && Moves(c, d, st, r, bm)
    ensures InOrder(trace + ApplyProtocol(c, p, d, bm, r).out, b)
  {
    ReactionAdvances(c, p, d, bm, r);
    var rest :| ApplyProtocol(c, p, d, bm, r).out == r.out + rest && OnlyCommitments(rest);
    SentInOrder(c, p, d, bm, st, r, trace, b);
    QuietInOrder(trace + r.out, rest, b);
    Regroup(trace, r.out, rest);
  }

  lemma Regroup(a: seq<Send>, x: seq<Send>, y: seq<Send>)
    ensures a + (x + y) == a + x + y
  {
  }

  /** What a reaction itself sends, before a delivery adds its share. */
  lemma SentInOrder(
    c: Config, p: Process, d: Instance, bm: Broadcast, st: State, r: Reaction, trace: seq<Send>, b: Instance)
    requires InOrder(trace, b) && TraceInv(p, trace) && !p.halted && d !in p.committed
    requires LevelOf(p, d) == At(st.stage, st.witnessStage) && Moves(c, d, st, r, bm)
    ensures InOrder(trace + r.out, b)
  {
    assert LevelHolds(trace, d, LevelOf(p, d), p.halted);
    if d == b {
      PhasesInOrder(c, trace, b, st, r, bm);
    } else {
      PhasesStayHome(c, d, st, r, bm);
      QuietInOrder(trace, r.out, b);
    }
  }

  lemma ProtocolInOrder(
    c: Config, p: Process, sender: Id, d: Instance, m: ProtocolMessage, trace: seq<Send>, b: Instance)
    requires c.Sound() && c.mixingTime >= 1 && InOrder(trace, b) && TraceInv(p, trace) && !p.halted
    ensures InOrder(trace + HandleProtocol(c, p, sender, d, m).out, b)
  {
    assert trace + [] == trace;
    if d !in p.committed && d.author < c.n {
      var st := Counted(Register(c, p, d));
      var r := React(c, d, st, sender, m);
      ReactMoves(c, d, st, sender, m);
      ReactionInOrder(c, p, d, m.broadcast, st, r, trace, b);
      assert HandleProtocol(c, p, sender, d, m) == ApplyProtocol(c, p, d, m.broadcast, r);
    }
  }

  lemma CommitmentInOrder(
    c: Config, p: Process, sender: Id, d: Instance, m: CommitmentMessage, trace: seq<Send>, b: Instance)
    requires c.Sound() && InOrder(trace, b)
    ensures InOrder(trace + HandleCommitment(c, p, sender, d, m).out, b)
  {
    assert trace + [] == trace;
    if !p.halted && d !in p.committed && d.author < c.n {
      CommitmentOutput(c, p, sender, d, m, Register(c, p, d));
      QuietInOrder(trace, HandleCommitment(c, p, sender, d, m).out, b);
    }
  }

  lemma TakeInOrder(c: Config, p: Process, i: Input, trace: seq<Send>, b: Instance)
    requires c.Sound() && c.mixingTime >= 1 && InOrder(trace, b) && TraceInv(p, trace)
    ensures InOrder(trace + Take(c, p, i).out, b)
  {
    assert trace + [] == trace;
    if Possible(c, p, i) && !p.halted {
      match i
      case OnProtocol(sender, d, m) => ProtocolInOrder(c, p, sender, d, m, trace, b);
      case OnCommitment(sender, d, m) => CommitmentInOrder(c, p, sender, d, m, trace, b);
      case Ask(value, x) => QuietInOrder(trace, HandleBroadcast(c, p, value, x).out, b);
    }
  }

  /** In every run, each VALIDATE of an instance was sent after a READY_FROM_WITNESS of that instance. */
  lemma {:induction false} ValidateAfterReady(c: Config, inputs: seq<Input>, b: Instance)
    requires c.Sound() && c.mixingTime >= 1
    ensures InOrder(Run(c, inputs).out, b)
  {
    if inputs != [] {
      var k := |inputs| - 1;
      var before := Run(c, inputs[..k]);
      ValidateAfterReady(c, inputs[..k], b);
      SendOnce(c, inputs[..k], b);
      TakeInOrder(c, before.p, inputs[k], before.out, b);
    }
  }
}
