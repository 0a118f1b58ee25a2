/**
 * What a process that is not one of its own potential witnesses says of a secret until it commits: one FAILED to its
 * potential witnesses, if one of its own witnesses said so, and nothing else.
 */
module ReliableBystanders {
  import opened GoIntegers
  import opened Quorums
  import opened Reliable
  import opened ReliableRuns
  import opened ReliableTraces
  import opened ReliableReveals
  import opened ReliableRoundTrip

  /** To whom FAILED was said of b, each time. */
  function Failures(out: seq<Send>, b: Instance): seq<set<Id>> {
    if out == [] then []
    else
      var y := out[|out| - 1];
      Failures(out[..|out| - 1], b) + if Says(y, b, SaidFailed) then [y.to] else []
  }

  lemma {:induction false} FailuresConcat(out: seq<Send>, more: seq<Send>, b: Instance)
    ensures Failures(out + more, b) == Failures(out, b) + Failures(more, b)
  {
    if more == [] {
      assert out + more == out;
    } else {
      FailuresConcat(out, more[..|more| - 1], b);
      assert (out + more)[..|out + more| - 1] == out + more[..|more| - 1];
    }
  }

  lemma {:induction false} NoFailures(out: seq<Send>, b: Instance)
    requires Silent(out, b, SaidFailed)
    ensures Failures(out, b) == []
  {
    if out != [] {
      NoFailures(out[..|out| - 1], b);
    }
  }

  predicate OwnFailure(own: set<Id>, heard: seq<Pending>) {
    exists d :: d in heard && d.m.Failed? && d.sender in own
  }

  lemma OwnFailureOneMore(own: set<Id>, heard: seq<Pending>, d: Pending)
    ensures OwnFailure(own, heard + [d]) <==> OwnFailure(own, heard) || (d.m.Failed? && d.sender in own)
  {
    assert d in heard + [d];
    assert forall e | e in heard :: e in heard + [d];
  }

  ghost predicate Bystands(c: Config, st: State, out: seq<Send>, heard: seq<Pending>, b: Instance) {
    var failed := OwnFailure(st.own, heard);
    && c.self !in st.pot
    && st.revealStage == (if failed then SentFailedToWitnesses else InitialRevealStage)
    && Silent(out, b, SaidDone)
    && Failures(out, b) == (if failed then [st.pot] else [])
  }

  lemma SaysNothing(c: Config, st: State, out: seq<Send>, more: seq<Send>, heard: seq<Pending>, b: Instance)
    requires Bystands(c, st, out, heard, b) && Quiet(more, b)
    ensures Bystands(c, st, out + more, heard, b)
  {
    SilentConcat(out, more, b, SaidDone);
    FailuresConcat(out, more, b);
    NoFailures(more, b);
  }

  lemma FailedBystands(
    c: Config, b: Instance, st: State, out: seq<Send>, heard: seq<Pending>, sender: Id)
    requires Bystands(c, st, out, heard, b)
    ensures var r := OnFailed(c, b, st, sender);
            r.verdict == Go && Bystands(c, r.st, out + r.out, heard + [Pending(sender, Failed)], b)
  {
    var r := OnFailed(c, b, st, sender);
    OwnFailureOneMore(st.own, heard, Pending(sender, Failed));
    FailuresConcat(out, r.out, b);
    SilentConcat(out, r.out, b, SaidDone);
    if r.out != [] {
      assert r.out == [ToSet(b, st.pot, Commitment(Failed))];
      assert Failures(r.out, b) == Failures(r.out[..0], b) + [st.pot] == [st.pot];
    } else {
      assert Failures(out, b) + [] == Failures(out, b);
    }
  }

  lemma ReactionBystands(
    c: Config, p: Process, b: Instance, st: State, out: seq<Send>, heard: seq<Pending>, d: Pending)
    requires b in p.delivered && Bystands(c, st, out, heard, b)
    ensures var r := ReactionTo(c, p, d.sender, b, d.m, st);
            r.verdict.CommitTo? || (r.verdict == Go && Bystands(c, r.st, out + r.out, heard + [d], b))
  {
    OwnFailureOneMore(st.own, heard, d);
    assert out + [] == out;
    match d.m
    case Reveal(share) =>
    case Done(x) => DoneBystands(c, b, st, d.sender, x, p.delivered[b].xHash, p.deliveredCount - Checkpoint(p, b));
    case Failed => FailedBystands(c, b, st, out, heard, d.sender);
  }

  lemma DoneBystands(c: Config, b: Instance, st: State, sender: Id, x: seq<int32>, xHash: int32, age: int)
    requires c.self !in st.pot
    ensures var r := OnDone(c, b, st, sender, x, xHash, age); r.verdict.CommitTo? || r == Reaction(st, [], Go)
  {
  }

  /** One more commitment message for a delivered instance. */
  lemma HandledBystands(
    c: Config, p: Process, b: Instance, out: seq<Send>, heard: seq<Pending>, d: Pending)
    requires c.Sound() && !p.halted && b.author < c.n && b in p.log && b in p.delivered && b !in p.committed
    requires Bystands(c, p.log[b], out, heard, b)
    ensures var s := HandleCommitment(c, p, d.sender, b, d.m);
            && !s.p.halted && s.p.delivered == p.delivered
            && (b in s.p.log ==> Bystands(c, s.p.log[b], out + s.out, heard + [d], b))
  {
    var st := Counted(p.log[b]);
    var r := ReactionTo(c, p, d.sender, b, d.m, st);
    assert Bystands(c, st, out, heard, b);
    ReactionBystands(c, p, b, st, out, heard, d);
    assert HandleCommitment(c, p, d.sender, b, d.m) == Apply(p, b, r);
    ApplyOutput(p, b, r);
    AppliedLog(p, b, r);
  }

  lemma {:induction false} ReplayBystands(
    c: Config, p: Process, b: Instance, out: seq<Send>, deferred: seq<Pending>)
    requires c.Sound() && !p.halted && b.author < c.n && b in p.log && b in p.delivered && b !in p.committed
    requires p.deliveredCount - Checkpoint(p, b) < c.mixingTime
    requires Bystands(c, p.log[b], out, [], b)
    ensures var s := Replay(c, p, b, deferred);
            Touches(p, s.p, b) && !s.p.halted && Bystands(c, s.p.log[b], out + s.out, deferred, b)
  {
    ReplayEffect(c, p, b, deferred);
    if deferred == [] {
      assert out + [] == out;
    } else {
      var k := |deferred| - 1;
      var s := Replay(c, p, b, deferred[..k]);
      var last := HandleCommitment(c, s.p, deferred[k].sender, b, deferred[k].m);
      ReplayBystands(c, p, b, out, deferred[..k]);
      Split(deferred);
      HandledBystands(c, s.p, b, out + s.out, deferred[..k], deferred[k]);
      Regroup(out, s.out, last.out);
    }
  }

  lemma DeliveryBystands(c: Config, p: Process, b: Instance, bm: Broadcast, out: seq<Send>)
    requires c.Sound() && c.mixingTime >= 1 && !p.halted && b.author < c.n && b in p.log && b !in p.committed
    requires c.self !in p.log[b].pot && Untouched(p.log[b]) && Quiet(out, b)
    ensures var s := DeliverInstance(c, p, b, bm);
            var log := StageSet(s.p, b).log;
            b in log && Bystands(c, log[b], out + s.out, p.log[b].pending, b)
  {
    var q, deferred := Recorded(p, b, bm), p.log[b].pending;
    var replayed := Replay(c, q, b, deferred);
    var due := RevealDue(c, PendingCleared(replayed.p, b));
    JustRecorded(c, p, b, bm);
    NoFailures(out, b);
    ReplayBystands(c, q, b, out, deferred);
    FinishLeaves(c, replayed.p, b);
    SaysNothing(c, replayed.p.log[b], out + replayed.out, due.out, deferred, b);
    Regroup(out, replayed.out, due.out);
  }

  // ---------------------------------------------------------------- runs

  /** A delivered instance that has its state, at a process outside its own potential set. */
  ghost predicate Aside(c: Config, p: Process, out: seq<Send>, taken: seq<Pending>, b: Instance) {
    b in p.delivered && b in p.log && c.self !in p.log[b].pot ==> Bystands(c, p.log[b], out, taken, b)
  }

  lemma StillAside(
    c: Config, p: Process, p': Process, out: seq<Send>, more: seq<Send>, taken: seq<Pending>, b: Instance)
    requires SameAt(p, p', b) && Quiet(more, b) && Aside(c, p, out, taken, b)
    ensures Aside(c, p', out + more, taken, b)
  {
    if b in p.delivered && b in p.log && c.self !in p.log[b].pot {
      SaysNothing(c, p.log[b], out, more, taken, b);
    }
  }

  lemma CommitmentAside(
    c: Config, p: Process, sender: Id, b: Instance, m: CommitmentMessage, out: seq<Send>, taken: seq<Pending>)
    requires c.Sound() && Inv(c, p) && !p.halted && b !in p.committed && Aside(c, p, out, taken, b)
    ensures var s := HandleCommitment(c, p, sender, b, m);
            !s.p.halted ==> Aside(c, s.p, out + s.out, taken + [Pending(sender, m)], b)
  {
    if b.author < c.n {
      var commit := CommitmentEffect(c, p, sender, b, m, Register(c, p, b));
      if b in p.delivered && c.self !in p.log[b].pot {
        HandledBystands(c, p, b, out, taken, Pending(sender, m));
      }
    }
  }

  lemma ProtocolAside(
    c: Config, p: Process, sender: Id, b: Instance, m: ProtocolMessage, out: seq<Send>, taken: seq<Pending>)
    requires c.Sound() && c.mixingTime >= 1 && Inv(c, p) && !p.halted && b !in p.committed
    requires Waiting(p, out, taken, b) && Aside(c, p, out, taken, b)
    ensures var s := HandleProtocol(c, p, sender, b, m); !s.p.halted ==> Aside(c, s.p, out + s.out, taken, b)
  {
    if b.author < c.n {
      var st := Counted(Register(c, p, b));
      var r := React(c, b, st, sender, m);
      ReactMoves(c, b, st, sender, m);
      ReactKeepsReveal(c, b, st, sender, m);
      PhasesQuiet(c, b, st, r, m.broadcast, b);
      assert HandleProtocol(c, p, sender, b, m) == ApplyProtocol(c, p, b, m.broadcast, r);
      assert b in p.delivered ==> b in p.log && p.log[b].stage == DELIVERED_STAGE;
      ReactionAside(c, p, b, m.broadcast, st, r, out, taken);
    }
  }

  lemma ReactionAside(
    c: Config, p: Process, b: Instance, bm: Broadcast, st: State, r: Reaction, out: seq<Send>, taken: seq<Pending>)
    requires c.Sound() && c.mixingTime >= 1 && !p.halted && b !in p.committed && b.author < c.n
    requires Quiet(r.out, b) && r.st.pot == st.pot && r.st.own == st.own && r.st.pending == st.pending
    requires KeepsReveal(st, r.st) && !r.verdict.CommitTo?
    requires b in p.log ==> st == Counted(p.log[b])
    requires b in p.delivered ==> b in p.log && Aside(c, p, out, taken, b) && r.verdict != Deliver
    requires b !in p.delivered ==> Quiet(out, b) && Untouched(st) && st.pending == taken
    requires r.verdict == Deliver ==> r.st.stage < DELIVERED_STAGE
    ensures var s := ApplyProtocol(c, p, b, bm, r); !s.p.halted ==> Aside(c, s.p, out + s.out, taken, b)
  {
    if r.verdict == Deliver {
      var q := WithState(p, b, r.st);
      QuietConcat(out, r.out, b);
      if c.self !in st.pot {
        DeliveryBystands(c, q, b, bm, out + r.out);
        Regroup(out, r.out, DeliverInstance(c, q, b, bm).out);
      } else {
        DeliverEffect(c, q, b, bm);
      }
    } else if b in p.delivered && c.self !in p.log[b].pot {
      SaysNothing(c, p.log[b], out, r.out, taken, b);
    }
  }

  lemma TakeAside(c: Config, p: Process, i: Input, out: seq<Send>, taken: seq<Pending>, b: Instance)
    requires c.Sound() && c.mixingTime >= 1 && Inv(c, p) && !p.halted
    requires Waiting(p, out, taken, b) && Aside(c, p, out, taken, b)
    ensures var s := Take(c, p, i); !s.p.halted ==> Aside(c, s.p, out + s.out, taken + TakenIn(c, p, i, b), b)
  {
    NothingMore(out, taken);
    if Subject(c, p, i) != b {
      TakeElsewhere(c, p, i, b);
      StillAside(c, p, Take(c, p, i).p, out, Take(c, p, i).out, taken, b);
    } else if !Possible(c, p, i) || b in p.committed {
      TakeNothing(c, p, i, b);
    } else {
      match i
      case OnProtocol(sender, _, m) => ProtocolAside(c, p, sender, b, m, out, taken);
      case OnCommitment(sender, _, m) =>
        CommitmentAside(c, p, sender, b, m, out, taken);
        TakesCommitment(c, p, b, Pending(sender, m));
      case Ask(value, x) => AskedIsNew(c, p, value, x);
    }
  }

  lemma AskedIsNew(c: Config, p: Process, value: int32, x: seq<int32>)
    requires c.Sound() && Inv(c, p) && !p.halted && Possible(c, p, Ask(value, x))
    ensures Instance(c.self, p.transactionCounter) !in HandleBroadcast(c, p, value, x).p.delivered
  {
  }

  lemma {:induction false} RunAside(c: Config, inputs: seq<Input>, b: Instance)
    requires c.Sound() && c.mixingTime >= 1 && !Run(c, inputs).p.halted
    ensures Aside(c, Run(c, inputs).p, Run(c, inputs).out, Taken(c, inputs, b), b)
  {
    if inputs != [] {
      var before, i := inputs[..|inputs| - 1], inputs[|inputs| - 1];
      var s := Run(c, before);
      UpBefore(c, inputs);
      RunAside(c, before, b);
      RunKeepsInv(c, before);
      RunWaits(c, before, b);
      TakeAside(c, s.p, i, s.out, Taken(c, before, b), b);
      assert Taken(c, inputs, b) == Taken(c, before, b) + TakenIn(c, s.p, i, b);
    }
  }

  /**
   * In every run, a process outside its own potential set has said of a delivered secret, until it commits: FAILED,
   * once and to its potential witnesses, exactly if one of its own witnesses told it so; and no DONE.
   */
  lemma FailureToldOnce(c: Config, inputs: seq<Input>, b: Instance)
    requires c.Sound() && c.mixingTime >= 1
    requires var p := Run(c, inputs).p; !p.halted && b in p.delivered && b in p.log && c.self !in p.log[b].pot
    ensures var st, out := Run(c, inputs).p.log[b], Run(c, inputs).out;
            && Failures(out, b) == (if OwnFailure(st.own, Heard(c, inputs, b)) then [st.pot] else [])
            && Silent(out, b, SaidDone)
  {
    RunAside(c, inputs, b);
    RunKeepsInv(c, inputs);
    TakenIsHeard(c, inputs, b);
    assert Apart(Run(c, inputs).p.log, Run(c, inputs).p.committed);
  }
}
