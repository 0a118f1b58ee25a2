/**
 * Why mixingTime must be at least 1. With 0 a deferred DONE can commit an instance while it is being delivered, and
 * the reveal due in the same delivery then finds no state.
 */
module ReliableMixing {
  import opened GoIntegers
  import opened Options
  import opened Quorums
  import opened Histories
  import opened Selection
  import opened WitnessSets
  import opened Reliable
  import opened ReliableRuns
  import opened ReliableSecrets
  import opened ReliableReveals
  import opened ReliableWitnesses

  /** One of them is replayed in a process still up. */
  ghost predicate CommitsDuring(
    c: Config, p: Process, b: Instance, bm: Broadcast, deferred: seq<Pending>, own: set<Id>, i: nat)
    requires c.Sound()
  {
    && i < |deferred| && CommitsAtOnce(own, bm.xHash, deferred[i])
    && !Replay(c, Recorded(p, b, bm), b, deferred[..i]).p.halted
  }

  /** One deferred message of a delivered instance that still has its state. */
  lemma HandledDuring(c: Config, q: Process, b: Instance, d: Pending, own: set<Id>)
    requires c.Sound() && b in q.log && b in q.delivered && b !in q.committed && b.author < c.n
    requires q.log[b].own == own && q.deliveredCount - Checkpoint(q, b) >= c.mixingTime
    ensures var s := HandleCommitment(c, q, d.sender, b, d.m).p;
            && s == q.(log := s.log, halted := s.halted, committed := s.committed, commits := s.commits)
            && (if !q.halted && CommitsAtOnce(own, q.delivered[b].xHash, d)
                then b in s.committed && b !in s.log
                else b !in s.committed && b in s.log && s.log[b].own == own)
  {
    if !q.halted {
      var st := Counted(q.log[b]);
      var r := ReactionTo(c, q, d.sender, b, d.m, st);
      CommitVerdict(c, q, d.sender, b, d.m, st);
      CommitmentReactionMoves(c, b, st, d.sender, d.m, q.delivered[b].xHash, q.deliveredCount - Checkpoint(q, b));
      AppliedDuring(q, b, r);
    }
  }

  lemma AppliedDuring(q: Process, b: Instance, r: Reaction)
    requires b in q.log && b in q.delivered && b !in q.committed && !r.verdict.Deliver?
    ensures var s := Apply(q, b, r).p;
            && s == q.(log := s.log, halted := s.halted, committed := s.committed, commits := s.commits)
            && (if r.verdict.CommitTo? then b in s.committed && b !in s.log
                else b !in s.committed && b in s.log && s.log[b] == r.st)
  {
  }

  lemma LastReplayed(c: Config, p: Process, b: Instance, deferred: seq<Pending>)
    requires c.Sound() && deferred != []
    ensures var k := |deferred| - 1;
            var before := Replay(c, p, b, deferred[..k]);
            Replay(c, p, b, deferred).p == HandleCommitment(c, before.p, deferred[k].sender, b, deferred[k].m).p
  {
  }

  /** What a replay with no mixing time leaves of b: nothing exactly if one of the messages commits. */
  ghost predicate ReplayLeaves(
    c: Config, p: Process, b: Instance, bm: Broadcast, deferred: seq<Pending>, own: set<Id>, s: Process)
    requires c.Sound()
  {
    var q := Recorded(p, b, bm);
    && s == q.(log := s.log, halted := s.halted, committed := s.committed, commits := s.commits)
    && (if exists i :: CommitsDuring(c, p, b, bm, deferred, own, i)
        then b in s.committed && b !in s.log
        else b !in s.committed && b in s.log && s.log[b].own == own)
  }

  lemma {:induction false} ReplayWithoutMixing(
    c: Config, p: Process, b: Instance, bm: Broadcast, deferred: seq<Pending>)
    requires c.Sound() && c.mixingTime == 0 && b in p.log && b !in p.committed && b.author < c.n
    ensures ReplayLeaves(c, p, b, bm, deferred, p.log[b].own, Replay(c, Recorded(p, b, bm), b, deferred).p)
  {
    if deferred != [] {
      var k := |deferred| - 1;
      ReplayWithoutMixing(c, p, b, bm, deferred[..k]);
      StillCommits(c, p, b, bm, deferred, p.log[b].own);
      LastReplayed(c, Recorded(p, b, bm), b, deferred);
      LastLeaves(c, p, b, bm, deferred, Replay(c, Recorded(p, b, bm), b, deferred[..k]).p);
    }
  }

  /** before is what the replay of all but the last message left. */
  lemma LastLeaves(c: Config, p: Process, b: Instance, bm: Broadcast, deferred: seq<Pending>, before: Process)
    requires c.Sound() && c.mixingTime == 0 && b in p.log && b !in p.committed && b.author < c.n && deferred != []
    requires var k, own := |deferred| - 1, p.log[b].own;
             && before == Replay(c, Recorded(p, b, bm), b, deferred[..k]).p
             && ReplayLeaves(c, p, b, bm, deferred[..k], own, before)
             && ((exists i :: CommitsDuring(c, p, b, bm, deferred, own, i))
                 <==> (exists i :: CommitsDuring(c, p, b, bm, deferred[..k], own, i))
                      || CommitsDuring(c, p, b, bm, deferred, own, k))
    ensures var d := deferred[|deferred| - 1];
            ReplayLeaves(c, p, b, bm, deferred, p.log[b].own, HandleCommitment(c, before, d.sender, b, d.m).p)
  {
    var k, own := |deferred| - 1, p.log[b].own;
    if b in before.log {
      HandledDuring(c, before, b, deferred[k], own);
    }
  }

  lemma StillCommits(c: Config, p: Process, b: Instance, bm: Broadcast, deferred: seq<Pending>, own: set<Id>)
    requires c.Sound() && deferred != []
    ensures var k := |deferred| - 1;
            (exists i :: CommitsDuring(c, p, b, bm, deferred, own, i))
            <==> (exists i :: CommitsDuring(c, p, b, bm, deferred[..k], own, i))
                 || CommitsDuring(c, p, b, bm, deferred, own, k)
  {
    var k := |deferred| - 1;
    forall i | 0 <= i < k
      ensures CommitsDuring(c, p, b, bm, deferred, own, i) <==> CommitsDuring(c, p, b, bm, deferred[..k], own, i)
    {
      assert deferred[..k][..i] == deferred[..i];
    }
    if i :| CommitsDuring(c, p, b, bm, deferred[..k], own, i) {
      assert CommitsDuring(c, p, b, bm, deferred, own, i);
    }
    if i :| CommitsDuring(c, p, b, bm, deferred, own, i) && i != k {
      assert CommitsDuring(c, p, b, bm, deferred[..k], own, i);
    }
  }

  /**
   * With mixingTime 0 the reveal due is that of the very instance being delivered, and it finds its state exactly
   * when no DONE with the delivered hash from an own witness was deferred, or the process comes down before it.
   */
  lemma WithoutMixingTheStateMayBeGone(c: Config, p: Process, b: Instance, bm: Broadcast)
    requires c.Sound() && c.mixingTime == 0 && b in p.log && b !in p.committed && b.author < c.n
    ensures FindsItsState(c, p, b, bm)
            <==> !exists i :: CommitsDuring(c, p, b, bm, p.log[b].pending, p.log[b].own, i)
    ensures !FindsItsState(c, p, b, bm) ==> DeliverInstance(c, p, b, bm).p.halted
  {
    var s := Replay(c, Recorded(p, b, bm), b, p.log[b].pending).p;
    ReplayWithoutMixing(c, p, b, bm, p.log[b].pending);
    assert s == Recorded(p, b, bm).(
                  log := s.log, halted := s.halted, committed := s.committed, commits := s.commits);
    DueIsTheDelivery(c, p, s, b, bm);
    EndsWithReveal(c, p, b, bm, s);
    assert FindsItsState(c, p, b, bm) == DueHasState(c, PendingCleared(s, b));
  }

  lemma EndsWithReveal(c: Config, p: Process, b: Instance, bm: Broadcast, s: Process)
    requires c.Sound() && b in p.log && s == Replay(c, Recorded(p, b, bm), b, p.log[b].pending).p
    ensures DeliverInstance(c, p, b, bm).p == RevealDue(c, PendingCleared(s, b)).p
  {
  }

  /** s is what the replay has left. */
  lemma DueIsTheDelivery(c: Config, p: Process, s: Process, b: Instance, bm: Broadcast)
    requires c.mixingTime == 0
    requires s == Recorded(p, b, bm).(log := s.log, halted := s.halted, committed := s.committed, commits := s.commits)
    ensures var q := PendingCleared(s, b);
            && (DueHasState(c, q) <==> b in s.log)
            && (b !in s.log ==> RevealDue(c, q).p.halted)
  {
  }

  /** For a process that is no potential witness no reveal can bring it down, so the deferred list alone decides. */
  lemma WithoutMixingAndNoWitness(c: Config, p: Process, b: Instance, bm: Broadcast)
    requires c.Sound() && c.mixingTime == 0 && !p.halted && b in p.log && b !in p.committed && b.author < c.n
    requires c.self !in p.log[b].pot
    ensures FindsItsState(c, p, b, bm)
            <==> forall d | d in p.log[b].pending :: !CommitsAtOnce(p.log[b].own, bm.xHash, d)
  {
    var deferred, own := p.log[b].pending, p.log[b].own;
    WithoutMixingTheStateMayBeGone(c, p, b, bm);
    assert deferred[..|deferred|] == deferred;
    if j :| 0 <= j < |deferred| && CommitsAtOnce(own, bm.xHash, deferred[j]) {
      StaysUp(c, p, b, bm, deferred[..j]);
      assert CommitsDuring(c, p, b, bm, deferred, own, j);
    }
  }

  lemma {:induction false} StaysUp(c: Config, p: Process, b: Instance, bm: Broadcast, deferred: seq<Pending>)
    requires c.Sound() && c.mixingTime == 0 && !p.halted && b in p.log && b !in p.committed && b.author < c.n
    requires c.self !in p.log[b].pot
    ensures var s := Replay(c, Recorded(p, b, bm), b, deferred).p;
            !s.halted && (b in s.log ==> s.log[b].pot == p.log[b].pot) && (b in s.log || b in s.committed)
            && b in s.delivered
  {
    if deferred != [] {
      var k := |deferred| - 1;
      var q := Replay(c, Recorded(p, b, bm), b, deferred[..k]).p;
      StaysUp(c, p, b, bm, deferred[..k]);
      if b !in q.committed {
        NoWitnessNoCrash(c, q, deferred[k].sender, b, deferred[k].m);
      }
    }
  }

  lemma NoWitnessNoCrash(c: Config, q: Process, sender: Id, b: Instance, m: CommitmentMessage)
    requires c.Sound() && !q.halted && b in q.log && b in q.delivered && b !in q.committed && b.author < c.n
    requires c.self !in q.log[b].pot
    ensures var s := HandleCommitment(c, q, sender, b, m).p;
            !s.halted && (b in s.log ==> s.log[b].pot == q.log[b].pot) && (b in s.log || b in s.committed)
            && b in s.delivered
  {
    var st := Counted(q.log[b]);
    var r := ReactionTo(c, q, sender, b, m, st);
    CommitmentReactionMoves(c, b, st, sender, m, q.delivered[b].xHash, q.deliveredCount - Checkpoint(q, b));
    assert r.verdict != Crash;
  }

  lemma FirstCommit(own: set<Id>, xHash: int32, deferred: seq<Pending>, i: nat) returns (first: nat)
    requires i < |deferred| && CommitsAtOnce(own, xHash, deferred[i])
    ensures first <= i && CommitsAtOnce(own, xHash, deferred[first])
    ensures forall d | d in deferred[..first] :: !CommitsAtOnce(own, xHash, d)
  {
    first := 0;
    while !CommitsAtOnce(own, xHash, deferred[first])
      invariant first <= i && forall d | d in deferred[..first] :: !CommitsAtOnce(own, xHash, d)
      decreases i - first
    {
      assert deferred[..first + 1] == deferred[..first] + [deferred[first]];
      first := first + 1;
    }
  }

  lemma HaltedHandles(c: Config, p: Process, sender: Id, b: Instance, m: CommitmentMessage)
    requires c.Sound() && p.halted
    ensures HandleCommitment(c, p, sender, b, m) == Step(p, [])
  {
  }

  lemma {:induction false} HaltedReplay(c: Config, p: Process, b: Instance, deferred: seq<Pending>, i: nat)
    requires c.Sound() && i <= |deferred| && Replay(c, p, b, deferred[..i]).p.halted
    ensures Replay(c, p, b, deferred).p.halted
  {
    var k := |deferred| - 1;
    if i == |deferred| {
      assert deferred[..i] == deferred;
    } else {
      assert deferred[..k][..i] == deferred[..i];
      HaltedReplay(c, p, b, deferred[..k], i);
      HaltedHandles(c, Replay(c, p, b, deferred[..k]).p, deferred[k].sender, b, deferred[k].m);
      LastReplayed(c, p, b, deferred);
    }
  }

  lemma ForgedInMore(c: Config, deferred: seq<Pending>, i: nat, j: nat, data: seq<Share>, xHash: int32)
    requires i <= j <= |deferred| && forall d | d in deferred :: d.sender < |data|
    requires ForgedIn(c, deferred[..i], data, xHash)
    ensures ForgedIn(c, deferred[..j], data, xHash)
  {
    var l :| 0 <= l < i && ForgedAt(c, deferred[..i], l, data, xHash);
    assert deferred[..i][..l] == deferred[..j][..l];
    assert ForgedAt(c, deferred[..j], l, data, xHash);
  }

  /** Until the first message that would commit, exactly a forged share brings the replay down. */
  lemma UpToFirstCommit(
    c: Config, decrypts: Id -> Share -> Option<Share>, p: Process, b: Instance, bm: Broadcast, first: nat,
    x: seq<int32>, data: seq<Share>)
    requires c.Sound() && SoundLibraries(c, decrypts)
    requires !p.halted && b in p.log && b !in p.committed && b.author < c.n
    requires Holds(c, p.log[b], x, data) && Untouched(p.log[b])
    requires first <= |p.log[b].pending| && forall d | d in p.log[b].pending :: d.sender < c.n
    requires forall d | d in p.log[b].pending[..first] :: !CommitsAtOnce(p.log[b].own, bm.xHash, d)
    ensures Replay(c, Recorded(p, b, bm), b, p.log[b].pending[..first]).p.halted
            <==> ForgedIn(c, p.log[b].pending[..first], data, bm.xHash)
  {
    ReplaySettles(c, decrypts, Recorded(p, b, bm), b, [], p.log[b].pending[..first], x, data);
  }

  /** A message that would commit either does or comes after a forged share. */
  lemma CommitsOrForged(
    c: Config, decrypts: Id -> Share -> Option<Share>, p: Process, b: Instance, bm: Broadcast, i: nat,
    x: seq<int32>, data: seq<Share>)
    requires c.Sound() && SoundLibraries(c, decrypts)
    requires !p.halted && b in p.log && b !in p.committed && b.author < c.n
    requires Holds(c, p.log[b], x, data) && Untouched(p.log[b])
    requires i < |p.log[b].pending| && forall d | d in p.log[b].pending :: d.sender < c.n
    requires CommitsAtOnce(p.log[b].own, bm.xHash, p.log[b].pending[i])
    ensures var deferred, own := p.log[b].pending, p.log[b].own;
            || ForgedIn(c, deferred[..i], data, bm.xHash)
            || exists j :: CommitsDuring(c, p, b, bm, deferred, own, j)
  {
    var deferred, own := p.log[b].pending, p.log[b].own;
    var first := FirstCommit(own, bm.xHash, deferred, i);
    UpToFirstCommit(c, decrypts, p, b, bm, first, x, data);
    if ForgedIn(c, deferred[..first], data, bm.xHash) {
      ForgedInMore(c, deferred, first, i, data, bm.xHash);
    } else {
      assert CommitsDuring(c, p, b, bm, deferred, own, first);
    }
  }

  /** Where one commits, the first that would does not come after a forged share. */
  lemma CommitsUnforged(
    c: Config, decrypts: Id -> Share -> Option<Share>, p: Process, b: Instance, bm: Broadcast, i: nat,
    x: seq<int32>, data: seq<Share>) returns (first: nat)
    requires c.Sound() && SoundLibraries(c, decrypts)
    requires !p.halted && b in p.log && b !in p.committed && b.author < c.n
    requires Holds(c, p.log[b], x, data) && Untouched(p.log[b])
    requires forall d | d in p.log[b].pending :: d.sender < c.n
    requires CommitsDuring(c, p, b, bm, p.log[b].pending, p.log[b].own, i)
    ensures var deferred, own := p.log[b].pending, p.log[b].own;
            && first < |deferred| && CommitsAtOnce(own, bm.xHash, deferred[first])
            && !ForgedIn(c, deferred[..first], data, bm.xHash)
  {
    var deferred, own := p.log[b].pending, p.log[b].own;
    first := FirstCommit(own, bm.xHash, deferred, i);
    UpToFirstCommit(c, decrypts, p, b, bm, first, x, data);
    if ForgedIn(c, deferred[..first], data, bm.xHash) {
      HaltedStaysDuring(c, p, b, bm, deferred, first, i);
    }
  }

  /** A replay that came down within a prefix does not commit later. */
  lemma HaltedStaysDuring(
    c: Config, p: Process, b: Instance, bm: Broadcast, deferred: seq<Pending>, first: nat, i: nat)
    requires c.Sound() && first <= i <= |deferred|
    requires Replay(c, Recorded(p, b, bm), b, deferred[..first]).p.halted
    ensures Replay(c, Recorded(p, b, bm), b, deferred[..i]).p.halted
  {
    assert deferred[..i][..first] == deferred[..first];
    HaltedReplay(c, Recorded(p, b, bm), b, deferred[..i], first);
  }

  /**
   * For a potential witness that holds an honest author's shares the deferred list decides it too: the state is found
   * exactly when every message that would commit comes after a forged share, which brings the process down first.
   */
  lemma WithoutMixingAndHonestShares(
    c: Config, decrypts: Id -> Share -> Option<Share>, p: Process, b: Instance, bm: Broadcast, x: seq<int32>,
    data: seq<Share>)
    requires c.Sound() && c.mixingTime == 0 && SoundLibraries(c, decrypts)
    requires !p.halted && b in p.log && b !in p.committed && b.author < c.n
    requires Holds(c, p.log[b], x, data) && Untouched(p.log[b])
    requires forall d | d in p.log[b].pending :: d.sender < c.n
    ensures var deferred, own := p.log[b].pending, p.log[b].own;
            FindsItsState(c, p, b, bm) <==>
              forall i | 0 <= i < |deferred| && CommitsAtOnce(own, bm.xHash, deferred[i]) ::
                ForgedIn(c, deferred[..i], data, bm.xHash)
  {
    var deferred, own := p.log[b].pending, p.log[b].own;
    WithoutMixingTheStateMayBeGone(c, p, b, bm);
    if FindsItsState(c, p, b, bm) {
      forall i | 0 <= i < |deferred| && CommitsAtOnce(own, bm.xHash, deferred[i])
        ensures ForgedIn(c, deferred[..i], data, bm.xHash)
      {
        CommitsOrForged(c, decrypts, p, b, bm, i, x, data);
      }
    } else {
      var i :| CommitsDuring(c, p, b, bm, deferred, own, i);
      var first := CommitsUnforged(c, decrypts, p, b, bm, i, x, data);
    }
  }

  /**
   * Two inputs bring a process with mixingTime 0 down, when one witness is enough: a DONE from an own witness for an
   * instance not heard of before, and that witness's VALIDATE with the hash of the secret told.
   */
  lemma WithoutMixingARunComesDown(c: Config, b: Instance, teller: Id, x: seq<int32>, value: int32)
    requires c.Sound() && c.mixingTime == 0 && c.witnessThreshold <= 1 && b.author < c.n && teller < c.n
    requires teller in FreshState(c, NEW_PROCESS).own
    ensures var m := ProtocolMessage(VALIDATE, Broadcast(value, HashOf(x)), []);
            Run(c, [OnCommitment(teller, b, Done(x)), OnProtocol(teller, b, m)]).p.halted
  {
    var i1 := OnCommitment(teller, b, Done(x));
    var i2 := OnProtocol(teller, b, ProtocolMessage(VALIDATE, Broadcast(value, HashOf(x)), []));
    var p := Take(c, NEW_PROCESS, i1).p;
    assert [i1, i2][..1] == [i1] && [i1][..0] == [];
    assert Run(c, [i1]).p == p;
    FirstDone(c, b, teller, x);
    ThenValidate(c, p, b, teller, x, i2.m);
  }

  lemma FirstDone(c: Config, b: Instance, teller: Id, x: seq<int32>)
    requires c.Sound() && b.author < c.n && teller < c.n
    ensures var p := Take(c, NEW_PROCESS, OnCommitment(teller, b, Done(x))).p;
            var st := FreshState(c, NEW_PROCESS);
            && !p.halted && b !in p.committed
            && b in p.log && p.log[b] == Counted(st).(pending := [Pending(teller, Done(x))])
  {
    var st := FreshState(c, NEW_PROCESS);
    assert Take(c, NEW_PROCESS, OnCommitment(teller, b, Done(x)))
        == CommitmentOn(c, NEW_PROCESS, teller, b, Done(x), st);
    assert st.pending + [Pending(teller, Done(x))] == [Pending(teller, Done(x))];
  }

  lemma ThenValidate(c: Config, p: Process, b: Instance, teller: Id, x: seq<int32>, m: ProtocolMessage)
    requires c.Sound() && c.mixingTime == 0 && c.witnessThreshold <= 1 && b.author < c.n && !p.halted
    requires b in p.log && b !in p.committed && teller in p.log[b].own && p.log[b].stage == INITIAL_STAGE
    requires p.log[b].validateFromWitnesses == map[] && p.log[b].pending == [Pending(teller, Done(x))]
    requires m.kind == VALIDATE && m.broadcast.xHash == HashOf(x)
    ensures HandleProtocol(c, p, teller, b, m).p.halted
  {
    var r := React(c, b, Counted(p.log[b]), teller, m);
    VotersAfter(map[], teller, m.broadcast.value, m.broadcast.value);
    assert r.verdict == Deliver;
    var q := WithState(p, b, r.st);
    assert q.log[b].pending[..0] == [];
    assert CommitsDuring(c, q, b, m.broadcast, q.log[b].pending, q.log[b].own, 0);
    WithoutMixingTheStateMayBeGone(c, q, b, m.broadcast);
  }

  /** With minimum sizes of at least 1 every process has an own witness. */
  lemma SomeOwnWitness(c: Config, p: Process) returns (w: Id)
    requires c.Sound() && c.selector.minOwnWitnessSetSize >= 1 && c.selector.minPotWitnessSetSize >= 1
    ensures w < c.n && w in FreshState(c, p).own
  {
    var ds := RanksAfter(c.params, SecretsOf(p.commits));
    RankingIsRanking(ds);
    IdsDistinct(c.n);
    var order := Ranking(ds);
    OwnWitnesses(c.selector, Ids(c.n), ds, order, 0, 0);
    w := order[0].ind;
    OwnMembers(c.selector, Ids(c.n), ds, order, CutLength(c.selector, order), 0);
  }

  /** So with mixingTime 0 and a threshold of one witness there is always a run that comes down. */
  lemma SomeRunComesDown(c: Config, b: Instance, x: seq<int32>, value: int32) returns (inputs: seq<Input>)
    requires c.Sound() && c.mixingTime == 0 && c.witnessThreshold <= 1 && b.author < c.n
    requires c.selector.minOwnWitnessSetSize >= 1 && c.selector.minPotWitnessSetSize >= 1
    ensures |inputs| == 2 && Run(c, inputs).p.halted
  {
    var w := SomeOwnWitness(c, NEW_PROCESS);
    WithoutMixingARunComesDown(c, b, w, x, value);
    inputs := [OnCommitment(w, b, Done(x)),
               OnProtocol(w, b, ProtocolMessage(VALIDATE, Broadcast(value, HashOf(x)), []))];
  }
}
