/**
 * Which share a process keeps of each instance, and that this share, decrypted, is what it reveals: to all of its
 * potential witnesses, and the author's if the author and the process's own witnesses are honest.
 */
module ReliableShares {
  import opened GoIntegers
  import opened Options
  import opened Quorums
  import opened Reliable
  import opened ReliableRuns
  import opened ReliableSecrets
  import opened ReliableTraces
  import opened ReliableRoundTrip
  import opened ReliableVotes

  // ---------------------------------------------------------------- the share kept

  /** A NOTIFY that is taken: it finds a witness that has not moved as one. */
  ghost predicate TakesAll(c: Config, pot: set<Id>, l: Ledger, x: Receipt) {
    x.m.kind == NOTIFY && c.self in pot && WitnessLevel(c, pot, l) == 0 && |x.m.shares| > c.self
  }

  /** An ECHO_FROM_WITNESS that is taken: from an own witness, to a process that has not moved. */
  ghost predicate TakesOne(c: Config, own: set<Id>, l: Ledger, x: Receipt) {
    x.m.kind == ECHO_FROM_WITNESS && x.sender in own && ProcessLevel(c, l) == 0 && x.m.shares != []
  }

  /** A process's own share is the one in the last message it took, and missing before. */
  ghost function OwnShare(c: Config, own: set<Id>, pot: set<Id>, received: seq<Receipt>): Share {
    if received == [] then []
    else
      var before, x := received[..|received| - 1], received[|received| - 1];
      if TakesAll(c, pot, LedgerOf(own, before), x) then x.m.shares[c.self]
      else if TakesOne(c, own, LedgerOf(own, before), x) then x.m.shares[0]
      else OwnShare(c, own, pot, before)
  }

  /** A witness keeps all the shares of the NOTIFY it took. */
  ghost function AllShares(c: Config, own: set<Id>, pot: set<Id>, received: seq<Receipt>): seq<Share> {
    if received == [] then []
    else
      var before, x := received[..|received| - 1], received[|received| - 1];
      if TakesAll(c, pot, LedgerOf(own, before), x) then x.m.shares else AllShares(c, own, pot, before)
  }

  ghost predicate KeepsShares(c: Config, st: State, received: seq<Receipt>) {
    && st.ownEncryptedShare == OwnShare(c, st.own, st.pot, received)
    && st.encryptedShares == AllShares(c, st.own, st.pot, received)
  }

  lemma NotifyTakes(c: Config, b: Instance, st: State, l: Ledger, x: Receipt)
    requires Fits(c, st, l) && x.m.kind == NOTIFY
    ensures var r := OnNotify(c, b, st, x.m.broadcast, x.m.shares);
            r.verdict != Crash ==>
              && r.st.ownEncryptedShare
                 == (if TakesAll(c, st.pot, l, x) then x.m.shares[c.self] else st.ownEncryptedShare)
              && r.st.encryptedShares == (if TakesAll(c, st.pot, l, x) then x.m.shares else st.encryptedShares)
  {
  }

  lemma EchoTakes(c: Config, b: Instance, st: State, l: Ledger, x: Receipt)
    requires Fits(c, st, l) && x.m.kind == ECHO_FROM_WITNESS
    ensures var r := OnEchoFromWitness(b, st, x.sender, x.m.broadcast, x.m.shares);
            r.verdict != Crash ==>
              && r.st.ownEncryptedShare == (if TakesOne(c, st.own, l, x) then x.m.shares[0] else st.ownEncryptedShare)
              && r.st.encryptedShares == st.encryptedShares
  {
  }

  lemma OthersTakeNothing(c: Config, b: Instance, st: State, x: Receipt)
    requires x.m.kind != NOTIFY && x.m.kind != ECHO_FROM_WITNESS
    ensures var r := React(c, b, st, x.sender, x.m);
            r.st.ownEncryptedShare == st.ownEncryptedShare && r.st.encryptedShares == st.encryptedShares
  {
  }

  lemma ReactTakes(c: Config, b: Instance, st: State, l: Ledger, x: Receipt)
    requires Fits(c, st, l)
    ensures var r := React(c, b, st, x.sender, x.m);
            r.verdict != Crash ==>
              && r.st.ownEncryptedShare
                 == (if TakesAll(c, st.pot, l, x) then x.m.shares[c.self]
                     else if TakesOne(c, st.own, l, x) then x.m.shares[0]
                     else st.ownEncryptedShare)
              && r.st.encryptedShares == (if TakesAll(c, st.pot, l, x) then x.m.shares else st.encryptedShares)
  {
    if x.m.kind == NOTIFY {
      NotifyTakes(c, b, st, l, x);
    } else if x.m.kind == ECHO_FROM_WITNESS {
      EchoTakes(c, b, st, l, x);
    } else {
      OthersTakeNothing(c, b, st, x);
    }
  }

  lemma ReactKeepsShares(c: Config, b: Instance, st: State, received: seq<Receipt>, x: Receipt)
    requires Fits(c, st, LedgerOf(st.own, received)) && KeepsShares(c, st, received) && c.f < c.n
    ensures var r := React(c, b, st, x.sender, x.m);
            r.verdict != Crash ==> KeepsShares(c, Settle(r), received + [x])
  {
    ReactTakes(c, b, st, LedgerOf(st.own, received), x);
    ReactMoves(c, b, st, x.sender, x.m);
    assert (received + [x])[..|received|] == received;
  }

  lemma StepKeepsShares(c: Config, p: Process, s: Step, received: seq<Receipt>, i: Input, out: seq<Send>, b: Instance)
    requires c.Sound() && StandsFor(c, p, received, out, b) && Stepped(c, p, s, i, b)
    requires b in p.log ==> KeepsShares(c, p.log[b], received)
    requires b in s.p.log
    ensures KeepsShares(c, s.p.log[b], received + ReceiptIn(c, i, b))
  {
    RegisterKeepsShares(c, p, received, out, b);
    if ReceiptIn(c, i, b) == [] {
      assert received + [] == received;
      SameShares(c, Register(c, p, b), s.p.log[b], received);
    } else {
      ReactedKeepsShares(c, p, s, received, ReceiptIn(c, i, b)[0], out, b);
    }
  }

  lemma SameShares(c: Config, st: State, st': State, received: seq<Receipt>)
    requires KeepsShares(c, st, received) && SameStages(st, st')
    ensures KeepsShares(c, st', received)
  {
  }

  lemma RegisterKeepsShares(c: Config, p: Process, received: seq<Receipt>, out: seq<Send>, b: Instance)
    requires c.Sound() && StandsFor(c, p, received, out, b)
    requires b in p.log ==> KeepsShares(c, p.log[b], received)
    ensures KeepsShares(c, Register(c, p, b), received)
  {
  }

  lemma ReactedKeepsShares(
    c: Config, p: Process, s: Step, received: seq<Receipt>, x: Receipt, out: seq<Send>, b: Instance)
    requires c.Sound() && StandsFor(c, p, received, out, b) && Reacted(c, p, s, x, b)
    requires KeepsShares(c, Register(c, p, b), received)
    ensures KeepsShares(c, s.p.log[b], received + [x])
  {
    var st := Counted(Register(c, p, b));
    RegisterAccounted(c, p, received, out, b);
    SameShares(c, Register(c, p, b), st, received);
    ReactKeepsShares(c, b, st, received, x);
    SameShares(c, Settle(React(c, b, st, x.sender, x.m)), s.p.log[b], received + [x]);
  }

  /**
   * In every run, while an instance has its state, the share the process keeps is the one in the last NOTIFY or
   * ECHO_FROM_WITNESS it took, and as a witness it keeps all those of the NOTIFY.
   */
  lemma {:induction false} SharesKept(c: Config, inputs: seq<Input>, b: Instance)
    requires c.Sound() && c.mixingTime >= 1 && !Run(c, inputs).p.halted && b in Run(c, inputs).p.log
    ensures KeepsShares(c, Run(c, inputs).p.log[b], ReceivedOf(c, inputs, b))
  {
    var before, i := inputs[..|inputs| - 1], inputs[|inputs| - 1];
    var p := Run(c, before).p;
    UpBefore(c, inputs);
    OpenBefore(c, inputs, b);
    if b in p.log {
      SharesKept(c, before, b);
    }
    RunStands(c, before, b);
    TakeSteps(c, p, i, b);
    StepKeepsShares(c, p, Take(c, p, i), ReceivedOf(c, before, b), i, Run(c, before).out, b);
  }

  lemma OpenBefore(c: Config, inputs: seq<Input>, b: Instance)
    requires c.Sound() && c.mixingTime >= 1 && inputs != []
    requires !Run(c, inputs).p.halted && b in Run(c, inputs).p.log
    ensures b !in Run(c, inputs).p.committed && b !in Run(c, inputs[..|inputs| - 1]).p.committed
  {
    RunKeepsInv(c, inputs);
    LoggedIsOpen(c, Run(c, inputs).p, b);
    StillCommitted(c, inputs, b);
  }

  /**
   * Short lists of shares, in every run: one that a process would take its share from brings it down exactly if it is
   * too short, and a witness has by then sent on as many shares as there were, if its own was among them.
   */
  lemma ShortListsBringDown(c: Config, inputs: seq<Input>, x: Receipt, b: Instance)
    requires c.Sound() && c.mixingTime >= 1 && b.author < c.n
    requires var p := Run(c, inputs).p; !p.halted && b !in p.committed
    ensures var p := Run(c, inputs).p;
            var st, l := Register(c, p, b), LedgerOf(Register(c, p, b).own, ReceivedOf(c, inputs, b));
            var s, m := HandleProtocol(c, p, x.sender, b, x.m), x.m;
            && (m.kind == NOTIFY && c.self in st.pot && WitnessLevel(c, st.pot, l) == 0 ==>
                  && (s.p.halted <==> |m.shares| < c.n)
                  && (s.p.halted ==>
                        s.out == if |m.shares| <= c.self then [] else [ShareEach(b, m.broadcast, m.shares)]))
            && (m.kind == ECHO_FROM_WITNESS && x.sender in st.own && ProcessLevel(c, l) == 0 ==>
                  && (s.p.halted <==> m.shares == [])
                  && (s.p.halted ==> s.out == []))
  {
    var p := Run(c, inputs).p;
    var st := Counted(Register(c, p, b));
    RunStands(c, inputs, b);
    RegisterAccounted(c, p, ReceivedOf(c, inputs, b), Run(c, inputs).out, b);
    assert HandleProtocol(c, p, x.sender, b, x.m)
        == ApplyProtocol(c, p, b, x.m.broadcast, React(c, b, st, x.sender, x.m));
    if x.m.kind == NOTIFY {
      NotifyCrashes(c, p, b, st, x.m.broadcast, x.m.shares);
    } else if x.m.kind == ECHO_FROM_WITNESS {
      EchoCrashes(c, p, b, st, x.sender, x.m.broadcast, x.m.shares);
    }
  }

  lemma NotifyCrashes(c: Config, p: Process, b: Instance, st: State, bm: Broadcast, shares: seq<Share>)
    requires c.Sound() && !p.halted
    ensures c.self in st.pot && st.witnessStage == INITIAL_WITNESS_STAGE ==>
              var s := ApplyProtocol(c, p, b, bm, OnNotify(c, b, st, bm, shares));
              && (s.p.halted <==> |shares| < c.n)
              && (s.p.halted ==> s.out == if |shares| <= c.self then [] else [ShareEach(b, bm, shares)])
  {
  }

  lemma EchoCrashes(
    c: Config, p: Process, b: Instance, st: State, sender: Id, bm: Broadcast, shares: seq<Share>)
    requires c.Sound() && !p.halted
    ensures sender in st.own && st.stage == INITIAL_STAGE ==>
              var s := ApplyProtocol(c, p, b, bm, OnEchoFromWitness(b, st, sender, bm, shares));
              (s.p.halted <==> shares == []) && (s.p.halted ==> s.out == [])
  {
  }

  // ---------------------------------------------------------------- the share revealed

  predicate IsReveal(y: Send) {
    y.ToSet? && y.content.Commitment? && y.content.c.Reveal?
  }

  /** A reveal made in this state: the process's own share, decrypted, to its potential witnesses. */
  ghost predicate RevealedFrom(c: Config, p: Process, y: Send) {
    && IsReveal(y) && !p.halted && y.instance in p.log
    && y.to == p.log[y.instance].pot
    && c.decrypt(p.log[y.instance].ownEncryptedShare) == Some(y.content.c.share)
  }

  lemma DueRevealsFrom(c: Config, p: Process, y: Send)
    requires y in RevealDue(c, p).out
    ensures var due := p.deliveredCount - c.mixingTime;
            due in p.checkpoints && y.instance == p.checkpoints[due] && RevealedFrom(c, p, y)
  {
  }

  /** What a delivery reveals is of a transaction delivered before, whose state it does not touch. */
  lemma DeliveryRevealsFrom(c: Config, p: Process, b: Instance, bm: Broadcast, y: Send)
    requires c.Sound() && c.mixingTime >= 1 && Inv(c, p) && !p.halted && b in p.log && b !in p.delivered
    requires y in DeliverInstance(c, p, b, bm).out && IsReveal(y)
    ensures RevealedFrom(c, p, y) && y.instance != b
  {
    var q := Recorded(p, b, bm);
    var r := Replay(c, q, b, p.log[b].pending);
    JustRecorded(c, p, b, bm);
    LoggedIsOpen(c, p, b);
    ReplayRevealsNothing(c, q, b, p.log[b].pending);
    ReplayEffect(c, q, b, p.log[b].pending);
    DueRevealsFrom(c, PendingCleared(r.p, b), y);
    OldCheckpoint(c, p, p.deliveredCount + 1 - c.mixingTime);
  }

  lemma OldCheckpoint(c: Config, p: Process, due: int)
    requires c.mixingTime >= 1 && Inv(c, p) && !p.halted && due == p.deliveredCount + 1 - c.mixingTime
    ensures due in p.checkpoints ==> p.checkpoints[due] in p.log && p.checkpoints[due] in p.delivered
  {
    OldCheckpointIsLogged(c, p, due);
    if due in p.checkpoints {
      assert p.checkpoints[due] == p.deliveries[due - 1];
    }
  }

  lemma ProtocolRevealsFrom(c: Config, p: Process, sender: Id, b: Instance, m: ProtocolMessage, y: Send)
    requires c.Sound() && c.mixingTime >= 1 && Inv(c, p)
    requires y in HandleProtocol(c, p, sender, b, m).out && IsReveal(y)
    ensures RevealedFrom(c, p, y)
  {
    var st := Counted(Register(c, p, b));
    var r := React(c, b, st, sender, m);
    ReactMoves(c, b, st, sender, m);
    ReactRevealsNothing(c, b, st, r, m.broadcast);
    assert HandleProtocol(c, p, sender, b, m) == ApplyProtocol(c, p, b, m.broadcast, r);
    ReactionRevealsFrom(c, p, b, m.broadcast, st, r, y);
  }

  lemma ReactionRevealsFrom(
    c: Config, p: Process, b: Instance, bm: Broadcast, st: State, r: Reaction, y: Send)
    requires c.Sound() && c.mixingTime >= 1 && Inv(c, p) && !p.halted && b !in p.committed
    requires NoReveals(r.out) && Moves(c, b, st, r, bm)
    requires (b in p.log ==> st.stage == p.log[b].stage) && (b !in p.log ==> st.stage == INITIAL_STAGE)
    requires y in ApplyProtocol(c, p, b, bm, r).out && IsReveal(y)
    ensures RevealedFrom(c, p, y)
  {
    var q := WithState(p, b, r.st);
    assert Touches(p, q, b);
    TouchKeepsInv(c, p, q, b);
    OnlyDeliveriesReveal(c, p, b, bm, r, y);
    LoggedIsOpen(c, q, b);
    DeliveryRevealsFrom(c, q, b, bm, y);
  }

  lemma OnlyDeliveriesReveal(c: Config, p: Process, b: Instance, bm: Broadcast, r: Reaction, y: Send)
    requires c.Sound() && NoReveals(r.out) && y in ApplyProtocol(c, p, b, bm, r).out && IsReveal(y)
    ensures r.verdict == Deliver && y in DeliverInstance(c, WithState(p, b, r.st), b, bm).out
  {
  }

  lemma TakeRevealsFrom(c: Config, p: Process, i: Input, y: Send)
    requires c.Sound() && c.mixingTime >= 1 && Inv(c, p) && y in Take(c, p, i).out && IsReveal(y)
    ensures RevealedFrom(c, p, y)
  {
    match i
    case OnProtocol(sender, b, m) => ProtocolRevealsFrom(c, p, sender, b, m, y);
    case OnCommitment(sender, b, m) =>
      CommitmentRevealsNothing(c, p, sender, b, m, Register(c, p, b));
      assert false;
    case Ask(value, x) =>
      AskRevealsNothing(c, p, value, x, FreshState(c, p));
      assert false;
  }

  lemma AskRevealsNothing(c: Config, p: Process, value: int32, x: seq<int32>, st: State)
    requires |x| == c.DataShares() <= c.n
    ensures NoReveals(BroadcastOn(c, p, value, x, st).out)
  {
  }

  /** The reveal y was made at the k-th input, with the share that the messages received until then had brought. */
  ghost predicate RevealedAt(c: Config, inputs: seq<Input>, k: nat, y: Send)
    requires c.Sound()
  {
    && k < |inputs| && IsReveal(y)
    && y in Take(c, Run(c, inputs[..k]).p, inputs[k]).out
    && var p, t := Run(c, inputs[..k]).p, y.instance;
    && !p.halted && t in p.log && y.to == p.log[t].pot
    && c.decrypt(OwnShare(c, p.log[t].own, p.log[t].pot, ReceivedOf(c, inputs[..k], t))) == Some(y.content.c.share)
  }

  /** Every REVEAL sent in a run carries the share then kept, decrypted, and goes to the potential witnesses. */
  lemma {:induction false} RevealsAreShares(c: Config, inputs: seq<Input>, y: Send) returns (k: nat)
    requires c.Sound() && c.mixingTime >= 1 && y in Run(c, inputs).out && IsReveal(y)
    ensures RevealedAt(c, inputs, k, y)
  {
    var j := |inputs| - 1;
    var before := Run(c, inputs[..j]);
    if y in before.out {
      k := RevealsAreShares(c, inputs[..j], y);
      assert inputs[..j][..k] == inputs[..k];
    } else {
      k := j;
      RunKeepsInv(c, inputs[..j]);
      TakeRevealsFrom(c, before.p, inputs[j], y);
      SharesKept(c, inputs[..j], y.instance);
    }
  }

  // ---------------------------------------------------------------- honest shares

  /** Every NOTIFY carried the author's shares, and every own witness passed on this process's. */
  ghost predicate HonestlyTold(c: Config, own: set<Id>, received: seq<Receipt>, shares: seq<Share>)
    requires c.self < |shares|
  {
    forall x | x in received ::
      && (x.m.kind == NOTIFY ==> x.m.shares == shares)
      && (x.m.kind == ECHO_FROM_WITNESS && x.sender in own ==> x.m.shares == [shares[c.self]])
  }

  /** The process has echoed, as a witness or as a process. */
  ghost predicate EchoDue(c: Config, own: set<Id>, pot: set<Id>, received: seq<Receipt>) {
    Due(c, own, pot, received, ECHO_FROM_WITNESS) || Due(c, own, pot, received, ECHO_FROM_PROCESS)
  }

  lemma ReachedGrows(votes: map<Id, int>, votes': map<Id, int>, threshold: int)
    requires Gains(votes, votes') && Reached(votes, threshold)
    ensures Reached(votes', threshold)
  {
    var v :| |Voters(votes, v)| >= 1 && |Voters(votes, v)| >= threshold;
    assert |Voters(votes', v)| >= |Voters(votes, v)|;
  }

  /** From the start an instance moves to its first level exactly by a message whose share is taken. */
  lemma FirstMove(c: Config, own: set<Id>, pot: set<Id>, l: Ledger, x: Receipt)
    requires x.m.kind == NOTIFY ==> |x.m.shares| > c.self
    requires x.m.kind == ECHO_FROM_WITNESS && x.sender in own ==> x.m.shares != []
    ensures var l' := Noted(own, l, x);
            && (TakesAll(c, pot, l, x) <==> WitnessLevel(c, pot, l') == 1 && WitnessLevel(c, pot, l) != 1)
            && (TakesOne(c, own, l, x) <==> ProcessLevel(c, l') == 1 && ProcessLevel(c, l) != 1)
  {
    var l' := Noted(own, l, x);
    NotedGrows(own, l, x);
    WitnessLevelGrows(c, pot, l, l');
    ProcessLevelGrows(c, l, l');
  }

  lemma WitnessLevelGrows(c: Config, pot: set<Id>, l: Ledger, l': Ledger)
    requires Grows(l, l')
    ensures WitnessLevel(c, pot, l) <= WitnessLevel(c, pot, l')
  {
    if ValidateDue(c, l) {
      ReachedGrows(l.readies, l'.readies, (c.n + c.f + 2) / 2);
      assert ValidateDue(c, l');
    }
    if ReadyDue(c, l) {
      ReadyDueGrows(c, l, l');
    }
  }

  lemma ReadyDueGrows(c: Config, l: Ledger, l': Ledger)
    requires Grows(l, l') && ReadyDue(c, l)
    ensures ReadyDue(c, l')
  {
    if Reached(l.readies, c.f + 1) {
      ReachedGrows(l.readies, l'.readies, c.f + 1);
    } else {
      ReachedGrows(l.echoes, l'.echoes, (c.n + c.f + 2) / 2);
    }
  }

  lemma ProcessLevelGrows(c: Config, l: Ledger, l': Ledger)
    requires Grows(l, l') && (l.told ==> l'.told)
    ensures ProcessLevel(c, l) <= ProcessLevel(c, l')
  {
    if Reached(l.validates, c.witnessThreshold) {
      ReachedGrows(l.validates, l'.validates, c.witnessThreshold);
    }
    if Reached(l.witnessReadies, c.witnessThreshold) {
      ReachedGrows(l.witnessReadies, l'.witnessReadies, c.witnessThreshold);
    }
  }

  /** Told honestly, a process keeps its own share from its first echo on, and none before. */
  lemma {:induction false} HonestShareKept(
    c: Config, own: set<Id>, pot: set<Id>, received: seq<Receipt>, shares: seq<Share>)
    requires c.self < |shares| && HonestlyTold(c, own, received, shares)
    ensures OwnShare(c, own, pot, received) == if EchoDue(c, own, pot, received) then shares[c.self] else []
  {
    if received == [] {
      NothingDue(c, own, pot, ECHO_FROM_WITNESS);
      NothingDue(c, own, pot, ECHO_FROM_PROCESS);
    } else {
      var before, x := received[..|received| - 1], received[|received| - 1];
      assert received == before + [x];
      HonestShareKept(c, own, pot, before, shares);
      FirstMove(c, own, pot, LedgerOf(own, before), x);
      OneMore(c, own, pot, before, x, ECHO_FROM_WITNESS);
      OneMore(c, own, pot, before, x, ECHO_FROM_PROCESS);
      StandsNow(c, own, pot, before, ECHO_FROM_WITNESS);
      StandsNow(c, own, pot, before, ECHO_FROM_PROCESS);
    }
  }

  lemma StandsNow(c: Config, own: set<Id>, pot: set<Id>, received: seq<Receipt>, kind: Kind)
    ensures StandsAfter(c, pot, LedgerOf(own, received), kind) ==> Due(c, own, pot, received, kind)
  {
  }

  /** An echo of t is among what was sent. */
  predicate Echoed(out: seq<Send>, t: Instance) {
    Count(out, t, ECHO_FROM_WITNESS) + Count(out, t, ECHO_FROM_PROCESS) >= 1
  }

  /**
   * With an honest author and honest own witnesses, a process that has echoed a transaction, in either role, by the
   * time its reveal is due reveals its own part of the code word, to all its potential witnesses: the one that
   * OnlyTheRealShareIsGenuine accepts. One that has not echoed has nothing but the missing share to decrypt.
   */
  lemma HonestReveal(
    c: Config, decrypts: Id -> Share -> Option<Share>, inputs: seq<Input>, k: nat, y: Send, x: seq<int32>,
    data: seq<Share>, shares: seq<Share>)
    requires c.Sound() && c.mixingTime >= 1 && Decrypts(c, decrypts) && c.decrypt == decrypts(c.self)
    requires Honest(c, x, data, shares) && RevealedAt(c, inputs, k, y)
    requires var st := Run(c, inputs[..k]).p.log[y.instance];
             HonestlyTold(c, st.own, ReceivedOf(c, inputs[..k], y.instance), shares)
    ensures var before, t := Run(c, inputs[..k]), y.instance;
            && y.to == before.p.log[t].pot
            && (if Echoed(before.out, t) then y.content == Commitment(Reveal(data[c.self]))
                else c.decrypt([]) == Some(y.content.c.share))
  {
    var before, t := Run(c, inputs[..k]), y.instance;
    var st, received := before.p.log[t], ReceivedOf(c, inputs[..k], t);
    StagesAreCounts(c, inputs[..k], t);
    assert Echoed(before.out, t) <==> EchoDue(c, st.own, st.pot, received);
    HonestShareKept(c, st.own, st.pot, received, shares);
    assert c.encrypt(c.self, data[c.self]) == Some(shares[c.self]);
    assert decrypts(c.self)(c.encrypt(c.self, data[c.self]).value) == Some(data[c.self]);
  }
}
