/**
 * Why agreement is on the value and not on the secret hash: in a system of three processes, one of them Byzantine, a
 * run in which both correct processes deliver one value, each with a hash of the Byzantine process's choice.
 */
module ReliableHashes {
  import opened GoIntegers
  import opened Quorums
  import opened Histories
  import opened Selection
  import opened WitnessSets
  import opened Reliable
  import opened ReliableRuns
  import opened ReliableTraces
  import opened ReliableNetwork
  import opened ReliableWitnesses

  /** Everyone is a witness of everyone, and two witnesses decide: process 2 is too few to decide alone. */
  ghost predicate Three(w: World) {
    && w.WellFormed() && w.common.n == 3 && w.common.f == 1 && w.byz == {2} && w.common.witnessThreshold == 2
    && w.common.selector.minOwnWitnessSetSize >= 3 && w.common.selector.minPotWitnessSetSize >= 3
  }

  lemma {:induction false} OnlyIds(ws: Selector, n: nat, order: seq<Dist>, k: nat)
    requires Indexes(Ids(n), order) && k <= |order|
    ensures OwnUpTo(ws, Ids(n), order, k) <= Everyone(n) && PotUpTo(Ids(n), order, k) <= Everyone(n)
  {
    if k > 0 {
      OnlyIds(ws, n, order, k - 1);
    }
  }

  lemma IsWitness(ws: Selector, n: nat, ds: seq<int>, order: seq<Dist>, i: nat)
    requires |ds| == n && IsRanking(ds, order) && i < n
    requires ws.minOwnWitnessSetSize >= n && ws.minPotWitnessSetSize >= n
    ensures i in Own(ws, Ids(n), order) && i in Pot(ws, Ids(n), order)
  {
    var k := PositionOf(ds, order, i);
    IdsDistinct(n);
    PotAtPosition(ws, Ids(n), ds, order, k);
    PotMembers(Ids(n), ds, order, CutLength(ws, order), k);
    OwnMembers(ws, Ids(n), ds, order, CutLength(ws, order), k);
  }

  lemma AllAreWitnesses(ws: Selector, n: nat, ds: seq<int>, order: seq<Dist>)
    requires |ds| == n && IsRanking(ds, order)
    requires ws.minOwnWitnessSetSize >= n && ws.minPotWitnessSetSize >= n
    ensures Own(ws, Ids(n), order) == Pot(ws, Ids(n), order) == Everyone(n)
  {
    forall i: nat | i < n
      ensures i in Own(ws, Ids(n), order) && i in Pot(ws, Ids(n), order)
    {
      IsWitness(ws, n, ds, order, i);
    }
    OnlyIds(ws, n, order, CutLength(ws, order));
  }

  lemma EveryoneIsWitness(c: Config, p: Process)
    requires c.Sound() && c.selector.minOwnWitnessSetSize >= c.n && c.selector.minPotWitnessSetSize >= c.n
    ensures FreshState(c, p).own == FreshState(c, p).pot == Everyone(c.n)
  {
    var ds := RanksAfter(c.params, SecretsOf(p.commits));
    RankingIsRanking(ds);
    AllAreWitnesses(c.selector, c.n, ds, Ranking(ds));
  }

  // ---------------------------------------------------------------- how far a correct process is

  /** The stages reached and the senders counted at each, all of them for one value. */
  datatype Progress = Progress(
    stage: nat, witnessStage: nat, echoes: set<Id>, witnessReadies: set<Id>, readies: set<Id>, validates: set<Id>)

  const START := Progress(INITIAL_STAGE, INITIAL_WITNESS_STAGE, {}, {}, {}, {})

  ghost predicate AllFor(votes: map<Id, int>, who: set<Id>, v: int) {
    votes.Keys == who && forall q | q in votes :: votes[q] == v
  }

  lemma VotersAll(votes: map<Id, int>, who: set<Id>, v: int, q: Id)
    requires AllFor(votes, who, v) && q !in who
    ensures AllFor(votes[q := v], who + {q}, v)
    ensures |Voters(votes[q := v], v)| == |who| + 1
  {
    assert Voters(votes[q := v], v) == who + {q};
  }

  ghost predicate At(st: State, v: int, f: Progress) {
    && st.own == st.pot == Everyone(3) && st.stage == f.stage && st.witnessStage == f.witnessStage
    && AllFor(st.echoFromProcesses, f.echoes, v) && AllFor(st.readyFromWitnesses, f.witnessReadies, v)
    && AllFor(st.readyFromProcesses, f.readies, v) && AllFor(st.validateFromWitnesses, f.validates, v)
  }

  /** What a message of process q leads to; nothing here is delivered yet. */
  function After(f: Progress, kind: Kind, q: Id): Progress {
    match kind
    case NOTIFY => f
    case ECHO_FROM_WITNESS => f.(stage := SENT_ECHO_FROM_PROCESS)
    case ECHO_FROM_PROCESS =>
      f.(echoes := f.echoes + {q}, witnessStage := if |f.echoes| >= 2 then SENT_READY_FROM_WITNESS else f.witnessStage)
    case READY_FROM_WITNESS =>
      f.(witnessReadies := f.witnessReadies + {q},
         stage := if |f.witnessReadies| >= 1 then SENT_READY_FROM_PROCESS else f.stage)
    case READY_FROM_PROCESS =>
      f.(readies := f.readies + {q}, witnessStage := if |f.readies| >= 2 then SENT_VALIDATE else f.witnessStage)
    case VALIDATE => f.(validates := f.validates + {q})
  }

  predicate Proper(f: Progress, kind: Kind, q: Id) {
    match kind
    case NOTIFY => false
    case ECHO_FROM_WITNESS => f.stage == INITIAL_STAGE
    case ECHO_FROM_PROCESS => f.witnessStage == INITIAL_WITNESS_STAGE && q !in f.echoes
    case READY_FROM_WITNESS => f.stage == SENT_ECHO_FROM_PROCESS && q !in f.witnessReadies
    case READY_FROM_PROCESS => f.witnessStage == SENT_READY_FROM_WITNESS && q !in f.readies
    case VALIDATE => f.stage < DELIVERED_STAGE && f.validates == {}
  }

  predicate Goes(f: Progress, kind: Kind, q: Id, next: Progress) {
    Proper(f, kind, q) && After(f, kind, q) == next
  }

  function Carrier(b: Instance, kind: Kind, bm: Broadcast): Send {
    ToSet(b, Everyone(3), Protocol(ProtocolMessage(kind, bm, [])))
  }

  /** What has been announced on the way. */
  ghost predicate Spoke(out: seq<Send>, b: Instance, bm: Broadcast, f: Progress) {
    && (f.stage >= SENT_ECHO_FROM_PROCESS ==> Carrier(b, ECHO_FROM_PROCESS, bm) in out)
    && (f.stage >= SENT_READY_FROM_PROCESS ==> Carrier(b, READY_FROM_PROCESS, bm) in out)
    && (f.witnessStage >= SENT_READY_FROM_WITNESS ==> Carrier(b, READY_FROM_WITNESS, bm) in out)
    && (f.witnessStage >= SENT_VALIDATE ==> Carrier(b, VALIDATE, bm) in out)
  }

  predicate Announced(f: Progress, kind: Kind) {
    match kind
    case NOTIFY => false
    case ECHO_FROM_WITNESS => false
    case ECHO_FROM_PROCESS => f.stage >= SENT_ECHO_FROM_PROCESS
    case READY_FROM_WITNESS => f.witnessStage >= SENT_READY_FROM_WITNESS
    case READY_FROM_PROCESS => f.stage >= SENT_READY_FROM_PROCESS
    case VALIDATE => f.witnessStage >= SENT_VALIDATE
  }

  function Message(kind: Kind, bm: Broadcast): ProtocolMessage {
    ProtocolMessage(kind, bm, if kind == ECHO_FROM_WITNESS then [[]] else [])
  }

  // ---------------------------------------------------------------- one reaction

  ghost predicate Sized(c: Config) {
    c.n == 3 && c.f == 1 && c.witnessThreshold == 2 && c.self < 3
  }

  /** The new send, if any, is in what was announced. */
  ghost predicate Advances(
    c: Config, b: Instance, st: State, q: Id, kind: Kind, bm: Broadcast, f: Progress, out: seq<Send>)
  {
    var r := React(c, b, st, q, Message(kind, bm));
    && r.verdict == Go && At(r.st, bm.value, After(f, kind, q))
    && Spoke(out + r.out, b, bm, After(f, kind, q))
  }

  lemma SpokeAlso(out: seq<Send>, more: seq<Send>, b: Instance, bm: Broadcast, f: Progress)
    requires Spoke(out, b, bm, f)
    ensures Spoke(out + more, b, bm, f)
    ensures forall y | y in more :: y in out + more
  {
  }

  lemma EchoedToAdvances(c: Config, b: Instance, st: State, q: Id, bm: Broadcast, f: Progress, out: seq<Send>)
    requires Sized(c) && At(st, bm.value, f) && Proper(f, ECHO_FROM_WITNESS, q) && q < 3 && Spoke(out, b, bm, f)
    ensures Advances(c, b, st, q, ECHO_FROM_WITNESS, bm, f, out)
  {
    assert OnEchoFromWitness(b, st, q, bm, [[]])
        == Reaction(st.(ownEncryptedShare := [], stage := SENT_ECHO_FROM_PROCESS),
                    [Carrier(b, ECHO_FROM_PROCESS, bm)], Go);
    SpokeAlso(out, [Carrier(b, ECHO_FROM_PROCESS, bm)], b, bm, f);
  }

  lemma EchoReacts(c: Config, b: Instance, st: State, q: Id, bm: Broadcast, f: Progress)
    requires Sized(c) && At(st, bm.value, f) && Proper(f, ECHO_FROM_PROCESS, q) && q < 3
    ensures var st' := st.(echoFromProcesses := st.echoFromProcesses[q := bm.value]);
            OnEchoFromProcess(c, b, st, q, bm) ==
            if |f.echoes| >= 2
            then Reaction(st'.(witnessStage := SENT_READY_FROM_WITNESS), [Carrier(b, READY_FROM_WITNESS, bm)], Go)
            else Reaction(st', [], Go)
  {
    VotersAll(st.echoFromProcesses, f.echoes, bm.value, q);
    EchoCounted(c, b, st, q, bm, |f.echoes| + 1);
  }

  /** votes is the number of echoes with the new one. */
  lemma EchoCounted(c: Config, b: Instance, st: State, q: Id, bm: Broadcast, votes: nat)
    requires Sized(c) && c.self in st.pot && st.witnessStage == INITIAL_WITNESS_STAGE && q !in st.echoFromProcesses
    requires |Voters(st.echoFromProcesses[q := bm.value], bm.value)| == votes
    ensures var st' := st.(echoFromProcesses := st.echoFromProcesses[q := bm.value]);
            OnEchoFromProcess(c, b, st, q, bm) ==
            if votes >= 3
            then Reaction(st'.(witnessStage := SENT_READY_FROM_WITNESS), [Carrier(b, READY_FROM_WITNESS, bm)], Go)
            else Reaction(st', [], Go)
  {
    assert c.Quorum() == 3;
  }

  lemma EchoAdvances(c: Config, b: Instance, st: State, q: Id, bm: Broadcast, f: Progress, out: seq<Send>)
    requires Sized(c) && At(st, bm.value, f) && Proper(f, ECHO_FROM_PROCESS, q) && q < 3 && Spoke(out, b, bm, f)
    ensures Advances(c, b, st, q, ECHO_FROM_PROCESS, bm, f, out)
  {
    VotersAll(st.echoFromProcesses, f.echoes, bm.value, q);
    EchoReacts(c, b, st, q, bm, f);
    SpokeAlso(out, OnEchoFromProcess(c, b, st, q, bm).out, b, bm, f);
  }

  lemma WitnessReadyReacts(c: Config, b: Instance, st: State, q: Id, bm: Broadcast, f: Progress)
    requires Sized(c) && At(st, bm.value, f) && Proper(f, READY_FROM_WITNESS, q) && q < 3
    ensures var st' := st.(readyFromWitnesses := st.readyFromWitnesses[q := bm.value]);
            OnReadyFromWitness(c, b, st, q, bm) ==
            if |f.witnessReadies| >= 1
            then Reaction(st'.(stage := SENT_READY_FROM_PROCESS), [Carrier(b, READY_FROM_PROCESS, bm)], Go)
            else Reaction(st', [], Go)
  {
    VotersAll(st.readyFromWitnesses, f.witnessReadies, bm.value, q);
  }

  lemma WitnessReadyAdvances(c: Config, b: Instance, st: State, q: Id, bm: Broadcast, f: Progress, out: seq<Send>)
    requires Sized(c) && At(st, bm.value, f) && Proper(f, READY_FROM_WITNESS, q) && q < 3 && Spoke(out, b, bm, f)
    ensures Advances(c, b, st, q, READY_FROM_WITNESS, bm, f, out)
  {
    VotersAll(st.readyFromWitnesses, f.witnessReadies, bm.value, q);
    WitnessReadyReacts(c, b, st, q, bm, f);
    SpokeAlso(out, OnReadyFromWitness(c, b, st, q, bm).out, b, bm, f);
  }

  lemma ReadyReacts(c: Config, b: Instance, st: State, q: Id, bm: Broadcast, f: Progress)
    requires Sized(c) && At(st, bm.value, f) && Proper(f, READY_FROM_PROCESS, q) && q < 3
    ensures var st' := st.(readyFromProcesses := st.readyFromProcesses[q := bm.value]);
            OnReadyFromProcess(c, b, st, q, bm) ==
            if |f.readies| >= 2
            then Reaction(st'.(witnessStage := SENT_VALIDATE), [Carrier(b, VALIDATE, bm)], Go)
            else Reaction(st', [], Go)
  {
    VotersAll(st.readyFromProcesses, f.readies, bm.value, q);
    ReadyCounted(c, b, st, q, bm, |f.readies| + 1);
  }

  /** votes is the number of ready votes with the new one. */
  lemma ReadyCounted(c: Config, b: Instance, st: State, q: Id, bm: Broadcast, votes: nat)
    requires Sized(c) && c.self in st.pot && st.witnessStage == SENT_READY_FROM_WITNESS
    requires q !in st.readyFromProcesses && |Voters(st.readyFromProcesses[q := bm.value], bm.value)| == votes
    ensures var st' := st.(readyFromProcesses := st.readyFromProcesses[q := bm.value]);
            OnReadyFromProcess(c, b, st, q, bm) ==
            if votes >= 3
            then Reaction(st'.(witnessStage := SENT_VALIDATE), [Carrier(b, VALIDATE, bm)], Go)
            else Reaction(st', [], Go)
  {
    LastPromotion(c, b, st.(readyFromProcesses := st.readyFromProcesses[q := bm.value]), bm, votes);
  }

  lemma LastPromotion(c: Config, b: Instance, st: State, bm: Broadcast, votes: nat)
    requires Sized(c) && st.witnessStage == SENT_READY_FROM_WITNESS
    ensures Promoted(c, b, st, bm, votes) ==
            if votes >= 3 then Reaction(st.(witnessStage := SENT_VALIDATE), [Carrier(b, VALIDATE, bm)], Go)
            else Reaction(st, [], Go)
  {
    assert c.Quorum() == 3;
    assert [] + [Carrier(b, VALIDATE, bm)] == [Carrier(b, VALIDATE, bm)];
  }

  lemma ReadyAdvances(c: Config, b: Instance, st: State, q: Id, bm: Broadcast, f: Progress, out: seq<Send>)
    requires Sized(c) && At(st, bm.value, f) && Proper(f, READY_FROM_PROCESS, q) && q < 3 && Spoke(out, b, bm, f)
    ensures Advances(c, b, st, q, READY_FROM_PROCESS, bm, f, out)
  {
    VotersAll(st.readyFromProcesses, f.readies, bm.value, q);
    ReadyReacts(c, b, st, q, bm, f);
    SpokeAlso(out, OnReadyFromProcess(c, b, st, q, bm).out, b, bm, f);
  }

  lemma FirstValidate(c: Config, st: State, q: Id, bm: Broadcast, f: Progress)
    requires Sized(c) && At(st, bm.value, f) && Proper(f, VALIDATE, q) && q < 3
    ensures OnValidate(c, st, q, bm)
            == Reaction(st.(validateFromWitnesses := st.validateFromWitnesses[q := bm.value]), [], Go)
  {
    VotersAll(st.validateFromWitnesses, f.validates, bm.value, q);
  }

  lemma ValidateAdvances(c: Config, b: Instance, st: State, q: Id, bm: Broadcast, f: Progress, out: seq<Send>)
    requires Sized(c) && At(st, bm.value, f) && Proper(f, VALIDATE, q) && q < 3 && Spoke(out, b, bm, f)
    ensures Advances(c, b, st, q, VALIDATE, bm, f, out)
  {
    var r := Reaction(st.(validateFromWitnesses := st.validateFromWitnesses[q := bm.value]), [], Go);
    VotersAll(st.validateFromWitnesses, f.validates, bm.value, q);
    FirstValidate(c, st, q, bm, f);
    assert React(c, b, st, q, Message(VALIDATE, bm)) == r;
    SpokeAlso(out, [], b, bm, f);
    assert At(r.st, bm.value, After(f, VALIDATE, q));
  }

  lemma AllAdvance(c: Config, b: Instance, st: State, q: Id, kind: Kind, bm: Broadcast, f: Progress, out: seq<Send>)
    requires Sized(c) && At(st, bm.value, f) && Proper(f, kind, q) && q < 3 && Spoke(out, b, bm, f)
    ensures Advances(c, b, st, q, kind, bm, f, out)
  {
    match kind
    case ECHO_FROM_WITNESS => EchoedToAdvances(c, b, st, q, bm, f, out);
    case ECHO_FROM_PROCESS => EchoAdvances(c, b, st, q, bm, f, out);
    case READY_FROM_WITNESS => WitnessReadyAdvances(c, b, st, q, bm, f, out);
    case READY_FROM_PROCESS => ReadyAdvances(c, b, st, q, bm, f, out);
    case VALIDATE => ValidateAdvances(c, b, st, q, bm, f, out);
  }

  // ---------------------------------------------------------------- one event

  /** p has handled messages of b only and is up; its state is as far as f and it has spoken accordingly. */
  ghost predicate Has(w: World, s: Net, p: Id, b: Instance, bm: Broadcast, f: Progress)
    requires w.common.Sound() && p < w.common.n
  {
    && p in s.procs && p in s.outs
    && !s.procs[p].halted && b !in s.procs[p].committed && s.procs[p].commits == []
    && At(Register(w.ConfigOf(p), s.procs[p], b), bm.value, f) && Spoke(s.outs[p], b, bm, f)
  }

  ghost predicate Reached(w: World, s: Net, b: Instance, bm: Broadcast, f: Progress, g: Progress)
    requires w.common.Sound() && w.common.n == 3
  {
    s.procs.Keys == s.outs.Keys == {0, 1} && Has(w, s, 0, b, bm, f) && Has(w, s, 1, b, bm, g)
  }

  lemma CorrectAre(w: World)
    requires Three(w)
    ensures w.Correct() == {0, 1}
  {
  }

  lemma HasAtStart(w: World, p: Id, b: Instance, bm: Broadcast)
    requires Three(w) && p in w.Correct() && p < 3
    ensures Has(w, Initially(w), p, b, bm, START)
  {
    EveryoneIsWitness(w.ConfigOf(p), NEW_PROCESS);
    assert Register(w.ConfigOf(p), NEW_PROCESS, b) == FreshState(w.ConfigOf(p), NEW_PROCESS);
  }

  lemma Starts(w: World, b: Instance, bm: Broadcast)
    requires Three(w)
    ensures Reached(w, Initially(w), b, bm, START, START)
  {
    CorrectAre(w);
    HasAtStart(w, 0, b, bm);
    HasAtStart(w, 1, b, bm);
  }

  /** q's message of this kind may arrive at p: q is Byzantine or has announced it. */
  lemma MayArrive(w: World, s: Net, p: Id, q: Id, kind: Kind, b: Instance, bm: Broadcast, f: Progress)
    requires w.common.Sound() && w.common.n == 3 && p < 3 && q < 3
    requires q in w.byz || (Has(w, s, q, b, bm, f) && Announced(f, kind))
    ensures Arrives(w, s, q, p, b, Protocol(Message(kind, bm)))
  {
    if q !in w.byz {
      assert Carries(Carrier(b, kind, bm), p, b, Protocol(Message(kind, bm)));
    }
  }

  lemma Hears(w: World, s: Net, p: Id, q: Id, kind: Kind, b: Instance, bm: Broadcast, f: Progress, g: Progress)
    requires Three(w) && p < 3 && q < 3 && Reached(w, s, b, bm, f, g)
    requires q == 2 || Announced(if q == 0 then f else g, kind)
    ensures Arrives(w, s, q, p, b, Protocol(Message(kind, bm)))
  {
    if q == 0 {
      MayArrive(w, s, p, 0, kind, b, bm, f);
    } else if q == 1 {
      MayArrive(w, s, p, 1, kind, b, bm, g);
    }
  }

  /** p handles q's message: it advances, and the other process is as it was. */
  lemma EventAdvances(w: World, s: Net, p: Id, q: Id, kind: Kind, b: Instance, bm: Broadcast, f: Progress)
    requires Three(w) && p < 2 && q < 3 && b.author < 3 && Has(w, s, p, b, bm, f) && Proper(f, kind, q)
    requires Arrives(w, s, q, p, b, Protocol(Message(kind, bm)))
    ensures var s' := Next(w, s, Event(p, OnProtocol(q, b, Message(kind, bm))));
            && Has(w, s', p, b, bm, After(f, kind, q))
            && s' == Net(s.procs[p := s'.procs[p]], s.outs[p := s'.outs[p]])
  {
    var c := w.ConfigOf(p);
    var st := Counted(Register(c, s.procs[p], b));
    var r := React(c, b, st, q, Message(kind, bm));
    AllAdvance(c, b, st, q, kind, bm, f, s.outs[p]);
    JustHandled(c, s.procs[p], q, b, Message(kind, bm));
    var t := Step(WithState(s.procs[p], b, r.st), r.out);
    assert Take(c, s.procs[p], OnProtocol(q, b, Message(kind, bm))) == t;
    var s' := Net(s.procs[p := t.p], s.outs[p := s.outs[p] + t.out]);
    assert Next(w, s, Event(p, OnProtocol(q, b, Message(kind, bm)))) == s';
    HasAfter(w, s', p, b, bm, s.procs[p], r.st, After(f, kind, q));
  }

  lemma HasAfter(w: World, s: Net, p: Id, b: Instance, bm: Broadcast, before: Process, st: State, f: Progress)
    requires w.common.Sound() && p < w.common.n && p in s.procs && p in s.outs
    requires !before.halted && b !in before.committed && before.commits == []
    requires s.procs[p] == WithState(before, b, st) && At(st, bm.value, f) && Spoke(s.outs[p], b, bm, f)
    ensures Has(w, s, p, b, bm, f)
  {
  }

  /** s' is s after process 0 has moved. */
  lemma ZeroMoved(
    w: World, s: Net, s': Net, b: Instance, bm: Broadcast, f: Progress, g: Progress, next: Progress)
    requires w.common.Sound() && w.common.n == 3 && Reached(w, s, b, bm, f, g)
    requires Has(w, s', 0, b, bm, next) && s' == Net(s.procs[0 := s'.procs[0]], s.outs[0 := s'.outs[0]])
    ensures Reached(w, s', b, bm, next, g)
  {
  }

  lemma OneMoved(
    w: World, s: Net, s': Net, b: Instance, bm: Broadcast, f: Progress, g: Progress, next: Progress)
    requires w.common.Sound() && w.common.n == 3 && Reached(w, s, b, bm, f, g)
    requires Has(w, s', 1, b, bm, next) && s' == Net(s.procs[1 := s'.procs[1]], s.outs[1 := s'.outs[1]])
    ensures Reached(w, s', b, bm, f, next)
  {
  }

  // ---------------------------------------------------------------- the run

  lemma OneMoreEvent(w: World, events: seq<Event>, e: Event)
    requires w.common.Sound()
    ensures RunOf(w, events + [e]) == Next(w, RunOf(w, events), e)
  {
    assert (events + [e])[..|events|] == events;
  }

  /** Process 0 handles one more message. */
  lemma ZeroMoves(
    w: World, s: Net, q: Id, kind: Kind, b: Instance, bm: Broadcast, f: Progress, g: Progress, next: Progress)
    requires Three(w) && q < 3 && b.author < 3 && Reached(w, s, b, bm, f, g)
    requires Goes(f, kind, q, next) && (q == 2 || Announced(if q == 0 then f else g, kind))
    ensures Reached(w, Next(w, s, Event(0, OnProtocol(q, b, Message(kind, bm)))), b, bm, next, g)
  {
    var s' := Next(w, s, Event(0, OnProtocol(q, b, Message(kind, bm))));
    Hears(w, s, 0, q, kind, b, bm, f, g);
    EventAdvances(w, s, 0, q, kind, b, bm, f);
    ZeroMoved(w, s, s', b, bm, f, g, next);
  }

  /** Process 1 does. */
  lemma OneMoves(
    w: World, s: Net, q: Id, kind: Kind, b: Instance, bm: Broadcast, f: Progress, g: Progress, next: Progress)
    requires Three(w) && q < 3 && b.author < 3 && Reached(w, s, b, bm, f, g)
    requires Goes(g, kind, q, next) && (q == 2 || Announced(if q == 0 then f else g, kind))
    ensures Reached(w, Next(w, s, Event(1, OnProtocol(q, b, Message(kind, bm)))), b, bm, f, next)
  {
    var s' := Next(w, s, Event(1, OnProtocol(q, b, Message(kind, bm))));
    Hears(w, s, 1, q, kind, b, bm, f, g);
    EventAdvances(w, s, 1, q, kind, b, bm, g);
    OneMoved(w, s, s', b, bm, f, g, next);
  }

  lemma Zero(
    w: World, events: seq<Event>, q: Id, kind: Kind, b: Instance, bm: Broadcast, f: Progress, g: Progress,
    next: Progress) returns (more: seq<Event>)
    requires Three(w) && q < 3 && b.author < 3 && Reached(w, RunOf(w, events), b, bm, f, g)
    requires Goes(f, kind, q, next) && (q == 2 || Announced(if q == 0 then f else g, kind))
    ensures Reached(w, RunOf(w, more), b, bm, next, g)
  {
    ZeroMoves(w, RunOf(w, events), q, kind, b, bm, f, g, next);
    more := events + [Event(0, OnProtocol(q, b, Message(kind, bm)))];
    OneMoreEvent(w, events, Event(0, OnProtocol(q, b, Message(kind, bm))));
  }

  lemma One(
    w: World, events: seq<Event>, q: Id, kind: Kind, b: Instance, bm: Broadcast, f: Progress, g: Progress,
    next: Progress) returns (more: seq<Event>)
    requires Three(w) && q < 3 && b.author < 3 && Reached(w, RunOf(w, events), b, bm, f, g)
    requires Goes(g, kind, q, next) && (q == 2 || Announced(if q == 0 then f else g, kind))
    ensures Reached(w, RunOf(w, more), b, bm, f, next)
  {
    OneMoves(w, RunOf(w, events), q, kind, b, bm, f, g, next);
    more := events + [Event(1, OnProtocol(q, b, Message(kind, bm)))];
    OneMoreEvent(w, events, Event(1, OnProtocol(q, b, Message(kind, bm))));
  }

  /** Both processes, and those of them named. */
  const ALL: set<Id> := {0, 1, 2}
  const TWO: set<Id> := {2, 0}

  const ECHOED := START.(stage := SENT_ECHO_FROM_PROCESS)
  const HEARD_QUORUM := ECHOED.(echoes := ALL, witnessStage := SENT_READY_FROM_WITNESS)
  const READIED := HEARD_QUORUM.(witnessReadies := TWO, stage := SENT_READY_FROM_PROCESS)
  const READIED_TOO := ECHOED.(witnessReadies := TWO, stage := SENT_READY_FROM_PROCESS)
  const VALIDATED := READIED.(readies := ALL, witnessStage := SENT_VALIDATE)

  lemma EchoSteps()
    ensures Goes(START, ECHO_FROM_WITNESS, 2, ECHOED)
    ensures Goes(ECHOED, ECHO_FROM_PROCESS, 0, ECHOED.(echoes := {0}))
    ensures Goes(ECHOED.(echoes := {0}), ECHO_FROM_PROCESS, 1, ECHOED.(echoes := {0, 1}))
    ensures Goes(ECHOED.(echoes := {0, 1}), ECHO_FROM_PROCESS, 2, HEARD_QUORUM)
  {
    assert {0} + {1} == {0, 1} && {0, 1} + {2} == ALL;
  }

  lemma WitnessReadySteps(f: Progress)
    requires f.stage == SENT_ECHO_FROM_PROCESS && f.witnessReadies == {}
    ensures Goes(f, READY_FROM_WITNESS, 2, f.(witnessReadies := {2}))
    ensures Goes(f.(witnessReadies := {2}), READY_FROM_WITNESS, 0,
                 f.(witnessReadies := TWO, stage := SENT_READY_FROM_PROCESS))
  {
    assert {2} + {0} == TWO;
  }

  lemma ReadySteps()
    ensures Goes(READIED, READY_FROM_PROCESS, 0, READIED.(readies := {0}))
    ensures Goes(READIED.(readies := {0}), READY_FROM_PROCESS, 1, READIED.(readies := {0, 1}))
    ensures Goes(READIED.(readies := {0, 1}), READY_FROM_PROCESS, 2, VALIDATED)
  {
    assert {0} + {1} == {0, 1} && {0, 1} + {2} == ALL;
  }

  lemma ValidateStep(f: Progress)
    requires f.stage == SENT_READY_FROM_PROCESS && f.validates == {}
    ensures Goes(f, VALIDATE, 0, f.(validates := {0}))
  {
  }

  /** The Byzantine process has both echo; process 0 hears a quorum and announces READY_FROM_WITNESS. */
  lemma Echoes(w: World, b: Instance, bm: Broadcast) returns (events: seq<Event>)
    requires Three(w) && b.author < 3
    ensures Reached(w, RunOf(w, events), b, bm, HEARD_QUORUM, ECHOED)
  {
    EchoSteps();
    Starts(w, b, bm);
    events := Zero(w, [], 2, ECHO_FROM_WITNESS, b, bm, START, START, ECHOED);
    events := One(w, events, 2, ECHO_FROM_WITNESS, b, bm, ECHOED, START, ECHOED);
    events := Zero(w, events, 0, ECHO_FROM_PROCESS, b, bm, ECHOED, ECHOED, ECHOED.(echoes := {0}));
    events := Zero(w, events, 1, ECHO_FROM_PROCESS, b, bm, ECHOED.(echoes := {0}), ECHOED, ECHOED.(echoes := {0, 1}));
    events := Zero(w, events, 2, ECHO_FROM_PROCESS, b, bm, ECHOED.(echoes := {0, 1}), ECHOED, HEARD_QUORUM);
  }

  /** With the Byzantine process's READY_FROM_WITNESS both announce READY_FROM_PROCESS. */
  lemma Readies(w: World, b: Instance, bm: Broadcast) returns (events: seq<Event>)
    requires Three(w) && b.author < 3
    ensures Reached(w, RunOf(w, events), b, bm, READIED, READIED_TOO)
  {
    WitnessReadySteps(HEARD_QUORUM);
    WitnessReadySteps(ECHOED);
    var f, g := HEARD_QUORUM.(witnessReadies := {2}), ECHOED.(witnessReadies := {2});
    events := Echoes(w, b, bm);
    events := Zero(w, events, 2, READY_FROM_WITNESS, b, bm, HEARD_QUORUM, ECHOED, f);
    events := Zero(w, events, 0, READY_FROM_WITNESS, b, bm, f, ECHOED, READIED);
    events := One(w, events, 2, READY_FROM_WITNESS, b, bm, READIED, ECHOED, g);
    events := One(w, events, 0, READY_FROM_WITNESS, b, bm, READIED, g, READIED_TOO);
  }

  /** Process 0 hears a quorum of READY_FROM_PROCESS and announces VALIDATE. */
  lemma Quorates(w: World, b: Instance, bm: Broadcast) returns (events: seq<Event>)
    requires Three(w) && b.author < 3
    ensures Reached(w, RunOf(w, events), b, bm, VALIDATED, READIED_TOO)
  {
    ReadySteps();
    var f, f' := READIED.(readies := {0}), READIED.(readies := {0, 1});
    events := Readies(w, b, bm);
    events := Zero(w, events, 0, READY_FROM_PROCESS, b, bm, READIED, READIED_TOO, f);
    events := Zero(w, events, 1, READY_FROM_PROCESS, b, bm, f, READIED_TOO, f');
    events := Zero(w, events, 2, READY_FROM_PROCESS, b, bm, f', READIED_TOO, VALIDATED);
  }

  /** Both have heard it. */
  lemma Validates(w: World, b: Instance, bm: Broadcast) returns (events: seq<Event>)
    requires Three(w) && b.author < 3
    ensures Reached(w, RunOf(w, events), b, bm, VALIDATED.(validates := {0}), READIED_TOO.(validates := {0}))
  {
    ValidateStep(VALIDATED);
    ValidateStep(READIED_TOO);
    var h := VALIDATED.(validates := {0});
    events := Quorates(w, b, bm);
    events := Zero(w, events, 0, VALIDATE, b, bm, VALIDATED, READIED_TOO, h);
    events := One(w, events, 0, VALIDATE, b, bm, h, READIED_TOO, READIED_TOO.(validates := {0}));
  }

  /** The Byzantine process's VALIDATE is the second, and delivers with whatever hash it carries. */
  lemma Delivers(w: World, s: Net, p: Id, b: Instance, bm: Broadcast, f: Progress, xHash: int32)
    requires Three(w) && p < 2 && b.author < 3 && Has(w, s, p, b, bm, f)
    requires f.stage < DELIVERED_STAGE && f.validates == {0}
    ensures var s' := Next(w, s, Event(p, OnProtocol(2, b, Message(VALIDATE, Broadcast(bm.value, xHash)))));
            && s' == Net(s.procs[p := s'.procs[p]], s.outs[p := s'.outs[p]])
            && b in s'.procs[p].delivered && s'.procs[p].delivered[b] == Broadcast(bm.value, xHash)
  {
    var c, last := w.ConfigOf(p), Broadcast(bm.value, xHash);
    SecondValidate(c, Counted(Register(c, s.procs[p], b)), bm.value, f, last);
    TakesDelivery(c, s.procs[p], 2, b, Message(VALIDATE, last));
  }

  lemma SecondValidate(c: Config, st: State, value: int32, f: Progress, bm: Broadcast)
    requires Sized(c) && At(st, value, f) && bm.value == value && f.stage < DELIVERED_STAGE && f.validates == {0}
    ensures var r := OnValidate(c, st, 2, bm); r.verdict == Deliver && r.st.stage < DELIVERED_STAGE
  {
    VotersAll(st.validateFromWitnesses, {0}, value, 2);
  }

  lemma TakesDelivery(c: Config, p: Process, q: Id, b: Instance, m: ProtocolMessage)
    requires c.Sound() && c.mixingTime >= 1 && !p.halted && b !in p.committed && b.author < c.n && q < c.n
    requires var r := React(c, b, Counted(Register(c, p, b)), q, m);
             r.verdict == Deliver && r.st.stage < DELIVERED_STAGE
    ensures var p' := Take(c, p, OnProtocol(q, b, m)).p;
            b in p'.delivered && p'.delivered[b] == m.broadcast
  {
    var r := React(c, b, Counted(Register(c, p, b)), q, m);
    DeliverEffect(c, WithState(p, b, r.st), b, m.broadcast);
    assert HandleProtocol(c, p, q, b, m) == ApplyProtocol(c, p, b, m.broadcast, r);
  }

  function LastOf(p: Id, b: Instance, value: int32, xHash: int32): Event {
    Event(p, OnProtocol(2, b, Message(VALIDATE, Broadcast(value, xHash))))
  }

  /** First process 0 delivers, with its hash. */
  ghost predicate OneLeft(w: World, s: Net, b: Instance, value: int32, h0: int32)
    requires w.common.Sound() && w.common.n == 3
  {
    && s.procs.Keys == s.outs.Keys == {0, 1}
    && b in s.procs[0].delivered && s.procs[0].delivered[b] == Broadcast(value, h0)
    && Has(w, s, 1, b, Broadcast(value, h0), READIED_TOO.(validates := {0}))
  }

  lemma LeavesOne(w: World, s: Net, s': Net, b: Instance, value: int32, h0: int32)
    requires w.common.Sound() && w.common.n == 3
    requires s.procs.Keys == s.outs.Keys == {0, 1}
    requires Has(w, s, 1, b, Broadcast(value, h0), READIED_TOO.(validates := {0}))
    requires 0 in s'.procs && 0 in s'.outs && s' == Net(s.procs[0 := s'.procs[0]], s.outs[0 := s'.outs[0]])
    requires b in s'.procs[0].delivered && s'.procs[0].delivered[b] == Broadcast(value, h0)
    ensures OneLeft(w, s', b, value, h0)
  {
  }

  lemma FirstDelivers(w: World, s: Net, b: Instance, value: int32, h0: int32)
    requires Three(w) && b.author < 3
    requires Reached(w, s, b, Broadcast(value, h0), VALIDATED.(validates := {0}), READIED_TOO.(validates := {0}))
    ensures OneLeft(w, Next(w, s, LastOf(0, b, value, h0)), b, value, h0)
  {
    Delivers(w, s, 0, b, Broadcast(value, h0), VALIDATED.(validates := {0}), h0);
    LeavesOne(w, s, Next(w, s, LastOf(0, b, value, h0)), b, value, h0);
  }

  lemma SecondDelivers(w: World, s: Net, b: Instance, value: int32, h0: int32, h1: int32)
    requires Three(w) && b.author < 3 && OneLeft(w, s, b, value, h0)
    ensures var s' := Next(w, s, LastOf(1, b, value, h1));
            && s'.procs.Keys == {0, 1} && b in s'.procs[0].delivered && b in s'.procs[1].delivered
            && s'.procs[0].delivered[b] == Broadcast(value, h0) && s'.procs[1].delivered[b] == Broadcast(value, h1)
  {
    Delivers(w, s, 1, b, Broadcast(value, h0), READIED_TOO.(validates := {0}), h1);
  }

  lemma AlwaysHonest(w: World, events: seq<Event>, b: Instance)
    requires Three(w)
    ensures HonestThroughout(w, events, b)
  {
    forall st: State
      ensures OwnHonest(w, st)
    {
      SubsetCount(st.own * w.byz, {2});
    }
  }

  /**
   * One value, two hashes: whatever the value and the hashes, there is a run within the hypotheses of agreement in
   * which the two correct processes deliver the value with one hash each.
   */
  lemma OneValueTwoHashes(w: World, b: Instance, value: int32, h0: int32, h1: int32) returns (events: seq<Event>)
    requires Three(w) && b.author < 3
    ensures HonestThroughout(w, events, b)
    ensures var s := RunOf(w, events);
            && w.Correct() == {0, 1} == s.procs.Keys && b in s.procs[0].delivered && b in s.procs[1].delivered
            && s.procs[0].delivered[b] == Broadcast(value, h0) && s.procs[1].delivered[b] == Broadcast(value, h1)
  {
    var before := Validates(w, b, Broadcast(value, h0));
    var e0, e1 := LastOf(0, b, value, h0), LastOf(1, b, value, h1);
    FirstDelivers(w, RunOf(w, before), b, value, h0);
    OneMoreEvent(w, before, e0);
    SecondDelivers(w, RunOf(w, before + [e0]), b, value, h0, h1);
    OneMoreEvent(w, before + [e0], e1);
    events := before + [e0] + [e1];
    AlwaysHonest(w, events, b);
    CorrectAre(w);
  }
}
