/**
 * Where a delivered value comes from: the author's NOTIFY, by way of its witnesses' echoes and then of the
 * processes'. The handler does not compare the sender of a NOTIFY with the author, so that is a hypothesis here.
 */
module ReliableProvenance {
  import opened GoIntegers
  import opened Quorums
  import opened Reliable
  import opened ReliableRuns
  import opened ReliableTraces
  import opened ReliableNetwork

  predicate Echoing(kind: Kind) {
    kind == ECHO_FROM_WITNESS || kind == ECHO_FROM_PROCESS
  }

  /** Correct processes echo only what the author of b has notified. */
  ghost predicate Sourced(w: World, outs: map<Id, seq<Send>>, b: Instance) {
    forall q, kind, v | q in w.Correct() && Echoing(kind) && Said(outs, q, b, kind, v) ::
      Said(outs, b.author, b, NOTIFY, v)
  }

  ghost predicate EchoesSourced(outs: map<Id, seq<Send>>, b: Instance, out: seq<Send>) {
    forall x, kind | x in out && Echoing(kind) && Opens(x, b, kind) :: Said(outs, b.author, b, NOTIFY, ValueIn(x))
  }

  /** An echo repeats the value just received: a witness's that of a NOTIFY, a process's that of an own witness. */
  ghost predicate Repeats(b: Instance, st: State, r: Reaction, sender: Id, m: ProtocolMessage) {
    forall x, kind | x in r.out && Echoing(kind) && Opens(x, b, kind) ::
      && ValueIn(x) == m.broadcast.value
      && (kind == ECHO_FROM_WITNESS ==> m.kind == NOTIFY)
      && (kind == ECHO_FROM_PROCESS ==> m.kind == ECHO_FROM_WITNESS && sender in st.own)
  }

  lemma NotifyRepeats(c: Config, b: Instance, st: State, sender: Id, m: ProtocolMessage)
    requires m.kind == NOTIFY
    ensures Repeats(b, st, OnNotify(c, b, st, m.broadcast, m.shares), sender, m)
  {
  }

  lemma EchoFromWitnessRepeats(b: Instance, st: State, sender: Id, m: ProtocolMessage)
    requires m.kind == ECHO_FROM_WITNESS
    ensures Repeats(b, st, OnEchoFromWitness(b, st, sender, m.broadcast, m.shares), sender, m)
  {
  }

  lemma ReactRepeats(c: Config, b: Instance, st: State, sender: Id, m: ProtocolMessage)
    ensures Repeats(b, st, React(c, b, st, sender, m), sender, m)
  {
    match m.kind
    case NOTIFY => NotifyRepeats(c, b, st, sender, m);
    case ECHO_FROM_WITNESS => EchoFromWitnessRepeats(b, st, sender, m);
    case ECHO_FROM_PROCESS =>
    case READY_FROM_WITNESS =>
    case READY_FROM_PROCESS =>
    case VALIDATE =>
  }

  /** The process has no Byzantine own witness for b. */
  ghost predicate PureFor(w: World, p: Process, b: Instance) {
    b in p.log ==> p.log[b].own !! w.byz
  }

  /** A NOTIFY for b is taken from nobody but its author. */
  predicate Genuine(e: Event, b: Instance) {
    e.i.OnProtocol? && e.i.b == b && e.i.m.kind == NOTIFY ==> e.i.sender == b.author
  }

  lemma ReactionSourced(
    w: World, s: Net, c: Config, to: Id, sender: Id, b: Instance, m: ProtocolMessage, st: State)
    requires Sourced(w, s.outs, b) && Arrives(w, s, sender, to, b, Protocol(m)) && sender < w.common.n
    requires b.author in w.Correct() && (m.kind == NOTIFY ==> sender == b.author) && st.own !! w.byz
    ensures EchoesSourced(s.outs, b, React(c, b, st, sender, m).out)
  {
    var r := React(c, b, st, sender, m);
    ReactRepeats(c, b, st, sender, m);
    ArrivalWasSaid(w, s, sender, to, b, m);
    forall x, kind | x in r.out && Echoing(kind) && Opens(x, b, kind)
      ensures Said(s.outs, b.author, b, NOTIFY, ValueIn(x))
    {
      assert kind == ECHO_FROM_PROCESS ==> sender in w.Correct();
    }
  }

  lemma CommitmentsEchoNothing(outs: map<Id, seq<Send>>, b: Instance, out: seq<Send>, rest: seq<Send>)
    requires EchoesSourced(outs, b, out) && OnlyCommitments(rest)
    ensures EchoesSourced(outs, b, out + rest)
  {
  }

  /** The reaction's own set is still that of the state afterwards. */
  lemma OwnStays(c: Config, p: Process, b: Instance, bm: Broadcast, st: State, r: Reaction)
    requires c.Sound() && c.mixingTime >= 1 && !p.halted && b !in p.committed && Moves(c, b, st, r, bm)
    ensures var q := ApplyProtocol(c, p, b, bm, r).p; b in q.log && q.log[b].own == st.own
  {
    ReactionLeaves(c, p, b, bm, r);
  }

  lemma ProtocolSourced(
    w: World, s: Net, c: Config, p: Process, to: Id, sender: Id, b: Instance, m: ProtocolMessage, st: State)
    requires c.Sound() && c.mixingTime >= 1 && !p.halted && b !in p.committed
    requires Sourced(w, s.outs, b) && Arrives(w, s, sender, to, b, Protocol(m)) && sender < w.common.n
    requires b.author in w.Correct() && (m.kind == NOTIFY ==> sender == b.author)
    requires PureFor(w, ApplyProtocol(c, p, b, m.broadcast, React(c, b, Counted(st), sender, m)).p, b)
    ensures EchoesSourced(
              s.outs, b, ApplyProtocol(c, p, b, m.broadcast, React(c, b, Counted(st), sender, m)).out)
  {
    var r := React(c, b, Counted(st), sender, m);
    var t := ApplyProtocol(c, p, b, m.broadcast, r);
    ReactMoves(c, b, Counted(st), sender, m);
    OwnStays(c, p, b, m.broadcast, Counted(st), r);
    ReactionSourced(w, s, c, to, sender, b, m, Counted(st));
    ReactionAdvances(c, p, b, m.broadcast, r);
    var rest :| t.out == r.out + rest && OnlyCommitments(rest);
    CommitmentsEchoNothing(s.outs, b, r.out, rest);
  }

  /** Messages for another instance open no phase of b. */
  lemma ElsewhereSourced(
    outs: map<Id, seq<Send>>, c: Config, p: Process, sender: Id, d: Instance, m: ProtocolMessage, st: State,
    b: Instance)
    requires c.Sound() && c.mixingTime >= 1 && !p.halted && d !in p.committed && d != b
    ensures EchoesSourced(
              outs, b, ApplyProtocol(c, p, d, m.broadcast, React(c, d, Counted(st), sender, m)).out)
  {
    var r := React(c, d, Counted(st), sender, m);
    var t := ApplyProtocol(c, p, d, m.broadcast, r);
    ReactMoves(c, d, Counted(st), sender, m);
    PhasesStayHome(c, d, Counted(st), r, m.broadcast);
    ReactionAdvances(c, p, d, m.broadcast, r);
    var rest :| t.out == r.out + rest && OnlyCommitments(rest);
    CommitmentsEchoNothing(outs, b, r.out, rest);
  }

  lemma HandleProtocolSourced(
    w: World, s: Net, c: Config, p: Process, to: Id, sender: Id, d: Instance, m: ProtocolMessage, b: Instance)
    requires c.Sound() && c.mixingTime >= 1
    requires Sourced(w, s.outs, b) && Arrives(w, s, sender, to, d, Protocol(m)) && sender < w.common.n
    requires b.author in w.Correct() && (d == b && m.kind == NOTIFY ==> sender == b.author)
    requires PureFor(w, HandleProtocol(c, p, sender, d, m).p, b)
    ensures EchoesSourced(s.outs, b, HandleProtocol(c, p, sender, d, m).out)
  {
    if !p.halted && d !in p.committed && d.author < c.n {
      var st := Register(c, p, d);
      assert HandleProtocol(c, p, sender, d, m)
          == ApplyProtocol(c, p, d, m.broadcast, React(c, d, Counted(st), sender, m));
      if d == b {
        ProtocolSourced(w, s, c, p, to, sender, b, m, st);
      } else {
        ElsewhereSourced(s.outs, c, p, sender, d, m, st, b);
      }
    }
  }

  lemma HandleCommitmentSourced(
    outs: map<Id, seq<Send>>, c: Config, p: Process, sender: Id, d: Instance, m: CommitmentMessage, b: Instance)
    requires c.Sound()
    ensures EchoesSourced(outs, b, HandleCommitment(c, p, sender, d, m).out)
  {
    if !p.halted && d !in p.committed && d.author < c.n {
      CommitmentOutput(c, p, sender, d, m, Register(c, p, d));
    }
  }

  lemma TakeSourced(w: World, s: Net, c: Config, p: Process, to: Id, i: Input, b: Instance)
    requires c.Sound() && c.mixingTime >= 1 && c.n == w.common.n
    requires Sourced(w, s.outs, b) && MayTake(w, s, to, i) && b.author in w.Correct()
    requires Genuine(Event(to, i), b) && PureFor(w, Take(c, p, i).p, b)
    ensures EchoesSourced(s.outs, b, Take(c, p, i).out)
  {
    if Possible(c, p, i) {
      match i
      case OnProtocol(sender, d, m) => HandleProtocolSourced(w, s, c, p, to, sender, d, m, b);
      case OnCommitment(sender, d, m) => HandleCommitmentSourced(s.outs, c, p, sender, d, m, b);
      case Ask(value, x) => BroadcastSourced(s.outs, c, p, value, x, FreshState(c, p), b);
    }
  }

  lemma BroadcastSourced(
    outs: map<Id, seq<Send>>, c: Config, p: Process, value: int32, x: seq<int32>, st: State, b: Instance)
    requires |x| == c.DataShares() <= c.n
    ensures EchoesSourced(outs, b, BroadcastOn(c, p, value, x, st).out)
  {
  }

  lemma SourcedAfter(w: World, outs: map<Id, seq<Send>>, p: Id, out: seq<Send>, b: Instance)
    requires Sourced(w, outs, b) && p in outs && EchoesSourced(outs, b, out)
    ensures Sourced(w, outs[p := outs[p] + out], b)
  {
    var outs' := outs[p := outs[p] + out];
    forall q, kind, v | q in w.Correct() && Echoing(kind) && Said(outs', q, b, kind, v)
      ensures Said(outs', b.author, b, NOTIFY, v)
    {
      var x :| x in outs'[q] && Utters(x, b, kind, v);
      assert q in outs && x in outs[q] ==> Said(outs, q, b, kind, v);
      SaidGrows(outs, outs', b.author, b, NOTIFY, v);
    }
  }

  lemma NextSourced(w: World, s: Net, e: Event, b: Instance)
    requires w.WellFormed() && Sourced(w, s.outs, b) && b.author in w.Correct() && Genuine(e, b)
    requires forall p | p in Next(w, s, e).procs :: PureFor(w, Next(w, s, e).procs[p], b)
    ensures Sourced(w, Next(w, s, e).outs, b)
  {
    if Enabled(w, s, e) {
      var c, p := w.ConfigOf(e.p), s.procs[e.p];
      ConfigMeasures(w, e.p);
      assert Event(e.p, e.i) == e && e.p in Next(w, s, e).procs;
      TakeSourced(w, s, c, p, e.p, e.i, b);
      SourcedAfter(w, s.outs, e.p, Take(c, p, e.i).out, b);
    }
  }

  /** At every moment of the run no correct process has a Byzantine own witness for b. */
  ghost predicate PureThroughout(w: World, events: seq<Event>, b: Instance)
    requires w.common.Sound()
  {
    forall k | 0 <= k <= |events| :: NetPure(w, RunOf(w, events[..k]), b)
  }

  ghost predicate NetPure(w: World, s: Net, b: Instance) {
    forall p | p in s.procs :: PureFor(w, s.procs[p], b)
  }

  lemma PureBefore(w: World, events: seq<Event>, b: Instance)
    requires w.common.Sound() && events != [] && PureThroughout(w, events, b)
    ensures NetPure(w, RunOf(w, events), b) && PureThroughout(w, events[..|events| - 1], b)
  {
    var k := |events| - 1;
    assert events[..|events|] == events;
    forall j | 0 <= j <= k
      ensures NetPure(w, RunOf(w, events[..k][..j]), b)
    {
      PureAt(w, events, b, k, j);
    }
  }

  lemma PureAt(w: World, events: seq<Event>, b: Instance, k: nat, j: nat)
    requires w.common.Sound() && j <= k <= |events| && PureThroughout(w, events, b)
    ensures NetPure(w, RunOf(w, events[..k][..j]), b)
  {
    assert events[..k][..j] == events[..j];
  }

  lemma {:induction false} RunSourced(w: World, events: seq<Event>, b: Instance)
    requires w.WellFormed() && b.author in w.Correct() && PureThroughout(w, events, b)
    requires forall i | 0 <= i < |events| :: Genuine(events[i], b)
    ensures Sourced(w, RunOf(w, events).outs, b)
  {
    if events != [] {
      var k := |events| - 1;
      PureBefore(w, events, b);
      RunSourced(w, events[..k], b);
      NextSourced(w, RunOf(w, events[..k]), events[k], b);
    }
  }

  /** A quorum of possible echoers has a correct one. */
  lemma QuorateIsSourced(w: World, s: Net, b: Instance, v: int)
    requires w.WellFormed() && Sourced(w, s.outs, b) && Quorate(w, s.outs, b, v)
    ensures Said(s.outs, b.author, b, NOTIFY, v)
  {
    var q := SomeCorrect(Echoers(w, s.outs, b, v), w.byz);
    assert Said(s.outs, q, b, ECHO_FROM_PROCESS, v);
  }

  /**
   * No invention: when NOTIFY is taken from its correct author only and own witnesses for the instance are correct,
   * a correct process delivers nothing but a value that the author notified.
   */
  lemma NoInvention(w: World, events: seq<Event>, p: Id, b: Instance)
    requires w.WellFormed() && HonestThroughout(w, events, b)
    requires b.author in w.Correct() && PureThroughout(w, events, b)
    requires forall i | 0 <= i < |events| :: Genuine(events[i], b)
    requires var s := RunOf(w, events); p in s.procs && b in s.procs[p].delivered
    ensures var s := RunOf(w, events); Said(s.outs, b.author, b, NOTIFY, s.procs[p].delivered[b].value)
  {
    var s := RunOf(w, events);
    RunKeepsNetInv(w, events, b);
    RunSourced(w, events, b);
    assert Grounded(w, s.outs, s.procs[p], b);
    QuorateIsSourced(w, s, b, s.procs[p].delivered[b].value);
  }
}
