/**
 * n processes running one instance of Bracha's broadcast. Byzantine processes send anything under their own
 * names; packets are handled in any order and any number of times. A run is a sequence of events; an event
 * that cannot happen leaves the network as it is.
 */
module BrachaNetwork {
  import opened Options
  import opened Quorums
  import opened Bracha

  datatype World = World(c: Config, byz: set<Id>, author: Id) {
    ghost predicate WellFormed() {
      byz <= Everyone(c.n) && |byz| <= c.f
    }

    function Correct(): set<Id> {
      Everyone(c.n) - byz
    }
  }

  datatype Packet = Packet(from: Id, to: Id, m: Message)

  datatype Net = Net(locals: map<Id, Local>, sent: set<Packet>, handled: set<Packet>, started: Option<int>)

  datatype Event = Deliver(pk: Packet) | Forge(pk: Packet) | Start(value: int)

  /** A broadcast: every message in out, to each of the n processes. */
  function Fan(from: Id, n: nat, out: seq<Message>): (s: set<Packet>)
    ensures forall pk :: pk in s <==> pk.from == from && pk.to < n && pk.m in out
  {
    set to, m | to in Everyone(n) && m in out :: Packet(from, to, m)
  }

  function Initially(w: World): Net {
    Net(map p | p in w.Correct() :: Fresh, {}, {}, None)
  }

  predicate Enabled(w: World, s: Net, e: Event) {
    match e
    case Deliver(pk) => pk in s.sent && pk.to in s.locals
    case Forge(pk) => pk.from in w.byz && pk.to < w.c.n
    case Start(_) => w.author in w.Correct() && s.started.None?
  }

  function Next(w: World, s: Net, e: Event): Net {
    if !Enabled(w, s, e) then s
    else
      match e
      case Deliver(pk) =>
        var (l, out) := Handle(w.c, s.locals[pk.to], pk.from, pk.m);
        s.(locals := s.locals[pk.to := l], sent := s.sent + Fan(pk.to, w.c.n, out), handled := s.handled + {pk})
      case Forge(pk) => s.(sent := s.sent + {pk})
      case Start(value) =>
        s.(sent := s.sent + Fan(w.author, w.c.n, [Message(INITIAL, value)]), started := Some(value))
  }

  function Run(w: World, events: seq<Event>): Net {
    if events == [] then Initially(w)
    else Next(w, Run(w, events[..|events| - 1]), events[|events| - 1])
  }

  // ---------------------------------------------------------------- the invariant

  /** What a correct process sends to itself it sends to all. */
  predicate Says(s: Net, p: Id, m: Message) {
    Packet(p, p, m) in s.sent
  }

  ghost predicate Shape(w: World, s: Net) {
    && s.locals.Keys == w.Correct()
    && s.handled <= s.sent
    && (forall pk | pk in s.sent :: pk.from < w.c.n && pk.to < w.c.n)
    && (forall pk | pk in s.sent && pk.from in w.Correct() :: Says(s, pk.from, pk.m))
    && (forall p, m, to: Id | p in w.Correct() && Says(s, p, m) && to < w.c.n :: Packet(p, to, m) in s.sent)
  }

  function StageOf(l: Local): Stage {
    match l
    case Fresh => Init
    case Live(st) => st.stage
    case Delivered(_) => SentReady
  }

  ghost predicate Silent(s: Net, p: Id, stage: MessageStage) {
    forall v :: !Says(s, p, Message(stage, v))
  }

  ghost predicate SpokeOnce(s: Net, p: Id, stage: MessageStage) {
    exists v :: Says(s, p, Message(stage, v)) && forall u :: Says(s, p, Message(stage, u)) ==> u == v
  }

  /** The stage field tells exactly what has left the process. */
  ghost predicate StageTells(s: Net, p: Id, stage: Stage) {
    && (if stage == Init then Silent(s, p, ECHO) else SpokeOnce(s, p, ECHO))
    && (if stage == SentReady then SpokeOnce(s, p, READY) else Silent(s, p, READY))
  }

  ghost predicate Stages(w: World, s: Net)
    requires Shape(w, s)
  {
    forall p | p in w.Correct() :: StageTells(s, p, StageOf(s.locals[p]))
  }

  /** Recorded votes were handled, and handled messages left their mark. */
  ghost predicate Recorded(handled: set<Packet>, p: Id, st: State) {
    && (forall q | q in st.echoes :: Packet(q, p, Message(ECHO, st.echoes[q])) in handled)
    && (forall q | q in st.readies :: Packet(q, p, Message(READY, st.readies[q])) in handled)
    && (forall q, v | Packet(q, p, Message(READY, v)) in handled :: q in st.readies)
    && (st.stage != SentReady ==> forall q, v | Packet(q, p, Message(ECHO, v)) in handled :: q in st.echoes)
    && (st.stage == Init ==> forall q, v :: Packet(q, p, Message(INITIAL, v)) !in handled)
  }

  /** No threshold has been crossed without the message it calls for. */
  ghost predicate NothingMissed(c: Config, st: State) {
    forall v: int :: MissedNone(c, st, v)
  }

  ghost predicate MissedNone(c: Config, st: State, v: int) {
    && |Voters(st.readies, v)| < c.ForDelivery()
    && (st.stage != SentReady ==> |Voters(st.readies, v)| < c.ForReady() && |Voters(st.echoes, v)| < c.ForEcho())
  }

  ghost predicate Records(w: World, s: Net)
    requires Shape(w, s)
  {
    forall p | p in w.Correct() && !s.locals[p].Delivered? ::
      Recorded(s.handled, p, Register(s.locals[p])) && NothingMissed(w.c, Register(s.locals[p]))
  }

  /** Those who may have voted for v at this stage: all Byzantine processes and the correct ones that did. */
  function Support(w: World, s: Net, stage: MessageStage, v: int): (q: set<Id>)
    ensures q <= Everyone(w.c.n)
  {
    set p | p in Everyone(w.c.n) && (p in w.byz || Says(s, p, Message(stage, v)))
  }

  ghost predicate Quorate(w: World, s: Net, v: int) {
    |Support(w, s, ECHO, v)| >= w.c.ForEcho()
  }

  /** Every READY of a correct process goes back to a quorum of ECHOs for the same value. */
  ghost predicate ReadiesBacked(w: World, s: Net) {
    forall p, v | p in w.Correct() && Says(s, p, Message(READY, v)) :: Quorate(w, s, v)
  }

  ghost predicate DeliveriesBacked(w: World, s: Net)
    requires Shape(w, s)
  {
    forall p | p in w.Correct() && s.locals[p].Delivered? ::
      |Support(w, s, READY, s.locals[p].value)| >= w.c.ForDelivery()
  }

  /** Some correct process handled an INITIAL carrying v. */
  ghost predicate Introduced(w: World, s: Net, v: int) {
    exists q, p :: p in w.Correct() && Packet(q, p, Message(INITIAL, v)) in s.handled
  }

  ghost predicate EchoesIntroduced(w: World, s: Net) {
    forall p, v | p in w.Correct() && Says(s, p, Message(ECHO, v)) :: Introduced(w, s, v)
  }

  /** The author of the instance is the only correct process to send an INITIAL, and it sends one value. */
  ghost predicate Initials(w: World, s: Net) {
    forall p, v | p in w.Correct() && Says(s, p, Message(INITIAL, v)) :: p == w.author && s.started == Some(v)
  }

  ghost predicate Inv(w: World, s: Net) {
    && Shape(w, s) && Initials(w, s) && Stages(w, s) && Records(w, s)
    && ReadiesBacked(w, s) && DeliveriesBacked(w, s) && EchoesIntroduced(w, s)
  }

  // ---------------------------------------------------------------- preservation

  lemma SupportGrows(w: World, s: Net, s': Net, stage: MessageStage, v: int)
    requires s.sent <= s'.sent
    ensures |Support(w, s, stage, v)| <= |Support(w, s', stage, v)|
  {
    assert Support(w, s, stage, v) <= Support(w, s', stage, v);
    SubsetCount(Support(w, s, stage, v), Support(w, s', stage, v));
  }

  /** A recorded vote comes from a Byzantine process or from one that said it. */
  lemma VotersSupport(w: World, s: Net, p: Id, votes: map<Id, int>, stage: MessageStage, v: int)
    requires Shape(w, s) && p in w.Correct()
    requires forall q | q in votes :: Packet(q, p, Message(stage, votes[q])) in s.sent
    ensures Voters(votes, v) <= Support(w, s, stage, v)
    ensures |Voters(votes, v)| <= |Support(w, s, stage, v)|
  {
    forall q | q in Voters(votes, v)
      ensures q in Support(w, s, stage, v)
    {
      assert Packet(q, p, Message(stage, v)) in s.sent;
    }
    SubsetCount(Voters(votes, v), Support(w, s, stage, v));
  }

  lemma SomeoneCorrectSaid(w: World, s: Net, stage: MessageStage, v: int) returns (q: Id)
    requires |Support(w, s, stage, v)| > |w.byz|
    ensures q in w.Correct() && Says(s, q, Message(stage, v))
  {
    q := SomeCorrect(Support(w, s, stage, v), w.byz);
  }

  /** Backing survives as long as packets are only added. */
  lemma QuorateGrows(w: World, s: Net, s': Net)
    requires ReadiesBacked(w, s) && s.sent <= s'.sent
    ensures forall p, v | p in w.Correct() && Says(s, p, Message(READY, v)) :: Quorate(w, s', v)
  {
    forall p, v | p in w.Correct() && Says(s, p, Message(READY, v))
      ensures Quorate(w, s', v)
    {
      SupportGrows(w, s, s', ECHO, v);
    }
  }

  lemma IntroducedGrows(w: World, s: Net, s': Net)
    requires EchoesIntroduced(w, s) && s.handled <= s'.handled
    ensures forall p, v | p in w.Correct() && Says(s, p, Message(ECHO, v)) :: Introduced(w, s', v)
  {
    forall p, v | p in w.Correct() && Says(s, p, Message(ECHO, v))
      ensures Introduced(w, s', v)
    {
      var q, p' :| p' in w.Correct() && Packet(q, p', Message(INITIAL, v)) in s.handled;
      assert Packet(q, p', Message(INITIAL, v)) in s'.handled;
    }
  }

  lemma DeliveriesGrow(w: World, s: Net, s': Net)
    requires Shape(w, s) && DeliveriesBacked(w, s) && s.sent <= s'.sent
    ensures forall p | p in w.Correct() && s.locals[p].Delivered? ::
              |Support(w, s', READY, s.locals[p].value)| >= w.c.ForDelivery()
  {
    forall p | p in w.Correct() && s.locals[p].Delivered?
      ensures |Support(w, s', READY, s.locals[p].value)| >= w.c.ForDelivery()
    {
      SupportGrows(w, s, s', READY, s.locals[p].value);
    }
  }

  lemma SpeechUnchanged(s: Net, s': Net, p: Id, stage: MessageStage)
    requires forall u :: Says(s', p, Message(stage, u)) == Says(s, p, Message(stage, u))
    ensures Silent(s', p, stage) == Silent(s, p, stage)
    ensures SpokeOnce(s', p, stage) == SpokeOnce(s, p, stage)
  {
  }

  lemma SpeaksNow(s: Net, s': Net, p: Id, stage: MessageStage, v: int)
    requires forall u :: Says(s', p, Message(stage, u)) <==> u == v
    ensures SpokeOnce(s', p, stage)
  {
    assert Says(s', p, Message(stage, v));
  }

  /** A step that adds no ECHO or READY of a correct process, and that no process handles. */
  lemma QuietStep(w: World, s: Net, s': Net)
    requires Inv(w, s) && Shape(w, s') && Initials(w, s')
    requires s.sent <= s'.sent && s'.locals == s.locals && s'.handled == s.handled
    requires forall p, m: Message | p in w.Correct() && m.stage != INITIAL && Says(s', p, m) :: Says(s, p, m)
    ensures Inv(w, s')
  {
    QuorateGrows(w, s, s');
    IntroducedGrows(w, s, s');
    DeliveriesGrow(w, s, s');
    forall p | p in w.Correct()
      ensures StageTells(s', p, StageOf(s'.locals[p]))
    {
      assert StageTells(s, p, StageOf(s.locals[p]));
      SpeechUnchanged(s, s', p, ECHO);
      SpeechUnchanged(s, s', p, READY);
    }
    assert forall p | p in w.Correct() && !s.locals[p].Delivered? ::
        Recorded(s.handled, p, Register(s.locals[p])) ==> Recorded(s'.handled, p, Register(s'.locals[p]));
  }

  /** How the stage and the outgoing messages go together. */
  lemma HandleStages(c: Config, l: Local, sender: Id, m: Message)
    ensures var (l', out) := Handle(c, l, sender, m);
            || (StageOf(l') == StageOf(l) && out == [])
            || (StageOf(l) == Init && StageOf(l') == SentEcho && out == [Message(ECHO, m.value)])
            || (StageOf(l) == Init && StageOf(l') == SentReady
                && out == [Message(ECHO, m.value), Message(READY, m.value)])
            || (StageOf(l) == SentEcho && StageOf(l') == SentReady && out == [Message(READY, m.value)])
  {
  }

  ghost predicate Handled(w: World, s: Net, pk: Packet, l: Local, out: seq<Message>, s': Net) {
    && Shape(w, s) && pk in s.sent && pk.to in s.locals
    && Handle(w.c, s.locals[pk.to], pk.from, pk.m) == (l, out)
    && s'.locals == s.locals[pk.to := l]
    && s'.sent == s.sent + Fan(pk.to, w.c.n, out)
    && s'.handled == s.handled + {pk}
    && s'.started == s.started
  }

  lemma SaysAfter(w: World, s: Net, pk: Packet, l: Local, out: seq<Message>, s': Net, p: Id, m: Message)
    requires Handled(w, s, pk, l, out, s') && p in w.Correct()
    ensures Says(s', p, m) <==> Says(s, p, m) || (p == pk.to && m in out)
  {
  }

  lemma ShapeAfter(w: World, s: Net, pk: Packet, l: Local, out: seq<Message>, s': Net)
    requires Handled(w, s, pk, l, out, s')
    ensures Shape(w, s')
  {
  }

  lemma StagesAfter(w: World, s: Net, pk: Packet, l: Local, out: seq<Message>, s': Net)
    requires Handled(w, s, pk, l, out, s') && Shape(w, s')
    requires Stages(w, s)
    ensures Stages(w, s')
  {
    forall p | p in w.Correct()
      ensures StageTells(s', p, StageOf(s'.locals[p]))
    {
      assert StageTells(s, p, StageOf(s.locals[p]));
      assert forall m :: Says(s', p, m) <==> Says(s, p, m) || (p == pk.to && m in out) by {
        forall m {
          SaysAfter(w, s, pk, l, out, s', p, m);
        }
      }
      if p == pk.to {
        HandleStages(w.c, s.locals[p], pk.from, pk.m);
        StageTellsAfter(s, s', p, s.locals[p], l, pk.m.value, out);
      } else {
        assert forall stage, v :: Says(s', p, Message(stage, v)) == Says(s, p, Message(stage, v));
      }
    }
  }

  lemma StageTellsAfter(s: Net, s': Net, p: Id, l: Local, l': Local, v: int, out: seq<Message>)
    requires StageTells(s, p, StageOf(l))
    requires forall m :: Says(s', p, m) <==> Says(s, p, m) || m in out
    requires || (StageOf(l') == StageOf(l) && out == [])
             || (StageOf(l) == Init && StageOf(l') == SentEcho && out == [Message(ECHO, v)])
             || (StageOf(l) == Init && StageOf(l') == SentReady && out == [Message(ECHO, v), Message(READY, v)])
             || (StageOf(l) == SentEcho && StageOf(l') == SentReady && out == [Message(READY, v)])
    ensures StageTells(s', p, StageOf(l'))
  {
    if Message(ECHO, v) in out {
      SpeaksNow(s, s', p, ECHO, v);
    } else {
      SpeechUnchanged(s, s', p, ECHO);
    }
    if Message(READY, v) in out {
      SpeaksNow(s, s', p, READY, v);
    } else {
      SpeechUnchanged(s, s', p, READY);
    }
  }

  lemma NothingMissedAfter(c: Config, l: Local, sender: Id, m: Message)
    requires !l.Delivered? && NothingMissed(c, Register(l))
    ensures var (l', out) := Handle(c, l, sender, m);
            !l'.Delivered? ==> NothingMissed(c, Register(l'))
  {
    var st := Counted(Register(l));
    assert NothingMissed(c, st) by {
      forall v: int
        ensures MissedNone(c, st, v)
      {
        assert MissedNone(c, Register(l), v);
      }
    }
    match m.stage
    case INITIAL => InitialMissesNothing(c, st, m.value);
    case ECHO => EchoMissesNothing(c, st, sender, m.value);
    case READY => ReadyMissesNothing(c, st, sender, m.value);
    case OTHER =>
  }

  lemma InitialMissesNothing(c: Config, st: State, v: int)
    requires NothingMissed(c, st)
    ensures NothingMissed(c, OnInitial(st, v).0)
  {
    forall u: int
      ensures MissedNone(c, OnInitial(st, v).0, u)
    {
      assert MissedNone(c, st, u);
    }
  }

  lemma EchoMissesNothing(c: Config, st: State, sender: Id, v: int)
    requires NothingMissed(c, st)
    ensures NothingMissed(c, OnEcho(c, st, sender, v).0)
  {
    if sender !in st.echoes && st.stage != SentReady {
      var st' := OnEcho(c, st, sender, v).0;
      OneMoreVote(st.echoes, sender, v);
      forall u: int
        ensures MissedNone(c, st', u)
      {
        assert MissedNone(c, st, u);
      }
    }
  }

  lemma ReadyMissesNothing(c: Config, st: State, sender: Id, v: int)
    requires NothingMissed(c, st)
    ensures var (st', _, deliver) := OnReady(c, st, sender, v); !deliver ==> NothingMissed(c, st')
  {
    var (st', _, deliver) := OnReady(c, st, sender, v);
    if sender !in st.readies && !deliver {
      OneMoreVote(st.readies, sender, v);
      forall u: int
        ensures MissedNone(c, st', u)
      {
        assert MissedNone(c, st, u);
      }
    }
  }

  lemma OneMoreVote(votes: map<Id, int>, q: Id, v: int)
    requires q !in votes
    ensures forall u: int :: |Voters(votes[q := v], u)| == if u == v then |Voters(votes, u)| + 1 else |Voters(votes, u)|
  {
    forall u: int
      ensures |Voters(votes[q := v], u)| == if u == v then |Voters(votes, u)| + 1 else |Voters(votes, u)|
    {
      VotersAfter(votes, q, v, u);
    }
  }

  lemma RecordedAfter(c: Config, handled: set<Packet>, p: Id, l: Local, sender: Id, m: Message)
    requires !l.Delivered? && Recorded(handled, p, Register(l))
    ensures var (l', out) := Handle(c, l, sender, m);
            !l'.Delivered? ==> Recorded(handled + {Packet(sender, p, m)}, p, Register(l'))
  {
    var st := Register(l);
    var (l', out) := Handle(c, l, sender, m);
    if !l'.Delivered? {
      var st' := Register(l');
      assert st'.echoes == st.echoes || (m.stage == ECHO && st'.echoes == st.echoes[sender := m.value]);
      assert st'.readies == st.readies || (m.stage == READY && st'.readies == st.readies[sender := m.value]);
      assert m.stage == READY ==> sender in st'.readies;
      assert m.stage == ECHO && st'.stage != SentReady ==> sender in st'.echoes;
      assert m.stage == INITIAL ==> st'.stage != Init;
      assert st.stage != Init ==> st'.stage != Init;
      assert st.stage == SentReady ==> st'.stage == SentReady;
      RecordedBy(handled, p, st, st', sender, m);
    }
  }

  lemma RecordedElsewhere(handled: set<Packet>, p: Id, st: State, pk: Packet)
    requires Recorded(handled, p, st) && pk.to != p
    ensures Recorded(handled + {pk}, p, st)
  {
  }

  lemma RecordedBy(handled: set<Packet>, p: Id, st: State, st': State, sender: Id, m: Message)
    requires Recorded(handled, p, st)
    requires st'.echoes == st.echoes || (m.stage == ECHO && st'.echoes == st.echoes[sender := m.value])
    requires st'.readies == st.readies || (m.stage == READY && st'.readies == st.readies[sender := m.value])
    requires m.stage == READY ==> sender in st'.readies
    requires m.stage == ECHO && st'.stage != SentReady ==> sender in st'.echoes
    requires m.stage == INITIAL ==> st'.stage != Init
    requires st.stage != Init ==> st'.stage != Init
    requires st.stage == SentReady ==> st'.stage == SentReady
    ensures Recorded(handled + {Packet(sender, p, m)}, p, st')
  {
  }

  lemma RecordsAfter(w: World, s: Net, pk: Packet, l: Local, out: seq<Message>, s': Net)
    requires Handled(w, s, pk, l, out, s') && Shape(w, s')
    requires Records(w, s)
    ensures Records(w, s')
  {
    forall p | p in w.Correct() && !s'.locals[p].Delivered?
      ensures Recorded(s'.handled, p, Register(s'.locals[p])) && NothingMissed(w.c, Register(s'.locals[p]))
    {
      assert Recorded(s.handled, p, Register(s.locals[p])) && NothingMissed(w.c, Register(s.locals[p]));
      if p == pk.to {
        RecordedAfter(w.c, s.handled, p, s.locals[p], pk.from, pk.m);
        NothingMissedAfter(w.c, s.locals[p], pk.from, pk.m);
      } else {
        RecordedElsewhere(s.handled, p, Register(s.locals[p]), pk);
      }
    }
  }

  /** The votes behind a broadcast, with the one just handled. */
  lemma VotesBehind(w: World, s: Net, pk: Packet, l: Local, out: seq<Message>, s': Net, v: int)
    requires Handled(w, s, pk, l, out, s') && !s.locals[pk.to].Delivered?
    requires Records(w, s)
    ensures var st := Register(s.locals[pk.to]);
            && (pk.m.stage == ECHO ==>
                  |Voters(st.echoes[pk.from := pk.m.value], v)| <= |Support(w, s, ECHO, v)|)
            && (pk.m.stage == READY ==>
                  |Voters(st.readies[pk.from := pk.m.value], v)| <= |Support(w, s, READY, v)|)
  {
    var st := Register(s.locals[pk.to]);
    assert Recorded(s.handled, pk.to, st);
    if pk.m.stage == ECHO {
      VotersSupport(w, s, pk.to, st.echoes[pk.from := pk.m.value], ECHO, v);
    } else if pk.m.stage == READY {
      VotersSupport(w, s, pk.to, st.readies[pk.from := pk.m.value], READY, v);
    }
  }

  /** What a process must have counted before it speaks. */
  lemma HandleCounts(c: Config, l: Local, sender: Id, m: Message)
    ensures var (l', out) := Handle(c, l, sender, m);
            && (out != [] || (l'.Delivered? && !l.Delivered?) ==> !l.Delivered?)
            && (out != [] ==>
                  || (m.stage == INITIAL && Message(READY, m.value) !in out)
                  || (m.stage == ECHO && |Voters(Register(l).echoes[sender := m.value], m.value)| >= c.ForEcho())
                  || (m.stage == READY && |Voters(Register(l).readies[sender := m.value], m.value)| >= c.ForReady()))
            && (l'.Delivered? && !l.Delivered? ==>
                  && l'.value == m.value && m.stage == READY
                  && |Voters(Register(l).readies[sender := m.value], m.value)| >= c.ForDelivery())
  {
  }

  /** A READY said just now. */
  lemma ReadyIsBacked(w: World, s: Net, pk: Packet, l: Local, out: seq<Message>, s': Net, p: Id, v: int)
    requires Handled(w, s, pk, l, out, s') && Shape(w, s')
    requires w.WellFormed() && Records(w, s) && ReadiesBacked(w, s)
    requires p in w.Correct() && Says(s', p, Message(READY, v)) && !Says(s, p, Message(READY, v))
    ensures Quorate(w, s', v)
  {
    QuorateGrows(w, s, s');
    SaysAfter(w, s, pk, l, out, s', p, Message(READY, v));
    HandleStages(w.c, s.locals[p], pk.from, pk.m);
    HandleCounts(w.c, s.locals[p], pk.from, pk.m);
    VotesBehind(w, s, pk, l, out, s', v);
    if pk.m.stage == READY {
      var q := SomeoneCorrectSaid(w, s, READY, v);
    }
    SupportGrows(w, s, s', ECHO, v);
  }

  lemma ReadiesAfter(w: World, s: Net, pk: Packet, l: Local, out: seq<Message>, s': Net)
    requires Handled(w, s, pk, l, out, s') && Shape(w, s')
    requires w.WellFormed() && Records(w, s) && ReadiesBacked(w, s)
    ensures ReadiesBacked(w, s')
  {
    QuorateGrows(w, s, s');
    forall p, v | p in w.Correct() && Says(s', p, Message(READY, v))
      ensures Quorate(w, s', v)
    {
      SaysAfter(w, s, pk, l, out, s', p, Message(READY, v));
      if !Says(s, p, Message(READY, v)) {
        ReadyIsBacked(w, s, pk, l, out, s', p, v);
      }
    }
  }

  lemma DeliveriesAfter(w: World, s: Net, pk: Packet, l: Local, out: seq<Message>, s': Net)
    requires Handled(w, s, pk, l, out, s') && Shape(w, s')
    requires Records(w, s) && DeliveriesBacked(w, s)
    ensures DeliveriesBacked(w, s')
  {
    DeliveriesGrow(w, s, s');
    if l.Delivered? && !s.locals[pk.to].Delivered? {
      HandleCounts(w.c, s.locals[pk.to], pk.from, pk.m);
      VotesBehind(w, s, pk, l, out, s', l.value);
      SupportGrows(w, s, s', READY, l.value);
    }
  }

  lemma EchoesAfter(w: World, s: Net, pk: Packet, l: Local, out: seq<Message>, s': Net)
    requires Handled(w, s, pk, l, out, s') && Shape(w, s')
    requires w.WellFormed() && Records(w, s) && ReadiesBacked(w, s) && EchoesIntroduced(w, s)
    ensures EchoesIntroduced(w, s')
  {
    IntroducedGrows(w, s, s');
    forall p, v | p in w.Correct() && Says(s', p, Message(ECHO, v))
      ensures Introduced(w, s', v)
    {
      SaysAfter(w, s, pk, l, out, s', p, Message(ECHO, v));
      if !Says(s, p, Message(ECHO, v)) {
        HandleStages(w.c, s.locals[p], pk.from, pk.m);
        HandleCounts(w.c, s.locals[p], pk.from, pk.m);
        VotesBehind(w, s, pk, l, out, s', v);
        if pk.m.stage == INITIAL {
          assert Packet(pk.from, p, Message(INITIAL, v)) in s'.handled;
        } else {
          var q := EchoBehind(w, s, v, pk.m.stage);
          assert Introduced(w, s, v);
        }
      }
    }
  }

  lemma EchoBehind(w: World, s: Net, v: int, stage: MessageStage) returns (q: Id)
    requires w.WellFormed() && ReadiesBacked(w, s)
    requires stage == ECHO || stage == READY
    requires stage == ECHO ==> Quorate(w, s, v)
    requires stage == READY ==> |Support(w, s, READY, v)| >= w.c.ForReady()
    ensures q in w.Correct() && Says(s, q, Message(ECHO, v))
  {
    if stage == READY {
      var r := SomeoneCorrectSaid(w, s, READY, v);
    }
    SubsetCount(w.byz, Everyone(w.c.n));
    q := SomeoneCorrectSaid(w, s, ECHO, v);
  }

  lemma ForgeShape(w: World, s: Net, pk: Packet, s': Net)
    requires Shape(w, s) && pk.from in w.byz && pk.from < w.c.n && pk.to < w.c.n
    requires s' == s.(sent := s.sent + {pk})
    ensures Shape(w, s')
    ensures forall p, m | p in w.Correct() :: Says(s', p, m) == Says(s, p, m)
  {
  }

  lemma StartShape(w: World, s: Net, value: int, s': Net)
    requires Shape(w, s) && w.author in w.Correct()
    requires s' == s.(sent := s.sent + Fan(w.author, w.c.n, [Message(INITIAL, value)]), started := Some(value))
    ensures Shape(w, s')
    ensures forall p, m | p in w.Correct() ::
              Says(s', p, m) <==> Says(s, p, m) || (p == w.author && m == Message(INITIAL, value))
  {
    assert forall m :: m in [Message(INITIAL, value)] <==> m == Message(INITIAL, value);
  }

  lemma ForgeInitials(w: World, s: Net, s': Net)
    requires Initials(w, s) && s'.started == s.started
    requires forall p, m | p in w.Correct() :: Says(s', p, m) == Says(s, p, m)
    ensures Initials(w, s')
    ensures forall p, m: Message | p in w.Correct() && m.stage != INITIAL && Says(s', p, m) :: Says(s, p, m)
  {
  }

  lemma StartInitials(w: World, s: Net, value: int, s': Net)
    requires Initials(w, s) && s.started.None? && s'.started == Some(value)
    requires forall p, m | p in w.Correct() ::
               Says(s', p, m) <==> Says(s, p, m) || (p == w.author && m == Message(INITIAL, value))
    ensures Initials(w, s')
    ensures forall p, m: Message | p in w.Correct() && m.stage != INITIAL && Says(s', p, m) :: Says(s, p, m)
  {
  }

  lemma InitialsAfter(w: World, s: Net, pk: Packet, l: Local, out: seq<Message>, s': Net)
    requires Handled(w, s, pk, l, out, s')
    requires Initials(w, s)
    ensures Initials(w, s')
  {
    HandleStages(w.c, s.locals[pk.to], pk.from, pk.m);
    forall p, v | p in w.Correct() && Says(s', p, Message(INITIAL, v))
      ensures p == w.author && s'.started == Some(v)
    {
      SaysAfter(w, s, pk, l, out, s', p, Message(INITIAL, v));
    }
  }

  lemma ForgeKeepsInv(w: World, s: Net, pk: Packet, s': Net)
    requires Inv(w, s) && pk.from in w.byz && pk.from < w.c.n && pk.to < w.c.n
    requires s' == s.(sent := s.sent + {pk})
    ensures Inv(w, s')
  {
    ForgeShape(w, s, pk, s');
    ForgeInitials(w, s, s');
    QuietStep(w, s, s');
  }

  lemma StartKeepsInv(w: World, s: Net, value: int, s': Net)
    requires Inv(w, s) && w.author in w.Correct() && s.started.None?
    requires s' == s.(sent := s.sent + Fan(w.author, w.c.n, [Message(INITIAL, value)]), started := Some(value))
    ensures Inv(w, s')
  {
    StartShape(w, s, value, s');
    StartInitials(w, s, value, s');
    QuietStep(w, s, s');
  }

  lemma NextKeepsInv(w: World, s: Net, e: Event)
    requires w.WellFormed() && Inv(w, s)
    ensures Inv(w, Next(w, s, e))
  {
    var s' := Next(w, s, e);
    if Enabled(w, s, e) {
      match e
      case Deliver(pk) =>
        var (l, out) := Handle(w.c, s.locals[pk.to], pk.from, pk.m);
        DeliverKeepsInv(w, s, pk, l, out, s');
      case Forge(pk) => ForgeKeepsInv(w, s, pk, s');
      case Start(value) => StartKeepsInv(w, s, value, s');
    }
  }

  lemma DeliverKeepsInv(w: World, s: Net, pk: Packet, l: Local, out: seq<Message>, s': Net)
    requires w.WellFormed() && Inv(w, s) && Handled(w, s, pk, l, out, s')
    ensures Inv(w, s')
  {
    ShapeAfter(w, s, pk, l, out, s');
    InitialsAfter(w, s, pk, l, out, s');
    StagesAfter(w, s, pk, l, out, s');
    RecordsAfter(w, s, pk, l, out, s');
    ReadiesAfter(w, s, pk, l, out, s');
    DeliveriesAfter(w, s, pk, l, out, s');
    EchoesAfter(w, s, pk, l, out, s');
  }

  lemma {:induction false} RunKeepsInv(w: World, events: seq<Event>)
    requires w.WellFormed()
    ensures Inv(w, Run(w, events))
  {
    if events != [] {
      RunKeepsInv(w, events[..|events| - 1]);
      NextKeepsInv(w, Run(w, events[..|events| - 1]), events[|events| - 1]);
    }
  }

  // ---------------------------------------------------------------- the theorems

  /** All READYs of correct processes carry one value. */
  lemma OneReadyValue(w: World, s: Net, u: int, v: int)
    requires w.WellFormed() && Inv(w, s) && Quorate(w, s, u) && Quorate(w, s, v)
    ensures u == v
  {
    var p := QuorumsMeet(w.c.n, w.c.f, w.byz, Support(w, s, ECHO, u), Support(w, s, ECHO, v));
    assert Says(s, p, Message(ECHO, u)) && Says(s, p, Message(ECHO, v));
    assert StageTells(s, p, StageOf(s.locals[p]));
  }

  lemma DeliveredIsQuorate(w: World, s: Net, p: Id) returns (q: Id)
    requires w.WellFormed() && Inv(w, s) && p in w.Correct() && s.locals[p].Delivered?
    ensures q in w.Correct() && Says(s, q, Message(READY, s.locals[p].value))
    ensures Quorate(w, s, s.locals[p].value)
  {
    q := SomeoneCorrectSaid(w, s, READY, s.locals[p].value);
  }

  /** Agreement: in every run, correct processes deliver the same value. No bound relates n to f. */
  lemma Agreement(w: World, events: seq<Event>, p: Id, q: Id)
    requires w.WellFormed() && p in w.Correct() && q in w.Correct()
    ensures var s := Run(w, events);
            && p in s.locals && q in s.locals
            && (s.locals[p].Delivered? && s.locals[q].Delivered? ==> s.locals[p].value == s.locals[q].value)
  {
    var s := Run(w, events);
    RunKeepsInv(w, events);
    if s.locals[p].Delivered? && s.locals[q].Delivered? {
      var _ := DeliveredIsQuorate(w, s, p);
      var _ := DeliveredIsQuorate(w, s, q);
      OneReadyValue(w, s, s.locals[p].value, s.locals[q].value);
    }
  }

  /** No invention: a delivered value was in an INITIAL that some correct process handled. */
  lemma NoInvention(w: World, events: seq<Event>, p: Id)
    requires w.WellFormed() && p in w.Correct()
    ensures var s := Run(w, events);
            p in s.locals && (s.locals[p].Delivered? ==> Introduced(w, s, s.locals[p].value))
  {
    var s := Run(w, events);
    RunKeepsInv(w, events);
    if s.locals[p].Delivered? {
      var _ := DeliveredIsQuorate(w, s, p);
      var q := EchoBehind(w, s, s.locals[p].value, ECHO);
    }
  }

  /** Every packet between correct processes has been handled. */
  ghost predicate Quiescent(w: World, s: Net) {
    forall pk | pk in s.sent && pk.from in w.Correct() && pk.to in w.Correct() :: pk in s.handled
  }

  /** In a quiescent network a live process has recorded the READY of every correct process. */
  lemma ReadyVotesArrived(w: World, s: Net, p: Id, v: int, group: set<Id>)
    requires Inv(w, s) && Quiescent(w, s) && p in w.Correct() && !s.locals[p].Delivered?
    requires group <= w.Correct() && forall q | q in group :: Says(s, q, Message(READY, v))
    ensures |Voters(Register(s.locals[p]).readies, v)| >= |group|
  {
    var st := Register(s.locals[p]);
    assert Recorded(s.handled, p, st);
    forall q | q in group
      ensures q in Voters(st.readies, v)
    {
      assert Packet(q, p, Message(READY, v)) in s.handled;
      assert Says(s, q, Message(READY, st.readies[q]));
      assert StageTells(s, q, StageOf(s.locals[q]));
    }
    SubsetCount(group, Voters(st.readies, v));
  }

  lemma EchoVotesArrived(w: World, s: Net, p: Id, v: int)
    requires Inv(w, s) && Quiescent(w, s) && p in w.Correct() && StageOf(s.locals[p]) != SentReady
    requires forall q | q in w.Correct() :: Says(s, q, Message(ECHO, v))
    ensures |Voters(Register(s.locals[p]).echoes, v)| >= |w.Correct()|
  {
    var st := Register(s.locals[p]);
    assert Recorded(s.handled, p, st);
    forall q | q in w.Correct()
      ensures q in Voters(st.echoes, v)
    {
      assert Packet(q, p, Message(ECHO, v)) in s.handled;
      assert Says(s, q, Message(ECHO, st.echoes[q]));
      assert StageTells(s, q, StageOf(s.locals[q]));
    }
    SubsetCount(w.Correct(), Voters(st.echoes, v));
  }

  /** Once all correct processes said READY(v) and the network is quiet, all have delivered v. */
  lemma AllReadyAllDelivered(w: World, s: Net, v: int, p: Id)
    requires w.WellFormed() && w.c.n >= 3 * w.c.f + 1 && Inv(w, s) && Quiescent(w, s) && p in w.Correct()
    requires forall q | q in w.Correct() :: Says(s, q, Message(READY, v))
    ensures s.locals[p] == Delivered(v)
  {
    CorrectCount(w.c.n, w.byz);
    if s.locals[p].Delivered? {
      var q := DeliveredIsQuorate(w, s, p);
      OneReadyValue(w, s, s.locals[p].value, v);
    } else {
      assert MissedNone(w.c, Register(s.locals[p]), v);
      ReadyVotesArrived(w, s, p, v, w.Correct());
      assert false;
    }
  }

  /** Totality: if one correct process delivered v and the network is quiet, every correct process did. */
  lemma Totality(w: World, events: seq<Event>, p: Id, q: Id)
    requires w.WellFormed() && w.c.n >= 3 * w.c.f + 1
    requires p in w.Correct() && q in w.Correct() && Quiescent(w, Run(w, events))
    ensures var s := Run(w, events);
            p in s.locals && q in s.locals && (s.locals[p].Delivered? ==> s.locals[q] == s.locals[p])
  {
    var s := Run(w, events);
    RunKeepsInv(w, events);
    if s.locals[p].Delivered? {
      var v := s.locals[p].value;
      var _ := DeliveredIsQuorate(w, s, p);
      forall r | r in w.Correct()
        ensures Says(s, r, Message(READY, v))
      {
        CatchesUp(w, s, v, r);
      }
      AllReadyAllDelivered(w, s, v, q);
    }
  }

  /** The correct READYs behind a delivery are enough to make everyone send READY. */
  lemma CatchesUp(w: World, s: Net, v: int, r: Id)
    requires w.WellFormed() && Inv(w, s) && Quiescent(w, s) && r in w.Correct()
    requires Quorate(w, s, v) && |Support(w, s, READY, v)| >= w.c.ForDelivery()
    ensures Says(s, r, Message(READY, v))
  {
    var group := Support(w, s, READY, v) - w.byz;
    SubsetCount(Support(w, s, READY, v), group + w.byz);
    if StageOf(s.locals[r]) != SentReady {
      assert MissedNone(w.c, Register(s.locals[r]), v);
      ReadyVotesArrived(w, s, r, v, group);
      assert false;
    }
    SaysTheReady(w, s, r, v);
  }

  /** A process past READY said READY for the one value that is quorate. */
  lemma SaysTheReady(w: World, s: Net, r: Id, v: int)
    requires w.WellFormed() && Inv(w, s) && Quorate(w, s, v)
    requires r in w.Correct() && StageOf(s.locals[r]) == SentReady
    ensures Says(s, r, Message(READY, v))
  {
    assert StageTells(s, r, StageOf(s.locals[r]));
    var u :| Says(s, r, Message(READY, u));
    OneReadyValue(w, s, u, v);
  }

  /**
   * Validity: when INITIAL comes from a correct author only and carries v, everyone delivers v. The handler
   * does not compare the sender of an INITIAL with the author, so this is a hypothesis about the run.
   */
  lemma Validity(w: World, events: seq<Event>, v: int, p: Id)
    requires w.WellFormed() && w.c.n >= 3 * w.c.f + 1 && w.author in w.Correct() && p in w.Correct()
    requires var s := Run(w, events);
             && Quiescent(w, s)
             && Says(s, w.author, Message(INITIAL, v))
             && forall pk | pk in s.sent && pk.m.stage == INITIAL :: pk.from == w.author
    ensures var s := Run(w, events); p in s.locals && s.locals[p] == Delivered(v)
  {
    var s := Run(w, events);
    RunKeepsInv(w, events);
    forall r | r in w.Correct()
      ensures Says(s, r, Message(ECHO, v))
    {
      EchoesTheAuthor(w, s, v, r);
    }
    forall r | r in w.Correct()
      ensures Says(s, r, Message(READY, v))
    {
      AllEchoedAllReady(w, s, v, r);
    }
    AllReadyAllDelivered(w, s, v, p);
  }

  lemma EchoesTheAuthor(w: World, s: Net, v: int, r: Id)
    requires Inv(w, s) && Quiescent(w, s) && w.author in w.Correct() && r in w.Correct()
    requires Says(s, w.author, Message(INITIAL, v))
    requires forall pk | pk in s.sent && pk.m.stage == INITIAL :: pk.from == w.author
    ensures Says(s, r, Message(ECHO, v))
  {
    assert Packet(w.author, r, Message(INITIAL, v)) in s.handled;
    assert StageTells(s, r, StageOf(s.locals[r]));
    assert !s.locals[r].Delivered? ==> Recorded(s.handled, r, Register(s.locals[r]));
    var u :| Says(s, r, Message(ECHO, u));
    assert Introduced(w, s, u);
    OneInitialValue(w, s, u, v);
  }

  lemma OneInitialValue(w: World, s: Net, u: int, v: int)
    requires Shape(w, s) && Initials(w, s) && w.author in w.Correct()
    requires Says(s, w.author, Message(INITIAL, v)) && Introduced(w, s, u)
    requires forall pk | pk in s.sent && pk.m.stage == INITIAL :: pk.from == w.author
    ensures u == v
  {
    var q, p :| p in w.Correct() && Packet(q, p, Message(INITIAL, u)) in s.handled;
    assert q == w.author && Says(s, q, Message(INITIAL, u));
  }

  lemma AllEchoedAllReady(w: World, s: Net, v: int, r: Id)
    requires w.WellFormed() && w.c.n >= 3 * w.c.f + 1 && Inv(w, s) && Quiescent(w, s) && r in w.Correct()
    requires forall q | q in w.Correct() :: Says(s, q, Message(ECHO, v))
    ensures Says(s, r, Message(READY, v))
  {
    CorrectCount(w.c.n, w.byz);
    assert w.Correct() <= Support(w, s, ECHO, v);
    SubsetCount(w.Correct(), Support(w, s, ECHO, v));
    if StageOf(s.locals[r]) != SentReady {
      assert MissedNone(w.c, Register(s.locals[r]), v);
      EchoVotesArrived(w, s, r, v);
      assert false;
    }
    SaysTheReady(w, s, r, v);
  }
}
