/**
 * Exactly when a process speaks and delivers in Bracha's broadcast, in numbers of votes among the messages it has
 * handled: no threshold is crossed without its consequence, and nothing happens below one.
 */
module BrachaVotes {
  import opened Quorums
  import opened Bracha
  import opened BrachaNetwork

  /** What matters of the messages handled: the first vote of every sender at each stage, and the values introduced. */
  datatype Ledger = Ledger(echoes: map<Id, int>, readies: map<Id, int>, initials: set<int>)

  function Noted(l: Ledger, sender: Id, m: Message): Ledger {
    Ledger(
      if m.stage == ECHO then Cast(l.echoes, sender, m.value) else l.echoes,
      if m.stage == READY then Cast(l.readies, sender, m.value) else l.readies,
      if m.stage == INITIAL then l.initials + {m.value} else l.initials)
  }

  function LedgerOf(inputs: seq<(Id, Message)>): Ledger {
    if inputs == [] then Ledger(map[], map[], {})
    else
      var (sender, m) := inputs[|inputs| - 1];
      Noted(LedgerOf(inputs[..|inputs| - 1]), sender, m)
  }

  predicate CallsForDelivery(c: Config, l: Ledger, v: int) {
    |Voters(l.readies, v)| >= 2 * c.f + 1
  }

  predicate CallsForReady(c: Config, l: Ledger, v: int) {
    |Voters(l.readies, v)| >= c.f + 1 || 2 * |Voters(l.echoes, v)| >= c.n + c.f + 1
  }

  predicate CallsForEcho(c: Config, l: Ledger, v: int) {
    CallsForReady(c, l, v) || v in l.initials
  }

  // ---------------------------------------------------------------- one process

  lemma CastCounts(votes: map<Id, int>, q: Id, u: int, v: int)
    ensures |Voters(Cast(votes, q, u), v)| == |Voters(votes, v)| + if q !in votes && u == v then 1 else 0
  {
    if q !in votes {
      VotersAfter(votes, q, u, v);
    }
  }

  lemma NotedCounts(l: Ledger, sender: Id, m: Message, v: int)
    ensures var l' := Noted(l, sender, m);
            && |Voters(l'.readies, v)|
               == |Voters(l.readies, v)| + (if m == Message(READY, v) && sender !in l.readies then 1 else 0)
            && |Voters(l'.echoes, v)|
               == |Voters(l.echoes, v)| + if m == Message(ECHO, v) && sender !in l.echoes then 1 else 0
  {
    CastCounts(l.readies, sender, m.value, v);
    CastCounts(l.echoes, sender, m.value, v);
  }

  /** Nothing at or above this stage is called for. */
  predicate Uncalled(c: Config, l: Ledger, stage: Stage, v: int) {
    && !CallsForDelivery(c, l, v)
    && (stage != SentReady ==> !CallsForReady(c, l, v))
    && (stage == Init ==> !CallsForEcho(c, l, v))
  }

  /** A live state has the votes handled and has missed nothing. */
  ghost predicate UpToDate(c: Config, l: Ledger, st: State) {
    && st.readies == l.readies
    && (st.stage != SentReady ==> st.echoes == l.echoes)
    && forall v: int :: Uncalled(c, l, st.stage, v)
  }

  /** Whatever has been said was called for. */
  ghost predicate Warranted(c: Config, l: Ledger, local: Local, sent: seq<Message>) {
    && (forall m | m in sent && m.stage == ECHO :: CallsForEcho(c, l, m.value))
    && (forall m | m in sent && m.stage == READY :: CallsForReady(c, l, m.value))
    && (local.Delivered? ==> CallsForDelivery(c, l, local.value))
  }

  /** What calls for something goes on calling for it. */
  lemma StillWarranted(c: Config, l: Ledger, local: Local, sent: seq<Message>, sender: Id, m: Message)
    requires Warranted(c, l, local, sent)
    ensures Warranted(c, Noted(l, sender, m), local, sent)
  {
    forall v: int
      ensures var l' := Noted(l, sender, m);
              && (CallsForDelivery(c, l, v) ==> CallsForDelivery(c, l', v))
              && (CallsForReady(c, l, v) ==> CallsForReady(c, l', v))
              && (CallsForEcho(c, l, v) ==> CallsForEcho(c, l', v))
    {
      NotedCounts(l, sender, m, v);
    }
  }

  lemma InitialKeeps(c: Config, l: Ledger, st: State, sender: Id, v: int)
    requires UpToDate(c, l, st)
    ensures var (st', out) := OnInitial(st, v);
            var l' := Noted(l, sender, Message(INITIAL, v));
            UpToDate(c, l', st') && (out != [] ==> CallsForEcho(c, l', v))
  {
    var m, st' := Message(INITIAL, v), OnInitial(st, v).0;
    forall u: int
      ensures Uncalled(c, Noted(l, sender, m), st'.stage, u)
    {
      assert Uncalled(c, l, st.stage, u);
      NotedCounts(l, sender, m, u);
    }
  }

  lemma EchoKeeps(c: Config, l: Ledger, st: State, sender: Id, v: int)
    requires UpToDate(c, l, st)
    ensures var (st', out) := OnEcho(c, st, sender, v);
            var l' := Noted(l, sender, Message(ECHO, v));
            UpToDate(c, l', st') && (out != [] ==> CallsForReady(c, l', v))
  {
    var m, st' := Message(ECHO, v), OnEcho(c, st, sender, v).0;
    forall u: int
      ensures Uncalled(c, Noted(l, sender, m), st'.stage, u)
    {
      assert Uncalled(c, l, st.stage, u);
      NotedCounts(l, sender, m, u);
    }
  }

  lemma ReadyKeeps(c: Config, l: Ledger, st: State, sender: Id, v: int)
    requires UpToDate(c, l, st)
    ensures var (st', out, deliver) := OnReady(c, st, sender, v);
            var l' := Noted(l, sender, Message(READY, v));
            && (out != [] ==> CallsForReady(c, l', v))
            && if deliver then CallsForDelivery(c, l', v) else UpToDate(c, l', st')
  {
    var m := Message(READY, v);
    var (st', _, deliver) := OnReady(c, st, sender, v);
    if !deliver {
      forall u: int
        ensures Uncalled(c, Noted(l, sender, m), st'.stage, u)
      {
        assert Uncalled(c, l, st.stage, u);
        NotedCounts(l, sender, m, u);
      }
    }
  }

  lemma HandleKeeps(c: Config, l: Ledger, local: Local, sender: Id, m: Message)
    requires !local.Delivered? && UpToDate(c, l, Register(local))
    ensures var (local', out) := Handle(c, local, sender, m);
            var l' := Noted(l, sender, m);
            (!local'.Delivered? ==> UpToDate(c, l', Register(local'))) && Warranted(c, l', local', out)
  {
    var st, l' := Counted(Register(local)), Noted(l, sender, m);
    var (local', out) := Handle(c, local, sender, m);
    assert UpToDate(c, l, st);
    match m.stage {
      case INITIAL => InitialKeeps(c, l, st, sender, m.value);
      case ECHO => EchoKeeps(c, l, st, sender, m.value);
      case READY => ReadyKeeps(c, l, st, sender, m.value);
      case OTHER =>
    }
    HandleStages(c, local, sender, m);
    HandleSays(c, local, sender, m);
    assert out != [] ==> if m.stage == INITIAL then CallsForEcho(c, l', m.value) else CallsForReady(c, l', m.value);
    SaidWarranted(c, l', local', m, out);
  }

  /** On an INITIAL at most an ECHO is said; all that is said and delivered is the value of the message. */
  lemma HandleSays(c: Config, local: Local, sender: Id, m: Message)
    requires !local.Delivered?
    ensures var (local', out) := Handle(c, local, sender, m);
            && (m.stage == INITIAL ==> Message(READY, m.value) !in out)
            && (local'.Delivered? ==> m.stage == READY && local'.value == m.value)
  {
  }

  lemma SaidWarranted(c: Config, l: Ledger, local: Local, m: Message, out: seq<Message>)
    requires out != [] ==>
               if m.stage == INITIAL then CallsForEcho(c, l, m.value) && Message(READY, m.value) !in out
               else CallsForReady(c, l, m.value)
    requires forall x | x in out :: x.value == m.value
    requires local.Delivered? ==> local.value == m.value && CallsForDelivery(c, l, m.value)
    ensures Warranted(c, l, local, out)
  {
    forall x | x in out && x.stage == READY
      ensures CallsForReady(c, l, x.value)
    {
      assert x == Message(READY, m.value);
    }
  }

  lemma {:induction false} PlayKeeps(c: Config, inputs: seq<(Id, Message)>)
    ensures var (local, sent) := Play(c, inputs);
            && (!local.Delivered? ==> UpToDate(c, LedgerOf(inputs), Register(local)))
            && Warranted(c, LedgerOf(inputs), local, sent)
  {
    if inputs == [] {
      assert forall v: int :: Voters(map[], v) == {};
      assert forall v: int :: Uncalled(c, LedgerOf([]), Init, v);
    } else {
      var k := |inputs| - 1;
      var (local, sent) := Play(c, inputs[..k]);
      var (sender, m) := inputs[k];
      PlayKeeps(c, inputs[..k]);
      StillWarranted(c, LedgerOf(inputs[..k]), local, sent, sender, m);
      if !local.Delivered? {
        HandleKeeps(c, LedgerOf(inputs[..k]), local, sender, m);
      }
    }
  }

  ghost predicate Said(sent: seq<Message>, stage: MessageStage) {
    exists v :: Message(stage, v) in sent
  }

  /** Delivered and said is what is called for, and all of it. */
  ghost predicate SpokenFor(c: Config, l: Ledger, local: Local, sent: seq<Message>) {
    && (local.Delivered? <==> exists v :: CallsForDelivery(c, l, v))
    && (Said(sent, READY) <==> exists v :: CallsForReady(c, l, v))
    && (Said(sent, ECHO) <==> exists v :: CallsForEcho(c, l, v))
    && Warranted(c, l, local, sent)
  }

  /**
   * Exactly when a process speaks and delivers: READY once f + 1 processes sent it READY or ceil((n + f + 1) / 2) sent
   * it ECHO for one value, counting each sender's first; ECHO then, or on an INITIAL; and it has delivered once 2f + 1
   * sent READY for one value. What it says and delivers is a value with those votes.
   */
  lemma SpeaksExactly(c: Config, inputs: seq<(Id, Message)>)
    ensures SpokenFor(c, LedgerOf(inputs), Play(c, inputs).0, Play(c, inputs).1)
  {
    var (local, sent) := Play(c, inputs);
    PlayKeeps(c, inputs);
    SaysByStage(c, inputs);
    NothingUncalled(c, LedgerOf(inputs), local, sent);
  }

  lemma SaysByStage(c: Config, inputs: seq<(Id, Message)>)
    ensures var (local, sent) := Play(c, inputs);
            && (Said(sent, READY) <==> local.Delivered? || Register(local).stage == SentReady)
            && (Said(sent, ECHO) <==> local.Delivered? || Register(local).stage != Init)
  {
    var (local, sent) := Play(c, inputs);
    SpeaksAtMostTwice(c, inputs);
    if |sent| >= 1 {
      assert sent[0] == Message(ECHO, sent[0].value) && sent[0] in sent;
    }
    if |sent| == 2 {
      assert sent[1] == Message(READY, sent[1].value) && sent[1] in sent;
    }
  }

  lemma NothingUncalled(c: Config, l: Ledger, local: Local, sent: seq<Message>)
    requires Warranted(c, l, local, sent) && (!local.Delivered? ==> UpToDate(c, l, Register(local)))
    requires Said(sent, READY) <==> local.Delivered? || Register(local).stage == SentReady
    requires Said(sent, ECHO) <==> local.Delivered? || Register(local).stage != Init
    ensures SpokenFor(c, l, local, sent)
  {
    if local.Delivered? {
      assert CallsForReady(c, l, local.value) && CallsForEcho(c, l, local.value);
    } else {
      forall v: int
        ensures !CallsForDelivery(c, l, v)
        ensures Register(local).stage != SentReady ==> !CallsForReady(c, l, v)
        ensures Register(local).stage == Init ==> !CallsForEcho(c, l, v)
      {
        assert Uncalled(c, l, Register(local).stage, v);
      }
    }
  }

  /** The votes of one stage. */
  function VotesOf(l: Ledger, stage: MessageStage): map<Id, int>
    requires stage == ECHO || stage == READY
  {
    if stage == ECHO then l.echoes else l.readies
  }

  predicate FirstAt(inputs: seq<(Id, Message)>, i: nat) {
    i < |inputs| && forall j | 0 <= j < i :: inputs[j].0 != inputs[i].0 || inputs[j].1.stage != inputs[i].1.stage
  }

  /** The vote of a sender that counts is the one in its first message of the stage. */
  lemma {:induction false} FirstCounts(inputs: seq<(Id, Message)>, i: nat)
    requires FirstAt(inputs, i) && (inputs[i].1.stage == ECHO || inputs[i].1.stage == READY)
    ensures var (sender, m) := inputs[i];
            var votes := VotesOf(LedgerOf(inputs), m.stage);
            sender in votes && votes[sender] == m.value
  {
    var k := |inputs| - 1;
    if i < k {
      assert FirstAt(inputs[..k], i);
      FirstCounts(inputs[..k], i);
    } else {
      NoneCounts(inputs[..k], inputs[k].0, inputs[k].1.stage);
    }
  }

  lemma {:induction false} NoneCounts(inputs: seq<(Id, Message)>, q: Id, stage: MessageStage)
    requires stage == ECHO || stage == READY
    requires forall j | 0 <= j < |inputs| :: inputs[j].0 != q || inputs[j].1.stage != stage
    ensures q !in VotesOf(LedgerOf(inputs), stage)
  {
    if inputs != [] {
      NoneCounts(inputs[..|inputs| - 1], q, stage);
    }
  }

  /** Whoever voted is counted, with a vote that was cast. */
  lemma {:induction false} CountedIsCast(inputs: seq<(Id, Message)>, stage: MessageStage, q: Id, v: int)
    requires (stage == ECHO || stage == READY) && (q, Message(stage, v)) in inputs
    ensures var votes := VotesOf(LedgerOf(inputs), stage);
            q in votes && (q, Message(stage, votes[q])) in inputs
  {
    var k := |inputs| - 1;
    if (q, Message(stage, v)) in inputs[..k] {
      CountedIsCast(inputs[..k], stage, q, v);
    } else {
      assert inputs[k] == (q, Message(stage, v));
      CastBefore(inputs[..k], stage, q);
    }
  }

  lemma {:induction false} CastBefore(inputs: seq<(Id, Message)>, stage: MessageStage, q: Id)
    requires stage == ECHO || stage == READY
    ensures var votes := VotesOf(LedgerOf(inputs), stage);
            q in votes ==> (q, Message(stage, votes[q])) in inputs
  {
    if inputs != [] {
      CastBefore(inputs[..|inputs| - 1], stage, q);
      var votes, last := VotesOf(LedgerOf(inputs), stage), inputs[|inputs| - 1];
      assert inputs == inputs[..|inputs| - 1] + [last];
      assert q in votes && q !in VotesOf(LedgerOf(inputs[..|inputs| - 1]), stage) ==>
          last == (q, Message(stage, votes[q]));
    }
  }

  // ---------------------------------------------------------------- in the network

  function InputIn(w: World, s: Net, e: Event, p: Id): seq<(Id, Message)> {
    if e.Deliver? && Enabled(w, s, e) && e.pk.to == p then [(e.pk.from, e.pk.m)] else []
  }

  /** The messages that p has handled, in order. */
  function InputsOf(w: World, events: seq<Event>, p: Id): seq<(Id, Message)> {
    if events == [] then []
    else
      var k := |events| - 1;
      InputsOf(w, events[..k], p) + InputIn(w, Run(w, events[..k]), events[k], p)
  }

  /** p's state, what it has said and what it has handled are those of one process on these inputs. */
  ghost predicate PlaysAlone(w: World, s: Net, p: Id, inputs: seq<(Id, Message)>) {
    var (l, sent) := Play(w.c, inputs);
    && p in s.locals && s.locals[p] == l
    && (forall m: Message | m.stage != INITIAL :: Says(s, p, m) <==> m in sent)
    && (forall q: Id, m: Message :: Packet(q, p, m) in s.handled <==> (q, m) in inputs)
  }

  lemma DeliverPlays(w: World, s: Net, pk: Packet, p: Id, inputs: seq<(Id, Message)>)
    requires PlaysAlone(w, s, p, inputs) && p in w.Correct() && Enabled(w, s, Deliver(pk))
    ensures PlaysAlone(w, Next(w, s, Deliver(pk)), p, inputs + if pk.to == p then [(pk.from, pk.m)] else [])
  {
    var s' := Next(w, s, Deliver(pk));
    if pk.to == p {
      var longer := inputs + [(pk.from, pk.m)];
      assert longer[..|inputs|] == inputs;
      var out := Handle(w.c, s.locals[p], pk.from, pk.m).1;
      assert Play(w.c, longer).1 == Play(w.c, inputs).1 + out;
      assert s'.sent == s.sent + Fan(p, w.c.n, out);
    } else {
      assert inputs + [] == inputs;
    }
  }

  /** Each correct process in the network runs the single process of Bracha on what it handles. */
  lemma {:induction false} EachPlaysAlone(w: World, events: seq<Event>, p: Id)
    requires p in w.Correct()
    ensures PlaysAlone(w, Run(w, events), p, InputsOf(w, events, p))
  {
    if events != [] {
      var k := |events| - 1;
      var s, inputs := Run(w, events[..k]), InputsOf(w, events[..k], p);
      EachPlaysAlone(w, events[..k], p);
      assert inputs + [] == inputs;
      if Enabled(w, s, events[k]) && events[k].Deliver? {
        DeliverPlays(w, s, events[k].pk, p, inputs);
      }
    }
  }

  ghost predicate Spoke(s: Net, p: Id, stage: MessageStage) {
    exists v :: Says(s, p, Message(stage, v))
  }

  lemma SpokeAlike(s: Net, p: Id, stage: MessageStage, sent: seq<Message>)
    requires forall v :: Says(s, p, Message(stage, v)) <==> Message(stage, v) in sent
    ensures Spoke(s, p, stage) <==> Said(sent, stage)
  {
    if Said(sent, stage) {
      var v :| Message(stage, v) in sent;
      assert Says(s, p, Message(stage, v));
    }
  }

  /** In every run, each correct process has spoken and delivered exactly when the messages it handled call for it. */
  lemma SpeaksExactlyInRuns(w: World, events: seq<Event>, p: Id)
    requires p in w.Correct()
    ensures SpokenExactly(w, Run(w, events), p, InputsOf(w, events, p))
  {
    EachPlaysAlone(w, events, p);
    AsAlone(w, Run(w, events), p, InputsOf(w, events, p));
  }

  ghost predicate SpokenExactly(w: World, s: Net, p: Id, inputs: seq<(Id, Message)>) {
    var l := LedgerOf(inputs);
    && p in s.locals
    && (s.locals[p].Delivered? <==> exists v :: CallsForDelivery(w.c, l, v))
    && (Spoke(s, p, READY) <==> exists v :: CallsForReady(w.c, l, v))
    && (Spoke(s, p, ECHO) <==> exists v :: CallsForEcho(w.c, l, v))
    && (forall v | Says(s, p, Message(READY, v)) :: CallsForReady(w.c, l, v))
    && (forall v | Says(s, p, Message(ECHO, v)) :: CallsForEcho(w.c, l, v))
    && (s.locals[p].Delivered? ==> CallsForDelivery(w.c, l, s.locals[p].value))
  }

  lemma AsAlone(w: World, s: Net, p: Id, inputs: seq<(Id, Message)>)
    requires PlaysAlone(w, s, p, inputs)
    ensures SpokenExactly(w, s, p, inputs)
  {
    var sent := Play(w.c, inputs).1;
    SpeaksExactly(w.c, inputs);
    assert forall v :: Says(s, p, Message(READY, v)) <==> Message(READY, v) in sent;
    assert forall v :: Says(s, p, Message(ECHO, v)) <==> Message(ECHO, v) in sent;
    SpokeAlike(s, p, READY, sent);
    SpokeAlike(s, p, ECHO, sent);
  }

  /** Every process of the group has sent p this message, and no other of its stage, by what p has handled. */
  ghost predicate Unanimous(s: Net, p: Id, group: set<Id>, m: Message) {
    && (forall q | q in group :: Packet(q, p, m) in s.handled)
    && (forall q, u | q in group && Packet(q, p, Message(m.stage, u)) in s.handled :: u == m.value)
  }

  lemma UnanimousCount(w: World, events: seq<Event>, p: Id, group: set<Id>, m: Message)
    requires p in w.Correct() && (m.stage == ECHO || m.stage == READY)
    requires Unanimous(Run(w, events), p, group, m)
    ensures |Voters(VotesOf(LedgerOf(InputsOf(w, events, p)), m.stage), m.value)| >= |group|
  {
    var inputs := InputsOf(w, events, p);
    var votes := VotesOf(LedgerOf(inputs), m.stage);
    EachPlaysAlone(w, events, p);
    forall q | q in group
      ensures q in Voters(votes, m.value)
    {
      assert (q, m) in inputs;
      CountedIsCast(inputs, m.stage, q, m.value);
    }
    SubsetCount(group, Voters(votes, m.value));
  }

  /**
   * No delivery is missed: a correct process that has handled READY for v, and no other READY, from each of 2f + 1
   * processes has delivered v.
   */
  lemma DeliversAtOnce(w: World, events: seq<Event>, p: Id, group: set<Id>, v: int)
    requires w.WellFormed() && p in w.Correct() && group <= Everyone(w.c.n) && |group| >= 2 * w.c.f + 1
    requires Unanimous(Run(w, events), p, group, Message(READY, v))
    ensures var s := Run(w, events); p in s.locals && s.locals[p] == Delivered(v)
  {
    var s := Run(w, events);
    UnanimousCount(w, events, p, group, Message(READY, v));
    SpeaksExactlyInRuns(w, events, p);
    assert CallsForDelivery(w.c, LedgerOf(InputsOf(w, events, p)), v);
    RunKeepsInv(w, events);
    var q := SomeCorrect(group, w.byz);
    assert Packet(q, p, Message(READY, v)) in s.sent;
    assert Says(s, q, Message(READY, v));
    var _ := DeliveredIsQuorate(w, s, p);
    OneReadyValue(w, s, s.locals[p].value, v);
  }

  /** No READY is missed: f + 1 processes with READY, or ceil((n + f + 1) / 2) with ECHO, and no other, are enough. */
  lemma ReadiesAtOnce(w: World, events: seq<Event>, p: Id, group: set<Id>, m: Message)
    requires p in w.Correct() && Unanimous(Run(w, events), p, group, m)
    requires || (m.stage == READY && |group| >= w.c.f + 1)
             || (m.stage == ECHO && 2 * |group| >= w.c.n + w.c.f + 1)
    ensures Spoke(Run(w, events), p, READY)
  {
    UnanimousCount(w, events, p, group, m);
    SpeaksExactlyInRuns(w, events, p);
    assert CallsForReady(w.c, LedgerOf(InputsOf(w, events, p)), m.value);
  }
}
