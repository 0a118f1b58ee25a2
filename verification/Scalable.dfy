/**
 * The sampled broadcast at one process, for one instance: weighted samples, a gossip and an echo message sent to
 * whoever subscribes, and READYs counted by weight. Samples are inputs; the state may expire after delivery.
 */
module Scalable {
  import opened Options
  import opened Quorums

  datatype Stage =
    | GOSSIP_SUBSCRIBE
    | GOSSIP
    | ECHO_SUBSCRIBE
    | ECHO
    | READY_SUBSCRIBE
    | READY

  datatype Message = Message(stage: Stage, value: int)

  datatype Packet = Packet(to: Id, m: Message)

  type Sample = map<Id, nat>

  datatype Config = Config(
    echoSampleSize: nat, echoThreshold: int, readySampleSize: nat, readyThreshold: int,
    deliverySampleSize: nat, deliveryThreshold: int)

  /** What the random source yields when a state is created: a set of peers to gossip with and three lists of picks. */
  datatype Draw = Draw(gossip: set<Id>, echo: seq<Id>, ready: seq<Id>, delivery: seq<Id>) {
    predicate Fits(c: Config) {
      |echo| == c.echoSampleSize && |ready| == c.readySampleSize && |delivery| == c.deliverySampleSize
    }
  }

  /** echoes holds the first echo of every sampled sender. */
  datatype State = State(
    echoes: map<Id, int>,
    readyStat: map<int, nat>,
    deliveryStat: map<int, nat>,
    sentReady: set<int>,
    gossipSample: set<Id>,
    echoSample: Sample,
    readySample: Sample,
    deliverySample: Sample,
    echoSubscribers: set<Id>,
    readySubscribers: set<Id>,
    gossip: Option<int>,
    echo: Option<int>,
    sentReadyFromSieve: bool,
    received: nat)

  datatype Local = Local(state: Option<State>, delivered: Option<int>)

  const UNTOUCHED := Local(None, None)

  /** Go's reading of a map of numbers: absent means zero. */
  function Of<K>(m: map<K, nat>, k: K): nat {
    if k in m then m[k] else 0
  }

  /** How often each process was picked. */
  function Picked(picks: seq<Id>): Sample {
    if picks == [] then map[]
    else
      var rest, q := Picked(picks[..|picks| - 1]), picks[|picks| - 1];
      rest[q := Of(rest, q) + 1]
  }

  // ---------------------------------------------------------------- sums over sets of processes

  ghost function Weight(sample: Sample, who: set<Id>): nat
    decreases |who|
  {
    if who == {} then 0
    else
      var q :| q in who;
      Of(sample, q) + Weight(sample, who - {q})
  }

  lemma {:induction false} WeightWithout(sample: Sample, who: set<Id>, q: Id)
    requires q in who
    ensures Weight(sample, who) == Of(sample, q) + Weight(sample, who - {q})
    decreases |who|
  {
    var p :| p in who && Weight(sample, who) == Of(sample, p) + Weight(sample, who - {p});
    if p != q {
      WeightWithout(sample, who - {p}, q);
      WeightWithout(sample, who - {q}, p);
      assert who - {p} - {q} == who - {q} - {p};
    }
  }

  lemma WeightWith(sample: Sample, who: set<Id>, q: Id)
    requires q !in who
    ensures Weight(sample, who + {q}) == Weight(sample, who) + Of(sample, q)
  {
    WeightWithout(sample, who + {q}, q);
    assert who + {q} - {q} == who;
  }

  lemma {:induction false} WeightOfUnion(sample: Sample, a: set<Id>, b: set<Id>)
    requires a !! b
    ensures Weight(sample, a + b) == Weight(sample, a) + Weight(sample, b)
    decreases |b|
  {
    if b == {} {
      assert a + b == a;
    } else {
      var q :| q in b;
      var rest := b - {q};
      WeightOfUnion(sample, a, rest);
      WeightWithout(sample, b, q);
      WeightWithout(sample, a + b, q);
      assert a + b - {q} == a + rest;
    }
  }

  lemma WeightOfPart(sample: Sample, a: set<Id>, b: set<Id>)
    requires a <= b
    ensures Weight(sample, a) <= Weight(sample, b)
  {
    WeightOfUnion(sample, a, b - a);
    assert a + (b - a) == b;
  }

  lemma {:induction false} WeightElsewhere(sample: Sample, q: Id, w: nat, who: set<Id>)
    requires q !in who
    ensures Weight(sample[q := w], who) == Weight(sample, who)
    decreases |who|
  {
    if who != {} {
      var p :| p in who;
      WeightElsewhere(sample, q, w, who - {p});
      WeightWithout(sample, who, p);
      WeightWithout(sample[q := w], who, p);
    }
  }

  /** A sample of so many picks weighs that much. */
  lemma {:induction false} PickedWeighs(picks: seq<Id>)
    ensures Weight(Picked(picks), Picked(picks).Keys) == |picks|
    ensures forall q | q in Picked(picks) :: Picked(picks)[q] > 0
  {
    if picks != [] {
      var rest, q := Picked(picks[..|picks| - 1]), picks[|picks| - 1];
      var all := Picked(picks);
      PickedWeighs(picks[..|picks| - 1]);
      WeightElsewhere(rest, q, all[q], rest.Keys - {q});
      WeightWith(all, rest.Keys - {q}, q);
      assert all.Keys == rest.Keys - {q} + {q};
      if q in rest {
        WeightWithout(rest, rest.Keys, q);
      } else {
        assert rest.Keys - {q} == rest.Keys;
      }
    }
  }

  /** Each process weighs as often as it was picked. */
  lemma {:induction false} PickedCounts(picks: seq<Id>, q: Id)
    ensures Of(Picked(picks), q) == multiset(picks)[q]
  {
    if picks != [] {
      var rest, last := picks[..|picks| - 1], picks[|picks| - 1];
      PickedCounts(rest, q);
      assert picks == rest + [last];
    }
  }

  // ---------------------------------------------------------------- the handlers

  function ToEach(to: set<Id>, m: Message): (s: multiset<Packet>)
    ensures forall e :: s[e] == if e.to in to && e.m == m then 1 else 0
  {
    multiset(set q | q in to :: Packet(q, m))
  }

  function NewState(c: Config, d: Draw): State {
    State(map[], map[], map[], {}, d.gossip, Picked(d.echo), Picked(d.ready), Picked(d.delivery), {}, {},
          None, None, false, 0)
  }

  /** The subscriptions that go out when a state is created. */
  function Subscriptions(st: State, value: int): multiset<Packet> {
    ToEach(st.gossipSample, Message(GOSSIP_SUBSCRIBE, value))
    + ToEach(st.echoSample.Keys, Message(ECHO_SUBSCRIBE, value))
    + ToEach(st.readySample.Keys, Message(READY_SUBSCRIBE, value))
    + ToEach(st.deliverySample.Keys, Message(READY_SUBSCRIBE, value))
  }

  function BroadcastReady(st: State, value: int): (State, multiset<Packet>) {
    (st.(sentReady := st.sentReady + {value}), ToEach(st.readySubscribers, Message(READY, value)))
  }

  function BroadcastGossip(st: State, value: int): (State, multiset<Packet>) {
    (st.(gossip := Some(value)), ToEach(st.gossipSample, Message(GOSSIP, value)))
  }

  /** The weight of the sampled processes that echoed v. */
  ghost function EchoWeight(st: State, v: int): nat {
    Weight(st.echoSample, Voters(st.echoes, v))
  }

  ghost function MaybeSendReadyFromSieve(c: Config, st: State): (State, multiset<Packet>) {
    if !st.sentReadyFromSieve && st.echo.Some? && EchoWeight(st, st.echo.value) >= c.echoThreshold then
      var (st, out) := BroadcastReady(st, st.echo.value);
      (st.(sentReadyFromSieve := true), out)
    else (st, multiset{})
  }

  function OnGossipSubscribe(st: State, sender: Id): (State, multiset<Packet>) {
    (st.(gossipSample := st.gossipSample + {sender}),
     if st.gossip.Some? then multiset{Packet(sender, Message(GOSSIP, st.gossip.value))} else multiset{})
  }

  /** The two conditionals on a gossip message, in order. */
  function StartGossip(st: State, value: int): (State, multiset<Packet>) {
    if st.gossip.None? then BroadcastGossip(st, value) else (st, multiset{})
  }

  ghost function StartEcho(c: Config, st: State, value: int): (State, multiset<Packet>) {
    if st.echo.None? then
      var (sieved, out) := MaybeSendReadyFromSieve(c, st.(echo := Some(value)));
      (sieved, ToEach(st.echoSubscribers, Message(ECHO, value)) + out)
    else (st, multiset{})
  }

  ghost function OnGossip(c: Config, st: State, value: int): (State, multiset<Packet>) {
    var (st1, out1) := StartGossip(st, value);
    var (st2, out2) := StartEcho(c, st1, value);
    (st2, out1 + out2)
  }

  function OnEchoSubscribe(st: State, sender: Id): (State, multiset<Packet>) {
    if sender in st.echoSubscribers then (st, multiset{})
    else
      (st.(echoSubscribers := st.echoSubscribers + {sender}),
       if st.echo.Some? then multiset{Packet(sender, Message(ECHO, st.echo.value))} else multiset{})
  }

  ghost function OnEcho(c: Config, st: State, sender: Id, value: int): (State, multiset<Packet>) {
    if Of(st.echoSample, sender) == 0 || sender in st.echoes then (st, multiset{})
    else MaybeSendReadyFromSieve(c, st.(echoes := st.echoes[sender := value]))
  }

  /** One READY for every value announced so far. */
  function ReadiesFor(sender: Id, values: set<int>): (s: multiset<Packet>)
    ensures forall e :: s[e] == if e.to == sender && e.m.stage == READY && e.m.value in values then 1 else 0
  {
    multiset(set v | v in values :: Packet(sender, Message(READY, v)))
  }

  function OnReadySubscribe(st: State, sender: Id): (State, multiset<Packet>) {
    if sender in st.readySubscribers then (st, multiset{})
    else (st.(readySubscribers := st.readySubscribers + {sender}), ReadiesFor(sender, st.sentReady))
  }

  /** READYs are counted once per message and not once per sender. */
  function CountReady(c: Config, st: State, sender: Id, value: int): (State, multiset<Packet>) {
    var w := Of(st.readySample, sender);
    if w == 0 then (st, multiset{})
    else
      var st := st.(readyStat := st.readyStat[value := Of(st.readyStat, value) + w]);
      if value !in st.sentReady && st.readyStat[value] >= c.readyThreshold
      then BroadcastReady(st, value) else (st, multiset{})
  }

  function CountForDelivery(c: Config, st: State, sender: Id, value: int): (State, bool) {
    var w := Of(st.deliverySample, sender);
    if w == 0 then (st, false)
    else
      var st := st.(deliveryStat := st.deliveryStat[value := Of(st.deliveryStat, value) + w]);
      (st, st.deliveryStat[value] >= c.deliveryThreshold)
  }

  function OnReady(c: Config, st: State, sender: Id, value: int): (State, multiset<Packet>, bool) {
    var (st1, out) := CountReady(c, st, sender, value);
    var (st2, enough) := CountForDelivery(c, st1, sender, value);
    (st2, out, enough)
  }

  /** The new state, what is sent, and whether there is enough to deliver. */
  ghost function React(c: Config, st: State, sender: Id, m: Message): (State, multiset<Packet>, bool) {
    match m.stage
    case GOSSIP_SUBSCRIBE => var (st, out) := OnGossipSubscribe(st, sender); (st, out, false)
    case GOSSIP => var (st, out) := OnGossip(c, st, m.value); (st, out, false)
    case ECHO_SUBSCRIBE => var (st, out) := OnEchoSubscribe(st, sender); (st, out, false)
    case ECHO => var (st, out) := OnEcho(c, st, sender, m.value); (st, out, false)
    case READY_SUBSCRIBE => var (st, out) := OnReadySubscribe(st, sender); (st, out, false)
    case READY => OnReady(c, st, sender, m.value)
  }

  function Register(c: Config, l: Local, value: int, d: Draw): (State, multiset<Packet>) {
    match l.state
    case Some(st) => (st, multiset{})
    case None => var st := NewState(c, d); (st, Subscriptions(st, value))
  }

  /** Messages are no longer counted after delivery. */
  function Counted(st: State, delivered: bool): State {
    if delivered then st else st.(received := st.received + 1)
  }

  ghost function Handle(c: Config, l: Local, sender: Id, m: Message, d: Draw): (Local, multiset<Packet>) {
    if l.state.None? && l.delivered.Some? then (l, multiset{})
    else
      var (st0, subscriptions) := Register(c, l, m.value, d);
      var (st2, out, enough) := React(c, Counted(st0, l.delivered.Some?), sender, m);
      (Local(Some(st2), if enough && l.delivered.None? then Some(m.value) else l.delivered), subscriptions + out)
  }

  /** The author's own broadcast, in a state created whether or not there was one. */
  function Publish(c: Config, l: Local, value: int, d: Draw): (Local, multiset<Packet>) {
    var st := NewState(c, d);
    var (st1, out) := BroadcastGossip(st, value);
    (l.(state := Some(st1)), Subscriptions(st, value) + out)
  }

  // ---------------------------------------------------------------- runs

  datatype Event = Receive(sender: Id, m: Message, d: Draw) | Start(value: int, d: Draw) | Expire

  datatype World = World(l: Local, sent: multiset<Packet>)

  /** An author has handled nothing of an instance it starts; a state expires only after delivery. */
  predicate Enabled(c: Config, w: World, e: Event) {
    match e
    case Receive(_, _, d) => d.Fits(c)
    case Start(_, d) => d.Fits(c) && w.l == UNTOUCHED
    case Expire => w.l.delivered.Some?
  }

  ghost function Next(c: Config, w: World, e: Event): World {
    if !Enabled(c, w, e) then w
    else
      match e
      case Receive(sender, m, d) =>
        var (l, out) := Handle(c, w.l, sender, m, d);
        World(l, w.sent + out)
      case Start(value, d) =>
        var (l, out) := Publish(c, w.l, value, d);
        World(l, w.sent + out)
      case Expire => w.(l := w.l.(state := None))
  }

  ghost function Run(c: Config, events: seq<Event>): World {
    if events == [] then World(UNTOUCHED, multiset{})
    else Next(c, Run(c, events[..|events| - 1]), events[|events| - 1])
  }

  // ---------------------------------------------------------------- what every run keeps

  /** Every subscriber has the echo exactly once and nobody else has it, whatever came first. */
  ghost predicate EchoesSent(st: State, sent: multiset<Packet>) {
    forall q, v :: sent[Packet(q, Message(ECHO, v))] == if q in st.echoSubscribers && st.echo == Some(v) then 1 else 0
  }

  /** Every peer has the gossip, and nobody has been sent any other. */
  ghost predicate GossipSent(st: State, sent: multiset<Packet>) {
    forall q, v :: GossipRight(st, sent, q, v)
  }

  ghost predicate GossipRight(st: State, sent: multiset<Packet>, q: Id, v: int) {
    Packet(q, Message(GOSSIP, v)) in sent <==> q in st.gossipSample && st.gossip == Some(v)
  }

  /** Every subscriber has a READY for every value announced, and nobody has been sent any other. */
  ghost predicate ReadiesSent(st: State, sent: multiset<Packet>) {
    forall q, v :: ReadyRight(st, sent, q, v)
  }

  ghost predicate ReadyRight(st: State, sent: multiset<Packet>, q: Id, v: int) {
    Packet(q, Message(READY, v)) in sent <==> q in st.readySubscribers && v in st.sentReady
  }

  ghost predicate CaughtUp(st: State, sent: multiset<Packet>) {
    EchoesSent(st, sent) && GossipSent(st, sent) && ReadiesSent(st, sent)
  }

  /** Only sampled processes are counted, and the sample weighs what it should. */
  ghost predicate Sampled(c: Config, st: State) {
    && st.echoes.Keys <= st.echoSample.Keys
    && Weight(st.echoSample, st.echoSample.Keys) == c.echoSampleSize
  }

  /** The sieve has fired only for the process's own echo, and only with the echo weight it asks for. */
  ghost predicate SieveSound(c: Config, st: State) {
    st.sentReadyFromSieve ==>
      st.echo.Some? && st.echo.value in st.sentReady && EchoWeight(st, st.echo.value) >= c.echoThreshold
  }

  ghost predicate StateInv(c: Config, st: State, sent: multiset<Packet>) {
    CaughtUp(st, sent) && Sampled(c, st) && SieveSound(c, st)
  }

  ghost predicate Inv(c: Config, w: World) {
    match w.l.state
    case Some(st) => StateInv(c, st, w.sent)
    case None => w.l.delivered.None? ==> w.sent == multiset{}
  }

  lemma ReadyStep(st: State, sent: multiset<Packet>, value: int)
    requires CaughtUp(st, sent)
    ensures var (st', out) := BroadcastReady(st, value); CaughtUp(st', sent + out)
  {
    var (st', out) := BroadcastReady(st, value);
    OtherStage(st, st', sent, out, READY);
    forall q, v
      ensures ReadyRight(st', sent + out, q, v)
    {
      assert ReadyRight(st, sent, q, v);
      assert (sent + out)[Packet(q, Message(READY, v))]
          == sent[Packet(q, Message(READY, v))] + out[Packet(q, Message(READY, v))];
    }
  }

  /** Messages of another stage, and a state with the same echo, gossip or announcements and the same peers. */
  lemma OtherStage(st: State, st': State, sent: multiset<Packet>, out: multiset<Packet>, stage: Stage)
    requires forall e | e in out :: e.m.stage == stage
    requires CaughtUp(st, sent)
    ensures stage != ECHO && (st'.echoSubscribers, st'.echo) == (st.echoSubscribers, st.echo) ==>
              EchoesSent(st', sent + out)
    ensures stage != GOSSIP && (st'.gossipSample, st'.gossip) == (st.gossipSample, st.gossip) ==>
              GossipSent(st', sent + out)
    ensures stage != READY && (st'.readySubscribers, st'.sentReady) == (st.readySubscribers, st.sentReady) ==>
              ReadiesSent(st', sent + out)
  {
    if stage != ECHO {
      assert forall q, v :: out[Packet(q, Message(ECHO, v))] == 0;
    }
    if stage != GOSSIP && (st'.gossipSample, st'.gossip) == (st.gossipSample, st.gossip) {
      forall q, v
        ensures GossipRight(st', sent + out, q, v)
      {
        assert GossipRight(st, sent, q, v) && Packet(q, Message(GOSSIP, v)) !in out;
      }
    }
    if stage != READY && (st'.readySubscribers, st'.sentReady) == (st.readySubscribers, st.sentReady) {
      forall q, v
        ensures ReadyRight(st', sent + out, q, v)
      {
        assert ReadyRight(st, sent, q, v) && Packet(q, Message(READY, v)) !in out;
      }
    }
  }

  /** A state that differs in nothing that has to do with what is sent. */
  lemma SameCaughtUp(st: State, st': State, sent: multiset<Packet>)
    requires CaughtUp(st, sent)
    requires (st'.echoSubscribers, st'.echo) == (st.echoSubscribers, st.echo)
    requires (st'.gossipSample, st'.gossip) == (st.gossipSample, st.gossip)
    requires (st'.readySubscribers, st'.sentReady) == (st.readySubscribers, st.sentReady)
    ensures CaughtUp(st', sent)
  {
    forall q, v
      ensures GossipRight(st', sent, q, v) && ReadyRight(st', sent, q, v)
    {
      assert GossipRight(st, sent, q, v) && ReadyRight(st, sent, q, v);
    }
  }

  lemma SieveStep(c: Config, st: State, sent: multiset<Packet>)
    requires StateInv(c, st, sent)
    ensures var (st', out) := MaybeSendReadyFromSieve(c, st); StateInv(c, st', sent + out)
  {
    assert sent + multiset{} == sent;
    if st.echo.Some? {
      var (st1, out) := BroadcastReady(st, st.echo.value);
      ReadyStep(st, sent, st.echo.value);
      SameCaughtUp(st1, st1.(sentReadyFromSieve := true), sent + out);
    }
  }

  lemma StartGossipStep(c: Config, st: State, sent: multiset<Packet>, value: int)
    requires StateInv(c, st, sent)
    ensures var (st', out) := StartGossip(st, value); StateInv(c, st', sent + out)
  {
    assert sent + multiset{} == sent;
    if st.gossip.None? {
      var (st', out) := BroadcastGossip(st, value);
      OtherStage(st, st', sent, out, GOSSIP);
      forall q, v
        ensures GossipRight(st', sent + out, q, v)
      {
        assert GossipRight(st, sent, q, v);
        assert (sent + out)[Packet(q, Message(GOSSIP, v))]
            == sent[Packet(q, Message(GOSSIP, v))] + out[Packet(q, Message(GOSSIP, v))];
      }
    }
  }

  lemma StartEchoStep(c: Config, st: State, sent: multiset<Packet>, value: int)
    requires StateInv(c, st, sent)
    ensures var (st', out) := StartEcho(c, st, value); StateInv(c, st', sent + out)
  {
    if st.echo.None? {
      var st1, out1 := st.(echo := Some(value)), ToEach(st.echoSubscribers, Message(ECHO, value));
      OtherStage(st, st1, sent, out1, ECHO);
      assert EchoesSent(st1, sent + out1);
      SieveStep(c, st1, sent + out1);
      Regroup(sent, out1, MaybeSendReadyFromSieve(c, st1).1);
    } else {
      assert sent + multiset{} == sent;
    }
  }

  lemma Regroup(a: multiset<Packet>, b: multiset<Packet>, c: multiset<Packet>)
    ensures a + (b + c) == a + b + c
  {
  }

  lemma GossipStep(c: Config, st: State, sent: multiset<Packet>, value: int)
    requires StateInv(c, st, sent)
    ensures var (st', out) := OnGossip(c, st, value); StateInv(c, st', sent + out)
  {
    var (st1, out1) := StartGossip(st, value);
    var (st2, out2) := StartEcho(c, st1, value);
    StartGossipStep(c, st, sent, value);
    StartEchoStep(c, st1, sent + out1, value);
    Regroup(sent, out1, out2);
  }

  lemma GossipSubscribeStep(c: Config, st: State, sent: multiset<Packet>, sender: Id)
    requires StateInv(c, st, sent)
    ensures var (st', out) := OnGossipSubscribe(st, sender); StateInv(c, st', sent + out)
  {
    var (st', out) := OnGossipSubscribe(st, sender);
    OtherStage(st, st', sent, out, GOSSIP);
    PeerHasGossip(st, sent, sender);
    assert st' == st.(gossipSample := st'.gossipSample);
  }

  lemma PeerHasGossip(st: State, sent: multiset<Packet>, sender: Id)
    requires GossipSent(st, sent)
    ensures var (st', out) := OnGossipSubscribe(st, sender); GossipSent(st', sent + out)
  {
    var (st', out) := OnGossipSubscribe(st, sender);
    forall q, v
      ensures GossipRight(st', sent + out, q, v)
    {
      var e := Packet(q, Message(GOSSIP, v));
      assert GossipRight(st, sent, q, v);
      assert out[e] == if q == sender && st.gossip == Some(v) then 1 else 0;
    }
  }

  lemma EchoSubscribeStep(c: Config, st: State, sent: multiset<Packet>, sender: Id)
    requires StateInv(c, st, sent)
    ensures var (st', out) := OnEchoSubscribe(st, sender); StateInv(c, st', sent + out)
  {
    var (st', out) := OnEchoSubscribe(st, sender);
    SubscriberHasEcho(st, sent, sender);
    OtherStage(st, st', sent, out, ECHO);
  }

  lemma SubscriberHasEcho(st: State, sent: multiset<Packet>, sender: Id)
    requires EchoesSent(st, sent)
    ensures var (st', out) := OnEchoSubscribe(st, sender); EchoesSent(st', sent + out)
  {
    var (st', out) := OnEchoSubscribe(st, sender);
    forall q, v
      ensures (sent + out)[Packet(q, Message(ECHO, v))]
              == if q in st'.echoSubscribers && st'.echo == Some(v) then 1 else 0
    {
      assert sent[Packet(q, Message(ECHO, v))] == if q in st.echoSubscribers && st.echo == Some(v) then 1 else 0;
      assert out[Packet(q, Message(ECHO, v))]
          == if sender !in st.echoSubscribers && q == sender && st.echo == Some(v) then 1 else 0;
    }
  }

  lemma ReadySubscribeStep(c: Config, st: State, sent: multiset<Packet>, sender: Id)
    requires StateInv(c, st, sent)
    ensures var (st', out) := OnReadySubscribe(st, sender); StateInv(c, st', sent + out)
  {
    var (st', out) := OnReadySubscribe(st, sender);
    OtherStage(st, st', sent, out, READY);
    SubscriberHasReadies(st, sent, sender);
    assert st' == st.(readySubscribers := st'.readySubscribers);
  }

  lemma SubscriberHasReadies(st: State, sent: multiset<Packet>, sender: Id)
    requires ReadiesSent(st, sent)
    ensures var (st', out) := OnReadySubscribe(st, sender); ReadiesSent(st', sent + out)
  {
    var (st', out) := OnReadySubscribe(st, sender);
    forall q, v
      ensures ReadyRight(st', sent + out, q, v)
    {
      var e := Packet(q, Message(READY, v));
      assert ReadyRight(st, sent, q, v);
      assert out[e] == if sender !in st.readySubscribers && q == sender && v in st.sentReady then 1 else 0;
    }
  }

  lemma EchoStep(c: Config, st: State, sent: multiset<Packet>, sender: Id, value: int)
    requires StateInv(c, st, sent)
    ensures var (st', out) := OnEcho(c, st, sender, value); StateInv(c, st', sent + out)
  {
    if Of(st.echoSample, sender) != 0 && sender !in st.echoes {
      var st1 := st.(echoes := st.echoes[sender := value]);
      forall v: int
        ensures EchoWeight(st, v) <= EchoWeight(st1, v)
      {
        VotersAfter(st.echoes, sender, value, v);
        WeightOfPart(st.echoSample, Voters(st.echoes, v), Voters(st1.echoes, v));
      }
      SameCaughtUp(st, st1, sent);
      SieveStep(c, st1, sent);
    } else {
      assert sent + multiset{} == sent;
    }
  }

  lemma CountReadyStep(c: Config, st: State, sent: multiset<Packet>, sender: Id, value: int)
    requires StateInv(c, st, sent)
    ensures var (st', out) := CountReady(c, st, sender, value); StateInv(c, st', sent + out)
  {
    var counted := st.(readyStat := st.readyStat[value := Of(st.readyStat, value) + Of(st.readySample, sender)]);
    CountedReady(c, st, counted, sent);
    ReadyStep(counted, sent, value);
    assert sent + multiset{} == sent;
  }

  lemma CountedReady(c: Config, st: State, counted: State, sent: multiset<Packet>)
    requires StateInv(c, st, sent) && counted == st.(readyStat := counted.readyStat)
    ensures StateInv(c, counted, sent)
  {
    SameCaughtUp(st, counted, sent);
  }

  lemma OnReadyStep(c: Config, st: State, sent: multiset<Packet>, sender: Id, value: int)
    requires StateInv(c, st, sent)
    ensures var (st', out, _) := OnReady(c, st, sender, value); StateInv(c, st', sent + out)
  {
    var (st1, out) := CountReady(c, st, sender, value);
    CountReadyStep(c, st, sent, sender, value);
    SameCaughtUp(st1, CountForDelivery(c, st1, sender, value).0, sent + out);
  }

  lemma ReactStep(c: Config, st: State, sent: multiset<Packet>, sender: Id, m: Message)
    requires StateInv(c, st, sent)
    ensures var (st', out, _) := React(c, st, sender, m); StateInv(c, st', sent + out)
  {
    match m.stage
    case GOSSIP_SUBSCRIBE => GossipSubscribeStep(c, st, sent, sender);
    case GOSSIP => GossipStep(c, st, sent, m.value);
    case ECHO_SUBSCRIBE => EchoSubscribeStep(c, st, sent, sender);
    case ECHO => EchoStep(c, st, sent, sender, m.value);
    case READY_SUBSCRIBE => ReadySubscribeStep(c, st, sent, sender);
    case READY => OnReadyStep(c, st, sent, sender, m.value);
  }

  lemma NewStateInv(c: Config, d: Draw, value: int)
    requires d.Fits(c)
    ensures StateInv(c, NewState(c, d), Subscriptions(NewState(c, d), value))
  {
    PickedWeighs(d.echo);
  }

  lemma CountingStep(c: Config, st: State, sent: multiset<Packet>, delivered: bool)
    requires StateInv(c, st, sent)
    ensures StateInv(c, Counted(st, delivered), sent)
  {
    SameCaughtUp(st, Counted(st, delivered), sent);
  }

  lemma HandleStep(c: Config, w: World, sender: Id, m: Message, d: Draw)
    requires Inv(c, w) && d.Fits(c)
    ensures var (l, out) := Handle(c, w.l, sender, m, d); Inv(c, World(l, w.sent + out))
  {
    if w.l.state.None? && w.l.delivered.Some? {
      assert w.sent + multiset{} == w.sent;
    } else {
      var (st0, subscriptions) := Register(c, w.l, m.value, d);
      var st1 := Counted(st0, w.l.delivered.Some?);
      var (_, out, _) := React(c, st1, sender, m);
      NewStateInv(c, d, m.value);
      assert w.sent + multiset{} == w.sent;
      assert multiset{} + subscriptions == subscriptions;
      CountingStep(c, st0, w.sent + subscriptions, w.l.delivered.Some?);
      ReactStep(c, st1, w.sent + subscriptions, sender, m);
      Regroup(w.sent, subscriptions, out);
    }
  }

  lemma PublishStep(c: Config, value: int, d: Draw)
    requires d.Fits(c)
    ensures var (l, out) := Publish(c, UNTOUCHED, value, d); Inv(c, World(l, multiset{} + out))
  {
    var st := NewState(c, d);
    NewStateInv(c, d, value);
    StartGossipStep(c, st, Subscriptions(st, value), value);
    var (_, out) := Publish(c, UNTOUCHED, value, d);
    assert multiset{} + out == out;
  }

  lemma {:induction false} RunKeepsInv(c: Config, events: seq<Event>)
    ensures Inv(c, Run(c, events))
  {
    if events != [] {
      var k := |events| - 1;
      var w := Run(c, events[..k]);
      RunKeepsInv(c, events[..k]);
      if Enabled(c, w, events[k]) {
        match events[k]
        case Receive(sender, m, d) => HandleStep(c, w, sender, m, d);
        case Start(value, d) => PublishStep(c, value, d);
        case Expire =>
      }
    }
  }

  /**
   * Catch-up: at every moment of a fresh instance, subscribers have been sent what there was to send, in whatever
   * order subscribing and publishing happened.
   */
  lemma CatchUp(c: Config, events: seq<Event>)
    ensures var w := Run(c, events); w.l.state.Some? ==> CaughtUp(w.l.state.value, w.sent)
  {
    RunKeepsInv(c, events);
  }

  // ---------------------------------------------------------------- echo weight

  ghost function AnyOf<T>(s: set<T>): (x: T)
    requires s != {}
    ensures x in s
  {
    var x :| x in s;
    x
  }

  /** The weights counted for each value of a set, added up. */
  ghost function WeightsOver(sample: Sample, votes: map<Id, int>, values: set<int>): nat
    decreases |values|
  {
    if values == {} then 0
    else
      var v := AnyOf(values);
      Weight(sample, Voters(votes, v)) + WeightsOver(sample, votes, values - {v})
  }

  function VotersForAny(votes: map<Id, int>, values: set<int>): set<Id> {
    set q | q in votes && votes[q] in values
  }

  lemma {:induction false} WeightsAddUp(sample: Sample, votes: map<Id, int>, values: set<int>)
    ensures WeightsOver(sample, votes, values) == Weight(sample, VotersForAny(votes, values))
    decreases |values|
  {
    if values == {} {
      assert VotersForAny(votes, values) == {};
    } else {
      var v := AnyOf(values);
      WeightsAddUp(sample, votes, values - {v});
      WeightOfUnion(sample, Voters(votes, v), VotersForAny(votes, values - {v}));
      assert VotersForAny(votes, values) == Voters(votes, v) + VotersForAny(votes, values - {v});
    }
  }

  /** In every run, the echo counters add up to the weight of the senders heard, which the sample bounds. */
  lemma EchoWeightBounded(c: Config, events: seq<Event>)
    requires Run(c, events).l.state.Some?
    ensures var st := Run(c, events).l.state.value;
            WeightsOver(st.echoSample, st.echoes, st.echoes.Values) == Weight(st.echoSample, st.echoes.Keys)
            <= c.echoSampleSize
  {
    RunKeepsInv(c, events);
    var st := Run(c, events).l.state.value;
    WeightsAddUp(st.echoSample, st.echoes, st.echoes.Values);
    assert VotersForAny(st.echoes, st.echoes.Values) == st.echoes.Keys;
    WeightOfPart(st.echoSample, st.echoes.Keys, st.echoSample.Keys);
  }

  // ---------------------------------------------------------------- what stays

  /** Samples, votes, announcements and the sieve's verdict are not taken back while there is a state. */
  ghost predicate Kept(st: State, st': State) {
    && st'.echoSample == st.echoSample
    && (forall q | q in st.echoes :: q in st'.echoes && st'.echoes[q] == st.echoes[q])
    && st.sentReady <= st'.sentReady
    && (st.gossip.Some? ==> st'.gossip == st.gossip)
    && (st.echo.Some? ==> st'.echo == st.echo)
    && (st.sentReadyFromSieve ==> st'.sentReadyFromSieve)
  }

  /** A state goes only after delivery, and then for good. */
  ghost predicate Onward(l: Local, l': Local) {
    && (l.state.Some? && l'.state.Some? ==> Kept(l.state.value, l'.state.value))
    && (l.state.Some? && l'.state.None? ==> l'.delivered.Some?)
    && (l.delivered.Some? ==> l'.delivered == l.delivered && (l.state.None? ==> l'.state.None?))
  }

  lemma SieveKeeps(c: Config, st: State)
    ensures Kept(st, MaybeSendReadyFromSieve(c, st).0)
  {
  }

  lemma KeptIsTransitive(a: State, x: State, y: State)
    requires Kept(a, x) && Kept(x, y)
    ensures Kept(a, y)
  {
  }

  lemma StartEchoKeeps(c: Config, st: State, value: int)
    ensures Kept(st, StartEcho(c, st, value).0)
  {
    if st.echo.None? {
      var st1 := st.(echo := Some(value));
      SieveKeeps(c, st1);
      KeptIsTransitive(st, st1, MaybeSendReadyFromSieve(c, st1).0);
    }
  }

  lemma GossipKeeps(c: Config, st: State, value: int)
    ensures Kept(st, OnGossip(c, st, value).0)
  {
    var st1 := StartGossip(st, value).0;
    StartEchoKeeps(c, st1, value);
    KeptIsTransitive(st, st1, StartEcho(c, st1, value).0);
  }

  lemma EchoKeeps(c: Config, st: State, sender: Id, value: int)
    ensures Kept(st, OnEcho(c, st, sender, value).0)
  {
    if Of(st.echoSample, sender) != 0 && sender !in st.echoes {
      var st1 := st.(echoes := st.echoes[sender := value]);
      SieveKeeps(c, st1);
      KeptIsTransitive(st, st1, MaybeSendReadyFromSieve(c, st1).0);
    }
  }

  lemma ReadyKeeps(c: Config, st: State, sender: Id, value: int)
    ensures Kept(st, OnReady(c, st, sender, value).0)
  {
    var st1 := CountReady(c, st, sender, value).0;
    assert Kept(st, st1);
    KeptIsTransitive(st, st1, CountForDelivery(c, st1, sender, value).0);
  }

  lemma GossipSubscribeKeeps(st: State, sender: Id)
    ensures Kept(st, OnGossipSubscribe(st, sender).0)
  {
  }

  lemma EchoSubscribeKeeps(st: State, sender: Id)
    ensures Kept(st, OnEchoSubscribe(st, sender).0)
  {
  }

  lemma ReadySubscribeKeeps(st: State, sender: Id)
    ensures Kept(st, OnReadySubscribe(st, sender).0)
  {
  }

  lemma ReactKeeps(c: Config, st: State, sender: Id, m: Message)
    ensures Kept(st, React(c, st, sender, m).0)
  {
    match m.stage
    case GOSSIP_SUBSCRIBE => GossipSubscribeKeeps(st, sender);
    case GOSSIP => GossipKeeps(c, st, m.value);
    case ECHO_SUBSCRIBE => EchoSubscribeKeeps(st, sender);
    case ECHO => EchoKeeps(c, st, sender, m.value);
    case READY_SUBSCRIBE => ReadySubscribeKeeps(st, sender);
    case READY => ReadyKeeps(c, st, sender, m.value);
  }

  lemma NextOnward(c: Config, w: World, e: Event)
    ensures Onward(w.l, Next(c, w, e).l)
  {
    if e.Receive? && !(w.l.state.None? && w.l.delivered.Some?) {
      var st := Register(c, w.l, e.m.value, e.d).0;
      ReactKeeps(c, Counted(st, w.l.delivered.Some?), e.sender, e.m);
    }
  }

  lemma {:induction false} RunOnward(c: Config, events: seq<Event>, k: nat)
    requires k <= |events|
    ensures Onward(Run(c, events[..k]).l, Run(c, events).l)
  {
    if k == |events| {
      assert events[..k] == events;
    } else {
      var j := |events| - 1;
      assert events[..j][..k] == events[..k];
      RunOnward(c, events[..j], k);
      NextOnward(c, Run(c, events[..j]), events[j]);
    }
  }

  lemma EchoWeightGrows(st: State, st': State, v: int)
    requires Kept(st, st')
    ensures EchoWeight(st, v) <= EchoWeight(st', v)
  {
    WeightOfPart(st.echoSample, Voters(st.echoes, v), Voters(st'.echoes, v));
  }

  /** With a threshold above half the sample, at most one value reaches it, at whatever moments of a run one looks. */
  lemma OneValueReaches(c: Config, events: seq<Event>, k: nat, v: int, u: int)
    requires k <= |events| && 2 * c.echoThreshold > c.echoSampleSize
    requires var before, after := Run(c, events[..k]).l.state, Run(c, events).l.state;
             && before.Some? && EchoWeight(before.value, v) >= c.echoThreshold
             && after.Some? && EchoWeight(after.value, u) >= c.echoThreshold
    ensures v == u
  {
    RunKeepsInv(c, events);
    RunOnward(c, events, k);
    var st := Run(c, events).l.state.value;
    EchoWeightGrows(Run(c, events[..k]).l.state.value, st, v);
    if v != u {
      var a, b := Voters(st.echoes, v), Voters(st.echoes, u);
      WeightOfUnion(st.echoSample, a, b);
      WeightOfPart(st.echoSample, a + b, st.echoSample.Keys);
    }
  }

  /** The process has announced its echo because enough of the sample echoed it too. */
  predicate SieveFired(l: Local) {
    l.state.Some? && l.state.value.sentReadyFromSieve
  }

  /**
   * Once the sieve has fired it has fired for good: until the state goes, the process's echo stays what it was and
   * stays announced, and no other value ever reaches the threshold.
   */
  lemma SieveLetsOneThrough(c: Config, events: seq<Event>, k: nat)
    requires k <= |events| && SieveFired(Run(c, events[..k]).l)
    ensures var before, after := Run(c, events[..k]).l, Run(c, events).l;
            && before.state.value.echo.Some?
            && (after.state.None? ==> after.delivered.Some?)
            && (after.state.Some? ==>
                  var st := after.state.value;
                  && st.sentReadyFromSieve && st.echo == before.state.value.echo && st.echo.value in st.sentReady
                  && (2 * c.echoThreshold > c.echoSampleSize ==>
                        forall v | EchoWeight(st, v) >= c.echoThreshold :: st.echo == Some(v)))
  {
    RunKeepsInv(c, events[..k]);
    RunKeepsInv(c, events);
    RunOnward(c, events, k);
    var after := Run(c, events).l.state;
    if after.Some? && 2 * c.echoThreshold > c.echoSampleSize {
      forall v | EchoWeight(after.value, v) >= c.echoThreshold
        ensures after.value.echo == Some(v)
      {
        OneValueReaches(c, events, k, after.value.echo.value, v);
      }
    }
  }

  ghost predicate SieveFiresAt(c: Config, events: seq<Event>, i: nat)
    requires i < |events|
  {
    !SieveFired(Run(c, events[..i]).l) && SieveFired(Run(c, events[..i + 1]).l)
  }

  /** The sieve fires at most once in a run, expiry or not. */
  lemma SieveFiresOnce(c: Config, events: seq<Event>, i: nat, j: nat)
    requires i < |events| && j < |events| && SieveFiresAt(c, events, i) && SieveFiresAt(c, events, j)
    ensures i == j
  {
    if i < j {
      FiredBefore(c, events, i, j);
    } else if j < i {
      FiredBefore(c, events, j, i);
    }
  }

  lemma FiredBefore(c: Config, events: seq<Event>, i: nat, j: nat)
    requires i < j < |events| && SieveFired(Run(c, events[..i + 1]).l)
    ensures !SieveFiresAt(c, events, j)
  {
    assert events[..j][..i + 1] == events[..i + 1];
    RunOnward(c, events[..j], i + 1);
    assert events[..j + 1][..j] == events[..j];
    RunOnward(c, events[..j + 1], j);
    FiredForGood(Run(c, events[..i + 1]).l, Run(c, events[..j]).l, Run(c, events[..j + 1]).l);
  }

  lemma FiredForGood(l: Local, l': Local, l'': Local)
    requires Onward(l, l') && Onward(l', l'') && SieveFired(l)
    ensures SieveFired(l') || !SieveFired(l'')
  {
  }
}
