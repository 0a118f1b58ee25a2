/**
 * The state of a sampled broadcast as a function of the messages received: what is gossiped, echoed, announced and
 * delivered follows from the first gossip, the sampled processes' first echoes and the weights of the READYs.
 */
module ScalableCounts {
  import opened Options
  import opened Quorums
  import opened Scalable

  // ---------------------------------------------------------------- what has been received

  datatype Receipt = Receipt(sender: Id, m: Message)

  function ReceiptIn(c: Config, e: Event): seq<Receipt> {
    if e.Receive? && e.d.Fits(c) then [Receipt(e.sender, e.m)] else []
  }

  function ReceivedOf(c: Config, events: seq<Event>): seq<Receipt> {
    if events == [] then [] else ReceivedOf(c, events[..|events| - 1]) + ReceiptIn(c, events[|events| - 1])
  }

  /** An event that can start an instance. */
  predicate Opens(c: Config, e: Event) {
    !e.Expire? && e.d.Fits(c)
  }

  /** The first event that started the instance; its draw gives the samples. */
  function OpeningOf(c: Config, events: seq<Event>): (e: Option<Event>)
    ensures e.Some? ==> Opens(c, e.value)
  {
    if events == [] then None
    else
      var before, last := OpeningOf(c, events[..|events| - 1]), events[|events| - 1];
      if before.None? && Opens(c, last) then Some(last) else before
  }

  function SendersOf(received: seq<Receipt>, stage: Stage): set<Id> {
    if received == [] then {}
    else
      var x := received[|received| - 1];
      SendersOf(received[..|received| - 1], stage) + if x.m.stage == stage then {x.sender} else {}
  }

  function FirstGossip(received: seq<Receipt>): Option<int> {
    if received == [] then None
    else
      var before, m := FirstGossip(received[..|received| - 1]), received[|received| - 1].m;
      if before.None? && m.stage == GOSSIP then Some(m.value) else before
  }

  /** The first echo of every sampled process. */
  function SampledEchoes(sample: Sample, received: seq<Receipt>): map<Id, int> {
    if received == [] then map[]
    else
      var before, x := SampledEchoes(sample, received[..|received| - 1]), received[|received| - 1];
      if x.m.stage == ECHO && Of(sample, x.sender) > 0 then Cast(before, x.sender, x.m.value) else before
  }

  /** The READYs for v by the weights of their senders, each message counted. */
  function ReadyWeight(sample: Sample, received: seq<Receipt>, v: int): nat {
    if received == [] then 0
    else
      var x := received[|received| - 1];
      ReadyWeight(sample, received[..|received| - 1], v)
      + if x.m == Message(READY, v) then Of(sample, x.sender) else 0
  }

  /** Enough, and something: a threshold is looked at only when a sampled process's READY is counted. */
  predicate Enough(weight: nat, threshold: int) {
    weight >= 1 && weight >= threshold
  }

  // ---------------------------------------------------------------- one message

  /** The sieve has fired exactly if the process's own echo has the weight it asks for. */
  ghost predicate SieveExact(c: Config, st: State) {
    st.sentReadyFromSieve <==> st.echo.Some? && EchoWeight(st, st.echo.value) >= c.echoThreshold
  }

  /** Announced is what has enough READYs, and what the sieve let through. */
  ghost predicate AnnouncedExact(c: Config, st: State) {
    forall v: int ::
      v in st.sentReady
      <==> Enough(Of(st.readyStat, v), c.readyThreshold) || (st.sentReadyFromSieve && st.echo == Some(v))
  }

  ghost predicate Exact(c: Config, st: State) {
    SieveExact(c, st) && AnnouncedExact(c, st)
  }

  ghost predicate SameSamples(st: State, st': State) {
    && st'.echoSample == st.echoSample && st'.readySample == st.readySample && st'.deliverySample == st.deliverySample
  }

  function IfStage(x: Receipt, stage: Stage): set<Id> {
    if x.m.stage == stage then {x.sender} else {}
  }

  /** What each field of a state becomes with one message more. */
  ghost predicate Follows(st: State, x: Receipt, st': State) {
    && SameSamples(st, st') && st'.received == st.received
    && st'.gossipSample == st.gossipSample + IfStage(x, GOSSIP_SUBSCRIBE)
    && st'.echoSubscribers == st.echoSubscribers + IfStage(x, ECHO_SUBSCRIBE)
    && st'.readySubscribers == st.readySubscribers + IfStage(x, READY_SUBSCRIBE)
    && st'.gossip == (if st.gossip.None? && x.m.stage == GOSSIP then Some(x.m.value) else st.gossip)
    && st'.echo == (if st.echo.None? && x.m.stage == GOSSIP then Some(x.m.value) else st.echo)
    && st'.echoes
       == (if x.m.stage == ECHO && Of(st.echoSample, x.sender) > 0 then Cast(st.echoes, x.sender, x.m.value)
           else st.echoes)
    && forall v: int ::
      && Of(st'.readyStat, v)
         == Of(st.readyStat, v) + (if x.m == Message(READY, v) then Of(st.readySample, x.sender) else 0)
      && Of(st'.deliveryStat, v)
         == Of(st.deliveryStat, v) + (if x.m == Message(READY, v) then Of(st.deliverySample, x.sender) else 0)
  }

  lemma EchoWeightWith(st: State, sender: Id, value: int)
    requires sender !in st.echoes
    ensures forall v: int :: EchoWeight(st, v) <= EchoWeight(st.(echoes := st.echoes[sender := value]), v)
  {
    var st1 := st.(echoes := st.echoes[sender := value]);
    forall v: int
      ensures EchoWeight(st, v) <= EchoWeight(st1, v)
    {
      VotersAfter(st.echoes, sender, value, v);
      WeightOfPart(st.echoSample, Voters(st.echoes, v), Voters(st1.echoes, v));
    }
  }

  /** A state in which only the sieve may be behind. */
  lemma SieveCatchesUp(c: Config, st: State)
    requires AnnouncedExact(c, st)
    requires st.sentReadyFromSieve ==> st.echo.Some? && EchoWeight(st, st.echo.value) >= c.echoThreshold
    ensures var st' := MaybeSendReadyFromSieve(c, st).0;
            && Exact(c, st') && st' == st.(sentReady := st'.sentReady, sentReadyFromSieve := st'.sentReadyFromSieve)
  {
    var st' := MaybeSendReadyFromSieve(c, st).0;
    assert EchoWeight(st', 0) == EchoWeight(st, 0);
    assert st.echo.Some? ==> EchoWeight(st', st.echo.value) == EchoWeight(st, st.echo.value);
  }

  lemma GossipFollows(c: Config, st: State, x: Receipt)
    requires Exact(c, st) && x.m.stage == GOSSIP
    ensures var st' := OnGossip(c, st, x.m.value).0; Follows(st, x, st') && Exact(c, st')
  {
    var gossip := if st.gossip.None? then Some(x.m.value) else st.gossip;
    var st1 := st.(gossip := gossip);
    GossipState(c, st, x.m.value);
    SameExact(c, st, st1);
    if st.echo.None? {
      SieveCatchesUp(c, st1.(echo := Some(x.m.value)));
    }
  }

  lemma GossipState(c: Config, st: State, value: int)
    ensures var st1 := st.(gossip := if st.gossip.None? then Some(value) else st.gossip);
            OnGossip(c, st, value).0
            == if st.echo.None? then MaybeSendReadyFromSieve(c, st1.(echo := Some(value))).0 else st1
  {
    var st1 := StartGossip(st, value).0;
    assert st1 == st.(gossip := if st.gossip.None? then Some(value) else st.gossip);
    assert OnGossip(c, st, value).0 == StartEcho(c, st1, value).0;
  }

  lemma SameExact(c: Config, st: State, st': State)
    requires Exact(c, st) && st'.echo == st.echo && st'.sentReady == st.sentReady && st'.readyStat == st.readyStat
    requires st'.sentReadyFromSieve == st.sentReadyFromSieve && st'.echoes == st.echoes
    requires st'.echoSample == st.echoSample
    ensures Exact(c, st')
  {
  }

  lemma EchoFollows(c: Config, st: State, x: Receipt)
    requires Exact(c, st) && x.m.stage == ECHO
    ensures var st' := OnEcho(c, st, x.sender, x.m.value).0; Follows(st, x, st') && Exact(c, st')
  {
    if Of(st.echoSample, x.sender) > 0 && x.sender !in st.echoes {
      EchoWeightWith(st, x.sender, x.m.value);
      SieveCatchesUp(c, st.(echoes := st.echoes[x.sender := x.m.value]));
    }
  }

  lemma SubscribeFollows(c: Config, st: State, x: Receipt)
    requires Exact(c, st) && x.m.stage in {GOSSIP_SUBSCRIBE, ECHO_SUBSCRIBE, READY_SUBSCRIBE}
    ensures var st' := React(c, st, x.sender, x.m).0; Follows(st, x, st') && Exact(c, st')
  {
    SubscribedState(c, st, x);
    SameExact(c, st, React(c, st, x.sender, x.m).0);
  }

  lemma SubscribedState(c: Config, st: State, x: Receipt)
    requires x.m.stage in {GOSSIP_SUBSCRIBE, ECHO_SUBSCRIBE, READY_SUBSCRIBE}
    ensures React(c, st, x.sender, x.m).0
            == st.(gossipSample := st.gossipSample + IfStage(x, GOSSIP_SUBSCRIBE),
                   echoSubscribers := st.echoSubscribers + IfStage(x, ECHO_SUBSCRIBE),
                   readySubscribers := st.readySubscribers + IfStage(x, READY_SUBSCRIBE))
  {
    assert st.gossipSample + {} == st.gossipSample;
    assert st.echoSubscribers + {} == st.echoSubscribers && st.readySubscribers + {} == st.readySubscribers;
    assert x.sender in st.echoSubscribers ==> st.echoSubscribers + {x.sender} == st.echoSubscribers;
    assert x.sender in st.readySubscribers ==> st.readySubscribers + {x.sender} == st.readySubscribers;
  }

  lemma ReadyFollows(c: Config, st: State, x: Receipt)
    requires Exact(c, st) && x.m.stage == READY
    ensures var (st', _, enough) := OnReady(c, st, x.sender, x.m.value);
            && Follows(st, x, st') && Exact(c, st')
            && (enough <==>
                  Of(st.deliverySample, x.sender) > 0 && Enough(Of(st'.deliveryStat, x.m.value), c.deliveryThreshold))
  {
    var st1 := CountReady(c, st, x.sender, x.m.value).0;
    ReadyAnnounces(c, st, x);
    var st' := CountForDelivery(c, st1, x.sender, x.m.value).0;
    assert st' == st1.(deliveryStat := st'.deliveryStat);
    SameExact(c, st1, st');
  }

  lemma ReadyAnnounces(c: Config, st: State, x: Receipt)
    requires Exact(c, st)
    ensures var st', v := CountReady(c, st, x.sender, x.m.value).0, x.m.value;
            && st' == st.(readyStat := st'.readyStat, sentReady := st'.sentReady) && Exact(c, st')
            && forall u: int :: Of(st'.readyStat, u)
                                == Of(st.readyStat, u) + if u == v then Of(st.readySample, x.sender) else 0
  {
    var st' := CountReady(c, st, x.sender, x.m.value).0;
    assert st.echo.Some? ==> EchoWeight(st', st.echo.value) == EchoWeight(st, st.echo.value);
  }

  lemma ReactFollows(c: Config, st: State, x: Receipt)
    requires Exact(c, st)
    ensures var (st', _, enough) := React(c, st, x.sender, x.m);
            && Follows(st, x, st') && Exact(c, st')
            && (enough <==> x.m.stage == READY && Of(st.deliverySample, x.sender) > 0
                            && Enough(Of(st'.deliveryStat, x.m.value), c.deliveryThreshold))
  {
    match x.m.stage
    case GOSSIP => GossipFollows(c, st, x);
    case ECHO => EchoFollows(c, st, x);
    case READY => ReadyFollows(c, st, x);
    case _ => SubscribeFollows(c, st, x);
  }

  // ---------------------------------------------------------------- runs

  /** The state after these messages, for an instance opened by this event. */
  ghost predicate StateIs(c: Config, open: Event, received: seq<Receipt>, st: State)
    requires Opens(c, open)
  {
    var d := open.d;
    && (st.echoSample, st.readySample, st.deliverySample) == (Picked(d.echo), Picked(d.ready), Picked(d.delivery))
    && st.gossipSample == d.gossip + SendersOf(received, GOSSIP_SUBSCRIBE)
    && st.echoSubscribers == SendersOf(received, ECHO_SUBSCRIBE)
    && st.readySubscribers == SendersOf(received, READY_SUBSCRIBE)
    && st.gossip == (if open.Start? then Some(open.value) else FirstGossip(received))
    && st.echo == FirstGossip(received)
    && st.echoes == SampledEchoes(Picked(d.echo), received)
    && forall v: int ::
      && Of(st.readyStat, v) == ReadyWeight(Picked(d.ready), received, v)
      && Of(st.deliveryStat, v) == ReadyWeight(Picked(d.delivery), received, v)
  }

  ghost predicate Reached(sample: Sample, received: seq<Receipt>, threshold: int) {
    exists v :: Enough(ReadyWeight(sample, received, v), threshold)
  }

  /** Something is delivered exactly if some value has enough READYs, and then it is one that has. */
  ghost predicate DeliveredIs(c: Config, sample: Sample, received: seq<Receipt>, delivered: Option<int>) {
    && (delivered.Some? <==> Reached(sample, received, c.deliveryThreshold))
    && (delivered.Some? ==> Enough(ReadyWeight(sample, received, delivered.value), c.deliveryThreshold))
  }

  function OpeningValue(e: Event): int
    requires !e.Expire?
  {
    if e.Start? then e.value else e.m.value
  }

  predicate Subscribing(stage: Stage) {
    stage in {GOSSIP_SUBSCRIBE, ECHO_SUBSCRIBE, READY_SUBSCRIBE}
  }

  /** To whom subscriptions go: one to each peer and to each sampled process, for READYs one for each sample. */
  function SubscriptionsTo(d: Draw, q: Id, stage: Stage): nat {
    match stage
    case GOSSIP_SUBSCRIBE => if q in d.gossip then 1 else 0
    case ECHO_SUBSCRIBE => if q in d.echo then 1 else 0
    case READY_SUBSCRIBE => (if q in d.ready then 1 else 0) + (if q in d.delivery then 1 else 0)
    case _ => 0
  }

  /** Subscriptions have gone out when the instance was opened, with the value that opened it, and never again. */
  ghost predicate Subscribed(c: Config, open: Event, sent: multiset<Packet>)
    requires Opens(c, open)
  {
    forall q: Id, stage, v: int | Subscribing(stage) ::
      sent[Packet(q, Message(stage, v))] == if v == OpeningValue(open) then SubscriptionsTo(open.d, q, stage) else 0
  }

  ghost predicate WorldIs(c: Config, events: seq<Event>, w: World) {
    match OpeningOf(c, events)
    case None => w == World(UNTOUCHED, multiset{}) && ReceivedOf(c, events) == []
    case Some(open) =>
      var received := ReceivedOf(c, events);
      && DeliveredIs(c, Picked(open.d.delivery), received, w.l.delivered)
      && Subscribed(c, open, w.sent)
      && match w.l.state
         case None => w.l.delivered.Some?
         case Some(st) =>
           StateIs(c, open, received, st) && Exact(c, st)
  }

  lemma OneMore(c: Config, sample: Sample, received: seq<Receipt>, x: Receipt, stage: Stage, v: int)
    ensures var longer := received + [x];
            && SendersOf(longer, stage) == SendersOf(received, stage) + IfStage(x, stage)
            && FirstGossip(longer)
               == (if FirstGossip(received).None? && x.m.stage == GOSSIP then Some(x.m.value)
                   else FirstGossip(received))
            && SampledEchoes(sample, longer)
               == (if x.m.stage == ECHO && Of(sample, x.sender) > 0
                   then Cast(SampledEchoes(sample, received), x.sender, x.m.value) else SampledEchoes(sample, received))
            && ReadyWeight(sample, longer, v)
               == ReadyWeight(sample, received, v) + if x.m == Message(READY, v) then Of(sample, x.sender) else 0
  {
    assert (received + [x])[..|received|] == received;
  }

  lemma StateIsNext(c: Config, open: Event, received: seq<Receipt>, st: State, x: Receipt, st': State)
    requires Opens(c, open) && StateIs(c, open, received, st) && Follows(st, x, st')
    requires open.Start? ==> st.gossip.Some?
    ensures StateIs(c, open, received + [x], st')
  {
    var d := open.d;
    OneMore(c, Picked(d.echo), received, x, GOSSIP_SUBSCRIBE, 0);
    OneMore(c, Picked(d.echo), received, x, ECHO_SUBSCRIBE, 0);
    OneMore(c, Picked(d.echo), received, x, READY_SUBSCRIBE, 0);
    WeightsNext(c, d, received, st, x, st');
  }

  lemma WeightsNext(c: Config, d: Draw, received: seq<Receipt>, st: State, x: Receipt, st': State)
    requires Follows(st, x, st') && (st.readySample, st.deliverySample) == (Picked(d.ready), Picked(d.delivery))
    requires forall v: int ::
               && Of(st.readyStat, v) == ReadyWeight(Picked(d.ready), received, v)
               && Of(st.deliveryStat, v) == ReadyWeight(Picked(d.delivery), received, v)
    ensures forall v: int ::
              && Of(st'.readyStat, v) == ReadyWeight(Picked(d.ready), received + [x], v)
              && Of(st'.deliveryStat, v) == ReadyWeight(Picked(d.delivery), received + [x], v)
  {
    forall v: int
      ensures Of(st'.readyStat, v) == ReadyWeight(Picked(d.ready), received + [x], v)
      ensures Of(st'.deliveryStat, v) == ReadyWeight(Picked(d.delivery), received + [x], v)
    {
      OneMore(c, Picked(d.ready), received, x, READY, v);
      OneMore(c, Picked(d.delivery), received, x, READY, v);
    }
  }

  /** A READY can bring about only the delivery of its own value, and only by counting. */
  lemma ReachedNext(c: Config, sample: Sample, received: seq<Receipt>, x: Receipt, threshold: int)
    ensures Reached(sample, received + [x], threshold)
            <==> Reached(sample, received, threshold)
                 || (x.m.stage == READY && Of(sample, x.sender) > 0
                     && Enough(ReadyWeight(sample, received + [x], x.m.value), threshold))
  {
    var longer := received + [x];
    if Reached(sample, received, threshold) {
      var v :| Enough(ReadyWeight(sample, received, v), threshold);
      OneMore(c, sample, received, x, READY, v);
      assert Enough(ReadyWeight(sample, longer, v), threshold);
    }
    if Reached(sample, longer, threshold) {
      var v :| Enough(ReadyWeight(sample, longer, v), threshold);
      OneMore(c, sample, received, x, READY, v);
      assert Enough(ReadyWeight(sample, received, v), threshold) || x.m == Message(READY, v);
    }
  }

  /** What has been delivered stays, and still has enough. */
  lemma StillDelivered(c: Config, sample: Sample, received: seq<Receipt>, x: Receipt, delivered: Option<int>)
    requires DeliveredIs(c, sample, received, delivered) && delivered.Some?
    ensures DeliveredIs(c, sample, received + [x], delivered)
  {
    OneMore(c, sample, received, x, READY, delivered.value);
    assert Enough(ReadyWeight(sample, received + [x], delivered.value), c.deliveryThreshold);
  }

  lemma DeliveredNext(
    c: Config, sample: Sample, received: seq<Receipt>, x: Receipt, delivered: Option<int>, enough: bool)
    requires DeliveredIs(c, sample, received, delivered)
    requires enough <==> x.m.stage == READY && Of(sample, x.sender) > 0
                         && Enough(ReadyWeight(sample, received + [x], x.m.value), c.deliveryThreshold)
    ensures DeliveredIs(c, sample, received + [x], if enough && delivered.None? then Some(x.m.value) else delivered)
  {
    if delivered.Some? {
      StillDelivered(c, sample, received, x, delivered);
    } else {
      ReachedNext(c, sample, received, x, c.deliveryThreshold);
    }
  }

  // ---------------------------------------------------------------- subscriptions

  lemma PickedKeys(picks: seq<Id>, q: Id)
    ensures q in Picked(picks) <==> q in picks
  {
    PickedCounts(picks, q);
    PickedWeighs(picks);
  }

  lemma SubscriptionCount(c: Config, d: Draw, value: int, q: Id, stage: Stage, v: int)
    ensures Subscribing(stage) ==>
              Subscriptions(NewState(c, d), value)[Packet(q, Message(stage, v))]
              == if v == value then SubscriptionsTo(d, q, stage) else 0
  {
    PickedKeys(d.echo, q);
    PickedKeys(d.ready, q);
    PickedKeys(d.delivery, q);
  }

  lemma NewSubscriptions(c: Config, open: Event)
    requires Opens(c, open)
    ensures Subscribed(c, open, Subscriptions(NewState(c, open.d), OpeningValue(open)))
  {
    forall q: Id, stage, v: int {
      SubscriptionCount(c, open.d, OpeningValue(open), q, stage, v);
    }
  }

  ghost predicate NoSubscriptions(out: multiset<Packet>) {
    forall e | e in out :: !Subscribing(e.m.stage)
  }

  lemma StillSubscribed(c: Config, open: Event, sent: multiset<Packet>, out: multiset<Packet>)
    requires Opens(c, open) && Subscribed(c, open, sent) && NoSubscriptions(out)
    ensures Subscribed(c, open, sent + out)
  {
    forall q: Id, stage, v: int | Subscribing(stage)
      ensures (sent + out)[Packet(q, Message(stage, v))] == sent[Packet(q, Message(stage, v))]
    {
      assert out[Packet(q, Message(stage, v))] == 0;
    }
  }

  lemma SieveSubscribesNobody(c: Config, st: State)
    ensures NoSubscriptions(MaybeSendReadyFromSieve(c, st).1)
  {
  }

  lemma GossipSubscribesNobody(c: Config, st: State, value: int)
    ensures NoSubscriptions(OnGossip(c, st, value).1)
  {
    var st1 := StartGossip(st, value).0;
    SieveSubscribesNobody(c, st1.(echo := Some(value)));
    assert NoSubscriptions(StartEcho(c, st1, value).1);
    assert NoSubscriptions(StartGossip(st, value).1);
  }

  lemma ReactSubscribesNobody(c: Config, st: State, x: Receipt)
    ensures NoSubscriptions(React(c, st, x.sender, x.m).1)
  {
    match x.m.stage
    case GOSSIP => GossipSubscribesNobody(c, st, x.m.value);
    case ECHO => SieveSubscribesNobody(c, st.(echoes := st.echoes[x.sender := x.m.value]));
    case READY =>
    case _ =>
  }

  // ---------------------------------------------------------------- steps

  /** An instance with a state handles a message. */
  lemma LiveStep(
    c: Config, open: Event, received: seq<Receipt>, st: State, sent: multiset<Packet>, delivered: Option<int>,
    x: Receipt)
    requires Opens(c, open) && StateIs(c, open, received, st) && Exact(c, st)
    requires DeliveredIs(c, Picked(open.d.delivery), received, delivered) && Subscribed(c, open, sent)
    ensures var (st', out, enough) := React(c, Counted(st, delivered.Some?), x.sender, x.m);
            var delivered' := if enough && delivered.None? then Some(x.m.value) else delivered;
            && StateIs(c, open, received + [x], st') && Exact(c, st')
            && DeliveredIs(c, Picked(open.d.delivery), received + [x], delivered')
            && Subscribed(c, open, sent + out)
  {
    var counted := Counted(st, delivered.Some?);
    var (st', out, enough) := React(c, counted, x.sender, x.m);
    assert StateIs(c, open, received, counted);
    SameExact(c, st, counted);
    ReactFollows(c, counted, x);
    StateIsNext(c, open, received, counted, x, st');
    assert Of(st'.deliveryStat, x.m.value) == ReadyWeight(Picked(open.d.delivery), received + [x], x.m.value);
    DeliveredNext(c, Picked(open.d.delivery), received, x, delivered, enough);
    ReactSubscribesNobody(c, counted, x);
    StillSubscribed(c, open, sent, out);
  }

  /** A new state, before anything has been received. */
  lemma NewStateIs(c: Config, open: Event)
    requires Opens(c, open)
    ensures var st := NewState(c, open.d);
            && Exact(c, st) && (open.Receive? ==> StateIs(c, open, [], st))
            && (open.Start? ==> StateIs(c, open, [], BroadcastGossip(st, open.value).0))
            && DeliveredIs(c, Picked(open.d.delivery), [], None)
            && Subscribed(c, open, Subscriptions(st, OpeningValue(open)))
  {
    NewSubscriptions(c, open);
  }

  lemma LiveNext(c: Config, w: World, e: Event)
    requires Enabled(c, w, e) && e.Receive? && w.l.state.Some?
    ensures var st, delivered := w.l.state.value, w.l.delivered;
            var (st', out, enough) := React(c, Counted(st, delivered.Some?), e.sender, e.m);
            Next(c, w, e) == World(Local(Some(st'), if enough && delivered.None? then Some(e.m.value) else delivered),
                                   w.sent + out)
  {
    var out := React(c, Counted(w.l.state.value, w.l.delivered.Some?), e.sender, e.m).1;
    assert multiset{} + out == out;
  }

  lemma FirstNext(c: Config, e: Event)
    requires Enabled(c, World(UNTOUCHED, multiset{}), e) && e.Receive?
    ensures var st := NewState(c, e.d);
            var (st', out, enough) := React(c, Counted(st, false), e.sender, e.m);
            Next(c, World(UNTOUCHED, multiset{}), e)
            == World(Local(Some(st'), if enough then Some(e.m.value) else None), Subscriptions(st, e.m.value) + out)
  {
    var st := NewState(c, e.d);
    var out := Subscriptions(st, e.m.value) + React(c, Counted(st, false), e.sender, e.m).1;
    assert multiset{} + out == out;
  }

  lemma LongerBy(c: Config, events: seq<Event>, e: Event)
    ensures var before := OpeningOf(c, events);
            && OpeningOf(c, events + [e]) == (if before.None? && Opens(c, e) then Some(e) else before)
            && ReceivedOf(c, events + [e]) == ReceivedOf(c, events) + ReceiptIn(c, e)
  {
    assert (events + [e])[..|events|] == events;
  }

  lemma ReceiveIs(c: Config, events: seq<Event>, w: World, e: Event)
    requires WorldIs(c, events, w) && Enabled(c, w, e) && e.Receive?
    ensures WorldIs(c, events + [e], Next(c, w, e))
  {
    var x, received := Receipt(e.sender, e.m), ReceivedOf(c, events);
    LongerBy(c, events, e);
    match OpeningOf(c, events)
    case None =>
      FirstNext(c, e);
      NewStateIs(c, e);
      LiveStep(c, e, [], NewState(c, e.d), Subscriptions(NewState(c, e.d), e.m.value), None, x);
    case Some(open) =>
      if w.l.state.Some? {
        LiveNext(c, w, e);
        LiveStep(c, open, received, w.l.state.value, w.sent, w.l.delivered, x);
      } else {
        StillDelivered(c, Picked(open.d.delivery), received, x, w.l.delivered);
        assert w.sent + multiset{} == w.sent;
      }
  }

  lemma StartIs(c: Config, events: seq<Event>, w: World, e: Event)
    requires WorldIs(c, events, w) && Enabled(c, w, e) && e.Start?
    ensures WorldIs(c, events + [e], Next(c, w, e))
  {
    var st := NewState(c, e.d);
    var (st1, out) := BroadcastGossip(st, e.value);
    LongerBy(c, events, e);
    assert ReceivedOf(c, events) + [] == ReceivedOf(c, events);
    NewStateIs(c, e);
    SameExact(c, st, st1);
    StillSubscribed(c, e, Subscriptions(st, e.value), out);
    assert multiset{} + (Subscriptions(st, e.value) + out) == Subscriptions(st, e.value) + out;
  }

  lemma QuietIs(c: Config, events: seq<Event>, w: World, e: Event)
    requires WorldIs(c, events, w) && (e.Expire? || !Enabled(c, w, e))
    ensures WorldIs(c, events + [e], Next(c, w, e))
  {
    LongerBy(c, events, e);
    assert ReceivedOf(c, events) + [] == ReceivedOf(c, events);
  }

  lemma {:induction false} RunIs(c: Config, events: seq<Event>)
    ensures WorldIs(c, events, Run(c, events))
  {
    if events != [] {
      var before, e := events[..|events| - 1], events[|events| - 1];
      var w := Run(c, before);
      RunIs(c, before);
      assert events == before + [e];
      if e.Expire? || !Enabled(c, w, e) {
        QuietIs(c, before, w, e);
      } else if e.Receive? {
        ReceiveIs(c, before, w, e);
      } else {
        StartIs(c, before, w, e);
      }
    }
  }

  /** How many messages were received until the delivery, the delivering one included. */
  ghost function CountedOf(c: Config, events: seq<Event>): nat {
    if events == [] then 0
    else
      var before := events[..|events| - 1];
      CountedOf(c, before)
      + if Run(c, before).l.delivered.None? && ReceiptIn(c, events[|events| - 1]) != [] then 1 else 0
  }

  function ReceivedBy(l: Local): nat {
    if l.state.Some? then l.state.value.received else 0
  }

  lemma CountsOne(c: Config, w: World, e: Event)
    requires Inv(c, w)
    ensures var w', counts := Next(c, w, e), w.l.delivered.None? && ReceiptIn(c, e) != [];
            w'.l.state.Some? ==>
              if e.Start? && Enabled(c, w, e) then ReceivedBy(w'.l) == 0 && ReceivedBy(w.l) == 0 && !counts
              else ReceivedBy(w'.l) == ReceivedBy(w.l) + if counts then 1 else 0
  {
    if Enabled(c, w, e) && e.Receive? && !(w.l.state.None? && w.l.delivered.Some?) {
      var st := Counted(Register(c, w.l, e.m.value, e.d).0, w.l.delivered.Some?);
      ReactCountsNothing(c, st, e.sender, e.m);
    }
  }

  lemma ReactCountsNothing(c: Config, st: State, sender: Id, m: Message)
    ensures React(c, st, sender, m).0.received == st.received
  {
    match m.stage
    case GOSSIP =>
      GossipCountsNothing(c, st, m.value);
    case ECHO => EchoCountsNothing(c, st, sender, m.value);
    case READY => ReadyCountsNothing(c, st, sender, m.value);
    case _ => SubscribedState(c, st, Receipt(sender, m));
  }

  lemma GossipCountsNothing(c: Config, st: State, value: int)
    ensures OnGossip(c, st, value).0.received == st.received
  {
    GossipState(c, st, value);
  }

  lemma EchoCountsNothing(c: Config, st: State, sender: Id, value: int)
    ensures OnEcho(c, st, sender, value).0.received == st.received
  {
  }

  lemma ReadyCountsNothing(c: Config, st: State, sender: Id, value: int)
    ensures OnReady(c, st, sender, value).0.received == st.received
  {
    assert CountReady(c, st, sender, value).0.received == st.received;
  }

  lemma {:induction false} CountedAtMost(c: Config, events: seq<Event>)
    ensures CountedOf(c, events) <= |ReceivedOf(c, events)|
  {
    if events != [] {
      CountedAtMost(c, events[..|events| - 1]);
    }
  }

  /** In every run a state has counted the messages received until its delivery. */
  lemma {:induction false} CountsUntilDelivery(c: Config, events: seq<Event>)
    requires Run(c, events).l.state.Some?
    ensures Run(c, events).l.state.value.received == CountedOf(c, events)
  {
    var before, e := events[..|events| - 1], events[|events| - 1];
    var w := Run(c, before);
    RunKeepsInv(c, before);
    RunIs(c, before);
    CountedAtMost(c, before);
    CountsOne(c, w, e);
    if w.l.state.Some? {
      CountsUntilDelivery(c, before);
    }
  }

  /** The processes whose READYs count for delivery: none until the instance is opened. */
  function DeliverySample(c: Config, events: seq<Event>): Sample {
    var open := OpeningOf(c, events);
    if open.Some? then Picked(open.value.d.delivery) else map[]
  }

  /** The READYs handled for v, with the weights of their senders in the delivery sample, add up to the threshold. */
  predicate Deliverable(c: Config, events: seq<Event>, v: int) {
    Enough(ReadyWeight(DeliverySample(c, events), ReceivedOf(c, events), v), c.deliveryThreshold)
  }

  /** v is the first value to get there, and it does so by the k-th event. */
  ghost predicate FirstBy(c: Config, events: seq<Event>, k: nat, v: int) {
    && k < |events| && Deliverable(c, events[..k + 1], v)
    && forall u :: !Deliverable(c, events[..k], u)
  }

  ghost predicate IsFirst(c: Config, events: seq<Event>, v: int) {
    exists k: nat :: FirstBy(c, events, k, v)
  }

  lemma DeliversDeliverable(c: Config, events: seq<Event>)
    ensures var delivered := Run(c, events).l.delivered;
            && (delivered.Some? <==> exists v :: Deliverable(c, events, v))
            && (delivered.Some? ==> Deliverable(c, events, delivered.value))
  {
    RunIs(c, events);
    if OpeningOf(c, events).Some? {
      var sample, received := DeliverySample(c, events), ReceivedOf(c, events);
      if Reached(sample, received, c.deliveryThreshold) {
        var v :| Enough(ReadyWeight(sample, received, v), c.deliveryThreshold);
        assert Deliverable(c, events, v);
      }
    }
  }

  lemma NewlyDeliverable(c: Config, events: seq<Event>, u: int, v: int)
    requires events != [] && Deliverable(c, events, u) && Deliverable(c, events, v)
    requires !Deliverable(c, events[..|events| - 1], u) && !Deliverable(c, events[..|events| - 1], v)
    ensures u == v
  {
    var before, e := events[..|events| - 1], events[|events| - 1];
    assert events == before + [e];
    LongerBy(c, before, e);
    RunIs(c, before);
    assert ReceivedOf(c, before) + [] == ReceivedOf(c, before);
    if ReceiptIn(c, e) != [] {
      OneMore(c, DeliverySample(c, events), ReceivedOf(c, before), ReceiptIn(c, e)[0], READY, u);
      OneMore(c, DeliverySample(c, events), ReceivedOf(c, before), ReceiptIn(c, e)[0], READY, v);
    }
  }

  /** The last event delivers v, unless it was delivered before, exactly if v is the first to get there by it. */
  lemma DeliveredByLast(c: Config, events: seq<Event>, v: int)
    requires events != []
    ensures var j := |events| - 1;
            Run(c, events).l.delivered == Some(v)
            <==> Run(c, events[..j]).l.delivered == Some(v) || FirstBy(c, events, j, v)
  {
    var j := |events| - 1;
    DeliversDeliverable(c, events[..j]);
    DeliversDeliverable(c, events);
    RunOnward(c, events, j);
    assert events[..j + 1] == events;
    if FirstBy(c, events, j, v) {
      NewlyDeliverable(c, events, Run(c, events).l.delivered.value, v);
    }
  }

  lemma FirstByEarlier(c: Config, events: seq<Event>, k: nat, v: int)
    requires k + 1 < |events|
    ensures FirstBy(c, events, k, v) <==> FirstBy(c, events[..|events| - 1], k, v)
  {
    var before := events[..|events| - 1];
    assert before[..k] == events[..k] && before[..k + 1] == events[..k + 1];
  }

  /**
   * Exactly when a value is delivered, in every run: when it is the first whose READYs handled, each with the weight of
   * its sender in the delivery sample, add up to the delivery threshold.
   */
  lemma {:induction false} DeliversExactly(c: Config, events: seq<Event>, v: int)
    ensures Run(c, events).l.delivered == Some(v) <==> IsFirst(c, events, v)
  {
    if events != [] {
      var j := |events| - 1;
      DeliversExactly(c, events[..j], v);
      DeliveredByLast(c, events, v);
      FirstByAny(c, events, v);
    }
  }

  lemma FirstByAny(c: Config, events: seq<Event>, v: int)
    requires events != []
    ensures IsFirst(c, events, v)
            <==> IsFirst(c, events[..|events| - 1], v) || FirstBy(c, events, |events| - 1, v)
  {
    var before := events[..|events| - 1];
    if k: nat :| FirstBy(c, events, k, v) {
      if k + 1 < |events| {
        FirstByEarlier(c, events, k, v);
        assert FirstBy(c, before, k, v);
      }
    }
    if k: nat :| FirstBy(c, before, k, v) {
      FirstByEarlier(c, events, k, v);
      assert FirstBy(c, events, k, v);
    }
  }

  /**
   * Exactly what is announced, in every run while there is a state: the values whose READYs have the ready threshold in
   * the ready sample, and the process's own echo, which is the first gossip, once the sampled processes that echoed it
   * first have the echo threshold.
   */
  lemma AnnouncesExactly(c: Config, events: seq<Event>, v: int)
    requires Run(c, events).l.state.Some?
    ensures OpeningOf(c, events).Some?
    ensures var d, received := OpeningOf(c, events).value.d, ReceivedOf(c, events);
            var echo := FirstGossip(received);
            var heard := SampledEchoes(Picked(d.echo), received);
            v in Run(c, events).l.state.value.sentReady
            <==> || Enough(ReadyWeight(Picked(d.ready), received, v), c.readyThreshold)
                 || (echo == Some(v) && Weight(Picked(d.echo), Voters(heard, v)) >= c.echoThreshold)
  {
    RunIs(c, events);
  }
}
