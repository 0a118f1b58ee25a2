/**
 * The objects of the sampled broadcast, for one instance: a state with running weights instead of a record of
 * echoes, sends one at a time, and samples counted pick by pick. Each call is one step of the machine in Scalable.
 */
module ScalableProcess {
  import opened Options
  import opened Quorums
  import opened Scalable

  ghost function WeightsOf(sample: Sample, votes: map<Id, int>): map<int, nat> {
    map v | v in votes.Values :: Weight(sample, Voters(votes, v))
  }

  lemma StatIsWeight(stat: map<int, nat>, sample: Sample, votes: map<Id, int>, v: int)
    requires stat == WeightsOf(sample, votes)
    ensures Of(stat, v) == Weight(sample, Voters(votes, v))
  {
    if v !in votes.Values {
      assert Voters(votes, v) == {};
    }
  }

  lemma WeightAfter(sample: Sample, votes: map<Id, int>, q: Id, v: int, w: int)
    requires q !in votes
    ensures Weight(sample, Voters(votes[q := v], w))
            == Weight(sample, Voters(votes, w)) + if v == w then Of(sample, q) else 0
  {
    VotersAfter(votes, q, v, w);
    WeightWith(sample, Voters(votes, w), q);
  }

  lemma WeighEcho(stat: map<int, nat>, sample: Sample, votes: map<Id, int>, q: Id, v: int)
    requires stat == WeightsOf(sample, votes) && q !in votes
    ensures stat[v := Of(stat, v) + Of(sample, q)] == WeightsOf(sample, votes[q := v])
  {
    StatIsWeight(stat, sample, votes, v);
    ValuesAfter(votes, q, v);
    forall w: int
      ensures Weight(sample, Voters(votes[q := v], w))
              == Weight(sample, Voters(votes, w)) + if v == w then Of(sample, q) else 0
    {
      WeightAfter(sample, votes, q, v, w);
    }
  }

  lemma OneMoreRecipient(to: set<Id>, q: Id, m: Message)
    requires q !in to
    ensures ToEach(to + {q}, m) == ToEach(to, m) + multiset{Packet(q, m)}
  {
  }

  lemma OneMoreReady(sender: Id, values: set<int>, v: int)
    requires v !in values
    ensures ReadiesFor(sender, values + {v}) == ReadiesFor(sender, values) + multiset{Packet(sender, Message(READY, v))}
  {
  }

  method PickAny<T(==)>(s: set<T>) returns (x: T)
    requires s != {}
    ensures x in s
  {
    x :| x in s;
  }

  class MessageState {
    var receivedEcho: set<Id>
    var echoMessagesStat: map<int, nat>
    var readySampleStat: map<int, nat>
    var deliverySampleStat: map<int, nat>
    var sentReadyMessages: set<int>
    var gossipSample: set<Id>
    var echoSample: Sample
    var readySample: Sample
    var deliverySample: Sample
    var echoSubscriptionSet: set<Id>
    var readySubscriptionSet: set<Id>
    var gossipMessage: Option<int>
    var echoMessage: Option<int>
    var sentReadyFromSieve: bool
    var receivedMessagesCnt: nat

    ghost var echoes: map<Id, int>

    /** The running weights are those of the recorded echoes. */
    ghost predicate Valid()
      reads this
    {
      receivedEcho == echoes.Keys && echoMessagesStat == WeightsOf(echoSample, echoes)
    }

    ghost function View(): State
      reads this
    {
      State(echoes, readySampleStat, deliverySampleStat, sentReadyMessages, gossipSample, echoSample, readySample,
            deliverySample, echoSubscriptionSet, readySubscriptionSet, gossipMessage, echoMessage,
            sentReadyFromSieve, receivedMessagesCnt)
    }

    constructor (gossip: set<Id>, echo: Sample, ready: Sample, delivery: Sample)
      ensures Valid()
      ensures View() == State(map[], map[], map[], {}, gossip, echo, ready, delivery, {}, {}, None, None, false, 0)
    {
      receivedEcho := {};
      echoMessagesStat, readySampleStat, deliverySampleStat := map[], map[], map[];
      sentReadyMessages := {};
      gossipSample, echoSample, readySample, deliverySample := gossip, echo, ready, delivery;
      echoSubscriptionSet, readySubscriptionSet := {}, {};
      gossipMessage, echoMessage := None, None;
      sentReadyFromSieve := false;
      receivedMessagesCnt := 0;
      echoes := map[];
    }

    method CountMessage(delivered: bool)
      requires Valid()
      modifies this`receivedMessagesCnt
      ensures Valid() && View() == Counted(old(View()), delivered)
    {
      if !delivered {
        receivedMessagesCnt := receivedMessagesCnt + 1;
      }
    }

    method CountEcho(sender: Id, value: int)
      requires Valid() && sender !in receivedEcho
      modifies this`receivedEcho, this`echoMessagesStat, this`echoes
      ensures Valid() && View() == old(View()).(echoes := old(echoes)[sender := value])
    {
      WeighEcho(echoMessagesStat, echoSample, echoes, sender, value);
      receivedEcho := receivedEcho + {sender};
      echoMessagesStat := echoMessagesStat[value := Of(echoMessagesStat, value) + Of(echoSample, sender)];
      echoes := echoes[sender := value];
    }
  }

  class Process {
    const c: Config

    var msgState: MessageState?
    var deliveredMessage: Option<int>
    var outbox: multiset<Packet>

    ghost predicate Valid()
      reads this, msgState
    {
      msgState != null ==> msgState.Valid()
    }

    ghost function View(): Local
      reads this, msgState
    {
      Local(if msgState == null then None else Some(msgState.View()), deliveredMessage)
    }

    constructor (c: Config)
      ensures Valid() && View() == UNTOUCHED && outbox == multiset{} && this.c == c
    {
      this.c := c;
      msgState := null;
      deliveredMessage := None;
      outbox := multiset{};
    }

    /** In whatever order a map is ranged over. */
    method BroadcastToSet(members: set<Id>, m: Message)
      modifies this`outbox
      ensures outbox == old(outbox) + ToEach(members, m)
    {
      var told: set<Id> := {};
      while told != members
        invariant told <= members && outbox == old(outbox) + ToEach(told, m)
        decreases members - told
      {
        SubsetOrOutside(members, told);
        var q :| q in members - told;
        OneMoreRecipient(told, q, m);
        outbox := outbox + multiset{Packet(q, m)};
        told := told + {q};
      }
    }

    /** Counting the picks, and subscribing with each process picked. */
    method TakeSample(stage: Stage, value: int, picks: seq<Id>) returns (sample: Sample)
      modifies this`outbox
      ensures sample == Picked(picks) && outbox == old(outbox) + ToEach(sample.Keys, Message(stage, value))
    {
      sample := map[];
      for i := 0 to |picks|
        invariant sample == Picked(picks[..i])
      {
        assert picks[..i + 1][..i] == picks[..i];
        sample := sample[picks[i] := Of(sample, picks[i]) + 1];
      }
      assert picks[..|picks|] == picks;
      BroadcastToSet(sample.Keys, Message(stage, value));
    }

    method InitMessageState(value: int, d: Draw) returns (created: MessageState)
      modifies this`msgState, this`outbox
      ensures created == msgState && fresh(created) && created.Valid()
      ensures created.View() == NewState(c, d)
      ensures outbox == old(outbox) + Subscriptions(NewState(c, d), value)
    {
      BroadcastToSet(d.gossip, Message(GOSSIP_SUBSCRIBE, value));
      var echoSample := TakeSample(ECHO_SUBSCRIBE, value, d.echo);
      var readySample := TakeSample(READY_SUBSCRIBE, value, d.ready);
      var deliverySample := TakeSample(READY_SUBSCRIBE, value, d.delivery);
      created := new MessageState(d.gossip, echoSample, readySample, deliverySample);
      msgState := created;
    }

    method BroadcastGossip(ms: MessageState, value: int)
      modifies this`outbox, ms`gossipMessage
      ensures var (st, out) := Scalable.BroadcastGossip(old(ms.View()), value);
              ms.View() == st && outbox == old(outbox) + out
    {
      ms.gossipMessage := Some(value);
      BroadcastToSet(ms.gossipSample, Message(GOSSIP, value));
    }

    method BroadcastReady(ms: MessageState, value: int)
      modifies this`outbox, ms`sentReadyMessages
      ensures var (st, out) := Scalable.BroadcastReady(old(ms.View()), value);
              ms.View() == st && outbox == old(outbox) + out
    {
      ms.sentReadyMessages := ms.sentReadyMessages + {value};
      BroadcastToSet(ms.readySubscriptionSet, Message(READY, value));
    }

    method MaybeSendReadyFromSieve(ms: MessageState)
      requires ms.Valid()
      modifies this`outbox, ms
      ensures ms.Valid()
      ensures var (st, out) := Scalable.MaybeSendReadyFromSieve(c, old(ms.View()));
              ms.View() == st && outbox == old(outbox) + out
    {
      if !ms.sentReadyFromSieve && ms.echoMessage.Some? {
        var echoValue := ms.echoMessage.value;
        StatIsWeight(ms.echoMessagesStat, ms.echoSample, ms.echoes, echoValue);
        if Of(ms.echoMessagesStat, echoValue) >= c.echoThreshold {
          BroadcastReady(ms, echoValue);
          ms.sentReadyFromSieve := true;
        }
      }
    }

    method OnGossipSubscribe(sender: Id, ms: MessageState)
      requires ms.Valid()
      modifies this`outbox, ms`gossipSample
      ensures ms.Valid()
      ensures var (st, out) := Scalable.OnGossipSubscribe(old(ms.View()), sender);
              ms.View() == st && outbox == old(outbox) + out
    {
      ms.gossipSample := ms.gossipSample + {sender};
      if ms.gossipMessage.Some? {
        outbox := outbox + multiset{Packet(sender, Message(GOSSIP, ms.gossipMessage.value))};
      }
    }

    method StartEcho(value: int, ms: MessageState)
      requires ms.Valid()
      modifies this`outbox, ms
      ensures ms.Valid()
      ensures var (st, out) := Scalable.StartEcho(c, old(ms.View()), value);
              ms.View() == st && outbox == old(outbox) + out
    {
      if ms.echoMessage.None? {
        ms.echoMessage := Some(value);
        ghost var echoed := ToEach(ms.echoSubscriptionSet, Message(ECHO, value));
        Regroup(outbox, echoed, Scalable.MaybeSendReadyFromSieve(c, ms.View()).1);
        BroadcastToSet(ms.echoSubscriptionSet, Message(ECHO, value));
        MaybeSendReadyFromSieve(ms);
      }
    }

    method OnGossip(value: int, ms: MessageState)
      requires ms.Valid()
      modifies this`outbox, ms
      ensures ms.Valid()
      ensures var (st, out) := Scalable.OnGossip(c, old(ms.View()), value);
              ms.View() == st && outbox == old(outbox) + out
    {
      ghost var (st1, out1) := StartGossip(ms.View(), value);
      Regroup(outbox, out1, Scalable.StartEcho(c, st1, value).1);
      if ms.gossipMessage.None? {
        BroadcastGossip(ms, value);
      }
      assert ms.View() == st1 && outbox == old(outbox) + out1;
      StartEcho(value, ms);
    }

    method OnEchoSubscribe(sender: Id, ms: MessageState)
      requires ms.Valid()
      modifies this`outbox, ms`echoSubscriptionSet
      ensures ms.Valid()
      ensures var (st, out) := Scalable.OnEchoSubscribe(old(ms.View()), sender);
              ms.View() == st && outbox == old(outbox) + out
    {
      if sender in ms.echoSubscriptionSet {
        return;
      }
      ms.echoSubscriptionSet := ms.echoSubscriptionSet + {sender};
      if ms.echoMessage.Some? {
        outbox := outbox + multiset{Packet(sender, Message(ECHO, ms.echoMessage.value))};
      }
    }

    method OnEcho(sender: Id, value: int, ms: MessageState)
      requires ms.Valid()
      modifies this`outbox, ms
      ensures ms.Valid()
      ensures var (st, out) := Scalable.OnEcho(c, old(ms.View()), sender, value);
              ms.View() == st && outbox == old(outbox) + out
    {
      if Of(ms.echoSample, sender) == 0 || sender in ms.receivedEcho {
        return;
      }
      ms.CountEcho(sender, value);
      MaybeSendReadyFromSieve(ms);
    }

    method OnReadySubscribe(sender: Id, ms: MessageState)
      requires ms.Valid()
      modifies this`outbox, ms`readySubscriptionSet
      ensures ms.Valid()
      ensures var (st, out) := Scalable.OnReadySubscribe(old(ms.View()), sender);
              ms.View() == st && outbox == old(outbox) + out
    {
      if sender in ms.readySubscriptionSet {
        return;
      }
      ms.readySubscriptionSet := ms.readySubscriptionSet + {sender};
      SendReadies(sender, ms.sentReadyMessages);
    }

    method SendReadies(to: Id, values: set<int>)
      modifies this`outbox
      ensures outbox == old(outbox) + ReadiesFor(to, values)
    {
      var done: set<int> := {};
      while done != values
        invariant done <= values && outbox == old(outbox) + ReadiesFor(to, done)
        decreases values - done
      {
        SubsetOrOutside(values, done);
        var v := PickAny(values - done);
        OneMoreReady(to, done, v);
        outbox := outbox + multiset{Packet(to, Message(READY, v))};
        done := done + {v};
      }
    }

    method CountReady(sender: Id, value: int, ms: MessageState)
      requires ms.Valid()
      modifies this`outbox, ms`readySampleStat, ms`sentReadyMessages
      ensures ms.Valid()
      ensures var (st, out) := Scalable.CountReady(c, old(ms.View()), sender, value);
              ms.View() == st && outbox == old(outbox) + out
    {
      var w := Of(ms.readySample, sender);
      if w > 0 {
        ms.readySampleStat := ms.readySampleStat[value := Of(ms.readySampleStat, value) + w];
        if value !in ms.sentReadyMessages && ms.readySampleStat[value] >= c.readyThreshold {
          BroadcastReady(ms, value);
        }
      }
    }

    method CountForDelivery(sender: Id, value: int, ms: MessageState) returns (enough: bool)
      requires ms.Valid()
      modifies ms`deliverySampleStat
      ensures ms.Valid()
      ensures Scalable.CountForDelivery(c, old(ms.View()), sender, value) == (ms.View(), enough)
    {
      var w := Of(ms.deliverySample, sender);
      if w == 0 {
        return false;
      }
      ms.deliverySampleStat := ms.deliverySampleStat[value := Of(ms.deliverySampleStat, value) + w];
      enough := ms.deliverySampleStat[value] >= c.deliveryThreshold;
    }

    /** The switch over the stage; the answer says whether there is enough to deliver. */
    method React(sender: Id, m: Message, ms: MessageState) returns (enough: bool)
      requires ms.Valid()
      modifies this`outbox, ms
      ensures ms.Valid()
      ensures var (st, out, e) := Scalable.React(c, old(ms.View()), sender, m);
              ms.View() == st && outbox == old(outbox) + out && enough == e
    {
      enough := false;
      match m.stage
      case GOSSIP_SUBSCRIBE => OnGossipSubscribe(sender, ms);
      case GOSSIP => OnGossip(m.value, ms);
      case ECHO_SUBSCRIBE => OnEchoSubscribe(sender, ms);
      case ECHO => OnEcho(sender, m.value, ms);
      case READY_SUBSCRIBE => OnReadySubscribe(sender, ms);
      case READY =>
        CountReady(sender, m.value, ms);
        enough := CountForDelivery(sender, m.value, ms);
    }

    /** d is what sampling yields if a state has to be created. */
    method ProcessProtocolMessage(sender: Id, m: Message, d: Draw)
      requires Valid()
      modifies this, msgState
      ensures Valid() && (msgState == old(msgState) || fresh(msgState))
      ensures var (l, out) := Handle(c, old(View()), sender, m, d);
              View() == l && outbox == old(outbox) + out
    {
      var delivered := deliveredMessage.Some?;
      if msgState == null && delivered {
        return;
      }
      ghost var (st0, subscriptions) := Register(c, View(), m.value, d);
      if msgState == null {
        var created := InitMessageState(m.value, d);
      }
      assert msgState.View() == st0 && outbox == old(outbox) + subscriptions;
      Advance(sender, m, delivered, st0, subscriptions, old(outbox));
    }

    /** Counting the message, reacting to it and delivering, once there is a state. */
    method Advance(
      sender: Id, m: Message, delivered: bool, ghost st0: State, ghost subscriptions: multiset<Packet>,
      ghost before: multiset<Packet>)
      requires Valid() && msgState != null && delivered == deliveredMessage.Some?
      requires msgState.View() == st0 && outbox == before + subscriptions
      modifies this`deliveredMessage, this`outbox, msgState
      ensures Valid()
      ensures var (st, out, enough) := Scalable.React(c, Counted(st0, delivered), sender, m);
              && msgState.View() == st && outbox == before + (subscriptions + out)
              && deliveredMessage == if enough && !delivered then Some(m.value) else old(deliveredMessage)
    {
      ghost var (_, out, _) := Scalable.React(c, Counted(st0, delivered), sender, m);
      Regroup(before, subscriptions, out);
      msgState.CountMessage(delivered);
      var enough := React(sender, m, msgState);
      if !delivered && enough {
        deliveredMessage := Some(m.value);
      }
    }

    method Broadcast(value: int, d: Draw)
      requires Valid()
      modifies this`msgState, this`outbox
      ensures Valid() && fresh(msgState)
      ensures var (l, out) := Publish(c, old(View()), value, d);
              View() == l && outbox == old(outbox) + out
    {
      ghost var st := NewState(c, d);
      Regroup(outbox, Subscriptions(st, value), Scalable.BroadcastGossip(st, value).1);
      var created := InitMessageState(value, d);
      BroadcastGossip(created, value);
    }

    /** What the delayed clean-up does when its time has come. */
    method CleanUp()
      requires Valid()
      modifies this`msgState
      ensures Valid() && View() == old(View()).(state := None)
    {
      msgState := null;
    }
  }
}
