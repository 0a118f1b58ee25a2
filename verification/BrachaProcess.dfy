/**
 * The process object of Bracha's broadcast: a log of mutable instance states, counters instead of vote records,
 * and collection of the state on delivery. Each handler call is one step of the single-instance machine for the
 * instance it names and no step for any other.
 */
module BrachaProcess {
  import opened GoIntegers
  import opened Quorums
  import opened Bracha

  datatype Instance = Instance(author: nat, seqNumber: int32)

  datatype Envelope = Envelope(to: Id, instance: Instance, m: Message)

  /** One message to each of the first n processes. */
  function ToFirst(n: nat, b: Instance, m: Message): multiset<Envelope> {
    if n == 0 then multiset{} else ToFirst(n - 1, b, m) + multiset{Envelope(n - 1, b, m)}
  }

  function Broadcasts(n: nat, b: Instance, out: seq<Message>): multiset<Envelope> {
    if out == [] then multiset{}
    else Broadcasts(n, b, out[..|out| - 1]) + ToFirst(n, b, out[|out| - 1])
  }

  lemma BroadcastsOfFew(n: nat, b: Instance, m: Message, m': Message)
    ensures Broadcasts(n, b, [m]) == ToFirst(n, b, m)
    ensures Broadcasts(n, b, [m, m']) == ToFirst(n, b, m) + ToFirst(n, b, m')
  {
    assert [m, m'][..1] == [m];
    assert Broadcasts(n, b, [m]) == Broadcasts(n, b, [m][..0]) + ToFirst(n, b, m);
    assert Broadcasts(n, b, [m, m']) == Broadcasts(n, b, [m]) + ToFirst(n, b, m');
  }

  lemma {:induction false} ToFirstReachesEachOnce(n: nat, b: Instance, m: Message, e: Envelope)
    ensures ToFirst(n, b, m)[e] == if e.to < n && e.instance == b && e.m == m then 1 else 0
    ensures |ToFirst(n, b, m)| == n
  {
    if n > 0 {
      ToFirstReachesEachOnce(n - 1, b, m, e);
    }
  }

  /** A recipient gets every broadcast message once. */
  lemma {:induction false} BroadcastsReach(n: nat, b: Instance, out: seq<Message>, e: Envelope)
    ensures Broadcasts(n, b, out)[e] == if e.to < n && e.instance == b then multiset(out)[e.m] else 0
  {
    if out != [] {
      var k := |out| - 1;
      BroadcastsReach(n, b, out[..k], e);
      ToFirstReachesEachOnce(n, b, out[k], e);
      LastCounts(out, e.m);
    }
  }

  lemma LastCounts(out: seq<Message>, m: Message)
    requires out != []
    ensures var k := |out| - 1;
            multiset(out)[m] == multiset(out[..k])[m] + if m == out[k] then 1 else 0
  {
    assert out == out[..|out| - 1] + [out[|out| - 1]];
  }

  lemma {:induction false} BroadcastsSize(n: nat, b: Instance, out: seq<Message>)
    ensures |Broadcasts(n, b, out)| == n * |out|
  {
    if out != [] {
      var k := |out| - 1;
      BroadcastsSize(n, b, out[..k]);
      ToFirstReachesEachOnce(n, b, out[k], Envelope(0, b, out[k]));
      OneMore(n, k);
    }
  }

  lemma OneMore(n: nat, k: nat)
    ensures n * (k + 1) == n * k + n
  {
  }

  // ---------------------------------------------------------------- many instances at one process

  datatype Call = Call(sender: Id, instance: Instance, m: Message)

  /** What was handled of one instance, in order. */
  function For(calls: seq<Call>, b: Instance): seq<(Id, Message)> {
    if calls == [] then []
    else
      var x := calls[|calls| - 1];
      For(calls[..|calls| - 1], b) + if x.instance == b then [(x.sender, x.m)] else []
  }

  /** What the next message makes the process broadcast. */
  function SentOn(c: Config, before: seq<Call>, x: Call): seq<Message> {
    Handle(c, Play(c, For(before, x.instance)).0, x.sender, x.m).1
  }

  /** Everything sent on handling a sequence of messages of any instances. */
  function Sent(n: nat, c: Config, calls: seq<Call>): multiset<Envelope> {
    if calls == [] then multiset{}
    else
      var before, x := calls[..|calls| - 1], calls[|calls| - 1];
      Sent(n, c, before) + Broadcasts(n, x.instance, SentOn(c, before, x))
  }

  lemma ForExtends(calls: seq<Call>, x: Call, b: Instance)
    ensures For(calls + [x], b) == if x.instance == b then For(calls, b) + [(x.sender, x.m)] else For(calls, b)
  {
    assert (calls + [x])[..|calls|] == calls;
  }

  lemma PlayExtends(c: Config, inputs: seq<(Id, Message)>, sender: Id, m: Message)
    ensures var (l, sent) := Play(c, inputs);
            var (l', out) := Handle(c, l, sender, m);
            Play(c, inputs + [(sender, m)]) == (l', sent + out)
  {
    assert (inputs + [(sender, m)])[..|inputs|] == inputs;
  }

  /** One more call moves its own instance by one step. */
  lemma CallMoves(c: Config, before: seq<Call>, x: Call, b: Instance)
    ensures Play(c, For(before + [x], b)).0 ==
            if b == x.instance then Handle(c, Play(c, For(before, b)).0, x.sender, x.m).0 else Play(c, For(before, b)).0
  {
    ForExtends(before, x, b);
    if b == x.instance {
      PlayExtends(c, For(before, b), x.sender, x.m);
    }
  }

  /** And adds what that step sends. */
  lemma CallSends(n: nat, c: Config, before: seq<Call>, x: Call)
    ensures Sent(n, c, before + [x]) == Sent(n, c, before) + Broadcasts(n, x.instance, SentOn(c, before, x))
  {
    assert (before + [x])[..|before|] == before;
  }

  lemma BroadcastsConcat(n: nat, b: Instance, out: seq<Message>, more: seq<Message>)
    ensures Broadcasts(n, b, out + more) == Broadcasts(n, b, out) + Broadcasts(n, b, more)
  {
    forall e: Envelope
      ensures Broadcasts(n, b, out + more)[e] == (Broadcasts(n, b, out) + Broadcasts(n, b, more))[e]
    {
      BroadcastsReach(n, b, out, e);
      BroadcastsReach(n, b, more, e);
      BroadcastsReach(n, b, out + more, e);
    }
  }

  /**
   * Instances do not disturb one another: of all that a process sends while handling any messages of any instances,
   * what it sends for one is what the single-instance machine sends on the messages of that one; at most one ECHO and
   * one READY to each of the n processes, 2n envelopes in all.
   */
  lemma {:induction false} InstancesApart(n: nat, c: Config, calls: seq<Call>, b: Instance)
    returns (rest: multiset<Envelope>)
    ensures Sent(n, c, calls) == Broadcasts(n, b, Play(c, For(calls, b)).1) + rest
    ensures forall e | e in rest :: e.instance != b
    ensures |Broadcasts(n, b, Play(c, For(calls, b)).1)| <= 2 * n
  {
    AtMostTwice(n, c, For(calls, b), b);
    if calls == [] {
      rest := multiset{};
    } else {
      var before, x := calls[..|calls| - 1], calls[|calls| - 1];
      assert calls == before + [x];
      rest := InstancesApart(n, c, before, b);
      if x.instance == b {
        SentForIt(n, c, before, x);
        Swap(Broadcasts(n, b, Play(c, For(before, b)).1), rest, Broadcasts(n, b, SentOn(c, before, x)));
      } else {
        var more := Broadcasts(n, x.instance, SentOn(c, before, x));
        SentElsewhere(n, c, before, x, b);
        Regroup(Broadcasts(n, b, Play(c, For(before, b)).1), rest, more);
        NeitherHas(rest, more, b);
        rest := rest + more;
      }
    }
  }

  lemma Swap(a: multiset<Envelope>, x: multiset<Envelope>, y: multiset<Envelope>)
    ensures a + x + y == a + y + x
  {
  }

  lemma Regroup(a: multiset<Envelope>, x: multiset<Envelope>, y: multiset<Envelope>)
    ensures a + x + y == a + (x + y)
  {
  }

  lemma NeitherHas(x: multiset<Envelope>, y: multiset<Envelope>, b: Instance)
    requires forall e | e in x :: e.instance != b
    requires forall e | e in y :: e.instance != b
    ensures forall e | e in x + y :: e.instance != b
  {
  }

  lemma SentForIt(n: nat, c: Config, before: seq<Call>, x: Call)
    ensures var b := x.instance;
            Broadcasts(n, b, Play(c, For(before + [x], b)).1)
            == Broadcasts(n, b, Play(c, For(before, b)).1) + Broadcasts(n, b, SentOn(c, before, x))
  {
    ForExtends(before, x, x.instance);
    PlayExtends(c, For(before, x.instance), x.sender, x.m);
    BroadcastsConcat(n, x.instance, Play(c, For(before, x.instance)).1, SentOn(c, before, x));
  }

  lemma SentElsewhere(n: nat, c: Config, before: seq<Call>, x: Call, b: Instance)
    requires x.instance != b
    ensures For(before + [x], b) == For(before, b)
    ensures forall e | e in Broadcasts(n, x.instance, SentOn(c, before, x)) :: e.instance != b
  {
    ForExtends(before, x, b);
    forall e | e in Broadcasts(n, x.instance, SentOn(c, before, x))
      ensures e.instance != b
    {
      BroadcastsReach(n, x.instance, SentOn(c, before, x), e);
    }
  }

  lemma AtMostTwice(n: nat, c: Config, inputs: seq<(Id, Message)>, b: Instance)
    ensures |Broadcasts(n, b, Play(c, inputs).1)| <= 2 * n
  {
    var out := Play(c, inputs).1;
    SpeaksAtMostTwice(c, inputs);
    BroadcastsSize(n, b, out);
    assert |out| == 0 || |out| == 1 || |out| == 2;
  }

  class MessageState {
    var receivedEcho: set<Id>
    var receivedReady: set<Id>
    var echoCount: map<int, nat>
    var readyCount: map<int, nat>
    var stage: Stage
    var receivedMessagesCnt: nat

    ghost var echoes: map<Id, int>
    ghost var readies: map<Id, int>

    /** The counters represent the first votes. */
    ghost predicate Valid()
      reads this
    {
      Tallies(receivedEcho, echoCount, echoes) && Tallies(receivedReady, readyCount, readies)
    }

    ghost function View(): State
      reads this
    {
      State(stage, echoes, readies, receivedMessagesCnt)
    }

    constructor ()
      ensures Valid() && View() == NEW_STATE
    {
      receivedEcho, receivedReady := {}, {};
      echoCount, readyCount := map[], map[];
      stage, receivedMessagesCnt := Init, 0;
      echoes, readies := map[], map[];
    }

    method CountEcho(sender: Id, value: int)
      requires Valid() && sender !in receivedEcho
      modifies this`receivedEcho, this`echoCount, this`echoes
      ensures Valid() && echoes == old(echoes)[sender := value]
    {
      TallyVote(receivedEcho, echoCount, echoes, sender, value);
      receivedEcho := receivedEcho + {sender};
      echoCount := echoCount[value := Counter(echoCount, value) + 1];
      echoes := echoes[sender := value];
    }

    method CountReady(sender: Id, value: int)
      requires Valid() && sender !in receivedReady
      modifies this`receivedReady, this`readyCount, this`readies
      ensures Valid() && readies == old(readies)[sender := value]
    {
      TallyVote(receivedReady, readyCount, readies, sender, value);
      receivedReady := receivedReady + {sender};
      readyCount := readyCount[value := Counter(readyCount, value) + 1];
      readies := readies[sender := value];
    }
  }

  class Process {
    const processIndex: nat
    const n: nat
    const messagesForEcho: nat
    const messagesForReady: nat
    const messagesForDelivery: nat
    ghost const c: Config

    var transactionCounter: int32
    var deliveredTransactions: map<Instance, int>
    var transactionsLog: map<Instance, MessageState>
    var outbox: multiset<Envelope>

    ghost predicate Thresholds() {
      && c.n == n && messagesForEcho == c.ForEcho()
      && messagesForReady == c.ForReady() && messagesForDelivery == c.ForDelivery()
    }

    ghost predicate Valid()
      reads this`transactionsLog, this`deliveredTransactions, transactionsLog.Values
    {
      && Thresholds()
      && transactionsLog.Keys !! deliveredTransactions.Keys
      && (forall b | b in transactionsLog :: transactionsLog[b].Valid())
      && (forall b, b' | b in transactionsLog && b' in transactionsLog && b != b' ::
            transactionsLog[b] != transactionsLog[b'])
    }

    /** What the process knows of one instance. */
    ghost function View(b: Instance): Local
      reads this`transactionsLog, this`deliveredTransactions, transactionsLog.Values
    {
      if b in deliveredTransactions then Delivered(deliveredTransactions[b])
      else if b in transactionsLog then Live(transactionsLog[b].View())
      else Fresh
    }

    /**
     * The process is where the messages it handled, taken instance by instance, have brought it, and apart from the
     * INITIALs of its own broadcasts it has sent what they make it send.
     */
    ghost predicate Accounted(handled: seq<Call>)
      reads this, transactionsLog.Values
    {
      && (forall b :: View(b) == Play(c, For(handled, b)).0)
      && (forall e: Envelope | e.m.stage != INITIAL :: outbox[e] == Sent(n, c, handled)[e])
    }

    constructor (processIndex: nat, processCount: nat, faultyProcesses: nat)
      ensures Valid() && c == Config(processCount, faultyProcesses) && this.processIndex == processIndex
      ensures transactionCounter == 0 && outbox == multiset{} && forall b :: View(b) == Fresh
      ensures Accounted([])
    {
      this.processIndex := processIndex;
      n := processCount;
      var half := (processCount + faultyProcesses + 1) / 2;
      messagesForEcho := if (processCount + faultyProcesses + 1) % 2 == 0 then half else half + 1;
      messagesForReady := faultyProcesses + 1;
      messagesForDelivery := 2 * faultyProcesses + 1;
      c := Config(processCount, faultyProcesses);
      transactionCounter := 0;
      deliveredTransactions := map[];
      transactionsLog := map[];
      outbox := multiset{};
    }

    method InitMessageState(b: Instance) returns (msgState: MessageState)
      requires Valid() && b !in deliveredTransactions
      modifies this`transactionsLog
      ensures Valid() && b in transactionsLog && transactionsLog[b] == msgState
      ensures msgState.View() == Register(old(View(b)))
      ensures b in old(transactionsLog) ==> transactionsLog == old(transactionsLog)
      ensures b !in old(transactionsLog) ==> fresh(msgState) && transactionsLog == old(transactionsLog)[b := msgState]
      ensures forall b' | b' != b :: View(b') == old(View(b'))
    {
      if b in transactionsLog {
        msgState := transactionsLog[b];
      } else {
        msgState := new MessageState();
        transactionsLog := transactionsLog[b := msgState];
      }
    }

    method BroadcastMessage(b: Instance, m: Message)
      modifies this`outbox
      ensures outbox == old(outbox) + ToFirst(n, b, m)
    {
      for i := 0 to n
        invariant outbox == old(outbox) + ToFirst(i, b, m)
      {
        outbox := outbox + multiset{Envelope(i, b, m)};
      }
    }

    method BroadcastEcho(b: Instance, value: int, msgState: MessageState)
      modifies this`outbox, msgState`stage
      ensures outbox == old(outbox) + ToFirst(n, b, Message(ECHO, value)) && msgState.stage == SentEcho
    {
      BroadcastMessage(b, Message(ECHO, value));
      msgState.stage := SentEcho;
    }

    method BroadcastReady(b: Instance, value: int, msgState: MessageState)
      modifies this`outbox, msgState`stage
      ensures outbox == old(outbox) + ToFirst(n, b, Message(READY, value)) && msgState.stage == SentReady
    {
      BroadcastMessage(b, Message(READY, value));
      msgState.stage := SentReady;
    }

    /** The two nested conditionals that follow a crossed threshold. */
    method Promote(b: Instance, value: int, msgState: MessageState)
      modifies this`outbox, msgState`stage
      ensures var (st, out) := Promoted(old(msgState.View()), value);
              msgState.View() == st && outbox == old(outbox) + Broadcasts(n, b, out)
    {
      BroadcastsOfFew(n, b, Message(ECHO, value), Message(READY, value));
      BroadcastsOfFew(n, b, Message(READY, value), Message(READY, value));
      if msgState.stage == Init {
        BroadcastEcho(b, value, msgState);
      }
      if msgState.stage == SentEcho {
        BroadcastReady(b, value, msgState);
      }
    }

    method Deliver(b: Instance, value: int)
      requires Valid() && b in transactionsLog
      modifies this`deliveredTransactions, this`transactionsLog
      ensures Valid() && deliveredTransactions == old(deliveredTransactions)[b := value]
      ensures transactionsLog == old(transactionsLog) - {b}
      ensures forall b' | b' != b :: View(b') == old(View(b'))
    {
      deliveredTransactions := deliveredTransactions[b := value];
      transactionsLog := transactionsLog - {b};
    }

    method OnInitial(b: Instance, value: int, msgState: MessageState)
      modifies this`outbox, msgState`stage
      ensures var (st, out) := Bracha.OnInitial(old(msgState.View()), value);
              msgState.View() == st && outbox == old(outbox) + Broadcasts(n, b, out)
    {
      if msgState.stage == Init {
        BroadcastEcho(b, value, msgState);
        BroadcastsOfFew(n, b, Message(ECHO, value), Message(ECHO, value));
      }
    }

    method OnEcho(sender: Id, b: Instance, value: int, msgState: MessageState)
      requires Thresholds() && msgState.Valid()
      modifies this`outbox, msgState
      ensures msgState.Valid()
      ensures var (st, out) := Bracha.OnEcho(c, old(msgState.View()), sender, value);
              msgState.View() == st && outbox == old(outbox) + Broadcasts(n, b, out)
    {
      if msgState.stage == SentReady || sender in msgState.receivedEcho {
        return;
      }
      msgState.CountEcho(sender, value);
      if Counter(msgState.echoCount, value) >= messagesForEcho {
        Promote(b, value, msgState);
      }
    }

    method OnReady(sender: Id, b: Instance, value: int, msgState: MessageState) returns (deliver: bool)
      requires Thresholds() && msgState.Valid()
      modifies this`outbox, msgState
      ensures msgState.Valid()
      ensures var (st, out, d) := Bracha.OnReady(c, old(msgState.View()), sender, value);
              msgState.View() == st && outbox == old(outbox) + Broadcasts(n, b, out) && deliver == d
    {
      if sender in msgState.receivedReady {
        return false;
      }
      msgState.CountReady(sender, value);
      if Counter(msgState.readyCount, value) >= messagesForReady {
        Promote(b, value, msgState);
      }
      deliver := Counter(msgState.readyCount, value) >= messagesForDelivery;
    }

    /** The switch over the message's stage; the answer says whether to deliver. */
    method React(sender: Id, b: Instance, message: Message, msgState: MessageState) returns (deliver: bool)
      requires Thresholds() && msgState.Valid()
      modifies this`outbox, msgState
      ensures msgState.Valid()
      ensures var (st, out, d) := Bracha.React(c, old(msgState.View()), sender, message);
              msgState.View() == st && outbox == old(outbox) + Broadcasts(n, b, out) && deliver == d
    {
      deliver := false;
      match message.stage
      case INITIAL => OnInitial(b, message.value, msgState);
      case ECHO => OnEcho(sender, b, message.value, msgState);
      case READY => deliver := OnReady(sender, b, message.value, msgState);
      case OTHER =>
    }

    /** Handling up to, but not including, a delivery, once there is a state. */
    method Advance(sender: Id, b: Instance, message: Message) returns (deliver: bool)
      requires Valid() && b in transactionsLog
      modifies this`outbox, transactionsLog[b]
      ensures Valid()
      ensures var (st, out, d) := Bracha.React(c, Counted(old(transactionsLog[b].View())), sender, message);
              && transactionsLog[b].View() == st && outbox == old(outbox) + Broadcasts(n, b, out) && deliver == d
      ensures forall b' | b' != b :: View(b') == old(View(b'))
    {
      var msgState := transactionsLog[b];
      msgState.receivedMessagesCnt := msgState.receivedMessagesCnt + 1;
      assert msgState.View() == Counted(old(transactionsLog[b].View()));
      deliver := React(sender, b, message, msgState);
    }

    method RegisterAndAdvance(sender: Id, b: Instance, message: Message) returns (deliver: bool)
      requires Valid() && b !in deliveredTransactions
      modifies this`transactionsLog, this`outbox, transactionsLog.Values
      ensures Valid() && b in transactionsLog && fresh(transactionsLog.Values - old(transactionsLog.Values))
      ensures var (st, out, d) := Bracha.React(c, Counted(Register(old(View(b)))), sender, message);
              && View(b) == Live(st) && outbox == old(outbox) + Broadcasts(n, b, out) && deliver == d
      ensures forall b' | b' != b :: View(b') == old(View(b'))
    {
      var msgState := InitMessageState(b);
      deliver := Advance(sender, b, message);
    }

    method ProcessProtocolMessage(sender: Id, b: Instance, message: Message)
      requires Valid() && b.author < n
      modifies this`deliveredTransactions, this`transactionsLog, this`outbox, transactionsLog.Values
      ensures Valid() && fresh(transactionsLog.Values - old(transactionsLog.Values))
      ensures var (l, out) := Handle(c, old(View(b)), sender, message);
              View(b) == l && outbox == old(outbox) + Broadcasts(n, b, out)
      ensures forall b' | b' != b :: View(b') == old(View(b'))
    {
      if b in deliveredTransactions {
        assert Broadcasts(n, b, []) == multiset{};
        return;
      }
      var deliver := RegisterAndAdvance(sender, b, message);
      if deliver {
        Deliver(b, message.value);
      }
    }

    /** ProcessProtocolMessage does what its contract says, for the account of all messages so far. */
    twostate lemma StillAccounted(handled: seq<Call>, call: Call)
      requires old(Accounted(handled))
      requires var (l, out) := Handle(c, old(View(call.instance)), call.sender, call.m);
               View(call.instance) == l && outbox == old(outbox) + Broadcasts(n, call.instance, out)
      requires forall b | b != call.instance :: View(b) == old(View(b))
      ensures Accounted(handled + [call])
    {
      forall b
        ensures View(b) == Play(c, For(handled + [call], b)).0
      {
        CallMoves(c, handled, call, b);
      }
      CallSends(n, c, handled, call);
    }

    /** The author hands its value to everyone, itself included, under the next sequence number. */
    method Broadcast(value: int)
      requires Valid()
      modifies this`outbox, this`transactionCounter
      ensures Valid() && transactionCounter == Wrap32(old(transactionCounter) + 1)
      ensures outbox == old(outbox)
                        + ToFirst(n, Instance(processIndex, old(transactionCounter)), Message(INITIAL, value))
      ensures forall handled | old(Accounted(handled)) :: Accounted(handled)
    {
      forall e: Envelope
        ensures ToFirst(n, Instance(processIndex, transactionCounter), Message(INITIAL, value))[e] > 0
                ==> e.m.stage == INITIAL
      {
        ToFirstReachesEachOnce(n, Instance(processIndex, transactionCounter), Message(INITIAL, value), e);
      }
      BroadcastMessage(Instance(processIndex, transactionCounter), Message(INITIAL, value));
      transactionCounter := Wrap32(transactionCounter + 1);
    }
  }
}
