/**
 * One instance of Bracha's reliable broadcast at one process, with first votes recorded by sender. The
 * counters of the source represent these records (see BrachaProcess).
 */
module Bracha {
  import opened Quorums

  datatype MessageStage = INITIAL | ECHO | READY | OTHER

  datatype Message = Message(stage: MessageStage, value: int)

  datatype Stage = Init | SentEcho | SentReady

  datatype State = State(stage: Stage, echoes: map<Id, int>, readies: map<Id, int>, received: nat)

  /** An instance nothing was heard of, one in the log, or one delivered and collected. */
  datatype Local = Fresh | Live(state: State) | Delivered(value: int)

  datatype Config = Config(n: nat, f: nat) {
    function ForEcho(): nat { Quorum(n, f) }
    function ForReady(): nat { f + 1 }
    function ForDelivery(): nat { 2 * f + 1 }
  }

  const NEW_STATE := State(Init, map[], map[], 0)

  function Register(l: Local): State
    requires !l.Delivered?
  {
    if l.Fresh? then NEW_STATE else l.state
  }

  /** Everything up to READY that has not been sent yet, in order. */
  function Promoted(st: State, v: int): (State, seq<Message>) {
    match st.stage
    case Init => (st.(stage := SentReady), [Message(ECHO, v), Message(READY, v)])
    case SentEcho => (st.(stage := SentReady), [Message(READY, v)])
    case SentReady => (st, [])
  }

  function OnInitial(st: State, v: int): (State, seq<Message>) {
    if st.stage == Init then (st.(stage := SentEcho), [Message(ECHO, v)]) else (st, [])
  }

  function OnEcho(c: Config, st: State, sender: Id, v: int): (State, seq<Message>) {
    if st.stage == SentReady || sender in st.echoes then (st, [])
    else
      var st := st.(echoes := st.echoes[sender := v]);
      if |Voters(st.echoes, v)| >= c.ForEcho() then Promoted(st, v) else (st, [])
  }

  /** The third part says whether the value is to be delivered. */
  function OnReady(c: Config, st: State, sender: Id, v: int): (State, seq<Message>, bool) {
    if sender in st.readies then (st, [], false)
    else
      var st := st.(readies := st.readies[sender := v]);
      var votes := |Voters(st.readies, v)|;
      var (st, out) := if votes >= c.ForReady() then Promoted(st, v) else (st, []);
      (st, out, votes >= c.ForDelivery())
  }

  function React(c: Config, st: State, sender: Id, m: Message): (State, seq<Message>, bool) {
    match m.stage
    case INITIAL => var (st, out) := OnInitial(st, m.value); (st, out, false)
    case ECHO => var (st, out) := OnEcho(c, st, sender, m.value); (st, out, false)
    case READY => OnReady(c, st, sender, m.value)
    case OTHER => (st, [], false)
  }

  function Counted(st: State): State {
    st.(received := st.received + 1)
  }

  /** The new state of an instance and the messages broadcast, in order, on handling one message. */
  function Handle(c: Config, l: Local, sender: Id, m: Message): (Local, seq<Message>) {
    if l.Delivered? then (l, [])
    else
      var (st, out, deliver) := React(c, Counted(Register(l)), sender, m);
      (if deliver then Delivered(m.value) else Live(st), out)
  }

  /** The instance after a sequence of messages from the given senders, and all it broadcast meanwhile. */
  function Play(c: Config, inputs: seq<(Id, Message)>): (Local, seq<Message>) {
    if inputs == [] then (Fresh, [])
    else
      var (l, sent) := Play(c, inputs[..|inputs| - 1]);
      var (sender, m) := inputs[|inputs| - 1];
      var (l, out) := Handle(c, l, sender, m);
      (l, sent + out)
  }

  /**
   * Whatever it is sent, a process broadcasts at most one ECHO and then at most one READY for an instance,
   * counts every message up to the delivering one, and speaks no more after it.
   */
  lemma {:induction false} SpeaksAtMostTwice(c: Config, inputs: seq<(Id, Message)>)
    ensures var (l, sent) := Play(c, inputs);
            && (l.Fresh? ==> inputs == [] && sent == [])
            && (l.Live? ==> l.state.received == |inputs|)
            && (l.Live? && l.state.stage == Init ==> sent == [])
            && (l.Live? && l.state.stage == SentEcho ==> |sent| == 1 && sent[0].stage == ECHO)
            && (l.Delivered? || (l.Live? && l.state.stage == SentReady) ==>
                  |sent| == 2 && sent[0].stage == ECHO && sent[1].stage == READY)
  {
    if inputs != [] {
      SpeaksAtMostTwice(c, inputs[..|inputs| - 1]);
    }
  }

  /** A delivery is final. */
  lemma {:induction false} DeliveryIsFinal(c: Config, inputs: seq<(Id, Message)>, more: seq<(Id, Message)>)
    requires Play(c, inputs).0.Delivered?
    ensures Play(c, inputs + more) == Play(c, inputs)
  {
    if more == [] {
      assert inputs + more == inputs;
    } else {
      var k := |more| - 1;
      DeliveryIsFinal(c, inputs, more[..k]);
      assert (inputs + more)[..|inputs + more| - 1] == inputs + more[..k];
      assert Play(c, inputs).1 + [] == Play(c, inputs).1;
    }
  }
}
