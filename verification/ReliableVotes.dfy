/**
 * Where an instance stands at a process, in numbers of votes among the protocol messages received for it: the two
 * stages are functions of these messages, and every phase goes out exactly when its stage is reached, to whom it
 * should and with a value that has the votes. No threshold is crossed without its consequence.
 */
module ReliableVotes {
  import opened GoIntegers
  import opened Quorums
  import opened Reliable
  import opened ReliableRuns
  import opened ReliableTraces
  import opened ReliableRoundTrip

  // ---------------------------------------------------------------- what has been received

  datatype Receipt = Receipt(sender: Id, m: ProtocolMessage)

  function ReceiptIn(c: Config, i: Input, b: Instance): seq<Receipt> {
    if i.OnProtocol? && i.b == b && i.sender < c.n then [Receipt(i.sender, i.m)] else []
  }

  /** The protocol messages received for b, in order. */
  function ReceivedOf(c: Config, inputs: seq<Input>, b: Instance): seq<Receipt> {
    if inputs == [] then []
    else ReceivedOf(c, inputs[..|inputs| - 1], b) + ReceiptIn(c, inputs[|inputs| - 1], b)
  }

  /**
   * What matters of the messages received: the first vote of every process at each stage, of own witnesses only where
   * they are the ones asked; the broadcasts that came with each kind; and the NOTIFYs.
   */
  datatype Ledger = Ledger(
    echoes: map<Id, int>,
    readies: map<Id, int>,
    witnessReadies: map<Id, int>,
    validates: map<Id, int>,
    brought: set<(Kind, Broadcast)>,
    told: bool,
    notices: set<(Broadcast, seq<Share>)>)

  predicate FromWitnesses(kind: Kind) {
    kind in {ECHO_FROM_WITNESS, READY_FROM_WITNESS, VALIDATE}
  }

  /** The ledger with one more message, of a kind that only own witnesses are heard on if from one. */
  function Noted(own: set<Id>, l: Ledger, x: Receipt): Ledger {
    var Receipt(q, ProtocolMessage(kind, bm, shares)) := x;
    if FromWitnesses(kind) && q !in own then l
    else
      Ledger(
        if kind == ECHO_FROM_PROCESS then Cast(l.echoes, q, bm.value) else l.echoes,
        if kind == READY_FROM_PROCESS then Cast(l.readies, q, bm.value) else l.readies,
        if kind == READY_FROM_WITNESS then Cast(l.witnessReadies, q, bm.value) else l.witnessReadies,
        if kind == VALIDATE then Cast(l.validates, q, bm.value) else l.validates,
        l.brought + {(kind, bm)},
        l.told || kind == ECHO_FROM_WITNESS,
        if kind == NOTIFY then l.notices + {(bm, shares)} else l.notices)
  }

  function LedgerOf(own: set<Id>, received: seq<Receipt>): Ledger {
    if received == [] then Ledger(map[], map[], map[], map[], {}, false, {})
    else Noted(own, LedgerOf(own, received[..|received| - 1]), received[|received| - 1])
  }

  /** So many votes for one value; a threshold is looked at on counting a vote, so that one is needed in any case. */
  ghost predicate Reached(votes: map<Id, int>, threshold: int) {
    exists v :: |Voters(votes, v)| >= 1 && |Voters(votes, v)| >= threshold
  }

  /** f + 1 READYs or ceil((n + f + 1) / 2) ECHOs from processes for one value. */
  ghost predicate ReadyDue(c: Config, l: Ledger) {
    Reached(l.readies, c.f + 1) || Reached(l.echoes, (c.n + c.f + 2) / 2)
  }

  /** ceil((n + f + 1) / 2) READYs from processes for one value. */
  ghost predicate ValidateDue(c: Config, l: Ledger) {
    Reached(l.readies, (c.n + c.f + 2) / 2)
  }

  /** Where a process stands as a witness. */
  ghost function WitnessLevel(c: Config, pot: set<Id>, l: Ledger): nat {
    if c.self !in pot then 0
    else if ValidateDue(c, l) then 3
    else if ReadyDue(c, l) then 2
    else if l.notices != {} then 1
    else 0
  }

  /** Where a process stands: u of its own witnesses validate a value, or are ready for one, or one of them told it. */
  ghost function ProcessLevel(c: Config, l: Ledger): nat {
    if Reached(l.validates, c.witnessThreshold) then 3
    else if Reached(l.witnessReadies, c.witnessThreshold) then 2
    else if l.told then 1
    else 0
  }

  // ---------------------------------------------------------------- the state of an instance

  /** Only the value of a vote that counts can come to reach a threshold by it. */
  lemma ReachedWith(votes: map<Id, int>, q: Id, v: int, threshold: int)
    ensures var k := |Voters(votes, v)| + 1;
            Reached(Cast(votes, q, v), threshold) <==> Reached(votes, threshold) || (q !in votes && k >= threshold)
    ensures q !in votes ==> |Voters(votes[q := v], v)| == |Voters(votes, v)| + 1
  {
    if q !in votes {
      forall w
        ensures |Voters(votes[q := v], w)| == |Voters(votes, w)| + if v == w then 1 else 0
      {
        VotersAfter(votes, q, v, w);
      }
      if Reached(votes, threshold) {
        var w :| |Voters(votes, w)| >= 1 && |Voters(votes, w)| >= threshold;
        assert |Voters(votes[q := v], w)| >= 1 && |Voters(votes[q := v], w)| >= threshold;
      }
      if Reached(votes[q := v], threshold) {
        var w :| |Voters(votes[q := v], w)| >= 1 && |Voters(votes[q := v], w)| >= threshold;
        assert w == v || (|Voters(votes, w)| >= 1 && |Voters(votes, w)| >= threshold);
      } else {
        assert |Voters(votes[q := v], v)| < threshold;
      }
    }
  }

  /** As a witness, an instance has counted what it still counts, and stands where that puts it. */
  ghost predicate WitnessFits(c: Config, st: State, l: Ledger) {
    && st.witnessStage == WitnessLevel(c, st.pot, l)
    && (c.self in st.pot ==> st.readyFromProcesses == l.readies)
    && (c.self in st.pot && st.witnessStage < SENT_READY_FROM_WITNESS ==> st.echoFromProcesses == l.echoes)
  }

  ghost predicate ProcessFits(c: Config, st: State, l: Ledger) {
    && st.stage == ProcessLevel(c, l)
    && (st.stage < SENT_READY_FROM_PROCESS ==> st.readyFromWitnesses == l.witnessReadies)
    && (st.stage < DELIVERED_STAGE ==> st.validateFromWitnesses == l.validates)
  }

  ghost predicate Fits(c: Config, st: State, l: Ledger) {
    WitnessFits(c, st, l) && ProcessFits(c, st, l)
  }

  /** The state with the stage that a delivery sets. */
  function Settle(r: Reaction): State {
    if r.verdict == Deliver then r.st.(stage := DELIVERED_STAGE) else r.st
  }

  lemma WitnessStays(c: Config, st: State, st': State, l: Ledger, l': Ledger)
    requires WitnessFits(c, st, l)
    requires st'.pot == st.pot && st'.witnessStage == st.witnessStage
    requires st'.echoFromProcesses == st.echoFromProcesses && st'.readyFromProcesses == st.readyFromProcesses
    requires c.self in st.pot ==> l'.readies == l.readies && l'.echoes == l.echoes && l'.notices == l.notices
    ensures WitnessFits(c, st', l')
  {
  }

  lemma ProcessStays(c: Config, st: State, st': State, l: Ledger, l': Ledger)
    requires ProcessFits(c, st, l) && st'.stage == st.stage
    requires st'.readyFromWitnesses == st.readyFromWitnesses && st'.validateFromWitnesses == st.validateFromWitnesses
    requires l'.witnessReadies == l.witnessReadies && l'.validates == l.validates && l'.told == l.told
    ensures ProcessFits(c, st', l')
  {
  }

  lemma NotedApart(own: set<Id>, l: Ledger, x: Receipt)
    ensures var l' := Noted(own, l, x);
            if FromWitnesses(x.m.kind)
            then l'.readies == l.readies && l'.echoes == l.echoes && l'.notices == l.notices
            else l'.witnessReadies == l.witnessReadies && l'.validates == l.validates && l'.told == l.told
  {
  }

  lemma NotifyFits(c: Config, b: Instance, st: State, l: Ledger, x: Receipt)
    requires WitnessFits(c, st, l) && x.m.kind == NOTIFY
    ensures var r := OnNotify(c, b, st, x.m.broadcast, x.m.shares);
            r.verdict == Crash || (r.verdict == Go && WitnessFits(c, r.st, Noted(st.own, l, x)))
  {
    var l' := Noted(st.own, l, x);
    assert (x.m.broadcast, x.m.shares) in l'.notices;
  }

  lemma EchoFromProcessFits(c: Config, b: Instance, st: State, l: Ledger, x: Receipt)
    requires WitnessFits(c, st, l) && x.m.kind == ECHO_FROM_PROCESS
    ensures var r := OnEchoFromProcess(c, b, st, x.sender, x.m.broadcast);
            r.verdict == Go && WitnessFits(c, r.st, Noted(st.own, l, x))
  {
    ReachedWith(l.echoes, x.sender, x.m.broadcast.value, (c.n + c.f + 2) / 2);
  }

  lemma ReadyFromProcessFits(c: Config, b: Instance, st: State, l: Ledger, x: Receipt)
    requires WitnessFits(c, st, l) && x.m.kind == READY_FROM_PROCESS && c.f < c.n && c.self in st.pot
    ensures var r := OnReadyFromProcess(c, b, st, x.sender, x.m.broadcast);
            r.verdict == Go && WitnessFits(c, r.st, Noted(st.own, l, x))
  {
    var v := x.m.broadcast.value;
    ReadyRaises(c, st.pot, st.own, l, x);
    VotesKept(x.sender, v, l.readies);
    if x.sender !in st.readyFromProcesses {
      var counted := st.(readyFromProcesses := st.readyFromProcesses[x.sender := v]);
      PromotedStage(c, b, counted, x.m.broadcast, |Voters(l.readies, v)| + 1);
    }
  }

  /** One more READY from a process, if it counts, may be enough for its value. */
  lemma ReadyRaises(c: Config, pot: set<Id>, own: set<Id>, l: Ledger, x: Receipt)
    requires x.m.kind == READY_FROM_PROCESS && c.f < c.n && c.self in pot
    ensures var before, k := WitnessLevel(c, pot, l), |Voters(l.readies, x.m.broadcast.value)| + 1;
            WitnessLevel(c, pot, Noted(own, l, x))
            == if x.sender in l.readies then before
               else if before == 3 || k >= (c.n + c.f + 2) / 2 then 3
               else if before == 2 || k >= c.f + 1 then 2
               else before
  {
    ReachedWith(l.readies, x.sender, x.m.broadcast.value, c.f + 1);
    ReachedWith(l.readies, x.sender, x.m.broadcast.value, (c.n + c.f + 2) / 2);
    LevelsOf(c, pot, l, Noted(own, l, x), |Voters(l.readies, x.m.broadcast.value)| + 1, x.sender !in l.readies);
  }

  lemma LevelsOf(c: Config, pot: set<Id>, l: Ledger, l': Ledger, k: nat, counts: bool)
    requires c.self in pot && (l'.notices == {} <==> l.notices == {})
    requires ValidateDue(c, l') <==> ValidateDue(c, l) || (counts && k >= (c.n + c.f + 2) / 2)
    requires ReadyDue(c, l') <==> ReadyDue(c, l) || (counts && k >= c.f + 1)
    ensures var before := WitnessLevel(c, pot, l);
            WitnessLevel(c, pot, l')
            == if !counts then before
               else if before == 3 || k >= (c.n + c.f + 2) / 2 then 3
               else if before == 2 || k >= c.f + 1 then 2
               else before
  {
  }

  lemma VotesKept(q: Id, v: int, votes: map<Id, int>)
    ensures q !in votes ==> |Voters(Cast(votes, q, v), v)| == |Voters(votes, v)| + 1
  {
    ReachedWith(votes, q, v, 0);
  }

  lemma PromotedStage(c: Config, b: Instance, st: State, bm: Broadcast, votes: nat)
    requires c.f < c.n && st.witnessStage <= SENT_VALIDATE
    ensures var r, before := Promoted(c, b, st, bm, votes), st.witnessStage;
            && r.verdict == Go
            && r.st == st.(witnessStage := if before == 3 || votes >= (c.n + c.f + 2) / 2 then 3
                                           else if before == 2 || votes >= c.f + 1 then 2
                                           else before)
  {
  }

  lemma EchoFromWitnessFits(c: Config, b: Instance, st: State, l: Ledger, x: Receipt)
    requires ProcessFits(c, st, l) && x.m.kind == ECHO_FROM_WITNESS
    ensures var r := OnEchoFromWitness(b, st, x.sender, x.m.broadcast, x.m.shares);
            r.verdict == Crash || (r.verdict == Go && ProcessFits(c, r.st, Noted(st.own, l, x)))
  {
  }

  lemma ReadyFromWitnessFits(c: Config, b: Instance, st: State, l: Ledger, x: Receipt)
    requires ProcessFits(c, st, l) && x.m.kind == READY_FROM_WITNESS
    ensures var r := OnReadyFromWitness(c, b, st, x.sender, x.m.broadcast);
            r.verdict == Go && ProcessFits(c, r.st, Noted(st.own, l, x))
  {
    ReachedWith(l.witnessReadies, x.sender, x.m.broadcast.value, c.witnessThreshold);
  }

  lemma ValidateFits(c: Config, st: State, l: Ledger, x: Receipt)
    requires ProcessFits(c, st, l) && x.m.kind == VALIDATE
    ensures var r := OnValidate(c, st, x.sender, x.m.broadcast);
            (r.verdict == Go || r.verdict == Deliver) && ProcessFits(c, Settle(r), Noted(st.own, l, x))
  {
    ReachedWith(l.validates, x.sender, x.m.broadcast.value, c.witnessThreshold);
  }

  lemma WitnessReactFits(c: Config, b: Instance, st: State, l: Ledger, x: Receipt)
    requires Fits(c, st, l) && c.f < c.n && !FromWitnesses(x.m.kind)
    ensures var r := React(c, b, st, x.sender, x.m);
            r.verdict != Crash ==> Fits(c, Settle(r), Noted(st.own, l, x))
  {
    var r := React(c, b, st, x.sender, x.m);
    ReactKeepsProcess(c, b, st, x);
    if r.verdict != Crash {
      NotedApart(st.own, l, x);
      ProcessStays(c, st, r.st, l, Noted(st.own, l, x));
      WitnessSideFits(c, b, st, l, x);
    }
  }

  lemma WitnessSideFits(c: Config, b: Instance, st: State, l: Ledger, x: Receipt)
    requires WitnessFits(c, st, l) && c.f < c.n && !FromWitnesses(x.m.kind)
    ensures var r := React(c, b, st, x.sender, x.m);
            r.verdict != Crash ==> WitnessFits(c, r.st, Noted(st.own, l, x))
  {
    if c.self !in st.pot {
      NoWitness(c, b, st, x);
      WitnessStays(c, st, st, l, Noted(st.own, l, x));
    } else {
      match x.m.kind
      case NOTIFY => NotifyFits(c, b, st, l, x);
      case ECHO_FROM_PROCESS => EchoFromProcessFits(c, b, st, l, x);
      case READY_FROM_PROCESS => ReadyFromProcessFits(c, b, st, l, x);
    }
  }

  lemma NoWitness(c: Config, b: Instance, st: State, x: Receipt)
    requires !FromWitnesses(x.m.kind) && c.self !in st.pot
    ensures React(c, b, st, x.sender, x.m) == Reaction(st, [], Go)
  {
  }

  lemma ReactKeepsProcess(c: Config, b: Instance, st: State, x: Receipt)
    requires !FromWitnesses(x.m.kind)
    ensures var r := React(c, b, st, x.sender, x.m);
            && r.verdict != Deliver && r.st.own == st.own && r.st.stage == st.stage
            && r.st.readyFromWitnesses == st.readyFromWitnesses
            && r.st.validateFromWitnesses == st.validateFromWitnesses
  {
    match x.m.kind
    case NOTIFY => assert React(c, b, st, x.sender, x.m) == OnNotify(c, b, st, x.m.broadcast, x.m.shares);
    case ECHO_FROM_PROCESS =>
    case READY_FROM_PROCESS => PromotedStays(c, b, st, x);
  }

  lemma PromotedStays(c: Config, b: Instance, st: State, x: Receipt)
    ensures var r := OnReadyFromProcess(c, b, st, x.sender, x.m.broadcast);
            && r.verdict == Go && r.st.own == st.own && r.st.stage == st.stage
            && r.st.readyFromWitnesses == st.readyFromWitnesses
            && r.st.validateFromWitnesses == st.validateFromWitnesses
  {
  }

  lemma ReactKeepsWitness(c: Config, b: Instance, st: State, x: Receipt)
    requires FromWitnesses(x.m.kind)
    ensures var r := React(c, b, st, x.sender, x.m);
            && r.st.pot == st.pot && r.st.witnessStage == st.witnessStage
            && r.st.echoFromProcesses == st.echoFromProcesses && r.st.readyFromProcesses == st.readyFromProcesses
  {
  }

  lemma ProcessReactFits(c: Config, b: Instance, st: State, l: Ledger, x: Receipt)
    requires Fits(c, st, l) && FromWitnesses(x.m.kind)
    ensures var r := React(c, b, st, x.sender, x.m);
            r.verdict != Crash ==> Fits(c, Settle(r), Noted(st.own, l, x))
  {
    var r := React(c, b, st, x.sender, x.m);
    ReactKeepsWitness(c, b, st, x);
    if r.verdict != Crash {
      NotedApart(st.own, l, x);
      WitnessStays(c, st, Settle(r), l, Noted(st.own, l, x));
      ProcessSideFits(c, b, st, l, x);
    }
  }

  lemma ProcessSideFits(c: Config, b: Instance, st: State, l: Ledger, x: Receipt)
    requires ProcessFits(c, st, l) && FromWitnesses(x.m.kind)
    ensures var r := React(c, b, st, x.sender, x.m);
            r.verdict != Crash ==> ProcessFits(c, Settle(r), Noted(st.own, l, x))
  {
    match x.m.kind
    case ECHO_FROM_WITNESS => EchoFromWitnessFits(c, b, st, l, x);
    case READY_FROM_WITNESS => ReadyFromWitnessFits(c, b, st, l, x);
    case VALIDATE => ValidateFits(c, st, l, x);
  }

  lemma ReactFits(c: Config, b: Instance, st: State, l: Ledger, x: Receipt)
    requires Fits(c, st, l) && c.f < c.n
    ensures var r := React(c, b, st, x.sender, x.m);
            r.verdict != Crash ==> Fits(c, Settle(r), Noted(st.own, l, x))
  {
    if FromWitnesses(x.m.kind) {
      ProcessReactFits(c, b, st, l, x);
    } else {
      WitnessReactFits(c, b, st, l, x);
    }
  }

  // ---------------------------------------------------------------- what goes out

  predicate StandsAt(stage: nat, witnessStage: nat, kind: Kind) {
    match kind
    case NOTIFY => false
    case ECHO_FROM_WITNESS => witnessStage == 1
    case ECHO_FROM_PROCESS => stage == 1
    case READY_FROM_WITNESS => witnessStage >= 2
    case READY_FROM_PROCESS => stage == 2
    case VALIDATE => witnessStage == 3
  }

  ghost predicate StandsAfter(c: Config, pot: set<Id>, l: Ledger, kind: Kind) {
    StandsAt(ProcessLevel(c, l), WitnessLevel(c, pot, l), kind)
  }

  /** At this moment or an earlier one, what had been received put the instance at the stage of this kind. */
  ghost predicate Due(c: Config, own: set<Id>, pot: set<Id>, received: seq<Receipt>, kind: Kind) {
    || StandsAfter(c, pot, LedgerOf(own, received), kind)
    || (received != [] && Due(c, own, pot, received[..|received| - 1], kind))
  }

  lemma OneMore(c: Config, own: set<Id>, pot: set<Id>, received: seq<Receipt>, x: Receipt, kind: Kind)
    ensures var l' := Noted(own, LedgerOf(own, received), x);
            && LedgerOf(own, received + [x]) == l'
            && (Due(c, own, pot, received + [x], kind)
                <==> Due(c, own, pot, received, kind) || StandsAfter(c, pot, l', kind))
  {
    assert (received + [x])[..|received|] == received;
  }

  lemma NothingDue(c: Config, own: set<Id>, pot: set<Id>, kind: Kind)
    ensures var l := LedgerOf(own, []);
            ProcessLevel(c, l) == WitnessLevel(c, pot, l) == 0 && !Due(c, own, pot, [], kind)
  {
    assert forall v :: Voters(map[], v) == {};
  }

  /** A phase has gone out once if it was due, and not otherwise. */
  ghost predicate SentIf(out: seq<Send>, b: Instance, kind: Kind, due: bool) {
    Count(out, b, kind) == if due then 1 else 0
  }

  lemma PhaseCount(c: Config, b: Instance, st: State, r: Reaction, bm: Broadcast, kind: Kind)
    requires Moves(c, b, st, r, bm) && kind != NOTIFY && r.verdict != Crash
    requires r.st.stage <= DELIVERED_STAGE && r.st.witnessStage <= SENT_VALIDATE
    ensures var after := Settle(r);
            Count(r.out, b, kind)
            == if StandsAt(after.stage, after.witnessStage, kind) && !StandsAt(st.stage, st.witnessStage, kind)
               then 1 else 0
  {
    CountAppended([], r.out, b, kind);
    assert [] + r.out == r.out;
    PhaseHits(c, b, st, r, bm, kind);
  }

  lemma PhaseHits(c: Config, b: Instance, st: State, r: Reaction, bm: Broadcast, kind: Kind)
    requires Moves(c, b, st, r, bm) && kind != NOTIFY && r.verdict != Crash
    requires r.st.stage <= DELIVERED_STAGE && r.st.witnessStage <= SENT_VALIDATE
    ensures var after := Settle(r);
            Hits(r.out, 0, b, kind) + Hits(r.out, 1, b, kind)
            == if StandsAt(after.stage, after.witnessStage, kind) && !StandsAt(st.stage, st.witnessStage, kind)
               then 1 else 0
  {
  }

  lemma SentStep(
    c: Config, b: Instance, st: State, r: Reaction, bm: Broadcast, l: Ledger, l': Ledger, out: seq<Send>, kind: Kind,
    due: bool)
    requires Fits(c, st, l) && Fits(c, Settle(r), l') && kind != NOTIFY
    requires Moves(c, b, st, r, bm) && r.verdict != Crash && Count(out + r.out, b, kind) <= 1
    requires SentIf(out, b, kind, due) && (StandsAfter(c, st.pot, l, kind) ==> due)
    ensures SentIf(out + r.out, b, kind, due || StandsAfter(c, st.pot, l', kind))
  {
    CountConcat(out, r.out, b, kind);
    PhaseCount(c, b, st, r, bm, kind);
  }

  /** To whom a message of each kind goes, and what must have come in for it. */
  predicate Warranted(c: Config, pot: set<Id>, l: Ledger, y: Send) {
    match y
    case ShareEach(_, bm, shares) => |shares| == c.n && NotifiedWith(l, bm, shares)
    case ToSet(_, _, Commitment(_)) => true
    case ToSet(_, to, Protocol(m)) =>
      var bm, v := m.broadcast, m.broadcast.value;
      match m.kind
      case NOTIFY => true
      case ECHO_FROM_WITNESS => false
      case ECHO_FROM_PROCESS => to == pot && (ECHO_FROM_WITNESS, bm) in l.brought
      case READY_FROM_WITNESS =>
        && to == Everyone(c.n)
        && (((READY_FROM_PROCESS, bm) in l.brought && |Voters(l.readies, v)| >= c.f + 1)
            || ((ECHO_FROM_PROCESS, bm) in l.brought && |Voters(l.echoes, v)| >= (c.n + c.f + 2) / 2))
      case READY_FROM_PROCESS =>
        to == pot && (READY_FROM_WITNESS, bm) in l.brought && |Voters(l.witnessReadies, v)| >= c.witnessThreshold
      case VALIDATE =>
        && to == Everyone(c.n)
        && (READY_FROM_PROCESS, bm) in l.brought && |Voters(l.readies, v)| >= (c.n + c.f + 2) / 2
  }

  /** The shares are those of a NOTIFY, one for each process. */
  predicate NotifiedWith(l: Ledger, bm: Broadcast, shares: seq<Share>) {
    exists d :: d in l.notices && d.0 == bm && shares <= d.1
  }

  /** A delivered broadcast came from an own witness, and u of them validate its value. */
  predicate DeliveredWith(c: Config, l: Ledger, bm: Broadcast) {
    (VALIDATE, bm) in l.brought && |Voters(l.validates, bm.value)| >= c.witnessThreshold
  }

  ghost predicate Gains(votes: map<Id, int>, votes': map<Id, int>) {
    forall v: int :: |Voters(votes, v)| <= |Voters(votes', v)|
  }

  ghost predicate Grows(l: Ledger, l': Ledger) {
    && l.brought <= l'.brought && l.notices <= l'.notices
    && Gains(l.echoes, l'.echoes) && Gains(l.readies, l'.readies)
    && Gains(l.witnessReadies, l'.witnessReadies) && Gains(l.validates, l'.validates)
  }

  lemma CastGains(votes: map<Id, int>, q: Id, u: int)
    ensures Gains(votes, Cast(votes, q, u)) && Gains(votes, votes)
  {
    forall v: int
      ensures |Voters(votes, v)| <= |Voters(Cast(votes, q, u), v)|
    {
      if q !in votes {
        VotersAfter(votes, q, u, v);
      }
    }
  }

  lemma NotedGrows(own: set<Id>, l: Ledger, x: Receipt)
    ensures Grows(l, Noted(own, l, x))
  {
    CastGains(l.echoes, x.sender, x.m.broadcast.value);
    CastGains(l.readies, x.sender, x.m.broadcast.value);
    CastGains(l.witnessReadies, x.sender, x.m.broadcast.value);
    CastGains(l.validates, x.sender, x.m.broadcast.value);
  }

  lemma StillWarranted(c: Config, pot: set<Id>, l: Ledger, l': Ledger, y: Send)
    requires Warranted(c, pot, l, y) && Grows(l, l')
    ensures Warranted(c, pot, l', y)
  {
  }

  ghost predicate AllWarranted(c: Config, pot: set<Id>, l: Ledger, out: seq<Send>, b: Instance) {
    forall y | y in out && y.instance == b :: Warranted(c, pot, l, y)
  }

  lemma NotifyWarranted(c: Config, b: Instance, st: State, l: Ledger, x: Receipt)
    requires x.m.kind == NOTIFY
    ensures var r := OnNotify(c, b, st, x.m.broadcast, x.m.shares);
            r.verdict != Crash ==> AllWarranted(c, st.pot, Noted(st.own, l, x), r.out, b)
  {
    assert (x.m.broadcast, x.m.shares) in Noted(st.own, l, x).notices;
  }

  lemma EchoFromWitnessWarranted(c: Config, b: Instance, st: State, l: Ledger, x: Receipt)
    requires x.m.kind == ECHO_FROM_WITNESS
    ensures var r := OnEchoFromWitness(b, st, x.sender, x.m.broadcast, x.m.shares);
            AllWarranted(c, st.pot, Noted(st.own, l, x), r.out, b)
  {
  }

  lemma EchoFromProcessWarranted(c: Config, b: Instance, st: State, l: Ledger, x: Receipt)
    requires WitnessFits(c, st, l) && x.m.kind == ECHO_FROM_PROCESS
    ensures var r := OnEchoFromProcess(c, b, st, x.sender, x.m.broadcast);
            AllWarranted(c, st.pot, Noted(st.own, l, x), r.out, b)
  {
  }

  /** What a READY that is counted may bring about. */
  lemma PromotedSends(c: Config, b: Instance, st: State, bm: Broadcast, votes: nat)
    ensures forall y | y in Promoted(c, b, st, bm, votes).out ::
              || (y == Broadcasting(c, b, READY_FROM_WITNESS, bm) && votes >= c.f + 1)
              || (y == Broadcasting(c, b, VALIDATE, bm) && votes >= (c.n + c.f + 2) / 2)
  {
  }

  lemma ReadyFromProcessWarranted(c: Config, b: Instance, st: State, l: Ledger, x: Receipt)
    requires WitnessFits(c, st, l) && x.m.kind == READY_FROM_PROCESS
    ensures var r := OnReadyFromProcess(c, b, st, x.sender, x.m.broadcast);
            AllWarranted(c, st.pot, Noted(st.own, l, x), r.out, b)
  {
    if c.self in st.pot && x.sender !in st.readyFromProcesses {
      var bm, votes := x.m.broadcast, st.readyFromProcesses[x.sender := x.m.broadcast.value];
      PromotedSends(c, b, st.(readyFromProcesses := votes), bm, |Voters(votes, bm.value)|);
    }
  }

  lemma ReadyFromWitnessWarranted(c: Config, b: Instance, st: State, l: Ledger, x: Receipt)
    requires ProcessFits(c, st, l) && x.m.kind == READY_FROM_WITNESS
    ensures var r := OnReadyFromWitness(c, b, st, x.sender, x.m.broadcast);
            AllWarranted(c, st.pot, Noted(st.own, l, x), r.out, b)
  {
  }

  lemma ReactWarranted(c: Config, b: Instance, st: State, l: Ledger, x: Receipt)
    requires Fits(c, st, l)
    ensures var r := React(c, b, st, x.sender, x.m);
            r.verdict != Crash ==> AllWarranted(c, st.pot, Noted(st.own, l, x), r.out, b)
  {
    match x.m.kind
    case NOTIFY => NotifyWarranted(c, b, st, l, x);
    case ECHO_FROM_WITNESS => EchoFromWitnessWarranted(c, b, st, l, x);
    case ECHO_FROM_PROCESS => EchoFromProcessWarranted(c, b, st, l, x);
    case READY_FROM_WITNESS => ReadyFromWitnessWarranted(c, b, st, l, x);
    case READY_FROM_PROCESS => ReadyFromProcessWarranted(c, b, st, l, x);
    case VALIDATE =>
  }

  lemma DeliversWith(c: Config, b: Instance, st: State, l: Ledger, x: Receipt)
    requires ProcessFits(c, st, l) && React(c, b, st, x.sender, x.m).verdict == Deliver
    ensures DeliveredWith(c, Noted(st.own, l, x), x.m.broadcast)
  {
    OnlyValidatesDeliver(c, b, st, x);
    ValidateDelivers(c, st, l, x);
  }

  lemma ValidateDelivers(c: Config, st: State, l: Ledger, x: Receipt)
    requires ProcessFits(c, st, l) && x.m.kind == VALIDATE
    requires OnValidate(c, st, x.sender, x.m.broadcast).verdict == Deliver
    ensures DeliveredWith(c, Noted(st.own, l, x), x.m.broadcast)
  {
  }

  lemma OnlyValidatesDeliver(c: Config, b: Instance, st: State, x: Receipt)
    ensures React(c, b, st, x.sender, x.m).verdict == Deliver ==> x.m.kind == VALIDATE
  {
    if !FromWitnesses(x.m.kind) {
      ReactKeepsProcess(c, b, st, x);
    }
  }

  // ---------------------------------------------------------------- what one input does to an instance

  ghost predicate Unopened(out: seq<Send>, b: Instance) {
    forall y, kind | y in out && kind != NOTIFY :: !Opens(y, b, kind)
  }

  /** A message for b has led to the state of the reaction, settled by a delivery if there was one. */
  ghost predicate Reacted(c: Config, p: Process, s: Step, x: Receipt, b: Instance)
    requires c.Sound()
  {
    var r := React(c, b, Counted(Register(c, p, b)), x.sender, x.m);
    && r.verdict != Crash && b in s.p.log && SameStages(Settle(r), s.p.log[b])
    && s.p.delivered == (if r.verdict == Deliver then p.delivered[b := x.m.broadcast] else p.delivered)
    && exists rest :: s.out == r.out + rest && OnlyCommitments(rest)
  }

  /** Nothing of the kind: b has kept its stages and votes, or been given a new state, or still has none. */
  ghost predicate Rested(c: Config, p: Process, s: Step, b: Instance)
    requires c.Sound()
  {
    && Unopened(s.out, b)
    && (b in s.p.delivered <==> b in p.delivered)
    && (b in p.delivered ==> s.p.delivered[b] == p.delivered[b])
    && (b in p.log ==> b in s.p.log)
    && (b in s.p.log ==> SameStages(Register(c, p, b), s.p.log[b]))
  }

  ghost predicate Stepped(c: Config, p: Process, s: Step, i: Input, b: Instance)
    requires c.Sound()
  {
    if ReceiptIn(c, i, b) == [] then Rested(c, p, s, b) else Reacted(c, p, s, ReceiptIn(c, i, b)[0], b)
  }

  lemma DeliveryKeepsState(c: Config, p: Process, b: Instance, bm: Broadcast)
    requires c.Sound() && c.mixingTime >= 1
    requires !p.halted && b in p.log && b !in p.committed && p.log[b].stage < DELIVERED_STAGE
    ensures var p' := StageSet(DeliverInstance(c, p, b, bm).p, b);
            !p'.halted ==>
              && b in p'.log && SameStages(p.log[b].(stage := DELIVERED_STAGE), p'.log[b])
              && p'.delivered == p.delivered[b := bm]
  {
    var q := Recorded(p, b, bm);
    var r := Replay(c, q, b, p.log[b].pending).p;
    JustRecorded(c, p, b, bm);
    ReplayEffect(c, q, b, p.log[b].pending);
    DeliverEffect(c, p, b, bm);
    assert StageSet(DeliverInstance(c, p, b, bm).p, b) == Finished(c, r, b);
    if !r.halted {
      FinishedUp(c, r, b);
    }
  }

  lemma ReactionReacts(c: Config, p: Process, x: Receipt, b: Instance, r: Reaction)
    requires c.Sound() && c.mixingTime >= 1 && !p.halted && b !in p.committed
    requires r == React(c, b, Counted(Register(c, p, b)), x.sender, x.m)
    ensures var s := ApplyProtocol(c, p, b, x.m.broadcast, r); !s.p.halted ==> Reacted(c, p, s, x, b)
  {
    ReactMoves(c, b, Counted(Register(c, p, b)), x.sender, x.m);
    ReactionAdvances(c, p, b, x.m.broadcast, r);
    if !ApplyProtocol(c, p, b, x.m.broadcast, r).p.halted {
      ReactionSettles(c, p, b, x.m.broadcast, r);
    }
  }

  lemma ReactionSettles(c: Config, p: Process, b: Instance, bm: Broadcast, r: Reaction)
    requires c.Sound() && c.mixingTime >= 1 && !p.halted && b !in p.committed
    requires !r.verdict.CommitTo? && (r.verdict == Deliver ==> r.st.stage < DELIVERED_STAGE)
    requires !ApplyProtocol(c, p, b, bm, r).p.halted
    ensures var p' := ApplyProtocol(c, p, b, bm, r).p;
            && r.verdict != Crash && b in p'.log && SameStages(Settle(r), p'.log[b])
            && p'.delivered == (if r.verdict == Deliver then p.delivered[b := bm] else p.delivered)
  {
    if r.verdict == Deliver {
      DeliveryKeepsState(c, WithState(p, b, r.st), b, bm);
    }
  }

  lemma ProtocolSteps(c: Config, p: Process, x: Receipt, b: Instance)
    requires c.Sound() && c.mixingTime >= 1 && !p.halted && b !in p.committed
    ensures var s := HandleProtocol(c, p, x.sender, b, x.m); !s.p.halted ==> Reacted(c, p, s, x, b)
  {
    if b.author < c.n {
      var r := React(c, b, Counted(Register(c, p, b)), x.sender, x.m);
      ReactionReacts(c, p, x, b, r);
      assert HandleProtocol(c, p, x.sender, b, x.m) == ApplyProtocol(c, p, b, x.m.broadcast, r);
    }
  }

  lemma CommitmentSteps(c: Config, p: Process, sender: Id, b: Instance, m: CommitmentMessage)
    requires c.Sound() && !p.halted && b !in p.committed
    ensures var s := HandleCommitment(c, p, sender, b, m);
            !s.p.halted && b !in s.p.committed ==> Rested(c, p, s, b)
  {
    if b.author < c.n {
      var st := Register(c, p, b);
      var commit := CommitmentEffect(c, p, sender, b, m, st);
      CommitmentOutput(c, p, sender, b, m, st);
      assert HandleCommitment(c, p, sender, b, m) == CommitmentOn(c, p, sender, b, m, st);
    }
  }

  lemma AskSteps(c: Config, p: Process, value: int32, x: seq<int32>)
    requires c.Sound() && !p.halted && Possible(c, p, Ask(value, x))
    ensures Rested(c, p, HandleBroadcast(c, p, value, x), Instance(c.self, p.transactionCounter))
  {
    var b, st := Instance(c.self, p.transactionCounter), FreshState(c, p);
    assert Register(c, p, b) == st;
    BroadcastLeaves(c, p, value, x, st);
    KeepsStages(st);
  }

  lemma KeepsStages(st: State)
    ensures SameStages(st, st)
  {
  }

  lemma BroadcastLeaves(c: Config, p: Process, value: int32, x: seq<int32>, st: State)
    requires |x| == c.DataShares() <= c.n
    ensures var b, s := Instance(c.self, p.transactionCounter), BroadcastOn(c, p, value, x, st);
            && Unopened(s.out, b) && s.p.delivered == p.delivered
            && (b in s.p.log <==> s.out != [] || b in p.log)
            && (b in s.p.log && b !in p.log ==> s.p.log[b] == st)
  {
  }

  lemma ElsewhereRests(c: Config, p: Process, i: Input, b: Instance)
    requires c.Sound() && c.mixingTime >= 1 && !p.halted && Subject(c, p, i) != b
    ensures Unopened(Take(c, p, i).out, b)
  {
    if Possible(c, p, i) {
      match i
      case OnProtocol(sender, d, m) => ProtocolElsewhereRests(c, p, sender, d, m, b);
      case OnCommitment(sender, d, m) =>
        if d !in p.committed && d.author < c.n {
          CommitmentOutput(c, p, sender, d, m, Register(c, p, d));
        }
      case Ask(value, x) =>
    }
  }

  lemma ProtocolElsewhereRests(c: Config, p: Process, sender: Id, d: Instance, m: ProtocolMessage, b: Instance)
    requires c.Sound() && c.mixingTime >= 1 && !p.halted && d != b
    ensures Unopened(HandleProtocol(c, p, sender, d, m).out, b)
  {
    if d !in p.committed && d.author < c.n {
      var st := Counted(Register(c, p, d));
      var r := React(c, d, st, sender, m);
      ReactMoves(c, d, st, sender, m);
      PhasesStayHome(c, d, st, r, m.broadcast);
      ReactionAdvances(c, p, d, m.broadcast, r);
      assert HandleProtocol(c, p, sender, d, m) == ApplyProtocol(c, p, d, m.broadcast, r);
    }
  }

  /** What an input does to b, while the process stays up and b is not committed. */
  lemma TakeSteps(c: Config, p: Process, i: Input, b: Instance)
    requires c.Sound() && c.mixingTime >= 1 && !p.halted && b !in p.committed
    ensures var s := Take(c, p, i); !s.p.halted && b !in s.p.committed ==> Stepped(c, p, s, i, b)
  {
    if Subject(c, p, i) != b {
      TakeElsewhere(c, p, i, b);
      ElsewhereRests(c, p, i, b);
    } else if Possible(c, p, i) {
      match i
      case OnProtocol(sender, _, m) => ProtocolSteps(c, p, Receipt(sender, m), b);
      case OnCommitment(sender, _, m) => CommitmentSteps(c, p, sender, b, m);
      case Ask(value, x) => AskSteps(c, p, value, x);
    }
  }

  // ---------------------------------------------------------------- runs

  /** What has come in accounts for the state and for what has gone out. */
  ghost predicate Accounted(c: Config, st: State, received: seq<Receipt>, out: seq<Send>, b: Instance) {
    var l := LedgerOf(st.own, received);
    && Fits(c, st, l)
    && (forall kind | kind != NOTIFY :: SentIf(out, b, kind, Due(c, st.own, st.pot, received, kind)))
    && AllWarranted(c, st.pot, l, out, b)
  }

  /** While b is not committed: with a state it is accounted for, and without one there has been nothing. */
  ghost predicate StandsFor(c: Config, p: Process, received: seq<Receipt>, out: seq<Send>, b: Instance) {
    if b in p.log then
      && Accounted(c, p.log[b], received, out, b)
      && (b in p.delivered ==> DeliveredWith(c, LedgerOf(p.log[b].own, received), p.delivered[b]))
    else received == [] && Unopened(out, b)
  }

  lemma FreshAccounted(c: Config, st: State, out: seq<Send>, b: Instance)
    requires Unopened(out, b) && st.stage == INITIAL_STAGE && st.witnessStage == INITIAL_WITNESS_STAGE
    requires st.echoFromProcesses == st.readyFromProcesses == map[]
    requires st.readyFromWitnesses == st.validateFromWitnesses == map[]
    ensures Accounted(c, st, [], out, b)
  {
    forall kind | kind != NOTIFY
      ensures Count(out, b, kind) == 0 && !Due(c, st.own, st.pot, [], kind)
    {
      NothingDue(c, st.own, st.pot, kind);
      UnopenedCount(out, b, kind);
    }
    NothingDue(c, st.own, st.pot, NOTIFY);
    UnopenedWarranted(c, st.pot, LedgerOf(st.own, []), out, b);
  }

  lemma UnopenedWarranted(c: Config, pot: set<Id>, l: Ledger, out: seq<Send>, b: Instance)
    requires Unopened(out, b)
    ensures AllWarranted(c, pot, l, out, b)
  {
    forall y | y in out && y.instance == b
      ensures Warranted(c, pot, l, y)
    {
      OpensSomething(y, b);
    }
  }

  lemma OpensSomething(y: Send, b: Instance)
    requires y.instance == b && forall kind | kind != NOTIFY :: !Opens(y, b, kind)
    ensures y.ToSet? && (y.content.Protocol? ==> y.content.m.kind == NOTIFY)
  {
    if y.ShareEach? {
      assert Opens(y, b, ECHO_FROM_WITNESS);
    } else if y.content.Protocol? {
      assert Opens(y, b, y.content.m.kind);
    }
  }

  lemma {:induction false} UnopenedCount(out: seq<Send>, b: Instance, kind: Kind)
    requires Unopened(out, b) && kind != NOTIFY
    ensures Count(out, b, kind) == 0
  {
    if out != [] {
      UnopenedCount(out[..|out| - 1], b, kind);
    }
  }

  lemma SameAccount(
    c: Config, st: State, st': State, received: seq<Receipt>, out: seq<Send>, more: seq<Send>, b: Instance)
    requires Accounted(c, st, received, out, b) && SameStages(st, st') && Unopened(more, b)
    ensures Accounted(c, st', received, out + more, b)
  {
    forall kind | kind != NOTIFY
      ensures Count(out + more, b, kind) == Count(out, b, kind)
    {
      CountConcat(out, more, b, kind);
      UnopenedCount(more, b, kind);
    }
    UnopenedWarranted(c, st.pot, LedgerOf(st.own, received), more, b);
  }

  lemma OnceOfKind(out: seq<Send>, b: Instance, kind: Kind)
    requires AtMostOnce(out, b) && kind != NOTIFY
    ensures Count(out, b, kind) <= 1
  {
    match kind
    case ECHO_FROM_WITNESS =>
    case ECHO_FROM_PROCESS =>
    case READY_FROM_WITNESS =>
    case READY_FROM_PROCESS =>
    case VALIDATE =>
  }

  lemma ReactionAccounted(
    c: Config, b: Instance, st: State, received: seq<Receipt>, x: Receipt, out: seq<Send>)
    requires c.f < c.n && Accounted(c, st, received, out, b)
    requires var r := React(c, b, st, x.sender, x.m); r.verdict != Crash && AtMostOnce(out + r.out, b)
    ensures var r := React(c, b, st, x.sender, x.m); Accounted(c, Settle(r), received + [x], out + r.out, b)
  {
    var r, l := React(c, b, st, x.sender, x.m), LedgerOf(st.own, received);
    ReactMoves(c, b, st, x.sender, x.m);
    ReactFits(c, b, st, l, x);
    OneMore(c, st.own, st.pot, received, x, NOTIFY);
    SentOn(c, b, st, r, x, received, out);
    ReactWarranted(c, b, st, l, x);
    NotedGrows(st.own, l, x);
    forall y | y in out && y.instance == b
      ensures Warranted(c, st.pot, Noted(st.own, l, x), y)
    {
      StillWarranted(c, st.pot, l, Noted(st.own, l, x), y);
    }
  }

  lemma SentOn(
    c: Config, b: Instance, st: State, r: Reaction, x: Receipt, received: seq<Receipt>, out: seq<Send>)
    requires Accounted(c, st, received, out, b) && AtMostOnce(out + r.out, b)
    requires Fits(c, Settle(r), Noted(st.own, LedgerOf(st.own, received), x))
    requires Moves(c, b, st, r, x.m.broadcast) && r.verdict != Crash
    ensures forall kind | kind != NOTIFY ::
              SentIf(out + r.out, b, kind, Due(c, st.own, st.pot, received + [x], kind))
  {
    var l := LedgerOf(st.own, received);
    forall kind | kind != NOTIFY
      ensures SentIf(out + r.out, b, kind, Due(c, st.own, st.pot, received + [x], kind))
    {
      var due := Due(c, st.own, st.pot, received, kind);
      OnceOfKind(out + r.out, b, kind);
      OneMore(c, st.own, st.pot, received, x, kind);
      SentStep(c, b, st, r, x.m.broadcast, l, Noted(st.own, l, x), out, kind, due);
    }
  }

  lemma OnlyCommitmentsUnopened(out: seq<Send>, b: Instance)
    requires OnlyCommitments(out)
    ensures Unopened(out, b)
  {
  }

  /** Trailing commitments open no phase. */
  lemma OnceBefore(out: seq<Send>, rest: seq<Send>, b: Instance)
    requires AtMostOnce(out + rest, b) && OnlyCommitments(rest)
    ensures AtMostOnce(out, b)
  {
    CountConcat(out, rest, b, ECHO_FROM_WITNESS);
    CountConcat(out, rest, b, ECHO_FROM_PROCESS);
    CountConcat(out, rest, b, READY_FROM_WITNESS);
    CountConcat(out, rest, b, READY_FROM_PROCESS);
    CountConcat(out, rest, b, VALIDATE);
    NoPhases(rest);
  }

  lemma RegisterAccounted(c: Config, p: Process, received: seq<Receipt>, out: seq<Send>, b: Instance)
    requires c.Sound() && StandsFor(c, p, received, out, b)
    ensures Accounted(c, Counted(Register(c, p, b)), received, out, b)
  {
    var st := Register(c, p, b);
    if b !in p.log {
      FreshAccounted(c, st, out, b);
    }
    assert out + [] == out;
    SameAccount(c, st, Counted(st), received, out, [], b);
  }

  lemma ReactedStands(
    c: Config, p: Process, s: Step, received: seq<Receipt>, out: seq<Send>, x: Receipt, b: Instance)
    requires c.Sound() && StandsFor(c, p, received, out, b) && Reacted(c, p, s, x, b)
    requires b in p.delivered ==> b in p.log
    requires AtMostOnce(out + s.out, b)
    ensures StandsFor(c, s.p, received + [x], out + s.out, b)
  {
    var st := Counted(Register(c, p, b));
    var r := React(c, b, st, x.sender, x.m);
    var rest :| s.out == r.out + rest && OnlyCommitments(rest);
    RegisterAccounted(c, p, received, out, b);
    Regroup(out, r.out, rest);
    OnceBefore(out + r.out, rest, b);
    ReactionAccounted(c, b, st, received, x, out);
    OnlyCommitmentsUnopened(rest, b);
    SameAccount(c, Settle(r), s.p.log[b], received + [x], out + r.out, rest, b);
    ReactMoves(c, b, st, x.sender, x.m);
    if r.verdict == Deliver {
      DeliversWith(c, b, st, LedgerOf(st.own, received), x);
    }
    OneMore(c, st.own, st.pot, received, x, NOTIFY);
    NotedGrows(st.own, LedgerOf(st.own, received), x);
  }

  lemma RestedStands(c: Config, p: Process, s: Step, received: seq<Receipt>, out: seq<Send>, b: Instance)
    requires c.Sound() && StandsFor(c, p, received, out, b) && Rested(c, p, s, b)
    requires b in p.delivered ==> b in p.log
    ensures StandsFor(c, s.p, received, out + s.out, b)
  {
    if b in s.p.log {
      RegisterAccounted(c, p, received, out, b);
      SameAccount(c, Counted(Register(c, p, b)), s.p.log[b], received, out, s.out, b);
    }
  }

  lemma {:induction false} RunStands(c: Config, inputs: seq<Input>, b: Instance)
    requires c.Sound() && c.mixingTime >= 1
    requires !Run(c, inputs).p.halted && b !in Run(c, inputs).p.committed
    ensures StandsFor(c, Run(c, inputs).p, ReceivedOf(c, inputs, b), Run(c, inputs).out, b)
  {
    if inputs != [] {
      UpBefore(c, inputs);
      StillCommitted(c, inputs, b);
      RunStands(c, inputs[..|inputs| - 1], b);
      LastStands(c, inputs, b);
    }
  }

  lemma LastStands(c: Config, inputs: seq<Input>, b: Instance)
    requires c.Sound() && c.mixingTime >= 1 && inputs != []
    requires !Run(c, inputs).p.halted && b !in Run(c, inputs).p.committed
    requires var before := inputs[..|inputs| - 1];
             && !Run(c, before).p.halted && b !in Run(c, before).p.committed
             && StandsFor(c, Run(c, before).p, ReceivedOf(c, before, b), Run(c, before).out, b)
    ensures StandsFor(c, Run(c, inputs).p, ReceivedOf(c, inputs, b), Run(c, inputs).out, b)
  {
    var before, i := inputs[..|inputs| - 1], inputs[|inputs| - 1];
    var p, out, received := Run(c, before).p, Run(c, before).out, ReceivedOf(c, before, b);
    var s := Take(c, p, i);
    assert Run(c, inputs) == Step(s.p, out + s.out);
    assert ReceivedOf(c, inputs, b) == received + ReceiptIn(c, i, b);
    RunKeepsInv(c, before);
    SendOnce(c, inputs, b);
    TakeSteps(c, p, i, b);
    if ReceiptIn(c, i, b) == [] {
      assert received + [] == received;
      RestedStands(c, p, s, received, out, b);
    } else {
      ReactedStands(c, p, s, received, out, ReceiptIn(c, i, b)[0], b);
    }
  }

  /**
   * Exactly where an instance stands, in every run, while it has its state: the process and the witness stage are those
   * that the votes received put it at, each phase has gone out once if they ever put it at its stage and not otherwise,
   * to whom it should and with a value that has the votes, and a delivered value is one that u own witnesses validate.
   */
  lemma StagesAreCounts(c: Config, inputs: seq<Input>, b: Instance)
    requires c.Sound() && c.mixingTime >= 1 && !Run(c, inputs).p.halted && b in Run(c, inputs).p.log
    ensures var p, out, received := Run(c, inputs).p, Run(c, inputs).out, ReceivedOf(c, inputs, b);
            var st, l := p.log[b], LedgerOf(p.log[b].own, received);
            && st.stage == ProcessLevel(c, l) && st.witnessStage == WitnessLevel(c, st.pot, l)
            && (forall kind | kind != NOTIFY ::
                  Count(out, b, kind) == if Due(c, st.own, st.pot, received, kind) then 1 else 0)
            && AllWarranted(c, st.pot, l, out, b)
            && (b in p.delivered <==> Reached(l.validates, c.witnessThreshold))
            && (b in p.delivered ==> DeliveredWith(c, l, p.delivered[b]))
  {
    RunKeepsInv(c, inputs);
    LoggedIsOpen(c, Run(c, inputs).p, b);
    RunStands(c, inputs, b);
  }

  lemma LoggedIsOpen(c: Config, p: Process, b: Instance)
    requires Inv(c, p) && !p.halted && b in p.log
    ensures b !in p.committed && (p.log[b].stage == DELIVERED_STAGE <==> b in p.delivered)
  {
  }
}
