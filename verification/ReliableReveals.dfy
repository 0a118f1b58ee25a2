/**
 * What a witness with an honest author's ciphertexts says of the secret, DONE or FAILED, and where its reveal stands:
 * both follow from the commitment messages it has taken in, whether or not the hash delivered is the author's.
 */
module ReliableReveals {
  import opened GoIntegers
  import opened Options
  import opened Quorums
  import opened Reliable
  import opened ReliableRuns
  import opened ReliableSecrets
  import opened ReliableTraces

  // ---------------------------------------------------------------- what has been heard of an instance

  function HeardIn(c: Config, i: Input, b: Instance): seq<Pending> {
    if i.OnCommitment? && i.b == b && i.sender < c.n then [Pending(i.sender, i.c)] else []
  }

  /** The commitment messages received for b, in order. */
  function Heard(c: Config, inputs: seq<Input>, b: Instance): seq<Pending> {
    if inputs == [] then []
    else Heard(c, inputs[..|inputs| - 1], b) + HeardIn(c, inputs[|inputs| - 1], b)
  }

  /** A committed instance takes in no more. */
  function TakenIn(c: Config, p: Process, i: Input, b: Instance): seq<Pending> {
    if b in p.committed then [] else HeardIn(c, i, b)
  }

  /** Those of them that came before b was committed. */
  ghost function Taken(c: Config, inputs: seq<Input>, b: Instance): (taken: seq<Pending>)
    requires c.Sound()
    ensures forall d | d in taken :: d.sender < c.n
  {
    if inputs == [] then []
    else
      var k := |inputs| - 1;
      Taken(c, inputs[..k], b) + TakenIn(c, Run(c, inputs[..k]).p, inputs[k], b)
  }

  predicate ToldOf(heard: seq<Pending>, xHash: int32) {
    exists d :: d in heard && d.m.Done? && HashOf(d.m.x) == xHash
  }

  predicate FailureIn(heard: seq<Pending>) {
    exists d :: d in heard && d.m.Failed?
  }

  /** A FAILED, or a DONE with the delivered hash, ends the collection of reveals. */
  predicate Decided(heard: seq<Pending>, xHash: int32) {
    ToldOf(heard, xHash) || FailureIn(heard)
  }

  /** Who revealed before that. */
  function Revealers(heard: seq<Pending>, xHash: int32): set<Id> {
    if heard == [] then {}
    else
      var before, d := heard[..|heard| - 1], heard[|heard| - 1];
      Revealers(before, xHash) + if d.m.Reveal? && !Decided(before, xHash) then {d.sender} else {}
  }

  predicate Rebuilt(c: Config, heard: seq<Pending>, xHash: int32) {
    |Revealers(heard, xHash)| >= 2 * c.f + 1
  }

  datatype Answer = SaidDone | SaidFailed

  /** What a witness owes the others when x is the author's secret and xHash was delivered. */
  predicate Due(c: Config, heard: seq<Pending>, x: seq<int32>, xHash: int32, a: Answer) {
    match a
    case SaidDone => ToldOf(heard, xHash) || (HashOf(x) == xHash && Rebuilt(c, heard, xHash))
    case SaidFailed => FailureIn(heard) || (HashOf(x) != xHash && Rebuilt(c, heard, xHash))
  }

  /** Where the reveal stands: the last DONE or FAILED to be taken in, or what the shares gave before. */
  function Standing(c: Config, heard: seq<Pending>, x: seq<int32>, xHash: int32): RevealStage {
    if heard == [] then InitialRevealStage
    else
      var before, m := Standing(c, heard[..|heard| - 1], x, xHash), heard[|heard| - 1].m;
      match m
      case Failed => SentFailedToProcesses
      case Done(y) => if HashOf(y) == xHash then SentDoneToProcesses else before
      case Reveal(_) =>
        if before == InitialRevealStage && Rebuilt(c, heard, xHash) then Conclusion(x, xHash) else before
  }

  lemma HeardOneMore(heard: seq<Pending>, d: Pending, xHash: int32)
    ensures ToldOf(heard + [d], xHash) <==> ToldOf(heard, xHash) || (d.m.Done? && HashOf(d.m.x) == xHash)
    ensures FailureIn(heard + [d]) <==> FailureIn(heard) || d.m.Failed?
    ensures Revealers(heard + [d], xHash)
            == Revealers(heard, xHash) + if d.m.Reveal? && !Decided(heard, xHash) then {d.sender} else {}
  {
    assert (heard + [d])[..|heard|] == heard;
    assert d in heard + [d];
  }

  lemma DueGrows(c: Config, heard: seq<Pending>, d: Pending, x: seq<int32>, xHash: int32, a: Answer)
    ensures Rebuilt(c, heard, xHash) ==> Rebuilt(c, heard + [d], xHash)
    ensures Due(c, heard, x, xHash, a) ==> Due(c, heard + [d], x, xHash, a)
  {
    HeardOneMore(heard, d, xHash);
    SubsetCount(Revealers(heard, xHash), Revealers(heard + [d], xHash));
  }

  lemma StandingAfter(c: Config, heard: seq<Pending>, d: Pending, x: seq<int32>, xHash: int32)
    ensures Standing(c, heard + [d], x, xHash) ==
            match d.m {
              case Failed => SentFailedToProcesses
              case Done(y) => if HashOf(y) == xHash then SentDoneToProcesses else Standing(c, heard, x, xHash)
              case Reveal(_) =>
                if Standing(c, heard, x, xHash) == InitialRevealStage && Rebuilt(c, heard + [d], xHash)
                then Conclusion(x, xHash) else Standing(c, heard, x, xHash)
            }
  {
    assert (heard + [d])[..|heard|] == heard;
  }

  /** The reveal is open while nothing has decided it, and closed only by what is then due. */
  lemma {:induction false} StandingMeans(c: Config, heard: seq<Pending>, x: seq<int32>, xHash: int32)
    ensures var s := Standing(c, heard, x, xHash);
            && (s == InitialRevealStage <==> !Decided(heard, xHash) && !Rebuilt(c, heard, xHash))
            && (s == SentDoneToProcesses ==> Due(c, heard, x, xHash, SaidDone))
            && (s == SentFailedToProcesses ==> Due(c, heard, x, xHash, SaidFailed))
            && (s == InitialRevealStage || s == SentDoneToProcesses || s == SentFailedToProcesses)
  {
    if heard != [] {
      var before, d := heard[..|heard| - 1], heard[|heard| - 1];
      assert heard == before + [d];
      StandingMeans(c, before, x, xHash);
      HeardOneMore(before, d, xHash);
      DueGrows(c, before, d, x, xHash, SaidDone);
      DueGrows(c, before, d, x, xHash, SaidFailed);
      StandingAfter(c, before, d, x, xHash);
    }
  }

  // ---------------------------------------------------------------- what a witness says

  predicate Says(y: Send, b: Instance, a: Answer) {
    && y.ToSet? && y.instance == b && y.content.Commitment?
    && (if a == SaidDone then y.content.c.Done? else y.content.c.Failed?)
  }

  ghost predicate Silent(out: seq<Send>, b: Instance, a: Answer) {
    forall y | y in out :: !Says(y, b, a)
  }

  /** It is said to every process. */
  ghost predicate Heralded(c: Config, out: seq<Send>, b: Instance, a: Answer) {
    exists y :: y in out && Says(y, b, a) && y.to == Everyone(c.n)
  }

  ghost predicate Quiet(out: seq<Send>, b: Instance) {
    Silent(out, b, SaidDone) && Silent(out, b, SaidFailed)
  }

  /** A DONE carries the author's secret or one heard in a DONE, and always one with the delivered hash. */
  ghost predicate TellsOnly(out: seq<Send>, b: Instance, heard: seq<Pending>, x: seq<int32>, xHash: int32) {
    forall y | y in out && Says(y, b, SaidDone) ::
      && HashOf(y.content.c.x) == xHash
      && (y.content.c.x == x || exists d :: d in heard && d.m == y.content.c)
  }

  /** The outcome of what has been heard: each answer is given to everyone if it is due, and to nobody otherwise. */
  ghost predicate Outcome(
    c: Config, b: Instance, out: seq<Send>, heard: seq<Pending>, x: seq<int32>, xHash: int32)
  {
    && TellsOnly(out, b, heard, x, xHash)
    && Given(c, b, out, heard, x, xHash, SaidDone)
    && Given(c, b, out, heard, x, xHash, SaidFailed)
  }

  ghost predicate Given(
    c: Config, b: Instance, out: seq<Send>, heard: seq<Pending>, x: seq<int32>, xHash: int32, a: Answer)
  {
    && (!Silent(out, b, a) ==> Due(c, heard, x, xHash, a))
    && (Due(c, heard, x, xHash, a) ==> Heralded(c, out, b, a))
  }

  /** One more message makes the answer be given to everyone, if it is due from then on. */
  ghost predicate Answers(
    c: Config, b: Instance, out: seq<Send>, heard: seq<Pending>, d: Pending, x: seq<int32>, xHash: int32, a: Answer)
  {
    && (!Silent(out, b, a) ==> Due(c, heard + [d], x, xHash, a))
    && (Due(c, heard + [d], x, xHash, a) ==> Due(c, heard, x, xHash, a) || Heralded(c, out, b, a))
  }

  ghost predicate Adds(
    c: Config, b: Instance, out: seq<Send>, heard: seq<Pending>, d: Pending, x: seq<int32>, xHash: int32)
  {
    && TellsOnly(out, b, heard + [d], x, xHash)
    && Answers(c, b, out, heard, d, x, xHash, SaidDone)
    && Answers(c, b, out, heard, d, x, xHash, SaidFailed)
  }

  lemma SilentConcat(out: seq<Send>, more: seq<Send>, b: Instance, a: Answer)
    ensures Silent(out + more, b, a) <==> Silent(out, b, a) && Silent(more, b, a)
  {
    assert forall y | y in out :: y in out + more;
    assert forall y | y in more :: y in out + more;
  }

  lemma HeraldedConcat(c: Config, out: seq<Send>, more: seq<Send>, b: Instance, a: Answer)
    ensures Heralded(c, out, b, a) || Heralded(c, more, b, a) ==> Heralded(c, out + more, b, a)
  {
    assert forall y | y in out :: y in out + more;
    assert forall y | y in more :: y in out + more;
  }

  lemma QuietConcat(out: seq<Send>, more: seq<Send>, b: Instance)
    ensures Quiet(out + more, b) <==> Quiet(out, b) && Quiet(more, b)
  {
    SilentConcat(out, more, b, SaidDone);
    SilentConcat(out, more, b, SaidFailed);
  }

  lemma OutcomeExtends(
    c: Config, b: Instance, out: seq<Send>, more: seq<Send>, heard: seq<Pending>, d: Pending, x: seq<int32>,
    xHash: int32)
    requires Outcome(c, b, out, heard, x, xHash) && Adds(c, b, more, heard, d, x, xHash)
    ensures Outcome(c, b, out + more, heard + [d], x, xHash)
  {
    GivenExtends(c, b, out, more, heard, d, x, xHash, SaidDone);
    GivenExtends(c, b, out, more, heard, d, x, xHash, SaidFailed);
    TellsOnlyGrows(out, more, b, heard, d, x, xHash);
  }

  lemma GivenExtends(
    c: Config, b: Instance, out: seq<Send>, more: seq<Send>, heard: seq<Pending>, d: Pending, x: seq<int32>,
    xHash: int32, a: Answer)
    requires Given(c, b, out, heard, x, xHash, a) && Answers(c, b, more, heard, d, x, xHash, a)
    ensures Given(c, b, out + more, heard + [d], x, xHash, a)
  {
    SilentConcat(out, more, b, a);
    HeraldedConcat(c, out, more, b, a);
    DueGrows(c, heard, d, x, xHash, a);
  }

  lemma TellsOnlyGrows(
    out: seq<Send>, more: seq<Send>, b: Instance, heard: seq<Pending>, d: Pending, x: seq<int32>, xHash: int32)
    requires TellsOnly(out, b, heard, x, xHash) && TellsOnly(more, b, heard + [d], x, xHash)
    ensures TellsOnly(out + more, b, heard + [d], x, xHash)
  {
    assert forall e | e in heard :: e in heard + [d];
  }

  /** Saying no more changes nothing of the outcome. */
  lemma StillOutcome(
    c: Config, b: Instance, out: seq<Send>, more: seq<Send>, heard: seq<Pending>, x: seq<int32>, xHash: int32)
    requires Outcome(c, b, out, heard, x, xHash) && Quiet(more, b)
    ensures Outcome(c, b, out + more, heard, x, xHash)
  {
    SilentConcat(out, more, b, SaidDone);
    SilentConcat(out, more, b, SaidFailed);
    HeraldedConcat(c, out, more, b, SaidDone);
    HeraldedConcat(c, out, more, b, SaidFailed);
  }

  // ---------------------------------------------------------------- the state of a witness

  /** A witness with an honest author's ciphertexts; it has passed the shares on and takes no others. */
  ghost predicate Holds(c: Config, st: State, x: seq<int32>, data: seq<Share>) {
    c.self in st.pot && st.witnessStage >= SENT_ECHO_FROM_WITNESS && Honest(c, x, data, st.encryptedShares)
  }

  predicate Untouched(st: State) {
    st.revealStage == InitialRevealStage && st.revealFromProcesses == {} && st.decryptedShares == []
  }

  /** The reveals taken in so far, in their slots. */
  ghost predicate Gathered(st: State, senders: set<Id>, data: seq<Share>) {
    && st.revealFromProcesses == senders
    && (if senders == {} then st.decryptedShares == [] else PartOf(st.decryptedShares, data, senders))
  }

  /** The state after delivery follows from what has been heard. */
  ghost predicate Fits(c: Config, st: State, heard: seq<Pending>, x: seq<int32>, data: seq<Share>, xHash: int32) {
    && Holds(c, st, x, data)
    && st.revealStage == Standing(c, heard, x, xHash)
    && (st.revealStage == InitialRevealStage ==> Gathered(st, Revealers(heard, xHash), data))
  }

  /** The first reveal of a process while the collection is open, with a share that is not the author's. */
  ghost predicate Forged(c: Config, heard: seq<Pending>, d: Pending, data: seq<Share>, xHash: int32)
    requires d.sender < |data|
  {
    && d.m.Reveal? && !Decided(heard, xHash) && !Rebuilt(c, heard, xHash)
    && d.sender !in Revealers(heard, xHash) && d.m.share != data[d.sender]
  }

  /** What a reaction to one more message leaves. */
  ghost predicate Follows(
    c: Config, b: Instance, r: Reaction, heard: seq<Pending>, d: Pending, x: seq<int32>, data: seq<Share>,
    xHash: int32)
  {
    && Adds(c, b, r.out, heard, d, x, xHash)
    && if r.verdict.CommitTo? then Due(c, heard + [d], x, xHash, SaidDone)
       else Fits(c, r.st, heard + [d], x, data, xHash)
  }

  lemma NothingFollows(
    c: Config, b: Instance, st: State, heard: seq<Pending>, d: Pending, x: seq<int32>, data: seq<Share>, xHash: int32)
    requires Fits(c, st, heard, x, data, xHash)
    requires Standing(c, heard + [d], x, xHash) == Standing(c, heard, x, xHash)
    requires d.m.Reveal? || (d.m.Done? && HashOf(d.m.x) != xHash)
    requires st.revealStage == InitialRevealStage ==> d.m.Reveal? ==> d.sender in Revealers(heard, xHash)
    ensures Follows(c, b, Reaction(st, [], Go), heard, d, x, data, xHash)
  {
    HeardOneMore(heard, d, xHash);
    StandingMeans(c, heard, x, xHash);
    StandingMeans(c, heard + [d], x, xHash);
    if st.revealStage == InitialRevealStage {
      assert Revealers(heard + [d], xHash) == Revealers(heard, xHash);
    } else {
      DueAlready(c, heard, d, x, xHash, SaidDone);
      DueAlready(c, heard, d, x, xHash, SaidFailed);
    }
  }

  /** Once the reveal is closed a reveal makes nothing due. */
  lemma DueAlready(c: Config, heard: seq<Pending>, d: Pending, x: seq<int32>, xHash: int32, a: Answer)
    requires Decided(heard, xHash) || Rebuilt(c, heard, xHash)
    requires d.m.Reveal? || (d.m.Done? && HashOf(d.m.x) != xHash)
    ensures Due(c, heard + [d], x, xHash, a) ==> Due(c, heard, x, xHash, a)
  {
    HeardOneMore(heard, d, xHash);
  }

  lemma RevealFollows(
    c: Config, decrypts: Id -> Share -> Option<Share>, b: Instance, st: State, heard: seq<Pending>, x: seq<int32>,
    data: seq<Share>, sender: Id, share: Share, xHash: int32)
    requires SoundLibraries(c, decrypts) && Fits(c, st, heard, x, data, xHash) && sender < c.n
    ensures var r, d := OnReveal(c, b, st, sender, share, xHash), Pending(sender, Reveal(share));
            && (r.verdict == Crash <==> Forged(c, heard, d, data, xHash))
            && (r.verdict != Crash ==> Follows(c, b, r, heard, d, x, data, xHash))
  {
    var d := Pending(sender, Reveal(share));
    StandingMeans(c, heard, x, xHash);
    StandingAfter(c, heard, d, x, xHash);
    HeardOneMore(heard, d, xHash);
    if st.revealStage != InitialRevealStage || sender in Revealers(heard, xHash) {
      assert Revealers(heard, xHash) + {sender} == Revealers(heard, xHash) || st.revealStage != InitialRevealStage;
      NothingFollows(c, b, st, heard, d, x, data, xHash);
    } else {
      NewRevealFollows(c, decrypts, b, st, heard, x, data, sender, share, xHash);
    }
  }

  lemma NewRevealFollows(
    c: Config, decrypts: Id -> Share -> Option<Share>, b: Instance, st: State, heard: seq<Pending>, x: seq<int32>,
    data: seq<Share>, sender: Id, share: Share, xHash: int32)
    requires SoundLibraries(c, decrypts) && Fits(c, st, heard, x, data, xHash) && sender < c.n
    requires st.revealStage == InitialRevealStage && sender !in Revealers(heard, xHash)
    ensures var r, d := OnReveal(c, b, st, sender, share, xHash), Pending(sender, Reveal(share));
            && (r.verdict == Crash <==> share != data[sender])
            && (r.verdict != Crash ==> Follows(c, b, r, heard, d, x, data, xHash))
  {
    var r, d := OnReveal(c, b, st, sender, share, xHash), Pending(sender, Reveal(share));
    var blank, senders := st.(revealFromProcesses := {}, decryptedShares := []), Revealers(heard, xHash);
    StandingMeans(c, heard, x, xHash);
    HeardOneMore(heard, d, xHash);
    OneReveal(c, decrypts, b, blank, st, x, data, senders, sender, share, xHash);
    RevealMoves(c, b, st, sender, share, xHash, 0);
    RevealNeverCommits(c, b, st, sender, share, xHash);
    if r.verdict != Crash {
      RevealedFollows(c, b, blank, st, r, heard, x, data, d, xHash);
    }
  }

  lemma RevealedFollows(
    c: Config, b: Instance, blank: State, st: State, r: Reaction, heard: seq<Pending>, x: seq<int32>,
    data: seq<Share>, d: Pending, xHash: int32)
    requires Fits(c, st, heard, x, data, xHash) && st.revealStage == InitialRevealStage && d.m.Reveal?
    requires blank == st.(revealFromProcesses := {}, decryptedShares := [])
    requires SameStages(st, r.st) && !r.verdict.CommitTo?
    requires Stands(c, b, blank, r, x, data, Revealers(heard, xHash) + {d.sender}, xHash)
    ensures Follows(c, b, r, heard, d, x, data, xHash)
  {
    StandingMeans(c, heard, x, xHash);
    StandingAfter(c, heard, d, x, xHash);
    HeardOneMore(heard, d, xHash);
    if Rebuilt(c, heard + [d], xHash) {
      assert Says(r.out[0], b, if HashOf(x) == xHash then SaidDone else SaidFailed);
    }
  }

  lemma DoneFollows(
    c: Config, b: Instance, st: State, heard: seq<Pending>, x: seq<int32>, data: seq<Share>, sender: Id,
    y: seq<int32>, xHash: int32, age: int)
    requires Fits(c, st, heard, x, data, xHash)
    ensures var r := OnDone(c, b, st, sender, y, xHash, age);
            r.verdict != Crash && Follows(c, b, r, heard, Pending(sender, Done(y)), x, data, xHash)
  {
    var d := Pending(sender, Done(y));
    StandingAfter(c, heard, d, x, xHash);
    if HashOf(y) != xHash {
      NothingFollows(c, b, st, heard, d, x, data, xHash);
    } else {
      RightDoneAdds(c, b, st, heard, x, data, sender, y, xHash, age);
      HeardOneMore(heard, d, xHash);
    }
  }

  lemma RightDoneAdds(
    c: Config, b: Instance, st: State, heard: seq<Pending>, x: seq<int32>, data: seq<Share>, sender: Id,
    y: seq<int32>, xHash: int32, age: int)
    requires Fits(c, st, heard, x, data, xHash) && HashOf(y) == xHash
    ensures var r := OnDone(c, b, st, sender, y, xHash, age);
            Adds(c, b, r.out, heard, Pending(sender, Done(y)), x, xHash)
  {
    var r, d := OnDone(c, b, st, sender, y, xHash, age), Pending(sender, Done(y));
    HeardOneMore(heard, d, xHash);
    StandingMeans(c, heard, x, xHash);
    DonePassedOn(c, b, st, sender, y, age);
    assert d in heard + [d] && d.m == Done(y);
    assert Answers(c, b, r.out, heard, d, x, xHash, SaidDone);
    assert Answers(c, b, r.out, heard, d, x, xHash, SaidFailed);
  }

  /** The right DONE is passed on, unless that was the last thing said, and nothing else is. */
  lemma DonePassedOn(c: Config, b: Instance, st: State, sender: Id, y: seq<int32>, age: int)
    ensures var r := OnDone(c, b, st, sender, y, HashOf(y), age);
            && (forall e | e in r.out :: e.ToSet? && e.content == Commitment(Done(y)))
            && (c.self in st.pot && st.revealStage != SentDoneToProcesses ==> Heralded(c, r.out, b, SaidDone))
  {
    if c.self in st.pot && st.revealStage != SentDoneToProcesses {
      var e := OnDone(c, b, st, sender, y, HashOf(y), age).out[0];
      assert Says(e, b, SaidDone) && e.to == Everyone(c.n);
    }
  }

  lemma FailedFollows(
    c: Config, b: Instance, st: State, heard: seq<Pending>, x: seq<int32>, data: seq<Share>, sender: Id, xHash: int32)
    requires Fits(c, st, heard, x, data, xHash)
    ensures var r := OnFailed(c, b, st, sender);
            r.verdict == Go && Follows(c, b, r, heard, Pending(sender, Failed), x, data, xHash)
  {
    var r, d := OnFailed(c, b, st, sender), Pending(sender, Failed);
    HeardOneMore(heard, d, xHash);
    StandingMeans(c, heard, x, xHash);
    StandingAfter(c, heard, d, x, xHash);
    FailedPassedOn(c, b, st, sender);
    assert Answers(c, b, r.out, heard, d, x, xHash, SaidDone);
    assert Answers(c, b, r.out, heard, d, x, xHash, SaidFailed);
  }

  lemma FailedPassedOn(c: Config, b: Instance, st: State, sender: Id)
    requires c.self in st.pot
    ensures var r := OnFailed(c, b, st, sender);
            && r.st == st.(revealStage := SentFailedToProcesses)
            && (forall e | e in r.out :: e.ToSet? && e.content == Commitment(Failed))
            && (st.revealStage != SentFailedToProcesses ==> Heralded(c, r.out, b, SaidFailed))
  {
    var r := OnFailed(c, b, st, sender);
    if st.revealStage != SentFailedToProcesses {
      var e := r.out[|r.out| - 1];
      assert Says(e, b, SaidFailed) && e.to == Everyone(c.n);
    }
  }

  // ---------------------------------------------------------------- a delivered instance

  /** What holds of a delivered instance: what was said, and the state if there still is one. */
  ghost predicate Settled(
    c: Config, p: Process, out: seq<Send>, heard: seq<Pending>, b: Instance, x: seq<int32>, data: seq<Share>)
    requires b in p.delivered
  {
    var xHash := p.delivered[b].xHash;
    && Outcome(c, b, out, heard, x, xHash)
    && if b in p.log then Fits(c, p.log[b], heard, x, data, xHash) else Due(c, heard, x, xHash, SaidDone)
  }

  lemma ReactionFollows(
    c: Config, decrypts: Id -> Share -> Option<Share>, p: Process, b: Instance, st: State, heard: seq<Pending>,
    x: seq<int32>, data: seq<Share>, d: Pending)
    requires SoundLibraries(c, decrypts) && d.sender < c.n
    requires b in p.delivered && Fits(c, st, heard, x, data, p.delivered[b].xHash)
    ensures var r, xHash := ReactionTo(c, p, d.sender, b, d.m, st), p.delivered[b].xHash;
            && (r.verdict == Crash <==> Forged(c, heard, d, data, xHash))
            && (r.verdict != Crash ==> Follows(c, b, r, heard, d, x, data, xHash))
  {
    var xHash := p.delivered[b].xHash;
    match d.m
    case Reveal(share) => RevealFollows(c, decrypts, b, st, heard, x, data, d.sender, share, xHash);
    case Done(y) => DoneFollows(c, b, st, heard, x, data, d.sender, y, xHash, p.deliveredCount - Checkpoint(p, b));
    case Failed => FailedFollows(c, b, st, heard, x, data, d.sender, xHash);
  }

  lemma AppliedLog(p: Process, b: Instance, r: Reaction)
    requires b in p.delivered && !r.verdict.Deliver?
    ensures var q := Apply(p, b, r).p;
            && (if r.verdict.CommitTo? then b !in q.log else b in q.log && q.log[b] == r.st)
            && q.delivered == p.delivered && (q.halted <==> p.halted || r.verdict == Crash)
  {
  }

  /** One commitment message for a delivered instance that has its state: exactly a forged share brings it down. */
  lemma HandledSettles(
    c: Config, decrypts: Id -> Share -> Option<Share>, p: Process, b: Instance, out: seq<Send>, heard: seq<Pending>,
    x: seq<int32>, data: seq<Share>, d: Pending)
    requires c.Sound() && SoundLibraries(c, decrypts) && d.sender < c.n && b.author < c.n
    requires !p.halted && b in p.delivered && b in p.log && b !in p.committed
    requires Settled(c, p, out, heard, b, x, data)
    ensures var s := HandleCommitment(c, p, d.sender, b, d.m);
            && s.p.delivered == p.delivered
            && (s.p.halted <==> Forged(c, heard, d, data, p.delivered[b].xHash))
            && (!s.p.halted ==> Settled(c, s.p, out + s.out, heard + [d], b, x, data))
  {
    var st, xHash := Counted(p.log[b]), p.delivered[b].xHash;
    var r := ReactionTo(c, p, d.sender, b, d.m, st);
    assert Fits(c, st, heard, x, data, xHash);
    ReactionFollows(c, decrypts, p, b, st, heard, x, data, d);
    CommitmentReactionMoves(c, b, st, d.sender, d.m, xHash, p.deliveredCount - Checkpoint(p, b));
    assert HandleCommitment(c, p, d.sender, b, d.m) == Apply(p, b, r);
    ApplyOutput(p, b, r);
    AppliedLog(p, b, r);
    if r.verdict != Crash {
      OutcomeExtends(c, b, out, r.out, heard, d, x, xHash);
    }
  }

  lemma Split(deferred: seq<Pending>)
    requires deferred != []
    ensures deferred == deferred[..|deferred| - 1] + [deferred[|deferred| - 1]]
  {
  }

  /** One of a list of messages, each taken in after those before it, is a forged share. */
  ghost predicate ForgedIn(c: Config, heard: seq<Pending>, data: seq<Share>, xHash: int32)
    requires forall d | d in heard :: d.sender < |data|
  {
    exists i :: 0 <= i < |heard| && ForgedAt(c, heard, i, data, xHash)
  }

  ghost predicate ForgedAt(c: Config, heard: seq<Pending>, i: nat, data: seq<Share>, xHash: int32)
    requires i < |heard| && heard[i].sender < |data|
  {
    Forged(c, heard[..i], heard[i], data, xHash)
  }

  lemma ForgedInLonger(c: Config, heard: seq<Pending>, d: Pending, data: seq<Share>, xHash: int32)
    requires d.sender < |data| && forall e | e in heard :: e.sender < |data|
    ensures ForgedIn(c, heard + [d], data, xHash)
            <==> ForgedIn(c, heard, data, xHash) || Forged(c, heard, d, data, xHash)
  {
    var longer := heard + [d];
    forall i | 0 <= i < |heard|
      ensures ForgedAt(c, longer, i, data, xHash) <==> ForgedAt(c, heard, i, data, xHash)
    {
      assert longer[..i] == heard[..i];
    }
    assert longer[..|heard|] == heard;
    assert ForgedAt(c, longer, |heard|, data, xHash) <==> Forged(c, heard, d, data, xHash);
  }

  /** No message of the list commits b: none is a DONE that could, or it is too early. */
  ghost predicate NoneCommits(c: Config, p: Process, b: Instance, own: set<Id>, deferred: seq<Pending>)
    requires b in p.delivered
  {
    p.deliveredCount - Checkpoint(p, b) >= c.mixingTime ==>
      forall d | d in deferred :: !CommitsAtOnce(own, p.delivered[b].xHash, d)
  }

  /** The messages deferred until the delivery, replayed during it, as long as none commits. */
  lemma {:induction false} ReplaySettles(
    c: Config, decrypts: Id -> Share -> Option<Share>, p: Process, b: Instance, out: seq<Send>,
    deferred: seq<Pending>, x: seq<int32>, data: seq<Share>)
    requires c.Sound() && SoundLibraries(c, decrypts) && b.author < c.n
    requires !p.halted && b in p.log && b in p.delivered && b !in p.committed
    requires NoneCommits(c, p, b, p.log[b].own, deferred)
    requires Holds(c, p.log[b], x, data) && Untouched(p.log[b]) && Quiet(out, b)
    requires forall d | d in deferred :: d.sender < c.n
    ensures var s := Replay(c, p, b, deferred);
            && Touches(p, s.p, b) && s.p.log[b].own == p.log[b].own
            && (s.p.halted <==> ForgedIn(c, deferred, data, p.delivered[b].xHash))
            && (!s.p.halted ==> Settled(c, s.p, out + s.out, deferred, b, x, data))
  {
    if deferred == [] {
      assert out + [] == out;
    } else {
      var k := |deferred| - 1;
      ReplaySettles(c, decrypts, p, b, out, deferred[..k], x, data);
      Split(deferred);
      ForgedInLonger(c, deferred[..k], deferred[k], data, p.delivered[b].xHash);
      ReplayStepSettles(c, decrypts, p, b, out, deferred[..k], deferred[k], x, data);
    }
  }

  lemma ReplayStepSettles(
    c: Config, decrypts: Id -> Share -> Option<Share>, p: Process, b: Instance, out: seq<Send>,
    before: seq<Pending>, d: Pending, x: seq<int32>, data: seq<Share>)
    requires c.Sound() && SoundLibraries(c, decrypts) && b.author < c.n && d.sender < c.n
    requires b in p.log && b in p.delivered && b !in p.committed
    requires NoneCommits(c, p, b, p.log[b].own, [d])
    requires var s := Replay(c, p, b, before);
             && Touches(p, s.p, b) && s.p.log[b].own == p.log[b].own
             && (!s.p.halted ==> Settled(c, s.p, out + s.out, before, b, x, data))
    ensures var s, s' := Replay(c, p, b, before), Replay(c, p, b, before + [d]);
            && Touches(p, s'.p, b) && s'.p.log[b].own == p.log[b].own
            && (s'.p.halted <==>
                  s.p.halted || (d.sender < |data| && Forged(c, before, d, data, p.delivered[b].xHash)))
            && (!s'.p.halted ==> Settled(c, s'.p, out + s'.out, before + [d], b, x, data))
  {
    var s := Replay(c, p, b, before);
    var last := HandleCommitment(c, s.p, d.sender, b, d.m);
    assert (before + [d])[..|before|] == before;
    assert Replay(c, p, b, before + [d]) == Step(last.p, s.out + last.out);
    if !s.p.halted {
      assert d in [d];
      CommitsExactly(c, s.p, d.sender, b, d.m);
      HandledSettles(c, decrypts, s.p, b, out + s.out, before, x, data, d);
      Regroup(out, s.out, last.out);
    }
  }
}
