/** What leaves an accountable process, message by message: the broadcasts of the state machine, spelled out. */
module ReliableOutbox {
  import opened Quorums
  import opened Reliable

  datatype Packet = Packet(to: Id, instance: Instance, content: Content)

  function Addressed(to: set<Id>, b: Instance, content: Content): (s: set<Packet>)
    ensures forall q :: Packet(q, b, content) in s <==> q in to
  {
    set q | q in to :: Packet(q, b, content)
  }

  function ShareMessage(bm: Broadcast, share: Share): Content {
    Protocol(ProtocolMessage(ECHO_FROM_WITNESS, bm, [share]))
  }

  function ShareByShare(b: Instance, bm: Broadcast, shares: seq<Share>): multiset<Packet> {
    if shares == [] then multiset{}
    else
      var k := |shares| - 1;
      ShareByShare(b, bm, shares[..k]) + multiset{Packet(k, b, ShareMessage(bm, shares[k]))}
  }

  function PacketsOf(x: Send): multiset<Packet> {
    match x
    case ToSet(b, to, content) => multiset(Addressed(to, b, content))
    case ShareEach(b, bm, shares) => ShareByShare(b, bm, shares)
  }

  function Packets(out: seq<Send>): multiset<Packet> {
    if out == [] then multiset{} else Packets(out[..|out| - 1]) + PacketsOf(out[|out| - 1])
  }

  lemma PacketsOfOne(x: Send)
    ensures Packets([x]) == PacketsOf(x)
  {
    assert Packets([x]) == Packets([x][..0]) + PacketsOf(x);
  }

  lemma PacketsOfTwo(x: Send, y: Send)
    ensures Packets([x, y]) == Packets([x]) + Packets([y])
  {
    assert [x, y][..1] == [x];
    PacketsOfOne(y);
  }

  lemma {:induction false} PacketsConcat(a: seq<Send>, x: seq<Send>)
    ensures Packets(a + x) == Packets(a) + Packets(x)
  {
    if x == [] {
      assert a + x == a;
    } else {
      var front, last := x[..|x| - 1], x[|x| - 1];
      PacketsConcat(a, front);
      assert (a + x)[..|a + x| - 1] == a + front && (a + x)[|a + x| - 1] == last;
      SumsAssociate(Packets(a), Packets(front), PacketsOf(last));
    }
  }

  lemma SumsAssociate<T>(a: multiset<T>, b: multiset<T>, c: multiset<T>)
    ensures a + b + c == a + (b + c)
  {
  }

  lemma OneMore(to: set<Id>, q: Id, b: Instance, content: Content)
    requires q !in to
    ensures multiset(Addressed(to + {q}, b, content))
            == multiset(Addressed(to, b, content)) + multiset{Packet(q, b, content)}
  {
    assert Addressed(to + {q}, b, content) == Addressed(to, b, content) + {Packet(q, b, content)};
  }

  /** Every recipient gets a broadcast exactly once, and nobody else gets it. */
  lemma EachOnce(to: set<Id>, b: Instance, content: Content, e: Packet)
    ensures PacketsOf(ToSet(b, to, content))[e]
            == if e.to in to && e.instance == b && e.content == content then 1 else 0
    ensures |PacketsOf(ToSet(b, to, content))| == |to|
  {
    AddressedCount(to, b, content);
  }

  lemma {:induction false} AddressedCount(to: set<Id>, b: Instance, content: Content)
    ensures |Addressed(to, b, content)| == |to|
  {
    if to == {} {
      assert Addressed(to, b, content) == {};
    } else {
      var q :| q in to;
      var rest, all := Addressed(to - {q}, b, content), Addressed(to, b, content);
      AddressedCount(to - {q}, b, content);
      assert all == rest + {Packet(q, b, content)};
    }
  }

  /** Process i gets share i of the list, and no other. */
  lemma {:induction false} ShareEachOnce(b: Instance, bm: Broadcast, shares: seq<Share>, e: Packet)
    ensures PacketsOf(ShareEach(b, bm, shares))[e]
            == if e.to < |shares| && e.instance == b
                  && e.content == Protocol(ProtocolMessage(ECHO_FROM_WITNESS, bm, [shares[e.to]])) then 1 else 0
  {
    if shares != [] {
      var k := |shares| - 1;
      ShareEachOnce(b, bm, shares[..k], e);
      assert e.to < k ==> shares[..k][e.to] == shares[e.to];
    }
  }
}
