/** Counting arguments about sets of processes, some of which may be Byzantine. */
module Quorums {
  type Id = nat

  function Everyone(n: nat): (s: set<Id>)
    ensures forall i: Id :: i in s <==> i < n
    ensures |s| == n
  {
    if n == 0 then {} else Everyone(n - 1) + {n - 1}
  }

  /** ceil((n + f + 1) / 2). */
  function Quorum(n: nat, f: nat): nat {
    (n + f + 2) / 2
  }

  lemma SubsetCount<T>(a: set<T>, b: set<T>)
    ensures a <= b ==> |a| <= |b|
  {
    if a <= b {
      assert b == a + (b - a);
    }
  }

  lemma SubsetOrOutside<T>(a: set<T>, b: set<T>)
    ensures a <= b || a - b != {}
  {
    if !(a <= b) {
      var x :| x in a && x !in b;
      assert x in a - b;
    }
  }

  /** More members than the system has faults: one of them is correct. */
  lemma SomeCorrect(s: set<Id>, byz: set<Id>) returns (x: Id)
    requires |s| > |byz|
    ensures x in s && x !in byz
  {
    SubsetCount(s, byz);
    SubsetOrOutside(s, byz);
    x :| x in s - byz;
  }

  lemma SomeCorrectAmong(s: set<Id>, byz: set<Id>) returns (x: Id)
    requires |s| > |s * byz|
    ensures x in s && x !in byz
  {
    assert s <= byz ==> s * byz == s;
    SubsetOrOutside(s, byz);
    x :| x in s - byz;
  }

  /** Two quorums have a correct process in common. */
  lemma QuorumsMeet(n: nat, f: nat, byz: set<Id>, a: set<Id>, b: set<Id>) returns (x: Id)
    requires a <= Everyone(n) && b <= Everyone(n) && |byz| <= f
    requires |a| >= Quorum(n, f) && |b| >= Quorum(n, f)
    ensures x in a && x in b && x !in byz
  {
    SubsetCount(a + b, Everyone(n));
    assert |a + b| + |a * b| == |a| + |b|;
    x := SomeCorrect(a * b, byz);
  }

  lemma CorrectCount(n: nat, byz: set<Id>)
    requires byz <= Everyone(n)
    ensures |Everyone(n) - byz| == n - |byz|
  {
    assert Everyone(n) == (Everyone(n) - byz) + byz;
  }

  /** Who voted for v, when each sender's first vote is the one that counts. */
  function Voters(votes: map<Id, int>, v: int): (s: set<Id>)
    ensures s <= votes.Keys
  {
    set q | q in votes && votes[q] == v
  }

  /** The votes with one more, which counts if it is its sender's first. */
  function Cast(votes: map<Id, int>, q: Id, v: int): map<Id, int> {
    if q in votes then votes else votes[q := v]
  }

  lemma VotersAfter(votes: map<Id, int>, q: Id, v: int, w: int)
    requires q !in votes
    ensures Voters(votes[q := v], w) == if v == w then Voters(votes, w) + {q} else Voters(votes, w)
    ensures |Voters(votes[q := v], w)| == |Voters(votes, w)| + if v == w then 1 else 0
  {
    assert Voters(votes[q := v], w) == if v == w then Voters(votes, w) + {q} else Voters(votes, w);
  }

  /** Go's reading of a map of counters: absent means zero. */
  function Counter(stat: map<int, nat>, v: int): nat {
    if v in stat then stat[v] else 0
  }

  /** The counters that a record of first votes amounts to. */
  ghost function CountsOf(votes: map<Id, int>): map<int, nat> {
    map v | v in votes.Values :: |Voters(votes, v)|
  }

  /** A set of heard senders and a map of counters represent a record of first votes. */
  ghost predicate Tallies(heard: set<Id>, stat: map<int, nat>, votes: map<Id, int>) {
    heard == votes.Keys && stat == CountsOf(votes)
  }

  lemma CounterIsVoters(stat: map<int, nat>, votes: map<Id, int>, v: int)
    requires stat == CountsOf(votes)
    ensures Counter(stat, v) == |Voters(votes, v)|
  {
    if v !in votes.Values {
      assert Voters(votes, v) == {};
    }
  }

  lemma ValuesAfter<K, V>(m: map<K, V>, k: K, v: V)
    requires k !in m
    ensures m[k := v].Values == m.Values + {v}
  {
    var more := m[k := v];
    assert more[k] == v;
    forall w | w in m.Values
      ensures w in more.Values
    {
      var j :| j in m && m[j] == w;
      assert more[j] == w;
    }
  }

  lemma CountsAfter(votes: map<Id, int>, q: Id, v: int)
    requires q !in votes
    ensures CountsOf(votes[q := v]) == CountsOf(votes)[v := |Voters(votes, v)| + 1]
  {
    ValuesAfter(votes, q, v);
    forall w: int
      ensures |Voters(votes[q := v], w)| == |Voters(votes, w)| + if v == w then 1 else 0
    {
      VotersAfter(votes, q, v, w);
    }
  }

  lemma TalliesAfter(heard: set<Id>, stat: map<int, nat>, votes: map<Id, int>, q: Id, v: int)
    requires Tallies(heard, stat, votes) && q !in heard
    ensures Tallies(heard + {q}, stat[v := Counter(stat, v) + 1], votes[q := v])
  {
    CounterIsVoters(stat, votes, v);
    CountsAfter(votes, q, v);
  }

  lemma TallyVote(heard: set<Id>, stat: map<int, nat>, votes: map<Id, int>, q: Id, v: int)
    requires Tallies(heard, stat, votes) && q !in heard
    ensures Tallies(heard + {q}, stat[v := Counter(stat, v) + 1], votes[q := v])
    ensures Counter(stat, v) + 1 == |Voters(votes[q := v], v)|
  {
    TalliesAfter(heard, stat, votes, q, v);
    CounterIsVoters(stat, votes, v);
    VotersAfter(votes, q, v, v);
  }
}
