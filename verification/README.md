# Broadcast protocols, verified

A Dafny model of the reliable broadcast protocols of a stochastic-checking simulation, and proofs of what the
protocols are for. Three connected pieces are modelled, and a fourth beside them.

**Bracha's reliable broadcast.** `Bracha` is one instance at one process; `BrachaNetwork` runs it at n processes, up
to f of them Byzantine, over a network that reorders and repeats, and proves agreement, no invention, totality and
validity; `BrachaVotes` says exactly when a process speaks and delivers, in numbers of votes handled. `BrachaProcess`
is the process object, with counters, a log of mutable states and collection of the state on delivery; each call is
one step of the machine for its instance and none for any other, so that at most 2n messages go out for each.

**The accountable reliable broadcast.** `Reliable` is one process as a state machine over all its instances: the
process and witness stages over witness sets chosen by each process for itself, deliveries that drive a sliding window
of checkpoints, reveals, deferred commitment messages replayed inside a delivery, reconstruction of secrets, commits
and collection. `ReliableRuns` proves what one process keeps whatever the others send (the reveal window, commits at
most once and late enough, states that are still there when needed). `ReliableTraces` proves what leaves it (every
phase at most once, across collection; reveals in step with deliveries), and `ReliableDones` that every DONE is true
and precedes the commit. `ReliableVotes` says exactly where an instance stands and what it has sent, in numbers of
votes received, and `ReliableShares` which share a process keeps and reveals. `ReliableNetwork` composes n such
processes with Byzantine ones and proves agreement on values although witness sets differ; `ReliableProvenance` traces
a delivered value back to the author's NOTIFY, and `ReliableHashes` shows that the hash need not agree.
`ReliableSecrets` follows a secret from its sampling to DONE, `ReliableReveals` says what a witness answers to
everything it may hear of it, and `ReliableRoundTrip` does so over whole runs, `ReliableBystanders` for a process that
is no witness; `ReliableLibraries` shows that the code and the encryption they assume can be had. `ReliableWitnesses`
ties commits back to the choice of witnesses, and `ReliableMixing` is about a mixing time of 0. `ReliableProcess`
(with `ReliableOutbox` and `HistoryBanks`) is the process object that implements the machine, with mutable states,
counters, loops that send one message at a time and history hashes updated in place.

**History hashes and witness selection.** `Rings`, `Histories` and `WitnessSets` hold the theory: Go's truncating
remainder, the circular distance as a metric, order independence, the theorem behind the two radii, and exactly which
witnesses nearby processes are bound to share. `HistoryBits` reads bin and direction off the bits of a hash.
`Selection` and `HistoryHashing` are the loops and objects that compute it. `Bytes` and `GoIntegers` are the codecs
and the fixed-width arithmetic beneath.

**The sampled broadcast.** `Scalable` is one instance at one process, with samples as inputs; it proves the
subscribe-and-publish discipline, the bound on echo weights and that the sieve fires once. `ScalableCounts` gives the
state, the announcements and the delivery as functions of what was received. `ScalableProcess` implements the machine
with running weights.

## How it is stated

- A run is a sequence of events, and theorems quantify over all of them. An event that cannot happen changes nothing.
- Channels are authentic: the sender given to a handler is the sender. Byzantine processes send anything under their
  own names. Messages may be lost, reordered and repeated without bound, which is more than the transport does.
- A process that logs a fatal error or would panic is halted and does nothing more.
- Thresholds ceil((n + f + 1) / 2) are the integer (n + f + 2) / 2; the process objects compute them as written and
  are proved to agree.
- In the objects, counters are tied to records of first votes: a counter is the number of senders whose first vote
  was that value. The proofs about protocols are about the records.

The hypotheses the protocols need are in the statements themselves:

- Validity of Bracha's broadcast asks that INITIAL came from the author only. The handler does not compare the two.
  The same holds of NOTIFY in `ReliableProvenance`, which also asks for own witnesses that are all correct.
- The accountable theorems take a mixing time of at least 1; `ReliableMixing` says exactly when a reveal finds its
  state at 0, and gives a run of two inputs that brings a process down.
- An author has handled nothing of an instance it broadcasts; `RebroadcastingForgets` says exactly when something is
  lost otherwise, and `EchoesTwice` what that can lead to.
- Accountable agreement on an instance assumes that at every moment each correct process's own set for that instance
  has fewer Byzantine members than the witness threshold; nothing is asked of its sets for other instances. It is
  agreement on the value only: votes are counted by value and not by secret hash, and `OneValueTwoHashes` is a run.
- The secret round trip over runs asks for a witness that has the author's shares before it takes in anything of the
  secret, and that stays up; `ForgedShareBringsDown` says which messages bring it down. It covers FAILED from anyone:
  one is enough to end the collection of reveals, as `FailureFirst` shows.
- The secret round trip assumes a systematic erasure code that any f + 1 shares determine, and decryption inverse to
  encryption (RSAES-PKCS1-v1_5, section 7.2 of RFC 8017, with its padding made deterministic).
- Rings have a modulo of at most 2^62; `StoredEntryIsModulo` shows that this is exactly what is needed. Constructors
  take any parameters and promise a valid object for sound ones.

## Model

| member | source | states |
|---|---|---|
| Rings.StoredEntryIsModulo | impl/hashing/multi_rings.go:39-41 | storing reduces every 64-bit value, negative ones included, to its residue in [0, modulo) if and only if modulo is at most 2^62 |
| Rings.ArcClosedForm | impl/hashing/multi_rings.go:47-61 | the smaller of the two truncating remainders is the length of the shorter way round the ring |
| Rings.ArcIsMetric | impl/hashing/multi_rings.go:47-61 | one coordinate's distance is a metric, bounded by floor(modulo / 2) |
| Rings.DistanceIsMetric | impl/hashing/multi_rings.go:52-64 | the circular L1 distance is symmetric, zero exactly on equal vectors, and obeys the triangle inequality |
| Rings.DistanceBounded | impl/hashing/multi_rings.go:52-64 | the distance lies between 0 and dimension * floor(modulo / 2) |
| Rings.DistanceIgnoresCommonPart | impl/hashing/multi_rings.go:33-64 | merging both vectors with a third leaves their distance unchanged |
| Rings.DistanceOfStep | impl/hashing/multi_rings.go:43-64 | moving one entry by one step moves the vector by at most one |
| HistoryHashing.MultiRing.constructor | impl/hashing/multi_rings.go:15-21 | a new ring is all zeros, and for a modulo within the bounds a valid ring |
| HistoryHashing.MultiRing.Copy | impl/hashing/multi_rings.go:24-30 | the copy is a fresh ring with equal contents; the receiver is unchanged |
| HistoryHashing.MultiRing.Set | impl/hashing/multi_rings.go:39-41 | the addressed entry becomes the residue of the value, the others stay |
| HistoryHashing.MultiRing.Add | impl/hashing/multi_rings.go:43-45 | addition wraps in 64 bits before reduction; within 2^62 it is addition in the ring |
| HistoryHashing.MultiRing.Merge | impl/hashing/multi_rings.go:33-37 | the receiver becomes the entry-wise sum modulo the ring size, also when merged with itself |
| HistoryHashing.MultiRing.MultiRingDistance | impl/hashing/multi_rings.go:52-64 | the loop computes the circular L1 distance, and fails exactly on different shapes |
| HistoryHashing.HistoryHash.constructor | impl/hashing/history_hashing.go:18-28 | a new hash represents the empty history under the parameters given, seeded with the bytes of the seed; it is valid if the parameters are sound |
| HistoryHashing.HistoryHash.Insert | impl/hashing/history_hashing.go:31-39 | the bins, updated in place, represent the history with the entry appended |
| Histories.BinsAreTallies | impl/hashing/history_hashing.go:31-39 | every bin is the net number of its steps modulo the capacity |
| Histories.OrderIndependent | impl/hashing/history_hashing.go:31-39 | the bins depend only on the multiset of inserted byte strings |
| Histories.MergeIsConcatenation | impl/hashing/multi_rings.go:33-37 | merging two history vectors gives the vector of the concatenated histories |
| Histories.InsertMovesByOne | impl/hashing/history_hashing.go:31-39 | one insertion changes the vector by distance at most 1 |
| Histories.NearbyHistories | impl/hashing/history_hashing.go:31-39 | histories that differ in k entries are at distance at most k |
| Histories.NearbyRanks | impl/hashing/witnesses_selection.go:43-51 | a node's distance to zero differs by at most k between histories that differ in k entries |
| HistoryBits.BitOfAnd | impl/hashing/history_hashing.go:34-37 | every bit of the bitwise and of two numbers is the product of theirs |
| HistoryBits.AndWithPower | impl/hashing/history_hashing.go:34-37 | the and with 2^k is zero if and only if binary digit k is |
| HistoryBits.BitOfDigest | impl/utils/hashing.go:7-19 | bit j of the digest is bit j mod 8 of byte j / 8 of the hash, for the first eight bytes, and zero beyond them |
| HistoryBits.IndexIsTheRest | impl/hashing/history_hashing.go:32-33 | for any number of bins the bin is the remainder of the digest of the entry followed by the seed |
| HistoryBits.DirectionIsASharedBit | impl/hashing/history_hashing.go:34-37 | for any number of bins the direction is forward if and only if the digest and the number of bins have a bit in common, and back otherwise |
| HistoryBits.BinAndDirection | impl/hashing/history_hashing.go:31-39 | with 2^k bins the lowest k bits of the hash are those of the bin, and the next one tells the direction |
| HistoryBits.OppositesCancel | impl/hashing/history_hashing.go:31-39 | with 2^k bins, two entries whose hashes agree in the lowest k bits and differ in the next leave no trace, after any history |
| HistoryBanks.SeedIsIndex | impl/protocols/accountability/reliable/process.go:207-211 | the hash of node i is seeded with the bytes of the number i |
| Selection.SortByDistSorts | impl/hashing/witnesses_selection.go:21-33 | the sort specification yields a sorted permutation |
| Selection.Sort | impl/hashing/witnesses_selection.go:54 | the distances are sorted in place, as the specification says |
| Selection.RankingIsRanking | impl/hashing/witnesses_selection.go:41-54 | sorting the enumerated distances lists every node exactly once with its own distance, nearest first |
| Selection.MeasureDistances | impl/hashing/witnesses_selection.go:41-52 | the first loop measures every node's distance to the zero vector of the first hash's shape, or gives up on a different shape |
| Selection.Cut | impl/hashing/witnesses_selection.go:56-68 | the second loop computes exactly the prefix sets of the ranking |
| Selection.GetWitnessSet | impl/hashing/witnesses_selection.go:37-69 | the two sets returned are those of the ranking of the history distances; empty if the hashes differ in shape |
| WitnessSets.PotentialSet | impl/hashing/witnesses_selection.go:59-62 | the potential set is a nearest-first prefix with every node below the potential radius, of at least min(n, v) nodes, and no larger than needed |
| WitnessSets.OwnWitnesses | impl/hashing/witnesses_selection.go:59-66 | the own set is a nearest-first part of the potential set with every potential node below the own radius and at least min(n, w, v) nodes |
| WitnessSets.WitnessOverlap | impl/hashing/witnesses_selection.go:37-69 | if histories differ in at most k entries and the radii by at least k, every node owned by radius at one process is potential at the other |
| WitnessSets.PotentialForAllNearby | impl/hashing/witnesses_selection.go:37-69 | a node is potential for every distance vector within k and every order of ties, if and only if its own distance plus k is below the potential radius, or fewer nodes could come before it than the minimum size |
| WitnessSets.StaysPotential | impl/hashing/witnesses_selection.go:37-69 | so under that condition, checkable from a process's own distances, the node is potential at every process whose history differs in at most k entries, however it became a witness |
| WitnessSets.MinimumSizeNeedNotOverlap | impl/hashing/witnesses_selection.go:59-66 | membership earned by the minimum size alone need not carry over; an existence proof with a one-bit hash and entries of one byte: two histories that differ in one of two insertions, radii as far apart as the disagreement, and disjoint sets at the two processes |
| WitnessSets.EqualHistoriesEqualSets | impl/hashing/witnesses_selection.go:37-69 | equal multisets of secrets give equal distances for every node |
| GoIntegers.Hash | impl/protocols/accountability/reliable/helpers.go:43-51 | the accumulating loop computes the 32-bit wrapped sum |
| Bytes.ToUint64 | impl/utils/hashing.go:7-19 | the padded little-endian reading of at most eight bytes |
| Bytes.ToUint64RoundTrip | impl/utils/hashing.go:7-33 | encoding a 64-bit value and reading it back is the identity |
| Bytes.Int32RoundTrip | impl/utils/hashing.go:21-39 | encoding an int32 and reading it back is the identity |
| Bytes.Int32BytesRoundTrip | impl/utils/hashing.go:21-39 | reading four bytes and encoding them again is the identity |
| Bytes.AreEqual | impl/utils/hashing.go:55-67 | true exactly on equal byte strings |
| Bytes.SecretBytesInjective | impl/protocols/accountability/reliable/process.go:547-553 | different secrets have different bytes |
| Bytes.SecretBytesAt | impl/protocols/accountability/reliable/process.go:546-553 | entry i of a secret takes the i-th group of four bytes |
| HistoryBanks.HistoryBank.constructor | impl/protocols/accountability/reliable/process.go:207-211 | one hash for every process, seeded with its index, all of the empty history; the bank is valid if the parameters are sound |
| HistoryBanks.HistoryBank.InsertEverywhere | impl/protocols/accountability/reliable/process.go:555-557 | the entry is appended once to the history of every hash |
| HistoryBanks.HistoryBank.AddSecret | impl/protocols/accountability/reliable/process.go:546-558 | the bytes of the secret are appended once to the history of every hash |
| HistoryBanks.HistoryBank.GetWitnessSet | impl/protocols/accountability/reliable/process.go:225-226 | the witness sets are those of the distances of the current history |
| Quorums.QuorumsMeet | impl/protocols/bracha/process.go:82 | two quorums of ceil((n + f + 1) / 2) share a correct process |
| Quorums.TallyVote | impl/protocols/bracha/process.go:220-221 | a set of heard senders and a map of counters represent the record of first votes after one more vote |
| Bracha.SpeaksAtMostTwice | impl/protocols/bracha/process.go:197-250 | on any input a process broadcasts at most one ECHO and then at most one READY, as its stage tells, and counts messages up to the delivering one |
| Bracha.DeliveryIsFinal | impl/protocols/bracha/process.go:204-206 | nothing that arrives after a delivery changes the instance or sends anything, although its state is gone |
| BrachaNetwork.RunKeepsInv | impl/protocols/bracha/process.go:197-250 | in every run of n processes with Byzantine senders, the network invariant holds: stages tell what was said, records what was handled, no threshold crossing is missed |
| BrachaNetwork.OneReadyValue | impl/protocols/bracha/process.go:138-164 | two values that each have a quorum of possible echoers are equal; every correct READY has one |
| BrachaNetwork.Agreement | impl/protocols/bracha/process.go:197-250 | in every run, correct processes that deliver deliver the same value |
| BrachaNetwork.NoInvention | impl/protocols/bracha/process.go:212-215 | in every run, a delivered value was in an INITIAL some correct process handled |
| BrachaNetwork.Totality | impl/protocols/bracha/process.go:216-248 | with n >= 3f + 1 and every message between correct processes handled, if one correct process delivered v then all did |
| BrachaNetwork.Validity | impl/protocols/bracha/process.go:270-286 | with n >= 3f + 1, if INITIAL came only from the correct author, carrying v, and the network is quiet, every correct process delivered v |
| BrachaVotes.FirstCounts | impl/protocols/bracha/process.go:217-221 | the vote of a sender that counts is the one in its first message of the stage, whatever else it sends |
| BrachaVotes.SpeaksExactly | impl/protocols/bracha/process.go:82-84 | on any input, counting each sender's first: READY has been said exactly if f + 1 sent READY or ceil((n + f + 1) / 2) sent ECHO for one value, ECHO exactly then or after an INITIAL, and there is a delivery exactly if 2f + 1 sent READY for one value; what is said and delivered has those votes |
| BrachaVotes.EachPlaysAlone | impl/protocols/bracha/process.go:197-250 | in every run of the network each correct process's state and words are those of the single process on the messages it has handled |
| BrachaVotes.SpeaksExactlyInRuns | impl/protocols/bracha/process.go:216-248 | in every run of the network, each correct process has spoken and delivered exactly when the messages it has handled have those votes |
| BrachaVotes.DeliversAtOnce | impl/protocols/bracha/process.go:246-248 | in every run, a correct process that has handled READY for v, and no other READY, from 2f + 1 processes has delivered v |
| BrachaVotes.ReadiesAtOnce | impl/protocols/bracha/process.go:223-245 | in every run, a correct process that has handled READY for v from f + 1 processes, or ECHO for v from ceil((n + f + 1) / 2), and nothing else of that stage from them, has said READY |
| BrachaProcess.ToFirstReachesEachOnce | impl/protocols/bracha/process.go:129-136 | the sending loop addresses each of the n processes exactly once |
| BrachaProcess.BroadcastsReach | impl/protocols/bracha/process.go:129-136 | of the messages broadcast for an instance each of the n processes gets every one as often as it was broadcast, and nobody else any |
| BrachaProcess.InstancesApart | impl/protocols/bracha/process.go:197-250 | of all that is sent while messages of any instances are handled in any order, what is sent for one instance is what its own messages make the single-instance machine send: at most 2n ECHO and READY messages |
| BrachaProcess.Process.StillAccounted | impl/protocols/bracha/process.go:197-250 | a call that does what ProcessProtocolMessage promises keeps the object's whole state and outbox accounted for by the calls so far, instance by instance |
| BrachaProcess.MessageState.constructor | impl/protocols/bracha/process.go:34-46 | a new state represents no votes at the first stage |
| BrachaProcess.MessageState.CountEcho | impl/protocols/bracha/process.go:220-221 | the echo counters represent the record with the sender's vote added |
| BrachaProcess.MessageState.CountReady | impl/protocols/bracha/process.go:235-236 | the ready counters represent the record with the sender's vote added |
| BrachaProcess.Process.constructor | impl/protocols/bracha/process.go:67-97 | the thresholds are those of n and f, and every instance is untouched |
| BrachaProcess.Process.InitMessageState | impl/protocols/bracha/process.go:99-107 | the state of the instance, created if missing; all other instances unchanged |
| BrachaProcess.Process.BroadcastMessage | impl/protocols/bracha/process.go:129-136 | one message to each process |
| BrachaProcess.Process.BroadcastEcho | impl/protocols/bracha/process.go:138-150 | an ECHO to each process, and the stage moves |
| BrachaProcess.Process.BroadcastReady | impl/protocols/bracha/process.go:152-164 | a READY to each process, and the stage moves |
| BrachaProcess.Process.Promote | impl/protocols/bracha/process.go:224-229 | the two conditionals after a threshold are one promotion of the machine |
| BrachaProcess.Process.Deliver | impl/protocols/bracha/process.go:180-195 | the value is recorded and the state deleted; all other instances unchanged |
| BrachaProcess.Process.OnInitial | impl/protocols/bracha/process.go:212-215 | the INITIAL case is the machine's |
| BrachaProcess.Process.OnEcho | impl/protocols/bracha/process.go:216-230 | the ECHO case on counters is the machine's on records of votes |
| BrachaProcess.Process.OnReady | impl/protocols/bracha/process.go:231-248 | the READY case on counters is the machine's on records of votes |
| BrachaProcess.Process.React | impl/protocols/bracha/process.go:211-249 | the switch over the message's stage is the machine's reaction |
| BrachaProcess.Process.ProcessProtocolMessage | impl/protocols/bracha/process.go:197-250 | one call is one step of the machine for its instance and none for any other, with exactly that step's messages sent; log and delivered instances stay apart |
| BrachaProcess.Process.Broadcast | impl/protocols/bracha/process.go:270-286 | INITIAL to everyone under the next sequence number, which wraps at 32 bits |
| ReliableRuns.ReactMoves | impl/protocols/accountability/reliable/process.go:423-543 | every reaction to a protocol message keeps witness sets and deferred messages, lets stages only grow, and sends a phase exactly when its stage is passed |
| ReliableRuns.ReadyFromProcessMoves | impl/protocols/accountability/reliable/process.go:501-528 | VALIDATE never overtakes READY_FROM_WITNESS |
| ReliableRuns.CommitmentEffect | impl/protocols/accountability/reliable/process.go:560-713 | a commitment message changes only its instance's commitment part, or commits it with the right hash and age |
| ReliableRuns.ReplayEffect | impl/protocols/accountability/reliable/process.go:354-360 | deferred messages replayed at the delivery are too early to commit |
| ReliableRuns.RunKeepsInv | impl/protocols/accountability/reliable/process.go:340-396 | the invariant of deliveries, checkpoints, reveals and commits holds in every run among arbitrary senders |
| ReliableRuns.RevealWindow | impl/protocols/accountability/reliable/process.go:340-375 | checkpoint numbers are a bijection between delivered transactions and 1..D; live are exactly those in (D - M, D]; begun reveals are those of the first D - M deliveries, in order |
| ReliableRuns.CommitsOnce | impl/protocols/accountability/reliable/process.go:671-687 | a transaction commits at most once, after delivery and M later deliveries, with the delivered value and a secret that hashes to the delivered hash; its state is gone |
| ReliableRuns.CommitsExactly | impl/protocols/accountability/reliable/process.go:658-688 | a commitment message commits a delivered instance if and only if it is a DONE with the delivered hash from an own witness and M deliveries have followed; anything else leaves the instance its state and stages |
| ReliableRuns.RevealFindsItsState | impl/protocols/accountability/reliable/process.go:340-375 | in every run, whatever message delivers, also the first of its instance: in the state in which the delivery happens, after the deferred messages have been replayed, the transaction whose reveal is due still has its state |
| ReliableMixing.WithoutMixingTheStateMayBeGone | impl/protocols/accountability/reliable/process.go:352-368 | with mixing time 0 the due reveal finds its state if and only if no deferred DONE from an own witness with the delivered hash is replayed while the process is up; otherwise the delivery brings the process down |
| ReliableMixing.WithoutMixingAndNoWitness | impl/protocols/accountability/reliable/process.go:352-368 | for a process that is not a potential witness the deferred list, the own set and the hash alone decide it, before the delivery |
| ReliableMixing.WithoutMixingAndHonestShares | impl/protocols/accountability/reliable/process.go:352-368 | for a potential witness with an honest author's ciphertexts the deferred list decides it too: the state is found if and only if every message that would commit comes after a forged share |
| ReliableMixing.WithoutMixingARunComesDown | impl/protocols/accountability/reliable/process.go:352-368 | two inputs that do it from a new process: a DONE from an own witness, then that witness's VALIDATE, with mixing time 0 and a threshold of one witness |
| ReliableMixing.SomeRunComesDown | impl/protocols/accountability/reliable/process.go:352-368 | with minimum sizes of at least 1 such a run exists in every configuration with mixing time 0 and a threshold of one witness |
| ReliableTraces.SendOnce | impl/protocols/accountability/reliable/process.go:414-543 | over every run, also after the state is deleted, each of the five phases of an instance is sent at most once, VALIDATE no more often than READY_FROM_WITNESS |
| ReliableTraces.ValidateAfterReady | impl/protocols/accountability/reliable/process.go:501-528 | in every run each VALIDATE of an instance was sent after a READY_FROM_WITNESS of that instance |
| ReliableTraces.StagesOnlyGrow | impl/protocols/accountability/reliable/process.go:377-381 | from any moment of a run to its end, stages do not fall, commits are not undone, and delivered broadcasts never change |
| ReliableTraces.RebroadcastingForgets | impl/protocols/accountability/reliable/process.go:763-775 | creating the state anew in Broadcast loses nothing if and only if the instance has no state or one equal to a new one; it keeps collected instances collected if and only if the instance is not committed; and no stage falls if and only if the author is at the start of the instance or past its commit |
| ReliableTraces.EchoesTwice | impl/protocols/accountability/reliable/process.go:440-462 | what is lost otherwise: an own witness's ECHO, the author's broadcast, and another such ECHO make the author echo one instance twice |
| ReliableTraces.RevealsSent | impl/protocols/accountability/reliable/process.go:383-396 | the REVEALs a live process has sent are those of all but its last M deliveries, once each, in order of delivery |
| ReliableTraces.BroadcastsInSequence | impl/protocols/accountability/reliable/process.go:741-780 | in every run the k-th NOTIFY a process sends out opens the instance of its own index and the number k in 32 bits, and the counter moves with nothing else |
| ReliableVotes.ReactFits | impl/protocols/accountability/reliable/process.go:423-543 | one handled message leaves both stages and the votes recorded as the messages received until then require |
| ReliableVotes.StagesAreCounts | impl/protocols/accountability/reliable/process.go:407-544 | in every run, while an instance has its state: the witness stage is the one for f + 1 or ceil((n + f + 1) / 2) READYs or so many ECHOs from processes for one value, the process stage the one for u own witnesses' READYs or VALIDATEs; each phase has gone out once if it was ever due and not otherwise, to all n processes or to the potential witnesses, with a value that has the votes; and there is a delivery exactly if u own witnesses validate one value, with such a value |
| ReliableShares.SharesKept | impl/protocols/accountability/reliable/process.go:430-452 | in every run, while an instance has its state, the share kept is the one in the last NOTIFY or ECHO_FROM_WITNESS taken, and a witness keeps all shares of its NOTIFY |
| ReliableShares.ShortListsBringDown | impl/protocols/accountability/reliable/process.go:430-452 | in every run a NOTIFY or ECHO_FROM_WITNESS that is taken brings the process down exactly if its list of shares is too short, and a NOTIFY's shares have by then gone out to as many processes as there were, if the witness's own was among them |
| ReliableShares.RevealsAreShares | impl/protocols/accountability/reliable/process.go:383-396 | every REVEAL sent in a run carries the share then kept, decrypted, and goes to the potential witnesses |
| ReliableShares.HonestShareKept | impl/protocols/accountability/reliable/process.go:430-452 | told honestly by author and own witnesses, a process keeps its own share exactly from its first echo on |
| ReliableShares.HonestReveal | impl/protocols/accountability/reliable/process.go:383-396 | with an honest author and honest own witnesses, a process that has echoed by the time its reveal is due reveals its own part of the code word to all its potential witnesses; one that has not decrypts a missing share |
| ReliableDones.DonesAreTrue | impl/protocols/accountability/reliable/process.go:620-687 | in every run a DONE is sent only for a delivered instance and with a secret that hashes to the delivered hash, and a transaction commits only with a secret the process has itself sent as DONE; no state is ever left at the stage that would suppress it |
| ReliableDones.DoneHonest | impl/protocols/accountability/reliable/process.go:658-688 | handling a DONE passes on only secrets with the delivered hash, and a commit tells the secret, in any state that DonesAreTrue shows reachable |
| ReliableDones.CommitTellsWitnesses | impl/protocols/accountability/reliable/process.go:671-687 | in every run, a DONE that commits its instance goes on as it came to all potential witnesses |
| ReliableBystanders.FailureToldOnce | impl/protocols/accountability/reliable/process.go:689-711 | in every run, a process outside its own potential set has said of a delivered secret, until it commits, FAILED once and to its potential witnesses exactly if one of its own witnesses told it so, and no DONE |
| ReliableNetwork.ReactReasoned | impl/protocols/accountability/reliable/process.go:463-542 | a reaction counts at most the sender's vote, and announces or delivers a value only with the votes its threshold asks for |
| ReliableNetwork.ProcessVotersEndorse | impl/protocols/accountability/reliable/process.go:509-516 | f + 1 READY_FROM_PROCESS for v lead back to a quorum of echoes for v |
| ReliableNetwork.WitnessVotersEndorse | impl/protocols/accountability/reliable/process.go:490-541 | u votes from own witnesses lead back to a quorum of echoes, if fewer than u own witnesses are Byzantine |
| ReliableNetwork.RunKeepsNetInv | impl/protocols/accountability/reliable/process.go:407-544 | in every run of n processes, all instances and both layers at once, votes were really cast and, for an instance for which each correct process's own set has fewer than u Byzantine members throughout, every announced or delivered value has a quorum of possible echoers |
| ReliableNetwork.Agreement | impl/protocols/accountability/reliable/process.go:529-541 | accountable agreement: correct processes that delivered an instance delivered the same Value, even with different witness sets, if each own set for that instance has fewer than u Byzantine members throughout, whatever those for other instances are |
| ReliableNetwork.OneReadyValue | impl/protocols/accountability/reliable/process.go:463-516 | under the same hypothesis on one instance all READY_FROM_WITNESS, READY_FROM_PROCESS and VALIDATE of correct processes for an instance carry one value |
| ReliableHashes.OneValueTwoHashes | impl/protocols/accountability/reliable/process.go:529-541 | agreement is on the value only: for any value and any two hashes, three processes with one Byzantine have a run within the hypotheses of agreement in which the two correct ones deliver that value, one with each hash |
| ReliableHashes.EveryoneIsWitness | impl/protocols/accountability/reliable/process.go:219-226 | with minimum sizes of at least n every process is an own and a potential witness |
| ReliableProvenance.ReactRepeats | impl/protocols/accountability/reliable/process.go:424-462 | an echo repeats the value just received: a witness's that of a NOTIFY, a process's that of an ECHO_FROM_WITNESS from its own set |
| ReliableProvenance.RunSourced | impl/protocols/accountability/reliable/process.go:424-462 | if NOTIFY for the instance is taken from its correct author only and own witnesses for it are correct, every echo of a correct process carries a value the author notified |
| ReliableProvenance.NoInvention | impl/protocols/accountability/reliable/process.go:340-345 | under that hypothesis and that of agreement, both on the one instance, a correct process delivers only a value that the author notified |
| ReliableWitnesses.EqualCommitsEqualWitnesses | impl/protocols/accountability/reliable/process.go:219-226 | equal multisets of committed secrets, in any order, give two processes the same witness sets for the next instance |
| ReliableWitnesses.NearbyCommitsOverlap | impl/protocols/accountability/reliable/process.go:219-226 | committed secrets differing in at most k and radii at least k apart: a node one process owns by radius is a potential witness of the other |
| ReliableSecrets.BroadcastIsHonest | impl/protocols/accountability/reliable/process.go:741-780 | a broadcast goes out exactly if every share can be encrypted, and otherwise brings the process down; it goes to the author's witnesses with the hash of f + 1 sampled integers and, for each process, its share of their code word under its key, and takes the next number |
| ReliableSecrets.ShardsHold | impl/protocols/accountability/reliable/process.go:793-805 | the shards handed to the encoder read as the secret, followed by zeros |
| ReliableSecrets.OnlyTheRealShareIsGenuine | impl/protocols/accountability/reliable/process.go:605-618 | a witness with the author's ciphertexts accepts a revealed share exactly if it is the author's share for that sender |
| ReliableSecrets.OwnShareIsGenuine | impl/protocols/accountability/reliable/process.go:383-396 | a process holding its own ciphertext reveals that very share |
| ReliableSecrets.CodeWordHoldsSecret | impl/protocols/accountability/reliable/process.go:626-631 | the first f + 1 shares of the code word decode to the sampled vector |
| ReliableSecrets.SecretRoundTrip | impl/protocols/accountability/reliable/process.go:589-657 | for any sequence of reveals handled from one state a witness with an honest author's ciphertexts comes down only on a forged share, and after 2f + 1 revealers it has sent, once, DONE with the sampled secret, or FAILED if another hash was delivered |
| ReliableSecrets.HashAddsUp | impl/protocols/accountability/reliable/helpers.go:43-51 | the commitment hash of a joined list is the 32-bit sum of the two hashes; that of one number is the number, and that of none 0 |
| ReliableSecrets.UncheckedCollection | impl/protocols/accountability/reliable/process.go:597-618 | a witness that never had the author's shares checks none: short of 2f + 1 revealers it takes what each says first, and says nothing |
| ReliableSecrets.UncheckedRebuild | impl/protocols/accountability/reliable/process.go:620-656 | with the share of the (2f + 1)-th revealer it comes down if no secret can be put together, and otherwise says to everyone DONE with what came out, if that has the delivered hash, or FAILED |
| ReliableReveals.HandledSettles | impl/protocols/accountability/reliable/process.go:560-713 | a commitment message for a delivered instance brings a witness with an honest author's ciphertexts down if and only if it is a forged share: the first of its sender while reveals are collected, and not the author's; otherwise state and answers follow from what has been taken in |
| ReliableReveals.ReplaySettles | impl/protocols/accountability/reliable/process.go:354-360 | so do the deferred messages replayed in a delivery, of which exactly a forged share brings the process down as long as none commits |
| ReliableRoundTrip.SecretRoundTripInRuns | impl/protocols/accountability/reliable/process.go:560-713 | in every run in which a witness has passed on an honest author's shares, before the delivery or before it takes in anything of the secret, and stays up: DONE is sent if and only if someone told it a secret with the delivered hash, or that hash is the author's and 2f + 1 processes revealed before the first FAILED or such DONE it heard; FAILED if and only if it heard one before committing, or the hash is not the author's and so many revealed; a DONE carries the author's secret or one it was told |
| ReliableRoundTrip.FailureFirst | impl/protocols/accountability/reliable/process.go:589-711 | a FAILED from any one process, taken in first, keeps the witness from sending DONE whatever is revealed to it afterwards, and makes it send FAILED |
| ReliableRoundTrip.ForgedShareBringsDown | impl/protocols/accountability/reliable/process.go:605-618 | at any later moment of such a run, the next commitment message brings the process down if and only if it is a forged share |
| ReliableRoundTrip.NotifyGivesShares | impl/protocols/accountability/reliable/process.go:423-443 | the first NOTIFY with an honest author's shares, before or after the delivery, brings a potential witness into the state from which that holds |
| ReliableRoundTrip.RunWaits | impl/protocols/accountability/reliable/process.go:569-586 | in every run, what was heard of an undelivered instance is exactly its deferred list, in order; nothing is revealed or said until something has been taken in |
| ReliableRoundTrip.TakenIsHeard | impl/protocols/accountability/reliable/process.go:566-568 | what is taken in is all that is heard, up to the commit |
| ReliableRoundTrip.TakeElsewhere | impl/protocols/accountability/reliable/process.go:340-713 | an input for one instance leaves the state, delivery and commit of every other as they were and says no DONE or FAILED for it |
| ReliableLibraries.FourProcessesAreSound | impl/protocols/accountability/reliable/process.go:165-174 | the assumptions on the erasure code and the encryption can be met: four processes, one fault, two data and two parity shares of four bytes each, and a key for every process |
| ReliableLibraries.TwoOfFour | impl/protocols/accountability/reliable/process.go:165-174 | any two of those four shares determine the secret |
| ReliableOutbox.EachOnce | impl/protocols/accountability/reliable/process.go:284-320 | a broadcast reaches each member of its set exactly once and nobody else |
| ReliableOutbox.ShareEachOnce | impl/protocols/accountability/reliable/process.go:433-444 | process i is sent share i, once, and no other share |
| ReliableProcess.CountVote | impl/protocols/accountability/reliable/process.go:470-471 | counters represent the record of first votes with one more vote, and the count returned is the number of voters for the value |
| ReliableProcess.MessageState.constructor | impl/protocols/accountability/reliable/process.go:79-102 | a new state represents no votes at the first stages with the given witness sets |
| ReliableProcess.MessageState.CountEcho | impl/protocols/accountability/reliable/process.go:470-471 | the view gains the sender's echo and the count is that of its voters |
| ReliableProcess.MessageState.CountReady | impl/protocols/accountability/reliable/process.go:506-507 | the view gains the sender's ready vote |
| ReliableProcess.MessageState.CountWitnessReady | impl/protocols/accountability/reliable/process.go:487-488 | the view gains the witness's ready vote |
| ReliableProcess.MessageState.CountValidate | impl/protocols/accountability/reliable/process.go:536-537 | the view gains the witness's validate vote |
| ReliableProcess.Process.constructor | impl/protocols/accountability/reliable/process.go:145-217 | thresholds, shares and hashes are those of the parameters, nothing has been delivered or sent, and the process is valid if its configuration is sound |
| ReliableProcess.Process.BroadcastMessage | impl/protocols/accountability/reliable/process.go:284-300 | one message to each process |
| ReliableProcess.Process.BroadcastToWitnesses | impl/protocols/accountability/reliable/process.go:302-320 | one message to each potential witness, in any order |
| ReliableProcess.Process.BroadcastReadyFromWitness | impl/protocols/accountability/reliable/process.go:322-334 | READY_FROM_WITNESS to each process, and the witness stage moves |
| ReliableProcess.Process.SendShares | impl/protocols/accountability/reliable/process.go:433-444 | share i to process i, up to where a short list panics |
| ReliableProcess.Process.OnNotify | impl/protocols/accountability/reliable/process.go:424-446 | the NOTIFY case is the machine's, panics included |
| ReliableProcess.Process.OnEchoFromWitness | impl/protocols/accountability/reliable/process.go:447-462 | the ECHO_FROM_WITNESS case is the machine's |
| ReliableProcess.Process.OnEchoFromProcess | impl/protocols/accountability/reliable/process.go:463-479 | the ECHO_FROM_PROCESS case on counters is the machine's on votes |
| ReliableProcess.Process.OnReadyFromWitness | impl/protocols/accountability/reliable/process.go:480-500 | the READY_FROM_WITNESS case on counters is the machine's on votes |
| ReliableProcess.Process.Promote | impl/protocols/accountability/reliable/process.go:509-528 | the two conditionals after a counted READY are the machine's promotion |
| ReliableProcess.Process.OnReadyFromProcess | impl/protocols/accountability/reliable/process.go:501-528 | the READY_FROM_PROCESS case on counters is the machine's on votes |
| ReliableProcess.Process.OnValidate | impl/protocols/accountability/reliable/process.go:529-539 | the VALIDATE case, up to the delivery, is the machine's |
| ReliableProcess.Process.React | impl/protocols/accountability/reliable/process.go:423-543 | the switch over the stage is the machine's reaction |
| ReliableProcess.Process.DecodeIntegers | impl/protocols/accountability/reliable/process.go:626-629 | the loop decodes the first f + 1 shares, or panics on one that is too short |
| ReliableProcess.Process.IsGenuine | impl/protocols/accountability/reliable/process.go:605-618 | the comparison with the author's ciphertext |
| ReliableProcess.Process.Rebuild | impl/protocols/accountability/reliable/process.go:620-656 | reconstruction and the comparison of hashes, with DONE or FAILED to everyone |
| ReliableProcess.Process.OnReveal | impl/protocols/accountability/reliable/process.go:589-657 | the REVEAL case is the machine's, fatal errors included |
| ReliableProcess.Process.OnDone | impl/protocols/accountability/reliable/process.go:658-688 | the DONE case, up to the commit, is the machine's |
| ReliableProcess.Process.OnFailed | impl/protocols/accountability/reliable/process.go:689-711 | the FAILED case is the machine's |
| ReliableProcess.Process.ReactToCommitment | impl/protocols/accountability/reliable/process.go:588-712 | the switch over the stage of a commitment message is the machine's reaction |
| ReliableProcess.Process.NewMessageState | impl/protocols/accountability/reliable/process.go:222-226 | a new state has the witness sets of the secrets committed so far |
| ReliableProcess.Process.InitMessageState | impl/protocols/accountability/reliable/process.go:219-232 | the log gains a new state for the instance, whether or not it had one |
| ReliableProcess.Process.RegisterMessage | impl/protocols/accountability/reliable/process.go:234-242 | the state of the instance, created if missing |
| ReliableProcess.Process.AddSecret | impl/protocols/accountability/reliable/process.go:546-558 | every history hash gains the secret once; the log is untouched |
| ReliableProcess.Process.CleanUp | impl/protocols/accountability/reliable/process.go:377-381 | the state is deleted and the value recorded; the hashes hold exactly the committed secrets again |
| ReliableProcess.Process.Settle | impl/protocols/accountability/reliable/process.go:671-687 | commit or crash after a reaction, as the machine applies it |
| ReliableProcess.Process.Defer | impl/protocols/accountability/reliable/process.go:577-586 | a message for an undelivered instance is counted and queued |
| ReliableProcess.Process.CountAndReact | impl/protocols/accountability/reliable/process.go:569-712 | counting and reacting on one state, with the age since delivery |
| ReliableProcess.Process.HandleRegistered | impl/protocols/accountability/reliable/process.go:574-712 | deferred or reacted to, once there is a state |
| ReliableProcess.Process.ProcessCommitmentProtocolMessage | impl/protocols/accountability/reliable/process.go:560-713 | one call is one commitment step of the machine, with exactly its messages sent |
| ReliableProcess.Process.Record | impl/protocols/accountability/reliable/process.go:344-350 | a delivery takes the next number as its checkpoint |
| ReliableProcess.Process.ReplayPending | impl/protocols/accountability/reliable/process.go:354-360 | the loop over deferred messages is the machine's replay, also when one of them commits |
| ReliableProcess.Process.StartRevealPhase | impl/protocols/accountability/reliable/process.go:383-396 | the decrypted share goes to the witnesses; a missing state or a bad ciphertext brings the process down |
| ReliableProcess.Process.RevealWhatIsDue | impl/protocols/accountability/reliable/process.go:363-368 | the reveal of the delivery M back, if its checkpoint is live, which is then dropped |
| ReliableProcess.Process.ClearPending | impl/protocols/accountability/reliable/process.go:361 | the queue of the instance's object is emptied, on or off the log |
| ReliableProcess.Process.DeliverBroadcast | impl/protocols/accountability/reliable/process.go:340-375 | one call is one delivery of the machine: record, replay, clear, reveal |
| ReliableProcess.Process.SetDelivered | impl/protocols/accountability/reliable/process.go:541 | the stage is set after the delivery, on or off the log |
| ReliableProcess.Process.SettleProtocol | impl/protocols/accountability/reliable/process.go:539-542 | crash or delivery after a reaction, as the machine applies it |
| ReliableProcess.Process.ProcessReliableProtocolMessage | impl/protocols/accountability/reliable/process.go:407-544 | one call is one protocol step of the machine, with exactly its messages sent; the history hashes hold the committed secrets |
| ReliableProcess.Process.EncodeEntropy | impl/protocols/accountability/reliable/process.go:793-807 | data shares from the secret, zero shares behind them, handed to the encoder |
| ReliableProcess.Process.EncryptShares | impl/protocols/accountability/reliable/process.go:758-761 | every share under its own process's key, or a fatal error |
| ReliableProcess.Process.Broadcast | impl/protocols/accountability/reliable/process.go:741-780 | one call is one broadcast step of the machine: new state, NOTIFY to its potential witnesses, next sequence number |
| Scalable.PickedWeighs | impl/protocols/scalable/process.go:211-216 | a sample of so many picks weighs that much, and every member at least 1 |
| Scalable.PickedCounts | impl/protocols/scalable/process.go:211-216 | each process weighs as often as it was picked |
| Scalable.RunKeepsInv | impl/protocols/scalable/process.go:340-446 | in every run of a fresh instance, whatever arrives, the invariant of subscriptions, samples and sieve holds |
| Scalable.CatchUp | impl/protocols/scalable/process.go:259-426 | every ECHO subscriber has been sent exactly one ECHO and nobody else any; every gossip peer the gossip and nobody else any; every READY subscriber a READY for every announced value and nobody else any |
| Scalable.WeightsAddUp | impl/protocols/scalable/process.go:406-407 | echo weights summed over values are the weight of the senders with those values |
| Scalable.EchoWeightBounded | impl/protocols/scalable/process.go:401-409 | the echo counters add up to the weight of the senders heard, at most the sample size |
| Scalable.RunOnward | impl/protocols/scalable/process.go:340-446 | from any moment of a run to its end, samples, votes, announcements, echo and sieve are not taken back, and a state goes only after delivery and for good |
| Scalable.OneValueReaches | impl/protocols/scalable/process.go:327-338 | with a threshold above half the sample at most one value ever reaches it: a value there at any moment of a run and one there at the end are equal |
| Scalable.SieveLetsOneThrough | impl/protocols/scalable/process.go:327-338 | once the sieve has fired, until the state goes, the process's echo stays what it was and stays announced, and above half the sample no other value ever reaches the threshold |
| Scalable.SieveFiresOnce | impl/protocols/scalable/process.go:327-338 | the sieve fires at most once in a run, expiry of the state included |
| ScalableCounts.RunIs | impl/protocols/scalable/process.go:340-446 | in every run the state is a function of the event that opened the instance and the messages received since: samples and subscribers, the gossip and the echo as the first gossip's value, the sampled processes' first echoes, the weights of READYs; the sieve has fired exactly if the own echo has the echo threshold; and each subscription went out once |
| ScalableCounts.DeliversExactly | impl/protocols/scalable/process.go:437-443 | in every run v is delivered if and only if it is the first value whose READYs handled, each with its sender's weight in the delivery sample, add up to the delivery threshold |
| ScalableCounts.AnnouncesExactly | impl/protocols/scalable/process.go:327-338 | in every run, while there is a state, v is announced if and only if its READYs have the ready threshold in the ready sample, or it is the first gossip and the sampled processes that echoed it first have the echo threshold |
| ScalableCounts.CountsUntilDelivery | impl/protocols/scalable/process.go:353-363 | in every run a state has counted the messages received until its delivery, and none after |
| ScalableProcess.WeighEcho | impl/protocols/scalable/process.go:406-407 | the running weights represent the record of echoes after one more |
| ScalableProcess.MessageState.constructor | impl/protocols/scalable/process.go:44-67 | a new state with the given samples and nothing heard or sent |
| ScalableProcess.MessageState.CountEcho | impl/protocols/scalable/process.go:406-407 | the view gains the sender's echo |
| ScalableProcess.Process.BroadcastToSet | impl/protocols/scalable/process.go:249-257 | one message to each member of the set, in any order |
| ScalableProcess.Process.TakeSample | impl/protocols/scalable/process.go:205-227 | the sample counts the picks, and each process picked is subscribed with once |
| ScalableProcess.Process.InitMessageState | impl/protocols/scalable/process.go:133-175 | a new state with its samples, and the subscriptions sent |
| ScalableProcess.Process.BroadcastGossip | impl/protocols/scalable/process.go:259-274 | the gossip message is set and sent to the gossip sample |
| ScalableProcess.Process.BroadcastReady | impl/protocols/scalable/process.go:276-291 | the value is recorded as announced and READY sent to the subscribers |
| ScalableProcess.Process.MaybeSendReadyFromSieve | impl/protocols/scalable/process.go:327-338 | on running weights, the sieve of the machine on records of echoes |
| ScalableProcess.Process.OnGossipSubscribe | impl/protocols/scalable/process.go:367-375 | the GOSSIP_SUBSCRIBE case is the machine's |
| ScalableProcess.Process.OnGossip | impl/protocols/scalable/process.go:376-391 | the GOSSIP case is the machine's |
| ScalableProcess.Process.OnEchoSubscribe | impl/protocols/scalable/process.go:392-400 | the ECHO_SUBSCRIBE case is the machine's |
| ScalableProcess.Process.OnEcho | impl/protocols/scalable/process.go:401-409 | the ECHO case is the machine's |
| ScalableProcess.Process.OnReadySubscribe | impl/protocols/scalable/process.go:410-426 | the READY_SUBSCRIBE case is the machine's, with a READY for each announced value in any order |
| ScalableProcess.Process.CountReady | impl/protocols/scalable/process.go:428-435 | the first half of the READY case is the machine's |
| ScalableProcess.Process.CountForDelivery | impl/protocols/scalable/process.go:437-443 | the second half of the READY case, up to the delivery, is the machine's |
| ScalableProcess.Process.React | impl/protocols/scalable/process.go:366-445 | the switch over the stage is the machine's reaction |
| ScalableProcess.Process.ProcessProtocolMessage | impl/protocols/scalable/process.go:340-446 | one call is one step of the machine, with exactly its messages sent |
| ScalableProcess.Process.Broadcast | impl/protocols/scalable/process.go:466-482 | a new state and the gossip message, as the machine publishes |
| ScalableProcess.Process.CleanUp | impl/protocols/scalable/process.go:318-324 | the expired state is dropped and the delivery kept |

## Left out

- Totality of the accountable protocol: a process that has delivered drops later READY_FROM_WITNESS messages, so it may never send READY_FROM_PROCESS.
- At-most-once sending of DONE and FAILED: the reveal stage is one field that is overwritten back and forth.
- Availability of a process's own ciphertext when its reveal falls due: a delivery does not imply that a share was received; ReliableShares.HonestReveal says what is revealed with and without one.
- The counters of messages received in the accountable protocol: they are carried, but only the log reads them.
- Counting of READYs by distinct senders in the sampled protocol: the handler counts messages, and so does the model; the map it fills and never reads is dropped.
- Random and Poisson sampling, the timer before a clean-up, and mutexes: samples are inputs of the right sizes, and an expiry may come at any time after delivery.
- The map from instances to states in the sampled protocol: ScalableProcess is the object for one instance.
- The consistent protocol, which hands a one-element list of hashes to a selector that needs one for every node, and whose witnesses may echo several values.
- RSA, SHA-2 and Reed-Solomon themselves: encryption, hashing and coding are parameters, with the assumptions above where a theorem needs them.
- Context counters, logging (attack reports included), the channel of own deliveries, UDP, actors, protocol buffers, configuration and analysis scripts.
- TransactionToBytes and addBytes, multiRingFromBytes, ToString: the modelled protocols do not use them.
- Go's sort.Sort: Selection.Sort is an insertion sort; what is proved in WitnessSets holds for any order a sort may leave equal distances in.
- Floating point: distances are exact integers and radii are reals.
- BrachaProcess.Process.ProcessProtocolMessage: asks for an existing author, because the source's maps have no entry for another one and writing there panics; the accountable model halts instead.
- BrachaNetwork.Agreement: does not relate n to f, because it holds without; totality and validity ask for n >= 3f + 1.
- ReliableNetwork.Agreement: does not cover the secret hash, because it need not agree (ReliableHashes.OneValueTwoHashes).
- ReliableSecrets.SecretRoundTrip: does not cover a witness that never received the author's ciphertexts, because such a witness accepts any share; ReliableSecrets.UncheckedCollection and UncheckedRebuild say what it does.
- ReliableRoundTrip.SecretRoundTripInRuns: does not cover a witness that takes in reveals of a delivered instance before it has the author's ciphertexts, because it accepts any share until then.
- ReliableLibraries.FourProcessesAreSound: is for four processes, because it only shows that the assumptions are not contradictory; Reed-Solomon codes for other sizes are left to the library.
- WitnessSets.PotentialForAllNearby: is exact over distance vectors within k; which of those vectors some history within k produces depends on the hash function, which is a parameter.
- HistoryHashing.MultiRing.Merge: asks for a second ring at least as long, because the source indexes past the end of a shorter one.
- Process identifiers are indices; the source maps strings to indices and back. Nested maps by author and sequence number are maps by instance, and negative authors are not represented.
- Nil pointers inside messages and message stages outside the enumeration, except for Bracha's, where an unknown stage only counts as received.
