# A verified model of the Raft key/value service and its linearizability checker

The repository holds three things that lean on each other: a Raft implementation
(`src/raft/raft.go`), a key/value service replicated through it (`src/kvraft`), and a
linearizability checker (`src/porcupine`) with the sequential specification of the service
(`src/models/kv.go`) by which the service is judged. This project models all three and proves what
each is for; `EndToEnd.dfy` puts them together. `dafny verify dfyconfig.toml` checks the project.

## Raft

`RaftPeer.dfy` gives each critical section under the peer's mutex as a function on a peer;
`RaftNode.dfy` is the peer as the object it is, with its loops, each method proved equal to its
function. `RaftCluster.dfy` puts any number of peers over a set of messages that only grows, which
covers loss, delay, reordering and duplication, and lets any peer crash and restart at any step, or
between the two writes to storage of one handler.
Requests and replies are separate steps, so everything may change between them.

The safety proof is one inductive invariant of votes and logs (`RaftInvariant.dfy`), kept by every
step (`RaftMoves.dfy`, `RaftSteps.dfy`, `RaftReplication.dfy`), and on top of it a second one of commit
indices (`RaftCommits.dfy`). They speak of a history that no peer stores: who reigned in each term with
which log, on which log each vote was cast, and how far each peer acknowledged each reign.
`RaftTheorems.dfy` and `RaftPermanence.dfy` state the results over whole runs.

The code departs from its comments in three places:

* On an append request of the peer's own term, `becomeFollowerLocked` clears the vote
  (`src/raft/raft.go:549-557`, `:429`), although `:88` says it prevents a second vote. A peer can
  then vote twice in a term.
* The follower's commit index is capped by the end of its own log (`src/raft/raft.go:629`), although
  `:626` says by the new entries. Batches are cut at 100 entries, so a stale entry past the batch can
  be committed.
* Several appliers may run at once, each taking an index under the lock and sending it later
  (`src/raft/raft.go:800-819`, started at `:633` and `:748`), although `:799` says in order. The service
  drops the late one (`src/kvraft/server.go:250`).

For the first two the model has a rule each, as written and as intended, in all four combinations
(`Rules`; the code is `WRITTEN`, both as written). The theorems of Raft are proved in two
ways:

* For a given run of any rules, under conditions on that run: for votes and logs, that no peer votes
  twice in a term (`OneVoteRun`); for commit indices also that no follower commits past the entries a
  request verified (`BenignRun`); for storage, none.
* For all runs (`RaftExactly.dfy`), exactly: whether every run of a cluster of n peers is safe depends
  on the two rules and n alone. One leader for each term, log matching and the place of proposals hold
  in every run if and only if the vote is kept or n is at most 2. State machine safety, leader
  completeness, agreement of deliveries, permanence of committed entries and the range of the applied
  index hold in every run if and only if both rules are as intended or n is at most 2. Commit indices
  rise in every run if and only if the cap is as intended or n is at most 2. So the code as written
  meets them in clusters of one or two peers and fails them in all larger ones.

The failing runs are built for every n from three up, out of sweeps over the peers (`RaftRuns.dfy`,
`RaftMajorities.dfy`, `RaftElections.dfy`): `RaftLostVote.dfy` and `RaftLostProposal.dfy` use the lost vote only,
`RaftStaleSuffix.dfy` and `RaftStaleLost.dfy` the commit cap only. `RaftSmall.dfy` is the proof for two
peers. `RaftDeviations.dfy` says exactly on which single requests each written handler differs from the
intended one. In `RaftStaleSuffix`, `RaftStaleLost` and `RaftLostProposal` a peer that leads times out
and stands again. In the code that takes a race in the ticker (`src/raft/raft.go:338-361`): it reads the
role, unlocks, and becomes a candidate under a new lock without looking again.

The third departure is a number: how many appliers a peer has. `RaftAppliers.dfy` gives what they do,
apart from the one critical section that is `RaftPeer.Apply`, and proves that entries reach the service
in order in every run exactly when at most one applier runs. `KvState.AnyOrder` says what a server makes
of deliveries in any order, and `KvState.OutOfOrder` exactly when two swapped neighbours do no harm.
The code sets no bound: every rise of the commit index starts an applier. The model's k appliers are
there from the start; in the failing run below the commit index rises twice before two of them take an
entry, as the code needs it.

That nothing is refused too much is proved as well, for all rules: from any state that any run can reach,
any majority can elect one of its members (`RaftElectable.dfy`), and if it has two members or more, commit
any command (`RaftProgress.dfy`). `RaftTerms.dfy` says what peers learn of each other's terms and progress:
who is refused as out of date steps down, terms never fall, a vote is granted exactly when it should be.

`CatchUp.dfy` runs the replication loop between two peer objects and counts its rounds.

## Checker

`Linearizability.dfy` says what it means for a history to be linearizable. `Search.dfy` and
`SearchBound.dfy` are the backtracking search on values; `EntryList.dfy` (linked nodes, lift and
unlift), `Bitset.dfy` and `Memo.dfy` (hash buckets) are its structures in memory, and
`CheckSingle.dfy` is the search on them: its answer is exact in both directions, it terminates, and
its partial results are real and, when a history fails, the longest there are (`SearchPartials.dfy`:
every pair that a partial linearization reaches is entered). `Operations.dfy`, `Events.dfy`, `Partition.dfy` and `Locality.dfy` carry
the answer to histories given by times or events and split by key; `CheckParallel.dfy` carries it to
the verdict, under any interleaving of workers, kill flag and timeout.

## Service

`KvState.dfy` is what a server keeps and does to one command; `KvServer.dfy` and `Clerk.dfy` are the
server and the client as objects. `KvService.dfy` is the whole system, step by step over a run of the
cluster: clerks that number and retry their operations, handlers that wait at a log index, appliers
that read the peer's term only when they apply, and crashes that empty all of it but what Raft stores.
`KvAnswers.dfy` says that its clerks get answers: what a server makes of an operation always ends it.
`KvTheorem.ServiceLinearizable` is the result over benign runs of the cluster: what the callers saw,
completed by some operations that had not returned, is linearizable for the whole key map.

`KvExactly.LinearizableExactly` is the result over all runs, of n servers with k appliers each: the
service is linearizable in every run if and only if k is 1 and the cluster is safe (both rules are as
intended, or n is at most 2), or else nothing ever returns (k is 0, or n is at most 1). (A server alone never
commits, since the commit index moves only when a reply arrives, `src/raft/raft.go:741`:
`KvSilent.dfy`.) In the failing runs clerks append to one key and two others read it, and what the reads
return fits into no order: over an unsafe cluster, on which two peers commit different entries
(`KvUnsafe.dfy`), or with a second applier on a cluster in which nothing goes wrong (`RaftInStep.dfy`,
`KvReordered.dfy`), because one server executes two entries in the wrong order and drops the earlier one.
So the code as written, with no bound on its appliers, is linearizable for no number of servers that
ever answers. `EndToEnd.NeverIllegalExactly` carries both halves to what the checker may say.

Assumed of the outside: clients have distinct ids (they are random 62-bit numbers), the encoding of
messages and of stored state is a round trip, and a crashed server sends nothing more. Time is the
number of a step. Values that make the specification's type assertions panic are refused by
`KvModel.Step` instead.

## Model

| member | source | states |
|---|---|---|
| RaftNode.Raft.constructor | src/raft/raft.go:378-400 | a new peer over stored state is the restart of the crashed one |
| RaftNode.Raft.ReadPersist | src/raft/raft.go:127-152 | restores term, vote and log, and puts back the sentinel if the log is empty |
| RaftNode.Raft.Persist | src/raft/raft.go:115-124 | stores exactly term, vote and log, and changes nothing else |
| RaftNode.Raft.BecomeFollower | src/raft/raft.go:423-432 | the whole new state of a peer that steps down |
| RaftNode.Raft.BecomeCandidate | src/raft/raft.go:435-442 | the whole new state of a peer that stands: next term, own vote, stored |
| RaftNode.Raft.BecomeLeader | src/raft/raft.go:445-457 | every next index is one past the log, every match index 0 |
| RaftNode.Raft.CandidateUpToDate | src/raft/raft.go:177-183 | decides the election restriction: last term first, then last index |
| RaftElectable.PassesOrders | src/raft/raft.go:177-183 | the restriction orders all logs: of any two one passes for the other, passing carries over, and both pass exactly when last term and length are the same |
| RaftElectable.LaterTermPasses | src/raft/raft.go:177-183 | a different last term decides alone |
| RaftNode.Raft.RequestVote | src/raft/raft.go:186-219 | state and reply are those of the vote handler of the protocol, on every request |
| RaftTerms.GrantedExactly | src/raft/raft.go:186-219 | a vote is granted if and only if the candidate's log passes and the term is new, or the same without a vote for another |
| RaftTerms.VoteRepeats | src/raft/raft.go:186-219 | a granted vote is stored, and granted again to the same candidate without further change |
| RaftTerms.EarlierRefused | src/raft/raft.go:190-195 | a request of an earlier term changes nothing and is refused with the newer term |
| RaftTerms.LeaderStepsDown | src/raft/raft.go:497-502 | a leader refused by a peer of a newer term is a follower of that term once it handles the refusal, with nothing voted and so stored |
| RaftTerms.SenderStepsDown | src/raft/raft.go:497-502 | the same of any peer that sees a term, which changes nothing if it is no newer |
| RaftTerms.OldLeaderFalls | src/raft/raft.go:460-505 | under any rules, from every state of every run, a heartbeat can make a leader step down to the newer term of any other peer |
| RaftTerms.OldCandidateFalls | src/raft/raft.go:858-916 | so can a request for a vote a candidate |
| RaftTerms.CanCrash | src/raft/raft.go:378-400 | any peer can crash in any state, and follows again with its term, vote and log, and nothing committed |
| RaftTerms.CanCrashInside | src/raft/raft.go:549-624 | or inside the handler of a newer request, and comes back in that term without a vote and with its log |
| RaftTerms.TermsRise | src/raft/raft.go:115-152 | under any rules the term of a peer never falls, over crashes and restarts |
| RaftTerms.ReplyTeaches | src/raft/raft.go:724-769 | a leader never thinks less of a follower for a late reply; a success moves it to the very next entry, a refusal back by one and not below 1 |
| RaftTerms.LateReplyIgnored | src/raft/raft.go:711-719 | a reply of another term, or to a peer that no longer leads, changes nothing |
| RaftTerms.ProposerKnowsItself | src/raft/raft.go:279-296 | after a proposal the leader's own match and next index are at the end of its log |
| RaftElectable.AnyMajorityElects | src/raft/raft.go:831-930 | under any rules, from every state of every run, any majority can elect the member whose log passes for all of it |
| RaftProgress.AnyMajorityCommits | src/raft/raft.go:265-797 | under any rules, from every state of every run, any majority of two or more can commit any command |
| RaftNode.Raft.MergeEntries | src/raft/raft.go:598-622 | the loop that cuts at the first conflict and appends computes the merge of log and entries |
| RaftPeer.OverlapMeets | src/raft/raft.go:600-613 | the merge loop stops exactly after the longest stretch of equal terms |
| RaftPeer.MergeExact | src/raft/raft.go:596-624 | a merge keeps the verified prefix, meets every new entry, and leaves the log alone if and only if it held them all |
| RaftNode.Raft.AppendEntries | src/raft/raft.go:533-636 | state and reply are those of the written append handler, on every request |
| RaftNode.Raft.Start | src/raft/raft.go:265-315 | only a leader appends; the index and term returned are those of the new entry |
| RaftNode.Raft.HeartbeatFor | src/raft/raft.go:460-505 | the heartbeat names the leader's last entry and commit index |
| RaftNode.Raft.SeeReplyTerm | src/raft/raft.go:497-502 | a higher term in a reply makes the peer a follower of it, any other changes nothing |
| RaftNode.Raft.NextBatch | src/raft/raft.go:647-699 | a batch is sent exactly while leader of the started term with unsent entries, and is the next 100 of them |
| RaftNode.Raft.OnReply | src/raft/raft.go:711-769 | what a reply does after role and term are checked again: match and next index, then commit |
| RaftNode.Raft.CountHolders | src/raft/raft.go:783-791 | the counting loop counts the set of peers known to hold the index |
| RaftPeer.CommitPoint | src/raft/raft.go:773-797 | the new commit index is committable, and no higher index is |
| RaftNode.Raft.TryAdvanceCommit | src/raft/raft.go:773-797 | the downward loop finds that point |
| RaftNode.Raft.TakeCommitted | src/raft/raft.go:800-819 | takes the entry after the last applied one, if it is committed |
| RaftInvariant.LeaderCompleteness | src/raft/raft.go:773-797 | an entry of its own term that a majority acknowledged is in the log of every later reign |
| RaftInvariant.Elector | src/raft/raft.go:186-219 | some voter of every later reign held the committed entry when it voted |
| RaftInvariant.ElectedHolds | src/raft/raft.go:177-183 | a log that passes the vote check of such a voter holds the committed entry |
| RaftSteps.OneLeader | src/raft/raft.go:831-930 | two majorities of one term elected the same candidate |
| RaftSteps.VoteRequestKeeps | src/raft/raft.go:186-219 | the vote handler keeps the invariant |
| RaftSteps.WinKeeps | src/raft/raft.go:918-926 | becoming leader on a majority of votes keeps the invariant |
| RaftReplication.MergeMerges | src/raft/raft.go:563-624 | a merge after a passed consistency check holds the leader's log up to the last entry sent, and never cuts entries that agree |
| RaftReplication.AppendKeeps | src/raft/raft.go:533-636 | the append handler keeps the invariant |
| RaftReplication.SubmitKeeps | src/raft/raft.go:265-315 | a proposal keeps the invariant |
| RaftReplication.BatchReplyKeeps | src/raft/raft.go:711-769 | handling a batch reply, commit included, keeps the invariant |
| RaftReplication.StepKeeps | src/raft/raft.go:78-930 | every step of the cluster that is no second grant in one term keeps the invariant of votes and logs, and history only grows |
| RaftCommits.AppendCommit | src/raft/raft.go:626-635 | an append request that moves the commit index within what it verified leaves it backed by a committed entry of some reign |
| RaftCommits.CommitsKept | src/raft/raft.go:533-819 | every step that commits nothing past the verified entries keeps all commit indices backed, in peers and in messages |
| RaftTheorems.IntendedRunsAreBenign | src/raft/raft.go:533-636 | under the intended rules no run needs a side condition |
| RaftTheorems.ElectionSafety | src/raft/raft.go:831-930 | over a whole run with no second vote in a term, crashes included, one term has at most one leader |
| RaftTheorems.LogsMatch | src/raft/raft.go:563-624 | in such a run logs of any peers at any times that agree on a term at an index are identical up to it |
| RaftTheorems.LeadersHoldCommitted | src/raft/raft.go:177-219 | in a benign run what a peer holds committed is in the log of every leader of a later term |
| RaftTheorems.StateMachineSafety | src/raft/raft.go:626-635 | in a benign run any two peers at any times agree on every index both hold committed |
| RaftTheorems.DeliveriesAgree | src/raft/config.go:229-255 | in a benign run no two deliveries at one index carry different commands: what the tester's log comparison looks for |
| RaftTheorems.AppliedInRange | src/raft/raft.go:800-819 | in a benign run 0 <= lastApplied <= commitIndex <= last log index, so the log read is in range |
| RaftTheorems.CrashLosesNothing | src/raft/raft.go:115-152 | in every state of every run a restart finds the term, vote and log that were in memory |
| RaftPermanence.CommittedForever | src/raft/raft.go:603-635 | in a benign run a committed prefix stays at the front of that peer's log |
| RaftPermanence.CommitGrows | src/raft/raft.go:626-635 | in a benign run a commit index falls only at a restart |
| RaftPermanence.ProposalHolds | src/raft/raft.go:265-315 | with no second vote in a term, while the proposer's term is unchanged its entry is at the index that was returned |
| RaftSmall.SmallRunsAreBenign | src/raft/raft.go:533-636 | with at most two peers every run is benign, whatever the rules |
| RaftExactly.OneLeaderExactly | src/raft/raft.go:549-557 | one leader for each term in every run, if and only if the vote is kept or there are at most two peers |
| RaftExactly.LogsMatchExactly | src/raft/raft.go:549-624 | log matching in every run, if and only if the vote is kept or there are at most two peers |
| RaftExactly.CommittedAgreesExactly | src/raft/raft.go:533-636 | agreement on committed indices in every run, if and only if both rules are as intended or there are at most two peers |
| RaftExactly.LeadersCompleteExactly | src/raft/raft.go:177-219 | leaders hold what was committed before, in every run, under exactly the same condition |
| RaftExactly.DeliveriesAgreeExactly | src/raft/config.go:229-255 | every two deliveries at one index agree, in every run, under exactly the same condition |
| RaftExactly.CommittedForeverExactly | src/raft/raft.go:603-635 | committed prefixes stay, in every run, under exactly the same condition |
| RaftExactly.InRangeExactly | src/raft/raft.go:800-819 | the applied index is in range, in every run, under exactly the same condition |
| RaftExactly.ProposalsKeptExactly | src/raft/raft.go:265-315 | proposals keep their place within their term, in every run, if and only if the vote is kept or there are at most two peers |
| RaftExactly.CommitRisesExactly | src/raft/raft.go:626-635 | commit indices fall only at restarts, in every run, if and only if the cap is as intended or there are at most two peers |
| RaftDeviations.VoteLostExactly | src/raft/raft.go:549-557 | the written append handler differs from the intended one in the vote if and only if the term is equal and a vote was cast |
| RaftDeviations.CapDiffersExactly | src/raft/raft.go:626-635 | for an accepted request the written commit cap differs from the intended one if and only if it passes the verified entries |
| RaftDeviations.OnlyCutBatches | src/raft/raft.go:686-697 | only a batch cut at 100 entries below the commit index can carry a commit index past its own end |
| RaftStaleSuffix.TwoCommitted | src/raft/raft.go:626-697 | with the written cap and n >= 3 a run from the start in which, after a batch cut at 100, two peers hold any two given lists committed at the same indices |
| RaftLostVote.TwoLeaders | src/raft/raft.go:549-557 | with the written vote rule and n >= 3 a run from the start with two leaders in one term |
| RaftLostVote.TwoCommitted | src/raft/raft.go:549-557 | with the written vote rule and n >= 3 a run from the start in which two peers hold any two given lists committed from index 1 on |
| RaftLostProposal.ProposalLost | src/raft/raft.go:549-624 | with the written vote rule and n >= 3 a run in which a leader's proposal is overwritten within its term |
| RaftLostProposal.CommittedLost | src/raft/raft.go:549-624 | and one in which a list it has committed is overwritten by a shorter one, below its commit index |
| RaftStaleLost.CommittedLost | src/raft/raft.go:598-636 | with the written cap and n >= 3 a run whose last steps commit stale entries, overwrite them, and lower the commit index |
| RaftAppliers.SingleStays | src/raft/raft.go:799-819 | one applier delivers index after index, with at most one on its way, whatever else happens to the peer |
| RaftAppliers.InOrderExactly | src/raft/raft.go:800-819 | entries are delivered in order in every run if and only if at most one applier runs |
| CatchUp.MergeMatches | src/raft/raft.go:598-624 | an accepted batch makes the follower hold the leader's log up to the batch's end, and the logs still match |
| CatchUp.ReplicateToPeer | src/raft/raft.go:647-770 | with nothing unsent nothing happens; otherwise the follower ends with the leader's log, after exactly one refusal for each index back to the first, going back, where the logs meet, and one acceptance for each started block of 100 |
| Bitset.Bits.constructor | src/porcupine/bitset.go:10-17 | the new set is empty and wide enough |
| Bitset.Bits.Clone | src/porcupine/bitset.go:19-23 | a copy with the same members that shares nothing |
| Bitset.Bits.Set | src/porcupine/bitset.go:29-33 | adds exactly this number |
| Bitset.Bits.Clear | src/porcupine/bitset.go:35-39 | removes exactly this number |
| Bitset.Bits.Get | src/porcupine/bitset.go:41-44 | decides membership |
| Bitset.Bits.Equals | src/porcupine/bitset.go:62-72 | for sets of one width decides equality of the sets |
| Bitset.Bits.HashCode | src/porcupine/bitset.go:46-60 | the hash is the number of members, as 64 bits, xored with every word |
| Bitset.PopcountMembers | src/porcupine/bitset.go:46-52 | the bits counted over all words are the members |
| Bitset.OneWordHashesApart | src/porcupine/bitset.go:54-60 | sets of the same number that differ in one word, whichever it is, have different hashes |
| Bitset.MembersDetermine | src/porcupine/bitset.go:62-72 | word sequences of one width with the same members are equal, bit by bit |
| Memo.CacheContains | src/porcupine/checker.go:148-155 | finds a pair if and only if an equal pair was stored in any bucket, whatever the collisions |
| Memo.Remember | src/porcupine/checker.go:224-234 | stores a pair in the bucket of its hash exactly when it is new, and loses none |
| EntryList.InsertBefore | src/porcupine/checker.go:73-84 | the links of the new node and its two neighbours |
| EntryList.MakeLinkedEntries | src/porcupine/checker.go:124-141 | the list is the history in order, and each call knows the node of its first return |
| EntryList.Lift | src/porcupine/checker.go:162-170 | the list without a call and its return, which both remember their places, adjacent or not, last or not |
| EntryList.Unlift | src/porcupine/checker.go:172-180 | the list with both back in place |
| EntryList.UnliftUndoesLift | src/porcupine/checker.go:162-180 | unlift after lift restores every link |
| Search.AllFailed | src/porcupine/checker.go:245-250 | when all operations that may come next lead nowhere and something is left, no order exists |
| Search.HitFails | src/porcupine/checker.go:224-240 | pruning by memory is sound: a remembered pair with more done than anything on the stack leads nowhere |
| Search.ReturnIsDead | src/porcupine/checker.go:245-250 | on reaching a return every operation that may come next has been tried |
| Search.Push | src/porcupine/checker.go:228-236 | taking an operation keeps the invariant of the search |
| Search.Pop | src/porcupine/checker.go:271-277 | going back keeps the invariant of the search |
| Search.LinearizationIsFinish | src/porcupine/checker.go:182-198 | the orders the search can find are exactly the linearizations |
| SearchBound.FinitelyMany | src/porcupine/checker.go:211-279 | the pairs the search can ever enter are finitely many, the first part of its termination measure |
| SearchBound.StackIsPartial | src/porcupine/checker.go:252-268 | the operations on the stack are legal from the first state and closed under real time |
| SearchPartials.PartialEntered | src/porcupine/checker.go:211-279 | once the search gives up, every partial linearization was on the stack, in this order or another |
| CheckSingle.EntryLeft | src/porcupine/checker.go:211-213 | while the list has an entry the cursor is on one, so it is never nil |
| CheckSingle.TryCall | src/porcupine/checker.go:218-244 | a call is taken or passed over; the invariant holds again and the termination measure falls |
| CheckSingle.Backtrack | src/porcupine/checker.go:271-277 | the last call is undone in list, set and stack; the invariant holds again and the measure falls |
| CheckSingle.Record | src/porcupine/checker.go:253-269 | the stack becomes the record of each of its operations that has none as long |
| CheckSingle.Retreat | src/porcupine/checker.go:252-277 | before it goes back, the search keeps its stack, so that every pair it leaves is recorded |
| CheckSingle.CheckSingle | src/porcupine/checker.go:199-290 | with the kill flag clear, true if and only if the history is linearizable; true only if so in any case, and not if one of the first n looks sees the flag set; records are real partial linearizations and, where wanted and the flag is clear, the longest of their operation; always ends |
| Visualization.Replay | src/porcupine/visualization.go:58-79 | replaying a recorded partial linearization never panics |
| Operations.Sort | src/porcupine/checker.go:62 | a sorted permutation, all that is used of the library's sort |
| Operations.MakeEntries | src/porcupine/checker.go:51-63 | the calls and returns of the operations, sorted by time with calls first |
| Operations.EntriesWellFormed | src/porcupine/checker.go:51-63 | any operations that do not return before they are called give a well-formed history |
| Operations.PrecedesByTime | src/porcupine/checker.go:42-49 | one operation precedes another in the list if and only if it returned at a strictly earlier time than the other was called |
| Operations.EntriesLinearizable | src/porcupine/checker.go:42-63 | the list is linearizable if and only if the operations are by their times |
| Events.Renumber | src/porcupine/checker.go:95-109 | distinct ids get distinct numbers, which are dense from 0 |
| Events.ConvertEntries | src/porcupine/checker.go:111-122 | the entries of the events, with positions as times |
| Events.EventsWellFormed | src/porcupine/checker.go:95-122 | events of complete operations give a well-formed history |
| Partition.Split | src/models/kv.go:24-43 | one non-empty group for each key that occurs, with that key's operations in order, in the order of the keys |
| Partition.PositionsAscend | src/models/kv.go:26-30 | a group has its operations in the order of the history |
| Partition.PartitionUnique | src/models/kv.go:32-36 | so the partition is determined by the history |
| Partition.BeforeExactly | src/models/kv.go:36 | that order is decided by the first characters that differ, and a prefix comes first |
| Locality.HeadMayComeNext | src/models/kv.go:24-43 | the head of the group that owns the remaining operation with the earliest return may come next in the whole order |
| Locality.Local | src/models/kv.go:24-43 | locality: linearizable for the whole map if and only if the operations on each key are for that key |
| Partition.PartitionIsLocal | src/porcupine/model.go:28-31 | the contract of a partition function: a history is linearizable if and only if each group is |
| CheckParallel.Work | src/porcupine/checker.go:331-336 | a worker answers true only for a linearizable partition, and exactly so while the kill flag is clear; its records are those of the partition's entries |
| CheckParallel.VerdictSound | src/porcupine/checker.go:322-366 | Ok means every partition is linearizable, Illegal that some is not, Unknown comes only from a timeout; a false caused by kill never counts |
| CheckParallel.VerdictExactly | src/porcupine/checker.go:343-412 | Illegal if and only if a bad partition was received, timeout or not; Unknown if and only if the time ran out and none was; where all results are wanted only the timeout loses one; the flag is set exactly when the loop is left early |
| CheckParallel.VerdictStays | src/porcupine/checker.go:366-412 | late answers do not change the verdict |
| CheckParallel.EmptyNeverDecides | src/porcupine/checker.go:343-366 | with no partition only a timeout ends the loop |
| CheckParallel.CheckOperationsExact | src/porcupine/checker.go:444-452 | without a timeout the verdict on a whole history is Ok if and only if it is linearizable for the whole map; each partition may be given to a worker |
| CheckParallel.KvJudgedRightly | src/models/kv.go:19-85 | the checker that knows one key only judges whole key/value histories soundly |
| KvServer.KVServer.ExecuteOperation | src/kvraft/server.go:302-327 | store, error and value of one operation, unknown types included |
| KvState.ReadAfter | src/kvraft/server.go:302-327 | a read finds what was last put under its key and appended since, and other keys and operations do not matter to it |
| KvState.ErrorsExactly | src/kvraft/server.go:302-327 | which operations fail, and how |
| KvServer.KVServer.ApplyCommand | src/kvraft/server.go:245-299 | the whole new tables after one delivered command, which waiting request is told what, and that no other channel changes |
| KvServer.KVServer.AnswerDuplicate | src/kvraft/server.go:94-112 | answers from the tables exactly the requests executed before |
| KvServer.KVServer.Register | src/kvraft/server.go:200-204 | a fresh channel at the index, the others kept |
| KvServer.KVServer.Conclude | src/kvraft/server.go:206-229 | a notice of another term is not trusted; the channel is removed in any case |
| KvState.ExecutedExactly | src/kvraft/server.go:272-293 | an entry of the log is executed if and only if no earlier entry of its client has its number or a later one |
| KvState.ExactlyOnce | src/kvraft/server.go:245-327 | applying a log with any duplicates gives the store of plainly executing the first entries of their kind |
| KvState.TablesTell | src/kvraft/server.go:272-293 | the tables hold the number of the client's last executed entry, and the value its Get had there |
| KvState.ReplayPrefix | src/kvraft/server.go:351-376 | replaying a prefix from the empty state rebuilds the same state |
| KvState.AnyOrder | src/kvraft/server.go:250-254 | deliveries in any order and repeated give the state of those with ascending indices alone |
| KvState.OutOfOrder | src/raft/raft.go:800-819 | two neighbouring entries delivered in the wrong order do no harm if and only if the first was no new request, or the second is its client's and leaves nothing of it |
| KvState.HiddenExactly | src/kvraft/server.go:302-327 | when executing one operation after another hides what the first did to the store |
| Clerk.Client.Retry | src/kvraft/client.go:62-107 | one request to server after server until the first acceptable answer, whose server becomes the last leader |
| Clerk.Client.Get | src/kvraft/client.go:46-108 | one new number for all attempts, around the servers from the last leader, up to the first that answers with a value or that there is none; returns that value or the empty one; that server becomes the last leader |
| Clerk.Client.PutAppend | src/kvraft/client.go:110-165 | the same for a write, which ends at the first OK and nothing else |
| KvAnswers.ExecutionEnds | src/kvraft/server.go:302-327 | executing what a clerk sends gives an answer that it takes, and returns the value |
| KvAnswers.AppliedEnds | src/kvraft/server.go:245-299 | applying an entry of a clerk gives an answer that ends its operation, executed or not, unless the index was passed |
| KvAnswers.AppliedReturns | src/kvraft/server.go:206-226 | a handler whose entry is applied in the term in which it was proposed can return to its clerk at once |
| KvAnswers.OtherTermSilent | src/kvraft/server.go:213-216 | where the entry is applied in another term, nobody is told |
| KvAnswers.DuplicateReturns | src/kvraft/server.go:98-110 | so can one whose request was executed before |
| KvAnswers.ProposalWaits | src/kvraft/server.go:189-204 | a proposal of a leader makes its handler wait at the index and term of the entry |
| KvAnswers.ServerCrashes | src/kvraft/server.go:349-375 | any server can crash at any time, and loses its own tables and handlers only |
| KvCommon.CommonLog | src/raft/raft.go:799-819 | all that any peer ever holds committed in a benign run is a prefix of one log |
| KvCommon.StepOurs | src/kvraft/server.go:112-126 | only submitted operations are ever in a log, in storage or on their way |
| KvInvariant.EqualTerm | src/kvraft/server.go:206-217 | in a benign run an equal term when the entry is applied means that it is the operation submitted at that index |
| KvInvariant.DuplicateRight | src/kvraft/server.go:98-110 | what the tables answer to a request its clerk still waits for is its own outcome |
| KvInvariant.ResultRight | src/kvraft/server.go:272-299 | so is the result of applying such a request, for the first time or again |
| KvSteps.ServersKept | src/kvraft/server.go:245-299 | every server has replayed the common log up to its index, across crashes and restarts |
| KvSteps.ClerksKept | src/kvraft/client.go:46-165 | a clerk has one operation outstanding at a time and numbers them upward |
| KvSteps.RepliesKept | src/kvraft/server.go:94-158 | in a benign run every reply is right for as long as its clerk may wait for it |
| KvSteps.RunKeeps | src/kvraft/server.go:94-299 | the invariant of the service holds in every state of every benign run |
| KvTheorem.ExecutionAllowed | src/models/kv.go:59-85 | over the same data the specification allows a read exactly the value executing it gives, a write any output, and both leave the same data |
| KvModel.ReadsExactly | src/models/kv.go:64-79 | a state allows a read one value only, which after a put is what was put and after an append the old one and what was appended |
| KvModel.OtherCodes | src/models/kv.go:79-84 | an operation of any other code is a read and an append at once |
| KvTheorem.TimesKept | src/kvraft/client.go:46-165 | an operation that returned before another was called is executed before it |
| KvTheorem.ServiceLinearizable | src/kvraft/server.go:94-299 | in every benign run, with one applier for each server, the operations that returned, completed by some that did not, are linearizable for the whole map |
| KvUnsafe.Lifts | src/kvraft/server.go:189-226 | every run of the cluster in which the called operations are proposed is what the cluster does in some run of the service |
| KvUnsafe.ReadsApart | src/kvraft/server.go:94-112 | over a run that commits different entries on two peers, callers see two reads that begin differently |
| RaftInStep.CommitsTwice | src/raft/raft.go:265-315 | under any rules a run in which all peers commit any given list, by two rises of the commit index |
| KvReordered.ReadsReordered | src/kvraft/server.go:245-254 | with two servers and two appliers, callers see the same although nothing went wrong in the cluster |
| KvSilent.AloneAlways | src/raft/raft.go:711-769 | a peer alone never commits anything |
| KvSilent.SilentAlways | src/raft/raft.go:800-819 | with one server at most, or no applier, no operation ever returns |
| KvExactly.NothingExplains | src/models/kv.go:59-85 | no completion of what those callers saw is linearizable |
| KvExactly.LinearizableExactly | src/kvraft/server.go:94-299 | the service of n servers with k appliers each is linearizable in every run, if and only if k is 1 and both rules are as intended or n <= 2, or k is 0 or n <= 1 and nothing ever returns |
| EndToEnd.ServiceNeverIllegal | src/kvraft/server.go:94-299 | the checker never finds the history of a benign run illegal |
| EndToEnd.IllegalFound | src/porcupine/checker.go:322-366 | what is not linearizable the checker can find illegal |
| EndToEnd.NeverIllegalExactly | src/porcupine/checker.go:322-366 | some completion of what callers saw passes the checker, in every run, under exactly the same condition |

## Left out

- RaftTheorems.StateMachineSafety: takes a benign run, as do its neighbours; which clusters have only safe runs is `RaftExactly`, but which single runs of an unsafe one are safe is not characterised.
- RaftStaleSuffix.TwoCommitted: one refusal is handled many times. In the code each replicator handles its own reply, so that takes as many proposals (`src/raft/raft.go:307`), whose replicators send the same batch; calls are not counted in the model.
- RaftStaleLost.CommittedLost: the same.
- KvTheorem.ServiceLinearizable: one applier for each server and a benign run; `KvExactly.LinearizableExactly` says that with more appliers it fails.
- KvExactly.LinearizableExactly: a fixed number of appliers, where the code starts one at each rise of the commit index and ends it when nothing is left to take.
- CheckSingle.CheckSingle: state equality is real equality, not a custom `Equal`, and partial results are sequences, not shared pointers.
- Clerk.Client.Retry: the fate of each call is a parameter, and the loop stops when no more are given.
- Snapshots: `Snapshot` and `applySnapshot` are empty in the source, and nil is stored.
- Clocks, election timeouts and sleeps: a timeout is a step that may be taken at any time, and nothing is said of liveness beyond the catch-up bound.
- `src/labrpc` and `src/labgob`: replaced by the set of messages and by values that are stored and sent as they are.
- The goroutines and condition variable that count votes: winning is a step enabled by a majority of distinct grants.
- The channels of `waitForApply`: a handler in the system may be told of the result at its index whether or not it registered in time, which only adds behaviour; the objects in `KvServer.dfy` have them.
- Operation types other than Get, Put and Append from a clerk: servers handle them, clerks do not send them.
- Collecting the partial linearizations of all partitions, and HTML output.
- `src/kvsrv`, `src/shardctrler`, `src/shardkv`, `src/mr`: an easier version of the same duplicate suppression, and stubs.
