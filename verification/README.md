# Verified models of two containers, a Raft peer and its crash harness

The project models four components of the repository and proves what they promise, for every input
and over every run. `dafny verify dfyconfig.toml` checks all of it.

**The priority queue** (`Task1/priorityQueue/PriorityQueue.h`) is a list of heap-ordered trees in which
the minimum is always leftmost. `LinkedNodes`, `Consolidation` and `QueueObject` are the pointer code:
nodes with `left`, `right` and `child` fields that are updated in place, the table `tree_size` as an
array, and the loops of `consolidate`, `maintainMin` and `pop`. `Binomial` and `QueueRuns` are the
values behind them. The pointer code is proved to do what `QueueRuns.PopTo` and `QueueRuns.Push` say,
and every run of such steps refines a multiset, drains in sorted order and costs O(log n) an operation.

**The set** (`Task1/set/Set.h`) is a left-leaning red-black tree. `Llrb` holds the operations on values,
`SetObject` the code that updates cells in place. `erase` never reddens the root before it descends, so
a colour flip leaves a red root above red children; `LlrbErase` shows that this is always repaired.
`LlrbInsert` shows that `insert` is exactly insertion into a 2-3 tree (`TwoThree`), and `SetRuns` that a
set object refines a mathematical set whose searches are logarithmic.

**The Raft peer** (`Task5/raft/raft.go`). `RaftPeer` gives each handler as a function of the peer,
`RaftObject` the handlers themselves, with their fields and loops, proved against those functions.
`RaftRuns` composes peers into a cluster: a handler is one step, messages may be lost, delayed,
reordered and repeated, and a peer may restart at any time. The code is modelled as it is written, so
some of the paper's properties are conditional. There are three guards on the steps of a run:

- no server votes for two candidates in one term (`Election.VotesOnce`). The code can: a refused vote, and
  a conversion within a term, clear `votedFor`. A server that never forgets the remembered candidate
  (`Election.Remembers`) never votes twice, and the handlers that keep it never do;
- no answer is counted twice (`Election.CountsOnce`). A candidate counts every granted answer it gets, and
  a message left over in `leaderCh` makes it ask, and count, every peer twice in a term;
- no accepted message loses entries (`LeaderCompleteness.KeepsEntries`). A conflict is cut one entry too
  early, so a conflict on a message's first entry drops entries that are then acknowledged.

In every run that meets the first two there is one leader a term, elected by a majority. Logs match in
every run with one leader a term. In every run with one leader a term, each elected by a majority, that
meets the third guard leaders are complete, and no two servers ever deliver different commands for one
index, whatever the size of the cluster and whatever the servers forget. Each guard is exact for its
step (`Election.VotesOnceIff`, `Election.CountsOnceIff`, `RaftLog.AcceptedEntriesHeldIff`), and each is
needed: `VoteFailure`, `CountFailure` and `CutFailure` are runs of the code as written that miss one
guard, meet the other two, and deliver two commands for index 0.

`RaftRules` says what each handler promises without its code: exactly when a vote is given, what an
accepted message commits and delivers, what a higher term and an answer do. `Availability` shows that the
guards leave room to work: from every moment of every run of two or more servers a leader can still be
elected, and with three or more equal logs any command can still be committed. `ApplyReader` follows the
deliveries into the tester, whose two errors can never be raised.

**The crash harness** (`Task5/labrpc/labrpc.go`, `Task5/raft/config.go`, `Task5/raft/persister.go`).
`Harness` is the protocol that crashes and restarts a server while requests are under way, one step for
each critical section. A request that is answered with true is durable: every later instance of its
server starts from a save at least as new as the handler's, and from one that really was made. From every
state of every run a request to a registered server can be answered with true, and a server restarted.

## Model

| member | source | states |
|---|---|---|
| `Powers.FloorLog2` | Task1/priorityQueue/PriorityQueue.h:116-127 | the integer k with 2^k <= n < 2^(k+1), which the source computes with logarithms |
| `Powers.FloorLog2Largest` | Task1/priorityQueue/PriorityQueue.h:116 | no larger exponent fits, so the table has a slot for every possible tree |
| `Binomial.LinkIsBin` | Task1/priorityQueue/PriorityQueue.h:159-173 | linking two binomial heaps of one order gives one of the next order, with the contents of both |
| `Binomial.LinkAtCorrect` | Task1/priorityQueue/PriorityQueue.h:177-201 | linking two roots of a list keeps the contents and every tree a binomial heap, and removes one root |
| `Binomial.MergeAtCorrect` | Task1/priorityQueue/PriorityQueue.h:142-173 | so does linking a new root with one of the list |
| `Binomial.RootIsMin` | Task1/priorityQueue/PriorityQueue.h:229-231 | the root of a heap-ordered tree holds its smallest value |
| `Binomial.OrderBound` | Task1/priorityQueue/PriorityQueue.h:116-119 | no tree of a list is of an order above log2 of the number of values |
| `Binomial.TotalDegreeIsNumeral` | Task1/priorityQueue/PriorityQueue.h:127-204 | roots of distinct orders are the binary numeral of the number of values |
| `Binomial.BinaryRepresentation` | Task1/priorityQueue/PriorityQueue.h:127-204 | there is a root of order k exactly when bit k of the size is set, and there are at most 1 + log2(size) roots |
| `QueueRuns.PushCorrect` | Task1/priorityQueue/PriorityQueue.h:241-254 | `push` adds one occurrence and keeps the minimum leftmost |
| `QueueRuns.TopIsMin` | Task1/priorityQueue/PriorityQueue.h:229-231 | the first root holds a smallest element of the whole queue |
| `QueueRuns.SpillCorrect` | Task1/priorityQueue/PriorityQueue.h:264-273 | raising the children and deleting the root removes exactly the root's value |
| `QueueRuns.PopCorrect` | Task1/priorityQueue/PriorityQueue.h:256-286 | `pop` removes exactly one occurrence of the minimum, keeps the invariant, and leaves as root orders the bits of the new size |
| `QueueRuns.StepRefines` | Task1/priorityQueue/PriorityQueue.h:241-286 | each operation is the operation on a multiset |
| `QueueRuns.RunRefinesMultiset` | Task1/priorityQueue/PriorityQueue.h:229-286 | over every run the contents follow the multiset, `size_` is its cardinality and `top` a minimum |
| `QueueRuns.TakingLeastSorts` | Task1/priorityQueue/PriorityQueue.h:256-286 | taking least elements until none is left yields all of them in order |
| `QueueRuns.DrainSorts` | Task1/priorityQueue/PriorityQueue.h:229-286 | draining a queue yields its contents, sorted |
| `QueueRuns.StepAmortised` | Task1/priorityQueue/PriorityQueue.h:124-225 | loop steps plus the growth of a potential of three a root are at most 6 (1 + log2 n) |
| `QueueRuns.RunAmortised` | Task1/priorityQueue/PriorityQueue.h:124-286 | the loop steps of any run total at most 6 (1 + log2 n) an operation |
| `LinkedNodes.NodeSwap` | Task1/priorityQueue/PriorityQueue.h:40-66 | the list is linked in both directions with the two nodes exchanged: neighbours, the same node and distant ones |
| `LinkedNodes.InsertRight` | Task1/priorityQueue/PriorityQueue.h:68-80 | the list is linked in both directions with the node after the given one |
| `LinkedNodes.Unlink` | Task1/priorityQueue/PriorityQueue.h:82-86 | the list without the node is linked in both directions |
| `LinkedNodes.LinkUnder` | Task1/priorityQueue/PriorityQueue.h:159-173 | one tree becomes the first child of the other, whose degree doubles |
| `LinkedNodes.SwapContents` | Task1/priorityQueue/PriorityQueue.h:144-152 | exchanging value and children exchanges the trees and leaves the lists alone |
| `Consolidation.FirstLink` | Task1/priorityQueue/PriorityQueue.h:142-175 | a new root is linked with the table's: the list has the merged tree, and the minimum is still first |
| `Consolidation.MoveUnder` | Task1/priorityQueue/PriorityQueue.h:186-198 | a root leaves the list and becomes a child of another, all links intact |
| `Consolidation.CarryStep` | Task1/priorityQueue/PriorityQueue.h:178-198 | of two roots of one size the smaller stays, and on a tie `consol.min_node` does |
| `Consolidation.Carry` | Task1/priorityQueue/PriorityQueue.h:177-203 | the inner loop: every table access is in range, every link removes one root, and afterwards the table is complete again |
| `Consolidation.Absorb` | Task1/priorityQueue/PriorityQueue.h:125-204 | one root of the old list is copied into the new one; contents add up and the table is complete |
| `Consolidation.Round` | Task1/priorityQueue/PriorityQueue.h:124-210 | one round of the outer loop, with the step to the next old root |
| `Consolidation.Consolidate` | Task1/priorityQueue/PriorityQueue.h:115-213 | the contents are kept, the new list is well linked, each tree is a binomial heap, no two have one degree, the first is a minimum, and the rounds of both loops are counted by the roots removed |
| `Consolidation.TabledDistinct` | Task1/priorityQueue/PriorityQueue.h:118-204 | a complete table means pairwise different degrees |
| `QueueObject.DeleteNode` | Task1/priorityQueue/PriorityQueue.h:82-95 | the node leaves its list and the right neighbour is next |
| `QueueObject.LeftmostSmallest` | Task1/priorityQueue/PriorityQueue.h:217-222 | the loop finds the leftmost of the smallest roots |
| `QueueObject.MaintainMin` | Task1/priorityQueue/PriorityQueue.h:216-225 | afterwards a minimum is first, with the same contents |
| `QueueObject.Leftmost` | Task1/priorityQueue/PriorityQueue.h:281-283 | the closing walk reaches the left end in as many steps as there are roots before it |
| `QueueObject.RaiseChildren` | Task1/priorityQueue/PriorityQueue.h:264-271 | the children stand, reversed, right after the first root |
| `QueueObject.Rebuild` | Task1/priorityQueue/PriorityQueue.h:278-285 | the list is consolidated and the minimum leftmost; the closing walk and swap find it there and change nothing |
| `QueueObject.PopRoots` | Task1/priorityQueue/PriorityQueue.h:262-285 | the pointer code does one of the steps that `PopTo` allows |
| `QueueObject.PushRoot` | Task1/priorityQueue/PriorityQueue.h:241-254 | the pointer code of `push` makes the list that `Push` gives |
| `QueueObject.PriorityQueue.constructor` | Task1/priorityQueue/PriorityQueue.h:100-103 | a new object is the empty queue |
| `QueueObject.PriorityQueue.Empty` | Task1/priorityQueue/PriorityQueue.h:233-235 | true exactly when the contents are empty |
| `QueueObject.PriorityQueue.Top` | Task1/priorityQueue/PriorityQueue.h:229-231 | a smallest element of the contents |
| `QueueObject.PriorityQueue.Push` | Task1/priorityQueue/PriorityQueue.h:241-254 | one occurrence is added and the object stays valid |
| `QueueObject.PriorityQueue.Pop` | Task1/priorityQueue/PriorityQueue.h:256-286 | one occurrence of a least element goes, within the counted loop steps; an empty queue is refused |
| `Llrb.LeftRotate` | Task1/set/Set.h:63-70 | the values, their number and their order are kept |
| `Llrb.RightRotate` | Task1/set/Set.h:72-79 | the values, their number and their order are kept |
| `Llrb.FixUp` | Task1/set/Set.h:115-126 | the values, their number and their order are kept |
| `Llrb.MoveRedLeft` | Task1/set/Set.h:139-149 | the values and their order are kept and the root's value does not fall |
| `Llrb.MoveRedRight` | Task1/set/Set.h:128-137 | the values and their order are kept and the root's value does not rise |
| `Llrb.Min` | Task1/set/Set.h:151-157 | the smallest value of an ordered tree |
| `LlrbErase.FixUpRepairs` | Task1/set/Set.h:115-126 | a node with at most a misplaced red child becomes left-leaning again, of the same black height |
| `LlrbErase.FixUpRepairsRoot` | Task1/set/Set.h:115-126 | a red root above red children becomes left-leaning once it is painted black |
| `LlrbErase.MoveRedLeftShape` | Task1/set/Set.h:139-149 | below the root: the left child can lose a node, and the rest can be repaired |
| `LlrbErase.MoveRedRightShape` | Task1/set/Set.h:128-137 | the same to the right |
| `LlrbErase.MoveRedRootShape` | Task1/set/Set.h:128-149 | both moves on a black root that was not reddened: repaired, or a red root above two red children |
| `LlrbErase.EraseMinCorrect` | Task1/set/Set.h:159-172 | the smallest value goes; order, shape and black height are kept |
| `LlrbErase.EraseCorrect` | Task1/set/Set.h:174-196 | below the root exactly the value goes; order, shape and black height are kept |
| `LlrbErase.EraseRootCorrect` | Task1/set/Set.h:174-240 | erasing any stored value from any valid set leaves a valid set with exactly that value removed |
| `TwoThree.GrowCorrect` | Task1/set/Set.h:90-113 | insertion with node splitting keeps a 2-3 tree perfectly balanced |
| `LlrbInsert.InsertIsGrow` | Task1/set/Set.h:90-113 | with red links fused into 3-nodes, recursive `insert` is 2-3 insertion with splitting |
| `LlrbInsert.InsertElements` | Task1/set/Set.h:90-113 | `insert` adds exactly the value and keeps the order |
| `LlrbInsert.InsertRootCorrect` | Task1/set/Set.h:225-229 | inserting into a valid set gives a valid set with exactly the value added |
| `SetRuns.CountIsMembership` | Task1/set/Set.h:242-254 | the search finds a value exactly when it is stored |
| `SetRuns.PathBound` | Task1/set/Set.h:242-254 | no search path is longer than twice the black height |
| `SetRuns.SizeBound` | Task1/set/Set.h:90-113 | black height b forces at least 2^b - 1 values |
| `SetRuns.CountIsLogarithmic` | Task1/set/Set.h:242-254 | the loop runs at most 2 log2(n + 1) times |
| `SetRuns.SizeIsCardinality` | Task1/set/Set.h:216-218 | an ordered tree has as many nodes as values |
| `SetRuns.StepRefines` | Task1/set/Set.h:225-254 | every public call does and returns what it would on a mathematical set |
| `SetRuns.RunRefinesSet` | Task1/set/Set.h:216-254 | over every run the returns and the contents are those of a mathematical set, `size_` is its cardinality and searches stay logarithmic |
| `SetObject.LeftRotate` | Task1/set/Set.h:63-70 | the cells, changed in place, represent the rotated tree |
| `SetObject.RightRotate` | Task1/set/Set.h:72-79 | the cells, changed in place, represent the rotated tree |
| `SetObject.ColorFlip` | Task1/set/Set.h:81-88 | the cells represent the flipped tree |
| `SetObject.FixUp` | Task1/set/Set.h:115-126 | the cells represent the repaired tree |
| `SetObject.MoveRedRight` | Task1/set/Set.h:128-137 | the cells represent the tree that `Llrb.MoveRedRight` gives |
| `SetObject.MoveRedLeft` | Task1/set/Set.h:139-149 | the cells represent the tree that `Llrb.MoveRedLeft` gives |
| `SetObject.Min` | Task1/set/Set.h:151-157 | the loop returns the smallest value |
| `SetObject.InsertAt` | Task1/set/Set.h:90-113 | the cells represent the tree after `insert`, and at most new cells are added |
| `SetObject.EraseMin` | Task1/set/Set.h:159-172 | the remaining cells represent the tree without its smallest value |
| `SetObject.EraseAt` | Task1/set/Set.h:174-196 | no null is dereferenced, and the remaining cells represent the tree after `erase` |
| `SetObject.Set.constructor` | Task1/set/Set.h:47-50 | a new object is the empty set |
| `SetObject.Set.Count` | Task1/set/Set.h:242-254 | 1 exactly for members, within 2 log2(n + 1) rounds |
| `SetObject.Set.Insert` | Task1/set/Set.h:225-229 | the object stays valid and has exactly the value added |
| `SetObject.Set.Erase` | Task1/set/Set.h:231-240 | the object stays valid, has exactly the value removed, and returns 1 exactly when it was there |
| `RaftPeer.FirstConflict` | Task5/raft/raft.go:372-380 | the first entry that meets another term, if any |
| `RaftPeer.NoEarlierConflict` | Task5/raft/raft.go:372-380 | no entry before it does |
| `RaftPeer.FirstOfTerm` | Task5/raft/raft.go:359-364 | the first index of a term |
| `RaftPeer.SortIntsCorrect` | Task5/raft/raft.go:666-671 | the sorted match indices are a permutation in ascending order |
| `RaftLog.AcceptedEntriesHeldIff` | Task5/raft/raft.go:371-389 | an accepted message's entries stand right after `PrevLogIndex`, with the prefix kept, if and only if its first entry does not conflict |
| `RaftLog.FirstConflictLosesEntries` | Task5/raft/raft.go:376-389 | with such a conflict the matched entry goes too and nothing is stored; with nothing before it the slice bound is negative |
| `RaftLog.FirstConflictExample` | Task5/raft/raft.go:329-404 | an acknowledged entry that is not in the log |
| `RaftLog.TailKeptIff` | Task5/raft/raft.go:372-389 | entries after the message's stay if and only if no overlapping term conflicts |
| `RaftLog.RedeliveryIsNoOp` | Task5/raft/raft.go:342-389 | delivering the message again leaves the log as it is |
| `RaftLog.MergeSorted` | Task5/raft/raft.go:342-389 | terms stay in order along the log |
| `RaftLog.MedianReach` | Task5/raft/raft.go:666-674 | the middle of the sorted match indices is the largest one reached by half of the entries, rounded up |
| `RaftLog.MedianIsMajority` | Task5/raft/raft.go:666-678 | in an odd cluster it is the largest index that a strict majority has reached |
| `RaftLog.EvenMedianIsHalf` | Task5/raft/raft.go:672-674 | in every even cluster there are match indices whose median only half of the peers have reached |
| `RaftLog.MedianInLog` | Task5/raft/raft.go:666-678 | the chosen index is one of the leader's log if and only if the cluster has at least three peers |
| `RaftRuns.AppendKeepsPeer` | Task5/raft/raft.go:329-404 | a message keeps the log sorted by term, the saved state equal to the one in memory, and the term from falling |
| `RaftRuns.SoundStep` | Task5/raft/raft.go:213-715 | every step keeps logs and messages sorted by term and the saved state equal to the one in memory |
| `RaftRuns.RunIsSound` | Task5/raft/raft.go:329-455 | so it is in every run with loss, repetition, reordering and restarts |
| `RaftRuns.RestartKeepsState` | Task5/raft/raft.go:133-186 | a restart is the identity on term, vote and log |
| `RaftRuns.TermsNeverDecrease` | Task5/raft/raft.go:494-525 | a server's term never decreases, across all its incarnations |
| `RaftRuns.SendsSorted` | Task5/raft/raft.go:623-644 | a message's entries are sorted, bounded by its term and not below `PrevLogTerm` |
| `Election.RemembersIff` | Task5/raft/raft.go:236-242 | as long as the term lasts the remembered candidate, of this term or left over from an older one, survives a step if and only if the guard on forgetting holds |
| `Election.VotesOnceIff` | Task5/raft/raft.go:213-255 | there is still one vote for each server and term after a step if and only if the guard on votes holds |
| `Election.KeptVotesOnce` | Task5/raft/raft.go:230-242 | only a server that has forgotten its vote gives another one in the same term |
| `Election.CountsOnceIff` | Task5/raft/raft.go:576-589 | the tally of a candidate is still the number of its voters if and only if the guard on counts holds |
| `Election.QuorumsMeet` | Task5/raft/raft.go:575-590 | a strict majority has a member in common with any other, and with any half of the cluster |
| `Election.BackedStep` | Task5/raft/raft.go:527-601 | one step that counts no answer twice keeps tallies equal to the voters counted and every leader elected by a majority, whatever is forgotten |
| `Election.OneVoteOneLeader` | Task5/raft/raft.go:527-601 | quorum intersection: if no answer is counted twice and no server has voted for two candidates in one term, at most one server has become leader in each |
| `Election.ElectionSafety` | Task5/raft/raft.go:527-601 | at most one server ever becomes leader in a term, in every run whose steps meet the guards on votes and on counts |
| `Election.RememberingVotesOnce` | Task5/raft/raft.go:213-255 | servers that never forget the remembered candidate never vote twice |
| `Election.LostElection` | Task5/raft/raft.go:756-761 | the converse fails: a candidate that steps back forgets its own vote in a run that meets both guards |
| `Election.MeantElectionSafety` | Task5/raft/raft.go:213-255 | for the handlers that keep the vote the guard on votes is discharged |
| `LogMatching.MergeOwned` | Task5/raft/raft.go:342-389 | whatever an accepted message does, each entry left is its term's leader's, with all that is before it |
| `LogMatching.OwnedGrows` | Task5/raft/raft.go:440-455 | the logs of past and present leaders only grow |
| `LogMatching.LeaderTakesNoAppend` | Task5/raft/raft.go:329-340 | a leader is never sent a message of its own term |
| `LogMatching.LogsMatch` | Task5/raft/raft.go:329-404 | Log Matching: in every run with one leader a term, two logs with an entry of one index and term are equal up to it |
| `LogMatching.GoodRunIsFair` | Task5/raft/raft.go:527-601 | runs that meet the guards on votes and on counts have one leader a term, each elected by a majority |
| `LogMatching.CountedRunIsFair` | Task5/raft/raft.go:576-589 | with one leader a term the guard on counts alone gives each leader a majority |
| `LeaderIndices.BackOffInLog` | Task5/raft/raft.go:680-698 | the back-off never goes beyond the leader's log |
| `LeaderIndices.LeaderStaysInRange` | Task5/raft/raft.go:623-698 | in a cluster of at least three a leader can build every message and take every answer without an index out of range |
| `LeaderIndices.AckInRange` | Task5/raft/raft.go:666-678 | taking an answer reads past the end of the log exactly when it is a success of the leader's term in a cluster of one or two and the commit index is within the log |
| `LeaderIndices.SmallClusterStops` | Task5/raft/raft.go:676 | in a cluster of two every successful answer is an index out of range, and nothing is ever committed |
| `LeaderCompleteness.MergeKeepsPrefix` | Task5/raft/raft.go:371-389 | a merge that loses nothing leaves the sender's log up to the message's end and what the old log shares with it |
| `LeaderCompleteness.BlockedStays` | Task5/raft/raft.go:342-343 | once a majority has gone on without acknowledging an entry it never will |
| `LeaderCompleteness.HeldStep` | Task5/raft/raft.go:329-404 | servers keep what they have acknowledged, unless it can no longer be committed |
| `LeaderCompleteness.VotedStep` | Task5/raft/raft.go:224-234 | a voter makes sure that the candidate's log does not end before what it has acknowledged |
| `LeaderCompleteness.LateEntryBlocked` | Task5/raft/raft.go:440-455 | an entry made by a leader after a later leader was elected can never be committed by it |
| `LeaderCompleteness.NewLeaderComplete` | Task5/raft/raft.go:575-590 | a newly elected leader has every entry that can still be committed |
| `LeaderCompleteness.CompleteInvStep` | Task5/raft/raft.go:213-715 | all of this is kept by every step that meets the guards |
| `LeaderCompleteness.LeadersAreComplete` | Task5/raft/raft.go:213-715 | Leader Completeness: in every run with one leader a term, each elected by a majority, that loses no entries, an entry of its own term that half of the servers have acknowledged is in the log of every leader of a later term |
| `LeaderCompleteness.GuardedRunIsClean` | Task5/raft/raft.go:213-715 | runs whose steps meet all three guards are such runs |
| `StateMachineSafety.MedianIsChosen` | Task5/raft/raft.go:666-678 | an index the leader commits has been acknowledged by half of the servers, which every majority of votes meets |
| `StateMachineSafety.SafeAgree` | Task5/raft/raft.go:391-399 | of two beginnings of logs within what was committed one is a prefix of the other |
| `StateMachineSafety.FollowerCommits` | Task5/raft/raft.go:391-399 | what a follower takes as committed is in its log and was committed, though `committedIndex` can move backwards |
| `StateMachineSafety.LeaderCommits` | Task5/raft/raft.go:666-678 | so is what a leader takes as committed |
| `StateMachineSafety.CommitInvStep` | Task5/raft/raft.go:329-715 | every step that meets the guards keeps commit indices safe |
| `StateMachineSafety.CommittedAgree` | Task5/raft/raft.go:391-399 | what any two servers have committed, at any two moments of a run, agrees |
| `StateMachineSafety.DeliveriesAgree` | Task5/raft/config.go:173-199 | State Machine Safety: in every such run, of a cluster of any size, no two deliveries of one index carry different commands, whichever servers make them and whenever |
| `RaftRules.NotBelowIsTotal` | Task5/raft/raft.go:224-228 | the order of logs by last term and then by length is total |
| `RaftRules.VoteGrantedIff` | Task5/raft/raft.go:213-255 | a vote is given if and only if the request is not of an older term, the candidate's log is not below the voter's in that order, and the vote is free; the answer carries the later term |
| `RaftRules.VoteRemembered` | Task5/raft/raft.go:230-242 | whom the voter remembers then: as written even a candidate of an older term, and nobody after a refusal |
| `RaftRules.RunAdoptsTerms` | Task5/raft/raft.go:213-712 | in every run, after any message the peer's term, in memory and saved, is the later of the two, and whoever adopts a term is a follower; after an answer it remembers nobody |
| `RaftRules.TimeoutStands` | Task5/raft/raft.go:799-811 | a timeout makes a candidate of the next term with its own vote and no other |
| `RaftRules.RetreatForgets` | Task5/raft/raft.go:746-761 | a conversion within the term makes a follower that has forgotten whom it voted for |
| `RaftRules.RestartBeginsAnew` | Task5/raft/raft.go:494-525 | a restart has the saved state, nothing committed, nothing delivered, and is a follower |
| `RaftRules.AppendAnswerIs` | Task5/raft/raft.go:333-369 | an answer is a success if and only if the message is not of an older term and matches before its entries; otherwise it names the conflicting term and its first index, or the end of the log |
| `RaftRules.RefusalChangesNothing` | Task5/raft/raft.go:342-369 | a refused message changes neither log nor commit index and delivers nothing |
| `RaftRules.AcceptedCommits` | Task5/raft/raft.go:391-401 | an accepted message commits the largest index that the leader has committed, the message reaches and the log has, and everything committed is delivered |
| `RaftRules.CommitFallsIff` | Task5/raft/raft.go:391-399 | exactly when the commit index moves backwards |
| `RaftRules.CandidateWinsIff` | Task5/raft/raft.go:571-592 | a candidate counts an answer of its term and leads if and only if its votes are now a majority, with every next index at its log's end |
| `RaftRules.StaleVoteIgnored` | Task5/raft/raft.go:571-574 | an answer to an older request changes nothing |
| `RaftRules.SuccessCommits` | Task5/raft/raft.go:666-682 | a success records the match index and commits the largest index that half of the peers reach, if it is new and of the leader's term |
| `RaftRules.RefusalBacksOff` | Task5/raft/raft.go:684-703 | a refusal moves the next index only: to the first entry above the conflicting term, to the conflict, or nowhere, by what terms the leader has |
| `RaftRules.StaleAckIgnored` | Task5/raft/raft.go:661-664 | an answer to an older message changes nothing |
| `RaftRules.StartPlaces` | Task5/raft/raft.go:440-460 | a leader's command stands at the index returned, behind the old log; anybody else returns -1 and changes nothing |
| `RaftRules.RoundCopiesLog` | Task5/raft/raft.go:623-682 | a round without obstacle copies the leader's log and commit index to the follower, and the answer makes the leader record exactly that |
| `Availability.LeaderCanBeElected` | Task5/raft/raft.go:527-601 | from every moment of every run of at least two servers a leader of a later term can be elected, whatever was lost or forgotten, meeting every guard that the run has met |
| `Availability.CommandCanBeCommitted` | Task5/raft/raft.go:440-682 | from every moment of every guarded run at which three or more servers have one log, any command can be committed and delivered right behind it, still meeting the guards |
| `Availability.OneServerNeverLeads` | Task5/raft/raft.go:549-592 | a single server never becomes leader |
| `VoteFailure.TwoLeadersTwoCommands` | Task5/raft/raft.go:236-242 | as written, without a conflict or a repeated count: two leaders in term 2 and two commands for index 0 |
| `VoteFailure.NothingDeliveredTwice` | Task5/raft/raft.go:236-242 | no message of that run is delivered twice |
| `CutFailure.SecondIsLost` | Task5/raft/raft.go:376-389 | a follower drops a committed entry, stores nothing and answers with success |
| `CutFailure.OneLeaderTwoCommands` | Task5/raft/raft.go:377 | as written, with nothing forgotten, no second vote and none counted twice: the short cut alone gives two commands for index 0 |
| `CountFailure.VoterGives` | Task5/raft/raft.go:224-255 | a voter asked again by the same candidate gives it the same vote again |
| `CountFailure.TwoCountsTwoCommands` | Task5/raft/raft.go:576-589 | as written, with nothing forgotten and no conflict: two former leaders that count one voter twice both lead in term 3 and give two commands for index 0 |
| `RaftObject.CutRefillIsMerge` | Task5/raft/raft.go:371-389 | the cut followed by the refill is the merge in closed form |
| `RaftObject.Persister.Copy` | Task5/raft/persister.go:24-31 | a new persister with the same contents |
| `RaftObject.Raft.constructor` | Task5/raft/raft.go:494-525 | a new instance has the state its persister holds |
| `RaftObject.Raft.PersistState` | Task5/raft/raft.go:133-153 | afterwards the persister holds the state in memory |
| `RaftObject.Raft.ToFollower` | Task5/raft/raft.go:788-797 | the state `RaftPeer.ConvertToFollower` gives |
| `RaftObject.Raft.ToCandidate` | Task5/raft/raft.go:799-811 | the state `RaftPeer.ConvertToCandidate` gives |
| `RaftObject.Raft.ToLeader` | Task5/raft/raft.go:813-823 | the loop sets every next index to the log's end and every match index to -1 |
| `RaftObject.Raft.RequestVote` | Task5/raft/raft.go:213-255 | state and reply are those of `RaftPeer.RequestVote`, of which the election lemmas speak |
| `RaftObject.Raft.VoteReplied` | Task5/raft/raft.go:560-598 | the state after an answer to a request for votes |
| `RaftObject.Raft.StartApplyLogs` | Task5/raft/raft.go:825-841 | the loop hands over exactly the entries after `lastApplied` up to the commit index or the log's end |
| `RaftObject.Raft.Cut` | Task5/raft/raft.go:372-380 | the loop cuts the log one entry before the first conflict, or the slice bound is negative |
| `RaftObject.Raft.Refill` | Task5/raft/raft.go:381-389 | the loop overwrites and appends the entries |
| `RaftObject.Raft.StoreEntries` | Task5/raft/raft.go:371-389 | both loops together make the merged log |
| `RaftObject.Raft.ConflictIndex` | Task5/raft/raft.go:359-364 | the loop finds the first index of the conflicting term |
| `RaftObject.Raft.AppendEntries` | Task5/raft/raft.go:329-404 | state, reply and deliveries are those of `RaftPeer.AppendEntries`, and it stops exactly where that panics |
| `RaftObject.Raft.BackOffIndex` | Task5/raft/raft.go:685-698 | the loop computes the back-off that the index lemmas speak of |
| `RaftObject.Raft.AppendReplied` | Task5/raft/raft.go:646-712 | the state and the deliveries after an answer to a message |
| `RaftObject.Raft.Start` | Task5/raft/raft.go:440-460 | a leader's log gets the command at its end; index, term and leadership are returned |
| `ApplyReader.DeliveriesContiguous` | Task5/raft/raft.go:825-841 | the indices delivered are consecutive, start after the last one, end at the commit index or the log's end, and carry the log's commands |
| `ApplyReader.HandedCarriesOn` | Task5/raft/raft.go:825-841 | whatever a handler does to log and commit index, what it hands over carries on where the peer left off |
| `ApplyReader.IncarnationDeliversInOrder` | Task5/raft/raft.go:825-841 | in every run all that a server has delivered since its last start are the indices 0, 1, 2, ... up to `lastApplied` |
| `ApplyReader.NeverOutOfOrder` | Task5/raft/config.go:173-199 | the tester's "apply out of order" is never raised, however the incarnations of a server, old ones still running included, and their readers interleave |
| `ApplyReader.RunNeverOutOfOrder` | Task5/raft/config.go:173-199 | nor in any run of the cluster, where the tester's copy has every index up to `lastApplied` |
| `ApplyReader.NeverTwoCommands` | Task5/raft/config.go:178-184 | the tester's other error, two commands for one index, is never raised in a run with one leader a term, each elected by a majority, that loses no entries |
| `Harness.PassSecures` | Task5/labrpc/labrpc.go:262-292 | if the server is still registered when the answer is checked, what its persister held is what the next instance will find |
| `Harness.RequestStep` | Task5/labrpc/labrpc.go:193-310 | steps of requests and saves keep every acknowledged save safe |
| `Harness.FreshDiskStep` | Task5/raft/config.go:113-130 | copying a persister loses nothing and cuts it off from all running instances |
| `Harness.ConfigStep` | Task5/raft/config.go:103-220 | so do the steps of a crash and a restart |
| `Harness.RunIsGood` | Task5/labrpc/labrpc.go:219-310 | the invariant holds in every state of every interleaving |
| `Harness.AnsweredSavesSurvive` | Task5/labrpc/labrpc.go:219-292 | every later instance of a server starts from a save at least as new as any save of a handler whose call was answered with true |
| `Harness.ReplacedCannotOverwrite` | Task5/raft/config.go:110-130 | later saves of a replaced instance reach no other instance and no persister kept for the next |
| `Harness.CopiedIsOutOfReach` | Task5/raft/config.go:110-160 | from the copy in `crash1` on, before the next instance exists, no save of any instance reaches the persister kept for the server |
| `Harness.PersistersMoveForward` | Task5/raft/persister.go:24-43 | what is kept for a server never goes back, over any stretch of a run |
| `Harness.LookupFindsIff` | Task5/labrpc/labrpc.go:193-222 | a request goes on exactly when its end is enabled and connected to a registered server, with the object registered there |
| `Harness.FinalCheckPassesIff` | Task5/labrpc/labrpc.go:209-275 | a reply passes exactly when the end is enabled and the registered object is the one looked up |
| `Harness.RequestsCanSucceed` | Task5/labrpc/labrpc.go:219-292 | from every state of every run a request to a registered server can be answered with true, by its current instance, with the handler's save kept and nothing else changed |
| `Harness.ServersCanRestart` | Task5/raft/config.go:103-220 | from every state of every run a server can be restarted, and the new instance reads exactly what was kept |
| `Harness.ReadsWereSaved` | Task5/raft/persister.go:24-43 | whatever an instance reads or a persister holds was saved, at that time, by an instance of the same server |

## Left out

- `set::clear`: it frees the nodes but keeps `root` pointing at them, so it is not part of the runs; nor are destructors and leaks.
- Freed memory: a deleted node is a node that is no longer reachable; use after free is not modelled.
- `parent` links of the heap: nothing reads them.
- Integer width of `degree`, `size_`, terms and indices, and rounding of `log`: integers are unbounded and the logarithm is exact.
- Element types other than integers: values are integers with their usual order, commands are integers.
- QueueObject.PriorityQueue.Pop: the source ends the process on an empty queue; here the call is refused and changes nothing.
- QueueObject.PriorityQueue.Top: on an empty queue the source dereferences a null pointer, so the queue must not be empty.
- Election.ElectionSafety: only for runs that meet the guards on votes and on counts, because it is false of the code as written (`VoteFailure`, `CountFailure`). The guards are conditions on single steps: some runs that miss them are safe all the same.
- Election.MeantElectionSafety: the guard on counts is not discharged for either variant; the source can miss it.
- LeaderCompleteness.LeadersAreComplete: only for runs with one leader a term, each elected by a majority, that meet the guard on conflicts, without which it fails (`CutFailure`).
- StateMachineSafety.DeliveriesAgree: for the same runs; in a cluster of one or two it holds because nothing is ever delivered.
- Handlers are atomic, though `RequestVote` and parts of the reply handling take no lock in the source; timers and channels become steps that may be taken at any time.
- A step that would panic, by a slice or index out of range, is not taken.
- Availability.LeaderCanBeElected: says that a leader can be elected, not that one will be; timeouts, the back-off of `nextIndex` and everything else about liveness are left out.
- Encoding: what is saved is read back as it was; an empty persister reads as the defaults.
- Harness.RunIsGood: the network's maps are fields of one state value instead of a locked object, and delays, drops and reordering are any order of steps.
- Snapshots, byte counts and timing statistics of the harness, and all test files.
- `Task2`, `Task3`, `Task4` and `Task5/labgob`: system calls, forwarding and encoding around them.
