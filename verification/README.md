# Verified model of the Raft kernel, its simulator and its write-ahead log

The repository implements Raft as a pure state machine (`raft-core`), runs it in a simulator with a lossy
network and crashing nodes (`raft-sim`), and stores records in a write-ahead log (`raft-server`). This
project models that code in Dafny and proves what it promises over whole runs: every schedule, every crash
point, every message order. `dafny verify dfyconfig.toml` checks it.

## How it is built

* **Values.** `Types`, `LogSpec`, `Kernel` and `DiskSpec` say, handler by handler, what the code computes:
  a node before a call and a drawn election timeout give the node after it and the ordered list of actions.
* **Objects.** `LogObject.RaftLog`, `NodeObject.RaftNode`, `StableDiskObject.StableDisk`,
  `Checkers.SafetyInvariants`, `Wal.DurableDisk` and `SimulatorObject.Simulator` are the program's own
  objects, with its fields, its loops and its updates in place, proved against those values.
* **Runs.** `Cluster` is a set of nodes, their disks and the set of all packets ever sent. A step calls a
  node and carries out its actions in order, or crashes it after any prefix of them, or restarts it from
  disk. A packet can be delivered any number of times, in any order, or never. `History` keeps a
  proof-level record beside a run (votes with the voter's log, leaders' logs, acknowledgements, applied
  entries); no handler reads it.
* **Calls.** `Quorum`, `Voting`, `Timers`, `Commit`, `Following`, `Leading` and `Fallback` say what each call
  does in terms of the node's fields and the messages sent rather than handler by handler: when a vote is
  granted, how many are enough, what a tick sends, what a follower takes over. `Ballot`, `Deadlock` and
  `Exchange` put calls of several servers together.
* **Invariants.** `Election`, `Uniqueness`, `Matching` and `Completeness` hold the four layers of the
  invariant and show that each justified action keeps it. `Handlers`, `Replication` and `Protocol` show
  that every handler emits only justified actions. `Theorems` and `Consequences` draw the conclusions.

Runs come in four families, since the code differs from the textbook in places:

* `Any`: no restriction, on calls, messages or compactions.
* `Sane`: `compact_logs` is never asked for an index below the base the log still keeps. The simulator's
  compactions are of this kind (`SimulatorObject.Simulator.Step`).
* `Plain`: `compact_logs` is never called, which is how `raft-server` drives the kernel.
* `Exact`: `Plain`, and a success reply reaches a leader only while the leader's log still ends where the
  answered request ended.

A call that panics takes its node down before any action is carried out. That happens when an AppendEntries
would cut the log at or below its base (`raft-core/src/log.rs:85-88`); `Consequences.CallNeverPanics` shows
that it cannot happen in `Sane` runs. On an entry list whose indices descend, the attachment offset
underflows (`raft-core/src/node.rs:540`): a build with overflow checks panics, which is a `Crash`; the other
builds wrap around and splice nothing, which is what `Kernel.Skipped` says.

## Main results

* `Theorems.ElectionSafety`, `Isolation.PreVoteIsolation`, `Checked.ElectionCheckNeverFires`: every run.
* `Theorems.EntryUniqueness`, `Consequences.DiskNeverPanics`, `Checked.LogCheckNeverFires`: `Sane` runs.
* `Theorems.LogMatching`, `Consequences.LeaderAppendOnly`, `Consequences.ReplicationTolerant`,
  `Exchange.BacktrackingLands`: `Plain` runs.
* `Consequences.CommittedInLeaders` (Leader Completeness), `Consequences.StateMachineSafety`,
  `Consequences.CommitClipSound`, `Checked.StateMachineCheckNeverFires`: `Exact` runs.
* `Stream.ApplyStreamExact`, `Mirror.RunMirrors`, `Commit.CommitIsMajorityRank`, `Wal.TornTail`,
  `SimulatorObject.Simulator.Step`: single nodes, disks and the simulator.
* `Ballot.MajorityCanElect`, `Timers.HeartbeatComes`, `Timers.TimeoutComes`, `Fallback.RunFallbackLands`,
  `Commit.AckCommits`: progress. What the calls must do, so that a server that does too little fails them.
* `Hole.EntriesCollide`, `Clashing.LogCheckFires`, `Overcount.StateMachinesDiverge`,
  `Overclip.CommitClipFails`, `Deadlock.MajorityDeadlocked`, `Backtracking.PairwiseMatchingIsNotEnough`:
  concrete inputs on which the stronger claims fail.

## What the model shows about the code

* Entry uniqueness and the log matching check need `Sane` runs. `Hole.EntriesCollide` is a run of one server
  that compacts below its base, restarts with a hole in its log, and fills one index of one term twice;
  `Clashing.LogCheckFires` is a run of two servers in which the check reports an error for the same reason.
  `Mirror.CompactThenRestart` says exactly when a compaction leads to such a hole.
* Leader Completeness, State Machine Safety and the commit clip hold in `Exact` runs and not in `Plain` ones.
  On a success reply the leader records its own present last index (`raft-core/src/node.rs:586-589`).
  `Overcount.CountedAsAcknowledged` says exactly when that is what was acknowledged.
  `Overcount.StateMachinesDiverge` is a run of three servers, without crashes, in which two state machines
  apply different entries at index 2 and a later leader lacks a committed entry; `Overclip.CommitClipFails`
  continues such a run until a leader announces a commit index beyond the end of its message. The entry
  that diverges is a no-op on one side, which the run-time state machine check skips
  (`raft-sim/src/invariants.rs:92-94`).
* Fast backtracking needs more than Log Matching at equal indices: `Backtracking.PairwiseMatchingIsNotEnough`
  gives two logs that match pairwise on which the leader probes 2, 3, 2, 3 for ever.
  `Backtracking.ConflictLowersIff` is the exact condition for one rejection, and logs of `Plain` runs
  always meet the cross-index condition `Coherent` that the theorems need.
* A leaderless majority can be stuck for ever. A pre-vote is answered in the voter's own term, the answer
  counts only in the candidate's own term, and pre-votes never move a server to a later term
  (`raft-core/src/node.rs:150-162`, `raft-core/src/node.rs:383-394`). Servers of one term that are a majority
  can elect a leader (`Ballot.MajorityCanElect`); a group in which no term has a majority never does
  (`Deadlock.NobodyIsElected`), and `Deadlock.MajorityDeadlocked` is a short run that gets there.
* The lease protects a leader from pre-votes only: a vote request of a later term makes the server forget its
  leader before it looks at the lease, so `Voting.Grants` asks for it in the server's own term alone.
* An accepted snapshot leaves memory and disk equal exactly when it reaches the end of the follower's log
  (`Mirror.InstallWritten`): the memory drops the suffix, the disk keeps it.
* The bytes that round a record write up to whole sectors are unspecified, since the buffer is allocated
  without being cleared (`raft-server/src/storage.rs:19-22`). They are harmless on replay exactly when they do
  not start with a complete and intact record (`Wal.TailHarmlessIff`); zero bytes are one such record when
  the checksum of the empty command is 0 (`Wal.ZeroPaddingHarmlessIff`). Records written behind the
  padding are lost altogether exactly when no record starts where the padding does
  (`Wal.LaterWritesLostIff`).

## Model

| member | source | states |
|---|---|---|
| Theorems.ElectionSafety | raft-core/src/node.rs:266-453 | In every run of any family at most one node is ever leader of a term, across crashes after any prefix of an action list, restarts, losses and duplicates. |
| Theorems.EntryUniqueness | raft-core/src/node.rs:225-250 | In every sane run index and term determine the whole entry, wherever and whenever it is seen: memory, disk or packet. |
| Hole.EntriesCollide | raft-core/src/node.rs:252-264 | Without the restriction on compaction this fails: a concrete run in which memory and disk hold different commands under the same index and term. |
| Clashing.LogCheckFires | raft-sim/src/invariants.rs:52-71 | Without the restriction on compaction the log matching check errs: a concrete run of two servers whose logs carry different commands at an index and term the check compares. |
| Theorems.LogMatching | raft-core/src/node.rs:481-549 | In runs without compaction, two stretches of log (memory, disk or in flight, at any two times) with the same term at an index agree on every common index up to it. |
| Theorems.StretchesOrdered | raft-core/src/log.rs:71-92 | In such runs indices are consecutive and terms never decrease along any log or message. |
| Consequences.LeaderAppendOnly | raft-sim/src/invariants.rs:78-80 | While a node leads a term, an earlier log of it is a prefix of a later one; the run-time check for this is a stub. |
| Consequences.LeaderLeaves | raft-core/src/node.rs:160-162 | A leader stops leading its term only by moving to a higher term or by crashing. |
| Consequences.ReplicationTolerant | raft-core/src/node.rs:455-570 | Delivering any AppendEntries of the follower's term, in any order and repeatedly, never shortens its agreement with that term's leader, and an accepted one brings it up to the end of the message. |
| Consequences.CommittedInLeaders | raft-core/src/node.rs:757-784 | Leader Completeness: what any node has committed is in the log of every leader of a later term, and of the same term from then on. |
| Consequences.StateMachineSafety | raft-core/src/node.rs:786-800 | No two entries applied at one index differ, whichever nodes and incarnations applied them. |
| Consequences.CommitClipSound | raft-core/src/node.rs:551-558 | No AppendEntries in flight carries a commit index beyond its own last entry. |
| Consequences.DiskNeverPanics | raft-sim/src/storage.rs:33-65 | In sane runs no action of any call makes the disk panic, at any point of the list. |
| Consequences.CallNeverPanics | raft-core/src/log.rs:83-92 | In sane runs no call makes the log's assertion against cutting its base fail. |
| Consequences.MessagesValid | raft-core/src/node.rs:717-755 | Every AppendEntries ever sent carries consecutive entries right behind its previous index. |
| Overcount.CountedAsAcknowledged | raft-core/src/node.rs:585-591 | The index a leader records for a peer is never below what the reply acknowledges, and equal to it if and only if the leader's log still ends where the answered request ended. |
| Overcount.StateMachinesDiverge | raft-core/src/node.rs:572-591 | A concrete run of three servers after which two live nodes have applied different entries at index 2, and the leader of term 2 lacks an entry committed in term 1. |
| Overclip.CommitClipFails | raft-core/src/node.rs:551-558 | A concrete run of three servers in which a leader sends a commit index beyond the end of the entries it sends. |
| Completeness.LeaderCompleteness | raft-core/src/node.rs:405-433 | The vote check together with majority overlap puts a committed entry into the log of every later leader. |
| Completeness.CommittedAgree | raft-core/src/node.rs:761-778 | Two stretches committed under the counting rule agree wherever both reach. |
| Protocol.StepKeeps | raft-sim/src/simulator.rs:160-191 | Every allowed step, including a crash in the middle of an action list and a restart from disk, keeps the invariant of its family. |
| Protocol.RunInv | raft-sim/src/simulator.rs:101-158 | The invariant holds after every run. |
| Invariant.Keep | raft-sim/src/simulator.rs:160-191 | One justified action, carried out on disk or network, keeps the invariant. |
| Invariant.KeepAll | raft-sim/src/simulator.rs:93-95 | Stopping after any number of justified actions leaves the invariant intact. |
| Election.MajoritiesMeet | raft-core/src/node.rs:448-451 | Any two majorities of the servers share a member. |
| Uniqueness.WriteResult | raft-sim/src/storage.rs:33-65 | Every justified write succeeds and leaves exactly the expected log on disk. |
| Isolation.PreVoteIsolation | raft-core/src/node.rs:147-166 | If from some step on a group of at most half the servers receives nothing from outside, and no pre-candidate in it holds an outside pre-vote then, the greatest term in the group never changes again. |
| Isolation.MemberCall | raft-core/src/node.rs:371-403 | A call inside such a group neither persists a term above the group's nor collects outside pre-votes. |
| Backtracking.ProbeProgress | raft-core/src/node.rs:593-622 | A request is accepted exactly when it probes the end of the longest common prefix; every rejection strictly lowers `next` and never passes that point. |
| Backtracking.RoundBound | raft-core/src/node.rs:497-518 | The number of rejections is at most one plus the number of distinct terms the follower has beyond the common prefix. |
| Backtracking.ConflictLowersIff | raft-core/src/node.rs:595-610 | For any two uncompacted logs a conflict-term rejection lowers `next` if and only if the leader has no entry of that term beyond the probed index. |
| Exchange.BacktrackingLands | raft-core/src/node.rs:593-622 | In every run without compaction, for a leader and any follower not ahead in term: iterating request, answer and reaction from beyond the longest common prefix, the request right behind that prefix is the first to be accepted, after at most one rejection more than the follower has distinct terms beyond it. |
| Exchange.RoundIsProbe | raft-core/src/node.rs:481-520 | The leader's request, the follower's answer and the leader's reaction, as the handlers compute them, are one probe. |
| Exchange.Lands | raft-core/src/node.rs:717-755 | For any two such logs the exchange takes exactly as many rejections as the probes say and ends at the end of the common prefix. |
| Backtracking.RunLogsCoherent | raft-core/src/log.rs:83-92 | Any two logs of runs without compaction satisfy what the backtracking theorems require. |
| Backtracking.PairwiseMatchingIsNotEnough | raft-core/src/node.rs:593-622 | Two ordered logs that agree at equal index and term on which probing never ends. |
| Commit.CommitIsMajorityRank | raft-core/src/node.rs:757-784 | With the standings ranked from the highest (each peer by its acknowledged index, the leader by its last), the new commit index is the largest current-term index above the old one that is at most the standing in the middle, `s[|s| / 2]`, which more than half of the servers reach; without one it stays. |
| Commit.AckCommits | raft-core/src/node.rs:572-591 | The same for the call that receives an acknowledgement: a success reply moves `match_index` to the leader's last index and a snapshot reply to its base, `next_index` right behind it, and the commit index follows that rule. |
| Quorum.ElectedIff | raft-core/src/node.rs:435-453 | A candidate becomes leader with exactly the vote that makes its votes more than half of the servers: a no-op behind its log, on disk and sent to every peer, and progress reset; with fewer it only records the vote, and a reply that does not count changes nothing. |
| Quorum.MajorityElects | raft-core/src/node.rs:446-452 | It becomes leader in that call if and only if its votes with the new one are a majority of the configuration, whatever its size. |
| Quorum.StandsIff | raft-core/src/node.rs:391-403 | A pre-candidate starts the real election with exactly the pre-vote that makes more than half: the next term, its own vote on disk before anything is sent, and a request with its log end to every peer. |
| Quorum.MajorityStands | raft-core/src/node.rs:396-402 | It starts the real election in that call if and only if its pre-votes with the new one are a majority of the configuration. |
| Voting.VoteIff | raft-core/src/node.rs:405-433 | A vote request of the server's term or a later one is granted if and only if the server has no other vote in that term, no lease, and the candidate's last term is higher than its own or equal with at least its last index; a granted vote is on disk before the reply and restarts the timer, a refusal changes nothing but the term. |
| Voting.PreVoteIff | raft-core/src/node.rs:371-389 | A pre-vote is granted if and only if the proposed term is at least the server's, no lease is active and the candidate's log end is not behind; it never changes the server. |
| Voting.ReachesIsTotalOrder | raft-core/src/node.rs:694-703 | The comparison of log ends these two are stated with is a total order. |
| Voting.OneVotesForTheOther | raft-core/src/node.rs:694-703 | Of any two servers free to vote in a term at least one votes for the other, and a higher last term always gets the vote, however short the log. |
| Voting.SomeMemberIsElectable | raft-core/src/node.rs:405-433 | Any group of servers has a member that all of them vote for in a later term, and pre-vote for if and only if they have no lease. |
| Voting.LeaderIsSticky | raft-core/src/node.rs:380-381 | After hearing from a leader a server refuses every pre-vote for fewer ticks than the minimal election timeout. |
| Ballot.MajorityCanElect | raft-core/src/node.rs:283-343 | Any majority of the servers, in one term and without leases, has a member that becomes leader of the next term as soon as its timer runs out and the others' answers to the requests it sends arrive: among servers of one term no combination of logs and votes is a deadlock. |
| Deadlock.NobodyIsElected | raft-core/src/node.rs:383-394 | In every run of any family: once no member of a group leads and no term has a majority of all servers within the group, then, hearing only each other and nothing sent before, no member ever leads or leaves its term again, crashes and restarts included. |
| Deadlock.MajorityDeadlocked | raft-core/src/node.rs:391-394 | A concrete run of three servers without compaction after which two live servers, a majority, can never elect a leader: one vote request was lost after the pre-vote, and the third server crashed. |
| Timers.HeartbeatComes | raft-core/src/node.rs:124-134 | Among any `heartbeat_interval` consecutive ticks of a leader exactly one emits, for every peer, one AppendEntries or InstallSnapshot of its term with what that peer still lacks; the others emit nothing, and nothing else about the leader changes. |
| Timers.TimeoutComes | raft-core/src/node.rs:135-142 | A server that does not lead is silent until its timeout runs out; in that very tick it asks every peer for a pre-vote of the next term with its own log end, and takes a fresh timeout. A server without peers then leads the next term at once. |
| Timers.RestartedWaits | raft-core/src/node.rs:84-114 | A restarted server follows nobody and does so at exactly the tick its drawn timeout names. |
| Timers.ReplicateCarries | raft-core/src/node.rs:717-755 | A peer whose next index is at or below the base is sent the complete snapshot position, any other the whole rest of the log behind the index and term just before it. |
| Following.AppendFollows | raft-core/src/node.rs:455-570 | Any AppendEntries of the server's term or a later one makes it a follower of the sender with a fresh timer; it answers success if and only if its log has the preceding entry, and then its commit index becomes the leader's clipped by its own new end, unless it is larger already. |
| Following.EntriesTaken | raft-core/src/node.rs:522-549 | Consecutive entries are spliced in: those already held are kept, the first one that is not cuts off the rest of the log, in memory and on disk alike, and when all are held nothing is cut or written. |
| Following.SplicedHolds | raft-core/src/node.rs:522-549 | After that every entry of the message is in the log, what preceded it is untouched, and positions stay consecutive. |
| Following.DiskAppendSplices | raft-sim/src/storage.rs:33-57 | Appending consecutive entries above its base on disk makes the same splice, and panics if and only if they leave a gap. |
| Following.DiskSkipsCompacted | raft-sim/src/storage.rs:38-40 | Entries below the disk's base are skipped. |
| Leading.RejectionProbes | raft-core/src/node.rs:592-623 | After a rejection the leader probes right behind its last entry of the conflicting term, or at the index the follower named, or one lower than before, never at 0, and sends that request at once. |
| Leading.ClientServed | raft-core/src/node.rs:169-193 | A leader appends a client's command to its log, to its disk and to what every peer is sent, and answers success; any other server changes nothing and names the leader it knows. |
| Leading.CommandProposed | raft-core/src/node.rs:225-250 | The same for a proposal, which a leader without peers commits at once. |
| Leading.LaterTermStepsDown | raft-core/src/node.rs:160-162 | A reply of a later term makes any server a follower of nobody in that term, without a vote and with a fresh timer, and only puts that on disk. |
| Leading.EarlierTermIgnored | raft-core/src/node.rs:164-166 | A message of an earlier term changes nothing and is not answered. |
| Leading.StrayReplyIgnored | raft-core/src/node.rs:581-583 | A reply in the term of a server that does not lead is ignored. |
| Fallback.SnapshotFallbackLands | raft-core/src/node.rs:717-737 | A leader whose peer needs entries at or below its base, and any follower that has committed less than that base: one request and answer leave the follower's log at exactly the leader's snapshot, committed and applied; the next request starts right behind it, is accepted, and leaves the follower with the leader's whole log. |
| Fallback.RunFallbackLands | raft-core/src/node.rs:682-692 | The same for every such leader and follower of every sane run. |
| Fallback.SnapshotRound | raft-core/src/node.rs:626-692 | That first exchange for any follower: one that has committed as much keeps its log, and the leader goes on behind its base in both cases. |
| Fallback.SnapshotTaken | raft-core/src/node.rs:626-680 | A snapshot becomes the whole log, commit index and applied index if and only if it is complete and beyond the commit index, and is on disk before the answer. |
| Commit.RankDecides | raft-core/src/node.rs:767-775 | At least m of the values reach k exactly when the m-th largest does. |
| Commit.CountPermuted | raft-core/src/node.rs:768-772 | The count does not depend on the order of the peers. |
| Stream.CallFeeds | raft-core/src/node.rs:786-800 | For any call that does not panic, with any message: what is applied starts right behind what was applied before, without gap or repeat, consists of the node's own entries and ends at the commit index, which never goes back, if and only if the message's entries fit the log; only an accepted snapshot jumps. |
| Stream.ApplyStreamExact | raft-core/src/node.rs:551-558 | The same over the whole life of a node from a restart on, at every point of it. |
| Stream.ValidCallsFit | raft-core/src/node.rs:522-549 | Messages whose entries are consecutive and start right behind their previous index fit, whatever came before. |
| Stream.MergeStill | raft-core/src/node.rs:540-548 | For any entry list, splicing keeps the log consecutive if and only if what is spliced joins it. |
| Stream.InstallSnapshotFeeds | raft-core/src/node.rs:658-672 | An accepted snapshot moves commit and applied index together to its end. |
| Mirror.CallWritten | raft-sim/src/storage.rs:28-90 | For every call that does not panic on a node whose disk mirrors it, with any message: afterwards disk and memory agree if and only if the call is gentle, and a gentle call neither makes the disk panic nor leaves it unsound part-way. |
| Mirror.MergeWritten | raft-sim/src/storage.rs:59-65 | A splice leaves disk and memory equal if and only if its entries join the log. |
| Mirror.InstallWritten | raft-core/src/log.rs:147-154 | An accepted snapshot keeps disk and memory equal if and only if it reaches the end of the node's log. |
| Mirror.CompactWritten | raft-sim/src/storage.rs:67-90 | A compaction keeps disk and memory equal if and only if it is above the retained base, or names exactly that base. |
| Mirror.CompactThenRestart | raft-sim/src/simulator.rs:59-91 | After a compaction at or below the commit index the restarted log has no hole if and only if the index was at or above the retained base or the log held no entries. |
| Mirror.BootMirrors | raft-sim/src/simulator.rs:63-88 | What a restart rebuilds is what is on disk exactly when the disk's first entry is its snapshot position; from a sound disk the node is steady. |
| Mirror.RunMirrors | raft-sim/src/simulator.rs:160-191 | In every run of any family whose accepted snapshots reach the end of the log and whose compactions are at or above the base, crashes included, term, vote, log and base of each live node are those on its disk and every disk can be restarted from. |
| Mirror.SimulatorCompactionGentle | raft-sim/src/simulator.rs:137-141 | Compacting at the commit index with the log's own term is gentle. |
| LogLaws.RestoredConsecutive | raft-core/src/log.rs:27-39 | A restored log has consecutive positions exactly when its entries follow the snapshot index. |
| LogLaws.TruncatedConsecutive | raft-core/src/log.rs:83-92 | Replacing a suffix keeps positions consecutive and the base where it is. |
| LogLaws.CompactedConsecutive | raft-core/src/log.rs:120-145 | Compaction keeps positions consecutive and moves the base up to the given index. |
| LogLaws.CompactionTransparent | raft-core/src/log.rs:120-145 | Compacting at a retained index with its own term preserves every term from there on, every entry above, and the last index and term. |
| LogLaws.CompactionCommutesWithAppend | raft-core/src/log.rs:71-81 | Compacting and appending commute. |
| LogLaws.CompactionCommutesWithTruncation | raft-core/src/log.rs:83-92 | Compacting and replacing a suffix above the compaction point commute. |
| LogSpec.LastOfTerm | raft-core/src/node.rs:596-604 | The leader's search finds the last retained index of a term, or that there is none. |
| LogSpec.RunStart | raft-core/src/node.rs:498-506 | The follower's walk ends at the first index of the run of equal terms. |
| LogSpec.HeldPrefix | raft-core/src/node.rs:523-538 | The attachment point is the first entry the follower does not hold with that term. |
| LogSpec.TakeUpTo | raft-core/src/node.rs:789-793 | The applied batch is the longest leading part within the commit index. |
| Kernel.LastCommittable | raft-core/src/node.rs:761-778 | The largest index in a range that has the current term and a majority behind it. |
| Kernel.RejectionNames | raft-core/src/node.rs:481-520 | A rejection names either the index behind the follower's log, or the follower's term at the probed index and the first index of its run of that term. |
| DiskSpec.PutAllExtends | raft-sim/src/storage.rs:33-57 | Appending consecutive entries right behind the end just extends the disk's log. |
| LogObject.RaftLog.constructor | raft-core/src/log.rs:17-25 | A new log holds the sentinel alone. |
| LogObject.RaftLog.Restore | raft-core/src/log.rs:27-39 | Rebuilds the log from snapshot position and entries. |
| LogObject.RaftLog.Append | raft-core/src/log.rs:71-81 | Extends the entries in place. |
| LogObject.RaftLog.TruncateAndAppend | raft-core/src/log.rs:83-92 | Cuts the entries at an index above the base and extends them. |
| LogObject.RaftLog.Compact | raft-core/src/log.rs:122-145 | Drops what lies below the index and makes its entry the new sentinel. |
| LogObject.RaftLog.InstallSnapshot | raft-core/src/log.rs:147-154 | Leaves the snapshot sentinel alone. |
| NodeObject.RaftNode.constructor | raft-core/src/node.rs:65-114 | A restored node keeps the durable state and the two given indices and starts everything else afresh. |
| NodeObject.RaftNode.Tick | raft-core/src/node.rs:124-145 | New node value and actions of a tick are those of the specification. |
| NodeObject.RaftNode.Step | raft-core/src/node.rs:147-166 | The same for any received message: moving to a higher term, dropping stale messages, dispatch; it fails exactly when the log's assertion does. |
| NodeObject.RaftNode.Handle | raft-core/src/node.rs:168-223 | The same for the dispatch to the handlers and the answers to clients, for any message. |
| NodeObject.RaftNode.Propose | raft-core/src/node.rs:225-250 | The same for a proposal. |
| NodeObject.RaftNode.CompactLogs | raft-core/src/node.rs:252-264 | The same for a compaction request. |
| NodeObject.RaftNode.BecomeFollower | raft-core/src/node.rs:266-281 | The same for stepping down, with the vote cleared and persisted only in a new term. |
| NodeObject.RaftNode.StartPreVote | raft-core/src/node.rs:283-309 | The same for starting a pre-vote. |
| NodeObject.RaftNode.StartRealElection | raft-core/src/node.rs:311-343 | The same for starting an election: term and vote are persisted before any request is sent. |
| NodeObject.RaftNode.BecomeLeader | raft-core/src/node.rs:345-369 | The same for taking office: progress reset for every peer, a no-op appended and broadcast. |
| NodeObject.RaftNode.HandlePreVote | raft-core/src/node.rs:371-389 | The same for a pre-vote request, which changes no state. |
| NodeObject.RaftNode.HandlePreVoteResponse | raft-core/src/node.rs:391-403 | The same for counting pre-votes. |
| NodeObject.RaftNode.HandleRequestVote | raft-core/src/node.rs:405-433 | The same for a vote request: a granted vote is persisted before the reply. |
| NodeObject.RaftNode.HandleRequestVoteResponse | raft-core/src/node.rs:435-453 | The same for counting votes. |
| NodeObject.RaftNode.CheckPrevious | raft-core/src/node.rs:481-520 | The consistency check with its loop back over a conflicting term. |
| NodeObject.RaftNode.MergeEntries | raft-core/src/node.rs:522-549 | Finding the attachment point and splicing the rest into the log, for any entry list; it fails exactly when the splice would cut the base. |
| NodeObject.RaftNode.FindAttachment | raft-core/src/node.rs:523-538 | The search loop stops at the attachment point, for any entry list. |
| NodeObject.RaftNode.AcceptEntries | raft-core/src/node.rs:522-570 | Merging, following the leader's commit index and acknowledging. |
| NodeObject.RaftNode.FollowCommit | raft-core/src/node.rs:551-558 | Following the leader's commit index, clipped by the own last index. |
| NodeObject.RaftNode.HandleAppendEntries | raft-core/src/node.rs:455-570 | New node value and actions of an AppendEntries with any entries are those of the specification, unless the log's assertion fails. |
| NodeObject.RaftNode.ProbeNext | raft-core/src/node.rs:593-619 | Where the leader probes next, with the downward search over its whole log. |
| NodeObject.RaftNode.HandleAppendEntriesResponse | raft-core/src/node.rs:572-624 | New node value and actions of a reply are those of the specification. |
| NodeObject.RaftNode.HandleInstallSnapshot | raft-core/src/node.rs:626-680 | The same for a snapshot. |
| NodeObject.RaftNode.HandleInstallSnapshotResponse | raft-core/src/node.rs:682-692 | The same for a snapshot reply. |
| NodeObject.RaftNode.BroadcastToPeers | raft-core/src/node.rs:705-715 | One replication message per peer, in order. |
| NodeObject.RaftNode.ReplicateToPeer | raft-core/src/node.rs:717-755 | A snapshot when the peer needs what was compacted away, otherwise all entries from its next index on. |
| NodeObject.RaftNode.CountAcknowledged | raft-core/src/node.rs:757-778 | The nested counting loops find the largest committable index above the commit index. |
| NodeObject.RaftNode.MaybeAdvanceCommit | raft-core/src/node.rs:757-784 | The commit index moves to that index and the entries in between are applied. |
| NodeObject.RaftNode.ApplyCommittedEntries | raft-core/src/node.rs:786-800 | Applies what lies between the applied and the commit index. |
| StableDiskObject.StableDisk.constructor | raft-sim/src/storage.rs:14-26 | A blank disk. |
| StableDiskObject.StableDisk.WriteHardState | raft-sim/src/storage.rs:28-31 | Overwrites term and vote. |
| StableDiskObject.StableDisk.AppendEntries | raft-sim/src/storage.rs:33-57 | The write loop succeeds exactly when the specified one does, with the same result; when it panics, what was written before stays. |
| StableDiskObject.StableDisk.TruncateAndAppend | raft-sim/src/storage.rs:59-65 | The same for cutting and rewriting. |
| StableDiskObject.StableDisk.WriteSnapshot | raft-sim/src/storage.rs:67-90 | Records the snapshot and compacts the disk's log unless it already starts later. |
| StableDiskObject.StableDisk.Write | raft-sim/src/simulator.rs:160-191 | Carries one action out exactly as specified, up to the point of a panic if there is one. |
| SimulatorObject.Simulator.constructor | raft-sim/src/simulator.rs:22-57 | Every server has a blank disk and a node spawned from it. |
| SimulatorObject.Simulator.SpawnNode | raft-sim/src/simulator.rs:59-91 | A restart from disk is a step of the run. |
| SimulatorObject.Simulator.CrashNode | raft-sim/src/simulator.rs:93-95 | A crash is a step of the run and leaves the disks alone. |
| SimulatorObject.Simulator.ProcessActions | raft-sim/src/simulator.rs:160-191 | Carries the whole list out in order without a panic. |
| SimulatorObject.Simulator.Invoke | raft-sim/src/simulator.rs:108-116 | A call with all its actions is one step of the run, and no write panics. |
| SimulatorObject.Simulator.DeliverAll | raft-sim/src/simulator.rs:104-117 | Every packet sent before that is handed over to a live node is delivered, in order: these steps, and no others, are added to the run. |
| SimulatorObject.Simulator.TickAll | raft-sim/src/simulator.rs:119-131 | Every live node is ticked exactly once, in some order, and nothing else happens. |
| SimulatorObject.Simulator.CompactAll | raft-sim/src/simulator.rs:133-152 | Every log of more than 15 entries ends up starting at its node's commit index with all entries above it kept, every other node is untouched, and these compactions are the steps added to the run. |
| SimulatorObject.Simulator.Verify | raft-sim/src/simulator.rs:154-155 | On any state of a run only the state machine check can report an error. |
| SimulatorObject.Simulator.Step | raft-sim/src/simulator.rs:101-158 | Whatever is delivered and drawn, a simulator step delivers every packet, ticks every live node and compacts every grown log, in this order, as steps of the run, and reports an error exactly when the state machine check finds a conflict; the election and log matching checks never fire. |
| SimulatorObject.Simulator.ProposeCommand | raft-sim/src/simulator.rs:193-211 | Hands the command to a node that claims leadership, as a step of the run, and reports failure exactly when there is none. |
| SimulatorObject.NoConflict | raft-sim/src/invariants.rs:18-76 | What the checker remembers of a run never conflicts with the nodes as they are now. |
| Checkers.NoteIff | raft-sim/src/invariants.rs:26-42 | Recording facts one by one succeeds exactly when they agree with each other and with what is known, and then adds exactly them. |
| Checkers.NoteOrderFree | raft-sim/src/invariants.rs:27-40 | The outcome does not depend on the order in which a map is iterated. |
| Checkers.SafetyInvariants.CheckElectionSafety | raft-sim/src/invariants.rs:26-42 | The loop with early return fails exactly when two nodes, or a node and what is remembered, lead one term under different ids, and remembers the leaders before that. |
| Checkers.SafetyInvariants.CheckLogMatching | raft-sim/src/invariants.rs:44-76 | Passes exactly when no two logs clash at any index both reach. |
| Checkers.CommandsFrom | raft-sim/src/invariants.rs:89-95 | An index, term and command is compared if and only if it is applied, still in the log and not empty. |
| Checkers.AppliedCheckIff | raft-sim/src/invariants.rs:82-110 | Recording them succeeds exactly when no two nodes, and no node and what is remembered, differ in the term or command of such an entry, and then remembers exactly these. |
| Checkers.LeaderCheckIff | raft-sim/src/invariants.rs:26-42 | The same for the leaders of a term. |
| Checkers.ClashIff | raft-sim/src/invariants.rs:44-76 | On consecutive positions two logs clash exactly when they carry different commands under one index and term, snapshot positions aside. |
| Checkers.SafetyInvariants.CheckStateMachineSafety | raft-sim/src/invariants.rs:82-110 | Passes exactly when no two nodes, and no node and what is remembered, differ in an applied entry that is retained and not empty; remembers these, or those before the first conflict. |
| Checkers.SafetyInvariants.CheckApplied | raft-sim/src/invariants.rs:89-107 | The inner loop over one node's applied entries, with the same promise. |
| Checkers.SafetyInvariants.VerifySafety | raft-sim/src/invariants.rs:18-24 | Passes exactly when the three real checks do. |
| Checked.ElectionCheckIff | raft-sim/src/invariants.rs:26-42 | Over any sequence of observations the election check stays silent exactly when no term was seen with two leaders. |
| Checked.ElectionCheckNeverFires | raft-sim/src/invariants.rs:31-35 | In every run of any family the election check never reports an error. |
| Checked.LogCheckNeverFires | raft-sim/src/invariants.rs:57-71 | In every sane run the log matching check never reports an error, not even between different times. |
| Checked.StateMachineCheckNeverFires | raft-sim/src/invariants.rs:96-102 | In every `Exact` run the state machine check never reports an error. |
| Wal.RecordLayout | raft-server/src/storage.rs:156-165 | A record is index, term, length, command and checksum in this order, at these widths, each number with its least significant byte first. |
| Wal.LeRoundTrip | raft-server/src/storage.rs:158-160 | Reading back a little-endian number gives it modulo the width. |
| Wal.FromLeRoundTrip | raft-server/src/storage.rs:228-234 | Writing a number that was read gives the same bytes. |
| Wal.DecodeSound | raft-server/src/storage.rs:219-259 | For any bytes and any checksum, encoding what replay returns gives exactly what stands at the front of the bytes. |
| Wal.DecodeComplete | raft-server/src/storage.rs:219-259 | Any entries whose records stand at the front of the bytes are returned. |
| Wal.RoundTrip | raft-server/src/storage.rs:156-165 | The whole payload of a list of entries is read back as that list. |
| Wal.TornTail | raft-server/src/storage.rs:220-238 | From any prefix of a payload exactly the entries with complete records come back. |
| Wal.AppendDecodes | raft-server/src/storage.rs:151-188 | Records written behind complete records are read back behind them. |
| Wal.SpliceMatchesLog | raft-server/src/storage.rs:190-209 | Truncating the records and appending does to them what `RaftLog` does to its entries. |
| Wal.TailHarmlessIff | raft-server/src/storage.rs:167-168 | Whatever bytes follow a payload leave the replayed entries unchanged if and only if they do not start with a complete and intact record. |
| Wal.ZeroPaddingHarmlessIff | raft-server/src/storage.rs:18-27 | Zero bytes behind a payload leave the replayed entries unchanged if and only if there are fewer than 24 or the checksum of the empty command is not 0. |
| Wal.LaterWritesLostIff | raft-server/src/storage.rs:171-187 | A write behind padding is lost entirely if and only if no record starts where the padding does. |
| Wal.ZerosDecode | raft-server/src/storage.rs:219-259 | What a stretch of zeros decodes to. |
| Wal.DurableDisk.AppendLogEntries | raft-server/src/storage.rs:151-188 | The file's records grow by exactly the given entries. |
| Wal.DurableDisk.ReplayWal | raft-server/src/storage.rs:211-262 | Returns the decoded records of whatever bytes the file holds, and all records of an intact file. |
| Wal.DurableDisk.TruncateAndAppend | raft-server/src/storage.rs:190-209 | The records before the first index at or behind the given one are kept, and the new ones follow. |
| Wal.Position | raft-server/src/storage.rs:192-194 | The search stops at the first entry at or behind the index. |
| Wal.Encode | raft-server/src/storage.rs:156-165 | The encode loop builds the payload. |
| Wal.Replay | raft-server/src/storage.rs:219-259 | The decode loop returns what the specification returns, for any bytes. |
| Wal.ReadRecord | raft-server/src/storage.rs:220-257 | One turn of that loop: a record that is complete and intact, or the end. |

## Left out

* Consequences.StateMachineSafety: proved for `Exact` runs only, because it is false in `Plain` ones
  (`Overcount.StateMachinesDiverge`).
* Consequences.CommittedInLeaders: proved for `Exact` runs only, because it is false in `Plain` ones
  (`Overcount.StateMachinesDiverge`).
* Consequences.CommitClipSound: proved for `Exact` runs only, because it is false in `Plain` ones
  (`Overclip.CommitClipFails`).
* Theorems.EntryUniqueness: proved for `Sane` runs only, because it is false in `Any` (`Hole.EntriesCollide`).
* Checked.LogCheckNeverFires: proved for `Sane` runs only, because it is false in `Any`
  (`Clashing.LogCheckFires`).
* Theorems.LogMatching: the full prefix form is for runs without compaction; with compaction a follower's
  snapshot term comes from the caller of `compact_logs`.
* Ballot.MajorityCanElect: for servers of one term, because it is false otherwise
  (`Deadlock.MajorityDeadlocked`).
* Backtracking.ProbeProgress: assumes logs without a compacted prefix that are coherent across indices,
  which all logs of `Plain` runs are; with a compacted prefix the leader may send a snapshot instead.
* Backtracking.RoundBound: the same.
* SimulatorObject.Simulator.Step: nodes and disks are held by value, so sharing between objects is not
  modelled there; node, log and disk as objects are proved separately. A crash in the middle of an action
  list cannot happen in the simulator; it is covered by `Cluster`.
* StableDiskObject.StableDisk.TruncateAndAppend: cutting exactly at the base empties the disk's log
  before the first write panics, and the original cannot restart from that; in `Cluster` such a disk keeps
  its log. It takes a hole as in `Hole.EntriesCollide` to get there.
* Wal.DurableDisk.AppendLogEntries: writes the payload without the padding to whole sectors, whose effect
  `Wal.TailHarmlessIff` and `Wal.LaterWritesLostIff` describe; index, term and command length must fit their
  fields.
* Wal.DurableDisk.TruncateAndAppend: the same for both of its writes.
* The checksum algorithm, `O_DIRECT` files, `pread` and `pwrite`, aligned buffers and the hard-state sector.
* TCP framing, serialisation, connection handling, the server loop and the command-line client.
* The random generator: a timeout is any value in its range; draws within one call whose value is
  overwritten before the call ends are not distinguished.
* `SimNetwork`'s queue and its delivery times: every packet ever sent may be delivered at any later time.
* Snapshot payloads, log output, error texts, benchmarks.
* Liveness, leases and heartbeat rates; 64-bit overflow of terms and indices.
* `raft-server` lists a node among its own peers; peers here never include the node itself, as in the
  simulator.
