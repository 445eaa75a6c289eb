# MiniRaftKV: a verified model

This project models the consensus core of MiniRaftKV in Dafny and proves what the core is for.
The model has these layers.

| file | module | what it is |
|---|---|---|
| `Types.dfy` | `RaftTypes` | log entries, requests, responses, queued actions, what survives a restart |
| `KeyValue.dfy` | `KeyValue` | the command codec, the map updated in place, replay of a journal |
| `Storage.dfy`, `Grammar.dfy` | `RaftStorage`, `RaftGrammar` | the state file: printer, cursor-driven parser, validation; the grammar of what it accepts |
| `Node.dfy` | `RaftNode` | every call of a node as a pure step: old state and message to new state and reply |
| `RaftCore.dfy` | `RaftCoreObject` | the class with the fields, loops and in-place updates; each method is proved to take its step |
| `Protocol.dfy`, `Safety.dfy`, `Steps.dfy` | `RaftProtocol`, `RaftSafety`, `RaftSteps` | the invariant between all nodes and all messages, what follows from it, and what single changes keep it |
| `Local.dfy`, `LocalRuns.dfy` | `RaftLocal`, `RaftLocalRuns` | what one node guarantees whatever it receives |
| `Calls.dfy`, `Cluster.dfy` | `RaftCalls`, `RaftCluster` | every call keeps the invariant; the cluster as a state machine over steps |
| `Handlers.dfy` | `RaftHandlers` | what each call answers and leaves, for any arguments |
| `Queues.dfy` | `RaftQueues` | what waits in the queues speaks of what is saved |
| `Theorems.dfy` | `RaftTheorems` | safety over whole runs |
| `Replication.dfy`, `Commitment.dfy` | `RaftReplication`, `RaftCommitment` | what the commit scan and the merge compute; that a leader leaves nothing it may commit uncommitted |
| `Terms.dfy`, `Votes.dfy`, `Progress.dfy` | `RaftTerms`, `RaftVotes`, `RaftProgress` | where terms come from, when a vote is given again, what a leader's two indexes are made of |
| `Clients.dfy`, `Service.dfy` | `RaftClients`, `RaftService` | where commands come from; the client handlers |
| `Simulation.dfy`, `SimulatedElection.dfy`, `SimulatedCommit.dfy` | `RaftSimulation`, `RaftSimulatedElection`, `RaftSimulatedCommit` | reliable delivery: exactly how many rounds catching up takes, the outcome of an election, agreement of all nodes |
| `Witnesses.dfy` | `RaftWitnesses` | runs, step by step, that show what the code does not promise |
| `InMemoryCluster.dfy` | `RaftInMemoryCluster` | the simulator class, tied to those functions and to a run |

**The cluster.** A cluster is a map from node ID to node state, with the set of every message
ever sent. Messages are never removed, so any of them may be lost, delayed, repeated or
overtaken. A step is one public call at one node: a campaign at any time and in any role, the
delivery of any message ever sent, a client command, a heartbeat, taking one of the two queues,
a crash and restart from disk, or a death inside the call that handles a message, after a newer
term was saved and before the final save, followed by a restart. The service holds its mutex for a whole call, and no lock
while it waits for the network, so calls are atomic and interleave freely. Membership is fixed,
identical everywhere and of any odd size; every node starts in term 0 with an empty log. A run
is any sequence of steps, and `After(members, durable, run)` is where it leads.

**How safety is proved.** The invariant speaks about a history that no node stores: each vote
with the voter's log at that moment, each elected leader with its log when elected and since,
and how much of a leader's log each node has acknowledged. Every entry of every log and request
was created by the leader of its term, preceded by what preceded it there; Log Matching follows.
What a node has acknowledged is still in its log, or some later leader never had it; Leader
Completeness follows by induction on terms and intersection of quorums.

**How the calls are tied to it.** A method of the class `RaftCore` is proved to take a step of
`RaftNode`, and the lemma of `RaftHandlers` for that call says what the step means, case by case
and in plain fields: when a vote is given, what term an answer names, what a newer term leaves
behind, how the two indexes of a follower move, what is saved and what throws.

**What the code does not promise.** The code was followed where it is weaker than one may
expect.

- A rejection of the current term moves `next_index` back even when it is stale, so
  `match_index < next_index` is no invariant: `StaleRejectionCrosses` is a run of three nodes in
  which a repeated refusal makes them meet, and `RejectionOrder` says exactly when a rejection
  keeps them apart.
- A granted vote request, delivered again in the same term, may be refused: the voter may have
  stored entries of the new leader since. `GrantRepeats` says exactly when it is granted again, in
  particular always while the term has no leader; `GrantedVoteRefused` is a run in which it is not.
- Catching up does not make all logs equal. `CatchUp` says what every log becomes: a log that
  extends the leader's stays as it is, any other becomes the leader's. So a follower ends with the
  leader's log exactly when its own was no proper extension of it. `LongerLogStays` is a run in
  which one was.
- A raw command such as `SET foo` makes `apply` throw after the commit index has moved
  (`RawCommandThrows`); `ApplyThrowsIff` gives the exact condition.
- A request that makes a follower commit such a command throws the first time. The second time
  it is acknowledged, and the commit index over the entry that was never applied is saved; from
  the disk saved then the node cannot be started (`PoisonedRepeated`, `PoisonedDisk`,
  `PoisonedExample`). Handling a request is idempotent exactly for all others (`HandlingTwice`).
- At a leader, `append_command` throws exactly when the commit index moves over an entry that
  applying rejects (`CommandThrowsIff`). The new entry and the moved commit index are then in
  memory only: a single durable node that was given `SET foo` counts it as committed and comes
  back from its disk without it (`CommittedIsLost`).
- `ServiceRunsApply` and `OnlyMisuseThrows` show that commands entered through the service never
  lead to any of these three cases.
- Stepping down leaves the election deadline as it was.

## Model

| member | source | states |
|---|---|---|
| RaftTheorems.LeadersHoldCommitted | src/raft_core.cpp:846-861 | Leader Completeness over whole runs: what any node has committed by any moment, every leader of a later term holds at every moment it leads, and a leader of the same term from then on |
| RaftTheorems.JournalsAgree | src/raft_core.cpp:509-530 | State Machine Safety: the journals of any two nodes at any two moments are prefixes of one another; equal commit indexes mean equal journals and equal maps |
| RaftTheorems.ElectionSafety | src/raft_core.cpp:1079-1127 | at most one node is ever leader in a term, over a whole run with repeated replies and restarts |
| RaftTheorems.LeaderIdIsElected | src/raft_core.cpp:996-997 | a node that names a leader names one that really was elected in the node's current term |
| RaftTheorems.LogsMatch | src/raft_core.cpp:1024-1055 | Log Matching: logs of any nodes at any moments with the same term at a position are equal up to it |
| RaftTheorems.RequestMatchesLog | src/raft_core.cpp:616-679 | Log Matching between a request sent by one moment and a log of any other: agreeing on the term of one entry means agreeing on it, on all the request carries before it, and on the previous-entry check |
| RaftTheorems.RequestsMatch | src/raft_core.cpp:616-679 | Log Matching between two requests of any leaders, terms, addressees and moments: equal terms for one log position mean equal entries for all earlier positions both carry, and the one that starts later names the term the other has just before |
| RaftTheorems.LeaderAppendsOnly | src/raft_core.cpp:695-701 | Leader Append-Only: at any two moments at which a term has a leader, the earlier log is a prefix of the later one |
| RaftTheorems.RefusalsAreRaftRefusals | src/raft_core.cpp:1003-1043 | a request that was really sent is refused exactly for a stale term or a previous-position mismatch; the four entry checks and the committed-conflict return never fire |
| RaftTheorems.AcknowledgedIsStored | src/raft_core.cpp:1057-1059 | a success of term T with matched index m, against the leader of term T at any moment, earlier or later, whether or not it leads at the other: its sender, while in term T, holds the first m entries of that log as far as it reaches, and from the reply on it reaches that far |
| RaftTheorems.AcknowledgedStays | src/raft_core.cpp:1026-1059 | what a node has acknowledged in a term it holds unchanged at every later moment at which it is in that term, whatever happens between |
| RaftTheorems.ProgressIsTruthful | src/raft_core.cpp:436-456 | both maps of a leader cover exactly the other members, next_index lies between 1 and last+1, and match_index counts entries the follower really holds |
| RaftTheorems.OnlyMisuseThrows | src/raft_core.cpp:486-492 | no call of a run throws except a command or heartbeat at a node that is not leader and an empty command: no internal error, no failing apply, no rejected restart |
| RaftTheorems.DurableBeforeVisible | src/raft_core.cpp:201-218 | after every call the disk holds term, vote, log and commit index, everything queued speaks of just these fields, and a restart at that moment gives back a follower with the same persistent fields, journal and map |
| RaftQueues.ReactBacked | src/raft_core.cpp:532-742 | every call keeps this: a queued vote request is the one of the current candidate, which voted for itself; a queued append request is of the current term, a part of the present log, with a commit index reached already |
| RaftQueues.RunBacked | src/raft_core.cpp:532-742 | and so it holds of every node at every moment of every run |
| RaftTheorems.CommitOnlyGrows | src/raft_core.cpp:1061-1073 | the commit index, the committed prefix and the journal only grow, over restarts too |
| RaftTheorems.ReignsHappened | src/raft_core.cpp:532-576 | every leader in the history of a run was leader at some moment of that run |
| RaftSafety.LeaderCompleteness | src/raft_core.cpp:889-951 | in one history: a choice of term t is in the log of every leader elected later, by induction on terms |
| RaftSafety.QuorumsMeet | src/raft_core.cpp:392-394 | two majorities of a roster without repetitions share a member |
| RaftSafety.CommittedAgree | src/raft_core.cpp:458-507 | any two committed logs of one history are prefixes of one another |
| RaftProtocol.StepKeeps | src/raft_service.cpp:95-161 | when one node acts and adds only its own records of one term, the invariant of all nodes and messages follows from that node's part |
| RaftSteps.GrantKeeps | src/raft_core.cpp:919-950 | granting a vote to an up-to-date candidate keeps the invariant, with the vote and the voter's log on record |
| RaftSteps.ElectKeeps | src/raft_core.cpp:1110-1126 | taking office with a majority of recorded votes keeps the invariant |
| RaftSteps.MergeKeeps | src/raft_core.cpp:1024-1059 | truncating and pushing entries of a real request, and acknowledging them, keeps the invariant |
| RaftSteps.CommittableIsChosen | src/raft_core.cpp:463-506 | an index of its own term that a leader counts as replicated is stored by a majority |
| RaftCalls.StartElectionCall | src/raft_core.cpp:532-576 | start_election keeps the invariant and queues only true requests |
| RaftCalls.HandleRequestVoteCall | src/raft_core.cpp:889-951 | handle_request_vote keeps the invariant and answers truthfully |
| RaftCalls.ReceiveVoteCall | src/raft_core.cpp:1079-1127 | receive_vote keeps the invariant for every reply ever sent |
| RaftCalls.HandleAppendEntriesCall | src/raft_core.cpp:953-1077 | handle_append_entries keeps the invariant for every request ever sent; its success is an acknowledgement on record |
| RaftCalls.ReceiveAppendResponseCall | src/raft_core.cpp:758-844 | receive_append_entries_response keeps the invariant for every reply ever sent |
| RaftCalls.AppendCommandCall | src/raft_core.cpp:681-713 | append_command keeps the invariant and queues only true requests |
| RaftCalls.RestartCall | src/raft_core.cpp:169-199 | a restart from disk keeps the invariant |
| RaftCluster.StepInv | src/raft_service.cpp:95-161 | every enabled step keeps the cluster invariant and throws exactly when misused |
| RaftCluster.InterruptedRestores | src/raft_core.cpp:917-1075 | a durable node that dies while it handles a message, after the save of a newer term and before the next one, restarts as a healthy follower with the log, commit index, journal and map of before the call |
| RaftCluster.RunInv | src/raft_runtime.cpp:61-117 | the cluster invariant holds after every run |
| RaftHandlers.VoteRequestHandled | src/raft_core.cpp:889-951 | a vote is given exactly to a member whose request is of no older term, at a node that is behind in terms, has no vote or voted for it already, and whose last entry is no later; the answer names the later term; what is left behind and saved in each case |
| RaftHandlers.VoteReplyHandled | src/raft_core.cpp:1079-1127 | an answer of a newer term makes any node a plain follower of just that term, saved; older ones, refusals and answers to a node that is no candidate change nothing; a vote is counted once, and a majority makes a leader with a fresh request for everyone |
| RaftHandlers.AppendRequestHandled | src/raft_core.cpp:953-1077 | a request of an older term or from outside leaves everything alone and is answered with the node's own term; any other is answered with the request's; exactly when it is accepted, what log and commit index it leaves, when it throws, and what is saved |
| RaftHandlers.AppendAnswerHandled | src/raft_core.cpp:758-844 | a newer term is adopted as it is; a refusal moves that follower's next_index back by one, never below one; a success makes both indexes the larger of what they were and what is confirmed; nobody else's change, and the commit index follows the quorum rule; every other answer changes nothing, or throws |
| RaftHandlers.CampaignHandled | src/raft_core.cpp:532-576 | in any role: the next term and a vote for itself, saved, and one request for every other member that names the last entry; without peers, office at once |
| RaftHandlers.CommandHandled | src/raft_core.cpp:681-713 | the entry is added, the commit index follows the quorum rule, and unless applying throws, all is saved, everyone has a fresh request, and the index is returned |
| RaftHandlers.HeartbeatHandled | src/raft_core.cpp:715-742 | at a leader only, one fresh request for every other member: from next_index to the end of the log, after the term before, with the commit index |
| RaftHandlers.QueuesTaken | src/raft_core.cpp:400-411 | taking a queue leaves nothing of its kind to send and changes nothing else |
| RaftHandlers.BootHandled | src/raft_core.cpp:31-199 | construction succeeds exactly with an odd, distinct roster that names the node, a well-formed state, a vote for a member and no unreadable committed command; the node is then a follower of that state with everything committed applied |
| RaftTerms.HeardTerm | src/raft_core.cpp:1129-1154 | whoever is handed any message ever sent is then in the later of the two terms, as a follower if it was new; only a campaign raises a term by itself |
| RaftTerms.TermsWereHeld | src/raft_core.cpp:889-1077 | every message ever sent carries a term its sender was in; every reply is what the call that handled its request returned, and carries the term that call ended in |
| RaftTerms.TermsAreContested | src/raft_core.cpp:532-534 | every term above zero that a node is in or a message carries was campaigned for by some node from the term before, and no term exceeds the number of campaigns |
| RaftVotes.GrantRepeats | src/raft_core.cpp:919-950 | a granted request delivered again in the term is granted again, with the same reply, exactly as long as the voter's log has not got ahead of it, and always while the term has no leader |
| RaftVotes.LogRests | src/raft_core.cpp:1024-1055 | while nobody has led a term, the log of a node in that term does not change |
| RaftWitnesses.GrantedVoteRefused | src/raft_core.cpp:935-942 | a run of three nodes after which a granted request, delivered again in its term, is refused |
| RaftProgress.ProgressIsHeard | src/raft_core.cpp:803-838 | between two moments of a reign, match_index is the largest of the start and all confirmations heard, and next_index the largest of one, the start less all refusals, and each confirmed index plus one less the refusals after it |
| RaftProgress.ProgressSinceOffice | src/raft_core.cpp:436-456 | every leader took office at some moment, with next_index at the end of its log, nothing confirmed and a fresh request for everyone; both indexes are what it has heard since |
| RaftProgress.NextStartsAfter | src/raft_core.cpp:827-838 | the request built after a success starts right after what it confirmed, or further on if next_index was |
| RaftLocalRuns.LocalReplay | src/raft_core.cpp:458-530 | under arbitrary calls with arbitrary messages whose commands are well formed: commit index and committed prefix only grow, last_applied equals commit_index, the journal is the committed commands in order, the map is their replay |
| RaftLocalRuns.Obey | src/raft_core.cpp:953-1077 | arbitrary calls with arbitrary, even nonsensical, messages keep the local invariant of the node (`RaftNode.Valid`), also after a call that throws |
| RaftLocalRuns.LocalLogOk | src/raft_storage.cpp:22-72 | under arbitrary calls and messages the log stays well formed and what would be saved validates |
| RaftLocal.ApplyReaches | src/raft_core.cpp:509-530 | the apply loop applies the committed commands in order, once each, and stops at the commit index or before a command that throws |
| RaftLocal.ApplyThrowsIff | src/raft_core.cpp:516-522 | applying throws exactly when a command still to be applied is a key-value command that cannot be read |
| RaftLocal.BootLocal | src/raft_core.cpp:107-167 | a constructed node satisfies the local invariant and is in step with its disk |
| RaftLocal.RestartRestores | src/raft_core.cpp:169-199 | restarting a node from its disk succeeds and gives back term, vote, log, commit index, journal and map, as a follower that knows no leader |
| RaftNode.CommitScan | src/raft_core.cpp:463-506 | the commit index settled on is the old one or a committable index above it, and nothing above it is committable |
| RaftNode.FirstNew | src/raft_core.cpp:1026-1049 | the offset where skipping stops: everything before is in the log with the same term, and the entry there conflicts or is missing |
| RaftNode.EntriesOkMeaning | src/raft_core.cpp:1013-1022 | the running checks on incoming entries accept exactly the well-formed continuations |
| RaftReplication.CommitScanIsQuorumRule | src/raft_core.cpp:458-507 | the commit index becomes the majority-th largest of the leader's last index and its match indexes, exactly when that exceeds the old one and its entry is of the current term |
| RaftReplication.KthLargestUnique | src/raft_core.cpp:473-501 | that order statistic is a single number |
| RaftReplication.RejectionOrder | src/raft_core.cpp:803-813 | a rejection of the current term keeps match_index below next_index exactly when a position lies between them or next_index is one |
| RaftWitnesses.StaleRejectionCrosses | src/raft_core.cpp:803-813 | a run of three nodes, with one refusal delivered twice, that ends in a leader whose match_index and next_index for a follower are equal |
| RaftReplication.CommandThrowsIff | src/raft_core.cpp:695-707 | at a leader, a command throws exactly when the commit index moves over an entry, still to be applied, that applying rejects; the new entry and commit index are then in memory and the disk is as before |
| RaftReplication.CommittedIsLost | src/raft_core.cpp:695-707 | a durable leader without peers, given an unreadable command: committed in memory, and gone after a restart |
| RaftReplication.MergeSpec | src/raft_core.cpp:1024-1055 | the merge leaves the log alone when nothing conflicts and nothing is missing, and otherwise cuts at the first such offset and appends the rest of the request |
| RaftReplication.MergedPresent | src/raft_core.cpp:1024-1055 | after the merge every entry is present, the part before the request is as it was, and merging again changes nothing |
| RaftReplication.HandlingTwice | src/raft_core.cpp:953-1077 | handling a request a second time gives the same answer and changes nothing further (timers apart), exactly when the request is not poisoned: it does not pass every check while moving the commit index over an entry, still to be applied, that applying rejects |
| RaftReplication.ThrowsIffPoisoned | src/raft_core.cpp:1061-1073 | handling a request throws exactly when it is poisoned |
| RaftReplication.PoisonedRepeated | src/raft_core.cpp:1061-1076 | a poisoned request throws with the merged log and the new commit index in memory; repeated, it is acknowledged, and that state is saved |
| RaftReplication.PoisonedStands | src/raft_core.cpp:509-530 | such a node stands before the entry it could not apply, with the commit index beyond it |
| RaftReplication.PoisonedDisk | src/raft_core.cpp:164-166 | from the disk as the repetition leaves it, construction fails |
| RaftReplication.PoisonedExample | src/raft_core.cpp:1061-1076 | a healthy follower and a request for which all this happens |
| RaftReplication.LateRequestKeeps | src/raft_core.cpp:1037-1047 | once a step has delivered a request and it was accepted, nothing removes what it put in place at any later moment at which the follower is in that term: no late or repeated request, in any interleaving |
| RaftCommitment.NothingLeftToCommit | src/raft_core.cpp:840-844 | at every moment of every run, no entry of a leader's own term above its commit index has been confirmed by a majority |
| RaftCommitment.AdvanceExhausts | src/raft_core.cpp:463-506 | after the scan nothing above the commit index can be committed |
| RaftClients.NothingInvented | src/raft_core.cpp:695-701 | every command in any log, any request ever sent and any journal was given by a client in that run |
| RaftService.ServiceRunsApply | src/raft_service.cpp:163-272 | with the service as the only client entry, every command in any log or request was built by a maker and decodes, and every map is what its committed entries mean, applied in order to the empty map |
| RaftService.BuiltDecodes | src/key_value_store.cpp:30-57 | the commands the makers can build are exactly the readable ones, and applying them cannot throw |
| RaftService.RaftServiceImpl.Set | src/raft_service.cpp:163-202 | FAILED_PRECONDITION at a node that is not leader, INVALID_ARGUMENT for a bad key, both without any change; otherwise the command built from key and value becomes the last entry, and the answer is the index, or INVALID_ARGUMENT when append_command throws, which it never does at a healthy leader |
| RaftService.RaftServiceImpl.Delete | src/raft_service.cpp:238-272 | the same for a deletion |
| RaftService.RaftServiceImpl.Get | src/raft_service.cpp:204-236 | a leader answers from the replay of what it has applied, which at a healthy one is its whole committed prefix; any other node refuses |
| KeyValue.KeyValueStore.Apply | src/key_value_store.cpp:59-115 | performs exactly the update the command encodes, or throws and leaves the map alone |
| KeyValue.DecodeEncode | src/key_value_store.cpp:30-47 | any key that is not empty and has no space, and any value, come back from the command built from them |
| KeyValue.ReadableIffBuilt | src/key_value_store.cpp:59-115 | a command reads as an operation exactly when it was built from that operation with a good key, so the reading is unique |
| KeyValue.MadeCommandsApply | src/key_value_store.cpp:11-47 | the makers reject exactly the bad keys, and applying what they make sets or deletes exactly that key |
| KeyValue.AppliesByPrefix | src/key_value_store.cpp:49-57 | a command is a key-value command by its first word; then it can be applied exactly if a maker could have built it; any other leaves the map alone |
| KeyValue.RawCommandThrows | src/key_value_store.cpp:72-76 | a raw command can look like a key-value command and throw when applied |
| RaftStorage.FileRaftStorage.Validate | src/raft_storage.cpp:22-72 | accepts exactly the states with a well-formed log, a commit index inside it and no empty vote |
| RaftStorage.FileRaftStorage.Save | src/raft_storage.cpp:104-170 | writes the state field by field; a state that does not validate throws and leaves the file alone |
| RaftStorage.FileRaftStorage.Load | src/raft_storage.cpp:172-297 | the cursor reads what the parser specifies, with its error cases |
| RaftStorage.RoundTrip | src/raft_storage.cpp:104-297 | loading what was saved gives every valid state back, and whatever loads is valid and saves to the same state |
| RaftGrammar.LoadsExactly | src/raft_storage.cpp:172-297 | a text loads as a state exactly if it is the format line, the labelled fields in order with any white space before each part, and as many entries as counted, and the state validates; other texts are unreadable or invalid |
| RaftGrammar.EscapeIsShortest | src/raft_storage.cpp:127-133 | what is written between quotes is the one shortest text that reads back: only quotes and backslashes are escaped |
| RaftStorage.QuotedReadsBack | src/raft_storage.cpp:127-133 | any text, with quotes, backslashes, spaces and newlines, survives quoting |
| RaftStorage.PrintInjective | src/raft_storage.cpp:115-160 | different states never give the same file |
| RaftCoreObject.CreateRaftCore | src/raft_core.cpp:31-167 | construction checks its arguments, restores the state file if there is one, checks what it recovered, replays the committed prefix, draws a deadline from the given range and saves; how each failure ends, with the file left alone |
| RaftCoreObject.RaftCore.PersistState | src/raft_core.cpp:201-218 | the disk becomes the persistent fields; without a path nothing happens |
| RaftCoreObject.RaftCore.ResetElectionDeadline | src/raft_core.cpp:377-390 | the deadline is the current time plus any value of the configured range |
| RaftCoreObject.RaftCore.Tick | src/raft_core.cpp:360-375 | starts an election exactly when the deadline has passed at a node that is not leader, and elections started by ticks times the minimum timeout never exceed the current time, although resets may move the deadline backwards |
| RaftCoreObject.RaftCore.BecomeFollower | src/raft_core.cpp:1129-1154 | a newer term, no vote, no leader, no queues, saved; the timers stay |
| RaftCoreObject.RaftCore.ApplyCommittedEntries | src/raft_core.cpp:509-530 | the loop performs the specified application, and reports whether it threw |
| RaftCoreObject.RaftCore.MakeAppendEntriesRequest | src/raft_core.cpp:616-679 | the entries from next_index on, pushed one by one, after the entry to check; wrong role and unknown follower throw |
| RaftCoreObject.RaftCore.QueueHeartbeatActions | src/raft_core.cpp:715-742 | the queue is replaced by one individual request for every other member |
| RaftCoreObject.RaftCore.QueueRequestVoteActions | src/raft_core.cpp:413-434 | the queue is replaced by the same vote request for every other member |
| RaftCoreObject.RaftCore.InitializeLeaderReplicationState | src/raft_core.cpp:436-456 | every other member gets next_index last+1 and match_index 0 |
| RaftCoreObject.RaftCore.FindCommittable | src/raft_core.cpp:463-504 | the backward loop finds the commit index of the specification |
| RaftCoreObject.RaftCore.AdvanceCommitIndex | src/raft_core.cpp:458-507 | commits, applies and saves, or changes nothing |
| RaftCoreObject.RaftCore.CandidateLogIsUpToDate | src/raft_core.cpp:846-861 | compares last terms first, then last indexes |
| RaftCoreObject.RaftCore.PreviousLogPositionMatches | src/raft_core.cpp:863-887 | the previous position of a request is in the log with that term |
| RaftCoreObject.RaftCore.StartElection | src/raft_core.cpp:532-576 | takes the election step that RaftHandlers.CampaignHandled describes and draws a new deadline |
| RaftCoreObject.RaftCore.HandleRequestVote | src/raft_core.cpp:889-951 | takes the step that RaftHandlers.VoteRequestHandled describes; the deadline is reset exactly when the vote is granted |
| RaftCoreObject.RaftCore.ReceiveVote | src/raft_core.cpp:1079-1127 | takes the step that RaftHandlers.VoteReplyHandled describes and leaves the timers alone |
| RaftCoreObject.RaftCore.EntriesAcceptable | src/raft_core.cpp:1011-1022 | the loop with its running previous term decides the four entry checks |
| RaftCoreObject.RaftCore.MergeEntries | src/raft_core.cpp:1024-1055 | the two loops produce the merged log, or refuse a committed conflict without a change |
| RaftCoreObject.RaftCore.HandleAppendEntries | src/raft_core.cpp:953-1077 | takes the step that RaftHandlers.AppendRequestHandled describes; the deadline is reset exactly when a member's request of a current or newer term arrives |
| RaftCoreObject.RaftCore.ReceiveAppendEntriesResponse | src/raft_core.cpp:758-844 | takes the step that RaftHandlers.AppendAnswerHandled describes and leaves the timers alone |
| RaftCoreObject.RaftCore.AppendCommand | src/raft_core.cpp:681-713 | takes the step that RaftHandlers.CommandHandled describes and returns the new last index |
| RaftSimulation.CatchUp | src/in_memory_cluster.cpp:137-176 | from any reachable state and with any number of rounds: replicate_until_caught_up returns true exactly when everyone was caught up already, or no node is of a newer term and each follower behind shares with the leader all but that many of the entries before its next_index; exactly then the node still leads and has everyone's confirmation; every follower then has its own log if that extended the leader's, and exactly the leader's otherwise; a node that meets a newer term ends as a follower of the latest |
| RaftWitnesses.LongerLogStays | src/in_memory_cluster.cpp:137-176 | a run after which catching up succeeds and a follower keeps a log that properly extends the leader's |
| RaftSimulation.RequestSettles | src/raft_core.cpp:1024-1055 | a leader's current request leaves its addressee's log as it was or, only if that was no extension of the leader's, makes it exactly the leader's |
| RaftSimulation.AppendAnswer | src/raft_core.cpp:863-887 | a leader's request is accepted exactly by a log that shares with the leader's all that precedes it |
| RaftSimulation.EnoughRounds | src/in_memory_cluster.cpp:137-176 | with no newer term around, as many rounds as the largest next_index are always enough |
| RaftSimulation.RoundsResult | src/in_memory_cluster.cpp:154-175 | the same for the rounds alone, by induction: true exactly when they were enough, and exactly when everyone has confirmed at the end |
| RaftSimulation.RoundAll | src/in_memory_cluster.cpp:178-203 | one pass over the queue moves every addressed follower and touches no other, unless it meets a newer term: then the leader ends as a follower of the latest it met |
| RaftSimulation.CloserAfterRound | src/in_memory_cluster.cpp:154-175 | after a round with no newer term around, k more rounds are enough exactly if k+1 were before it |
| RaftSimulation.CaughtUpHolds | src/in_memory_cluster.cpp:205-226 | when all followers count as caught up and no node is of a newer term, every log has the leader's as a prefix |
| RaftSimulation.AppendExchange | src/raft_core.cpp:803-838 | a fresh request and its answer bring both indexes to the end of the leader's log exactly if the follower shares all before next_index; otherwise next_index moves back by one and nothing else changes |
| RaftSimulation.StaleExchange | src/raft_core.cpp:774-790 | a newer term in an answer makes the leader a follower of it, and once deposed it stays so, in the latest term it meets |
| RaftSimulatedCommit.EveryoneApplies | src/in_memory_cluster.cpp:123-176 | a leader whose last entry is of its own term, with no newer term around: once replicate_until_caught_up has returned true, and after one more round of heartbeats, every node has committed and applied exactly the leader's log and holds the same map |
| RaftSimulatedCommit.CaughtUpCommitted | src/raft_core.cpp:840-844 | a leader that counts everyone as caught up has committed its whole log when its last entry is of its own term |
| RaftSimulatedCommit.CommitAll | src/in_memory_cluster.cpp:178-203 | one pass over such a leader's queue makes every addressed follower commit the whole log |
| RaftSimulatedCommit.AcceptedCommit | src/raft_core.cpp:1061-1073 | an accepted request raises the commit index to the leader's, as far as the request verified the log |
| RaftSimulatedElection.ElectionOutcome | src/in_memory_cluster.cpp:71-121 | from any reachable state: if no node's term exceeds the candidate's next one, start_election makes it leader exactly when the members that may vote for it, itself counted, are a majority, and then every other node follows it and names it; otherwise it stays candidate with just those votes; if some term is later, it ends as a follower of the latest |
| RaftSimulatedElection.PollAll | src/in_memory_cluster.cpp:96-121 | after each answer the candidate's votes are exactly those of the supporters asked so far, or it is a follower of the latest term met |
| RaftSimulatedElection.CandidateHears | src/raft_core.cpp:1079-1127 | what one more answer makes of the candidate: counted, overtaken or ignored |
| RaftSimulatedElection.VoteCounted | src/raft_core.cpp:1106-1126 | a granted vote is counted once, and the node leads, with a queue of fresh requests, exactly once the votes are a majority |
| RaftInMemoryCluster.CreateInMemoryCluster | src/in_memory_cluster.cpp:10-37 | succeeds exactly for a roster of an odd number of distinct names and a range of timeouts; the nodes have that range, share nothing and are a run's beginning |
| RaftInMemoryCluster.InMemoryCluster.Node | src/in_memory_cluster.cpp:39-53 | the node of that name, or an exception |
| RaftInMemoryCluster.InMemoryCluster.StartElection | src/in_memory_cluster.cpp:71-94 | the election of the specification, in place, with the outcome of ElectionOutcome from any state of the run; returns the number of requests |
| RaftInMemoryCluster.InMemoryCluster.DeliverRequestVoteActions | src/in_memory_cluster.cpp:96-121 | every queued vote request is answered and counted, in order, and none of it throws |
| RaftInMemoryCluster.InMemoryCluster.DeliverAppendEntriesActions | src/in_memory_cluster.cpp:178-203 | every queued append request is answered and recorded, in order, and none of it throws |
| RaftInMemoryCluster.InMemoryCluster.SendHeartbeats | src/in_memory_cluster.cpp:123-135 | a round of fresh requests at a leader, one for every other node, and their number; elsewhere an exception |
| RaftInMemoryCluster.InMemoryCluster.AllFollowersCaughtUp | src/in_memory_cluster.cpp:205-226 | whether every other node has confirmed the leader's last entry |
| RaftInMemoryCluster.InMemoryCluster.ReplicateUntilCaughtUp | src/in_memory_cluster.cpp:137-176 | the rounds of the specification, in place; whatever their number, true exactly when they were enough, and exactly when the node still leads and everyone has confirmed; then every follower keeps its log if it extends the leader's and otherwise has exactly the leader's |

## Left out

- gRPC plumbing, peer clients, CLI, web gateway and dashboard: input and output around the core.
- Message conversion (src/rpc_conversion.cpp) copies field by field and is taken as the identity.
- Real time: RPC deadlines, the 50 ms heartbeat cadence and liveness under real timing. Steps interleave as the runtime allows, without a clock.
- The random engine: a drawn timeout is any value of the configured range.
- Timers are kept by the class `RaftCore` and not by the pure node state, since no decision of the protocol depends on them; in the cluster an election may start at any time.
- 64-bit wrap-around of terms, indexes and time: they are natural numbers.
- Torn writes and disk errors: a save is atomic and succeeds, though a node may die between the two saves of one call. Reading numbers with signs, or too large for 64 bits, and a failing reservation of memory while loading are not modelled.
- Crash and restart of nodes without a storage path, which lose their vote and log.
- Linearizable reads: the original uses neither ReadIndex nor leases; only the replayed prefix of the answering leader is claimed.
- In the cluster a client command is one that applying cannot reject, which the service guarantees; one node is also treated with unreadable commands (`Valid`, `ApplyThrowsIff`).
- Handlers that only pass a call on under the mutex (tick, heartbeats, votes, status), getters, `to_string` and `make_heartbeat_request`.
- Long methods of the original are split into private methods here; the order of their effects is the original's.
- Calls that a user of the simulator makes on a node obtained through `node()` are steps of the same run; only `AppendCommand` is spelled out.
