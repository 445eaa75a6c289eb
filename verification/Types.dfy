/** The values that nodes store and exchange (include/miniraft/raft_core.hpp,
    include/miniraft/raft_storage.hpp). */
module RaftTypes {

  type NodeId = string

  datatype Option<+T> = None | Some(value: T)

  /** The two kinds of exception the modelled code throws. */
  datatype Fault = InvalidArgument | LogicError | RuntimeError

  /** How a call ends: with a value, or by throwing. */
  datatype Reply<+T> = Returned(value: T) | Threw(fault: Fault)

  datatype Role = Follower | Candidate | Leader

  datatype LogEntry = LogEntry(term: nat, command: string)

  datatype RequestVoteRequest = RequestVoteRequest(
    term: nat, candidateId: NodeId, lastLogIndex: nat, lastLogTerm: nat)

  datatype RequestVoteResponse = RequestVoteResponse(term: nat, voteGranted: bool)

  datatype RequestVoteAction = RequestVoteAction(target: NodeId, request: RequestVoteRequest)

  datatype AppendEntriesRequest = AppendEntriesRequest(
    term: nat, leaderId: NodeId, prevLogIndex: nat, prevLogTerm: nat,
    entries: seq<LogEntry>, leaderCommit: nat)

  datatype AppendEntriesResponse = AppendEntriesResponse(term: nat, success: bool, matchedIndex: nat)

  datatype AppendEntriesAction = AppendEntriesAction(target: NodeId, request: AppendEntriesRequest)

  datatype PersistentState = PersistentState(
    currentTerm: nat, votedFor: Option<NodeId>, log: seq<LogEntry>, commitIndex: nat)

  /** Terms are positive, never decrease, never exceed `term`; commands are not empty. */
  ghost predicate LogOk(log: seq<LogEntry>, term: nat) {
    && (forall i :: 0 <= i < |log| ==> 0 < log[i].term <= term && log[i].command != "")
    && (forall i, j :: 0 <= i < j < |log| ==> log[i].term <= log[j].term)
  }

  function LastTerm(log: seq<LogEntry>): nat {
    if log == [] then 0 else log[|log| - 1].term
  }

  function Min(a: nat, b: nat): nat { if a < b then a else b }

  function Max(a: nat, b: nat): nat { if a < b then b else a }

  predicate Distinct(members: seq<NodeId>) {
    forall i, j :: 0 <= i < j < |members| ==> members[i] != members[j]
  }

  /** A roster the constructor accepts: an odd number of distinct, non-empty IDs. */
  predicate RosterOk(members: seq<NodeId>) {
    && |members| % 2 == 1
    && Distinct(members)
    && "" !in members
  }

  function Majority(members: seq<NodeId>): nat { |members| / 2 + 1 }
}
