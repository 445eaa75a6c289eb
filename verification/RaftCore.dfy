/** The node as the object it is in the source: fields updated in place by its methods
    (include/miniraft/raft_core.hpp:278-342, src/raft_core.cpp). Each public method is tied
    to the pure step of RaftNode that it takes. */
module RaftCoreObject {
  import opened RaftTypes
  import opened KeyValue
  import opened RaftNode
  import opened RaftSteps
  import opened RaftLocal
  import opened RaftStorage

  /** What a state file holds, read back. */
  ghost function DiskOf(storage: FileRaftStorage?): Option<PersistentState>
    reads storage
  {
    if storage == null || storage.file == None then None
    else match Parse(storage.file.value) case Returned(p) => Some(p) case Threw(_) => None
  }

  class RaftCore {
    const nodeId: NodeId
    const members: seq<NodeId>
    const storage: FileRaftStorage?
    const keyValueStore: KeyValueStore

    var logEntries: seq<LogEntry>
    var commitIndex: nat
    var lastApplied: nat
    var appliedCommands: seq<string>
    var role: Role
    var currentTerm: nat
    var votedFor: Option<NodeId>
    var leaderId: Option<NodeId>
    var votesReceived: set<NodeId>
    var pendingVotes: seq<RequestVoteAction>
    var pendingAppends: seq<AppendEntriesAction>
    var nextIndex: map<NodeId, nat>
    var matchIndex: map<NodeId, nat>

    var currentTime: nat
    const minTimeout: nat
    const maxTimeout: nat
    var electionTimeout: nat
    var electionDeadline: nat

    /** How many ticks have started an election, and when the last one did. */
    ghost var elections: nat
    ghost var lastElection: nat

    /** The fields before the constructor's checks are over; nothing is applied yet. */
    constructor Unapplied(nodeId: NodeId, members: seq<NodeId>, p: PersistentState,
                          minTimeout: nat, maxTimeout: nat, storage: FileRaftStorage?)
      requires 0 < minTimeout <= maxTimeout
      ensures TimersOk() && fresh(this) && fresh(keyValueStore) && this.storage == storage
      ensures Cfg() == Config(nodeId, members, storage != null)
      ensures TheCore() == Core(Follower, p.currentTerm, p.votedFor, None, p.log, p.commitIndex, {}, map[], map[])
      ensures TheMachine() == Machine(0, [], map[])
      ensures pendingVotes == [] && pendingAppends == [] && currentTime == 0 && elections == 0
      ensures this.minTimeout == minTimeout && this.maxTimeout == maxTimeout
    {
      this.nodeId := nodeId;
      this.members := members;
      this.storage := storage;
      var store := new KeyValueStore();
      this.keyValueStore := store;
      this.minTimeout := minTimeout;
      this.maxTimeout := maxTimeout;
      currentTerm, votedFor, logEntries, commitIndex := p.currentTerm, p.votedFor, p.log, p.commitIndex;
      role, leaderId, votesReceived := Follower, None, {};
      pendingVotes, pendingAppends, nextIndex, matchIndex := [], [], map[], map[];
      lastApplied, appliedCommands := 0, [];
      currentTime, electionTimeout, electionDeadline := 0, minTimeout, minTimeout;
      elections, lastElection := 0, 0;
    }

    ghost function Cfg(): Config {
      Config(nodeId, members, storage != null)
    }

    ghost function TheCore(): Core
      reads this
    {
      Core(role, currentTerm, votedFor, leaderId, logEntries, commitIndex, votesReceived, nextIndex, matchIndex)
    }

    ghost function TheMachine(): Machine
      reads this, keyValueStore
    {
      Machine(lastApplied, appliedCommands, keyValueStore.values)
    }

    ghost function State(): NodeState
      reads this, keyValueStore, storage
    {
      NodeState(Cfg(), TheCore(), TheMachine(), pendingVotes, pendingAppends, DiskOf(storage))
    }

    /** Elections started by ticks are at least the minimum timeout apart, although the
        deadline itself may move backwards when it is reset. */
    ghost predicate TimersOk()
      reads this`currentTime, this`electionDeadline, this`elections, this`lastElection
    {
      && 0 < minTimeout <= maxTimeout
      && elections * minTimeout <= lastElection <= currentTime
      && lastElection + minTimeout <= electionDeadline
    }

    ghost predicate Valid()
      reads this, keyValueStore, storage
    {
      RaftNode.Valid(State()) && TimersOk()
    }

    /** The timers, which most calls leave alone. */
    ghost function Timers(): (nat, nat, nat, nat, nat)
      reads this
    {
      (currentTime, electionTimeout, electionDeadline, elections, lastElection)
    }

    /** A deadline drawn at the current time, from the configured range. */
    ghost predicate DeadlineFresh()
      reads this
    {
      minTimeout <= electionTimeout <= maxTimeout && electionDeadline == currentTime + electionTimeout
    }

    // ----- private helpers -----

    /** The random engine may draw any value of the inclusive range. */
    method ResetElectionDeadline()
      requires TimersOk()
      modifies this`electionTimeout, this`electionDeadline
      ensures TimersOk() && DeadlineFresh() && State() == old(State())
    {
      hide Parse;
      var timeout: nat :| minTimeout <= timeout <= maxTimeout;
      electionTimeout := timeout;
      electionDeadline := currentTime + electionTimeout;
    }

    /** Save what must survive a restart; the state always validates. */
    method PersistState()
      requires StateOk(Persistent(TheCore()))
      modifies storage
      ensures State() == Persist(old(State()))
    {
      hide Parse, StateOk;
      if storage == null {
        return;
      }
      var p := PersistentState(currentTerm, votedFor, logEntries, commitIndex);
      var r := storage.Save(p);
      RoundTrip(p, "");
    }

    method BecomeFollower(newTerm: nat)
      requires Valid() && currentTerm < newTerm
      modifies this, keyValueStore, storage
      ensures Valid() && State() == RaftNode.BecomeFollower(old(State()), newTerm)
      ensures Timers() == old(Timers())
    {
      hide TimersOk, Parse, RaftNode.Valid, Healthy, Advances, StateOk, State, Persist;
      StateParts();
      BecomeFollowerLocal(State(), newTerm);
      StateValidates(RaftNode.BecomeFollower(State(), newTerm));
      EnterTerm(newTerm);
      StateParts();
      PersistKeepsCore(State());
      PersistState();
    }

    /** The newer term, nothing known about it yet, and nothing left of the older one. */
    method EnterTerm(newTerm: nat)
      modifies this`currentTerm, this`votedFor, this`leaderId, this`role, this`votesReceived, this`pendingVotes,
               this`pendingAppends, this`nextIndex, this`matchIndex
      ensures State() == old(State()).(core := RaiseTerm(old(TheCore()), newTerm), voteQueue := [], appendQueue := [])
    {
      hide Parse;
      currentTerm := newTerm;
      votedFor := None;
      leaderId := None;
      ForgetRole();
    }

    lemma StateParts()
      ensures State().core == TheCore() && State().cfg == Cfg() && State().machine == TheMachine()
      ensures Valid() ==> RaftNode.Valid(State())
    {
    }

    /** Follower again: votes, queues and replication progress are gone. */
    method ForgetRole()
      modifies this`role, this`votesReceived, this`pendingVotes, this`pendingAppends, this`nextIndex, this`matchIndex
      ensures TheCore() == StepDown(old(TheCore())) && pendingVotes == [] && pendingAppends == []
    {
      role := Follower;
      votesReceived := {};
      pendingVotes := [];
      pendingAppends := [];
      nextIndex := map[];
      matchIndex := map[];
    }

    /** Apply every newly committed command exactly once, stopping where one throws. */
    method ApplyCommittedEntries() returns (ok: bool)
      requires commitIndex <= |logEntries|
      modifies this`lastApplied, this`appliedCommands, keyValueStore
      ensures (TheMachine(), ok) == ApplyCommitted(old(TheCore()), old(TheMachine()))
    {
      hide Parse, RaftNode.Valid, Healthy, Advances;
      while lastApplied < commitIndex
        invariant ApplyCommitted(TheCore(), TheMachine()) == ApplyCommitted(old(TheCore()), old(TheMachine()))
      {
        var command := logEntries[lastApplied].command;
        if IsKeyValueCommand(command) {
          var r := keyValueStore.Apply(command);
          if r.Threw? {
            return false;
          }
        }
        appliedCommands := appliedCommands + [command];
        lastApplied := lastApplied + 1;
      }
      return true;
    }

    method MajoritySize() returns (n: nat)
      ensures n == Majority(members)
    {
      n := |members| / 2 + 1;
    }

    /** Build the request for one follower, entry by entry. */
    method MakeAppendEntriesRequest(follower: NodeId) returns (r: Reply<AppendEntriesRequest>)
      requires role == Leader ==> ProgressOk(Cfg(), TheCore())
      ensures role != Leader ==> r == Threw(LogicError)
      ensures role == Leader && !IsPeer(Cfg(), follower) ==> r == Threw(InvalidArgument)
      ensures role == Leader && IsPeer(Cfg(), follower) ==>
                r == Returned(MakeAppendRequest(Cfg(), TheCore(), follower))
    {
      if role != Leader {
        return Threw(LogicError);
      }
      if follower !in nextIndex {
        return Threw(InvalidArgument);
      }
      var next := nextIndex[follower];
      var prevTerm := 0;
      if next - 1 != 0 {
        prevTerm := logEntries[next - 2].term;
      }
      var entries := [];
      var index := next;
      while index <= |logEntries|
        invariant next <= index <= |logEntries| + 1
        invariant entries == logEntries[next - 1..index - 1]
      {
        entries := entries + [logEntries[index - 1]];
        index := index + 1;
      }
      assert entries == logEntries[next - 1..];
      return Returned(AppendEntriesRequest(currentTerm, nodeId, next - 1, prevTerm, entries, commitIndex));
    }

    /** One request for every other member, individualized. */
    method MakeAppendActions() returns (q: seq<AppendEntriesAction>)
      requires role == Leader && ProgressOk(Cfg(), TheCore())
      ensures q == AppendActions(Cfg(), TheCore())
    {
      hide MakeAppendRequest, Peers, ProgressOk, AppendActionsTo, AppendActions, Covered;
      q := [];
      NoActionsYet(Cfg(), TheCore());
      assert members[..0] == [];
      for i := 0 to |members|
        invariant Covered(TheCore(), Peers(members[..i], nodeId))
        invariant q == AppendActionsTo(Cfg(), TheCore(), Peers(members[..i], nodeId))
      {
        PeersStep(members, nodeId, i);
        if members[i] != nodeId {
          AppendActionsStep(Cfg(), TheCore(), Peers(members[..i], nodeId), members[i]);
          var request := MakeAppendEntriesRequest(members[i]);
          q := q + [AppendEntriesAction(members[i], request.value)];
        }
      }
      assert members[..|members|] == members;
      AppendActionsAll(Cfg(), TheCore());
    }

    /** Fresh requests in place of what was queued. */
    method QueueHeartbeatActions() returns (r: Reply<()>)
      requires role == Leader ==> ProgressOk(Cfg(), TheCore())
      modifies this`pendingAppends
      ensures Outcome(State(), r) == QueueHeartbeats(old(State()))
    {
      hide Parse, AppendActions, ProgressOk;
      if role != Leader {
        return Threw(LogicError);
      }
      pendingAppends := MakeAppendActions();
      return Returned(());
    }

    method QueueRequestVoteActions()
      modifies this`pendingVotes
      ensures State() == old(State()).(voteQueue := VoteActions(Cfg(), TheCore()))
      ensures pendingVotes == VoteActions(Cfg(), TheCore())
    {
      hide DiskOf, VoteActions;
      FillVoteQueue(RequestVoteRequest(currentTerm, nodeId, |logEntries|, LastTerm(logEntries)));
    }

    method FillVoteQueue(request: RequestVoteRequest)
      requires request == MakeVoteRequest(Cfg(), TheCore())
      modifies this`pendingVotes
      ensures pendingVotes == VoteActions(Cfg(), TheCore())
    {
      hide Peers, VoteActionsTo, VoteActions, MakeVoteRequest;
      pendingVotes := [];
      VoteActionsEnds(Cfg(), TheCore());
      assert members[..0] == [];
      for i := 0 to |members|
        invariant pendingVotes == VoteActionsTo(request, Peers(members[..i], nodeId))
        invariant request == MakeVoteRequest(Cfg(), TheCore())
      {
        PeersStep(members, nodeId, i);
        if members[i] != nodeId {
          VoteActionsStep(request, Peers(members[..i], nodeId), members[i]);
          pendingVotes := pendingVotes + [RequestVoteAction(members[i], request)];
        }
      }
      assert members[..|members|] == members;
    }

    method InitializeLeaderReplicationState()
      modifies this`nextIndex, this`matchIndex
      ensures nextIndex == Crown(Cfg(), TheCore()).nextIndex
      ensures matchIndex == Crown(Cfg(), TheCore()).matchIndex
    {
      nextIndex := map[];
      matchIndex := map[];
      var initial := |logEntries| + 1;
      for i := 0 to |members|
        invariant forall f :: f in nextIndex <==> f in members[..i] && f != nodeId
        invariant forall f :: f in matchIndex <==> f in members[..i] && f != nodeId
        invariant forall f :: f in nextIndex ==> nextIndex[f] == initial
        invariant forall f :: f in matchIndex ==> matchIndex[f] == 0
      {
        if members[i] != nodeId {
          nextIndex := nextIndex[members[i] := initial];
          matchIndex := matchIndex[members[i] := 0];
        }
      }
      assert members[..|members|] == members;
    }

    /** The leader's role and fresh replication progress. */
    method EnterOffice()
      modifies this`role, this`leaderId, this`pendingVotes, this`nextIndex, this`matchIndex
      ensures TheCore() == Crown(Cfg(), old(TheCore())) && pendingVotes == []
    {
      role := Leader;
      leaderId := Some(nodeId);
      pendingVotes := [];
      InitializeLeaderReplicationState();
    }

    /** Becoming leader: shared by start_election and receive_vote. */
    method TakeOffice()
      requires Valid() && 0 < currentTerm
      modifies this`role, this`leaderId, this`pendingVotes, this`pendingAppends, this`nextIndex, this`matchIndex
      ensures Valid() && State() == RaftNode.TakeOffice(old(State()))
    {
      hide TimersOk, Parse, RaftNode.Valid, Healthy, Advances, AppendActions, ProgressOk, Crown;
      ghost var before := State();
      TakeOfficeLocal(before);
      CrownProgress(Cfg(), TheCore());
      CrownRole(Cfg(), TheCore());
      EnterOffice();
      var r := QueueHeartbeatActions();
      assert State() == RaftNode.TakeOffice(before);
    }

    /** Count the leader and the followers that confirmed `index`. */
    method ReplicationCount(index: nat) returns (count: nat)
      requires forall f :: IsPeer(Cfg(), f) ==> f in matchIndex
      ensures (forall f :: f in Peers(members, nodeId) ==> f in matchIndex) &&
              count == 1 + Confirmed(matchIndex, Peers(members, nodeId), index)
    {
      hide Parse, RaftNode.Valid, Healthy, Advances;
      count := 1;
      for i := 0 to |members|
        invariant forall f :: f in Peers(members[..i], nodeId) ==> f in matchIndex
        invariant count == 1 + Confirmed(matchIndex, Peers(members[..i], nodeId), index)
      {
        PeersStep(members, nodeId, i);
        if members[i] != nodeId {
          assert IsPeer(Cfg(), members[i]);
          ConfirmedStep(matchIndex, Peers(members[..i], nodeId), members[i], index);
          if index <= matchIndex[members[i]] {
            count := count + 1;
          }
        }
      }
      assert members[..|members|] == members;
    }

    /** Search backward for the highest index the leader may commit. */
    method FindCommittable() returns (n: nat)
      requires role == Leader && ProgressOk(Cfg(), TheCore()) && commitIndex <= |logEntries|
      ensures n == CommitScan(Cfg(), TheCore(), |logEntries|)
    {
      hide Confirmed, Peers;
      var majority := MajoritySize();
      n := |logEntries|;
      while commitIndex < n
        invariant commitIndex <= n <= |logEntries|
        invariant CommitScan(Cfg(), TheCore(), n) == CommitScan(Cfg(), TheCore(), |logEntries|)
      {
        if logEntries[n - 1].term == currentTerm {
          var count := ReplicationCount(n);
          if majority <= count {
            return;
          }
        }
        n := n - 1;
      }
    }

    method AdvanceCommitIndex() returns (ok: bool)
      requires Valid()
      modifies this, keyValueStore, storage
      ensures Valid()
      ensures old(role) != Leader ==> State() == old(State()) && ok
      ensures old(role) == Leader ==> ProgressOk(Cfg(), old(TheCore())) && old(commitIndex) <= |old(logEntries)|
      ensures old(role) == Leader ==> (State(), ok) == AdvanceCommit(old(State()))
      ensures Timers() == old(Timers())
    {
      hide TimersOk, Parse, RaftNode.Valid, Healthy, Advances, CommitScan, ApplyCommitted, StateOk, ProgressOk, Persist,
           State;
      StateParts();
      ok := true;
      if role != Leader {
        return;
      }
      ghost var before := State();
      ValidLeaderParts(before);
      AdvanceCommitLocal(before);
      StateValidates(AdvanceCommit(before).0);
      var n := FindCommittable();
      if n == commitIndex {
        return;
      }
      ok := CommitTo(n);
      StateParts();
      PersistKeepsCore(State());
      if ok {
        PersistState();
      }
    }

    /** The new commit index, and the entries up to it applied. */
    method CommitTo(n: nat) returns (ok: bool)
      requires n <= |logEntries|
      modifies this`commitIndex, this`lastApplied, this`appliedCommands, keyValueStore
      ensures ok == ApplyCommitted(old(TheCore()).(commit := n), old(TheMachine())).1
      ensures State() == old(State()).(core := old(TheCore()).(commit := n),
                                       machine := ApplyCommitted(old(TheCore()).(commit := n), old(TheMachine())).0)
    {
      hide Parse, ApplyCommitted;
      commitIndex := n;
      ok := ApplyCommittedEntries();
    }

    method CandidateLogIsUpToDate(lastIndex: nat, lastTerm: nat) returns (b: bool)
      ensures b == UpToDate(lastIndex, lastTerm, logEntries)
    {
      var own := LastTerm(logEntries);
      if lastTerm > own {
        return true;
      }
      if lastTerm < own {
        return false;
      }
      return lastIndex >= |logEntries|;
    }

    method PreviousLogPositionMatches(prevIndex: nat, prevTerm: nat) returns (b: bool)
      ensures b == PreviousMatches(logEntries, prevIndex, prevTerm)
    {
      if prevIndex == 0 {
        return prevTerm == 0;
      }
      if prevIndex > |logEntries| {
        return false;
      }
      return logEntries[prevIndex - 1].term == prevTerm;
    }

    // ----- public calls -----

    method StartElection()
      requires Valid()
      modifies this, keyValueStore, storage
      ensures Valid() && State() == RaftNode.StartElection(old(State()))
      ensures DeadlineFresh()
      ensures currentTime == old(currentTime) && elections == old(elections) && lastElection == old(lastElection)
    {
      hide TimersOk, Parse, RaftNode.Valid, Healthy, Advances, StateOk, VoteActions, RaftNode.TakeOffice, Persist;
      ghost var before := State();
      StartElectionLocal(before);
      Ask();
      var majority := MajoritySize();
      if majority <= |votesReceived| {
        TakeOffice();
      }
    }

    /** The campaign itself: saved before anyone is asked. */
    method Ask()
      requires Valid()
      modifies this, keyValueStore, storage
      ensures Valid() && DeadlineFresh() && votesReceived == {nodeId} && 0 < currentTerm
      ensures currentTime == old(currentTime) && elections == old(elections) && lastElection == old(lastElection)
      ensures TheCore() == CampaignCore(old(TheCore()), nodeId)
      ensures State() == Persist(old(State()).(core := TheCore(), appendQueue := []))
                         .(voteQueue := VoteActions(Cfg(), TheCore()))
    {
      hide TimersOk, Parse, RaftNode.Valid, Healthy, Advances, StateOk, VoteActions, Persist, State, CampaignCore;
      ghost var before := State();
      StateParts();
      EnterCampaign();
      StateParts();
      ghost var asked := State();
      AskedState(before, asked);
      ResetElectionDeadline();
      StateParts();
      PersistState();
      StateParts();
      QueueRequestVoteActions();
      StateParts();
    }

    /** A newer term, a vote for itself, and nothing left of older elections. */
    method EnterCampaign()
      modifies this`currentTerm, this`role, this`leaderId, this`pendingAppends, this`nextIndex, this`matchIndex,
               this`votesReceived, this`votedFor
      ensures TheCore() == CampaignCore(old(TheCore()), nodeId)
      ensures State() == old(State()).(core := TheCore(), appendQueue := [])
      ensures votesReceived == {nodeId} && 0 < currentTerm
    {
      hide DiskOf;
      Depart();
      votesReceived := {};
      votedFor := Some(nodeId);
      votesReceived := votesReceived + {nodeId};
    }

    /** Candidate of the next term, with no leader and no replication progress. */
    method Depart()
      modifies this`currentTerm, this`role, this`leaderId, this`pendingAppends, this`nextIndex, this`matchIndex
      ensures State() == old(State()).(core := TheCore(), appendQueue := [])
      ensures TheCore() == old(TheCore()).(term := old(currentTerm) + 1, role := Candidate, leaderId := None,
                                           nextIndex := map[], matchIndex := map[])
    {
      hide DiskOf;
      currentTerm := currentTerm + 1;
      role := Candidate;
      leaderId := None;
      pendingAppends := [];
      nextIndex := map[];
      matchIndex := map[];
    }

    /** One more election started by a tick, now. */
    ghost method CountElection()
      requires 0 < minTimeout <= maxTimeout && (elections + 1) * minTimeout <= currentTime && DeadlineFresh()
      modifies this`elections, this`lastElection
      ensures TimersOk() && State() == old(State()) && elections == old(elections) + 1
    {
      hide DiskOf;
      elections := elections + 1;
      lastElection := currentTime;
    }

    method PassTime(elapsed: nat)
      requires TimersOk()
      modifies this`currentTime
      ensures State() == old(State()) && TimersOk() && currentTime == old(currentTime) + elapsed
    {
      hide DiskOf;
      currentTime := currentTime + elapsed;
    }

    /** Advance the clock; a follower or candidate past its deadline starts an election. */
    method Tick(elapsed: nat) returns (started: bool)
      requires Valid()
      modifies this, keyValueStore, storage
      ensures Valid()
      ensures currentTime == old(currentTime) + elapsed
      ensures started <==> old(role) != Leader && old(electionDeadline) <= currentTime
      ensures State() == if started then RaftNode.StartElection(old(State())) else old(State())
      ensures elections == old(elections) + if started then 1 else 0
      ensures elections * minTimeout <= currentTime
    {
      hide Parse, RaftNode.Valid, Healthy, Advances, State;
      PassTime(elapsed);
      if role == Leader || currentTime < electionDeadline {
        return false;
      }
      ElectionCounted(elections, minTimeout, lastElection, electionDeadline);
      StartElection();
      CountElection();
      return true;
    }

    method HandleRequestVote(request: RequestVoteRequest) returns (response: RequestVoteResponse)
      requires Valid()
      modifies this, keyValueStore, storage
      ensures Valid()
      ensures Outcome(State(), Returned(response)) == RaftNode.HandleRequestVote(old(State()), request)
      ensures currentTime == old(currentTime) && elections == old(elections) && lastElection == old(lastElection)
      ensures if response.voteGranted then DeadlineFresh() else Timers() == old(Timers())
    {
      hide TimersOk, Parse, RaftNode.Valid, Healthy, Advances, StateOk;
      HandleRequestVoteLocal(State(), request);
      response := RequestVoteResponse(currentTerm, false);
      if request.candidateId !in members {
        return;
      }
      if request.term < currentTerm {
        return;
      }
      if request.term > currentTerm {
        BecomeFollower(request.term);
      }
      response := response.(term := currentTerm);
      if votedFor.Some? && votedFor.value != request.candidateId {
        return;
      }
      var upToDate := CandidateLogIsUpToDate(request.lastLogIndex, request.lastLogTerm);
      if !upToDate {
        return;
      }
      VoteFor(request.candidateId);
      response := response.(voteGranted := true);
    }

    /** Record the vote durably and start a fresh waiting interval. */
    method VoteFor(candidate: NodeId)
      requires Valid() && candidate in members
      modifies this`votedFor, this`electionTimeout, this`electionDeadline, storage
      ensures Valid() && DeadlineFresh()
      ensures State() == Persist(old(State()).(core := old(TheCore()).(votedFor := Some(candidate))))
    {
      hide TimersOk, Parse, RaftNode.Valid, Healthy, Advances, StateOk;
      VoteLocal(State(), candidate);
      StateValidates(Persist(State().(core := TheCore().(votedFor := Some(candidate)))));
      votedFor := Some(candidate);
      ResetElectionDeadline();
      PersistState();
    }

    method ReceiveVote(voter: NodeId, response: RequestVoteResponse) returns (r: Reply<()>)
      requires Valid()
      modifies this, keyValueStore, storage
      ensures Valid()
      ensures Outcome(State(), r) == RaftNode.ReceiveVote(old(State()), voter, response)
      ensures Timers() == old(Timers())
    {
      hide TimersOk, Parse, RaftNode.Valid, Healthy, Advances, RaftNode.BecomeFollower, RaftNode.TakeOffice;
      ReceiveVoteLocal(State(), voter, response);
      if voter !in members {
        return Threw(InvalidArgument);
      }
      if response.term > currentTerm {
        BecomeFollower(response.term);
        return Returned(());
      }
      if response.term < currentTerm || role != Candidate || !response.voteGranted {
        return Returned(());
      }
      CountVoteLocal(State(), voter);
      votesReceived := votesReceived + {voter};
      var majority := MajoritySize();
      if majority <= |votesReceived| {
        TakeOffice();
      }
      return Returned(());
    }

    /** The checks on incoming entries, with the running previous term. */
    method EntriesAcceptable(entries: seq<LogEntry>, term: nat, prevTerm: nat) returns (ok: bool)
      ensures ok == EntriesOk(entries, term, prevTerm)
    {
      var previous := prevTerm;
      for i := 0 to |entries|
        invariant EntriesOk(entries, term, prevTerm) == EntriesOk(entries[i..], term, previous)
      {
        var entry := entries[i];
        assert entries[i..][1..] == entries[i + 1..];
        if entry.term == 0 || entry.command == "" || entry.term > term || entry.term < previous {
          return false;
        }
        previous := entry.term;
      }
      return true;
    }

    /** Skip what the log holds already; cut at the first conflict, unless it is committed;
        push the rest. The flag is false for a committed conflict. */
    method MergeEntries(prev: nat, entries: seq<LogEntry>) returns (ok: bool)
      requires prev <= |logEntries|
      modifies this`logEntries
      ensures ok <==> !ReplacesCommitted(old(logEntries), commitIndex, prev, entries)
      ensures logEntries == if ok then Merged(old(logEntries), prev, entries) else old(logEntries)
    {
      ghost var before := logEntries;
      var offset := 0;
      while offset < |entries|
        invariant logEntries == before
        invariant 0 <= offset <= |entries|
        invariant offset == 0 || prev + offset <= |logEntries|
        invariant FirstNew(logEntries, prev, entries, offset) == FirstNew(logEntries, prev, entries, 0)
      {
        if prev + offset >= |logEntries| {
          break;
        }
        if logEntries[prev + offset].term != entries[offset].term {
          if prev + offset + 1 <= commitIndex {
            return false;
          }
          logEntries := logEntries[..prev + offset];
          break;
        }
        offset := offset + 1;
      }
      PushBack(entries, offset);
      return true;
    }

    /** Push the entries from `from` on. */
    method PushBack(entries: seq<LogEntry>, from: nat)
      requires from <= |entries|
      modifies this`logEntries
      ensures logEntries == old(logEntries) + entries[from..]
    {
      var offset := from;
      while offset < |entries|
        invariant from <= offset <= |entries|
        invariant logEntries == old(logEntries) + entries[from..offset]
      {
        logEntries := logEntries + [entries[offset]];
        offset := offset + 1;
      }
      assert entries[from..offset] == entries[from..];
    }

    /** Adopt a newer term, or step down within the same one, and remember the leader. */
    method Follow(request: AppendEntriesRequest)
      requires Valid() && currentTerm <= request.term
      modifies this, keyValueStore, storage
      ensures Valid() && State() == FollowLeader(old(State()), request)
      ensures Timers() == old(Timers())
    {
      hide TimersOk, Parse, RaftNode.Valid, Healthy, Advances;
      FollowLeaderLocal(State(), request);
      if request.term > currentTerm {
        BecomeFollower(request.term);
      } else if role != Follower {
        ForgetRole();
      }
      leaderId := Some(request.leaderId);
    }

    /** The part of handle_append_entries after every check has passed but the merge. */
    method Accept(request: AppendEntriesRequest) returns (r: Reply<AppendEntriesResponse>)
      requires Valid() && request.term == currentTerm && role == Follower
      requires PreviousMatches(logEntries, request.prevLogIndex, request.prevLogTerm)
      requires EntriesOk(request.entries, request.term, request.prevLogTerm)
      modifies this, keyValueStore, storage
      ensures Valid() && Timers() == old(Timers())
      ensures request.prevLogIndex <= |old(logEntries)| && old(commitIndex) <= |old(logEntries)|
      ensures if ReplacesCommitted(old(logEntries), old(commitIndex), request.prevLogIndex, request.entries)
              then State() == old(State()) && r == Returned(AppendEntriesResponse(request.term, false, 0))
              else Outcome(State(), r) == AcceptEntries(old(State()), request)
    {
      hide TimersOk, Parse, RaftNode.Valid, Healthy, Advances, StateOk, Merged, ReplacesCommitted, EntriesOk,
           ApplyCommitted;
      ghost var before := State();
      ValidLeaderParts(before);
      PreviousInLog(logEntries, request.prevLogIndex, request.prevLogTerm);
      var merged := MergeEntries(request.prevLogIndex, request.entries);
      if !merged {
        return Returned(AppendEntriesResponse(currentTerm, false, 0));
      }
      AcceptEntriesLocal(before, request);
      StateValidates(AcceptEntries(before, request).state);
      MergedKeepsCommitted(before.core.log, commitIndex, request.prevLogIndex, request.entries);
      r := CommitThrough(before, request);
    }

    /** After the merge: follow the leader's commit index as far as the request verified. */
    method CommitThrough(ghost before: NodeState, request: AppendEntriesRequest)
      returns (r: Reply<AppendEntriesResponse>)
      requires request.prevLogIndex <= |before.core.log| && before.core.commit <= |before.core.log|
      requires !ReplacesCommitted(before.core.log, before.core.commit, request.prevLogIndex, request.entries)
      requires State() ==
               before.(core := before.core.(log := Merged(before.core.log, request.prevLogIndex, request.entries)))
      requires commitIndex <= |logEntries|
      requires StateOk(Persistent(AcceptEntries(before, request).state.core))
      modifies this`commitIndex, this`lastApplied, this`appliedCommands, keyValueStore, storage
      ensures Outcome(State(), r) == AcceptEntries(before, request)
    {
      hide Parse, StateOk, Merged, ReplacesCommitted, ApplyCommitted;
      var matched := request.prevLogIndex + |request.entries|;
      if request.leaderCommit > commitIndex {
        var safe := if request.leaderCommit < matched then request.leaderCommit else matched;
        if safe > commitIndex {
          commitIndex := safe;
          var ok := ApplyCommittedEntries();
          if !ok {
            return Threw(InvalidArgument);
          }
        }
      }
      PersistState();
      return Returned(AppendEntriesResponse(currentTerm, true, matched));
    }

    method HandleAppendEntries(request: AppendEntriesRequest) returns (r: Reply<AppendEntriesResponse>)
      requires Valid()
      modifies this, keyValueStore, storage
      ensures Valid()
      ensures old(commitIndex) <= |old(logEntries)|
      ensures Outcome(State(), r) == RaftNode.HandleAppendEntries(old(State()), request)
      ensures currentTime == old(currentTime) && elections == old(elections) && lastElection == old(lastElection)
      ensures if request.leaderId in members && old(currentTerm) <= request.term
              then DeadlineFresh() else Timers() == old(Timers())
    {
      hide Parse, RaftNode.Valid, Healthy, Advances, FollowLeader, AcceptEntries, PreviousMatches, EntriesOk,
           ReplacesCommitted;
      ValidLeaderParts(State());
      var refusal := Returned(AppendEntriesResponse(currentTerm, false, 0));
      if request.leaderId !in members {
        return refusal;
      }
      if request.term < currentTerm {
        return refusal;
      }
      FollowLeaderLocal(State(), request);
      ghost var followed := FollowLeader(State(), request);
      Follow(request);
      refusal := Returned(AppendEntriesResponse(currentTerm, false, 0));
      ResetElectionDeadline();
      assert State() == followed;
      ValidLeaderParts(State());
      var matches := PreviousLogPositionMatches(request.prevLogIndex, request.prevLogTerm);
      if !matches {
        return refusal;
      }
      var acceptable := EntriesAcceptable(request.entries, request.term, request.prevLogTerm);
      if !acceptable {
        return refusal;
      }
      r := Accept(request);
    }

    method ReceiveAppendEntriesResponse(follower: NodeId, response: AppendEntriesResponse) returns (r: Reply<()>)
      requires Valid()
      modifies this, keyValueStore, storage
      ensures Valid() && Timers() == old(Timers())
      ensures old(commitIndex) <= |old(logEntries)| && (old(role) == Leader ==> ProgressOk(Cfg(), old(TheCore())))
      ensures Outcome(State(), r) == ReceiveAppendResponse(old(State()), follower, response)
    {
      hide TimersOk, Parse, RaftNode.Valid, Healthy, Advances, AdvanceCommit, RaftNode.BecomeFollower, RecordMatch,
           RecordReject, ProgressOk;
      ghost var before := State();
      ReceiveAppendResponseLocal(before, follower, response);
      if follower !in members || follower == nodeId {
        return Threw(InvalidArgument);
      }
      if response.term > currentTerm {
        BecomeFollower(response.term);
        return Returned(());
      }
      if response.term < currentTerm {
        return Returned(());
      }
      if role != Leader {
        return Returned(());
      }
      // A leader's maps always cover its peers: the internal error cannot occur.
      MapsCover(follower);
      if !response.success {
        MoveBack(follower);
        return Returned(());
      }
      if response.matchedIndex > |logEntries| {
        return Threw(InvalidArgument);
      }
      RecordMatchLocal(before, follower, response.matchedIndex);
      MoveForward(follower, response.matchedIndex);
      RecordKeeps(before.core, follower, response.matchedIndex);
      var ok := AdvanceCommitIndex();
      return if ok then Returned(()) else Threw(InvalidArgument);
    }

    lemma MapsCover(follower: NodeId)
      requires ProgressOk(Cfg(), TheCore()) && follower in members && follower != nodeId
      ensures follower in nextIndex && follower in matchIndex && IsPeer(Cfg(), follower)
    {
      assert IsPeer(Cfg(), follower);
    }

    /** One position back after a rejection, but never below one. */
    method MoveBack(follower: NodeId)
      requires follower in nextIndex
      modifies this`nextIndex
      ensures TheCore() == RecordReject(old(TheCore()), follower)
    {
      if nextIndex[follower] > 1 {
        nextIndex := nextIndex[follower := nextIndex[follower] - 1];
      }
    }

    /** Forward after a success; a delayed response moves nothing back. */
    method MoveForward(follower: NodeId, matched: nat)
      requires follower in nextIndex && follower in matchIndex
      modifies this`nextIndex, this`matchIndex
      ensures TheCore() == RecordMatch(old(TheCore()), follower, matched)
    {
      if matched > matchIndex[follower] {
        matchIndex := matchIndex[follower := matched];
      }
      if matched + 1 > nextIndex[follower] {
        nextIndex := nextIndex[follower := matched + 1];
      }
    }

    method AppendCommand(command: string) returns (r: Reply<nat>)
      requires Valid()
      modifies this, keyValueStore, storage
      ensures Valid() && Timers() == old(Timers())
      ensures old(commitIndex) <= |old(logEntries)| && (old(role) == Leader ==> ProgressOk(Cfg(), old(TheCore())))
      ensures Outcome(State(), r) == RaftNode.AppendCommand(old(State()), command)
    {
      hide TimersOk, Parse, RaftNode.Valid, Healthy, Advances, StateOk, ProgressOk,
           RaftNode.AdvanceCommit, AppendActions;
      ghost var before := State();
      ValidLeaderParts(before);
      AppendCommandLocal(before, command);
      if role != Leader {
        return Threw(LogicError);
      }
      if command == "" {
        return Threw(InvalidArgument);
      }
      AppendEntryLocal(before, command);
      logEntries := logEntries + [LogEntry(currentTerm, command)];
      assert State() == before.(core := AppendEntry(before.core, command));
      AdvanceCommitLocal(State());
      var ok := AdvanceCommitIndex();
      if !ok {
        return Threw(InvalidArgument);
      }
      StateValidates(State());
      PersistState();
      var queued := QueueHeartbeatActions();
      return Returned(|logEntries|);
    }

    method TakeRequestVoteActions() returns (actions: seq<RequestVoteAction>)
      requires Valid()
      modifies this`pendingVotes
      ensures Valid() && actions == old(pendingVotes) && pendingVotes == []
      ensures State() == TakeVotes(old(State()))
    {
      hide Parse;
      actions := pendingVotes;
      pendingVotes := [];
    }

    method TakeAppendEntriesActions() returns (actions: seq<AppendEntriesAction>)
      requires Valid()
      modifies this`pendingAppends
      ensures Valid() && actions == old(pendingAppends) && pendingAppends == []
      ensures State() == TakeAppends(old(State()))
    {
      hide Parse;
      actions := pendingAppends;
      pendingAppends := [];
    }
  }

  /** The arguments the constructor accepts before it looks at any state. */
  predicate ArgumentsOk(nodeId: NodeId, members: seq<NodeId>, minTimeout: nat, maxTimeout: nat) {
    0 < minTimeout <= maxTimeout && RosterOk(members) && nodeId in members
  }

  /** Construct a node: check the arguments, restore the state file if there is one, check
      what was recovered, replay the committed prefix, and save. */
  method CreateRaftCore(nodeId: NodeId, members: seq<NodeId>, initialTerm: nat, initialLog: seq<LogEntry>,
                        minTimeout: nat, maxTimeout: nat, storage: FileRaftStorage?)
    returns (r: Reply<RaftCore>)
    modifies storage
    ensures !ArgumentsOk(nodeId, members, minTimeout, maxTimeout) ==> r == Threw(InvalidArgument)
    ensures ArgumentsOk(nodeId, members, minTimeout, maxTimeout) ==>
              if storage != null && old(storage.file).Some? && Parse(old(storage.file).value).Threw?
              then r == Threw(Parse(old(storage.file).value).fault)
              else
                var cfg := Config(nodeId, members, storage != null);
                var booted := Boot(cfg, initialTerm, initialLog, old(DiskOf(storage)));
                && (booted.Threw? ==> r == Threw(InvalidArgument))
                && (booted.Returned? ==> r.Returned? && r.value.State() == booted.value)
    ensures r.Threw? && storage != null ==> storage.file == old(storage.file)
    ensures r.Returned? ==> fresh(r.value) && fresh(r.value.keyValueStore)
    ensures r.Returned? ==> r.value.Valid() && r.value.storage == storage
    ensures r.Returned? ==> r.value.minTimeout == minTimeout && r.value.maxTimeout == maxTimeout
    ensures r.Returned? ==> r.value.currentTime == 0 && r.value.elections == 0 && r.value.DeadlineFresh()
  {
    hide Parse, StateOk, RaftNode.Valid, ApplyCommitted;
    if nodeId == "" || minTimeout == 0 || maxTimeout < minTimeout {
      return Threw(InvalidArgument);
    }
    if |members| % 2 == 0 || !RosterOk(members) || nodeId !in members {
      return Threw(InvalidArgument);
    }
    var p := PersistentState(initialTerm, None, initialLog, 0);
    if storage != null {
      var present := storage.Exists();
      if present {
        var loaded := storage.Load();
        if loaded.Threw? {
          return Threw(loaded.fault);
        }
        p := loaded.value;
      }
    }
    if p.votedFor.Some? && p.votedFor.value !in members {
      return Threw(InvalidArgument);
    }
    if |p.log| < p.commitIndex || !EntriesOk(p.log, p.currentTerm, 0) {
      return Threw(InvalidArgument);
    }
    ghost var disk := old(DiskOf(storage));
    ghost var cfg := Config(nodeId, members, storage != null);
    r := Finish(nodeId, members, p, minTimeout, maxTimeout, storage, disk);
    if r.Returned? {
      BootLocal(cfg, initialTerm, initialLog, disk);
    }
  }

  /** Replay, first deadline, save: the last three lines of the constructor. */
  method Finish(nodeId: NodeId, members: seq<NodeId>, p: PersistentState, minTimeout: nat, maxTimeout: nat,
                storage: FileRaftStorage?, ghost disk: Option<PersistentState>)
    returns (r: Reply<RaftCore>)
    requires 0 < minTimeout <= maxTimeout && p.commitIndex <= |p.log| && EntriesOk(p.log, p.currentTerm, 0)
    requires p.votedFor != Some("") && disk == DiskOf(storage)
    modifies storage
    ensures var core := Core(Follower, p.currentTerm, p.votedFor, None, p.log, p.commitIndex, {}, map[], map[]);
            var applied := ApplyCommitted(core, Machine(0, [], map[]));
            var replayed := NodeState(Config(nodeId, members, storage != null), core, applied.0, [], [], disk);
            && (r.Returned? <==> applied.1)
            && (r.Threw? ==> r.fault == InvalidArgument && (storage != null ==> storage.file == old(storage.file)))
            && (r.Returned? ==> r.value.State() == Persist(replayed))
    ensures r.Returned? ==> fresh(r.value) && fresh(r.value.keyValueStore) && r.value.storage == storage
    ensures r.Returned? ==> r.value.TimersOk() && r.value.DeadlineFresh()
    ensures r.Returned? ==> r.value.minTimeout == minTimeout && r.value.maxTimeout == maxTimeout
    ensures r.Returned? ==> r.value.currentTime == 0 && r.value.elections == 0
  {
    hide Parse, StateOk, ApplyCommitted, Persist, EntriesOk;
    var node := new RaftCore.Unapplied(nodeId, members, p, minTimeout, maxTimeout, storage);
    var ok := node.ApplyCommittedEntries();
    if !ok {
      return Threw(InvalidArgument);
    }
    node.ResetElectionDeadline();
    ValidateMeansOk(PersistentState(p.currentTerm, p.votedFor, p.log, p.commitIndex));
    node.PersistState();
    return Returned(node);
  }

  /** What a valid node saves always validates. */
  lemma StateValidates(s: NodeState)
    requires RaftNode.Valid(s)
    ensures StateOk(Persistent(s.core))
  {
  }

  lemma PersistKeepsCore(s: NodeState)
    ensures Persist(s).core == s.core && Persist(s).cfg == s.cfg && Persist(s).machine == s.machine
    ensures Persist(s).voteQueue == s.voteQueue && Persist(s).appendQueue == s.appendQueue
    ensures !s.cfg.durable ==> Persist(s) == s
  {
  }

  lemma AskedState(s: NodeState, s1: NodeState)
    requires RaftNode.Valid(s) && s1 == s.(core := CampaignCore(s.core, s.cfg.id), appendQueue := [])
    ensures RaftNode.Valid(Persist(s1).(voteQueue := VoteActions(s1.cfg, s1.core)))
    ensures StateOk(Persistent(s1.core)) && Persist(s1).core == s1.core && Persist(s1).cfg == s1.cfg
  {
    hide RaftNode.Valid, StateOk, CampaignCore, VoteActions;
    var s2 := Persist(s1).(voteQueue := VoteActions(s1.cfg, s1.core));
    CampaignLocal(s, s2);
    StateValidates(s2);
  }

  lemma CrownRole(cfg: Config, core: Core)
    ensures Crown(cfg, core).role == Leader
    ensures Crown(cfg, core).term == core.term && Crown(cfg, core).log == core.log
  {
  }

  lemma RecordKeeps(core: Core, follower: NodeId, matched: nat)
    requires follower in core.nextIndex && follower in core.matchIndex
    ensures RecordMatch(core, follower, matched).role == core.role
  {
  }

  lemma ValidLeaderParts(s: NodeState)
    requires RaftNode.Valid(s)
    ensures s.core.commit <= |s.core.log|
    ensures s.core.role == Leader ==> ProgressOk(s.cfg, s.core)
  {
  }

  // ----- facts about the loops -----

  lemma PeersStep(members: seq<NodeId>, id: NodeId, i: nat)
    requires i < |members|
    ensures Peers(members[..i + 1], id) ==
            if members[i] == id then Peers(members[..i], id) else Peers(members[..i], id) + [members[i]]
  {
    assert members[..i + 1][..i] == members[..i];
  }

  lemma ConfirmedStep(matchIndex: map<NodeId, nat>, nodes: seq<NodeId>, last: NodeId, index: nat)
    requires (forall f :: f in nodes ==> f in matchIndex) && last in matchIndex
    ensures forall f :: f in nodes + [last] ==> f in matchIndex
    ensures Confirmed(matchIndex, nodes + [last], index) ==
            Confirmed(matchIndex, nodes, index) + if index <= matchIndex[last] then 1 else 0
  {
    assert (nodes + [last])[..|nodes|] == nodes;
  }

  ghost function VoteActionsTo(request: RequestVoteRequest, peers: seq<NodeId>): seq<RequestVoteAction> {
    seq(|peers|, i requires 0 <= i < |peers| => RequestVoteAction(peers[i], request))
  }

  lemma VoteActionsStep(request: RequestVoteRequest, peers: seq<NodeId>, f: NodeId)
    ensures VoteActionsTo(request, peers + [f]) == VoteActionsTo(request, peers) + [RequestVoteAction(f, request)]
  {
  }

  lemma VoteActionsEnds(cfg: Config, core: Core)
    ensures Peers([], cfg.id) == [] && VoteActionsTo(MakeVoteRequest(cfg, core), []) == []
    ensures VoteActionsTo(MakeVoteRequest(cfg, core), Peers(cfg.members, cfg.id)) == VoteActions(cfg, core)
  {
  }

  ghost predicate Covered(core: Core, peers: seq<NodeId>) {
    forall f :: f in peers ==> f in core.nextIndex && 1 <= core.nextIndex[f] <= |core.log| + 1
  }

  ghost function AppendActionsTo(cfg: Config, core: Core, peers: seq<NodeId>): seq<AppendEntriesAction>
    requires Covered(core, peers)
  {
    seq(|peers|, i requires 0 <= i < |peers| =>
      AppendEntriesAction(peers[i], MakeAppendRequest(cfg, core, peers[i])))
  }

  lemma NoActionsYet(cfg: Config, core: Core)
    ensures Peers([], cfg.id) == [] && Covered(core, []) && AppendActionsTo(cfg, core, []) == []
  {
  }

  lemma AppendActionsStep(cfg: Config, core: Core, peers: seq<NodeId>, f: NodeId)
    requires ProgressOk(cfg, core) && Covered(core, peers) && f in cfg.members && f != cfg.id
    ensures IsPeer(cfg, f) && f in core.nextIndex && 1 <= core.nextIndex[f] <= |core.log| + 1
    ensures Covered(core, peers + [f])
    ensures AppendActionsTo(cfg, core, peers + [f]) ==
            AppendActionsTo(cfg, core, peers) + [AppendEntriesAction(f, MakeAppendRequest(cfg, core, f))]
  {
    assert IsPeer(cfg, f);
  }

  lemma AppendActionsAll(cfg: Config, core: Core)
    requires ProgressOk(cfg, core)
    ensures Covered(core, Peers(cfg.members, cfg.id))
    ensures AppendActionsTo(cfg, core, Peers(cfg.members, cfg.id)) == AppendActions(cfg, core)
  {
    forall f | f in Peers(cfg.members, cfg.id) ensures f in core.nextIndex && 1 <= core.nextIndex[f] <= |core.log| + 1 {
      assert IsPeer(cfg, f);
    }
  }

  /** One more election, at or after a deadline that lay a minimum timeout behind the last. */
  lemma ElectionCounted(elections: nat, minTimeout: nat, lastElection: nat, deadline: nat)
    requires elections * minTimeout <= lastElection && lastElection + minTimeout <= deadline
    ensures (elections + 1) * minTimeout <= deadline
  {
  }
}
