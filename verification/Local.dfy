/** What one node guarantees on its own, whatever messages reach it. */
module RaftLocal {
  import opened RaftTypes
  import opened KeyValue
  import opened RaftNode
  import opened RaftSteps

  // ----- applying -----

  lemma CommandsExtend(log: seq<LogEntry>, n: nat)
    requires n < |log|
    ensures Commands(log[..n + 1]) == Commands(log[..n]) + [log[n].command]
  {
  }

  /** Applying throws exactly when a command it has to apply is a key-value command that
      cannot be read: a caller can tell before it moves the commit index. */
  lemma {:induction false} ApplyThrowsIff(core: Core, m: Machine)
    requires core.commit <= |core.log|
    ensures ApplyCommitted(core, m).1 <==>
              forall i :: m.lastApplied <= i < core.commit ==> Applicable(core.log[i].command)
    decreases core.commit - m.lastApplied
  {
    if m.lastApplied < core.commit {
      var command := core.log[m.lastApplied].command;
      if Applicable(command) {
        ApplyThrowsIff(core, Machine(m.lastApplied + 1, m.journal + [command], Effect(m.store, command)));
      }
    }
  }

  /** The apply loop stops at the commit index, or before a command that throws. */
  lemma {:induction false} ApplyReaches(core: Core, m: Machine)
    requires core.commit <= |core.log| && m.lastApplied <= core.commit && Applied(core.log, m)
    ensures MachineOk(core, ApplyCommitted(core, m).0)
    ensures m.lastApplied <= ApplyCommitted(core, m).0.lastApplied
    ensures m.journal <= ApplyCommitted(core, m).0.journal
    ensures ApplyCommitted(core, m).1 <==> ApplyCommitted(core, m).0.lastApplied == core.commit
    decreases core.commit - m.lastApplied
  {
    if m.lastApplied < core.commit {
      var command := core.log[m.lastApplied].command;
      if Applicable(command) {
        CommandsExtend(core.log, m.lastApplied);
        ReplayExtend(m.journal, command);
        ApplyReaches(core, Machine(m.lastApplied + 1, m.journal + [command], Effect(m.store, command)));
      }
    }
  }

  /** Nothing throws when the log holds applicable commands only. */
  lemma ApplySucceeds(core: Core, m: Machine)
    requires core.commit <= |core.log| && m.lastApplied <= core.commit && Applied(core.log, m)
    requires GoodCommands(core.log)
    ensures ApplyCommitted(core, m).1
  {
    ApplyReaches(core, m);
  }

  /** What was applied stays applied when the log keeps its first entries. */
  lemma AppliedKept(log: seq<LogEntry>, log': seq<LogEntry>, m: Machine, n: nat)
    requires Applied(log, m) && m.lastApplied <= n <= |log| && n <= |log'| && log'[..n] == log[..n]
    ensures Applied(log', m)
  {
    assert log'[..m.lastApplied] == log'[..n][..m.lastApplied] == log[..m.lastApplied];
  }

  // ----- merging -----

  lemma MergedKeepsCommitted(log: seq<LogEntry>, commit: nat, prev: nat, entries: seq<LogEntry>)
    requires commit <= |log| && prev <= |log| && !ReplacesCommitted(log, commit, prev, entries)
    ensures commit <= |Merged(log, prev, entries)|
    ensures Merged(log, prev, entries)[..commit] == log[..commit]
  {
  }

  lemma JoinedLogOk(head: seq<LogEntry>, tail: seq<LogEntry>, term: nat)
    requires LogOk(head, term) && LogOk(tail, term)
    requires head != [] && tail != [] ==> head[|head| - 1].term <= tail[0].term
    ensures LogOk(head + tail, term)
  {
    var log := head + tail;
    forall i, j | 0 <= i < j < |log| ensures log[i].term <= log[j].term {
      if i < |head| <= j {
        assert head[i].term <= head[|head| - 1].term <= tail[0].term <= tail[j - |head|].term;
      }
    }
  }

  lemma SliceLogOk(log: seq<LogEntry>, term: nat, i: nat, j: nat)
    requires LogOk(log, term) && i <= j <= |log|
    ensures LogOk(log[i..j], term)
  {
  }

  /** The entry before the first new one has no higher term than that one. */
  lemma JointOrdered(log: seq<LogEntry>, prev: nat, prevTerm: nat, entries: seq<LogEntry>, term: nat, k: nat)
    requires PreviousMatches(log, prev, prevTerm)
    requires LogOk(entries, term) && (entries != [] ==> prevTerm <= entries[0].term)
    requires k == FirstNew(log, prev, entries, 0) && k < |entries| && 0 < prev + k <= |log|
    ensures log[prev + k - 1].term <= entries[k].term
  {
    if 0 < k {
      assert log[prev + (k - 1)].term == entries[k - 1].term;
    }
  }

  /** Accepted entries keep the log well formed: the checks cover the joint as well. */
  lemma MergedLogOk(log: seq<LogEntry>, term: nat, prev: nat, prevTerm: nat, entries: seq<LogEntry>)
    requires LogOk(log, term)
    requires PreviousMatches(log, prev, prevTerm) && EntriesOk(entries, term, prevTerm)
    ensures LogOk(Merged(log, prev, entries), term)
  {
    hide LogOk, EntriesOk;
    EntriesOkMeaning(entries, term, prevTerm);
    var k := FirstNew(log, prev, entries, 0);
    if k < |entries| {
      var head, tail := log[..prev + k], entries[k..];
      SliceLogOk(log, term, 0, prev + k);
      SliceLogOk(entries, term, k, |entries|);
      assert head == log[0..prev + k] && tail == entries[k..|entries|];
      if 0 < prev + k { JointOrdered(log, prev, prevTerm, entries, term, k); }
      JoinedLogOk(head, tail, term);
    }
  }

  lemma MergedCommands(log: seq<LogEntry>, prev: nat, entries: seq<LogEntry>)
    requires prev <= |log| && GoodCommands(log) && GoodCommands(entries)
    ensures GoodCommands(Merged(log, prev, entries))
  {
  }

  lemma {:induction false} PeersCount(members: seq<NodeId>, id: NodeId)
    requires Distinct(members)
    ensures |Peers(members, id)| == |members| - if id in members then 1 else 0
  {
    if members != [] {
      var front, last := members[..|members| - 1], members[|members| - 1];
      assert members == front + [last];
      PeersCount(front, id);
    }
  }

  // ----- every call keeps the invariants -----

  /** How a call may change a node: identity stays, and the committed prefix, the commit
      index and the journal only grow. */
  ghost predicate Advances(s: NodeState, s': NodeState) {
    && s'.cfg == s.cfg
    && s.core.term <= s'.core.term
    && s.core.commit <= s'.core.commit
    && s.core.commit <= |s.core.log| && s.core.commit <= |s'.core.log|
    && s'.core.log[..s.core.commit] == s.core.log[..s.core.commit]
    && s.machine.journal <= s'.machine.journal
  }

  lemma TermRaised(log: seq<LogEntry>, t: nat, t': nat)
    requires LogOk(log, t) && t <= t'
    ensures LogOk(log, t')
  {
  }

  lemma BecomeFollowerLocal(s: NodeState, term: nat)
    requires Valid(s) && s.core.term < term
    ensures Valid(BecomeFollower(s, term)) && Advances(s, BecomeFollower(s, term))
    ensures Healthy(s) ==> Healthy(BecomeFollower(s, term))
  {
    TermRaised(s.core.log, s.core.term, term);
  }

  lemma CrownProgress(cfg: Config, core: Core)
    ensures ProgressOk(cfg, Crown(cfg, core))
  {
  }

  lemma TakeOfficeLocal(s: NodeState)
    requires Valid(s) && 0 < s.core.term
    ensures Valid(TakeOffice(s)) && Advances(s, TakeOffice(s))
    ensures Healthy(s) ==> Healthy(TakeOffice(s))
  {
    CrownProgress(s.cfg, s.core);
  }

  lemma CampaignLocal(s: NodeState, s': NodeState)
    requires Valid(s)
    requires s' == Persist(s.(core := CampaignCore(s.core, s.cfg.id), appendQueue := [])).(voteQueue := s'.voteQueue)
    ensures Valid(s') && Advances(s, s') && (Healthy(s) ==> Healthy(s'))
  {
    TermRaised(s.core.log, s.core.term, s.core.term + 1);
  }

  lemma StartElectionLocal(s: NodeState)
    requires Valid(s)
    ensures Valid(StartElection(s)) && Advances(s, StartElection(s))
    ensures Healthy(s) ==> Healthy(StartElection(s))
  {
    hide Valid, Healthy, Advances, TakeOffice, VoteActions;
    var core := CampaignCore(s.core, s.cfg.id);
    var s2 := Persist(s.(core := core, appendQueue := [])).(voteQueue := VoteActions(s.cfg, core));
    CampaignLocal(s, s2);
    if Majority(s.cfg.members) <= 1 {
      TakeOfficeLocal(s2);
      AdvancesTrans(s, s2, TakeOffice(s2));
    }
  }

  lemma VoteLocal(s: NodeState, candidate: NodeId)
    requires Valid(s) && candidate in s.cfg.members
    ensures Valid(Persist(s.(core := s.core.(votedFor := Some(candidate)))))
    ensures Advances(s, Persist(s.(core := s.core.(votedFor := Some(candidate)))))
    ensures Healthy(s) ==> Healthy(Persist(s.(core := s.core.(votedFor := Some(candidate)))))
  {
  }

  lemma HandleRequestVoteLocal(s: NodeState, request: RequestVoteRequest)
    requires Valid(s)
    ensures Valid(HandleRequestVote(s, request).state) && Advances(s, HandleRequestVote(s, request).state)
    ensures Healthy(s) ==> Healthy(HandleRequestVote(s, request).state)
  {
    hide Valid, Healthy, Persist, UpToDate;
    AdvancesSelf(s);
    if request.candidateId in s.cfg.members && s.core.term <= request.term {
      if s.core.term < request.term { BecomeFollowerLocal(s, request.term); }
      var s1 := if s.core.term < request.term then BecomeFollower(s, request.term) else s;
      VoteLocal(s1, request.candidateId);
      AdvancesTrans(s, s1, Persist(s1.(core := s1.core.(votedFor := Some(request.candidateId)))));
    }
  }

  lemma AdvancesSelf(s: NodeState)
    requires Valid(s)
    ensures Advances(s, s)
  {
  }

  lemma CountVoteLocal(s: NodeState, voter: NodeId)
    requires Valid(s) && voter in s.cfg.members
    ensures Valid(s.(core := s.core.(votes := s.core.votes + {voter})))
    ensures Advances(s, s.(core := s.core.(votes := s.core.votes + {voter})))
    ensures Healthy(s) ==> Healthy(s.(core := s.core.(votes := s.core.votes + {voter})))
    ensures s.core.role == Candidate ==> 0 < s.core.term
  {
  }

  lemma ReceiveVoteLocal(s: NodeState, voter: NodeId, response: RequestVoteResponse)
    requires Valid(s)
    ensures Valid(ReceiveVote(s, voter, response).state) && Advances(s, ReceiveVote(s, voter, response).state)
    ensures Healthy(s) ==> Healthy(ReceiveVote(s, voter, response).state)
  {
    hide Valid, Healthy, Advances, TakeOffice;
    AdvancesSelf(s);
    if s.core.term < response.term {
      BecomeFollowerLocal(s, response.term);
    } else if voter in s.cfg.members && s.core.role == Candidate {
      var s1 := s.(core := s.core.(votes := s.core.votes + {voter}));
      CountVoteLocal(s, voter);
      TakeOfficeLocal(s1);
      AdvancesTrans(s, s1, TakeOffice(s1));
    }
  }

  /** Applying after the commit index has moved over `core.log`. */
  lemma CommitLocal(s: NodeState, core: Core)
    requires Valid(s) && CoreOk(s.cfg, core)
    requires s.core.commit <= core.commit && s.core.commit <= |core.log|
    requires core.log[..s.core.commit] == s.core.log[..s.core.commit]
    ensures MachineOk(core, ApplyCommitted(core, s.machine).0)
    ensures s.machine.journal <= ApplyCommitted(core, s.machine).0.journal
    ensures ApplyCommitted(core, s.machine).1 <==> ApplyCommitted(core, s.machine).0.lastApplied == core.commit
    ensures GoodCommands(core.log) ==> ApplyCommitted(core, s.machine).1
    ensures core.commit == s.core.commit ==> MachineOk(core, s.machine)
  {
    AppliedKept(s.core.log, core.log, s.machine, s.core.commit);
    ApplyReaches(core, s.machine);
    if core.commit == s.core.commit && s.machine.lastApplied < core.commit {
      assert core.log[..core.commit][s.machine.lastApplied] == s.core.log[..core.commit][s.machine.lastApplied];
    }
  }

  /** The core that merging and committing leave. */
  ghost function AcceptedCore(core: Core, request: AppendEntriesRequest): Core
    requires request.prevLogIndex <= |core.log|
  {
    core.(log := Merged(core.log, request.prevLogIndex, request.entries),
          commit := Max(core.commit, Min(request.leaderCommit, request.prevLogIndex + |request.entries|)))
  }

  lemma AcceptedCoreLocal(cfg: Config, core: Core, request: AppendEntriesRequest)
    requires CoreOk(cfg, core) && request.term == core.term && core.role == Follower
    requires PreviousMatches(core.log, request.prevLogIndex, request.prevLogTerm)
    requires EntriesOk(request.entries, request.term, request.prevLogTerm)
    requires !ReplacesCommitted(core.log, core.commit, request.prevLogIndex, request.entries)
    ensures request.prevLogIndex <= |core.log|
    ensures CoreOk(cfg, AcceptedCore(core, request))
    ensures core.commit <= |AcceptedCore(core, request).log|
    ensures AcceptedCore(core, request).log[..core.commit] == core.log[..core.commit]
    ensures GoodCommands(core.log) && GoodCommands(request.entries) ==> GoodCommands(AcceptedCore(core, request).log)
  {
    hide Merged;
    MergedLogOk(core.log, core.term, request.prevLogIndex, request.prevLogTerm, request.entries);
    MergedKeepsCommitted(core.log, core.commit, request.prevLogIndex, request.entries);
    if GoodCommands(core.log) && GoodCommands(request.entries) {
      MergedCommands(core.log, request.prevLogIndex, request.entries);
    }
  }

  lemma AcceptEntriesLocal(s: NodeState, request: AppendEntriesRequest)
    requires Valid(s) && request.term == s.core.term && s.core.role == Follower
    requires PreviousMatches(s.core.log, request.prevLogIndex, request.prevLogTerm)
    requires EntriesOk(request.entries, request.term, request.prevLogTerm)
    requires !ReplacesCommitted(s.core.log, s.core.commit, request.prevLogIndex, request.entries)
    ensures request.prevLogIndex <= |s.core.log|
    ensures Valid(AcceptEntries(s, request).state) && Advances(s, AcceptEntries(s, request).state)
    ensures Healthy(s) && GoodCommands(request.entries) ==>
              Healthy(AcceptEntries(s, request).state) && AcceptEntries(s, request).reply.Returned?
  {
    hide Merged, EntriesOk, ReplacesCommitted, LogOk;
    AcceptedCoreLocal(s.cfg, s.core, request);
    CommitLocal(s, AcceptedCore(s.core, request));
  }

  lemma FollowLeaderLocal(s: NodeState, request: AppendEntriesRequest)
    requires Valid(s) && s.core.term <= request.term
    ensures Valid(FollowLeader(s, request)) && Advances(s, FollowLeader(s, request))
    ensures Healthy(s) ==> Healthy(FollowLeader(s, request))
    ensures FollowLeader(s, request).core.term == request.term && FollowLeader(s, request).core.role == Follower
  {
    if s.core.term < request.term { BecomeFollowerLocal(s, request.term); }
  }

  lemma AdvancesTrans(a: NodeState, b: NodeState, c: NodeState)
    requires Advances(a, b) && Advances(b, c)
    ensures Advances(a, c)
  {
    assert c.core.log[..a.core.commit] == c.core.log[..b.core.commit][..a.core.commit];
    assert b.core.log[..a.core.commit] == b.core.log[..b.core.commit][..a.core.commit];
  }

  lemma HandleAppendEntriesLocal(s: NodeState, request: AppendEntriesRequest)
    requires Valid(s)
    ensures Valid(HandleAppendEntries(s, request).state)
    ensures Advances(s, HandleAppendEntries(s, request).state)
    ensures Healthy(s) && GoodCommands(request.entries) ==>
              Healthy(HandleAppendEntries(s, request).state) && HandleAppendEntries(s, request).reply.Returned?
  {
    hide AcceptEntries, FollowLeader, ReplacesCommitted, PreviousMatches;
    if request.leaderId in s.cfg.members && s.core.term <= request.term {
      FollowLeaderLocal(s, request);
      var s1 := FollowLeader(s, request);
      if && PreviousMatches(s1.core.log, request.prevLogIndex, request.prevLogTerm)
         && EntriesOk(request.entries, request.term, request.prevLogTerm)
         && !ReplacesCommitted(s1.core.log, s1.core.commit, request.prevLogIndex, request.entries)
      {
        PreviousInLog(s1.core.log, request.prevLogIndex, request.prevLogTerm);
        AcceptEntriesLocal(s1, request);
        AdvancesTrans(s, s1, AcceptEntries(s1, request).state);
      }
    }
  }

  lemma PreviousInLog(log: seq<LogEntry>, prev: nat, prevTerm: nat)
    requires PreviousMatches(log, prev, prevTerm)
    ensures prev <= |log|
  {
  }

  lemma AdvanceCommitLocal(s: NodeState)
    requires Valid(s) && s.core.role == Leader
    ensures Valid(AdvanceCommit(s).0) && Advances(s, AdvanceCommit(s).0)
    ensures AdvanceCommit(s).0.core.role == Leader && ProgressOk(s.cfg, AdvanceCommit(s).0.core)
    ensures Healthy(s) ==> Healthy(AdvanceCommit(s).0) && AdvanceCommit(s).1
    ensures GoodCommands(s.core.log) && s.machine.lastApplied == s.core.commit ==>
              && AdvanceCommit(s).1
              && AdvanceCommit(s).0.machine.lastApplied == AdvanceCommit(s).0.core.commit
    ensures AdvanceCommit(s).0.core == s.core.(commit := AdvanceCommit(s).0.core.commit)
    ensures AdvanceCommit(s).0.voteQueue == s.voteQueue && AdvanceCommit(s).0.appendQueue == s.appendQueue
  {
    hide LogOk, Applied, ApplyCommitted, Committable;
    var n := CommitScan(s.cfg, s.core, |s.core.log|);
    if n == s.core.commit {
      AdvancesSelf(s);
    } else {
      CommitIndexLocal(s, n);
    }
  }

  /** Raising the commit index of an unchanged log. */
  lemma CommitIndexLocal(s: NodeState, n: nat)
    requires Valid(s) && s.core.commit <= n <= |s.core.log|
    ensures CoreOk(s.cfg, s.core.(commit := n))
    ensures MachineOk(s.core.(commit := n), ApplyCommitted(s.core.(commit := n), s.machine).0)
    ensures s.machine.journal <= ApplyCommitted(s.core.(commit := n), s.machine).0.journal
    ensures ApplyCommitted(s.core.(commit := n), s.machine).1 <==>
            ApplyCommitted(s.core.(commit := n), s.machine).0.lastApplied == n
    ensures GoodCommands(s.core.log) ==> ApplyCommitted(s.core.(commit := n), s.machine).1
  {
    hide LogOk, Applied, ApplyCommitted;
    CommitLocal(s, s.core.(commit := n));
  }

  lemma RecordMatchLocal(s: NodeState, follower: NodeId, matched: nat)
    requires Valid(s) && s.core.role == Leader && IsPeer(s.cfg, follower) && matched <= |s.core.log|
    ensures follower in s.core.nextIndex && follower in s.core.matchIndex
    ensures Valid(s.(core := RecordMatch(s.core, follower, matched)))
    ensures Advances(s, s.(core := RecordMatch(s.core, follower, matched)))
    ensures Healthy(s) ==> Healthy(s.(core := RecordMatch(s.core, follower, matched)))
  {
    hide LogOk, Applied, GoodCommands;
  }

  lemma RecordRejectLocal(s: NodeState, follower: NodeId)
    requires Valid(s) && s.core.role == Leader && IsPeer(s.cfg, follower)
    ensures follower in s.core.nextIndex
    ensures Valid(s.(core := RecordReject(s.core, follower)))
    ensures Advances(s, s.(core := RecordReject(s.core, follower)))
    ensures Healthy(s) ==> Healthy(s.(core := RecordReject(s.core, follower)))
  {
    hide LogOk, Applied, GoodCommands;
  }

  lemma ReceiveAppendResponseLocal(s: NodeState, follower: NodeId, response: AppendEntriesResponse)
    requires Valid(s)
    ensures s.core.commit <= |s.core.log| && (s.core.role == Leader ==> ProgressOk(s.cfg, s.core))
    ensures Valid(ReceiveAppendResponse(s, follower, response).state)
    ensures Advances(s, ReceiveAppendResponse(s, follower, response).state)
    ensures Healthy(s) ==> Healthy(ReceiveAppendResponse(s, follower, response).state)
  {
    hide AdvanceCommit, LogOk, Applied, GoodCommands, Healthy, Advances, RecordReject, MachineOk;
    AdvancesSelf(s);
    if IsPeer(s.cfg, follower) {
      if s.core.term < response.term {
        BecomeFollowerLocal(s, response.term);
      } else if s.core.role == Leader {
        RecordRejectLocal(s, follower);
        if response.matchedIndex <= |s.core.log| {
          var s1 := s.(core := RecordMatch(s.core, follower, response.matchedIndex));
          RecordMatchLocal(s, follower, response.matchedIndex);
          AdvanceCommitLocal(s1);
          AdvancesTrans(s, s1, AdvanceCommit(s1).0);
        }
      }
    }
  }

  lemma AppendEntryLocal(s: NodeState, command: string)
    requires Valid(s) && s.core.role == Leader && command != ""
    ensures Valid(s.(core := AppendEntry(s.core, command)))
    ensures Advances(s, s.(core := AppendEntry(s.core, command)))
    ensures Healthy(s) && Applicable(command) ==> GoodCommands(AppendEntry(s.core, command).log)
  {
    AppliedKept(s.core.log, AppendEntry(s.core, command).log, s.machine, s.core.commit);
  }

  lemma AppendCommandLocal(s: NodeState, command: string)
    requires Valid(s)
    ensures Valid(AppendCommand(s, command).state)
    ensures Advances(s, AppendCommand(s, command).state)
    ensures Healthy(s) && Applicable(command) ==>
              && Healthy(AppendCommand(s, command).state)
              && (AppendCommand(s, command).reply.Returned? <==> s.core.role == Leader && command != "")
  {
    hide AdvanceCommit, AppendActions, LogOk, Applied, ProgressOk;
    if s.core.role == Leader && command != "" {
      var s1 := s.(core := AppendEntry(s.core, command));
      AppendEntryLocal(s, command);
      AdvanceCommitLocal(s1);
      AdvancesTrans(s, s1, AdvanceCommit(s1).0);
    }
  }

  // ----- construction and restart -----

  /** A constructed node is valid, in step with its disk, and has applied its whole
      committed prefix; construction fails only on a bad roster, state or command. */
  lemma BootLocal(cfg: Config, initialTerm: nat, initialLog: seq<LogEntry>, disk: Option<PersistentState>)
    requires Boot(cfg, initialTerm, initialLog, disk).Returned?
    ensures Valid(Boot(cfg, initialTerm, initialLog, disk).value)
    ensures GoodCommands(Boot(cfg, initialTerm, initialLog, disk).value.core.log) ==>
              Healthy(Boot(cfg, initialTerm, initialLog, disk).value)
  {
    var p := if cfg.durable && disk.Some? then disk.value else PersistentState(initialTerm, None, initialLog, 0);
    EntriesOkMeaning(p.log, p.currentTerm, 0);
    var core := Core(Follower, p.currentTerm, p.votedFor, None, p.log, p.commitIndex, {}, map[], map[]);
    ApplyReaches(core, Machine(0, [], map[]));
  }

  /** Equal logs and commit indexes mean equal journals and equal maps. */
  lemma MachineDetermined(core: Core, m: Machine, core': Core, m': Machine)
    requires Applied(core.log, m) && Applied(core'.log, m')
    requires m.lastApplied == m'.lastApplied
    requires core.log[..m.lastApplied] == core'.log[..m.lastApplied]
    ensures m == m'
  {
  }

  /** Durable before visible: whatever the node answers or queues, restarting it from its disk
      right then gives a follower with the same term, vote, log, commit index, journal and map. */
  lemma RestartRestores(s: NodeState)
    requires Healthy(s) && s.cfg.durable
    ensures Boot(s.cfg, 0, [], s.disk).Returned?
    ensures var s' := Boot(s.cfg, 0, [], s.disk).value;
            && s'.core == StepDown(s.core).(leaderId := None)
            && s'.machine == s.machine && s'.disk == s.disk && s'.cfg == s.cfg
            && s'.voteQueue == [] && s'.appendQueue == []
            && Healthy(s')
  {
    EntriesOkMeaning(s.core.log, s.core.term, 0);
    var core := Core(Follower, s.core.term, s.core.votedFor, None, s.core.log, s.core.commit, {}, map[], map[]);
    assert core == StepDown(s.core).(leaderId := None);
    ApplyReaches(core, Machine(0, [], map[]));
    ApplySucceeds(core, Machine(0, [], map[]));
    MachineDetermined(s.core, s.machine, core, ApplyCommitted(core, Machine(0, [], map[])).0);
    BootLocal(s.cfg, 0, [], s.disk);
  }
}
