/** A leader commits everything it may: at no moment of any run is an entry of its own term,
    above its commit index, confirmed by a majority (src/raft_core.cpp:458-507). */
module RaftCommitment {
  import opened RaftTypes
  import opened RaftNode
  import opened RaftProtocol
  import opened RaftSteps
  import opened RaftLocal
  import opened RaftCluster
  import opened RaftTheorems
  import opened RaftReplication

  ghost predicate Exhausted(cfg: Config, core: Core)
    requires ProgressOk(cfg, core)
  {
    forall k: nat :: core.commit < k <= |core.log| ==> !Committable(cfg, core, k)
  }

  /** A leader has committed all it can; a candidate has no entry of its own term yet. */
  ghost predicate Prompt(s: NodeState)
    requires Valid(s)
  {
    && (s.core.role == Leader ==> ProgressOk(s.cfg, s.core) && Exhausted(s.cfg, s.core))
    && (s.core.role == Candidate ==> 0 < s.core.term && TermsAtMost(s.core.log, s.core.term - 1))
  }

  // ----- one call -----

  /** A log without entries of the current term has nothing to commit directly. */
  lemma OldEntriesExhausted(cfg: Config, core: Core)
    requires ProgressOk(cfg, core) && 0 < core.term && TermsAtMost(core.log, core.term - 1)
    ensures Exhausted(cfg, core)
  {
  }

  lemma AdvanceExhausts(s: NodeState)
    requires Valid(s) && s.core.role == Leader
    ensures ProgressOk(s.cfg, s.core) && ProgressOk(s.cfg, AdvanceCommit(s).0.core)
    ensures Exhausted(s.cfg, AdvanceCommit(s).0.core)
  {
    hide LogOk, Applied, ApplyCommitted;
    AdvanceCommitLocal(s);
    var n, core' := CommitScan(s.cfg, s.core, |s.core.log|), AdvanceCommit(s).0.core;
    forall k: nat | core'.commit < k <= |core'.log| ensures !Committable(s.cfg, core', k) {
      assert !Committable(s.cfg, s.core, k);
    }
  }

  lemma OfficePrompt(s: NodeState)
    requires Valid(s) && 0 < s.core.term && TermsAtMost(s.core.log, s.core.term - 1)
    requires Valid(TakeOffice(s))
    ensures Prompt(TakeOffice(s))
  {
    hide Valid, AppendActions, ProgressOk;
    CrownProgress(s.cfg, s.core);
    OldEntriesExhausted(s.cfg, Crown(s.cfg, s.core));
  }

  lemma CampaignPrompt(s: NodeState)
    requires Valid(s) && Valid(StartElection(s))
    ensures Prompt(StartElection(s))
  {
    hide TakeOffice, VoteActions, Applied;
    var core := CampaignCore(s.core, s.cfg.id);
    var s2 := Persist(s.(core := core, appendQueue := [])).(voteQueue := VoteActions(s.cfg, core));
    CampaignLocal(s, s2);
    if Majority(s.cfg.members) <= 1 { OfficePrompt(s2); }
  }

  lemma VotePrompt(s: NodeState, voter: NodeId, response: RequestVoteResponse)
    requires Valid(s) && Prompt(s) && Valid(ReceiveVote(s, voter, response).state)
    ensures Prompt(ReceiveVote(s, voter, response).state)
  {
    hide Valid, TakeOffice, Committable;
    if voter in s.cfg.members && s.core.role == Candidate {
      CountVoteLocal(s, voter);
      var s1 := s.(core := s.core.(votes := s.core.votes + {voter}));
      if ReceiveVote(s, voter, response).state == TakeOffice(s1) { OfficePrompt(s1); }
    }
  }

  lemma AskedPrompt(s: NodeState, request: RequestVoteRequest)
    requires Valid(s) && Prompt(s) && Valid(HandleRequestVote(s, request).state)
    ensures Prompt(HandleRequestVote(s, request).state)
  {
    hide Valid, UpToDate;
    var s' := HandleRequestVote(s, request).state;
    if s'.core.role == Leader { SameCounts(s.cfg, s.core, s'.core); }
  }

  /** Whether an index can be committed depends on log, term and match_index only. */
  lemma SameCounts(cfg: Config, core: Core, core': Core)
    requires ProgressOk(cfg, core) && Exhausted(cfg, core)
    requires core'.log == core.log && core'.term == core.term && core'.commit == core.commit
    requires core'.matchIndex == core.matchIndex && ProgressOk(cfg, core')
    ensures Exhausted(cfg, core')
  {
    forall k: nat | core'.commit < k <= |core'.log| ensures !Committable(cfg, core', k) {
      assert !Committable(cfg, core, k);
    }
  }

  lemma RequestPrompt(s: NodeState, request: AppendEntriesRequest)
    requires Valid(s) && Prompt(s)
    requires s.core.commit <= |s.core.log| && Valid(HandleAppendEntries(s, request).state)
    ensures Prompt(HandleAppendEntries(s, request).state)
  {
    hide Valid, Merged, EntriesOk, ReplacesCommitted, ApplyCommitted, PreviousMatches;
    if PreviousMatches(s.core.log, request.prevLogIndex, request.prevLogTerm) {
      PreviousInLog(s.core.log, request.prevLogIndex, request.prevLogTerm);
    }
  }

  lemma AnswerPrompt(s: NodeState, follower: NodeId, response: AppendEntriesResponse)
    requires Valid(s) && Prompt(s)
    requires s.core.commit <= |s.core.log| && (s.core.role == Leader ==> ProgressOk(s.cfg, s.core))
    requires Valid(ReceiveAppendResponse(s, follower, response).state)
    ensures Prompt(ReceiveAppendResponse(s, follower, response).state)
  {
    hide AdvanceCommit, LogOk, Applied, Committable;
    if s.core.role == Leader && IsPeer(s.cfg, follower) {
      RecordRejectLocal(s, follower);
      SameCounts(s.cfg, s.core, RecordReject(s.core, follower));
      if response.matchedIndex <= |s.core.log| {
        var s1 := s.(core := RecordMatch(s.core, follower, response.matchedIndex));
        RecordMatchLocal(s, follower, response.matchedIndex);
        AdvanceCommitLocal(s1);
        AdvanceExhausts(s1);
      }
    }
  }

  lemma CommandPrompt(s: NodeState, command: string)
    requires Valid(s) && Prompt(s)
    requires s.core.commit <= |s.core.log| && (s.core.role == Leader ==> ProgressOk(s.cfg, s.core))
    requires Valid(AppendCommand(s, command).state)
    ensures Prompt(AppendCommand(s, command).state)
  {
    hide AdvanceCommit, AppendActions, LogOk, Applied, Committable;
    if s.core.role == Leader && command != "" {
      var s1 := s.(core := AppendEntry(s.core, command));
      AppendEntryLocal(s, command);
      AdvanceCommitLocal(s1);
      AdvanceExhausts(s1);
    }
  }

  lemma ReactPrompt(s: NodeState, step: Step)
    requires Valid(s) && Prompt(s)
    requires ComesBack(step) ==> Healthy(s) && s.cfg.durable
    ensures Valid(React(s, step).state) && Prompt(React(s, step).state)
  {
    hide Valid, Healthy, Prompt, StartElection, HandleRequestVote, HandleAppendEntries, ReceiveVote, AppendCommand,
         ReceiveAppendResponse, AppendActions, Boot;
    ReactValid(s, step);
    ValidProgress(s);
    match step
    case Campaign(_) => CampaignPrompt(s);
    case Deliver(VoteRequest(from, to, ask)) => AskedPrompt(s, ask);
    case Deliver(VoteReply(from, to, ask, vote)) => VotePrompt(s, from, vote);
    case Deliver(AppendRequest(from, to, append)) => RequestPrompt(s, append);
    case Deliver(AppendReply(from, to, append, answer)) => AnswerPrompt(s, from, answer);
    case Client(_, command) => CommandPrompt(s, command);
    case Heartbeat(_) => SameCorePrompt(s, QueueHeartbeats(s).state);
    case VotesTaken(_) => SameCorePrompt(s, TakeVotes(s));
    case AppendsTaken(_) => SameCorePrompt(s, TakeAppends(s));
    case Restart(_) =>
      RestartRestores(s);
      FollowerPrompt(Boot(s.cfg, 0, [], s.disk).value);
    case Interrupted(m) =>
      InterruptedRestores(s, m);
      FollowerPrompt(Boot(s.cfg, 0, [], Struck(s, m).disk).value);
  }

  lemma SameCorePrompt(s: NodeState, s': NodeState)
    requires Valid(s) && Prompt(s) && Valid(s') && s'.core == s.core && s'.cfg == s.cfg
    ensures Prompt(s')
  {
    hide Valid, Committable;
  }

  lemma FollowerPrompt(s: NodeState)
    requires Valid(s) && s.core.role == Follower
    ensures Prompt(s)
  {
    hide Valid;
  }

  // ----- all nodes, over a run -----

  ghost predicate AllPrompt(c: Cluster)
    requires AllValid(c)
  {
    forall n {:trigger Valid(c.nodes[n])} :: n in c.nodes ==> Valid(c.nodes[n]) && Prompt(c.nodes[n])
  }

  lemma StepPrompt(c: Cluster, step: Step)
    requires AllValid(c) && AllPrompt(c)
    requires Enabled(c, step) && ComesBack(step) ==> Healthy(c.nodes[Actor(step)])
    ensures AllPrompt(Next(c, step))
  {
    hide Valid, Healthy, Prompt, React;
    if Enabled(c, step) {
      assert Valid(c.nodes[Actor(step)]);
      ReactPrompt(c.nodes[Actor(step)], step);
      var c' := Next(c, step);
      forall n | n in c'.nodes ensures Valid(c'.nodes[n]) && Prompt(c'.nodes[n]) {
        if n != Actor(step) { assert Valid(c.nodes[n]); }
      }
    }
  }

  lemma {:induction false} RunPrompt(members: seq<NodeId>, durable: set<NodeId>, run: seq<Step>)
    requires RosterOk(members)
    ensures AllPrompt(After(members, durable, run))
  {
    hide Healthy, Next, ClusterInv;
    if run == [] {
      StartPrompt(members, durable);
    } else {
      var shorter, step := run[..|run| - 1], run[|run| - 1];
      RunPrompt(members, durable, shorter);
      var before := After(members, durable, shorter);
      var h := RunInv(members, durable, shorter);
      if Enabled(before, step) { NodeHealthy(before, members, durable, h, Actor(step)); }
      StepPrompt(before, step);
    }
  }

  lemma StartPrompt(members: seq<NodeId>, durable: set<NodeId>)
    requires RosterOk(members)
    ensures AllPrompt(Genesis(members, durable))
  {
    hide Valid;
    var c := Genesis(members, durable);
    forall n | n in c.nodes ensures Valid(c.nodes[n]) && Prompt(c.nodes[n]) {
      assert Valid(c.nodes[n]);
      FollowerPrompt(c.nodes[n]);
    }
  }

  /** At every moment of every run, every entry of a leader's own term above its commit index
      is missing from a majority, as far as the leader has been told. */
  lemma NothingLeftToCommit(members: seq<NodeId>, durable: set<NodeId>, run: seq<Step>, l: NodeId, term: nat, k: nat)
    requires RosterOk(members)
    requires IsLeader(After(members, durable, run), l, term)
    ensures var s := After(members, durable, run).nodes[l];
            && ProgressOk(s.cfg, s.core)
            && (s.core.commit < k <= |s.core.log| && s.core.log[k - 1].term == term ==>
                  CountAtLeast(Reached(s.cfg, s.core), k) < Majority(s.cfg.members))
  {
    hide After, Reached, Committable;
    RunPrompt(members, durable, run);
    var s := After(members, durable, run).nodes[l];
    assert Valid(s);
    if s.core.commit < k <= |s.core.log| { CommittableIsCounted(s.cfg, s.core, k); }
  }
}
