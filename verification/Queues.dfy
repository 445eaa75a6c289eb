/** What waits in a node's two queues speaks of the node as it stands: of its current term, its
    own vote and its present log. With the disk in step with those fields, nothing can be sent
    that a restart would take back. */
module RaftQueues {
  import opened RaftTypes
  import opened RaftNode
  import opened RaftSteps
  import opened RaftLocal
  import opened RaftCluster

  /** A part of the log, with the term before it and a commit index reached already. */
  ghost predicate PartOf(cfg: Config, core: Core, request: AppendEntriesRequest) {
    && request.term == core.term && request.leaderId == cfg.id
    && request.prevLogIndex + |request.entries| <= |core.log|
    && request.entries == core.log[request.prevLogIndex..request.prevLogIndex + |request.entries|]
    && request.prevLogTerm == (if request.prevLogIndex == 0 then 0 else core.log[request.prevLogIndex - 1].term)
    && request.leaderCommit <= core.commit
  }

  ghost predicate VotesBacked(cfg: Config, core: Core, q: seq<RequestVoteAction>) {
    forall a :: a in q ==>
      core.role == Candidate && core.votedFor == Some(cfg.id) && a.request == MakeVoteRequest(cfg, core)
  }

  ghost predicate AppendsBacked(cfg: Config, core: Core, q: seq<AppendEntriesAction>) {
    forall a :: a in q ==> core.role == Leader && PartOf(cfg, core, a.request)
  }

  ghost predicate Backed(s: NodeState) {
    VotesBacked(s.cfg, s.core, s.voteQueue) && AppendsBacked(s.cfg, s.core, s.appendQueue)
  }

  // ----- one call -----

  lemma VoteActionsBacked(cfg: Config, core: Core)
    requires core.role == Candidate && core.votedFor == Some(cfg.id)
    ensures VotesBacked(cfg, core, VoteActions(cfg, core))
  {
  }

  lemma RequestIsPart(cfg: Config, core: Core, follower: NodeId)
    requires follower in core.nextIndex && 1 <= core.nextIndex[follower] <= |core.log| + 1
    ensures PartOf(cfg, core, MakeAppendRequest(cfg, core, follower))
  {
  }

  lemma ActionAt(cfg: Config, core: Core, i: nat)
    requires ProgressOk(cfg, core) && i < |AppendActions(cfg, core)|
    ensures PartOf(cfg, core, AppendActions(cfg, core)[i].request)
  {
    hide Peers, PartOf, MakeAppendRequest;
    var peer := Peers(cfg.members, cfg.id)[i];
    assert peer in Peers(cfg.members, cfg.id);
    assert IsPeer(cfg, peer);
    RequestIsPart(cfg, core, peer);
  }

  lemma AppendActionsBacked(cfg: Config, core: Core)
    requires ProgressOk(cfg, core) && core.role == Leader
    ensures AppendsBacked(cfg, core, AppendActions(cfg, core))
  {
    hide PartOf, AppendActions, ProgressOk;
    var q := AppendActions(cfg, core);
    forall i | 0 <= i < |q| ensures PartOf(cfg, core, q[i].request) {
      ActionAt(cfg, core, i);
    }
  }

  lemma NothingQueued(s: NodeState)
    requires s.voteQueue == [] && s.appendQueue == []
    ensures Backed(s)
  {
  }

  lemma OfficeBacked(s: NodeState)
    ensures Backed(TakeOffice(s))
  {
    hide AppendActions, ProgressOk, PartOf;
    CrownProgress(s.cfg, s.core);
    AppendActionsBacked(s.cfg, Crown(s.cfg, s.core));
  }

  lemma CampaignBacked(s: NodeState)
    ensures Backed(StartElection(s))
  {
    hide TakeOffice, VoteActions;
    var core := CampaignCore(s.core, s.cfg.id);
    var s2 := Persist(s.(core := core, appendQueue := [])).(voteQueue := VoteActions(s.cfg, core));
    VoteActionsBacked(s.cfg, core);
    OfficeBacked(s2);
  }

  /** The queues stay, and with them all the fields they speak of; the log and the commit index
      of a leader may grow. */
  lemma StillBacked(s: NodeState, s': NodeState)
    requires Backed(s) && s'.cfg == s.cfg && s'.voteQueue == s.voteQueue && s'.appendQueue == s.appendQueue
    requires s'.core.role == s.core.role && s'.core.term == s.core.term
    requires s.core.role == Candidate ==> s'.core.log == s.core.log
    requires s.core.votedFor == Some(s.cfg.id) ==> s'.core.votedFor == s.core.votedFor
    requires s.core.log <= s'.core.log && s.core.commit <= s'.core.commit
    ensures Backed(s')
  {
    forall a | a in s'.appendQueue ensures s'.core.role == Leader && PartOf(s'.cfg, s'.core, a.request) {
      assert PartOf(s.cfg, s.core, a.request);
      var p, n := a.request.prevLogIndex, |a.request.entries|;
      assert s.core.log[p..p + n] == s'.core.log[p..p + n];
    }
  }

  lemma FirstIsIn<T>(q: seq<T>)
    ensures q != [] ==> q[0] in q
  {
  }

  /** A follower has nothing queued. */
  lemma FollowerQueues(s: NodeState)
    requires Backed(s) && s.core.role == Follower
    ensures s.voteQueue == [] && s.appendQueue == []
  {
    FirstIsIn(s.voteQueue);
    FirstIsIn(s.appendQueue);
  }

  lemma AskedBacked(s: NodeState, request: RequestVoteRequest)
    requires Backed(s)
    ensures Backed(HandleRequestVote(s, request).state)
  {
    hide Backed, UpToDate;
    var s' := HandleRequestVote(s, request).state;
    if s'.core.term == s.core.term { StillBacked(s, s'); } else { NothingQueued(s'); }
  }

  lemma VoteBacked(s: NodeState, voter: NodeId, response: RequestVoteResponse)
    requires Backed(s)
    ensures Backed(ReceiveVote(s, voter, response).state)
  {
    hide Backed, TakeOffice;
    var s1 := s.(core := s.core.(votes := s.core.votes + {voter}));
    OfficeBacked(s1);
    StillBacked(s, s1);
    if s.core.term < response.term { NothingQueued(BecomeFollower(s, response.term)); }
  }

  lemma RequestBacked(s: NodeState, request: AppendEntriesRequest)
    requires Backed(s) && Valid(s) && s.core.commit <= |s.core.log|
    ensures Backed(HandleAppendEntries(s, request).state)
  {
    hide Backed, Valid, Merged, EntriesOk, ReplacesCommitted, ApplyCommitted, PreviousMatches;
    var s' := HandleAppendEntries(s, request).state;
    if request.leaderId in s.cfg.members && s.core.term <= request.term {
      if s.core.role == Follower { FollowerQueues(s); }
      if PreviousMatches(s.core.log, request.prevLogIndex, request.prevLogTerm) {
        PreviousInLog(s.core.log, request.prevLogIndex, request.prevLogTerm);
      }
      NothingQueued(s');
    }
  }

  lemma AnswerBacked(s: NodeState, follower: NodeId, response: AppendEntriesResponse)
    requires Backed(s) && Valid(s)
    requires s.core.commit <= |s.core.log| && (s.core.role == Leader ==> ProgressOk(s.cfg, s.core))
    ensures Backed(ReceiveAppendResponse(s, follower, response).state)
  {
    hide Backed, AdvanceCommit, Valid, Healthy, ProgressOk;
    var s' := ReceiveAppendResponse(s, follower, response).state;
    if s.core.term < response.term && IsPeer(s.cfg, follower) {
      NothingQueued(s');
    } else {
      if s.core.role == Leader && IsPeer(s.cfg, follower) && response.matchedIndex <= |s.core.log| {
        RecordMatchLocal(s, follower, response.matchedIndex);
        AdvanceCommitLocal(s.(core := RecordMatch(s.core, follower, response.matchedIndex)));
      }
      StillBacked(s, s');
    }
  }

  lemma CommandBacked(s: NodeState, command: string)
    requires Backed(s) && Valid(s)
    requires s.core.commit <= |s.core.log| && (s.core.role == Leader ==> ProgressOk(s.cfg, s.core))
    ensures Backed(AppendCommand(s, command).state)
  {
    hide Backed, AdvanceCommit, AppendActions, LogOk, Applied, ProgressOk;
    if s.core.role == Leader && command != "" {
      var s1 := s.(core := AppendEntry(s.core, command));
      AppendEntryLocal(s, command);
      AdvanceCommitLocal(s1);
      var s2 := AdvanceCommit(s1).0;
      StillBacked(s, s2);
      QueueReplaced(s2, AppendCommand(s, command).state);
    }
  }

  lemma QueueReplaced(s: NodeState, s': NodeState)
    requires Backed(s) && ProgressOk(s.cfg, s.core) && s.core.role == Leader
    requires s'.cfg == s.cfg && s'.core == s.core && s'.voteQueue == s.voteQueue
    requires s'.appendQueue == s.appendQueue || s'.appendQueue == AppendActions(s.cfg, s.core)
    ensures Backed(s')
  {
    hide PartOf, AppendActions, ProgressOk;
    AppendActionsBacked(s.cfg, s.core);
  }

  lemma ReactBacked(s: NodeState, step: Step)
    requires Valid(s) && Backed(s)
    requires ComesBack(step) ==> Healthy(s) && s.cfg.durable
    ensures Backed(React(s, step).state)
  {
    hide Valid, Healthy, Backed, StartElection, HandleRequestVote, HandleAppendEntries, ReceiveVote, AppendCommand,
         ReceiveAppendResponse, AppendActions, Boot;
    ValidProgress(s);
    match step
    case Campaign(_) => CampaignBacked(s);
    case Deliver(VoteRequest(from, to, ask)) => AskedBacked(s, ask);
    case Deliver(VoteReply(from, to, ask, vote)) => VoteBacked(s, from, vote);
    case Deliver(AppendRequest(from, to, append)) => RequestBacked(s, append);
    case Deliver(AppendReply(from, to, append, answer)) => AnswerBacked(s, from, answer);
    case Client(_, command) => CommandBacked(s, command);
    case Heartbeat(_) => if s.core.role == Leader { QueueReplaced(s, QueueHeartbeats(s).state); }
    case VotesTaken(_) => TakenBacked(s);
    case AppendsTaken(_) => TakenBacked(s);
    case Restart(_) =>
      RestartRestores(s);
      NothingQueued(Boot(s.cfg, 0, [], s.disk).value);
    case Interrupted(m) =>
      InterruptedRestores(s, m);
      NothingQueued(Boot(s.cfg, 0, [], Struck(s, m).disk).value);
  }

  lemma TakenBacked(s: NodeState)
    requires Backed(s)
    ensures Backed(TakeVotes(s)) && Backed(TakeAppends(s))
  {
  }

  // ----- all nodes, over a run -----

  ghost predicate AllBacked(c: Cluster) {
    forall n {:trigger Backed(c.nodes[n])} :: n in c.nodes ==> Backed(c.nodes[n])
  }

  lemma StepBacked(c: Cluster, step: Step)
    requires AllValid(c) && AllBacked(c)
    requires Enabled(c, step) && ComesBack(step) ==> Healthy(c.nodes[Actor(step)])
    ensures AllBacked(Next(c, step))
  {
    hide Valid, Healthy, Backed, React;
    if Enabled(c, step) {
      assert Valid(c.nodes[Actor(step)]);
      assert Backed(c.nodes[Actor(step)]);
      ReactBacked(c.nodes[Actor(step)], step);
      var c' := Next(c, step);
      forall n | n in c'.nodes ensures Backed(c'.nodes[n]) {
        if n != Actor(step) { assert Backed(c.nodes[n]); }
      }
    }
  }

  lemma {:induction false} RunBacked(members: seq<NodeId>, durable: set<NodeId>, run: seq<Step>)
    requires RosterOk(members)
    ensures AllBacked(After(members, durable, run))
  {
    hide Healthy, Next, Backed, ClusterInv;
    if run == [] {
      StartBacked(members, durable);
    } else {
      var shorter, step := run[..|run| - 1], run[|run| - 1];
      RunBacked(members, durable, shorter);
      var before := After(members, durable, shorter);
      var h := RunInv(members, durable, shorter);
      if Enabled(before, step) { NodeHealthy(before, members, durable, h, Actor(step)); }
      StepBacked(before, step);
    }
  }

  lemma StartBacked(members: seq<NodeId>, durable: set<NodeId>)
    requires RosterOk(members)
    ensures AllBacked(Genesis(members, durable))
  {
    hide Backed;
    var c := Genesis(members, durable);
    forall n | n in c.nodes ensures Backed(c.nodes[n]) { NothingQueued(c.nodes[n]); }
  }
}
