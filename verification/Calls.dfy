/** Every public call, met with messages that were really sent, keeps the invariant: each
    call is a chain of the changes of RaftSteps. */
module RaftCalls {
  import opened RaftTypes
  import opened KeyValue
  import opened RaftNode
  import opened RaftProtocol
  import opened RaftSafety
  import opened RaftSteps
  import opened RaftLocal

  /** Everything the node has queued, as messages. */
  ghost function Outgoing(s: NodeState): set<Message> {
    (set a | a in s.voteQueue :: VoteRequest(s.cfg.id, a.target, a.request)) +
    (set a | a in s.appendQueue :: AppendRequest(s.cfg.id, a.target, a.request))
  }

  /** A later history of the same cluster: records stay, logs and acknowledgements grow. */
  ghost predicate Later(h: History, h': History) {
    && h'.members == h.members
    && (forall k :: k in h.ballots ==> k in h'.ballots && h'.ballots[k] == h.ballots[k])
    && (forall t :: t in h.reigns ==> t in h'.reigns && Extends(h.reigns[t], h'.reigns[t]))
    && (forall k :: k in h.acks ==> k in h'.acks && h.acks[k] <= h'.acks[k])
  }

  lemma GrowsIsLater(h: History, h': History, n: NodeId, T: nat)
    requires GrowsBy(h, h', n, T)
    ensures Later(h, h')
  {
  }

  lemma LaterTrans(a: History, b: History, c: History)
    requires Later(a, b) && Later(b, c)
    ensures Later(a, c)
  {
    forall t | t in a.reigns ensures t in c.reigns && Extends(a.reigns[t], c.reigns[t]) {
      assert Extends(a.reigns[t], b.reigns[t]) && Extends(b.reigns[t], c.reigns[t]);
    }
  }

  lemma CommittedLater(h: History, h': History, log: seq<LogEntry>, bound: nat)
    requires Later(h, h') && CommittedLog(h, log, bound)
    ensures CommittedLog(h', log, bound)
  {
    if log != [] {
      var t, k := CommittedWitness(h, log, bound);
      var q :| Quorum(h.members, q) && AllAcked(h, q, t, k);
      assert AllAcked(h', q, t, k) by {
        forall v | v in q ensures Acked(h', v, t, k) { assert Acked(h, v, t, k); }
      }
      assert Extends(h.reigns[t], h'.reigns[t]);
      assert h'.reigns[t].log[..k] == h.reigns[t].log[..k];
      assert Chosen(h', t, k);
    }
  }

  /** A node and the world agree: s is node s.cfg.id of w. */
  ghost predicate Placed(w: World, h: History, s: NodeState) {
    && Inv(w, h)
    && h.members == s.cfg.members
    && s.cfg.id in w.cores && w.cores[s.cfg.id] == s.core
    && Healthy(s)
    && Outgoing(s) <= w.messages
  }

  /** Every leader the history gained is the node as it stands now. */
  ghost predicate NewReigns(h: History, h': History, s': NodeState) {
    forall t :: t in h'.reigns && t !in h.reigns ==>
      h'.reigns[t].leader == s'.cfg.id && s'.core.role == Leader && s'.core.term == t
  }

  /** What a call must leave behind: a later history with the invariant, and nothing queued
      that is not true. */
  ghost predicate Keeps(w: World, h: History, h': History, s': NodeState) {
    && Later(h, h') && NewReigns(h, h', s')
    && Inv(WithCore(w, s'.cfg.id, s'.core), h')
    && forall m :: m in Outgoing(s') && m !in w.messages ==> MessageOk(h', m)
  }

  lemma WithCoreTwice(w: World, n: NodeId, a: Core, b: Core)
    ensures WithCore(WithCore(w, n, a), n, b) == WithCore(w, n, b)
  {
  }

  lemma WorldNode(w: World, h: History, n: NodeId)
    requires Inv(w, h) && n in w.cores
    ensures NodeOk(h, n, w.cores[n]) && n in h.members
  {
  }

  lemma PlacedParts(w: World, h: History, s: NodeState)
    requires Placed(w, h, s)
    ensures Inv(w, h) && Healthy(s) && Outgoing(s) <= w.messages
    ensures h.members == s.cfg.members && s.cfg.id in w.cores && w.cores[s.cfg.id] == s.core
    ensures NodeOk(h, s.cfg.id, s.core) && s.cfg.id in h.members
  {
    WorldNode(w, h, s.cfg.id);
  }

  lemma KeepsSame(w: World, h: History, s: NodeState)
    requires Placed(w, h, s)
    ensures Keeps(w, h, h, s)
  {
    WithCoreBack(w, s.cfg.id);
  }

  lemma QuietKeeps(w: World, h: History, h': History, s': NodeState)
    requires Later(h, h') && h'.reigns.Keys == h.reigns.Keys
    requires Inv(WithCore(w, s'.cfg.id, s'.core), h') && Outgoing(s') <= w.messages
    ensures Keeps(w, h, h', s')
  {
  }

  lemma VoteActionsOk(h: History, cfg: Config, core: Core)
    requires h.members == cfg.members && cfg.id in cfg.members
    requires core.role == Candidate && NodeOk(h, cfg.id, core)
    ensures forall a :: a in VoteActions(cfg, core) ==> MessageOk(h, VoteRequest(cfg.id, a.target, a.request))
  {
    forall a | a in VoteActions(cfg, core)
      ensures MessageOk(h, VoteRequest(cfg.id, a.target, a.request))
    {
      assert IsPeer(cfg, a.target);
      assert a.request == MakeVoteRequest(cfg, core);
    }
  }

  lemma AppendActionsOk(h: History, cfg: Config, core: Core)
    requires h.members == cfg.members && cfg.id in cfg.members
    requires ProgressOk(cfg, core) && core.role == Leader && NodeOk(h, cfg.id, core)
    ensures forall a :: a in AppendActions(cfg, core) ==>
              MessageOk(h, AppendRequest(cfg.id, a.target, a.request))
  {
    forall a | a in AppendActions(cfg, core)
      ensures MessageOk(h, AppendRequest(cfg.id, a.target, a.request))
    {
      assert IsPeer(cfg, a.target);
      RequestIsSlice(h, cfg, core, a.target);
    }
  }

  // ----- elections -----

  lemma TakeOfficeCall(w: World, h: History, s: NodeState) returns (h': History)
    requires Inv(w, h) && h.members == s.cfg.members && s.cfg.id in w.cores && w.cores[s.cfg.id] == s.core
    requires s.core.role == Candidate && Majority(s.cfg.members) <= |s.core.votes|
    ensures Keeps(w, h, h', TakeOffice(s))
  {
    hide Inv, NodeOk, MessageOk, Later, GrowsBy, ProgressOk, AppendActions;
    var core := Crown(s.cfg, s.core);
    h' := Elect(h, s.cfg.id, s.core);
    ElectKeeps(w, h, s.cfg.id, core);
    GrowsIsLater(h, h', s.cfg.id, s.core.term);
    CrownProgress(s.cfg, s.core);
    WorldNode(WithCore(w, s.cfg.id, core), h', s.cfg.id);
    AppendActionsOk(h', s.cfg, core);
  }

  /** A campaign and its vote requests. */
  lemma CampaignCall(w: World, h: History, s: NodeState, h': History, s': NodeState)
    requires Inv(w, h) && h.members == s.cfg.members && s.cfg.id in w.cores && w.cores[s.cfg.id] == s.core
    requires h' == AddBallot(h, s.cfg.id, s.core.term + 1, Ballot(s.cfg.id, s.core.log))
    requires s'.cfg == s.cfg && s'.core == CampaignCore(s.core, s.cfg.id)
    requires s'.voteQueue == VoteActions(s.cfg, s'.core) && s'.appendQueue == []
    ensures Keeps(w, h, h', s')
  {
    hide Inv, NodeOk, MessageOk, VoteActions, GrowsBy;
    var n := s.cfg.id;
    CampaignKeeps(w, h, n);
    GrowsIsLater(h, h', n, s'.core.term);
    WorldNode(WithCore(w, n, s'.core), h', n);
    VoteActionsOk(h', s.cfg, s'.core);
  }

  lemma StartElectionCall(w: World, h: History, s: NodeState) returns (h': History)
    requires Placed(w, h, s)
    ensures Keeps(w, h, h', StartElection(s))
  {
    hide Healthy, VoteActions, TakeOffice, Inv, Later, NodeOk, MessageOk;
    var n := s.cfg.id;
    var core := CampaignCore(s.core, n);
    h' := AddBallot(h, n, core.term, Ballot(n, s.core.log));
    var s1 := Persist(s.(core := core, appendQueue := []));
    var s2 := s1.(voteQueue := VoteActions(s.cfg, core));
    CampaignCall(w, h, s, h', s2);
    if Majority(s.cfg.members) <= 1 {
      var h1 := h';
      h' := TakeOfficeCall(WithCore(w, n, core), h1, s2);
      TakeOfficeKeepsId(s2);
      LaterTrans(h, h1, h');
      WithCoreTwice(w, n, core, TakeOffice(s2).core);
    }
  }

  lemma TakeOfficeKeepsId(s: NodeState)
    ensures TakeOffice(s).cfg == s.cfg
  {
  }

  /** Adopting a newer term, as every handler does first. */
  lemma BecomeFollowerCall(w: World, h: History, s: NodeState, term: nat)
    requires Placed(w, h, s) && s.core.term < term
    ensures Placed(WithCore(w, s.cfg.id, RaiseTerm(s.core, term)), h, BecomeFollower(s, term))
  {
    RaiseTermKeeps(w, h, s.cfg.id, term);
    BecomeFollowerLocal(s, term);
  }

  lemma GrantCall(w: World, h: History, s1: NodeState, m: Message, w1: World) returns (h': History)
    requires Placed(w1, h, s1) && w1 == WithCore(w, s1.cfg.id, s1.core)
    requires m.VoteRequest? && m.to == s1.cfg.id && MessageOk(h, m) && m.ask.term == s1.core.term
    requires s1.core.votedFor == None || s1.core.votedFor == Some(m.from)
    requires UpToDate(m.ask.lastLogIndex, m.ask.lastLogTerm, s1.core.log)
    ensures Keeps(w, h, h', Persist(s1.(core := s1.core.(votedFor := Some(m.from)))))
    ensures (m.to, m.ask.term) in h'.ballots && h'.ballots[(m.to, m.ask.term)].candidate == m.from
    ensures h'.members == h.members
  {
    hide Healthy, UpToDate, Inv, NodeOk, MessageOk, Later, GrowsBy, Keeps;
    PlacedParts(w1, h, s1);
    h' := GrantKeeps(w1, h, s1.cfg.id, m);
    GrowsIsLater(h, h', s1.cfg.id, s1.core.term);
    LaterMembers(h, h');
    WithCoreTwice(w, s1.cfg.id, s1.core, s1.core.(votedFor := Some(m.from)));
    QuietKeeps(w, h, h', Persist(s1.(core := s1.core.(votedFor := Some(m.from)))));
  }

  lemma LaterMembers(h: History, h': History)
    requires Later(h, h')
    ensures h'.members == h.members
  {
  }

  lemma HandleRequestVoteCall(w: World, h: History, s: NodeState, m: Message) returns (h': History)
    requires Placed(w, h, s)
    requires m.VoteRequest? && m.to == s.cfg.id && MessageOk(h, m)
    ensures Keeps(w, h, h', HandleRequestVote(s, m.ask).state)
    ensures HandleRequestVote(s, m.ask).reply.Returned?
    ensures MessageOk(h', VoteReply(m.to, m.from, m.ask, HandleRequestVote(s, m.ask).reply.value))
  {
    hide Healthy, UpToDate, Inv, NodeOk, Later, Keeps, Outgoing;
    h' := h;
    PlacedParts(w, h, s);
    WithCoreBack(w, s.cfg.id);
    if s.core.term <= m.ask.term {
      var s1 := s;
      var w1 := w;
      if s.core.term < m.ask.term {
        BecomeFollowerCall(w, h, s, m.ask.term);
        s1 := BecomeFollower(s, m.ask.term);
        w1 := WithCore(w, s.cfg.id, s1.core);
      }
      if && !(s1.core.votedFor.Some? && s1.core.votedFor.value != m.from)
         && UpToDate(m.ask.lastLogIndex, m.ask.lastLogTerm, s1.core.log)
      {
        h' := GrantCall(w, h, s1, m, w1);
      } else {
        PlacedKeeps(w, h, s1, w1);
      }
    } else {
      PlacedKeeps(w, h, s, w);
    }
  }

  lemma PlacedKeeps(w: World, h: History, s1: NodeState, w1: World)
    requires Placed(w1, h, s1) && w1 == WithCore(w, s1.cfg.id, s1.core)
    ensures Keeps(w, h, h, s1)
  {
  }

  lemma ReceiveVoteCall(w: World, h: History, s: NodeState, m: Message) returns (h': History)
    requires Placed(w, h, s)
    requires m.VoteReply? && m.to == s.cfg.id && MessageOk(h, m)
    ensures Keeps(w, h, h', ReceiveVote(s, m.from, m.vote).state)
    ensures ReceiveVote(s, m.from, m.vote).reply.Returned?
  {
    hide Healthy, Inv, NodeOk, Later, Keeps, Outgoing, TakeOffice;
    var n := s.cfg.id;
    h' := h;
    PlacedParts(w, h, s);
    WithCoreBack(w, n);
    if s.core.term < m.vote.term {
      BecomeFollowerCall(w, h, s, m.vote.term);
      PlacedKeeps(w, h, BecomeFollower(s, m.vote.term), WithCore(w, n, BecomeFollower(s, m.vote.term).core));
    } else if s.core.term == m.vote.term && s.core.role == Candidate && m.vote.voteGranted {
      var s1 := s.(core := s.core.(votes := s.core.votes + {m.from}));
      CountVoteKeeps(w, h, n, m.from);
      SameQueues(s, s1);
      if Majority(s.cfg.members) <= |s1.core.votes| {
        h' := TakeOfficeCall(WithCore(w, n, s1.core), h, s1);
        TakeOfficeKeepsId(s1);
        KeepsUnder(w, h, h', s1.core, TakeOffice(s1));
      } else {
        LaterSelf(h);
        QuietKeeps(w, h, h, s1);
      }
    } else {
      PlacedKeeps(w, h, s, w);
    }
  }

  lemma SameQueues(s: NodeState, s': NodeState)
    requires s'.cfg == s.cfg && s'.voteQueue == s.voteQueue && s'.appendQueue == s.appendQueue
    ensures Outgoing(s') == Outgoing(s)
  {
  }

  lemma LaterSelf(h: History)
    ensures Later(h, h)
  {
  }

  /** What holds after an intermediate change holds from the start. */
  lemma KeepsUnder(w: World, h: History, h': History, core: Core, s': NodeState)
    requires Keeps(WithCore(w, s'.cfg.id, core), h, h', s')
    ensures Keeps(w, h, h', s')
  {
    WithCoreTwice(w, s'.cfg.id, core, s'.core);
  }

  // ----- replication -----

  /** After the term and role adjustments the node is a follower of the request's leader. */
  lemma FollowLeaderCall(w: World, h: History, s: NodeState, m: Message)
    requires Placed(w, h, s)
    requires m.AppendRequest? && m.to == s.cfg.id && MessageOk(h, m)
    requires s.core.term <= m.append.term
    ensures Placed(WithCore(w, s.cfg.id, FollowLeader(s, m.append).core), h, FollowLeader(s, m.append))
    ensures FollowLeader(s, m.append).core.term == m.append.term
    ensures FollowLeader(s, m.append).core.role == Follower
    ensures FollowLeader(s, m.append).cfg == s.cfg
    ensures FollowLeader(s, m.append).core.log == s.core.log
    ensures FollowLeader(s, m.append).core.commit == s.core.commit <= |s.core.log|
  {
    hide Healthy, Inv, NodeOk, SliceOk, Valid, Advances, MessageOk;
    RequestReign(h, m);
    HealthyCommit(s);
    var n := s.cfg.id;
    var s1 := s;
    WithCoreBack(w, n);
    if s.core.term < m.append.term {
      BecomeFollowerCall(w, h, s, m.append.term);
      s1 := BecomeFollower(s, m.append.term);
    } else if s.core.role != Follower {
      ForgetKeeps(w, h, n, StepDown(s.core));
      s1 := s.(core := StepDown(s.core), voteQueue := [], appendQueue := []);
    }
    var w1 := WithCore(w, n, s1.core);
    SetLeaderKeeps(w1, h, n, m.append.leaderId);
    WithCoreTwice(w, n, s1.core, s1.core.(leaderId := Some(m.append.leaderId)));
    HealthyIsValid(s);
    FollowLeaderLocal(s, m.append);
  }

  lemma RequestReign(h: History, m: Message)
    requires m.AppendRequest? && MessageOk(h, m)
    ensures m.append.term in h.reigns && h.reigns[m.append.term].leader == m.append.leaderId
  {
  }

  lemma HealthyCommit(s: NodeState)
    requires Healthy(s)
    ensures s.core.commit <= |s.core.log|
  {
  }

  /** The commit index a follower adopts lies inside what the leader had committed. */
  lemma FollowerCommitOk(h: History, core: Core, request: AppendEntriesRequest, commit: nat)
    requires SliceOk(h, request) && request.term == core.term
    requires commit <= request.leaderCommit && commit <= request.prevLogIndex + |request.entries|
    requires request.prevLogIndex + |request.entries| <= |core.log|
    requires core.log[..request.prevLogIndex + |request.entries|] ==
             h.reigns[core.term].log[..request.prevLogIndex + |request.entries|]
    ensures CommittedLog(h, core.log[..commit], core.term)
  {
    var r := h.reigns[core.term].log;
    var m := request.prevLogIndex + |request.entries|;
    assert core.log[..commit] == core.log[..m][..commit] == r[..commit];
    CommittedPrefix(h, r[..commit], r[..request.leaderCommit], core.term, core.term);
  }

  lemma SliceGrows(h: History, h': History, n: NodeId, T: nat, m: Message)
    requires GrowsBy(h, h', n, T)
    requires m.AppendRequest? && MessageOk(h, m)
    ensures MessageOk(h', m)
  {
    MessageGrows(h, h', n, T, m);
  }

  lemma AcceptReplyOk(h: History, n: NodeId, T: nat, m: Message, matched: nat)
    requires m.AppendRequest? && m.to == n && m.append.term == T
    requires MessageOk(h, m) && matched == m.append.prevLogIndex + |m.append.entries|
    ensures MessageOk(Acknowledge(h, n, T, matched),
                      AppendReply(n, m.from, m.append, AppendEntriesResponse(T, true, matched)))
  {
  }

  /** The commit half of an accepted request. */
  lemma FollowerCommitCall(w: World, h: History, s: NodeState, core1: Core, m: Message, safe: nat)
    requires Inv(WithCore(w, s.cfg.id, core1), h)
    requires core1 == s.core.(log := core1.log)
    requires m.AppendRequest? && MessageOk(h, m) && m.append.term == s.core.term
    requires m.append.prevLogIndex + |m.append.entries| <= |core1.log|
    requires core1.log[..m.append.prevLogIndex + |m.append.entries|] ==
             h.reigns[s.core.term].log[..m.append.prevLogIndex + |m.append.entries|]
    requires safe == Min(m.append.leaderCommit, m.append.prevLogIndex + |m.append.entries|)
    ensures Inv(WithCore(w, s.cfg.id, core1.(commit := Max(s.core.commit, safe))), h)
  {
    hide Inv, CommittedLog, Sourced;
    if s.core.commit < safe {
      FollowerCommitOk(h, core1, m.append, safe);
      CommitKeeps(WithCore(w, s.cfg.id, core1), h, s.cfg.id, safe);
      WithCoreTwice(w, s.cfg.id, core1, core1.(commit := safe));
    }
  }

  lemma AcceptEntriesCall(w: World, h: History, s: NodeState, m: Message) returns (h': History)
    requires Inv(w, h) && s.cfg.id in w.cores && w.cores[s.cfg.id] == s.core
    requires s.core.role == Follower
    requires m.AppendRequest? && m.to == s.cfg.id && MessageOk(h, m) && m.append.term == s.core.term
    requires PreviousMatches(s.core.log, m.append.prevLogIndex, m.append.prevLogTerm)
    requires m.append.prevLogIndex <= |s.core.log|
    ensures Later(h, h') && h'.reigns == h.reigns
    ensures Inv(WithCore(w, s.cfg.id, AcceptedCore(s.core, m.append)), h')
    ensures MessageOk(h', AppendReply(m.to, m.from, m.append,
              AppendEntriesResponse(s.core.term, true, m.append.prevLogIndex + |m.append.entries|)))
  {
    hide Merged, Inv, CommittedLog, PreviousMatches, GrowsBy;
    var n := s.cfg.id;
    var request, matched := m.append, m.append.prevLogIndex + |m.append.entries|;
    var core1 := s.core.(log := Merged(s.core.log, request.prevLogIndex, request.entries));
    h' := Acknowledge(h, n, s.core.term, matched);
    MergeKeeps(w, h, h', n, s.core, core1, request, matched);
    GrowsIsLater(h, h', n, s.core.term);
    AcceptReplyOk(h, n, s.core.term, m, matched);
    SliceGrows(h, h', n, s.core.term, m);
    FollowerCommitCall(w, h', s, core1, m, Min(request.leaderCommit, matched));
  }

  lemma HandleAppendEntriesCall(w: World, h: History, s: NodeState, m: Message) returns (h': History)
    requires Placed(w, h, s)
    requires m.AppendRequest? && m.to == s.cfg.id && MessageOk(h, m)
    ensures Keeps(w, h, h', HandleAppendEntries(s, m.append).state)
    ensures HandleAppendEntries(s, m.append).reply.Returned?
    ensures MessageOk(h', AppendReply(m.to, m.from, m.append, HandleAppendEntries(s, m.append).reply.value))
    ensures HandleAppendEntries(s, m.append).reply.value.success <==>
              && s.core.term <= m.append.term
              && PreviousMatches(s.core.log, m.append.prevLogIndex, m.append.prevLogTerm)
  {
    hide Healthy, AcceptEntries, FollowLeader, ReplacesCommitted, PreviousMatches, Inv, NodeOk, Keeps,
         Later, SliceOk, Outgoing;
    var n := s.cfg.id;
    h' := h;
    PlacedParts(w, h, s);
    WithCoreBack(w, n);
    HandleAppendEntriesAnswers(w, h, s, m);
    if s.core.term <= m.append.term {
      var s1 := FollowLeader(s, m.append);
      var w1 := WithCore(w, n, s1.core);
      FollowLeaderCall(w, h, s, m);
      PlacedParts(w1, h, s1);
      if PreviousMatches(s1.core.log, m.append.prevLogIndex, m.append.prevLogTerm) {
        PreviousInLog(s1.core.log, m.append.prevLogIndex, m.append.prevLogTerm);
        h' := AcceptEntriesCall(w1, h, s1, m);
        AcceptEntriesShape(s1, m.append);
        WithCoreTwice(w, n, s1.core, AcceptedCore(s1.core, m.append));
        QuietKeeps(w, h, h', AcceptEntries(s1, m.append).state);
      } else {
        PlacedKeeps(w, h, s1, w1);
      }
    } else {
      PlacedKeeps(w, h, s, w);
    }
  }

  /** The state and answer of an accepted request, when applying does not throw. */
  lemma AcceptEntriesShape(s: NodeState, request: AppendEntriesRequest)
    requires request.prevLogIndex <= |s.core.log| && s.core.commit <= |s.core.log|
    requires !ReplacesCommitted(s.core.log, s.core.commit, request.prevLogIndex, request.entries)
    ensures AcceptEntries(s, request).state.core == AcceptedCore(s.core, request)
    ensures AcceptEntries(s, request).state.cfg == s.cfg
    ensures Outgoing(AcceptEntries(s, request).state) == Outgoing(s)
    ensures AcceptEntries(s, request).reply.Returned? ==>
              AcceptEntries(s, request).reply.value ==
              AppendEntriesResponse(s.core.term, true, request.prevLogIndex + |request.entries|)
  {
  }

  /** A request that was really sent is refused for a stale term or a previous-position
      mismatch only: the entry checks and the committed-conflict check never fire. */
  lemma HandleAppendEntriesAnswers(w: World, h: History, s: NodeState, m: Message)
    requires Placed(w, h, s)
    requires m.AppendRequest? && m.to == s.cfg.id && MessageOk(h, m)
    ensures HandleAppendEntries(s, m.append).reply.Returned?
    ensures s.core.term <= m.append.term ==>
              var s1 := FollowLeader(s, m.append);
              && s1.core.log == s.core.log
              && EntriesOk(m.append.entries, m.append.term, m.append.prevLogTerm)
              && !ReplacesCommitted(s1.core.log, s1.core.commit, m.append.prevLogIndex, m.append.entries)
    ensures GoodCommands(m.append.entries)
  {
    assert ReignOk(h, m.append.term);
    SliceCommands(h.reigns[m.append.term].log, m.append);
    HandleAppendEntriesLocal(s, m.append);
    if s.core.term <= m.append.term {
      RequestEntriesOk(h, m.append);
      FollowLeaderCall(w, h, s, m);
      var s1 := FollowLeader(s, m.append);
      var w1 := WithCore(w, s.cfg.id, s1.core);
      assert NodeOk(h, s.cfg.id, w1.cores[s.cfg.id]);
      RequestKeepsCommitted(h, s.cfg.id, s1.core, m.append);
    }
  }

  lemma SliceCommands(r: seq<LogEntry>, request: AppendEntriesRequest)
    requires GoodCommands(r)
    requires request.prevLogIndex + |request.entries| <= |r|
    requires request.entries == r[request.prevLogIndex..request.prevLogIndex + |request.entries|]
    ensures GoodCommands(request.entries)
  {
  }

  /** The leader's backward scan commits only what a majority acknowledged. */
  lemma AdvanceCommitCall(w: World, h: History, s: NodeState)
    requires Inv(w, h) && h.members == s.cfg.members && s.cfg.id in w.cores && w.cores[s.cfg.id] == s.core
    requires s.core.role == Leader && ProgressOk(s.cfg, s.core) && s.core.commit <= |s.core.log|
    ensures Inv(WithCore(w, s.cfg.id, AdvanceCommit(s).0.core), h)
    ensures Outgoing(AdvanceCommit(s).0) == Outgoing(s) && AdvanceCommit(s).0.cfg == s.cfg
  {
    WithCoreBack(w, s.cfg.id);
    var n := CommitScan(s.cfg, s.core, |s.core.log|);
    if n != s.core.commit { LeaderCommitKeeps(w, h, s.cfg, n); }
  }

  lemma RecordMatchCall(w: World, h: History, s: NodeState, m: Message)
    requires Placed(w, h, s) && s.core.role == Leader
    requires m.AppendReply? && m.to == s.cfg.id && MessageOk(h, m)
    requires m.answer.term == s.core.term && m.answer.success
    ensures m.answer.matchedIndex <= |s.core.log|
    ensures m.from in s.core.nextIndex && m.from in s.core.matchIndex
    ensures Inv(WithCore(w, s.cfg.id, RecordMatch(s.core, m.from, m.answer.matchedIndex)), h)
  {
    assert NodeOk(h, s.cfg.id, w.cores[s.cfg.id]);
    assert IsPeer(s.cfg, m.from);
    var core := RecordMatch(s.core, m.from, m.answer.matchedIndex);
    ProgressKeeps(w, h, s.cfg.id, core);
  }

  lemma ConfirmCall(w: World, h: History, s: NodeState, m: Message)
    requires Placed(w, h, s) && s.core.role == Leader
    requires m.AppendReply? && m.to == s.cfg.id && MessageOk(h, m)
    requires m.answer.term == s.core.term && m.answer.success
    ensures m.answer.matchedIndex <= |s.core.log|
    ensures m.from in s.core.nextIndex && m.from in s.core.matchIndex
    ensures var s1 := s.(core := RecordMatch(s.core, m.from, m.answer.matchedIndex));
            && Healthy(s1)
            && ProgressOk(s1.cfg, s1.core) && s1.core.commit <= |s1.core.log|
            && AdvanceCommit(s1).1 && Keeps(w, h, h, AdvanceCommit(s1).0)
  {
    hide AdvanceCommit, Inv, NodeOk, Keeps, Outgoing, Healthy;
    var n := s.cfg.id;
    RecordMatchCall(w, h, s, m);
    PlacedParts(w, h, s);
    HealthyIsValid(s);
    RecordMatchLocal(s, m.from, m.answer.matchedIndex);
    var s1 := s.(core := RecordMatch(s.core, m.from, m.answer.matchedIndex));
    HealthyIsValid(s1);
    ValidLeader(s1);
    AdvanceCommitCall(WithCore(w, n, s1.core), h, s1);
    AdvanceCommitLocal(s1);
    WithCoreTwice(w, n, s1.core, AdvanceCommit(s1).0.core);
    SameQueues(s, s1);
    LaterSelf(h);
    QuietKeeps(w, h, h, AdvanceCommit(s1).0);
  }

  lemma RejectCall(w: World, h: History, s: NodeState, follower: NodeId)
    requires Placed(w, h, s) && s.core.role == Leader && IsPeer(s.cfg, follower)
    ensures follower in s.core.nextIndex
    ensures Keeps(w, h, h, s.(core := RecordReject(s.core, follower)))
  {
    hide Inv, Keeps, Outgoing, Healthy, CommittedLog, Sourced;
    PlacedParts(w, h, s);
    HealthyIsValid(s);
    ValidLeader(s);
    ProgressCovers(s, follower);
    ProgressKeeps(w, h, s.cfg.id, RecordReject(s.core, follower));
    SameQueues(s, s.(core := RecordReject(s.core, follower)));
    LaterSelf(h);
    QuietKeeps(w, h, h, s.(core := RecordReject(s.core, follower)));
  }

  lemma ReceiveAppendResponseCall(w: World, h: History, s: NodeState, m: Message)
    requires Placed(w, h, s)
    requires m.AppendReply? && m.to == s.cfg.id && MessageOk(h, m)
    ensures Keeps(w, h, h, ReceiveAppendResponse(s, m.from, m.answer).state)
    ensures ReceiveAppendResponse(s, m.from, m.answer).reply.Returned?
  {
    hide Healthy, AdvanceCommit, Inv, ProgressOk, NodeOk, Keeps, Later, RecordMatch, RecordReject, Outgoing;
    PlacedParts(w, h, s);
    WithCoreBack(w, s.cfg.id);
    assert IsPeer(s.cfg, m.from);
    if s.core.term < m.answer.term {
      BecomeFollowerCall(w, h, s, m.answer.term);
      var s1 := BecomeFollower(s, m.answer.term);
      PlacedKeeps(w, h, s1, WithCore(w, s.cfg.id, s1.core));
    } else if s.core.term == m.answer.term && s.core.role == Leader {
      if m.answer.success { ConfirmCall(w, h, s, m); } else { RejectCall(w, h, s, m.from); }
    } else {
      PlacedKeeps(w, h, s, w);
    }
  }

  lemma HealthyIsValid(s: NodeState)
    requires Healthy(s)
    ensures Valid(s)
  {
  }

  lemma ProgressCovers(s: NodeState, follower: NodeId)
    requires ProgressOk(s.cfg, s.core) && IsPeer(s.cfg, follower)
    ensures follower in s.core.nextIndex && follower in s.core.matchIndex
  {
  }

  /** Committing and queueing after the new entry is in the log. */
  lemma AppendedCall(w: World, h: History, h': History, s: NodeState, s1: NodeState, s': NodeState)
    requires Inv(WithCore(w, s.cfg.id, s1.core), h') && h'.members == s.cfg.members
    requires Later(h, h') && h'.reigns.Keys == h.reigns.Keys
    requires s1.cfg == s.cfg && s1.core.role == Leader && Valid(s1)
    requires s'.cfg == s.cfg && s'.core == AdvanceCommit(s1).0.core
    requires s'.voteQueue == s.voteQueue
    requires ProgressOk(s.cfg, s'.core) && s'.appendQueue == AppendActions(s.cfg, s'.core)
    requires Outgoing(s) <= w.messages
    ensures Keeps(w, h, h', s')
  {
    hide AdvanceCommit, Inv, NodeOk, MessageOk, Later, ProgressOk, AppendActions;
    var n := s.cfg.id;
    var w1 := WithCore(w, n, s1.core);
    ValidLeader(s1);
    AdvanceCommitCall(w1, h', s1);
    AdvanceCommitLocal(s1);
    WorldNode(WithCore(w1, n, s'.core), h', n);
    WithCoreTwice(w, n, s1.core, s'.core);
    AppendActionsOk(h', s.cfg, s'.core);
  }

  lemma ValidLeader(s: NodeState)
    requires Valid(s) && s.core.role == Leader
    ensures ProgressOk(s.cfg, s.core) && s.core.commit <= |s.core.log|
  {
  }

  lemma AppendCommandCall(w: World, h: History, s: NodeState, command: string) returns (h': History)
    requires Placed(w, h, s) && Applicable(command)
    ensures Keeps(w, h, h', AppendCommand(s, command).state)
  {
    hide Healthy, AdvanceCommit, Inv, ProgressOk, AppendActions, Keeps;
    var n := s.cfg.id;
    h' := h;
    WithCoreBack(w, n);
    HealthyIsValid(s);
    if s.core.role == Leader && command != "" {
      var s1 := s.(core := AppendEntry(s.core, command));
      ExtendKeeps(w, h, n, command);
      h' := Extend(h, n, s.core, LogEntry(s.core.term, command));
      GrowsIsLater(h, h', n, s.core.term);
      AppendEntryLocal(s, command);
      ValidLeader(s);
      AdvanceCommitLocal(s1);
      AppendCommandShape(s, command);
      AppendedCall(w, h, h', s, s1, AppendCommand(s, command).state);
    } else {
      KeepsSame(w, h, s);
    }
  }

  /** The state and queue after an accepted command. */
  lemma AppendCommandShape(s: NodeState, command: string)
    requires Valid(s) && Healthy(s) && Applicable(command) && s.core.role == Leader && command != ""
    ensures var s1 := s.(core := AppendEntry(s.core, command));
            var s' := AppendCommand(s, command).state;
            && Valid(s1) && Valid(s')
            && s'.cfg == s.cfg && s'.core == AdvanceCommit(s1).0.core && ProgressOk(s.cfg, s'.core)
            && s'.appendQueue == AppendActions(s.cfg, s'.core) && s'.voteQueue == s.voteQueue
  {
    hide AdvanceCommit, AppendActions, LogOk, Applied;
    var s1 := s.(core := AppendEntry(s.core, command));
    AppendEntryLocal(s, command);
    AdvanceCommitLocal(s1);
    AppendCommandLocal(s, command);
  }

  lemma QueueHeartbeatsCall(w: World, h: History, s: NodeState)
    requires Placed(w, h, s)
    ensures Keeps(w, h, h, QueueHeartbeats(s).state)
  {
    WithCoreBack(w, s.cfg.id);
    if s.core.role == Leader {
      assert NodeOk(h, s.cfg.id, w.cores[s.cfg.id]);
      AppendActionsOk(h, s.cfg, s.core);
    }
  }

  lemma RestartCall(w: World, h: History, s: NodeState)
    requires Placed(w, h, s) && s.cfg.durable
    ensures Boot(s.cfg, 0, [], s.disk).Returned?
    ensures Keeps(w, h, h, Boot(s.cfg, 0, [], s.disk).value)
  {
    RestartRestores(s);
    ForgetKeeps(w, h, s.cfg.id, StepDown(s.core).(leaderId := None));
  }
}
