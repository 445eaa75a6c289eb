/** Runs of three nodes that show what the code does not promise: a stale rejection makes
    match_index and next_index meet, and catching up leaves a longer log longer. */
module RaftWitnesses {
  import opened RaftTypes
  import opened KeyValue
  import opened RaftNode
  import opened RaftProtocol
  import opened RaftSafety
  import opened RaftSteps
  import opened RaftLocal
  import opened RaftCalls
  import opened RaftCluster
  import opened RaftTheorems
  import opened RaftSimulation

  const TRIO: seq<NodeId> := ["a", "b", "c"]

  type Cores = map<NodeId, Core>

  ghost function Cfg(n: NodeId): Config { Config(n, TRIO, false) }

  lemma TrioOk()
    ensures RosterOk(TRIO) && Majority(TRIO) == 2
  {
  }

  ghost function Moment(run: seq<Step>): (c: Cluster)
    ensures AllValid(c)
  {
    TrioOk();
    After(TRIO, {}, run)
  }

  /** The consensus fields of the three nodes after the run. */
  ghost predicate At(run: seq<Step>, cores: Cores) {
    && cores.Keys == {"a", "b", "c"} && Moment(run).nodes.Keys == cores.Keys
    && forall n :: n in cores ==> Moment(run).nodes[n].core == cores[n] && Moment(run).nodes[n].cfg == Cfg(n)
  }

  const START := Core(Follower, 0, None, None, [], 0, {}, map[], map[])

  lemma AtStart()
    ensures At([], map["a" := START, "b" := START, "c" := START])
  {
    assert Ids(TRIO) == {"a", "b", "c"};
  }

  /** One step of one node. */
  lemma StepAt(run: seq<Step>, cores: Cores, step: Step, core: Core)
    requires At(run, cores) && Enabled(Moment(run), step)
    requires Valid(Moment(run).nodes[Actor(step)])
    requires core == React(Moment(run).nodes[Actor(step)], step).state.core
    ensures At(run + [step], cores[Actor(step) := core])
    ensures Moment(run).messages <= Moment(run + [step]).messages
    ensures Outgoing(React(Moment(run).nodes[Actor(step)], step).state) <= Moment(run + [step]).messages
    ensures React(Moment(run).nodes[Actor(step)], step).replies <= Moment(run + [step]).messages
  {
    hide Valid, React, Outgoing, After, Next, AllValid;
    TrioOk();
    RunExtended(TRIO, {}, run, step);
    ReactValid(Moment(run).nodes[Actor(step)], step);
    assert cores[Actor(step) := core].Keys == cores.Keys;
  }

  // ----- an election won with one vote -----

  lemma PeerAsked(cfg: Config, core: Core, peer: NodeId)
    requires IsPeer(cfg, peer)
    ensures RequestVoteAction(peer, MakeVoteRequest(cfg, core)) in VoteActions(cfg, core)
  {
    var peers := Peers(cfg.members, cfg.id);
    var i :| 0 <= i < |peers| && peers[i] == peer;
    assert VoteActions(cfg, core)[i] == RequestVoteAction(peer, MakeVoteRequest(cfg, core));
  }

  lemma PeerSent(cfg: Config, core: Core, peer: NodeId)
    requires IsPeer(cfg, peer) && ProgressOk(cfg, core)
    ensures peer in core.nextIndex && 1 <= core.nextIndex[peer] <= |core.log| + 1
    ensures AppendEntriesAction(peer, MakeAppendRequest(cfg, core, peer)) in AppendActions(cfg, core)
  {
    hide MakeAppendRequest, Peers;
    PeersAre(cfg);
    var peers := Peers(cfg.members, cfg.id);
    var i :| 0 <= i < |peers| && peers[i] == peer;
    assert AppendActions(cfg, core)[i] == AppendEntriesAction(peer, MakeAppendRequest(cfg, core, peer));
  }

  lemma CampaignAt(run: seq<Step>, cores: Cores, n: NodeId, v: NodeId)
    requires At(run, cores) && n in cores && v in cores && v != n
    ensures At(run + [Campaign(n)], cores[n := CampaignCore(cores[n], n)])
    ensures VoteRequest(n, v, MakeVoteRequest(Cfg(n), CampaignCore(cores[n], n)))
            in Moment(run + [Campaign(n)]).messages
  {
    hide Valid, After, VoteActions, TakeOffice;
    var s := Moment(run).nodes[n];
    assert Valid(s);
    TrioOk();
    StepAt(run, cores, Campaign(n), CampaignCore(cores[n], n));
    PeerAsked(Cfg(n), CampaignCore(cores[n], n), v);
    var s', a := StartElection(s), RequestVoteAction(v, MakeVoteRequest(Cfg(n), CampaignCore(cores[n], n)));
    assert s'.voteQueue == VoteActions(Cfg(n), s'.core);
    assert VoteRequest(n, a.target, a.request) in Outgoing(s');
  }

  lemma GrantAt(run: seq<Step>, cores: Cores, m: Message)
    requires At(run, cores) && m in Moment(run).messages && m.VoteRequest? && m.from in cores && m.to in cores
    requires m.ask.candidateId == m.from && cores[m.to].term < m.ask.term
    requires UpToDate(m.ask.lastLogIndex, m.ask.lastLogTerm, cores[m.to].log)
    ensures At(run + [Deliver(m)], cores[m.to := RaiseTerm(cores[m.to], m.ask.term).(votedFor := Some(m.from))])
    ensures m in Moment(run + [Deliver(m)]).messages
    ensures VoteReply(m.to, m.from, m.ask, RequestVoteResponse(m.ask.term, true)) in Moment(run + [Deliver(m)]).messages
  {
    hide Valid, After, Outgoing, UpToDate;
    assert Valid(Moment(run).nodes[m.to]);
    StepAt(run, cores, Deliver(m), RaiseTerm(cores[m.to], m.ask.term).(votedFor := Some(m.from)));
  }

  ghost function Won(core: Core, n: NodeId, v: NodeId): Core {
    Crown(Cfg(n), core.(votes := core.votes + {v}))
  }

  lemma VoteAt(run: seq<Step>, cores: Cores, m: Message)
    requires At(run, cores) && m in Moment(run).messages && m.VoteReply?
    requires m.from in cores && m.to in cores && m.from != m.to
    requires cores[m.to].role == Candidate && cores[m.to].votes == {m.to}
    requires m.vote == RequestVoteResponse(cores[m.to].term, true)
    ensures At(run + [Deliver(m)], cores[m.to := Won(cores[m.to], m.to, m.from)])
    ensures m in Moment(run + [Deliver(m)]).messages
    ensures forall p :: IsPeer(Cfg(m.to), p) ==>
              && p in Won(cores[m.to], m.to, m.from).nextIndex
              && 1 <= Won(cores[m.to], m.to, m.from).nextIndex[p] <= |Won(cores[m.to], m.to, m.from).log| + 1
              && AppendRequest(m.to, p, MakeAppendRequest(Cfg(m.to), Won(cores[m.to], m.to, m.from), p))
                 in Moment(run + [Deliver(m)]).messages
  {
    hide Valid, After, AppendActions, MakeAppendRequest, Crown;
    var s, core := Moment(run).nodes[m.to], Won(cores[m.to], m.to, m.from);
    assert Valid(s);
    TrioOk();
    CrownProgress(Cfg(m.to), s.core.(votes := s.core.votes + {m.from}));
    StepAt(run, cores, Deliver(m), core);
    var s' := React(s, Deliver(m)).state;
    assert s'.appendQueue == AppendActions(Cfg(m.to), core);
    forall p | IsPeer(Cfg(m.to), p)
      ensures p in core.nextIndex && 1 <= core.nextIndex[p] <= |core.log| + 1
      ensures AppendRequest(m.to, p, MakeAppendRequest(Cfg(m.to), core, p)) in Outgoing(s')
    {
      PeerSent(Cfg(m.to), core, p);
      var a := AppendEntriesAction(p, MakeAppendRequest(Cfg(m.to), core, p));
      assert AppendRequest(m.to, a.target, a.request) in Outgoing(s');
    }
  }

  ghost function Campaigned(core: Core, n: NodeId, v: NodeId): Core {
    Won(CampaignCore(core, n), n, v)
  }

  /** n wins the next term with its own vote and v's; its first requests are sent. */
  lemma Wins(run: seq<Step>, cores: Cores, n: NodeId, v: NodeId) returns (run': seq<Step>, cores': Cores)
    requires At(run, cores) && n in cores && v in cores && v != n
    requires cores[v].term <= cores[n].term && UpToDate(|cores[n].log|, LastTerm(cores[n].log), cores[v].log)
    ensures cores' == cores[v := RaiseTerm(cores[v], cores[n].term + 1).(votedFor := Some(n))]
                           [n := Campaigned(cores[n], n, v)]
    ensures At(run', cores')
    ensures VoteReply(v, n, MakeVoteRequest(Cfg(n), CampaignCore(cores[n], n)),
                      RequestVoteResponse(cores[n].term + 1, true)) in Moment(run').messages
    ensures forall p :: IsPeer(Cfg(n), p) ==>
              && p in cores'[n].nextIndex && 1 <= cores'[n].nextIndex[p] <= |cores'[n].log| + 1
              && AppendRequest(n, p, MakeAppendRequest(Cfg(n), cores'[n], p)) in Moment(run').messages
  {
    hide At, Moment, Won, UpToDate, MakeAppendRequest, RaiseTerm;
    AtNames(run, cores);
    var candidate := CampaignCore(cores[n], n);
    var ask := VoteRequest(n, v, MakeVoteRequest(Cfg(n), candidate));
    CampaignAt(run, cores, n, v);
    var run1, cores1 := run + [Campaign(n)], cores[n := candidate];
    GrantAt(run1, cores1, ask);
    var run2, cores2 := run1 + [Deliver(ask)], cores1[v := RaiseTerm(cores[v], candidate.term).(votedFor := Some(n))];
    var reply := VoteReply(v, n, ask.ask, RequestVoteResponse(candidate.term, true));
    VoteAt(run2, cores2, reply);
    run', cores' := run2 + [Deliver(reply)], cores2[n := Won(candidate, n, v)];
    assert cores' == cores[v := cores2[v]][n := Won(candidate, n, v)];
  }

  lemma AtNames(run: seq<Step>, cores: Cores)
    requires At(run, cores)
    ensures cores.Keys == {"a", "b", "c"}
  {
  }

  // ----- replication -----

  lemma {:induction false} NobodyConfirmed(matchIndex: map<NodeId, nat>, nodes: seq<NodeId>, index: nat)
    requires forall f :: f in nodes ==> f in matchIndex && matchIndex[f] < index
    ensures Confirmed(matchIndex, nodes, index) == 0
  {
    if nodes != [] {
      var front := nodes[..|nodes| - 1];
      assert forall f :: f in front ==> f in nodes;
      NobodyConfirmed(matchIndex, front, index);
    }
  }

  /** Nothing can be committed while nobody has confirmed anything, or all entries are old. */
  lemma NothingCommitted(s: NodeState)
    requires Valid(s) && s.core.role == Leader && s.cfg.members == TRIO
    requires || (forall f :: f in s.core.matchIndex ==> s.core.matchIndex[f] == 0)
             || (forall i :: 0 <= i < |s.core.log| ==> s.core.log[i].term < s.core.term)
    ensures ProgressOk(s.cfg, s.core) && s.core.commit <= |s.core.log|
    ensures AdvanceCommit(s).0.core == s.core
  {
    hide LogOk, Applied, ApplyCommitted;
    TrioOk();
    var n := CommitScan(s.cfg, s.core, |s.core.log|);
    var peers := Peers(s.cfg.members, s.cfg.id);
    if s.core.commit < n && s.core.log[n - 1].term == s.core.term {
      forall f | f in peers ensures f in s.core.matchIndex && s.core.matchIndex[f] < n { assert IsPeer(s.cfg, f); }
      NobodyConfirmed(s.core.matchIndex, peers, n);
    }
  }

  lemma ClientAt(run: seq<Step>, cores: Cores, n: NodeId, command: string)
    requires At(run, cores) && n in cores && cores[n].role == Leader && command != "" && Applicable(command)
    requires forall f :: f in cores[n].matchIndex ==> cores[n].matchIndex[f] == 0
    ensures At(run + [Client(n, command)], cores[n := AppendEntry(cores[n], command)])
    ensures Moment(run).messages <= Moment(run + [Client(n, command)]).messages
  {
    hide Valid, AdvanceCommit, AppendActions, ProgressOk, Applicable, After;
    var s := Moment(run).nodes[n];
    assert Valid(s);
    ValidProgress(s);
    AppendEntryLocal(s, command);
    NothingCommitted(s.(core := AppendEntry(s.core, command)));
    AdvanceCommitLocal(s.(core := AppendEntry(s.core, command)));
    StepAt(run, cores, Client(n, command), AppendEntry(cores[n], command));
  }

  /** A request that starts past the end of the follower's log. */
  lemma RefuseAt(run: seq<Step>, cores: Cores, m: Message)
    requires At(run, cores) && m in Moment(run).messages && m.AppendRequest? && m.from in cores && m.to in cores
    requires m.append.leaderId == m.from && cores[m.to].term < m.append.term
    requires |cores[m.to].log| < m.append.prevLogIndex
    ensures At(run + [Deliver(m)], cores[m.to := RaiseTerm(cores[m.to], m.append.term).(leaderId := Some(m.from))])
    ensures AppendReply(m.to, m.from, m.append, AppendEntriesResponse(m.append.term, false, 0))
            in Moment(run + [Deliver(m)]).messages
  {
    hide Valid, Outgoing, EntriesOk, After;
    assert Valid(Moment(run).nodes[m.to]);
    ValidProgress(Moment(run).nodes[m.to]);
    StepAt(run, cores, Deliver(m), RaiseTerm(cores[m.to], m.append.term).(leaderId := Some(m.from)));
  }

  lemma RejectedAt(run: seq<Step>, cores: Cores, m: Message)
    requires At(run, cores) && m in Moment(run).messages && m.AppendReply? && m.from in cores && m.to in cores
    requires m.from != m.to && cores[m.to].role == Leader && m.answer.term == cores[m.to].term && !m.answer.success
    ensures m.from in cores[m.to].nextIndex
    ensures At(run + [Deliver(m)], cores[m.to := RecordReject(cores[m.to], m.from)])
    ensures m in Moment(run + [Deliver(m)]).messages
  {
    hide Valid, RecordReject, After, ProgressOk, AdvanceCommit, RecordMatch;
    var s := Moment(run).nodes[m.to];
    assert Valid(s);
    ValidProgress(s);
    ProgressCovers(s, m.from);
    StepAt(run, cores, Deliver(m), RecordReject(cores[m.to], m.from));
  }

  lemma HeartbeatAt(run: seq<Step>, cores: Cores, n: NodeId, p: NodeId)
    requires At(run, cores) && n in cores && p in cores && p != n && cores[n].role == Leader
    ensures At(run + [Heartbeat(n)], cores) && Moment(run).messages <= Moment(run + [Heartbeat(n)]).messages
    ensures p in cores[n].nextIndex && 1 <= cores[n].nextIndex[p] <= |cores[n].log| + 1
    ensures AppendRequest(n, p, MakeAppendRequest(Cfg(n), cores[n], p)) in Moment(run + [Heartbeat(n)]).messages
  {
    hide Valid, AppendActions, MakeAppendRequest, ProgressOk, After;
    var s := Moment(run).nodes[n];
    assert Valid(s);
    ValidProgress(s);
    StepAt(run, cores, Heartbeat(n), cores[n]);
    assert cores[n := cores[n]] == cores;
    assert IsPeer(Cfg(n), p);
    PeerSent(Cfg(n), cores[n], p);
    var a := AppendEntriesAction(p, MakeAppendRequest(Cfg(n), cores[n], p));
    assert AppendRequest(n, a.target, a.request) in Outgoing(QueueHeartbeats(s).state);
  }

  /** A follower without a log takes over all of its leader's. */
  lemma AcceptAt(run: seq<Step>, cores: Cores, m: Message)
    requires At(run, cores) && m in Moment(run).messages && m.AppendRequest? && m.from in cores && m.to in cores
    requires m.append.leaderId == m.from && cores[m.to].term == m.append.term && cores[m.to].role == Follower
    requires cores[m.to].log == [] && m.append.prevLogIndex == 0 && m.append.prevLogTerm == 0
    requires m.append.leaderCommit == 0 && EntriesOk(m.append.entries, m.append.term, 0)
    ensures At(run + [Deliver(m)], cores[m.to := cores[m.to].(log := m.append.entries, leaderId := Some(m.from))])
    ensures Moment(run).messages <= Moment(run + [Deliver(m)]).messages
    ensures AppendReply(m.to, m.from, m.append, AppendEntriesResponse(m.append.term, true, |m.append.entries|))
            in Moment(run + [Deliver(m)]).messages
  {
    hide Valid, Outgoing, EntriesOk, After, HandleAppendEntries;
    var s := Moment(run).nodes[m.to];
    assert Valid(s);
    AcceptedWhole(s, m.append);
    StepAt(run, cores, Deliver(m), cores[m.to].(log := m.append.entries, leaderId := Some(m.from)));
  }

  lemma AcceptedWhole(s: NodeState, append: AppendEntriesRequest)
    requires Valid(s) && s.core.role == Follower && s.core.log == [] && s.core.term == append.term
    requires append.leaderId in s.cfg.members && append.prevLogIndex == 0 && append.prevLogTerm == 0
    requires append.leaderCommit == 0 && EntriesOk(append.entries, append.term, 0)
    ensures s.core.commit <= |s.core.log|
    ensures var o := HandleAppendEntries(s, append);
            && o.state.core == s.core.(log := append.entries, leaderId := Some(append.leaderId))
            && o.reply == Returned(AppendEntriesResponse(append.term, true, |append.entries|))
  {
    hide Valid, EntriesOk;
    ValidProgress(s);
  }

  /** A confirmation of old entries, which commits nothing. */
  lemma ConfirmedAt(run: seq<Step>, cores: Cores, m: Message)
    requires At(run, cores) && m in Moment(run).messages && m.AppendReply? && m.from in cores && m.to in cores
    requires m.from != m.to && cores[m.to].role == Leader && m.answer.term == cores[m.to].term && m.answer.success
    requires m.answer.matchedIndex <= |cores[m.to].log|
    requires forall i :: 0 <= i < |cores[m.to].log| ==> cores[m.to].log[i].term < cores[m.to].term
    ensures m.from in cores[m.to].nextIndex && m.from in cores[m.to].matchIndex
    ensures At(run + [Deliver(m)], cores[m.to := RecordMatch(cores[m.to], m.from, m.answer.matchedIndex)])
    ensures Moment(run).messages <= Moment(run + [Deliver(m)]).messages
  {
    hide Valid, AdvanceCommit, After, RecordMatch, ProgressOk, ReceiveAppendResponse;
    var s := Moment(run).nodes[m.to];
    assert Valid(s);
    ConfirmedCore(s, m.from, m.answer);
    StepAt(run, cores, Deliver(m), RecordMatch(cores[m.to], m.from, m.answer.matchedIndex));
  }

  lemma ConfirmedCore(s: NodeState, follower: NodeId, answer: AppendEntriesResponse)
    requires Valid(s) && s.core.role == Leader && s.cfg.members == TRIO && IsPeer(s.cfg, follower)
    requires answer.term == s.core.term && answer.success && answer.matchedIndex <= |s.core.log|
    requires forall i :: 0 <= i < |s.core.log| ==> s.core.log[i].term < s.core.term
    ensures s.core.commit <= |s.core.log| && ProgressOk(s.cfg, s.core)
    ensures follower in s.core.nextIndex && follower in s.core.matchIndex
    ensures ReceiveAppendResponse(s, follower, answer).state.core == RecordMatch(s.core, follower, answer.matchedIndex)
  {
    hide Valid, AdvanceCommit, Healthy, Advances;
    ValidProgress(s);
    RecordMatchLocal(s, follower, answer.matchedIndex);
    NothingCommitted(s.(core := RecordMatch(s.core, follower, answer.matchedIndex)));
  }

  // ----- a stale rejection -----

  /** a after it won term 1 with c's vote. */
  ghost function First(): Core { Campaigned(START, "a", "c") }

  /** a after it won term 2 with c's vote, holding one entry of term 1. */
  ghost function Second(): Core { Campaigned(AppendEntry(First(), "x"), "a", "c") }

  lemma FirstIs()
    ensures First() == Core(Leader, 1, Some("a"), Some("a"), [], 0, {"a", "c"},
                            map["b" := 1, "c" := 1], map["b" := 0, "c" := 0])
  {
    assert (set m | m in TRIO && m != "a") == {"b", "c"};
    assert {"a"} + {"c"} == {"a", "c"};
  }

  lemma SecondIs()
    ensures Second() == Core(Leader, 2, Some("a"), Some("a"), [LogEntry(1, "x")], 0, {"a", "c"},
                             map["b" := 2, "c" := 2], map["b" := 0, "c" := 0])
  {
    FirstIs();
    assert (set m | m in TRIO && m != "a") == {"b", "c"};
    assert {"a"} + {"c"} == {"a", "c"};
  }

  /** a wins term 1 and appends one entry, which nobody else receives. */
  lemma OneEntry() returns (run: seq<Step>, cores: Cores)
    ensures At(run, cores) && cores.Keys == {"a", "b", "c"}
    ensures cores["a"] == AppendEntry(First(), "x") && cores["b"] == START
    ensures cores["c"] == RaiseTerm(START, 1).(votedFor := Some("a"))
    ensures FirstVote() in Moment(run).messages
  {
    hide At, Moment, Campaigned;
    AtStart();
    FirstIs();
    run, cores := Wins([], map["a" := START, "b" := START, "c" := START], "a", "c");
    RawApplies();
    ClientAt(run, cores, "a", "x");
    run, cores := run + [Client("a", "x")], cores["a" := AppendEntry(cores["a"], "x")];
    AtNames(run, cores);
  }

  /** c's vote for a in term 1. */
  ghost function FirstVote(): Message {
    VoteReply("c", "a", RequestVoteRequest(1, "a", 0, 0), RequestVoteResponse(1, true))
  }

  lemma RawApplies()
    ensures Applicable("x")
  {
    assert "x"[0] != SET[0] && "x"[0] != DELETE[0];
  }

  /** a wins term 2, b refuses its first request, and the refusal counts once. */
  lemma OneRefusal() returns (run: seq<Step>, cores: Cores, refusal: Message)
    ensures At(run, cores) && cores.Keys == {"a", "b", "c"}
    ensures cores["a"] == Second().(nextIndex := map["b" := 1, "c" := 2])
    ensures cores["b"] == RaiseTerm(START, 2).(leaderId := Some("a"))
    ensures refusal in Moment(run).messages && refusal.AppendReply? && refusal.from == "b" && refusal.to == "a"
    ensures refusal.answer == AppendEntriesResponse(2, false, 0)
  {
    hide At, Moment, Campaigned, Won;
    run, cores := OneEntry();
    FirstIs();
    SecondIs();
    run, cores := Wins(run, cores, "a", "c");
    assert IsPeer(Cfg("a"), "b");
    var request := AppendRequest("a", "b", MakeAppendRequest(Cfg("a"), cores["a"], "b"));
    RefuseAt(run, cores, request);
    run, cores := run + [Deliver(request)], cores["b" := RaiseTerm(START, 2).(leaderId := Some("a"))];
    refusal := AppendReply("b", "a", request.append, AppendEntriesResponse(2, false, 0));
    RejectedAt(run, cores, refusal);
    run, cores := run + [Deliver(refusal)], cores["a" := RecordReject(cores["a"], "b")];
    AtNames(run, cores);
  }

  /** Then b accepts, and its success is counted; the same refusal, delivered again, makes
      match_index and next_index meet at a leader of a real run. */
  lemma StaleRejectionCrosses() returns (run: seq<Step>)
    ensures RosterOk(TRIO) && IsLeader(After(TRIO, {}, run), "a", 2)
    ensures var core := After(TRIO, {}, run).nodes["a"].core;
            && "b" in core.matchIndex && "b" in core.nextIndex
            && core.matchIndex["b"] == 1 == core.nextIndex["b"]
  {
    hide At, Moment, Campaigned, Won, MakeAppendRequest, RecordMatch, RecordReject, RaiseTerm, EntriesOk;
    TrioOk();
    CrossingIs();
    var cores: Cores, refusal: Message;
    run, cores, refusal := OneRefusal();
    HeartbeatAt(run, cores, "a", "b");
    run := run + [Heartbeat("a")];
    var request := AppendRequest("a", "b", MakeAppendRequest(Cfg("a"), cores["a"], "b"));
    AcceptAt(run, cores, request);
    var stored := cores["b"].(log := request.append.entries, leaderId := Some("a"));
    run, cores := run + [Deliver(request)], cores["b" := stored];
    var success := AppendReply("b", "a", request.append, AppendEntriesResponse(2, true, 1));
    ConfirmedAt(run, cores, success);
    run, cores := run + [Deliver(success)], cores["a" := RecordMatch(cores["a"], "b", 1)];
    RejectedAt(run, cores, refusal);
    run, cores := run + [Deliver(refusal)], cores["a" := RecordReject(cores["a"], "b")];
    CoreAt(run, cores, "a");
  }

  /** The steps from one refusal to the meeting of the two indexes, as values. */
  lemma CrossingIs()
    ensures var core := Second().(nextIndex := map["b" := 1, "c" := 2]);
            && core.role == Leader && core.term == 2 && core.log == [LogEntry(1, "x")]
            && "b" in core.nextIndex && 1 <= core.nextIndex["b"] <= |core.log| + 1
            && MakeAppendRequest(Cfg("a"), core, "b") == AppendEntriesRequest(2, "a", 0, 0, [LogEntry(1, "x")], 0)
            && "b" in core.matchIndex
            && var matched := RecordMatch(core, "b", 1);
            && matched.role == Leader && matched.term == 2 && "b" in matched.nextIndex
            && var crossed := RecordReject(matched, "b");
            && crossed.role == Leader && crossed.term == 2 && "b" in crossed.nextIndex && "b" in crossed.matchIndex
            && crossed.nextIndex["b"] == 1 == crossed.matchIndex["b"]
    ensures EntriesOk([LogEntry(1, "x")], 2, 0)
    ensures RaiseTerm(START, 2) == START.(term := 2)
  {
    SecondIs();
  }

  lemma CoreAt(run: seq<Step>, cores: Cores, n: NodeId)
    requires At(run, cores) && n in cores
    ensures Moment(run).nodes.Keys == cores.Keys == {"a", "b", "c"} && Moment(run).nodes[n].core == cores[n]
    ensures RosterOk(TRIO) && Moment(run) == After(TRIO, {}, run)
  {
    TrioOk();
  }

  // ----- a vote refused after it was given -----

  /** c has voted for a, and then stored a's first entry: the same request, delivered again in the
      same term, is refused, since c's log is now ahead of it. */
  lemma GrantedVoteRefused() returns (run: seq<Step>, m: Message)
    ensures RosterOk(TRIO) && m in After(TRIO, {}, run).messages && m.VoteReply? && m.vote.voteGranted
    ensures m.from in After(TRIO, {}, run).nodes
    ensures var s := After(TRIO, {}, run).nodes[m.from];
            && s.core.term == m.vote.term && s.core.votedFor == Some(m.to)
            && HandleRequestVote(s, m.ask).reply == Returned(RequestVoteResponse(m.vote.term, false))
  {
    hide At, Moment, Campaigned, HandleRequestVote, MakeAppendRequest, RaiseTerm;
    TrioOk();
    var cores: Cores;
    run, cores := OneEntry();
    m := FirstVote();
    FirstRequestIs();
    HeartbeatAt(run, cores, "a", "c");
    run := run + [Heartbeat("a")];
    var request := AppendRequest("a", "c", MakeAppendRequest(Cfg("a"), cores["a"], "c"));
    AcceptAt(run, cores, request);
    var stored := cores["c"].(log := request.append.entries, leaderId := Some("a"));
    run, cores := run + [Deliver(request)], cores["c" := stored];
    CoreAt(run, cores, "c");
    SameVoteRefused(After(TRIO, {}, run).nodes["c"]);
  }

  lemma FirstRequestIs()
    ensures First().role == Leader && "c" in First().nextIndex && First().nextIndex["c"] == 1
    ensures MakeAppendRequest(Cfg("a"), AppendEntry(First(), "x"), "c") ==
            AppendEntriesRequest(1, "a", 0, 0, [LogEntry(1, "x")], 0)
    ensures EntriesOk([LogEntry(1, "x")], 1, 0)
    ensures RaiseTerm(START, 1) == START.(term := 1)
  {
    FirstIs();
  }

  lemma SameVoteRefused(s: NodeState)
    requires s.core.term == 1 && s.core.votedFor == Some("a") && s.core.log == [LogEntry(1, "x")]
    ensures HandleRequestVote(s, FirstVote().ask).reply == Returned(RequestVoteResponse(1, false))
  {
  }

  // ----- a longer log -----

  /** b wins term 2 without ever having seen a's entry: a's log extends that of b, no node is of
      a newer term, and catching up with as many rounds as the largest next_index succeeds and
      leaves the two logs different. */
  lemma LongerLogStays() returns (run: seq<Step>)
    ensures RosterOk(TRIO)
    ensures var c := After(TRIO, {}, run);
            && IsLeader(c, "b", 2) && NoneHigher(c, 2) && "a" in c.nodes
            && (forall f :: f in c.nodes["b"].core.nextIndex ==> c.nodes["b"].core.nextIndex[f] <= 1)
            && c.nodes["b"].core.log < c.nodes["a"].core.log
            && var (c', caughtUp) := Replicate(c, "b", 1);
            && caughtUp && "a" in c'.nodes && "b" in c'.nodes
            && c'.nodes["a"].core.log == c.nodes["a"].core.log != c'.nodes["b"].core.log
  {
    hide At, Moment, Campaigned, Won, Replicate;
    TrioOk();
    FirstIs();
    var cores: Cores;
    run, cores := OneEntry();
    CampaignAt(run, cores, "b", "c");
    run, cores := run + [Campaign("b")], cores["b" := CampaignCore(cores["b"], "b")];
    run, cores := Wins(run, cores, "b", "c");
    CoreAt(run, cores, "a");
    CoreAt(run, cores, "b");
    CoreAt(run, cores, "c");
    ThirdIs(cores["b"]);
    EnoughRounds(TRIO, {}, run, "b", 2, 1);
    CatchUp(TRIO, {}, run, "b", 2, 1);
  }

  lemma ThirdIs(core: Core)
    requires core == Campaigned(CampaignCore(START, "b"), "b", "c")
    ensures core.role == Leader && core.term == 2 && core.log == []
    ensures forall f :: f in core.nextIndex ==> core.nextIndex[f] == 1
  {
  }
}
