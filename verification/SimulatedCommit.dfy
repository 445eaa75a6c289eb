/** What a caught-up cluster agrees on under reliable delivery: the leader has committed its
    whole log, and after one more round of heartbeats everybody has, and has applied it
    (src/in_memory_cluster.cpp:123-203). */
module RaftSimulatedCommit {
  import opened RaftTypes
  import opened RaftNode
  import opened RaftProtocol
  import opened RaftSafety
  import opened RaftLocal
  import opened RaftCalls
  import opened RaftCluster
  import opened RaftTheorems
  import opened RaftSimulation
  import opened RaftCommitment

  // ----- promptness through rounds -----

  lemma ExchangePrompt(c: Cluster, m: Message)
    requires AllValid(c) && AllPrompt(c)
    ensures AllPrompt(Exchange(c, m))
  {
    hide AllPrompt, Next, Enabled, AnswerTo;
    StepPrompt(c, Deliver(m));
    StepPrompt(Next(c, Deliver(m)), Deliver(AnswerTo(c, m)));
  }

  lemma {:induction false} DeliverAllPrompt(c: Cluster, q: seq<Message>)
    requires AllValid(c) && AllPrompt(c)
    ensures AllPrompt(DeliverAll(c, q))
  {
    hide AllPrompt, Exchange;
    if q != [] {
      DeliverAllPrompt(c, q[..|q| - 1]);
      ExchangePrompt(DeliverAll(c, q[..|q| - 1]), q[|q| - 1]);
    }
  }

  lemma RoundPrompt(c: Cluster, l: NodeId)
    requires AllValid(c) && AllPrompt(c) && l in c.nodes
    ensures AllPrompt(HeartbeatRound(c, l))
  {
    hide AllPrompt, Next, DeliverAll, Enabled;
    var c1 := Next(c, Heartbeat(l));
    StepPrompt(c, Heartbeat(l));
    StepPrompt(c1, AppendsTaken(l));
    DeliverAllPrompt(Next(c1, AppendsTaken(l)), AppendMessages(c1.nodes[l]));
  }

  lemma {:induction false} RoundsPrompt(c: Cluster, l: NodeId, rounds: nat)
    requires AllValid(c) && AllPrompt(c) && l in c.nodes
    ensures AllPrompt(Rounds(c, l, rounds).0)
    decreases rounds
  {
    hide AllPrompt, HeartbeatRound, AllCaughtUp;
    if rounds > 0 {
      RoundPrompt(c, l);
      RoundsPrompt(HeartbeatRound(c, l), l, rounds - 1);
    }
  }

  // ----- the leader has committed what everyone stores -----

  lemma {:induction false} EveryoneConfirmed(matchIndex: map<NodeId, nat>, nodes: seq<NodeId>, index: nat)
    requires forall f :: f in nodes ==> f in matchIndex && index <= matchIndex[f]
    ensures Confirmed(matchIndex, nodes, index) == |nodes|
  {
    if nodes != [] {
      var front := nodes[..|nodes| - 1];
      assert forall f :: f in front ==> f in nodes;
      EveryoneConfirmed(matchIndex, front, index);
    }
  }

  lemma CaughtUpCommitted(s: NodeState)
    requires Valid(s) && Prompt(s) && s.core.role == Leader && AllCaughtUp(s)
    requires s.core.log != [] && LastTerm(s.core.log) == s.core.term
    ensures s.core.commit == |s.core.log|
  {
    hide LogOk, Applied;
    var peers := Peers(s.cfg.members, s.cfg.id);
    PeersCount(s.cfg.members, s.cfg.id);
    forall f | f in peers ensures f in s.core.matchIndex && |s.core.log| <= s.core.matchIndex[f] {
      assert IsPeer(s.cfg, f);
      assert CaughtUp(s.core, f);
    }
    EveryoneConfirmed(s.core.matchIndex, peers, |s.core.log|);
    assert Committable(s.cfg, s.core, |s.core.log|);
  }

  // ----- one more round -----

  lemma AcceptedCommit(s: NodeState, append: AppendEntriesRequest)
    requires Valid(s) && s.core.term <= append.term && append.leaderId in s.cfg.members
    requires HandleAppendEntries(s, append).reply.Returned? && HandleAppendEntries(s, append).reply.value.success
    ensures Min(append.leaderCommit, append.prevLogIndex + |append.entries|)
            <= HandleAppendEntries(s, append).state.core.commit
  {
    hide ReplacesCommitted, Merged, EntriesOk, PreviousMatches, ApplyCommitted, LogOk, Applied;
    FollowLeaderLocal(s, append);
    var s1 := FollowLeader(s, append);
    if && PreviousMatches(s1.core.log, append.prevLogIndex, append.prevLogTerm)
       && EntriesOk(append.entries, append.term, append.prevLogTerm)
       && !ReplacesCommitted(s1.core.log, s1.core.commit, append.prevLogIndex, append.entries)
    {
      PreviousInLog(s1.core.log, append.prevLogIndex, append.prevLogTerm);
      AcceptEntriesShape(s1, append);
    }
  }

  /** A follower whose log starts with the leader's accepts whatever the leader sends now. */
  lemma PrefixAccepted(c: Cluster, members: seq<NodeId>, durable: set<NodeId>, h: History, m: Message)
    requires ClusterInv(c, members, durable, h) && Deliverable(c, m) && m.AppendRequest?
    requires IsLeader(c, m.from, m.append.term) && c.nodes[m.to].core.term <= m.append.term
    requires c.nodes[m.from].core.log <= c.nodes[m.to].core.log
    ensures Valid(c.nodes[m.to]) && HandleAppendEntries(c.nodes[m.to], m.append).reply.Returned?
    ensures HandleAppendEntries(c.nodes[m.to], m.append).reply.value.success
  {
    hide Keeps, Inv, HandleAppendEntries, CommittedLog, Sourced, KeptByNode;
    SentOk(c, members, durable, h, m);
    ActorPlaced(c, members, durable, h, m.to);
    NodeAt(c, members, durable, h, m.from);
    ValidAt(c, m.to);
    var h1 := HandleAppendEntriesCall(View(c), h, c.nodes[m.to], m);
  }

  lemma CommitExchange(c: Cluster, members: seq<NodeId>, durable: set<NodeId>, h: History, m: Message)
    returns (h': History)
    requires ClusterInv(c, members, durable, h) && Deliverable(c, m) && m.AppendRequest?
    requires IsLeader(c, m.from, m.append.term) && c.nodes[m.to].core.term <= m.append.term
    requires Fresh(c.nodes[m.from].core, m.to, m.append)
    requires m.append.leaderCommit == |c.nodes[m.from].core.log|
    requires c.nodes[m.from].core.log <= c.nodes[m.to].core.log
    ensures ClusterInv(Exchange(c, m), members, durable, h')
    ensures Dealt(c, Exchange(c, m), m.from, m.append.term, {m.to})
    ensures |c.nodes[m.from].core.log| <= Exchange(c, m).nodes[m.to].core.commit
  {
    hide ClusterInv, Valid, Next, HandleAppendEntries, Dealt, Exchange, Later;
    var h1 := ExchangeInv(c, members, durable, h, m);
    h' := AppendExchange(c, members, durable, h, m);
    SentFacts(c, members, durable, h, m);
    PrefixAccepted(c, members, durable, h, m);
    AcceptedCommit(c.nodes[m.to], m.append);
  }

  /** A queue that tells everyone that the whole log is committed. */
  ghost predicate CommitQueue(c: Cluster, l: NodeId, q: seq<Message>) {
    && RoundQueue(c, l, q)
    && (forall m :: m in q && m.AppendRequest? ==> m.append.leaderCommit == |c.nodes[l].core.log|)
    && (forall f :: f in c.nodes ==> c.nodes[l].core.log <= c.nodes[f].core.log)
  }

  ghost predicate CommittedAt(c: Cluster, nodes: set<NodeId>, n: nat) {
    forall f :: f in nodes ==> f in c.nodes && n <= c.nodes[f].core.commit
  }

  lemma CommitQueueFront(c: Cluster, l: NodeId, term: nat, q: seq<Message>)
    requires CommitQueue(c, l, q) && NoneOf(c, Targets(q), term) && q != []
    ensures CommitQueue(c, l, q[..|q| - 1]) && NoneOf(c, Targets(q[..|q| - 1]), term)
    ensures Targets(q) == Targets(q[..|q| - 1]) + {q[|q| - 1].to}
    ensures q[|q| - 1].to !in Targets(q[..|q| - 1]) && l !in Targets(q[..|q| - 1])
    ensures var m := q[|q| - 1];
            && l in c.nodes && m.to in c.nodes && m.AppendRequest? && m.from == l
            && Deliverable(c, m) && c.nodes[m.to].core.term <= term
            && Fresh(c.nodes[l].core, m.to, m.append) && m.append.leaderCommit == |c.nodes[l].core.log|
            && c.nodes[l].core.log <= c.nodes[m.to].core.log
  {
    hide Fresh;
    var front := q[..|q| - 1];
    RoundQueueFront(c, l, q);
    forall m | m in front ensures m in q && m.to != l {
      assert m in q && Deliverable(c, m);
    }
    assert q[|q| - 1] in q;
  }

  lemma {:induction false} CommitAll(c: Cluster, members: seq<NodeId>, durable: set<NodeId>, h: History,
                                     l: NodeId, term: nat, q: seq<Message>)
    returns (h': History)
    requires ClusterInv(c, members, durable, h) && AllValid(c) && IsLeader(c, l, term)
    requires CommitQueue(c, l, q) && NoneOf(c, Targets(q), term)
    ensures ClusterInv(DeliverAll(c, q), members, durable, h')
    ensures Dealt(c, DeliverAll(c, q), l, term, Targets(q))
    ensures CommittedAt(DeliverAll(c, q), Targets(q), |c.nodes[l].core.log|)
  {
    hide ClusterInv, Exchange, Dealt, Fresh, Valid, Deliverable, CommitQueue, NoneOf;
    if q == [] {
      h' := h;
      assert Targets(q) == {};
      DealtNone(c, members, durable, h, l, term);
      assert CommittedAt(c, {}, |c.nodes[l].core.log|);
    } else {
      var front, m := q[..|q| - 1], q[|q| - 1];
      CommitQueueFront(c, l, term, q);
      var h1 := CommitAll(c, members, durable, h, l, term, front);
      h' := CommitStep(c, DeliverAll(c, front), members, durable, h1, l, term, Targets(front), m);
    }
  }

  lemma CommitStep(c0: Cluster, c: Cluster, members: seq<NodeId>, durable: set<NodeId>, h: History,
                   l: NodeId, term: nat, done: set<NodeId>, m: Message)
    returns (h': History)
    requires ClusterInv(c, members, durable, h) && AllValid(c) && c.messages >= c0.messages && Deliverable(c0, m)
    requires m.AppendRequest? && m.from == l && m.to !in done && c0.nodes[m.to].core.term <= term
    requires Dealt(c0, c, l, term, done) && Fresh(c0.nodes[l].core, m.to, m.append)
    requires m.append.leaderCommit == |c0.nodes[l].core.log| && c0.nodes[l].core.log <= c0.nodes[m.to].core.log
    requires CommittedAt(c, done, |c0.nodes[l].core.log|)
    requires l !in done
    ensures ClusterInv(Exchange(c, m), members, durable, h')
    ensures Dealt(c0, Exchange(c, m), l, term, done + {m.to})
    ensures CommittedAt(Exchange(c, m), done + {m.to}, |c0.nodes[l].core.log|)
  {
    hide ClusterInv, Exchange, Moved, SameProgress, Valid;
    assert m.append.term == term;
    FreshStill(c0.nodes[l].core, c.nodes[l].core, m.to, m.append);
    h' := CommitExchange(c, members, durable, h, m);
    DealtTrans(c0, c, Exchange(c, m), l, term, done, m.to);
    forall f | f in done + {m.to}
      ensures f in Exchange(c, m).nodes && |c0.nodes[l].core.log| <= Exchange(c, m).nodes[f].core.commit
    {
      assert f in {m.to} || f !in {m.to};
    }
  }

  lemma QueuedCommit(s: NodeState)
    requires Queued(s)
    ensures forall m :: m in AppendMessages(s) && m.AppendRequest? ==> m.append.leaderCommit == s.core.commit
  {
    var q := AppendMessages(s);
    forall i | 0 <= i < |q| ensures q[i].AppendRequest? && q[i].append.leaderCommit == s.core.commit {
      QueuedAt(s, i);
    }
  }

  /** A round of a leader that has committed its whole log, which everyone stores. */
  lemma CommitRound(c: Cluster, members: seq<NodeId>, durable: set<NodeId>, h: History, l: NodeId, term: nat)
    returns (h': History)
    requires ClusterInv(c, members, durable, h) && AllValid(c) && IsLeader(c, l, term) && NoneHigher(c, term)
    requires c.nodes[l].core.commit == |c.nodes[l].core.log|
    requires forall f :: f in c.nodes ==> c.nodes[l].core.log <= c.nodes[f].core.log
    ensures ClusterInv(HeartbeatRound(c, l), members, durable, h')
    ensures Dealt(c, HeartbeatRound(c, l), l, term, c.nodes.Keys - {l})
    ensures CommittedAt(HeartbeatRound(c, l), c.nodes.Keys - {l}, |c.nodes[l].core.log|)
  {
    hide ClusterInv, Next, DeliverAll, AppendMessages, AppendActions, Valid, ProgressOk, Dealt, RoundQueue,
         NoneOf, CommittedAt;
    ValidAt(c, l);
    ValidProgress(c.nodes[l]);
    var c1 := Next(c, Heartbeat(l));
    var h1 := OwnStepInv(c, members, durable, h, Heartbeat(l));
    var c2, q := Next(c1, AppendsTaken(l)), AppendMessages(c1.nodes[l]);
    var h2 := OwnStepInv(c1, members, durable, h1, AppendsTaken(l));
    QueueTaken(c1, members, durable, h1, l, term);
    QueuedCommit(c1.nodes[l]);
    assert c2.nodes == c.nodes[l := c2.nodes[l]] && c2.nodes[l].core == c.nodes[l].core;
    assert c1.nodes.Keys == c.nodes.Keys && c2.nodes.Keys == c.nodes.Keys;
    assert CommitQueue(c2, l, q);
    NoneOfOthers(c, c2, l, term);
    h' := CommitAll(c2, members, durable, h2, l, term, q);
    DealtBefore(c, c2, HeartbeatRound(c, l), l, term, c.nodes.Keys - {l});
  }

  // ----- agreement -----

  lemma StillCaughtUp(c: Cluster, c': Cluster, members: seq<NodeId>, durable: set<NodeId>, h: History,
                      l: NodeId, term: nat)
    requires ClusterInv(c, members, durable, h) && Dealt(c, c', l, term, c.nodes.Keys - {l})
    requires AllCaughtUp(c.nodes[l])
    ensures AllCaughtUp(c'.nodes[l])
  {
    hide ClusterInv;
    ConfigAt(c, members, durable, h, l);
    forall f | IsPeer(c.nodes[l].cfg, f) ensures CaughtUp(c'.nodes[l].core, f) {
      assert f in c.nodes.Keys - {l};
      assert CaughtUp(c.nodes[l].core, f);
      assert Moved(c.nodes[l].core, c'.nodes[l].core, f, c.nodes[f].core.log, c'.nodes[f].core.log);
    }
  }

  /** A follower in the leader's term that has committed as many entries as the leader's log
      has, has committed and applied exactly that log. */
  lemma SameMachine(c: Cluster, members: seq<NodeId>, durable: set<NodeId>, h: History, l: NodeId, term: nat, f: NodeId)
    requires ClusterInv(c, members, durable, h) && IsLeader(c, l, term) && f in c.nodes
    requires c.nodes[f].core.term == term && c.nodes[l].core.commit == |c.nodes[l].core.log|
    requires |c.nodes[l].core.log| <= c.nodes[f].core.commit
    ensures c.nodes[f].core.commit == |c.nodes[l].core.log| && c.nodes[l].core.log <= c.nodes[f].core.log
    ensures c.nodes[f].machine == c.nodes[l].machine
    ensures c.nodes[f].machine.journal == Commands(c.nodes[l].core.log)
  {
    hide ClusterInv, LogOk, Sourced, KeptByNode, CommittedLog, GoodCommands;
    NodeAt(c, members, durable, h, l);
    NodeAt(c, members, durable, h, f);
    var core, log := c.nodes[f].core, c.nodes[l].core.log;
    CommittedInLeader(h, core.log[..core.commit], term, term);
    assert core.log[..core.commit] == log;
    assert log[..|log|] == log;
    MachineDetermined(core, c.nodes[f].machine, c.nodes[l].core, c.nodes[l].machine);
  }

  /** Everybody's commit index, committed entries, journal and map are the leader's. */
  ghost predicate Agreed(c: Cluster, l: NodeId, log: seq<LogEntry>) {
    forall f :: f in c.nodes ==>
      && l in c.nodes
      && c.nodes[f].core.commit == |log| && log <= c.nodes[f].core.log
      && c.nodes[f].machine.journal == Commands(log)
      && c.nodes[f].machine == c.nodes[l].machine
  }

  lemma AgreedAfterRound(c: Cluster, members: seq<NodeId>, durable: set<NodeId>, h: History, l: NodeId, term: nat)
    requires ClusterInv(c, members, durable, h) && AllValid(c) && AllPrompt(c)
    requires IsLeader(c, l, term) && NoneHigher(c, term) && AllCaughtUp(c.nodes[l])
    requires c.nodes[l].core.log != [] && LastTerm(c.nodes[l].core.log) == term
    ensures IsLeader(HeartbeatRound(c, l), l, term)
    ensures Agreed(HeartbeatRound(c, l), l, c.nodes[l].core.log)
  {
    hide ClusterInv, HeartbeatRound, AllCaughtUp, Valid, Prompt;
    ValidAt(c, l);
    CaughtUpCommitted(c.nodes[l]);
    forall f | f in c.nodes ensures c.nodes[l].core.log <= c.nodes[f].core.log {
      CaughtUpHolds(c, members, durable, h, l, term, f);
    }
    var h' := CommitRound(c, members, durable, h, l, term);
    var c' := HeartbeatRound(c, l);
    RoundPrompt(c, l);
    StillCaughtUp(c, c', members, durable, h, l, term);
    ValidAt(c', l);
    CaughtUpCommitted(c'.nodes[l]);
    forall f | f in c'.nodes
      ensures c'.nodes[f].core.term == term && |c'.nodes[l].core.log| <= c'.nodes[f].core.commit
    {
      if f != l { assert f in c.nodes.Keys - {l}; }
    }
    forall f | f in c'.nodes
      ensures c'.nodes[f].core.commit == |c'.nodes[l].core.log| && c'.nodes[l].core.log <= c'.nodes[f].core.log
      ensures c'.nodes[f].machine.journal == Commands(c'.nodes[l].core.log)
      ensures c'.nodes[f].machine == c'.nodes[l].machine
    {
      SameMachine(c', members, durable, h', l, term, f);
    }
  }

  /** A leader whose last entry is of its own term, when no node is of a newer one: once
      replicate_until_caught_up has returned true, with however many rounds, and after one more
      round of heartbeats, every node has committed and applied exactly the leader's log, and holds
      the same map. */
  lemma EveryoneApplies(members: seq<NodeId>, durable: set<NodeId>, run: seq<Step>, l: NodeId, term: nat, rounds: nat)
    requires RosterOk(members)
    requires IsLeader(After(members, durable, run), l, term) && NoneHigher(After(members, durable, run), term)
    requires var core := After(members, durable, run).nodes[l].core;
             core.log != [] && LastTerm(core.log) == term
    requires Replicate(After(members, durable, run), l, rounds).1
    ensures var c := After(members, durable, run);
            var c' := HeartbeatRound(Replicate(c, l, rounds).0, l);
            IsLeader(c', l, term) && Agreed(c', l, c.nodes[l].core.log)
  {
    hide After, ClusterInv, AllCaughtUp, NoneHigher, Within, Valid, AllPrompt, Replicate, HeartbeatRound, Agreed;
    var c := After(members, durable, run);
    var h := RunInv(members, durable, run);
    RunPrompt(members, durable, run);
    var h' := ReplicateResult(c, members, durable, h, l, term, rounds);
    ReplicatePrompt(c, l, rounds);
    AgreedAfterRound(Replicate(c, l, rounds).0, members, durable, h', l, term);
  }

  lemma ReplicatePrompt(c: Cluster, l: NodeId, rounds: nat)
    requires AllValid(c) && AllPrompt(c) && l in c.nodes
    ensures AllPrompt(Replicate(c, l, rounds).0)
  {
    hide AllPrompt, Rounds;
    RoundsPrompt(c, l, rounds);
  }
}
