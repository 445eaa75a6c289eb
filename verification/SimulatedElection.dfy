/** An election under reliable, immediate delivery, from any reachable cluster: it is won exactly
    by a candidate that no node's term exceeds and that a majority may vote for, and then everyone
    follows the winner (src/in_memory_cluster.cpp:71-121, src/in_memory_cluster.cpp:178-203). */
module RaftSimulatedElection {
  import opened RaftTypes
  import opened RaftNode
  import opened RaftProtocol
  import opened RaftSteps
  import opened RaftLocal
  import opened RaftCalls
  import opened RaftCluster
  import opened RaftTheorems
  import opened RaftSimulation
  import opened RaftHandlers

  // ----- one vote -----

  /** What being asked makes of a voter: it is in the later of the two terms, and a follower if
      that is new to it. */
  ghost predicate Asked(s: NodeState, s': NodeState, term: nat) {
    && s'.cfg == s.cfg && s'.core.log == s.core.log
    && s'.core.term == Max(s.core.term, term)
    && s'.core.role == if s.core.term < term then Follower else s.core.role
  }

  lemma VoteGiven(s: NodeState, ask: RequestVoteRequest)
    requires Valid(s) && ask.candidateId in s.cfg.members
    ensures var o := HandleRequestVote(s, ask);
            && o.reply.value == RequestVoteResponse(Max(s.core.term, ask.term), GivesVote(s, ask))
            && Asked(s, o.state, ask.term)
  {
    hide Valid, HandleRequestVote, NotBehind;
    VoteRequestHandled(s, ask);
  }

  /** Where a node of that identity stands with these votes: leader with a queue of fresh
      requests once they are a majority, candidate until then. */
  ghost predicate Standing(s: NodeState, votes: set<NodeId>) {
    if Majority(s.cfg.members) <= |votes| then s.core.leaderId == Some(s.cfg.id) && Queued(s)
    else s.core.role == Candidate && s.core.votes == votes
  }

  /** Counting the answer of one more voter. */
  lemma VoteCounted(s: NodeState, votes: set<NodeId>, voter: NodeId, response: RequestVoteResponse)
    requires Standing(s, votes) && voter in s.cfg.members && response.term == s.core.term
    ensures var s' := ReceiveVote(s, voter, response).state;
            && s'.cfg == s.cfg && s'.core.term == s.core.term && s'.core.log == s.core.log
            && Standing(s', if response.voteGranted then votes + {voter} else votes)
  {
    hide AppendActions, ProgressOk, Crown;
    Supersize(votes, voter);
    var s1 := s.(core := s.core.(votes := s.core.votes + {voter}));
    CrownProgress(s.cfg, s1.core);
    CrownMeaning(s.cfg, s1.core);
  }

  /** An answer of a newer term ends a candidacy, and a reign. */
  lemma VoteDeposes(s: NodeState, voter: NodeId, response: RequestVoteResponse)
    requires Valid(s) && voter in s.cfg.members && s.core.term < response.term
    ensures var s' := ReceiveVote(s, voter, response).state;
            && s'.cfg == s.cfg && s'.core.term == response.term && s'.core.log == s.core.log
            && s'.core.role == Follower && s'.core.leaderId == None
  {
    hide Valid, ReceiveVote, TookOffice;
    VoteReplyHandled(s, voter, response);
  }

  lemma VoteIgnored(s: NodeState, voter: NodeId, response: RequestVoteResponse)
    requires Valid(s) && voter in s.cfg.members && s.core.role == Follower && response.term <= s.core.term
    ensures ReceiveVote(s, voter, response).state == s
  {
    hide Valid, ReceiveVote, TookOffice;
    VoteReplyHandled(s, voter, response);
  }

  lemma Supersize(votes: set<NodeId>, voter: NodeId)
    ensures |votes| <= |votes + {voter}|
  {
    if voter in votes { assert votes + {voter} == votes; }
  }

  lemma CrownMeaning(cfg: Config, core: Core)
    ensures Crown(cfg, core).role == Leader && Crown(cfg, core).leaderId == Some(cfg.id)
    ensures Crown(cfg, core).term == core.term && Crown(cfg, core).log == core.log
  {
  }

  // ----- the poll -----

  /** What n asks for when it campaigns from c. */
  ghost function Asking(c: Cluster, n: NodeId): RequestVoteRequest
    requires n in c.nodes
  {
    RequestVoteRequest(c.nodes[n].core.term + 1, n, |c.nodes[n].core.log|, LastTerm(c.nodes[n].core.log))
  }

  /** The members that grant `ask`, and the candidate itself. */
  ghost function Supporters(c: Cluster, n: NodeId, ask: RequestVoteRequest): set<NodeId> {
    set f | f in c.nodes && (f == n || GivesVote(c.nodes[f], ask))
  }

  /** From c to c' candidate n has asked the voters in `done`, and nobody else. */
  ghost predicate Polled(c: Cluster, c': Cluster, n: NodeId, ask: RequestVoteRequest, done: set<NodeId>) {
    && n in c.nodes && c'.nodes.Keys == c.nodes.Keys
    && c'.nodes[n].cfg == c.nodes[n].cfg && c'.nodes[n].core.log == c.nodes[n].core.log
    && (if NoneOf(c, done, ask.term) then
          c'.nodes[n].core.term == ask.term && Standing(c'.nodes[n], Supporters(c, n, ask) * (done + {n}))
        else Overtaken(c, c'.nodes[n].core, ask.term, done))
    && (forall f {:trigger f in done} :: f in c.nodes && f != n ==>
          if f in done then Asked(c.nodes[f], c'.nodes[f], ask.term) else c'.nodes[f] == c.nodes[f])
  }

  /** A vote request of n, to be delivered. */
  ghost predicate Asks(c: Cluster, n: NodeId, ask: RequestVoteRequest, m: Message) {
    && n in c.nodes && Deliverable(c, m) && m.VoteRequest? && m.from == n && m.ask == ask && ask.candidateId == n
  }

  /** What one more answer makes of the candidate. */
  lemma CandidateHears(c0: Cluster, s: NodeState, n: NodeId, ask: RequestVoteRequest, done: set<NodeId>, voter: NodeId,
                       s': NodeState)
    requires Valid(s) && n in c0.nodes && voter in c0.nodes && voter in s.cfg.members && voter !in done && voter != n
    requires if NoneOf(c0, done, ask.term) then
               s.core.term == ask.term && Standing(s, Supporters(c0, n, ask) * (done + {n}))
             else Overtaken(c0, s.core, ask.term, done)
    requires s' == ReceiveVote(s, voter, RequestVoteResponse(
                     Max(c0.nodes[voter].core.term, ask.term), GivesVote(c0.nodes[voter], ask))).state
    ensures s'.cfg == s.cfg && s'.core.log == s.core.log
    ensures if NoneOf(c0, done + {voter}, ask.term) then
              s'.core.term == ask.term && Standing(s', Supporters(c0, n, ask) * (done + {voter} + {n}))
            else Overtaken(c0, s'.core, ask.term, done + {voter})
  {
    hide Valid, Standing, ReceiveVote, GivesVote;
    var heard := c0.nodes[voter].core.term;
    var response := RequestVoteResponse(Max(heard, ask.term), GivesVote(c0.nodes[voter], ask));
    assert NoneOf(c0, done + {voter}, ask.term) <==> NoneOf(c0, done, ask.term) && heard <= ask.term;
    if s.core.term < response.term {
      VoteDeposes(s, voter, response);
    } else if NoneOf(c0, done, ask.term) {
      var votes := Supporters(c0, n, ask) * (done + {n});
      VoteCounted(s, votes, voter, response);
      assert Supporters(c0, n, ask) * (done + {voter} + {n}) ==
             if response.voteGranted then votes + {voter} else votes;
    } else {
      VoteIgnored(s, voter, response);
    }
  }

  lemma PollStep(c0: Cluster, c: Cluster, members: seq<NodeId>, durable: set<NodeId>, h: History,
                 n: NodeId, ask: RequestVoteRequest, done: set<NodeId>, m: Message)
    returns (h': History)
    requires ClusterInv(c, members, durable, h) && Polled(c0, c, n, ask, done)
    requires Asks(c0, n, ask, m) && Deliverable(c, m) && m.to !in done
    ensures ClusterInv(Exchange(c, m), members, durable, h')
    ensures Exchange(c, m).messages >= c.messages && Exchange(c, m).nodes.Keys == c.nodes.Keys
    ensures Polled(c0, Exchange(c, m), n, ask, done + {m.to})
  {
    hide ClusterInv, Valid, Next, Later, HandleRequestVote, ReceiveVote, Exchange, Standing, GivesVote, Asked,
         Overtaken, NoneOf, Supporters;
    h' := ExchangeInv(c, members, durable, h, m);
    ConfigAt(c, members, durable, h, n);
    ConfigAt(c, members, durable, h, m.to);
    VoteGiven(c.nodes[m.to], m.ask);
    CandidateHears(c0, c.nodes[n], n, ask, done, m.to, Exchange(c, m).nodes[n]);
    forall k | k in c0.nodes && k != n
      ensures var s := Exchange(c, m).nodes[k];
              if k in done + {m.to} then Asked(c0.nodes[k], s, ask.term) else s == c0.nodes[k]
    {
      assert k in done || k !in done;
    }
  }

  /** A candidate's queue of vote requests, just taken. */
  ghost predicate PollQueue(c: Cluster, n: NodeId, ask: RequestVoteRequest, q: seq<Message>) {
    && (forall m {:trigger Asks(c, n, ask, m)} :: m in q ==> Asks(c, n, ask, m))
    && (forall i, j :: 0 <= i < j < |q| ==> q[i].to != q[j].to)
  }

  lemma PollQueueFront(c: Cluster, n: NodeId, ask: RequestVoteRequest, q: seq<Message>)
    requires PollQueue(c, n, ask, q) && q != []
    ensures q == q[..|q| - 1] + [q[|q| - 1]]
    ensures PollQueue(c, n, ask, q[..|q| - 1])
    ensures Targets(q) == Targets(q[..|q| - 1]) + {q[|q| - 1].to}
    ensures q[|q| - 1].to !in Targets(q[..|q| - 1])
    ensures Asks(c, n, ask, q[|q| - 1])
  {
    var front, m := q[..|q| - 1], q[|q| - 1];
    assert q == front + [m];
    forall x | x in front ensures Asks(c, n, ask, x) {
      assert x in q && Asks(c, n, ask, x);
    }
    assert m in q && Asks(c, n, ask, m);
  }

  lemma {:induction false} PollAll(c: Cluster, members: seq<NodeId>, durable: set<NodeId>, h: History,
                                   n: NodeId, ask: RequestVoteRequest, q: seq<Message>)
    returns (h': History)
    requires ClusterInv(c, members, durable, h) && AllValid(c)
    requires Polled(c, c, n, ask, {}) && PollQueue(c, n, ask, q)
    ensures ClusterInv(DeliverAll(c, q), members, durable, h')
    ensures DeliverAll(c, q).messages >= c.messages && DeliverAll(c, q).nodes.Keys == c.nodes.Keys
    ensures Polled(c, DeliverAll(c, q), n, ask, Targets(q))
  {
    hide ClusterInv, Exchange, Polled, Valid, PollQueue;
    if q == [] {
      h' := h;
      assert Targets(q) == {};
    } else {
      var front, m := q[..|q| - 1], q[|q| - 1];
      PollQueueFront(c, n, ask, q);
      var h1 := PollAll(c, members, durable, h, n, ask, front);
      h' := PollStep(c, DeliverAll(c, front), members, durable, h1, n, ask, Targets(front), m);
    }
  }

  // ----- the whole election -----

  lemma CampaignStarts(s: NodeState, n: NodeId)
    requires Valid(s) && s.cfg.id == n
    ensures var s' := StartElection(s);
            && s'.cfg == s.cfg && s'.core.term == s.core.term + 1 && s'.core.log == s.core.log
            && Standing(s', {n})
            && s'.voteQueue == if Majority(s.cfg.members) <= 1 then [] else VoteActions(s.cfg, s'.core)
  {
    hide AppendActions, ProgressOk, Crown, VoteActions;
    var core := CampaignCore(s.core, n);
    CrownProgress(s.cfg, core);
    CrownMeaning(s.cfg, core);
  }

  /** The requests of a campaign go to every other member, once each. */
  lemma AskedAt(s: NodeState, i: nat)
    requires s.voteQueue == VoteActions(s.cfg, s.core) && i < |VoteMessages(s)|
    ensures |VoteMessages(s)| == |Peers(s.cfg.members, s.cfg.id)|
    ensures var m := VoteMessages(s)[i];
            && m in Outgoing(s) && m.to == Peers(s.cfg.members, s.cfg.id)[i] && IsPeer(s.cfg, m.to)
            && m == VoteRequest(s.cfg.id, m.to, MakeVoteRequest(s.cfg, s.core))
  {
    hide Peers;
    var peers := Peers(s.cfg.members, s.cfg.id);
    assert peers[i] in peers;
    assert IsPeer(s.cfg, peers[i]);
    assert s.voteQueue[i] == RequestVoteAction(peers[i], MakeVoteRequest(s.cfg, s.core));
    assert s.voteQueue[i] in s.voteQueue;
  }

  lemma AskedLength(s: NodeState)
    requires s.voteQueue == VoteActions(s.cfg, s.core)
    ensures |VoteMessages(s)| == |Peers(s.cfg.members, s.cfg.id)|
  {
  }

  lemma AskedMessages(s: NodeState)
    requires s.voteQueue == VoteActions(s.cfg, s.core) && RosterOk(s.cfg.members)
    ensures var q := VoteMessages(s);
            && (forall m :: m in q ==> m in Outgoing(s) && IsPeer(s.cfg, m.to)
                                       && m == VoteRequest(s.cfg.id, m.to, MakeVoteRequest(s.cfg, s.core)))
            && (forall i, j :: 0 <= i < j < |q| ==> q[i].to != q[j].to)
            && (forall f :: f in Targets(q) <==> IsPeer(s.cfg, f))
  {
    hide VoteMessages, VoteActions, Peers, Outgoing;
    var q, peers := VoteMessages(s), Peers(s.cfg.members, s.cfg.id);
    PeersDistinct(s.cfg.members, s.cfg.id);
    PeersAre(s.cfg);
    forall i | 0 <= i < |q|
      ensures |q| == |peers| && q[i].to == peers[i] && q[i] in Outgoing(s) && IsPeer(s.cfg, q[i].to)
              && q[i] == VoteRequest(s.cfg.id, q[i].to, MakeVoteRequest(s.cfg, s.core))
    {
      AskedAt(s, i);
    }
    AskedLength(s);
    forall f | IsPeer(s.cfg, f) ensures f in Targets(q) {
      var i :| 0 <= i < |peers| && peers[i] == f;
      assert q[i] in q;
    }
  }

  /** A candidate polls all other nodes. */
  lemma PollResult(c: Cluster, members: seq<NodeId>, durable: set<NodeId>, h: History, n: NodeId)
    returns (h': History)
    requires ClusterInv(c, members, durable, h) && AllValid(c) && n in c.nodes
    ensures ClusterInv(DeliverVotes(Next(c, Campaign(n)), n), members, durable, h')
    ensures Polled(c, DeliverVotes(Next(c, Campaign(n)), n), n, Asking(c, n), c.nodes.Keys - {n})
  {
    hide ClusterInv, Next, DeliverAll, VoteMessages, VoteActions, Valid, Standing, Outgoing, StartElection, GivesVote,
         Polled, PollQueue, RosterOk, Targets, Asking;
    var s, ask := c.nodes[n], Asking(c, n);
    ConfigAt(c, members, durable, h, n);
    ClusterRoster(c, members, durable, h);
    ValidAt(c, n);
    CampaignStarts(s, n);
    var h1 := OwnStepInv(c, members, durable, h, Campaign(n));
    var c1 := Next(c, Campaign(n));
    var h2 := OwnStepInv(c1, members, durable, h1, VotesTaken(n));
    var c2, q := Next(c1, VotesTaken(n)), VoteMessages(c1.nodes[n]);
    QueuedIsSent(c1, members, durable, h1, n);
    NodesAreMembers(c, members, durable, h);
    PollStart(c, c1, c2, n, members, q);
    h' := PollAll(c2, members, durable, h2, n, ask, q);
    PolledBefore(c, c2, DeliverAll(c2, q), n, ask, Targets(q));
  }

  lemma PollStart(c: Cluster, c1: Cluster, c2: Cluster, n: NodeId, members: seq<NodeId>, q: seq<Message>)
    requires AllValid(c2) && n in c.nodes && RosterOk(members)
    requires forall f :: f in c.nodes <==> f in members
    requires Valid(c.nodes[n]) && c.nodes[n].cfg.id == n && c.nodes[n].cfg.members == members
    requires c1.nodes == c.nodes[n := StartElection(c.nodes[n])]
    requires c2.nodes == c1.nodes[n := TakeVotes(c1.nodes[n])]
    requires Outgoing(c1.nodes[n]) <= c1.messages <= c2.messages
    requires q == VoteMessages(c1.nodes[n])
    ensures PollQueue(c2, n, Asking(c, n), q) && Targets(q) == c.nodes.Keys - {n}
    ensures Polled(c2, c2, n, Asking(c, n), {})
  {
    hide Valid, AllValid, Outgoing, StartElection, VoteActions, Standing, PollQueue, VoteMessages, Polled;
    var s, s1, ask := c.nodes[n], c1.nodes[n], Asking(c, n);
    CampaignStarts(s, n);
    if Majority(members) <= 1 {
      NothingAsked(c2, s1, n, ask);
      assert members == [n];
    } else {
      AskedMessages(s1);
      AllAsked(c2, s1, n, ask, q);
    }
    PolledNone(c2, s1, n, ask);
  }

  lemma PolledNone(c2: Cluster, s1: NodeState, n: NodeId, ask: RequestVoteRequest)
    requires n in c2.nodes && c2.nodes[n] == TakeVotes(s1) && s1.cfg.id == n && Standing(s1, {n})
    requires ask.term == s1.core.term
    ensures Polled(c2, c2, n, ask, {})
  {
    hide GivesVote, Standing;
    assert Supporters(c2, n, ask) * ({} + {n}) == {n};
    StandingStill(s1, {n});
  }

  lemma StandingStill(s: NodeState, votes: set<NodeId>)
    requires Standing(s, votes)
    ensures Standing(TakeVotes(s), votes)
  {
  }

  lemma NothingAsked(c: Cluster, s: NodeState, n: NodeId, ask: RequestVoteRequest)
    requires s.voteQueue == []
    ensures VoteMessages(s) == [] && Targets(VoteMessages(s)) == {} && PollQueue(c, n, ask, VoteMessages(s))
  {
  }

  lemma AllAsked(c2: Cluster, s1: NodeState, n: NodeId, ask: RequestVoteRequest, q: seq<Message>)
    requires AllValid(c2) && n in c2.nodes && c2.nodes[n] == TakeVotes(s1) && s1.cfg.id == n
    requires ask == MakeVoteRequest(s1.cfg, s1.core)
    requires forall m :: m in q ==> m in Outgoing(s1) && IsPeer(s1.cfg, m.to) && m.to in c2.nodes
                                    && m == VoteRequest(n, m.to, MakeVoteRequest(s1.cfg, s1.core))
    requires forall i, j :: 0 <= i < j < |q| ==> q[i].to != q[j].to
    requires Outgoing(s1) <= c2.messages
    ensures PollQueue(c2, n, ask, q)
  {
    hide AllValid, Outgoing;
    forall m | m in q ensures Asks(c2, n, ask, m) {
    }
  }

  lemma PolledBefore(c: Cluster, c2: Cluster, c': Cluster, n: NodeId, ask: RequestVoteRequest, done: set<NodeId>)
    requires n in c.nodes && n in c2.nodes && c2.nodes == c.nodes[n := c2.nodes[n]] && Polled(c2, c', n, ask, done)
    requires c2.nodes[n].cfg == c.nodes[n].cfg && c2.nodes[n].core.log == c.nodes[n].core.log && n !in done
    ensures Polled(c, c', n, ask, done)
  {
    hide Standing, GivesVote, Asked;
    assert c2.nodes.Keys == c.nodes.Keys;
    assert Supporters(c2, n, ask) == Supporters(c, n, ask);
    assert forall f :: f in done && f in c.nodes ==> c2.nodes[f] == c.nodes[f];
    forall f | f in c.nodes && f != n
      ensures if f in done then Asked(c.nodes[f], c'.nodes[f], ask.term) else c'.nodes[f] == c.nodes[f]
    {
      assert f in done || f !in done;
    }
  }

  /** What the candidate and everyone else are after a start_election from c. Unless somebody's
      term exceeds the candidate's new one, the votes of a majority decide; otherwise it ends as a
      follower in the latest term there is. */
  ghost predicate Elected(c: Cluster, c': Cluster, n: NodeId)
    requires n in c.nodes && c'.nodes.Keys == c.nodes.Keys
  {
    var ask := Asking(c, n);
    && c'.nodes[n].core.log == c.nodes[n].core.log
    && (if !NoneHigher(c, ask.term) then
          && Overtaken(c, c'.nodes[n].core, ask.term, c.nodes.Keys)
          && forall f :: f in c.nodes && f != n ==> Asked(c.nodes[f], c'.nodes[f], ask.term)
        else if Majority(c.nodes[n].cfg.members) <= |Supporters(c, n, ask)| then
          && IsLeader(c', n, ask.term)
          && forall f :: f in c.nodes && f != n ==> Follows(c'.nodes[f], n, ask.term)
        else
          && c'.nodes[n].core.role == Candidate && c'.nodes[n].core.term == ask.term
          && c'.nodes[n].core.votes == Supporters(c, n, ask)
          && forall f :: f in c.nodes && f != n ==> Asked(c.nodes[f], c'.nodes[f], ask.term))
  }

  lemma ElectionFrom(c: Cluster, members: seq<NodeId>, durable: set<NodeId>, h: History, n: NodeId)
    requires ClusterInv(c, members, durable, h) && AllValid(c) && n in c.nodes
    ensures Elected(c, RunElection(c, n), n)
  {
    hide ClusterInv, DeliverVotes, DeliverAppends, Valid, AllValid, Next, Polled, Dealt, Supporters, NoneHigher,
         NoneOf, Asked;
    var ask := Asking(c, n);
    var h1 := PollResult(c, members, durable, h, n);
    var c1 := DeliverVotes(Next(c, Campaign(n)), n);
    PollOver(c, c1, n, ask);
    if NoneHigher(c, ask.term) && Majority(c.nodes[n].cfg.members) <= |Supporters(c, n, ask)| {
      var h2 := RoundResult(c1, members, durable, h1, n, ask.term);
      OfficeGained(c1, DeliverAppends(c1, n), n, ask.term);
    }
  }

  /** From any reachable cluster: if no node's term exceeds the candidate's next one, start_election
      makes it leader of that term exactly if a majority, itself counted, may vote for it: members
      of older terms, or of that term without a vote for another, whose logs are no more up to date.
      Then every other node is a follower in that term and names it as leader; otherwise it is still
      candidate, with just these votes. If some node's term is later, the candidate ends as a
      follower in the latest. */
  lemma ElectionOutcome(members: seq<NodeId>, durable: set<NodeId>, run: seq<Step>, n: NodeId)
    requires RosterOk(members)
    requires n in After(members, durable, run).nodes
    ensures After(members, durable, run).nodes[n].cfg.members == members
    ensures Elected(After(members, durable, run), RunElection(After(members, durable, run), n), n)
  {
    hide After, ClusterInv, Elected, RunElection;
    var h := RunInv(members, durable, run);
    ConfigAt(After(members, durable, run), members, durable, h, n);
    ElectionFrom(After(members, durable, run), members, durable, h, n);
  }

  lemma PollOver(c: Cluster, c1: Cluster, n: NodeId, ask: RequestVoteRequest)
    requires n in c.nodes && Polled(c, c1, n, ask, c.nodes.Keys - {n}) && ask.term == c.nodes[n].core.term + 1
    ensures c1.nodes.Keys == c.nodes.Keys && c1.nodes[n].cfg == c.nodes[n].cfg
    ensures c1.nodes[n].core.log == c.nodes[n].core.log
    ensures forall f :: f in c.nodes && f != n ==> Asked(c.nodes[f], c1.nodes[f], ask.term)
    ensures if !NoneHigher(c, ask.term) then Overtaken(c, c1.nodes[n].core, ask.term, c.nodes.Keys)
            else && NoneHigher(c1, ask.term) && c1.nodes[n].core.term == ask.term
                 && if Majority(c.nodes[n].cfg.members) <= |Supporters(c, n, ask)| then Queued(c1.nodes[n])
                    else c1.nodes[n].core.role == Candidate && c1.nodes[n].core.votes == Supporters(c, n, ask)
  {
    hide GivesVote, Queued;
    var others := c.nodes.Keys - {n};
    assert Supporters(c, n, ask) * (others + {n}) == Supporters(c, n, ask);
    forall f | f in c.nodes && f != n ensures Asked(c.nodes[f], c1.nodes[f], ask.term) {
      assert f in others;
    }
    assert NoneOf(c, others, ask.term) <==> NoneHigher(c, ask.term) by {
      if NoneOf(c, others, ask.term) {
        forall f | f in c.nodes ensures c.nodes[f].core.term <= ask.term { assert f == n || f in others; }
      }
    }
  }

  lemma OfficeGained(c1: Cluster, c': Cluster, n: NodeId, term: nat)
    requires Dealt(c1, c', n, term, c1.nodes.Keys - {n})
    ensures IsLeader(c', n, term) && c'.nodes[n].core.log == c1.nodes[n].core.log
    ensures forall f :: f in c1.nodes && f != n ==> f in c'.nodes && Follows(c'.nodes[f], n, term)
  {
    forall f | f in c1.nodes && f != n ensures f in c'.nodes && Follows(c'.nodes[f], n, term) {
      assert f in c1.nodes.Keys - {n};
    }
  }
}
