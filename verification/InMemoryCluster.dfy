/** The simulator as the object it is in the source: it owns the nodes and delivers messages
    between them in place (src/in_memory_cluster.cpp). Every call is tied to the functions of
    RaftSimulation, and the nodes to a run of the cluster, so what is proved of runs holds of it. */
module RaftInMemoryCluster {
  import opened RaftTypes
  import opened KeyValue
  import opened RaftNode
  import opened RaftProtocol
  import opened RaftLocal
  import opened RaftCalls
  import opened RaftCluster
  import opened RaftTheorems
  import opened RaftSimulation
  import opened RaftSimulatedElection
  import opened RaftCoreObject

  class InMemoryCluster {
    const nodeIds: seq<NodeId>
    const nodes: seq<RaftCore>

    /** Everything that has happened to the nodes. */
    ghost var run: seq<Step>

    /** One node for every member, sharing nothing, none with a storage path. */
    ghost predicate Shape() {
      && RosterOk(nodeIds) && |nodes| == |nodeIds|
      && (forall i :: 0 <= i < |nodes| ==> nodes[i].nodeId == nodeIds[i])
      && (forall x :: x in nodes ==> x.members == nodeIds && x.storage == null)
      && (forall x, y :: x in nodes && y in nodes && x != y ==>
            x.nodeId != y.nodeId && x.keyValueStore != y.keyValueStore)
    }

    ghost function Repr(): set<object> {
      var cores: set<object> := set x | x in nodes;
      var stores: set<object> := set x | x in nodes :: x.keyValueStore;
      {this} + cores + stores
    }

    /** The cluster that the run leads to. */
    ghost function Now(): (c: Cluster)
      requires Shape()
      reads this
      ensures AllValid(c)
    {
      After(nodeIds, {}, run)
    }

    ghost predicate Valid()
      reads this, Repr()
    {
      && Shape()
      && (forall x :: x in nodes ==> x.Valid() && x.nodeId in Now().nodes && Now().nodes[x.nodeId] == x.State())
    }

    constructor (nodeIds: seq<NodeId>, nodes: seq<RaftCore>)
      ensures this.nodeIds == nodeIds && this.nodes == nodes && run == []
    {
      this.nodeIds := nodeIds;
      this.nodes := nodes;
      run := [];
    }

    lemma StartsValid()
      requires Shape() && run == [] && forall x :: x in nodes ==> NewNode(x, nodeIds)
      ensures Valid()
    {
      hide RaftNode.Valid, FreshNode, After, AllValid;
      GenesisNodes(nodeIds);
    }

    // ----- one step of one node -----

    /** After a node has taken a step, and the step was recorded, everything fits again. */
    twostate lemma Settled(new i: nat, new step: Step)
      requires old(Valid()) && i < |nodes|
      requires run == old(run) + [step] && Actor(step) == nodes[i].nodeId
      requires Enabled(old(Now()), step)
      requires RaftNode.Valid(old(nodes[i].State()))
      requires nodes[i].Valid() && nodes[i].State() == React(old(nodes[i].State()), step).state
      requires forall x :: x in nodes && x != nodes[i] ==> unchanged(x) && unchanged(x.keyValueStore)
      ensures Valid() && Now() == Next(old(Now()), step)
    {
      hide RaftNode.Valid, React, After, Next, AllValid;
      RunExtended(nodeIds, {}, old(run), step);
      forall x | x in nodes
        ensures x.Valid() && x.nodeId in Now().nodes && Now().nodes[x.nodeId] == x.State()
      {
        if x != nodes[i] { assert x.State() == old(x.State()); }
      }
    }

    lemma NodeNow(node: RaftCore)
      requires Valid() && node in nodes
      ensures Shape() && node.Valid()
      ensures node.nodeId in Now().nodes && Now().nodes[node.nodeId] == node.State()
      ensures RaftNode.Valid(node.State())
    {
    }

    /** A node shares nothing with the others. */
    lemma Apart(node: RaftCore)
      requires Shape() && node in nodes
      ensures node.storage == null
      ensures forall x :: x in nodes && x != node ==> x.keyValueStore != node.keyValueStore
    {
    }

    /** No call of a run throws, except the misuse that OnlyMisuseThrows names. */
    lemma NothingThrows(step: Step)
      requires Valid() && Enabled(Now(), step) && !step.Client? && !step.Heartbeat?
      ensures !Reacted(Now(), step).threw
    {
      OnlyMisuseThrows(nodeIds, {}, run, step);
    }

    method RunCampaign(node: RaftCore)
      requires Valid() && node in nodes
      modifies Repr()
      ensures Valid() && Now() == Next(old(Now()), Campaign(node.nodeId))
    {
      hide RaftNode.Valid, RaftNode.StartElection, After, AllValid, Valid, Shape;
      NodeNow(node);
      Apart(node);
      node.StartElection();
      run := run + [Campaign(node.nodeId)];
      ghost var i :| 0 <= i < |nodes| && nodes[i] == node;
      Settled(i, Campaign(node.nodeId));
    }

    method TakeVotes(node: RaftCore) returns (actions: seq<RequestVoteAction>)
      requires Valid() && node in nodes
      modifies Repr()
      ensures Valid() && Now() == Next(old(Now()), VotesTaken(node.nodeId))
      ensures actions == old(node.pendingVotes)
    {
      hide RaftNode.Valid, After, AllValid, Valid, Shape;
      NodeNow(node);
      Apart(node);
      actions := node.TakeRequestVoteActions();
      run := run + [VotesTaken(node.nodeId)];
      ghost var i :| 0 <= i < |nodes| && nodes[i] == node;
      Settled(i, VotesTaken(node.nodeId));
    }

    method TakeAppends(node: RaftCore) returns (actions: seq<AppendEntriesAction>)
      requires Valid() && node in nodes
      modifies Repr()
      ensures Valid() && Now() == Next(old(Now()), AppendsTaken(node.nodeId))
      ensures actions == old(node.pendingAppends)
    {
      hide RaftNode.Valid, After, AllValid, Valid, Shape;
      NodeNow(node);
      Apart(node);
      actions := node.TakeAppendEntriesActions();
      run := run + [AppendsTaken(node.nodeId)];
      ghost var i :| 0 <= i < |nodes| && nodes[i] == node;
      Settled(i, AppendsTaken(node.nodeId));
    }

    method QueueHeartbeats(node: RaftCore) returns (r: Reply<()>)
      requires Valid() && node in nodes
      modifies Repr()
      ensures Valid() && Now() == Next(old(Now()), Heartbeat(node.nodeId))
      ensures r == if old(node.role) == Leader then Returned(()) else Threw(LogicError)
    {
      hide RaftNode.Valid, After, AllValid, Valid, Shape, AppendActions, ProgressOk;
      NodeNow(node);
      Apart(node);
      ValidProgress(node.State());
      r := node.QueueHeartbeatActions();
      run := run + [Heartbeat(node.nodeId)];
      QueuesLocal(old(node.State()), node.State());
      ghost var i :| 0 <= i < |nodes| && nodes[i] == node;
      Settled(i, Heartbeat(node.nodeId));
    }

    /** A vote request reaches its target; the answer is a message of the cluster. */
    method AskVote(target: RaftCore, request: RequestVoteRequest, ghost m: Message)
      returns (response: RequestVoteResponse)
      requires Valid() && target in nodes && m in Now().messages
      requires m.VoteRequest? && m.to == target.nodeId && m.ask == request
      modifies Repr()
      ensures Valid() && Now() == Next(old(Now()), Deliver(m))
      ensures AnswerTo(old(Now()), m) == VoteReply(m.to, m.from, m.ask, response)
      ensures AnswerTo(old(Now()), m) in Now().messages
    {
      hide RaftNode.Valid, After, AllValid, Valid, Shape, RaftNode.HandleRequestVote;
      NodeNow(target);
      Apart(target);
      response := target.HandleRequestVote(request);
      run := run + [Deliver(m)];
      ghost var i :| 0 <= i < |nodes| && nodes[i] == target;
      Settled(i, Deliver(m));
    }

    method GiveVote(node: RaftCore, voter: NodeId, response: RequestVoteResponse, ghost m: Message)
      returns (r: Reply<()>)
      requires Valid() && node in nodes && m in Now().messages
      requires m.VoteReply? && m.to == node.nodeId && m.from == voter && m.vote == response
      modifies Repr()
      ensures Valid() && Now() == Next(old(Now()), Deliver(m)) && r.Returned?
    {
      hide RaftNode.Valid, After, AllValid, Valid, Shape, RaftNode.ReceiveVote;
      NodeNow(node);
      Apart(node);
      NothingThrows(Deliver(m));
      r := node.ReceiveVote(voter, response);
      run := run + [Deliver(m)];
      ghost var i :| 0 <= i < |nodes| && nodes[i] == node;
      Settled(i, Deliver(m));
    }

    method AskAppend(target: RaftCore, request: AppendEntriesRequest, ghost m: Message)
      returns (r: Reply<AppendEntriesResponse>)
      requires Valid() && target in nodes && m in Now().messages
      requires m.AppendRequest? && m.to == target.nodeId && m.append == request
      modifies Repr()
      ensures Valid() && Now() == Next(old(Now()), Deliver(m)) && r.Returned?
      ensures AnswerTo(old(Now()), m) == AppendReply(m.to, m.from, m.append, r.value)
      ensures AnswerTo(old(Now()), m) in Now().messages
    {
      hide RaftNode.Valid, After, AllValid, Valid, Shape, RaftNode.HandleAppendEntries;
      NodeNow(target);
      Apart(target);
      NothingThrows(Deliver(m));
      r := target.HandleAppendEntries(request);
      run := run + [Deliver(m)];
      ghost var i :| 0 <= i < |nodes| && nodes[i] == target;
      Settled(i, Deliver(m));
    }

    method GiveAnswer(node: RaftCore, follower: NodeId, response: AppendEntriesResponse, ghost m: Message)
      returns (r: Reply<()>)
      requires Valid() && node in nodes && m in Now().messages
      requires m.AppendReply? && m.to == node.nodeId && m.from == follower && m.answer == response
      modifies Repr()
      ensures Valid() && Now() == Next(old(Now()), Deliver(m)) && r.Returned?
    {
      hide RaftNode.Valid, After, AllValid, Valid, Shape, ReceiveAppendResponse;
      NodeNow(node);
      Apart(node);
      NothingThrows(Deliver(m));
      r := node.ReceiveAppendEntriesResponse(follower, response);
      run := run + [Deliver(m)];
      ghost var i :| 0 <= i < |nodes| && nodes[i] == node;
      Settled(i, Deliver(m));
    }

    /** One vote action: asked, answered, counted. */
    method ExchangeVote(candidate: RaftCore, action: RequestVoteAction, ghost m: Message)
      requires Valid() && candidate in nodes && m in Now().messages
      requires m == VoteRequest(candidate.nodeId, action.target, action.request) && m.to in nodeIds
      modifies Repr()
      ensures Valid() && Now() == Exchange(old(Now()), m)
    {
      hide RaftNode.Valid, After, AllValid, Next, AnswerTo, Valid, Shape;
      ShapeHolds();
      ghost var answer := AnswerTo(Now(), m);
      var target := Node(action.target);
      var response := AskVote(target.value, action.request, m);
      var counted := GiveVote(candidate, action.target, response, answer);
    }

    /** One append action: asked, answered, recorded. */
    method ExchangeAppend(leader: RaftCore, action: AppendEntriesAction, ghost m: Message)
      requires Valid() && leader in nodes && m in Now().messages
      requires m == AppendRequest(leader.nodeId, action.target, action.request) && m.to in nodeIds
      modifies Repr()
      ensures Valid() && Now() == Exchange(old(Now()), m)
    {
      hide RaftNode.Valid, After, AllValid, Next, AnswerTo, Valid, Shape;
      ShapeHolds();
      ghost var answer := AnswerTo(Now(), m);
      var target := Node(action.target);
      var response := AskAppend(target.value, action.request, m);
      var recorded := GiveAnswer(leader, action.target, response.value, answer);
    }

    lemma ShapeHolds()
      requires Valid()
      ensures Shape()
    {
    }

    /** What a user of the simulator does through node(): give a leader a command. */
    method AppendCommand(node: RaftCore, command: string) returns (r: Reply<nat>)
      requires Valid() && node in nodes && Applicable(command)
      modifies Repr()
      ensures Valid() && Now() == Next(old(Now()), Client(node.nodeId, command))
      ensures r.Returned? <==> old(node.role) == Leader && command != ""
    {
      hide RaftNode.Valid, After, AllValid, Valid, Shape, RaftNode.AppendCommand, Applicable;
      NodeNow(node);
      Apart(node);
      ValidProgress(node.State());
      OnlyMisuseThrows(nodeIds, {}, run, Client(node.nodeId, command));
      r := node.AppendCommand(command);
      run := run + [Client(node.nodeId, command)];
      ghost var i :| 0 <= i < |nodes| && nodes[i] == node;
      Settled(i, Client(node.nodeId, command));
    }

    // ----- the public calls -----

    method Node(nodeId: NodeId) returns (r: Reply<RaftCore>)
      requires Shape()
      ensures if nodeId in nodeIds then r.Returned? && r.value in nodes && r.value.nodeId == nodeId
              else r == Threw(InvalidArgument)
    {
      for i := 0 to |nodes|
        invariant nodeId !in nodeIds[..i]
      {
        if nodes[i].nodeId == nodeId {
          return Returned(nodes[i]);
        }
      }
      assert nodeIds[..|nodes|] == nodeIds;
      return Threw(InvalidArgument);
    }

    /** Every queued vote request is answered and counted before the next one is made. */
    method DeliverRequestVoteActions(candidateId: NodeId) returns (r: Reply<nat>)
      requires Valid()
      modifies Repr()
      ensures Valid()
      ensures candidateId !in nodeIds ==> r == Threw(InvalidArgument) && run == old(run)
      ensures candidateId in nodeIds ==>
                && candidateId in old(Now()).nodes
                && Now() == DeliverVotes(old(Now()), candidateId)
                && r == Returned(|old(Now()).nodes[candidateId].voteQueue|)
    {
      hide RaftNode.Valid, After, AllValid, Next, Exchange, Valid, Shape;
      ShapeHolds();
      var found := Node(candidateId);
      if found.Threw? {
        return Threw(InvalidArgument);
      }
      var candidate := found.value;
      NodeNow(candidate);
      ghost var start := Next(Now(), VotesTaken(candidateId));
      ghost var q := VoteMessages(Now().nodes[candidateId]);
      QueuedVotes(candidate);
      var actions := TakeVotes(candidate);
      for k := 0 to |actions|
        invariant Valid() && |q| == |actions|
        invariant forall i :: 0 <= i < |q| ==> q[i] == VoteRequest(candidateId, actions[i].target, actions[i].request)
        invariant forall i :: 0 <= i < |q| ==> q[i] in start.messages && q[i].to in nodeIds
        invariant Now() == DeliverAll(start, q[..k])
      {
        assert q[..k + 1][..k] == q[..k];
        ExchangeVote(candidate, actions[k], q[k]);
      }
      assert q[..|q|] == q;
      return Returned(|actions|);
    }

    /** What is queued was sent, to members only. */
    lemma QueuedVotes(node: RaftCore)
      requires Valid() && node in nodes
      ensures node.nodeId in Now().nodes
      ensures var q := VoteMessages(Now().nodes[node.nodeId]);
              && |q| == |node.pendingVotes|
              && forall i :: 0 <= i < |q| ==>
                   && q[i] == VoteRequest(node.nodeId, node.pendingVotes[i].target, node.pendingVotes[i].request)
                   && q[i] in Now().messages && q[i].to in nodeIds
    {
      hide RaftNode.Valid, After, AllValid;
      var h := RunInv(nodeIds, {}, run);
      var q := VoteMessages(Now().nodes[node.nodeId]);
      forall i | 0 <= i < |q| ensures q[i] in Now().messages && q[i].to in nodeIds {
        assert node.pendingVotes[i] in node.pendingVotes;
        MemberOfOutgoing(Now(), nodeIds, {}, h, node.nodeId, q[i]);
      }
    }

    lemma QueuedAppends(node: RaftCore)
      requires Valid() && node in nodes
      ensures node.nodeId in Now().nodes
      ensures var q := AppendMessages(Now().nodes[node.nodeId]);
              && |q| == |node.pendingAppends|
              && forall i :: 0 <= i < |q| ==>
                   && q[i] == AppendRequest(node.nodeId, node.pendingAppends[i].target, node.pendingAppends[i].request)
                   && q[i] in Now().messages && q[i].to in nodeIds
    {
      hide RaftNode.Valid, After, AllValid;
      var h := RunInv(nodeIds, {}, run);
      var q := AppendMessages(Now().nodes[node.nodeId]);
      forall i | 0 <= i < |q| ensures q[i] in Now().messages && q[i].to in nodeIds {
        assert node.pendingAppends[i] in node.pendingAppends;
        MemberOfOutgoing(Now(), nodeIds, {}, h, node.nodeId, q[i]);
      }
    }

    method DeliverAppendEntriesActions(leaderId: NodeId) returns (r: Reply<nat>)
      requires Valid()
      modifies Repr()
      ensures Valid()
      ensures leaderId !in nodeIds ==> r == Threw(InvalidArgument) && run == old(run)
      ensures leaderId in nodeIds ==>
                && leaderId in old(Now()).nodes
                && Now() == DeliverAppends(old(Now()), leaderId)
                && r == Returned(|old(Now()).nodes[leaderId].appendQueue|)
    {
      hide RaftNode.Valid, After, AllValid, Next, Exchange, Valid, Shape;
      ShapeHolds();
      var found := Node(leaderId);
      if found.Threw? {
        return Threw(InvalidArgument);
      }
      var leader := found.value;
      NodeNow(leader);
      ghost var start := Next(Now(), AppendsTaken(leaderId));
      ghost var q := AppendMessages(Now().nodes[leaderId]);
      QueuedAppends(leader);
      var actions := TakeAppends(leader);
      for k := 0 to |actions|
        invariant Valid() && |q| == |actions|
        invariant forall i :: 0 <= i < |q| ==> q[i] == AppendRequest(leaderId, actions[i].target, actions[i].request)
        invariant forall i :: 0 <= i < |q| ==> q[i] in start.messages && q[i].to in nodeIds
        invariant Now() == DeliverAll(start, q[..k])
      {
        assert q[..k + 1][..k] == q[..k];
        ExchangeAppend(leader, actions[k], q[k]);
      }
      assert q[..|q|] == q;
      return Returned(|actions|);
    }

    /** Ask everyone for a vote; after a victory deliver the first heartbeats. */
    method StartElection(candidateId: NodeId) returns (r: Reply<nat>)
      requires Valid()
      modifies Repr()
      ensures Valid()
      ensures candidateId !in nodeIds ==> r == Threw(InvalidArgument) && run == old(run)
      ensures candidateId in nodeIds ==>
                && candidateId in old(Now()).nodes
                && Now() == RunElection(old(Now()), candidateId)
                && r == Returned(|nodeIds| - 1)
                && Elected(old(Now()), Now(), candidateId)
    {
      hide RaftNode.Valid, After, AllValid, Next, DeliverVotes, DeliverAppends, Valid, Shape, Elected;
      ShapeHolds();
      var found := Node(candidateId);
      if found.Threw? {
        return Threw(InvalidArgument);
      }
      var candidate := found.value;
      NodeNow(candidate);
      ghost var before := run;
      ShapeRoster();
      CampaignAsks(candidateId);
      RunCampaign(candidate);
      r := DeliverRequestVoteActions(candidateId);
      NodeNow(candidate);
      if candidate.role == Leader {
        var heartbeats := DeliverAppendEntriesActions(candidateId);
      }
      ElectionOutcome(nodeIds, {}, before, candidateId);
    }

    lemma ShapeRoster()
      requires Shape()
      ensures RosterOk(nodeIds)
    {
    }

    /** A campaign queues one request for every other node. */
    lemma CampaignAsks(n: NodeId)
      requires Valid() && n in nodeIds && n in Now().nodes
      ensures var c1 := Next(Now(), Campaign(n));
              n in c1.nodes && |c1.nodes[n].voteQueue| == |nodeIds| - 1
    {
      hide After, RaftNode.Valid, AppendActions, Queued, Standing;
      var h := RunInv(nodeIds, {}, run);
      ConfigAt(Now(), nodeIds, {}, h, n);
      var s := Now().nodes[n];
      ValidAt(Now(), n);
      CampaignStarts(s, n);
      PeersCount(nodeIds, n);
    }

    /** A heartbeat queues one request for every other node. */
    lemma HeartbeatAsks(leader: RaftCore)
      requires Valid() && leader in nodes && leader.role == Leader
      ensures var c1 := Next(Now(), Heartbeat(leader.nodeId));
              leader.nodeId in c1.nodes && |c1.nodes[leader.nodeId].appendQueue| == |nodeIds| - 1
    {
      hide After, AllValid, RaftNode.Valid, Shape, MakeAppendRequest;
      NodeNow(leader);
      ShapeRoster();
      MemberId(leader);
      ValidProgress(leader.State());
      PeersCount(nodeIds, leader.nodeId);
    }

    method SendHeartbeats(leaderId: NodeId) returns (r: Reply<nat>)
      requires Valid()
      modifies Repr()
      ensures Valid()
      ensures leaderId !in nodeIds ==> r == Threw(InvalidArgument) && run == old(run)
      ensures leaderId in nodeIds ==> leaderId in old(Now()).nodes
      ensures leaderId in nodeIds && old(Now()).nodes[leaderId].core.role != Leader ==>
                r == Threw(LogicError) && Now() == Next(old(Now()), Heartbeat(leaderId))
      ensures leaderId in nodeIds && old(Now()).nodes[leaderId].core.role == Leader ==>
                r == Returned(|nodeIds| - 1) && Now() == HeartbeatRound(old(Now()), leaderId)
    {
      hide RaftNode.Valid, After, AllValid, Next, DeliverAppends, Valid, Shape;
      ShapeHolds();
      var found := Node(leaderId);
      if found.Threw? {
        return Threw(InvalidArgument);
      }
      var leader := found.value;
      NodeNow(leader);
      if leader.role == Leader { HeartbeatAsks(leader); }
      var queued := QueueHeartbeats(leader);
      if queued.Threw? {
        return Threw(queued.fault);
      }
      r := DeliverAppendEntriesActions(leaderId);
    }

    /** Whether every other node has confirmed the leader's last entry. */
    method AllFollowersCaughtUp(leader: RaftCore) returns (b: bool)
      requires Valid() && leader in nodes && leader.role == Leader
      ensures b == AllCaughtUp(leader.State())
    {
      hide RaftNode.Valid, After, AllValid;
      NodeNow(leader);
      ValidProgress(leader.State());
      var last := |leader.logEntries|;
      for i := 0 to |nodes|
        invariant forall f {:trigger CaughtUp(leader.TheCore(), f)} ::
            f in nodeIds[..i] && f != leader.nodeId ==> CaughtUp(leader.TheCore(), f)
      {
        var current := nodes[i].nodeId;
        if current != leader.nodeId {
          assert IsPeer(leader.Cfg(), current);
          if leader.matchIndex[current] < last {
            assert !CaughtUp(leader.TheCore(), current);
            return false;
          }
        }
      }
      assert nodeIds[..|nodes|] == nodeIds;
      return true;
    }

    /** What a call with that many rounds returns, and what it makes of the logs: true exactly when
        the rounds were enough, which the logs tell beforehand, and exactly when the node still
        leads afterwards and everyone has confirmed its last entry. */
    ghost predicate CaughtUpTo(c: Cluster, c': Cluster, l: NodeId, rounds: nat, caughtUp: bool) {
      && l in c.nodes && l in c'.nodes
      && var leader := c.nodes[l].core;
      && (caughtUp <==> CanCatchUp(c, l, leader.term, rounds))
      && (caughtUp <==> IsLeader(c', l, leader.term) && AllCaughtUp(c'.nodes[l]))
      && (NoneHigher(c, leader.term) ==>
            && IsLeader(c', l, leader.term) && c'.nodes[l].core.log == leader.log
            && AllSettled(c, c', leader.log)
            && (caughtUp ==> AllJoined(nodeIds, c, c', leader.log)))
      && (!NoneHigher(c, leader.term) && !caughtUp && 0 < rounds ==>
            Deposed(c, c', l, leader.term, c.nodes.Keys - {l}))
    }

    lemma CatchUpNow(l: NodeId, rounds: nat)
      requires Valid() && l in Now().nodes && Now().nodes[l].core.role == Leader
      ensures var (c', caughtUp) := Replicate(Now(), l, rounds); CaughtUpTo(Now(), c', l, rounds, caughtUp)
    {
      hide RaftNode.Valid, After, AllValid, Replicate, NoneHigher, AllCaughtUp, CanCatchUp, AllSettled, AllJoined,
           Deposed;
      CatchUp(nodeIds, {}, run, l, Now().nodes[l].core.term, rounds);
    }

    /** One round: fresh requests, every answer recorded, and whether that was enough. */
    method Round(leader: RaftCore) returns (caughtUp: bool)
      requires Valid() && leader in nodes && leader.role == Leader
      modifies Repr()
      ensures Valid() && leader.nodeId in old(Now()).nodes
      ensures Now() == HeartbeatRound(old(Now()), leader.nodeId)
      ensures Now().nodes[leader.nodeId].core.role == leader.role
      ensures caughtUp == (leader.role == Leader && AllCaughtUp(Now().nodes[leader.nodeId]))
    {
      hide RaftNode.Valid, After, AllValid, Next, HeartbeatRound, Valid, Shape, AllCaughtUp;
      NodeNow(leader);
      MemberId(leader);
      var sent := SendHeartbeats(leader.nodeId);
      NodeNow(leader);
      caughtUp := false;
      if leader.role == Leader {
        caughtUp := AllFollowersCaughtUp(leader);
      }
    }

    lemma MemberId(node: RaftCore)
      requires Valid() && node in nodes
      ensures Shape() && node.nodeId in nodeIds
    {
    }

    /** Retry rounds of heartbeats until every follower has the leader's complete log, the
        leader is deposed, or the rounds are used up. */
    method ReplicateUntilCaughtUp(leaderId: NodeId, maxRounds: nat) returns (r: Reply<bool>)
      requires Valid()
      modifies Repr()
      ensures Valid()
      ensures leaderId !in nodeIds ==> r == Threw(InvalidArgument) && run == old(run)
      ensures leaderId in nodeIds ==> leaderId in old(Now()).nodes
      ensures leaderId in nodeIds && old(Now()).nodes[leaderId].core.role != Leader ==>
                r == Threw(LogicError) && run == old(run)
      ensures leaderId in nodeIds && old(Now()).nodes[leaderId].core.role == Leader ==>
                && r.Returned? && (Now(), r.value) == Replicate(old(Now()), leaderId, maxRounds)
                && CaughtUpTo(old(Now()), Now(), leaderId, maxRounds, r.value)
    {
      hide RaftNode.Valid, After, AllValid, Next, HeartbeatRound, Valid, Shape, AllCaughtUp, CaughtUpTo;
      ShapeHolds();
      var found := Node(leaderId);
      if found.Threw? {
        return Threw(InvalidArgument);
      }
      var leader := found.value;
      NodeNow(leader);
      if leader.role != Leader {
        return Threw(LogicError);
      }
      CatchUpNow(leaderId, maxRounds);
      var caughtUp := AllFollowersCaughtUp(leader);
      if caughtUp {
        return Returned(true);
      }
      for round := 0 to maxRounds
        invariant Valid() && leaderId in Now().nodes && leader.role == Leader
        invariant Rounds(Now(), leaderId, maxRounds - round) == Rounds(old(Now()), leaderId, maxRounds)
      {
        caughtUp := Round(leader);
        if leader.role != Leader {
          return Returned(false);
        }
        if caughtUp {
          return Returned(true);
        }
      }
      return Returned(false);
    }
  }

  /** One fresh node per ID, sharing nothing; fails exactly when no roster of an odd number of
      distinct names was given, or no range of timeouts. */
  method CreateInMemoryCluster(nodeIds: seq<NodeId>, minTimeout: nat, maxTimeout: nat)
    returns (r: Reply<InMemoryCluster>)
    ensures r.Returned? <==> RosterOk(nodeIds) && 0 < minTimeout <= maxTimeout
    ensures r.Threw? ==> r.fault == InvalidArgument
    ensures r.Returned? ==> fresh(r.value.Repr()) && r.value.nodeIds == nodeIds && r.value.run == [] && r.value.Valid()
    ensures r.Returned? ==> forall x :: x in r.value.nodes ==>
              x.minTimeout == minTimeout && x.maxTimeout == maxTimeout && x.currentTime == 0 && x.DeadlineFresh()
  {
    hide RaftNode.Valid, Boot, After, FreshNode, AllValid, NewNode;
    if |nodeIds| == 0 {
      return Threw(InvalidArgument);
    }
    var nodes: seq<RaftCore> := [];
    for i := 0 to |nodeIds|
      invariant |nodes| == i
      invariant 0 < i ==> RosterOk(nodeIds) && 0 < minTimeout <= maxTimeout
      invariant forall x :: x in nodes ==> fresh(x) && fresh(x.keyValueStore)
      invariant forall j :: 0 <= j < i ==> nodes[j].nodeId == nodeIds[j]
      invariant forall x :: x in nodes ==> NewNode(x, nodeIds) && x.members == nodeIds && x.storage == null
      invariant forall x :: x in nodes ==>
          x.minTimeout == minTimeout && x.maxTimeout == maxTimeout && x.currentTime == 0 && x.DeadlineFresh()
      invariant forall x, y :: x in nodes && y in nodes && x != y ==> x.keyValueStore != y.keyValueStore
    {
      var created := CreateNode(nodeIds[i], nodeIds, minTimeout, maxTimeout);
      if created.Threw? {
        return Threw(InvalidArgument);
      }
      nodes := nodes + [created.value];
    }
    var cluster := new InMemoryCluster(nodeIds, nodes);
    assert cluster.Shape();
    cluster.StartsValid();
    return Returned(cluster);
  }

  method CreateNode(nodeId: NodeId, nodeIds: seq<NodeId>, minTimeout: nat, maxTimeout: nat) returns (r: Reply<RaftCore>)
    requires nodeId in nodeIds
    ensures r.Returned? <==> RosterOk(nodeIds) && 0 < minTimeout <= maxTimeout
    ensures r.Returned? ==>
              && fresh(r.value) && fresh(r.value.keyValueStore)
              && r.value.nodeId == nodeId && r.value.members == nodeIds && r.value.storage == null
              && NewNode(r.value, nodeIds)
              && r.value.minTimeout == minTimeout && r.value.maxTimeout == maxTimeout
              && r.value.currentTime == 0 && r.value.DeadlineFresh()
  {
    hide RaftNode.Valid, Boot, FreshNode;
    NewNodeBoots(Config(nodeId, nodeIds, false));
    r := CreateRaftCore(nodeId, nodeIds, 0, [], minTimeout, maxTimeout, null);
  }

  ghost predicate NewNode(node: RaftCore, nodeIds: seq<NodeId>)
    reads node, node.keyValueStore, node.storage
  {
    && node.members == nodeIds && node.storage == null && node.Valid()
    && node.State() == FreshNode(Config(node.nodeId, nodeIds, false))
  }

  /** Without a log and a state file, construction needs nothing but a good roster. */
  lemma NewNodeBoots(cfg: Config)
    ensures Boot(cfg, 0, [], None) ==
            if RosterOk(cfg.members) && cfg.id in cfg.members then Returned(FreshNode(cfg)) else Threw(InvalidArgument)
    ensures FreshNode(cfg).cfg == cfg
  {
    if RosterOk(cfg.members) && cfg.id in cfg.members { FreshNodeBoots(cfg); }
  }

  lemma GenesisNodes(nodeIds: seq<NodeId>)
    requires RosterOk(nodeIds)
    ensures forall n :: n in nodeIds ==>
              n in After(nodeIds, {}, []).nodes &&
              After(nodeIds, {}, []).nodes[n] == FreshNode(Config(n, nodeIds, false))
  {
  }

  lemma MemberOfOutgoing(c: Cluster, members: seq<NodeId>, durable: set<NodeId>, h: History, n: NodeId, m: Message)
    requires ClusterInv(c, members, durable, h) && n in c.nodes
    requires m in Outgoing(c.nodes[n])
    ensures m in c.messages && m.to in members
  {
    hide Inv;
    QueuedIsSent(c, members, durable, h, n);
    SentOk(c, members, durable, h, m);
  }
}
