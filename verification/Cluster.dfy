/** A cluster of nodes and the set of every message ever sent. Since messages are never
    removed, any of them may be lost, delayed, repeated or overtaken. Each public call is one
    step: the service holds its mutex for the whole call, and no lock while it waits for the
    network (src/raft_service.cpp:20-161, src/raft_runtime.cpp:61-117). */
module RaftCluster {
  import opened RaftTypes
  import opened KeyValue
  import opened RaftNode
  import opened RaftProtocol
  import opened RaftSafety
  import opened RaftSteps
  import opened RaftLocal
  import opened RaftCalls

  datatype Cluster = Cluster(nodes: map<NodeId, NodeState>, messages: set<Message>)

  /** What can happen next. An election may start at any time, in any role; a client command
      and a heartbeat may hit a node that is not leader. A node with a storage path may die and
      come back between two calls, or while it handles a message: a call saves once it has
      adopted a newer term, and again at its end (src/raft_core.cpp:917-947, 981-1075). */
  datatype Step =
    | Campaign(node: NodeId)
    | Deliver(message: Message)
    | Client(node: NodeId, command: string)
    | Heartbeat(node: NodeId)
    | VotesTaken(node: NodeId)
    | AppendsTaken(node: NodeId)
    | Restart(node: NodeId)
    | Interrupted(message: Message)

  function Actor(step: Step): NodeId {
    match step
    case Deliver(m) => m.to
    case Interrupted(m) => m.to
    case _ => step.node
  }

  /** A node's new state, the reply it sends, if any, and whether the call threw. */
  datatype Reaction = Reaction(state: NodeState, replies: set<Message>, threw: bool)

  /** The term a message carries to its addressee. */
  function TermOf(m: Message): nat {
    match m
    case VoteRequest(_, _, ask) => ask.term
    case VoteReply(_, _, _, vote) => vote.term
    case AppendRequest(_, _, append) => append.term
    case AppendReply(_, _, _, answer) => answer.term
  }

  /** The name a message gives for its author, which every handler looks up first. */
  function AuthorOf(m: Message): NodeId {
    match m
    case VoteRequest(_, _, ask) => ask.candidateId
    case AppendRequest(_, _, append) => append.leaderId
    case _ => m.from
  }

  /** The node as it is after the first save of a call that handles the message. */
  ghost function Struck(s: NodeState, m: Message): NodeState {
    if AuthorOf(m) in s.cfg.members && (m.AppendReply? ==> m.from != s.cfg.id) && s.core.term < TermOf(m)
    then BecomeFollower(s, TermOf(m))
    else s
  }

  ghost function React(s: NodeState, step: Step): Reaction
    requires Valid(s)
  {
    match step
    case Campaign(_) => Reaction(StartElection(s), {}, false)
    case Deliver(VoteRequest(from, to, ask)) =>
      var o := HandleRequestVote(s, ask);
      Reaction(o.state, if o.reply.Returned? then {VoteReply(to, from, ask, o.reply.value)} else {}, o.reply.Threw?)
    case Deliver(VoteReply(from, to, ask, vote)) =>
      var o := ReceiveVote(s, from, vote);
      Reaction(o.state, {}, o.reply.Threw?)
    case Deliver(AppendRequest(from, to, append)) =>
      var o := HandleAppendEntries(s, append);
      Reaction(o.state,
               if o.reply.Returned? then {AppendReply(to, from, append, o.reply.value)} else {},
               o.reply.Threw?)
    case Deliver(AppendReply(from, to, append, answer)) =>
      var o := ReceiveAppendResponse(s, from, answer);
      Reaction(o.state, {}, o.reply.Threw?)
    case Client(_, command) =>
      var o := AppendCommand(s, command);
      Reaction(o.state, {}, o.reply.Threw?)
    case Heartbeat(_) =>
      var o := QueueHeartbeats(s);
      Reaction(o.state, {}, o.reply.Threw?)
    case VotesTaken(_) => Reaction(TakeVotes(s), {}, false)
    case AppendsTaken(_) => Reaction(TakeAppends(s), {}, false)
    case Restart(_) =>
      var r := Boot(s.cfg, 0, [], s.disk);
      if r.Returned? then Reaction(r.value, {}, false) else Reaction(s, {}, true)
    case Interrupted(m) =>
      var r := Boot(s.cfg, 0, [], Struck(s, m).disk);
      if r.Returned? then Reaction(r.value, {}, false) else Reaction(s, {}, true)
  }

  /** The node comes back from its disk. */
  predicate ComesBack(step: Step) {
    step.Restart? || step.Interrupted?
  }

  /** Only sent messages are delivered; only nodes with a storage path come back; client
      commands are ones that applying cannot reject, as the service's are. */
  ghost predicate Enabled(c: Cluster, step: Step) {
    && Actor(step) in c.nodes
    && (step.Deliver? || step.Interrupted? ==> step.message in c.messages)
    && (step.Client? ==> Applicable(step.command))
    && (ComesBack(step) ==> c.nodes[Actor(step)].cfg.durable)
  }

  ghost predicate AllValid(c: Cluster) {
    forall n {:trigger Valid(c.nodes[n])} :: n in c.nodes ==> Valid(c.nodes[n])
  }

  ghost function Reacted(c: Cluster, step: Step): Reaction
    requires AllValid(c) && Actor(step) in c.nodes
  {
    assert Valid(c.nodes[Actor(step)]);
    React(c.nodes[Actor(step)], step)
  }

  /** One step; a step that is not enabled changes nothing. */
  ghost function Next(c: Cluster, step: Step): (c': Cluster)
    requires AllValid(c)
    ensures AllValid(c') && c'.nodes.Keys == c.nodes.Keys && c.messages <= c'.messages
  {
    if Enabled(c, step) then
      var r := Reacted(c, step);
      assert Valid(c.nodes[Actor(step)]);
      ReactValid(c.nodes[Actor(step)], step);
      Cluster(c.nodes[Actor(step) := r.state], c.messages + Outgoing(r.state) + r.replies)
    else c
  }

  lemma ValidAt(c: Cluster, n: NodeId)
    requires AllValid(c) && n in c.nodes
    ensures Valid(c.nodes[n])
  {
  }

  lemma NotEnabled(c: Cluster, step: Step)
    requires AllValid(c) && !Enabled(c, step)
    ensures Next(c, step) == c
  {
  }

  lemma ReactValid(s: NodeState, step: Step)
    requires Valid(s)
    ensures Valid(React(s, step).state)
    ensures React(s, step).state.cfg == s.cfg
  {
    hide Valid;
    match step
    case Campaign(_) => StartElectionLocal(s);
    case Deliver(VoteRequest(from, to, ask)) => HandleRequestVoteLocal(s, ask);
    case Deliver(VoteReply(from, to, ask, vote)) => ReceiveVoteLocal(s, from, vote);
    case Deliver(AppendRequest(from, to, append)) => HandleAppendEntriesLocal(s, append);
    case Deliver(AppendReply(from, to, append, answer)) => ReceiveAppendResponseLocal(s, from, answer);
    case Client(_, command) => AppendCommandLocal(s, command);
    case Heartbeat(_) =>
      ValidProgress(s);
      QueuesLocal(s, QueueHeartbeats(s).state);
    case VotesTaken(_) => QueuesLocal(s, TakeVotes(s));
    case AppendsTaken(_) => QueuesLocal(s, TakeAppends(s));
    case Restart(_) =>
      if Boot(s.cfg, 0, [], s.disk).Returned? { BootLocal(s.cfg, 0, [], s.disk); }
    case Interrupted(m) =>
      if Boot(s.cfg, 0, [], Struck(s, m).disk).Returned? { BootLocal(s.cfg, 0, [], Struck(s, m).disk); }
  }

  /** Dying within a call and coming back is dying right after the first save. */
  lemma InterruptedRestores(s: NodeState, m: Message)
    requires Healthy(s) && s.cfg.durable
    ensures Healthy(Struck(s, m)) && Struck(s, m).cfg == s.cfg && Advances(s, Struck(s, m))
    ensures Struck(s, m).core.log == s.core.log && Struck(s, m).machine == s.machine
    ensures Boot(s.cfg, 0, [], Struck(s, m).disk).Returned?
    ensures var s' := Boot(s.cfg, 0, [], Struck(s, m).disk).value;
            && s'.core == StepDown(Struck(s, m).core).(leaderId := None)
            && s'.machine == s.machine && s'.disk == Struck(s, m).disk && s'.cfg == s.cfg
            && s'.voteQueue == [] && s'.appendQueue == []
            && Healthy(s')
  {
    hide Healthy, Boot, Advances, Valid;
    HealthyIsValid(s);
    AdvancesSelf(s);
    if Struck(s, m) != s { BecomeFollowerLocal(s, TermOf(m)); }
    RestartRestores(Struck(s, m));
  }

  lemma ValidProgress(s: NodeState)
    requires Valid(s)
    ensures s.core.commit <= |s.core.log|
    ensures s.core.role == Leader ==> ProgressOk(s.cfg, s.core)
  {
  }

  lemma QueuesLocal(s: NodeState, s': NodeState)
    requires Valid(s) && s' == s.(voteQueue := s'.voteQueue, appendQueue := s'.appendQueue)
    ensures Valid(s') && Advances(s, s') && (Healthy(s) ==> Healthy(s'))
  {
  }

  // ----- the initial cluster and its runs -----

  function FreshNode(cfg: Config): NodeState {
    var core := Core(Follower, 0, None, None, [], 0, {}, map[], map[]);
    NodeState(cfg, core, Machine(0, [], map[]), [], [],
              if cfg.durable then Some(Persistent(core)) else None)
  }

  /** Every node starts in term 0 with an empty log (apps/node_main.cpp:124-133). */
  ghost function Genesis(members: seq<NodeId>, durable: set<NodeId>): (c: Cluster)
    requires RosterOk(members)
    ensures AllValid(c)
  {
    Cluster(map n | n in Ids(members) :: FreshNode(Config(n, members, n in durable)), {})
  }

  /** A fresh node is what the constructor makes of no log and no state file. */
  lemma FreshNodeBoots(cfg: Config)
    requires RosterOk(cfg.members) && cfg.id in cfg.members
    ensures Boot(cfg, 0, [], None) == Returned(FreshNode(cfg))
    ensures Healthy(FreshNode(cfg))
  {
  }

  /** The cluster after a run of any length. */
  ghost function After(members: seq<NodeId>, durable: set<NodeId>, run: seq<Step>): (c: Cluster)
    requires RosterOk(members)
    ensures AllValid(c)
  {
    if run == [] then Genesis(members, durable)
    else Next(After(members, durable, run[..|run| - 1]), run[|run| - 1])
  }

  /** What one more step makes of a run. */
  lemma RunExtended(members: seq<NodeId>, durable: set<NodeId>, run: seq<Step>, step: Step)
    requires RosterOk(members) && Enabled(After(members, durable, run), step)
    ensures After(members, durable, run + [step]) == Next(After(members, durable, run), step)
    ensures var c := After(members, durable, run);
            && Valid(c.nodes[Actor(step)])
            && var r := React(c.nodes[Actor(step)], step);
            && Next(c, step).nodes == c.nodes[Actor(step) := r.state]
            && Next(c, step).messages == c.messages + Outgoing(r.state) + r.replies
  {
    hide Valid, React, Outgoing;
    assert (run + [step])[..|run|] == run;
    assert Valid(After(members, durable, run).nodes[Actor(step)]);
  }

  // ----- the invariant of runs -----

  ghost function View(c: Cluster): World {
    World(map n | n in c.nodes :: c.nodes[n].core, c.messages)
  }

  ghost predicate NodeFits(c: Cluster, members: seq<NodeId>, durable: set<NodeId>, n: NodeId)
    requires n in c.nodes
  {
    && c.nodes[n].cfg == Config(n, members, n in durable)
    && Healthy(c.nodes[n])
    && Outgoing(c.nodes[n]) <= c.messages
  }

  ghost predicate ClusterInv(c: Cluster, members: seq<NodeId>, durable: set<NodeId>, h: History) {
    && h.members == members
    && Inv(View(c), h)
    && (forall n {:trigger NodeFits(c, members, durable, n)} :: n in c.nodes ==> NodeFits(c, members, durable, n))
  }

  lemma GenesisInv(members: seq<NodeId>, durable: set<NodeId>) returns (h: History)
    requires RosterOk(members)
    ensures ClusterInv(Genesis(members, durable), members, durable, h)
  {
    h := History(members, map[], map[], map[]);
    var c := Genesis(members, durable);
    forall n | n in c.nodes ensures NodeFits(c, members, durable, n) {
      FreshNodeBoots(Config(n, members, n in durable));
    }
    forall n | n in c.nodes ensures NodeOk(h, n, View(c).cores[n]) {
    }
  }

  /** The acting node is placed in the world the step sees. */
  lemma ActorPlaced(c: Cluster, members: seq<NodeId>, durable: set<NodeId>, h: History, n: NodeId)
    requires ClusterInv(c, members, durable, h) && n in c.nodes
    ensures Placed(View(c), h, c.nodes[n]) && c.nodes[n].cfg == Config(n, members, n in durable)
  {
    assert NodeFits(c, members, durable, n);
  }

  lemma NodeHealthy(c: Cluster, members: seq<NodeId>, durable: set<NodeId>, h: History, n: NodeId)
    requires ClusterInv(c, members, durable, h) && n in c.nodes
    ensures Healthy(c.nodes[n])
  {
    assert NodeFits(c, members, durable, n);
  }

  lemma ViewAfter(c: Cluster, n: NodeId, s': NodeState, sent: set<Message>)
    requires n in c.nodes
    ensures View(Cluster(c.nodes[n := s'], c.messages + sent)) == Send(WithCore(View(c), n, s'.core), sent)
  {
  }

  /** Putting a reaction back into the cluster. */
  lemma ReactionFits(c: Cluster, members: seq<NodeId>, durable: set<NodeId>, h: History, h': History,
                     n: NodeId, s': NodeState, sent: set<Message>, c': Cluster)
    requires ClusterInv(c, members, durable, h) && n in c.nodes && h'.members == members
    requires s'.cfg == c.nodes[n].cfg && Healthy(s') && Outgoing(s') <= sent
    requires Inv(WithCore(View(c), n, s'.core), h')
    requires forall m :: m in sent && m !in c.messages ==> MessageOk(h', m)
    requires c' == Cluster(c.nodes[n := s'], c.messages + sent)
    ensures ClusterInv(c', members, durable, h')
  {
    hide Healthy, Inv, MessageOk, Outgoing;
    assert NodeFits(c, members, durable, n);
    var w' := WithCore(View(c), n, s'.core);
    ViewAfter(c, n, s', sent);
    forall m | m in sent ensures MessageOk(h', m) {
      if m in c.messages { WorldMessage(w', h', m); }
    }
    SendKeeps(w', h', sent);
    forall k | k in c'.nodes ensures NodeFits(c', members, durable, k) {
      if k != n { assert NodeFits(c, members, durable, k); }
    }
  }

  lemma WorldMessage(w: World, h: History, m: Message)
    requires Inv(w, h) && m in w.messages
    ensures MessageOk(h, m)
  {
  }

  /** Misuse the caller can avoid: a client command or heartbeat at a node that is not leader,
      or an empty command. */
  ghost predicate Misused(s: NodeState, step: Step) {
    || (step.Client? && (s.core.role != Leader || step.command == ""))
    || (step.Heartbeat? && s.core.role != Leader)
  }

  /** One enabled step keeps the invariant, and throws only when misused. */
  lemma StepInv(c: Cluster, members: seq<NodeId>, durable: set<NodeId>, h: History, step: Step)
    returns (h': History)
    requires ClusterInv(c, members, durable, h) && AllValid(c) && Enabled(c, step)
    ensures Later(h, h') && NewReigns(h, h', Next(c, step).nodes[Actor(step)])
    ensures ClusterInv(Next(c, step), members, durable, h')
    ensures Reacted(c, step).threw <==> Misused(c.nodes[Actor(step)], step)
  {
    hide Healthy, Valid, Keeps, Inv, MessageOk, Outgoing, NewReigns, Later;
    var n := Actor(step);
    var s := c.nodes[n];
    ActorPlaced(c, members, durable, h, n);
    h' := ReactionKeeps(c, members, durable, h, s, step);
    var r := Reacted(c, step);
    var sent := Outgoing(r.state) + r.replies;
    assert h.members == members;
    KeepsSent(View(c), h, h', r.state);
    assert Next(c, step).messages == c.messages + sent;
    ReactionFits(c, members, durable, h, h', n, r.state, sent, Next(c, step));
  }

  lemma KeepsSent(w: World, h: History, h': History, s: NodeState)
    requires Keeps(w, h, h', s)
    ensures Later(h, h') && NewReigns(h, h', s) && h'.members == h.members
    ensures Inv(WithCore(w, s.cfg.id, s.core), h')
    ensures forall m :: m in Outgoing(s) && m !in w.messages ==> MessageOk(h', m)
  {
  }

  lemma SentOk(c: Cluster, members: seq<NodeId>, durable: set<NodeId>, h: History, m: Message)
    requires ClusterInv(c, members, durable, h) && m in c.messages
    ensures MessageOk(h, m)
  {
    assert m in View(c).messages;
  }

  lemma ReactionKeeps(c: Cluster, members: seq<NodeId>, durable: set<NodeId>, h: History, s: NodeState, step: Step)
    returns (h': History)
    requires ClusterInv(c, members, durable, h) && Enabled(c, step) && s == c.nodes[Actor(step)]
    requires Placed(View(c), h, s) && s.cfg.id == Actor(step) && Valid(s)
    ensures Keeps(View(c), h, h', React(s, step).state)
    ensures Healthy(React(s, step).state) && React(s, step).state.cfg == s.cfg
    ensures forall m :: m in React(s, step).replies ==> MessageOk(h', m)
    ensures React(s, step).threw <==> Misused(s, step)
  {
    hide Healthy, Valid, Keeps, Inv, MessageOk, GoodCommands;
    var w := View(c);
    h' := h;
    PlacedHealthy(w, h, s);
    match step
    case Campaign(_) =>
      h' := StartElectionCall(w, h, s);
      StartElectionLocal(s);
    case Deliver(m) =>
      SentOk(c, members, durable, h, m);
      h' := DeliveryKeeps(w, h, s, m);
    case Client(_, command) =>
      h' := AppendCommandCall(w, h, s, command);
      AppendCommandLocal(s, command);
    case Heartbeat(_) =>
      QueueHeartbeatsCall(w, h, s);
      QueuesLocal(s, QueueHeartbeats(s).state);
    case VotesTaken(_) =>
      TakeCall(w, h, s);
      QueuesLocal(s, TakeVotes(s));
    case AppendsTaken(_) =>
      TakeCall(w, h, s);
      QueuesLocal(s, TakeAppends(s));
    case Restart(_) =>
      RestartCall(w, h, s);
      RestartRestores(s);
    case Interrupted(m) =>
      InterruptedCall(w, h, s, m);
      InterruptedRestores(s, m);
  }

  lemma InterruptedCall(w: World, h: History, s: NodeState, m: Message)
    requires Placed(w, h, s) && s.cfg.durable
    ensures Boot(s.cfg, 0, [], Struck(s, m).disk).Returned?
    ensures Keeps(w, h, h, Boot(s.cfg, 0, [], Struck(s, m).disk).value)
  {
    hide Healthy, Keeps, Inv, Boot, Placed;
    PlacedHealthy(w, h, s);
    InterruptedRestores(s, m);
    if Struck(s, m) == s {
      RestartCall(w, h, s);
    } else {
      BecomeFollowerCall(w, h, s, TermOf(m));
      RestartCall(WithCore(w, s.cfg.id, Struck(s, m).core), h, Struck(s, m));
      KeepsUnder(w, h, h, Struck(s, m).core, Boot(s.cfg, 0, [], Struck(s, m).disk).value);
    }
  }

  lemma PlacedHealthy(w: World, h: History, s: NodeState)
    requires Placed(w, h, s)
    ensures Healthy(s) && Valid(s) && h.members == s.cfg.members
    ensures s.core.role == Leader ==> ProgressOk(s.cfg, s.core)
  {
  }

  lemma TakeCall(w: World, h: History, s: NodeState)
    requires Placed(w, h, s)
    ensures Keeps(w, h, h, TakeVotes(s)) && Keeps(w, h, h, TakeAppends(s))
  {
    WithCoreBack(w, s.cfg.id);
  }

  lemma DeliveryKeeps(w: World, h: History, s: NodeState, m: Message) returns (h': History)
    requires Placed(w, h, s) && Valid(s) && m.to == s.cfg.id && MessageOk(h, m)
    ensures Keeps(w, h, h', React(s, Deliver(m)).state)
    ensures Healthy(React(s, Deliver(m)).state) && React(s, Deliver(m)).state.cfg == s.cfg
    ensures forall x :: x in React(s, Deliver(m)).replies ==> MessageOk(h', x)
    ensures !React(s, Deliver(m)).threw
  {
    hide Healthy, Valid, Keeps, Inv, MessageOk, GoodCommands;
    PlacedHealthy(w, h, s);
    h' := h;
    match m
    case VoteRequest(from, to, ask) =>
      h' := HandleRequestVoteCall(w, h, s, m);
      HandleRequestVoteLocal(s, ask);
    case VoteReply(from, to, ask, vote) =>
      h' := ReceiveVoteCall(w, h, s, m);
      ReceiveVoteLocal(s, from, vote);
    case AppendRequest(from, to, append) =>
      h' := HandleAppendEntriesCall(w, h, s, m);
      HandleAppendEntriesAnswers(w, h, s, m);
      HandleAppendEntriesLocal(s, append);
    case AppendReply(from, to, append, answer) =>
      ReceiveAppendResponseCall(w, h, s, m);
      ReceiveAppendResponseLocal(s, from, answer);
  }

  /** The invariant holds after every run. */
  lemma {:induction false} RunInv(members: seq<NodeId>, durable: set<NodeId>, run: seq<Step>)
    returns (h: History)
    requires RosterOk(members)
    ensures ClusterInv(After(members, durable, run), members, durable, h)
  {
    if run == [] {
      h := GenesisInv(members, durable);
    } else {
      var before := After(members, durable, run[..|run| - 1]);
      h := RunInv(members, durable, run[..|run| - 1]);
      var step := run[|run| - 1];
      if Enabled(before, step) {
        h := StepInv(before, members, durable, h, step);
      }
    }
  }
}
