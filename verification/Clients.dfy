/** Where commands come from: no run ever stores, sends or applies a command that no client
    gave to a leader. With the service as the only client entry, every command was built by
    make_set_command or make_delete_command (src/raft_service.cpp:163-202, 238-272). */
module RaftClients {
  import opened RaftTypes
  import opened RaftNode
  import opened RaftProtocol
  import opened RaftLocal
  import opened RaftCalls
  import opened RaftCluster

  /** The commands that clients gave in a run. */
  ghost function Given(run: seq<Step>): set<string> {
    set i | 0 <= i < |run| && run[i].Client? :: run[i].command
  }

  ghost predicate From(log: seq<LogEntry>, given: set<string>) {
    forall i :: 0 <= i < |log| ==> log[i].command in given
  }

  ghost predicate QueueFrom(q: seq<AppendEntriesAction>, given: set<string>) {
    forall a :: a in q ==> From(a.request.entries, given)
  }

  ghost predicate Supplied(s: NodeState, given: set<string>) {
    From(s.core.log, given) && QueueFrom(s.appendQueue, given)
  }

  ghost predicate MessageFrom(m: Message, given: set<string>) {
    m.AppendRequest? ==> From(m.append.entries, given)
  }

  ghost predicate ClusterFrom(c: Cluster, given: set<string>) {
    && (forall n {:trigger Supplied(c.nodes[n], given)} :: n in c.nodes ==> Supplied(c.nodes[n], given))
    && (forall m {:trigger MessageFrom(m, given)} :: m in c.messages ==> MessageFrom(m, given))
  }

  // ----- one call -----

  lemma ActionsFrom(cfg: Config, core: Core, given: set<string>)
    requires ProgressOk(cfg, core) && From(core.log, given)
    ensures QueueFrom(AppendActions(cfg, core), given)
  {
    hide Peers;
    var peers, q := Peers(cfg.members, cfg.id), AppendActions(cfg, core);
    forall i | 0 <= i < |q| ensures From(q[i].request.entries, given) {
      assert peers[i] in peers;
      assert IsPeer(cfg, peers[i]);
      assert q[i].request == MakeAppendRequest(cfg, core, peers[i]);
    }
  }

  lemma OfficeFrom(s: NodeState, given: set<string>)
    requires From(s.core.log, given)
    ensures Supplied(TakeOffice(s), given)
  {
    hide AppendActions, ProgressOk, QueueFrom;
    CrownProgress(s.cfg, s.core);
    ActionsFrom(s.cfg, Crown(s.cfg, s.core), given);
  }

  lemma MergedFrom(log: seq<LogEntry>, prev: nat, entries: seq<LogEntry>, given: set<string>)
    requires prev <= |log| && From(log, given) && From(entries, given)
    ensures From(Merged(log, prev, entries), given)
  {
  }

  lemma AppendHandledFrom(s: NodeState, request: AppendEntriesRequest, given: set<string>)
    requires Valid(s) && Supplied(s, given) && From(request.entries, given)
    ensures Supplied(HandleAppendEntries(s, request).state, given)
  {
    hide EntriesOk, ReplacesCommitted, From, Merged, ApplyCommitted, Valid, QueueFrom;
    ValidProgress(s);
    NoActions(given);
    if request.leaderId in s.cfg.members && s.core.term <= request.term {
      var s1 := FollowLeader(s, request);
      if PreviousMatches(s1.core.log, request.prevLogIndex, request.prevLogTerm) {
        MergedFrom(s1.core.log, request.prevLogIndex, request.entries, given);
      }
    }
  }

  lemma CommandFrom(s: NodeState, command: string, given: set<string>)
    requires Valid(s) && Supplied(s, given) && command in given
    ensures Supplied(AppendCommand(s, command).state, given)
  {
    hide AdvanceCommit, AppendActions, QueueFrom, ProgressOk, LogOk, Applied;
    ValidProgress(s);
    if s.core.role == Leader && command != "" {
      var s1 := s.(core := AppendEntry(s.core, command));
      AppendEntryLocal(s, command);
      AdvanceCommitLocal(s1);
      ActionsFrom(s.cfg, AdvanceCommit(s1).0.core, given);
    }
  }

  lemma AnswerFrom(s: NodeState, follower: NodeId, response: AppendEntriesResponse, given: set<string>)
    requires Valid(s) && Supplied(s, given)
    ensures s.core.commit <= |s.core.log| && (s.core.role == Leader ==> ProgressOk(s.cfg, s.core))
    ensures Supplied(ReceiveAppendResponse(s, follower, response).state, given)
  {
    hide AdvanceCommit, From, QueueFrom, Valid, ProgressOk, Healthy, Advances;
    NoActions(given);
    ValidProgress(s);
    if s.core.role == Leader && IsPeer(s.cfg, follower) && response.matchedIndex <= |s.core.log| {
      RecordMatchLocal(s, follower, response.matchedIndex);
      AdvanceCommitLocal(s.(core := RecordMatch(s.core, follower, response.matchedIndex)));
    }
  }

  lemma HeartbeatFrom(s: NodeState, given: set<string>)
    requires Valid(s) && Supplied(s, given)
    ensures s.core.role == Leader ==> ProgressOk(s.cfg, s.core)
    ensures Supplied(QueueHeartbeats(s).state, given)
  {
    hide AppendActions, QueueFrom, ProgressOk;
    ValidProgress(s);
    if s.core.role == Leader { ActionsFrom(s.cfg, s.core, given); }
  }

  lemma VoteFrom(s: NodeState, voter: NodeId, response: RequestVoteResponse, given: set<string>)
    requires Supplied(s, given)
    ensures Supplied(ReceiveVote(s, voter, response).state, given)
  {
    hide From, TakeOffice;
    OfficeFrom(s.(core := s.core.(votes := s.core.votes + {voter})), given);
  }

  lemma CampaignFrom(s: NodeState, given: set<string>)
    requires Supplied(s, given)
    ensures Supplied(StartElection(s), given)
  {
    hide From, TakeOffice, VoteActions;
    var s2 := StartElection(s);
    if Majority(s.cfg.members) <= 1 {
      var core := s.core.(term := s.core.term + 1, role := Candidate, leaderId := None,
                          nextIndex := map[], matchIndex := map[],
                          votedFor := Some(s.cfg.id), votes := {s.cfg.id});
      OfficeFrom(Persist(s.(core := core, appendQueue := [])).(voteQueue := VoteActions(s.cfg, core)), given);
    }
  }

  lemma ReactFrom(s: NodeState, step: Step, given: set<string>)
    requires Valid(s) && Supplied(s, given)
    requires step.Deliver? ==> MessageFrom(step.message, given)
    requires step.Client? ==> step.command in given
    requires ComesBack(step) ==> Healthy(s) && s.cfg.durable
    ensures Supplied(React(s, step).state, given)
  {
    hide Valid, Healthy, From, QueueFrom, StartElection, HandleAppendEntries, ReceiveVote, AppendCommand,
         ReceiveAppendResponse, QueueHeartbeats, Boot;
    match step
    case Campaign(_) => CampaignFrom(s, given);
    case Deliver(VoteRequest(from, to, ask)) => NoActions(given);
    case Deliver(VoteReply(from, to, ask, vote)) => VoteFrom(s, from, vote, given);
    case Deliver(AppendRequest(from, to, append)) => AppendHandledFrom(s, append, given);
    case Deliver(AppendReply(from, to, append, answer)) => AnswerFrom(s, from, answer, given);
    case Client(_, command) => CommandFrom(s, command, given);
    case Heartbeat(_) => HeartbeatFrom(s, given);
    case VotesTaken(_) =>
    case AppendsTaken(_) => NoActions(given);
    case Restart(_) =>
      RestartRestores(s);
      NoActions(given);
    case Interrupted(m) =>
      InterruptedRestores(s, m);
      NoActions(given);
  }

  lemma NoActions(given: set<string>)
    ensures QueueFrom([], given)
  {
  }

  // ----- whole runs -----

  lemma MoreFrom(log: seq<LogEntry>, less: set<string>, more: set<string>)
    requires From(log, less) && less <= more
    ensures From(log, more)
  {
  }

  lemma MoreSupplied(c: Cluster, less: set<string>, more: set<string>)
    requires ClusterFrom(c, less) && less <= more
    ensures ClusterFrom(c, more)
  {
    hide From;
    forall n | n in c.nodes ensures Supplied(c.nodes[n], more) {
      assert Supplied(c.nodes[n], less);
      MoreFrom(c.nodes[n].core.log, less, more);
      forall a | a in c.nodes[n].appendQueue ensures From(a.request.entries, more) {
        MoreFrom(a.request.entries, less, more);
      }
    }
    forall m | m in c.messages ensures MessageFrom(m, more) {
      assert MessageFrom(m, less);
      if m.AppendRequest? { MoreFrom(m.append.entries, less, more); }
    }
  }

  lemma OutgoingFrom(s: NodeState, given: set<string>)
    requires QueueFrom(s.appendQueue, given)
    ensures forall m :: m in Outgoing(s) ==> MessageFrom(m, given)
  {
    hide From;
  }

  lemma StepFrom(c: Cluster, members: seq<NodeId>, durable: set<NodeId>, h: History, step: Step, given: set<string>)
    requires ClusterInv(c, members, durable, h) && AllValid(c) && Enabled(c, step)
    requires ClusterFrom(c, given) && (step.Client? ==> step.command in given)
    ensures ClusterFrom(Next(c, step), given)
  {
    hide ClusterInv, Valid, Healthy, Supplied, React, From, Outgoing, QueueFrom;
    var n := Actor(step);
    ValidAt(c, n);
    NodeHealthy(c, members, durable, h, n);
    assert Supplied(c.nodes[n], given);
    if step.Deliver? { assert MessageFrom(step.message, given); }
    ReactFrom(c.nodes[n], step, given);
    var r := React(c.nodes[n], step);
    SuppliedQueue(r.state, given);
    OutgoingFrom(r.state, given);
    RepliesFrom(c.nodes[n], step, given);
    var c' := Next(c, step);
    forall k | k in c'.nodes ensures Supplied(c'.nodes[k], given) {
      if k != n { assert Supplied(c.nodes[k], given); }
    }
    forall m | m in c'.messages ensures MessageFrom(m, given) {
      if m in c.messages { assert MessageFrom(m, given); }
    }
  }

  lemma SuppliedQueue(s: NodeState, given: set<string>)
    requires Supplied(s, given)
    ensures QueueFrom(s.appendQueue, given) && From(s.core.log, given)
  {
  }

  lemma RepliesFrom(s: NodeState, step: Step, given: set<string>)
    requires Valid(s)
    ensures forall m :: m in React(s, step).replies ==> MessageFrom(m, given)
  {
    hide Valid, HandleAppendEntries, HandleRequestVote, Boot;
  }

  lemma {:induction false} RunFrom(members: seq<NodeId>, durable: set<NodeId>, run: seq<Step>)
    requires RosterOk(members)
    ensures ClusterFrom(After(members, durable, run), Given(run))
  {
    hide ClusterInv, ClusterFrom, Next;
    if run == [] {
      NothingYet(members, durable, Given(run));
    } else {
      var shorter, step := run[..|run| - 1], run[|run| - 1];
      var before := After(members, durable, shorter);
      RunFrom(members, durable, shorter);
      GivenGrows(run);
      MoreSupplied(before, Given(shorter), Given(run));
      if Enabled(before, step) {
        var h := RunInv(members, durable, shorter);
        StepFrom(before, members, durable, h, step, Given(run));
      } else {
        NotEnabled(before, step);
      }
    }
  }

  lemma NothingYet(members: seq<NodeId>, durable: set<NodeId>, given: set<string>)
    requires RosterOk(members)
    ensures ClusterFrom(Genesis(members, durable), given)
  {
  }

  lemma GivenGrows(run: seq<Step>)
    requires run != []
    ensures Given(run[..|run| - 1]) <= Given(run)
    ensures run[|run| - 1].Client? ==> run[|run| - 1].command in Given(run)
  {
    var shorter := run[..|run| - 1];
    forall c | c in Given(shorter) ensures c in Given(run) {
      var i :| 0 <= i < |shorter| && shorter[i].Client? && shorter[i].command == c;
      assert run[i] == shorter[i];
    }
  }

  /** Raft invents nothing: every command in any log, any request ever sent and any journal
      was given by a client during the run. */
  lemma NothingInvented(members: seq<NodeId>, durable: set<NodeId>, run: seq<Step>)
    requires RosterOk(members)
    ensures var c := After(members, durable, run);
            && (forall n :: n in c.nodes ==> From(c.nodes[n].core.log, Given(run)))
            && (forall m :: m in c.messages && m.AppendRequest? ==> From(m.append.entries, Given(run)))
            && (forall n, x :: n in c.nodes && x in c.nodes[n].machine.journal ==> x in Given(run))
  {
    hide After, Given, LogOk;
    RunFrom(members, durable, run);
    var c := After(members, durable, run);
    forall n | n in c.nodes ensures From(c.nodes[n].core.log, Given(run)) {
      assert Supplied(c.nodes[n], Given(run));
    }
    forall m | m in c.messages && m.AppendRequest? ensures From(m.append.entries, Given(run)) {
      assert MessageFrom(m, Given(run));
    }
    forall n, x | n in c.nodes && x in c.nodes[n].machine.journal ensures x in Given(run) {
      assert Valid(c.nodes[n]);
      var log, m := c.nodes[n].core.log, c.nodes[n].machine;
      var i :| 0 <= i < |m.journal| && m.journal[i] == x;
      assert x == log[i].command;
    }
  }
}
