/** One node against anything: arbitrary calls in arbitrary order, with messages that no
    cluster would ever send. */
module RaftLocalRuns {
  import opened RaftTypes
  import opened KeyValue
  import opened RaftNode
  import opened RaftLocal
  import opened RaftCluster
  import opened RaftTheorems
  import opened RaftStorage

  /** The node after a sequence of calls; a delivery is a call with any message at all. */
  ghost function Obey(s: NodeState, inputs: seq<Step>): (s': NodeState)
    requires Valid(s)
    ensures Valid(s') && s'.cfg == s.cfg
  {
    if inputs == [] then s
    else
      var before := Obey(s, inputs[..|inputs| - 1]);
      ReactValid(before, inputs[|inputs| - 1]);
      React(before, inputs[|inputs| - 1]).state
  }

  /** The commands in what the node is handed are applicable, and only a node with a storage
      path is restarted; nothing is asked of terms, indexes, senders or order. */
  ghost predicate WellFormed(cfg: Config, input: Step) {
    && (input.Deliver? && input.message.AppendRequest? ==> GoodCommands(input.message.append.entries))
    && (input.Client? ==> Applicable(input.command))
    && (ComesBack(input) ==> cfg.durable)
  }

  lemma ReactHealthy(s: NodeState, input: Step)
    requires Valid(s) && Healthy(s) && WellFormed(s.cfg, input)
    ensures Healthy(React(s, input).state)
  {
    hide Valid, Healthy;
    match input
    case Campaign(_) => StartElectionLocal(s);
    case Deliver(VoteRequest(from, to, ask)) => HandleRequestVoteLocal(s, ask);
    case Deliver(VoteReply(from, to, ask, vote)) => ReceiveVoteLocal(s, from, vote);
    case Deliver(AppendRequest(from, to, append)) => HandleAppendEntriesLocal(s, append);
    case Deliver(AppendReply(from, to, append, answer)) => ReceiveAppendResponseLocal(s, from, answer);
    case Client(_, command) => AppendCommandLocal(s, command);
    case Heartbeat(_) =>
      ValidProgress(s);
      QueuesLocal(s, QueueHeartbeats(s).state);
    case VotesTaken(_) => QueuesLocal(s, TakeVotes(s));
    case AppendsTaken(_) => QueuesLocal(s, TakeAppends(s));
    case Restart(_) => RestartRestores(s);
    case Interrupted(m) => InterruptedRestores(s, m);
  }

  /** Under any calls with well-formed commands: the commit index and the committed prefix only
      grow, everything committed is applied, the journal is the committed commands in order,
      the map is their replay, and the disk holds what must survive. */
  lemma {:induction false} LocalReplay(s: NodeState, inputs: seq<Step>)
    requires Healthy(s) && forall i :: 0 <= i < |inputs| ==> WellFormed(s.cfg, inputs[i])
    ensures Healthy(Obey(s, inputs)) && Advances(s, Obey(s, inputs))
    ensures var s' := Obey(s, inputs);
            && s.core.commit <= s'.core.commit <= |s'.core.log| && s.core.commit <= |s.core.log|
            && s'.core.log[..s.core.commit] == s.core.log[..s.core.commit]
            && s'.machine.lastApplied == s'.core.commit
            && s'.machine.journal == Commands(s'.core.log[..s'.core.commit])
            && s.machine.journal <= s'.machine.journal
            && (forall c :: c in s'.machine.journal ==> Applicable(c))
            && s'.machine.store == Replay(s'.machine.journal)
            && (s'.cfg.durable ==> s'.disk == Some(Persistent(s'.core)))
  {
    hide LogOk, React;
    if inputs == [] {
      AdvancesSelf(s);
    } else {
      var shorter, input := inputs[..|inputs| - 1], inputs[|inputs| - 1];
      LocalReplay(s, shorter);
      var before := Obey(s, shorter);
      ReactHealthy(before, input);
      ReactAdvances(before, input);
      AdvancesTrans(s, before, Obey(s, inputs));
    }
  }

  /** Under any calls at all, the log stays well formed, and what would be saved validates:
      terms are positive, never decrease and never exceed the current one, commands are not
      empty, and the commit index lies inside the log. */
  lemma LocalLogOk(s: NodeState, inputs: seq<Step>)
    requires Valid(s)
    ensures var s' := Obey(s, inputs);
            && LogOk(s'.core.log, s'.core.term) && s'.core.commit <= |s'.core.log|
            && StateOk(Persistent(s'.core))
  {
  }
}
