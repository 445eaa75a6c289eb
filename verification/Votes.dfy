/** What becomes of a vote: delivered again while the voter is still in the term, its request is
    granted again exactly while the voter's log has not overtaken the candidate's, and so at least
    as long as the term has no leader (src/raft_core.cpp:889-951). */
module RaftVotes {
  import opened RaftTypes
  import opened RaftNode
  import opened RaftProtocol
  import opened RaftLocal
  import opened RaftCluster
  import opened RaftTheorems
  import opened RaftHandlers
  import opened RaftTerms

  // ----- when logs change -----

  /** Only a client's command at a leader, and a request accepted, touch a log; the request is of
      the term the node is left in. */
  lemma LogChanges(s: NodeState, step: Step)
    requires CanTake(s, step) && React(s, step).state.core.log != s.core.log
    ensures || (step.Client? && s.core.role == Leader)
            || (&& step.Deliver? && step.message.AppendRequest?
                && React(s, step).state.core.term == step.message.append.term)
  {
    hide Valid, Healthy, StartElection, AppendCommand, QueueHeartbeats, Boot, HandleRequestVote, ReceiveVote,
         HandleAppendEntries, ReceiveAppendResponse, CommitsByQuorum, Applies, FreshQueue, TookOffice, AsksEveryone,
         Saved, ProgressOk, Acceptable, Continues, GivesVote, StepsBack, Confirms;
    ValidProgress(s);
    match step
    case Campaign(_) => CampaignHandled(s);
    case Deliver(VoteRequest(from, to, ask)) => VoteRequestHandled(s, ask);
    case Deliver(VoteReply(from, to, ask, vote)) => VoteReplyHandled(s, from, vote);
    case Deliver(AppendRequest(from, to, append)) => AppendRequestHandled(s, append);
    case Deliver(AppendReply(from, to, append, answer)) => AppendAnswerHandled(s, from, answer);
    case Client(_, command) => CommandHandled(s, command);
    case Heartbeat(_) => HeartbeatHandled(s);
    case VotesTaken(_) =>
    case AppendsTaken(_) =>
    case Restart(_) => RestartRestores(s);
    case Interrupted(m) => InterruptedRestores(s, m);
  }

  /** Somebody has led the term by the end of the run. */
  ghost predicate Led(members: seq<NodeId>, durable: set<NodeId>, run: seq<Step>, term: nat)
    requires RosterOk(members)
  {
    exists l :: Reigned(members, durable, run, l, term)
  }

  /** A step that changes a log in a term shows that somebody has led that term. */
  lemma LogStepLed(members: seq<NodeId>, durable: set<NodeId>, run: seq<Step>, step: Step)
    requires RosterOk(members) && Enabled(After(members, durable, run), step)
    ensures var s := After(members, durable, run).nodes[Actor(step)];
            && CanTake(s, step)
            && (React(s, step).state.core.log != s.core.log ==>
                  Led(members, durable, run, React(s, step).state.core.term))
  {
    hide After, CanTake, React, Reigned, ClusterInv;
    ActorCan(members, durable, run, step);
    var c := After(members, durable, run);
    var s := c.nodes[Actor(step)];
    if React(s, step).state.core.log != s.core.log {
      LogChanges(s, step);
      ReactTerm(s, step);
      var h := ReignsHappened(members, durable, run);
      if step.Client? {
        ReignsNow(members, durable, run, Actor(step), s.core.term);
      } else {
        SentOk(c, members, durable, h, step.message);
      }
    }
  }

  /** While a term has no leader, nothing changes the log of a node that is in it. */
  lemma {:induction false} LogRests(members: seq<NodeId>, durable: set<NodeId>, run: seq<Step>, i: nat, n: NodeId,
                                    term: nat)
    requires RosterOk(members) && i <= |run|
    requires n in After(members, durable, run[..i]).nodes && n in After(members, durable, run).nodes
    requires After(members, durable, run[..i]).nodes[n].core.term == term
    requires After(members, durable, run).nodes[n].core.term == term
    requires !Led(members, durable, run, term)
    ensures After(members, durable, run).nodes[n].core.log == After(members, durable, run[..i]).nodes[n].core.log
    decreases |run|
  {
    hide Valid, React, CanTake, Enabled, Led, Advances;
    if i == |run| {
      assert run[..i] == run;
    } else {
      var shorter, step := run[..|run| - 1], run[|run| - 1];
      assert shorter + [step] == run && shorter[..i] == run[..i];
      var before := After(members, durable, shorter);
      NotLedBefore(members, durable, run, term);
      TermBetween(members, durable, run, i, n);
      LogRests(members, durable, shorter, i, n, term);
      if Enabled(before, step) {
        RunExtended(members, durable, shorter, step);
        LogStepLed(members, durable, shorter, step);
      } else {
        NotEnabled(before, step);
      }
    }
  }

  lemma NotLedBefore(members: seq<NodeId>, durable: set<NodeId>, run: seq<Step>, term: nat)
    requires RosterOk(members) && run != [] && !Led(members, durable, run, term)
    ensures !Led(members, durable, run[..|run| - 1], term)
  {
    hide Reigned;
    if Led(members, durable, run[..|run| - 1], term) {
      var l :| Reigned(members, durable, run[..|run| - 1], l, term);
      ReignedLater(members, durable, run, l, term);
    }
  }

  /** Terms only grow, so a node in the same term at two moments was in it just before the later. */
  lemma TermBetween(members: seq<NodeId>, durable: set<NodeId>, run: seq<Step>, i: nat, n: NodeId)
    requires RosterOk(members) && i < |run|
    requires n in After(members, durable, run[..i]).nodes && n in After(members, durable, run).nodes
    ensures n in After(members, durable, run[..|run| - 1]).nodes
    ensures After(members, durable, run[..i]).nodes[n].core.term
            <= After(members, durable, run[..|run| - 1]).nodes[n].core.term
            <= After(members, durable, run).nodes[n].core.term
  {
    hide After, Healthy;
    CommitOnlyGrows(members, durable, run, i, |run| - 1, n);
    CommitOnlyGrows(members, durable, run, |run| - 1, |run|, n);
    assert run[..|run|] == run;
  }

  // ----- a vote once given -----

  /** The voter still stands by its vote. */
  lemma VoteStands(members: seq<NodeId>, durable: set<NodeId>, run: seq<Step>, m: Message)
    requires RosterOk(members) && m in After(members, durable, run).messages
    requires m.VoteReply? && m.vote.voteGranted
    ensures m.from in After(members, durable, run).nodes && m.to in members
    ensures After(members, durable, run).nodes[m.from].cfg.members == members
    ensures After(members, durable, run).nodes[m.from].core.term == m.vote.term ==>
              After(members, durable, run).nodes[m.from].core.votedFor == Some(m.to)
  {
    hide After, Healthy, Sourced, CommittedLog;
    var c := After(members, durable, run);
    var h := RunInv(members, durable, run);
    SentOk(c, members, durable, h, m);
    HistoryMembers(c, members, durable, h);
    MemberIsNode(c, members, durable, h, m.from);
    NodeAt(c, members, durable, h, m.from);
  }

  /** When the vote was given: the log was not ahead of the request, and stayed as it was. */
  lemma WhenGranted(members: seq<NodeId>, durable: set<NodeId>, run: seq<Step>, m: Message) returns (i: nat)
    requires RosterOk(members) && m in After(members, durable, run).messages
    requires m.VoteReply? && m.vote.voteGranted
    ensures i <= |run| && m.vote.term == m.ask.term && m.ask.candidateId == m.to
    ensures var c := After(members, durable, run[..i]);
            && m.from in c.nodes && c.nodes[m.from].core.term == m.vote.term
            && NotBehind(m.ask.lastLogIndex, m.ask.lastLogTerm, c.nodes[m.from].core.log)
  {
    hide After, Valid, React, Saved, NotBehind;
    TermsWereHeld(members, durable, run, m);
    var k: nat :| k < |run| && AnsweredAt(members, durable, run, m, k);
    i := k + 1;
    var c := After(members, durable, run[..k]);
    assert run[..i] == run[..k] + [run[k]];
    RunExtended(members, durable, run[..k], run[k]);
    ActorCan(members, durable, run[..k], run[k]);
    GrantedBy(c.nodes[m.from], m);
    var h := RunInv(members, durable, run[..k]);
    SentOk(c, members, durable, h, RequestOf(m));
  }

  lemma GrantedBy(s: NodeState, m: Message)
    requires Valid(s) && m.VoteReply? && m.vote.voteGranted && m in React(s, Deliver(RequestOf(m))).replies
    ensures GivesVote(s, m.ask) && m.vote.term == m.ask.term
    ensures React(s, Deliver(RequestOf(m))).state.core.term == m.ask.term
    ensures React(s, Deliver(RequestOf(m))).state.core.log == s.core.log
  {
    hide Valid, HandleRequestVote, Saved, NotBehind;
    VoteRequestHandled(s, m.ask);
  }

  /** A granted request, delivered again while the voter is still in that term, leaves the voter
      as it is and is granted again, with the same reply, exactly as long as the voter's log has not
      got ahead of it. It has not as long as nobody has led the term: a candidate whose reply was
      lost can still collect the vote. */
  lemma GrantRepeats(members: seq<NodeId>, durable: set<NodeId>, run: seq<Step>, m: Message)
    requires RosterOk(members) && m in After(members, durable, run).messages
    requires m.VoteReply? && m.vote.voteGranted
    requires m.from in After(members, durable, run).nodes
    requires After(members, durable, run).nodes[m.from].core.term == m.vote.term
    ensures var s := After(members, durable, run).nodes[m.from];
            var o := HandleRequestVote(s, m.ask);
            && o.state.core == s.core && o.state.machine == s.machine
            && (o.reply == Returned(m.vote) <==> NotBehind(m.ask.lastLogIndex, m.ask.lastLogTerm, s.core.log))
            && (o.reply != Returned(m.vote) ==> o.reply == Returned(RequestVoteResponse(m.vote.term, false)))
            && (!Led(members, durable, run, m.vote.term) ==> o.reply == Returned(m.vote))
  {
    hide After, Valid, HandleRequestVote, Saved, NotBehind, Led;
    VoteStands(members, durable, run, m);
    var i := WhenGranted(members, durable, run, m);
    var s := After(members, durable, run).nodes[m.from];
    ValidAt(After(members, durable, run), m.from);
    VoteRequestHandled(s, m.ask);
    if !Led(members, durable, run, m.vote.term) {
      LogRests(members, durable, run, i, m.from, m.vote.term);
    }
  }
}
