/** Where terms come from, over whole runs: a message carries the term its sender was in, hearing
    it brings the addressee to that term, and only elections make new terms. A vote once given is
    given again as long as the log asks for it (src/raft_core.cpp:532-576, src/raft_core.cpp:889-1154). */
module RaftTerms {
  import opened RaftTypes
  import opened RaftNode
  import opened RaftProtocol
  import opened RaftLocal
  import opened RaftCalls
  import opened RaftCluster
  import opened RaftQueues
  import opened RaftTheorems
  import opened RaftHandlers

  // ----- one call -----

  /** The handler looks at the message: its author is a member, and an answer to an append comes
      from another one. */
  predicate Heeded(s: NodeState, m: Message) {
    AuthorOf(m) in s.cfg.members && (m.AppendReply? ==> m.from != s.cfg.id)
  }

  /** The term a step leads to. */
  ghost function TermAfter(s: NodeState, step: Step): nat {
    match step
    case Campaign(_) => s.core.term + 1
    case Deliver(m) => if Heeded(s, m) then Max(s.core.term, TermOf(m)) else s.core.term
    case Interrupted(m) => if Heeded(s, m) then Max(s.core.term, TermOf(m)) else s.core.term
    case _ => s.core.term
  }

  /** A call can be made of that node: one that comes back has a disk in step with it. */
  ghost predicate CanTake(s: NodeState, step: Step) {
    Valid(s) && (ComesBack(step) ==> Healthy(s) && s.cfg.durable)
  }

  lemma DeliveredTerm(s: NodeState, m: Message)
    requires Valid(s)
    ensures React(s, Deliver(m)).state.core.term == TermAfter(s, Deliver(m))
    ensures Heeded(s, m) && s.core.term < TermOf(m) ==> React(s, Deliver(m)).state.core.role == Follower
    ensures forall x :: x in React(s, Deliver(m)).replies ==>
              TermOf(x) == React(s, Deliver(m)).state.core.term && x.from == m.to && (x.VoteReply? || x.AppendReply?)
  {
    hide Valid, HandleRequestVote, ReceiveVote, HandleAppendEntries, ReceiveAppendResponse, TookOffice, GivesVote,
         Acceptable, Continues, Applies, SameStored, Saved, StepsBack, Confirms, CommitsByQuorum, ProgressOk;
    ValidProgress(s);
    match m
    case VoteRequest(from, to, ask) => VoteRequestHandled(s, ask);
    case VoteReply(from, to, ask, vote) => VoteReplyHandled(s, from, vote);
    case AppendRequest(from, to, append) => AppendRequestHandled(s, append);
    case AppendReply(from, to, append, answer) => AppendAnswerHandled(s, from, answer);
  }

  /** Every call leads to the later of the node's term and the one it hears, a campaign to the
      next; and a newer term heard leaves a follower. */
  lemma ReactTerm(s: NodeState, step: Step)
    requires CanTake(s, step)
    ensures React(s, step).state.core.term == TermAfter(s, step)
    ensures step.Deliver? && Heeded(s, step.message) && s.core.term < TermOf(step.message) ==>
              React(s, step).state.core.role == Follower
  {
    hide Valid, Healthy, StartElection, AppendCommand, QueueHeartbeats, Boot, CommitsByQuorum, Applies, FreshQueue,
         TookOffice, AsksEveryone, Saved, SameStored, ProgressOk;
    ValidProgress(s);
    match step
    case Campaign(_) => CampaignHandled(s);
    case Deliver(m) => DeliveredTerm(s, m);
    case Client(_, command) => CommandHandled(s, command);
    case Heartbeat(_) => HeartbeatHandled(s);
    case VotesTaken(_) =>
    case AppendsTaken(_) =>
    case Restart(_) => RestartRestores(s);
    case Interrupted(m) => InterruptedRestores(s, m);
  }

  /** What a call answers or has queued carries the term the node is left in. */
  lemma SentTerm(s: NodeState, step: Step, m: Message)
    requires CanTake(s, step) && Backed(s) && s.cfg.id == Actor(step)
    requires m in Outgoing(React(s, step).state) + React(s, step).replies
    ensures TermOf(m) == React(s, step).state.core.term && m.from == Actor(step)
  {
    hide Valid, Healthy, Backed, React;
    ReactBacked(s, step);
    ReactValid(s, step);
    if m in Outgoing(React(s, step).state) {
      QueuedTerm(React(s, step).state, m);
    } else {
      RepliesDelivered(s, step, m);
      DeliveredTerm(s, step.message);
    }
  }

  lemma QueuedTerm(s: NodeState, m: Message)
    requires Backed(s) && m in Outgoing(s)
    ensures TermOf(m) == s.core.term && m.from == s.cfg.id && (m.VoteRequest? || m.AppendRequest?)
  {
  }

  lemma RepliesDelivered(s: NodeState, step: Step, m: Message)
    requires Valid(s) && m in React(s, step).replies
    ensures step.Deliver?
  {
    hide Valid, HandleRequestVote, ReceiveVote, HandleAppendEntries, ReceiveAppendResponse, StartElection,
         AppendCommand, QueueHeartbeats, Boot;
  }

  // ----- a step of a run -----

  lemma ActorCan(members: seq<NodeId>, durable: set<NodeId>, run: seq<Step>, step: Step)
    requires RosterOk(members) && Enabled(After(members, durable, run), step)
    ensures var s := After(members, durable, run).nodes[Actor(step)];
            && CanTake(s, step) && Backed(s) && s.cfg.id == Actor(step)
            && (step.Deliver? || step.Interrupted? ==> Heeded(s, step.message))
  {
    hide After, Healthy, Backed, Inv;
    var c := After(members, durable, run);
    var h := RunInv(members, durable, run);
    RunBacked(members, durable, run);
    assert Backed(c.nodes[Actor(step)]);
    NodeHealthy(c, members, durable, h, Actor(step));
    ValidAt(c, Actor(step));
    ActorPlaced(c, members, durable, h, Actor(step));
    if step.Deliver? || step.Interrupted? {
      SentOk(c, members, durable, h, step.message);
      HistoryMembers(c, members, durable, h);
    }
  }

  /** Whoever is handed a message that was really sent, of whatever kind and however late, is
      then in the later of its own term and the message's, as a follower if that is new to it; a
      campaign leads to the next term, and no other step changes any term. */
  lemma HeardTerm(members: seq<NodeId>, durable: set<NodeId>, run: seq<Step>, step: Step, n: NodeId)
    requires RosterOk(members) && Enabled(After(members, durable, run), step)
    requires n in After(members, durable, run).nodes
    ensures n in Next(After(members, durable, run), step).nodes
    ensures var before, after := After(members, durable, run).nodes[n].core,
                                 Next(After(members, durable, run), step).nodes[n].core;
            && after.term == (if n != Actor(step) then before.term
                              else match step
                                   case Campaign(_) => before.term + 1
                                   case Deliver(m) => Max(before.term, TermOf(m))
                                   case Interrupted(m) => Max(before.term, TermOf(m))
                                   case _ => before.term)
            && (step.Deliver? && n == Actor(step) && before.term < TermOf(step.message) ==> after.role == Follower)
  {
    hide After, CanTake, React, Backed, Outgoing;
    ActorCan(members, durable, run, step);
    ReactTerm(After(members, durable, run).nodes[Actor(step)], step);
    RunExtended(members, durable, run, step);
  }

  // ----- who was in which term -----

  ghost predicate Held(members: seq<NodeId>, durable: set<NodeId>, run: seq<Step>, n: NodeId, term: nat)
    requires RosterOk(members)
  {
    exists i :: && 0 <= i <= |run| && n in After(members, durable, run[..i]).nodes
                && After(members, durable, run[..i]).nodes[n].core.term == term
  }

  /** The request that a reply answers. */
  ghost function RequestOf(m: Message): Message {
    match m
    case VoteReply(from, to, ask, _) => VoteRequest(to, from, ask)
    case AppendReply(from, to, append, _) => AppendRequest(to, from, append)
    case _ => m
  }

  /** Step i of the run delivers the request that m answers, and m is what came of it. */
  ghost predicate AnsweredAt(members: seq<NodeId>, durable: set<NodeId>, run: seq<Step>, m: Message, i: nat)
    requires RosterOk(members) && i < |run|
  {
    var c := After(members, durable, run[..i]);
    && run[i] == Deliver(RequestOf(m)) && Enabled(c, run[i])
    && m in Reacted(c, run[i]).replies
    && m.from in Next(c, run[i]).nodes && Next(c, run[i]).nodes[m.from].core.term == TermOf(m)
  }

  ghost predicate Answered(members: seq<NodeId>, durable: set<NodeId>, run: seq<Step>, m: Message)
    requires RosterOk(members)
  {
    exists i: nat :: i < |run| && AnsweredAt(members, durable, run, m, i)
  }

  lemma RepliesMatch(s: NodeState, step: Step, m: Message)
    requires Valid(s) && m in React(s, step).replies
    ensures step == Deliver(RequestOf(m)) && (m.VoteReply? || m.AppendReply?)
  {
    hide Valid, HandleRequestVote, ReceiveVote, HandleAppendEntries, ReceiveAppendResponse, StartElection,
         AppendCommand, QueueHeartbeats, Boot;
  }

  lemma QueuedKind(s: NodeState, m: Message)
    requires m in Outgoing(s)
    ensures m.VoteRequest? || m.AppendRequest?
  {
  }

  /** Every message ever sent carries a term its sender was in when it sent it; every reply is
      what the call that handled its request returned, and carries the term that call left its
      sender in. */
  lemma {:induction false} TermsWereHeld(members: seq<NodeId>, durable: set<NodeId>, run: seq<Step>, m: Message)
    requires RosterOk(members) && m in After(members, durable, run).messages
    ensures Held(members, durable, run, m.from, TermOf(m))
    ensures m.VoteReply? || m.AppendReply? ==> Answered(members, durable, run, m)
  {
    hide Valid, React, Backed, CanTake, Outgoing, Held, Answered, Enabled;
    if run != [] {
      var shorter, step := run[..|run| - 1], run[|run| - 1];
      var before := After(members, durable, shorter);
      assert shorter + [step] == run;
      if m in before.messages {
        TermsWereHeld(members, durable, shorter, m);
        HeldLater(members, durable, run, m);
      } else {
        assert Enabled(before, step);
        RunExtended(members, durable, shorter, step);
        ActorCan(members, durable, shorter, step);
        SentTerm(before.nodes[Actor(step)], step, m);
        SentNow(members, durable, shorter, step, m);
      }
    }
  }

  lemma SentNow(members: seq<NodeId>, durable: set<NodeId>, shorter: seq<Step>, step: Step, m: Message)
    requires RosterOk(members) && Enabled(After(members, durable, shorter), step)
    requires var s := After(members, durable, shorter).nodes[Actor(step)];
             && Valid(s) && m in Outgoing(React(s, step).state) + React(s, step).replies
             && TermOf(m) == React(s, step).state.core.term && m.from == Actor(step)
    ensures Held(members, durable, shorter + [step], m.from, TermOf(m))
    ensures m.VoteReply? || m.AppendReply? ==> Answered(members, durable, shorter + [step], m)
  {
    hide Valid, React, Outgoing, Enabled;
    var run, before := shorter + [step], After(members, durable, shorter);
    RunExtended(members, durable, shorter, step);
    assert run[..|run|] == run && run[..|shorter|] == shorter && run[|shorter|] == step;
    assert After(members, durable, run[..|run|]).nodes[m.from].core.term == TermOf(m);
    if m.VoteReply? || m.AppendReply? {
      if m in Outgoing(React(before.nodes[Actor(step)], step).state) {
        QueuedKind(React(before.nodes[Actor(step)], step).state, m);
      }
      RepliesMatch(before.nodes[Actor(step)], step, m);
      assert AnsweredAt(members, durable, run, m, |shorter|);
    }
  }

  lemma HeldLater(members: seq<NodeId>, durable: set<NodeId>, run: seq<Step>, m: Message)
    requires RosterOk(members) && run != []
    requires Held(members, durable, run[..|run| - 1], m.from, TermOf(m))
    requires m.VoteReply? || m.AppendReply? ==> Answered(members, durable, run[..|run| - 1], m)
    ensures Held(members, durable, run, m.from, TermOf(m))
    ensures m.VoteReply? || m.AppendReply? ==> Answered(members, durable, run, m)
  {
    hide After, Enabled, Reacted, Next;
    var shorter := run[..|run| - 1];
    var i :| && 0 <= i <= |shorter| && m.from in After(members, durable, shorter[..i]).nodes
             && After(members, durable, shorter[..i]).nodes[m.from].core.term == TermOf(m);
    assert shorter[..i] == run[..i];
    if m.VoteReply? || m.AppendReply? {
      var k: nat :| k < |shorter| && AnsweredAt(members, durable, shorter, m, k);
      assert shorter[..k] == run[..k] && shorter[k] == run[k];
      assert AnsweredAt(members, durable, run, m, k);
    }
  }

  // ----- only elections make terms -----

  /** All terms that nodes are in or messages carry. */
  ghost predicate TermsAmong(c: Cluster, terms: iset<nat>) {
    && (forall n :: n in c.nodes ==> c.nodes[n].core.term in terms)
    && (forall m :: m in c.messages ==> TermOf(m) in terms)
  }

  lemma StepTerms(members: seq<NodeId>, durable: set<NodeId>, run: seq<Step>, step: Step, terms: iset<nat>)
    requires RosterOk(members) && Enabled(After(members, durable, run), step)
    requires TermsAmong(After(members, durable, run), terms)
    requires step.Campaign? ==> After(members, durable, run).nodes[Actor(step)].core.term + 1 in terms
    ensures TermsAmong(After(members, durable, run + [step]), terms)
  {
    hide After, Valid, React, Backed, CanTake, Outgoing;
    var c := After(members, durable, run);
    RunExtended(members, durable, run, step);
    ActorCan(members, durable, run, step);
    var s := c.nodes[Actor(step)];
    ReactTerm(s, step);
    var c' := After(members, durable, run + [step]);
    assert React(s, step).state.core.term in terms;
    forall m | m in c'.messages ensures TermOf(m) in terms {
      if m !in c.messages { SentTerm(s, step, m); }
    }
  }

  /** A step of the run is a campaign for that term. */
  ghost predicate Contested(members: seq<NodeId>, durable: set<NodeId>, run: seq<Step>, term: nat)
    requires RosterOk(members)
  {
    exists i :: && 0 <= i < |run| && run[i].Campaign? && run[i].node in After(members, durable, run[..i]).nodes
                && After(members, durable, run[..i]).nodes[run[i].node].core.term + 1 == term
  }

  ghost function Campaigns(run: seq<Step>): nat {
    if run == [] then 0 else Campaigns(run[..|run| - 1]) + if run[|run| - 1].Campaign? then 1 else 0
  }

  ghost predicate Counted(run: seq<Step>, term: nat) {
    term <= Campaigns(run)
  }

  lemma ContestedLater(members: seq<NodeId>, durable: set<NodeId>, run: seq<Step>, step: Step, term: nat)
    requires RosterOk(members)
    ensures Contested(members, durable, run, term) ==> Contested(members, durable, run + [step], term)
    ensures var c := After(members, durable, run);
            step.Campaign? && step.node in c.nodes && c.nodes[step.node].core.term + 1 == term ==>
              Contested(members, durable, run + [step], term)
  {
    hide After;
    var longer := run + [step];
    assert longer[..|run|] == run && longer[|run|] == step;
    if Contested(members, durable, run, term) {
      var i :| && 0 <= i < |run| && run[i].Campaign? && run[i].node in After(members, durable, run[..i]).nodes
               && After(members, durable, run[..i]).nodes[run[i].node].core.term + 1 == term;
      assert longer[..i] == run[..i] && longer[i] == run[i];
    }
  }

  /** Terms come from elections only: a term above zero that any node is in, or any message
      carries, is one that some node campaigned for, from the term before; and no term exceeds
      the number of campaigns. */
  lemma {:induction false} TermsAreContested(members: seq<NodeId>, durable: set<NodeId>, run: seq<Step>)
    requires RosterOk(members)
    ensures TermsAmong(After(members, durable, run), iset t | t == 0 || Contested(members, durable, run, t))
    ensures TermsAmong(After(members, durable, run), iset t | Counted(run, t))
  {
    hide Contested, Next, Enabled;
    if run != [] {
      var shorter, step := run[..|run| - 1], run[|run| - 1];
      var before := After(members, durable, shorter);
      TermsAreContested(members, durable, shorter);
      assert shorter + [step] == run;
      forall t { ContestedLater(members, durable, shorter, step, t); }
      var contested := iset t | t == 0 || Contested(members, durable, run, t);
      var counted := iset t | Counted(run, t);
      assert TermsAmong(before, contested) && TermsAmong(before, counted);
      if Enabled(before, step) {
        EnabledActor(before, step);
        StepTerms(members, durable, shorter, step, contested);
        StepTerms(members, durable, shorter, step, counted);
      } else {
        NotEnabled(before, step);
      }
    }
  }

  lemma EnabledActor(c: Cluster, step: Step)
    requires Enabled(c, step)
    ensures Actor(step) in c.nodes
  {
  }
}
