/** Every change a public call makes to one node keeps the invariant, with the history
    record that goes with it. */
module RaftSteps {
  import opened RaftTypes
  import opened KeyValue
  import opened RaftNode
  import opened RaftProtocol
  import opened RaftSafety

  ghost function WithCore(w: World, n: NodeId, core: Core): World {
    w.(cores := w.cores[n := core])
  }

  lemma WithCoreBack(w: World, n: NodeId)
    requires n in w.cores
    ensures WithCore(w, n, w.cores[n]) == w
  {
  }

  ghost function Send(w: World, messages: set<Message>): World {
    w.(messages := w.messages + messages)
  }

  /** Sending good messages. */
  lemma SendKeeps(w: World, h: History, messages: set<Message>)
    requires Inv(w, h)
    requires forall m :: m in messages ==> MessageOk(h, m)
    ensures Inv(Send(w, messages), h)
  {
    var w' := Send(w, messages);
    forall v | v in w'.cores ensures NodeOk(h, v, w'.cores[v]) {
      assert NodeOk(h, v, w.cores[v]);
    }
    forall m | m in w'.messages ensures MessageOk(h, m) {
      if m in w.messages { assert MessageOk(h, m); }
    }
  }

  /** A change that leaves the history alone. */
  lemma QuietStep(w: World, h: History, n: NodeId, core: Core)
    requires Inv(w, h) && n in w.cores
    requires w.cores[n].term <= core.term
    requires NodeOk(h, n, core)
    ensures Inv(WithCore(w, n, core), h)
  {
    var w' := WithCore(w, n, core);
    forall v | v in w'.cores ensures NodeOk(h, v, w'.cores[v]) {
      if v != n { assert NodeOk(h, v, w.cores[v]); }
    }
    forall m | m in w'.messages ensures MessageOk(h, m) {
      assert MessageOk(h, m);
    }
  }

  lemma LostLater(h: History, t: nat, n: nat, b: nat, c: nat)
    requires Lost(h, t, n, b) && b <= c
    ensures Lost(h, t, n, c)
  {
  }

  /** A later term excuses no less than an earlier one did. */
  lemma KeptLater(h: History, v: NodeId, core: Core, core': Core)
    requires KeptByNode(h, v, core)
    requires core'.log == core.log && core.term <= core'.term
    ensures KeptByNode(h, v, core')
  {
    forall t: nat, k: nat | Acked(h, v, t, k)
      ensures t <= core'.term && (Holds(h, t, k, core'.log) || Lost(h, t, k, core'.term + 1))
    {
      if Lost(h, t, k, core.term + 1) { LostLater(h, t, k, core.term + 1, core'.term + 1); }
    }
  }

  lemma RaiseTermKeeps(w: World, h: History, n: NodeId, term: nat)
    requires Inv(w, h) && n in w.cores && w.cores[n].term < term
    ensures Inv(WithCore(w, n, RaiseTerm(w.cores[n], term)), h)
  {
    var core := w.cores[n];
    var core' := RaiseTerm(core, term);
    assert NodeOk(h, n, core);
    KeptLater(h, n, core, core');
    CommittedPrefix(h, core.log[..core.commit], core.log[..core.commit], core.term, term);
    QuietStep(w, h, n, core');
  }

  /** Becoming a follower of the same term, and forgetting volatile state in a restart. */
  lemma ForgetKeeps(w: World, h: History, n: NodeId, core': Core)
    requires Inv(w, h) && n in w.cores
    requires core' == StepDown(w.cores[n]) || core' == StepDown(w.cores[n]).(leaderId := None)
    ensures Inv(WithCore(w, n, core'), h)
  {
    assert NodeOk(h, n, w.cores[n]);
    KeptLater(h, n, w.cores[n], core');
    QuietStep(w, h, n, core');
  }

  lemma SetLeaderKeeps(w: World, h: History, n: NodeId, leader: NodeId)
    requires Inv(w, h) && n in w.cores
    requires w.cores[n].term in h.reigns && h.reigns[w.cores[n].term].leader == leader
    ensures Inv(WithCore(w, n, w.cores[n].(leaderId := Some(leader))), h)
  {
    assert NodeOk(h, n, w.cores[n]);
    KeptLater(h, n, w.cores[n], w.cores[n].(leaderId := Some(leader)));
    QuietStep(w, h, n, w.cores[n].(leaderId := Some(leader)));
  }

  // ----- elections -----

  ghost function CampaignCore(core: Core, n: NodeId): Core {
    core.(term := core.term + 1, role := Candidate, leaderId := None,
          nextIndex := map[], matchIndex := map[], votedFor := Some(n), votes := {n})
  }

  ghost function AddBallot(h: History, v: NodeId, T: nat, b: Ballot): History {
    h.(ballots := h.ballots[(v, T) := b])
  }

  /** A new ballot of n in its own term fits the history. */
  lemma AddBallotGrows(h: History, n: NodeId, T: nat, b: Ballot)
    requires (n, T) !in h.ballots
    ensures GrowsBy(h, AddBallot(h, n, T, b), n, T)
  {
  }

  lemma CampaignKeeps(w: World, h: History, n: NodeId)
    requires Inv(w, h) && n in w.cores
    ensures var core := w.cores[n];
            var h' := AddBallot(h, n, core.term + 1, Ballot(n, core.log));
            GrowsBy(h, h', n, core.term + 1) && Inv(WithCore(w, n, CampaignCore(core, n)), h')
  {
    var core := w.cores[n];
    var T := core.term + 1;
    assert NodeOk(h, n, core);
    assert (n, T) !in h.ballots;
    var h' := AddBallot(h, n, T, Ballot(n, core.log));
    AddBallotGrows(h, n, T, Ballot(n, core.log));
    CampaignNode(h, h', n, core);
    CampaignBallot(h, h', n, core);
    assert forall k :: k in h'.ballots && k !in h.ballots ==> k == (n, T);
    StepKeeps(w, h, WithCore(w, n, CampaignCore(core, n)), h', n);
  }

  lemma KeptSame(h: History, h': History, n: NodeId, core: Core, core': Core)
    requires AcksOk(h) && KeptByNode(h, n, core)
    requires h'.acks == h.acks && h'.reigns == h.reigns
    requires core'.log == core.log && core.term <= core'.term
    ensures KeptByNode(h', n, core')
  {
    forall t: nat, k: nat | Acked(h', n, t, k)
      ensures t <= core'.term && (Holds(h', t, k, core'.log) || Lost(h', t, k, core'.term + 1))
    {
      assert Acked(h, n, t, k);
      if Holds(h, t, k, core.log) {
        assert Holds(h', t, k, core.log);
      } else {
        LostSame(h, h', t, k, core.term + 1);
        LostLater(h', t, k, core.term + 1, core'.term + 1);
      }
    }
  }

  lemma LostSame(h: History, h': History, t: nat, k: nat, b: nat)
    requires h'.reigns == h.reigns && Lost(h, t, k, b)
    ensures Lost(h', t, k, b)
  {
    var u :| t < u < b && u in h.reigns && !Holds(h, t, k, h.reigns[u].base);
    assert !Holds(h', t, k, h'.reigns[u].base);
  }

  lemma CampaignNode(h: History, h': History, n: NodeId, core: Core)
    requires HistoryOk(h) && NodeOk(h, n, core)
    requires h' == AddBallot(h, n, core.term + 1, Ballot(n, core.log))
    requires GrowsBy(h, h', n, core.term + 1)
    ensures NodeOk(h', n, CampaignCore(core, n))
  {
    var core' := CampaignCore(core, n);
    SourcedGrows(h, h', n, core'.term, core.log);
    CommittedGrows(h, h', n, core'.term, core.log[..core.commit], core.term);
    CommittedPrefix(h', core.log[..core.commit], core.log[..core.commit], core.term, core'.term);
    KeptSame(h, h', n, core, core');
    assert core'.term in h.reigns ==> h.reigns[core'.term].leader != n by {
      if core'.term in h.reigns { assert ReignOk(h, core'.term); }
    }
  }

  lemma CampaignBallot(h: History, h': History, n: NodeId, core: Core)
    requires HistoryOk(h) && NodeOk(h, n, core) && n in h.members
    requires h' == AddBallot(h, n, core.term + 1, Ballot(n, core.log))
    requires GrowsBy(h, h', n, core.term + 1)
    ensures BallotOk(h', n, core.term + 1)
  {
    var T := core.term + 1;
    SourcedGrows(h, h', n, T, core.log);
    forall t: nat, k: nat | t < T && Acked(h', n, t, k) ensures KeptByVoter(h', n, T, t, k) {
      assert Acked(h, n, t, k);
      if Holds(h, t, k, core.log) {
        assert Holds(h', t, k, core.log);
      } else {
        LostSame(h, h', t, k, T);
      }
    }
  }

  /** Granting a vote, for the first time or again. */
  lemma GrantKeeps(w: World, h: History, n: NodeId, m: Message) returns (h': History)
    requires Inv(w, h) && n in w.cores
    requires m.VoteRequest? && m.to == n && MessageOk(h, m)
    requires m.ask.term == w.cores[n].term
    requires w.cores[n].votedFor == None || w.cores[n].votedFor == Some(m.from)
    requires UpToDate(m.ask.lastLogIndex, m.ask.lastLogTerm, w.cores[n].log)
    ensures GrowsBy(h, h', n, w.cores[n].term) && h'.reigns == h.reigns
    ensures Inv(WithCore(w, n, w.cores[n].(votedFor := Some(m.from))), h')
    ensures (n, w.cores[n].term) in h'.ballots && h'.ballots[(n, w.cores[n].term)].candidate == m.from
  {
    if w.cores[n].votedFor.Some? {
      h' := h;
      SecondGrantKeeps(w, h, n, m.from);
    } else {
      h' := AddBallot(h, n, w.cores[n].term, Ballot(m.from, w.cores[n].log));
      FirstGrantKeeps(w, h, n, m);
    }
  }

  lemma SecondGrantKeeps(w: World, h: History, n: NodeId, candidate: NodeId)
    requires Inv(w, h) && n in w.cores && w.cores[n].votedFor == Some(candidate)
    ensures GrowsBy(h, h, n, w.cores[n].term)
    ensures Inv(WithCore(w, n, w.cores[n].(votedFor := Some(candidate))), h)
    ensures (n, w.cores[n].term) in h.ballots && h.ballots[(n, w.cores[n].term)].candidate == candidate
  {
    assert NodeOk(h, n, w.cores[n]);
    WithCoreBack(w, n);
  }

  lemma FirstGrantKeeps(w: World, h: History, n: NodeId, m: Message)
    requires Inv(w, h) && n in w.cores
    requires m.VoteRequest? && m.to == n && MessageOk(h, m)
    requires m.ask.term == w.cores[n].term && w.cores[n].votedFor == None
    requires UpToDate(m.ask.lastLogIndex, m.ask.lastLogTerm, w.cores[n].log)
    ensures var core := w.cores[n];
            var h' := AddBallot(h, n, core.term, Ballot(m.from, core.log));
            && GrowsBy(h, h', n, core.term)
            && (n, core.term) in h'.ballots && h'.ballots[(n, core.term)].candidate == m.from
            && Inv(WithCore(w, n, core.(votedFor := Some(m.from))), h')
  {
    var core := w.cores[n];
    var b := Ballot(m.from, core.log);
    var h' := AddBallot(h, n, core.term, b);
    assert NodeOk(h, n, core);
    AddBallotGrows(h, n, core.term, b);
    GrantNode(h, h', n, core, m.from);
    GrantBallot(h, h', n, core, m);
    assert forall k :: k in h'.ballots && k !in h.ballots ==> k == (n, core.term);
    StepKeeps(w, h, WithCore(w, n, core.(votedFor := Some(m.from))), h', n);
  }

  lemma GrantNode(h: History, h': History, n: NodeId, core: Core, candidate: NodeId)
    requires HistoryOk(h) && NodeOk(h, n, core) && core.votedFor == None
    requires h' == AddBallot(h, n, core.term, Ballot(candidate, core.log))
    requires GrowsBy(h, h', n, core.term)
    ensures NodeOk(h', n, core.(votedFor := Some(candidate)))
  {
    var core' := core.(votedFor := Some(candidate));
    SourcedGrows(h, h', n, core.term, core.log);
    CommittedGrows(h, h', n, core.term, core.log[..core.commit], core.term);
    KeptSame(h, h', n, core, core');
  }

  lemma GrantBallot(h: History, h': History, n: NodeId, core: Core, m: Message)
    requires HistoryOk(h) && NodeOk(h, n, core) && n in h.members && core.votedFor == None
    requires m.VoteRequest? && m.to == n && MessageOk(h, m) && m.ask.term == core.term
    requires UpToDate(m.ask.lastLogIndex, m.ask.lastLogTerm, core.log)
    requires h' == AddBallot(h, n, core.term, Ballot(m.from, core.log))
    requires GrowsBy(h, h', n, core.term)
    ensures BallotOk(h', n, core.term)
  {
    var T := core.term;
    SourcedGrows(h, h', n, T, core.log);
    assert BallotOk(h, m.from, T);
    forall t: nat, k: nat | t < T && Acked(h', n, t, k) ensures KeptByVoter(h', n, T, t, k) {
      assert Acked(h, n, t, k);
      if Holds(h, t, k, core.log) {
        assert Holds(h', t, k, core.log);
      } else {
        LostSame(h, h', t, k, T + 1);
        if T in h.reigns {
          assert ReignOk(h, T);
        } else {
          var u :| t < u < T + 1 && u in h'.reigns && !Holds(h', t, k, h'.reigns[u].base);
          assert u < T;
        }
      }
    }
  }

  lemma CountVoteKeeps(w: World, h: History, n: NodeId, voter: NodeId)
    requires Inv(w, h) && n in w.cores && w.cores[n].role == Candidate
    requires (voter, w.cores[n].term) in h.ballots && h.ballots[(voter, w.cores[n].term)].candidate == n
    ensures Inv(WithCore(w, n, w.cores[n].(votes := w.cores[n].votes + {voter})), h)
  {
    var core' := w.cores[n].(votes := w.cores[n].votes + {voter});
    assert NodeOk(h, n, w.cores[n]);
    KeptLater(h, n, w.cores[n], core');
    QuietStep(w, h, n, core');
  }

  /** Election Safety: nobody else can have won this term. */
  lemma TermIsFree(h: History, n: NodeId, core: Core)
    requires HistoryOk(h) && NodeOk(h, n, core)
    requires core.role == Candidate && Majority(h.members) <= |core.votes|
    ensures core.term !in h.reigns
    ensures Quorum(h.members, core.votes)
  {
    forall v | v in core.votes ensures v in h.members {
      assert BallotOk(h, v, core.term);
    }
    if core.term in h.reigns {
      assert ReignOk(h, core.term);
      var v := QuorumsMeet(h.members, core.votes, h.reigns[core.term].voters);
      assert false;
    }
  }

  ghost function Elect(h: History, n: NodeId, core: Core): History {
    h.(reigns := h.reigns[core.term := Reign(n, core.votes, core.log, core.log)],
       acks := h.acks[(n, core.term) := |core.log|])
  }

  lemma ElectGrows(h: History, n: NodeId, core: Core)
    requires AcksOk(h) && core.term !in h.reigns
    ensures GrowsBy(h, Elect(h, n, core), n, core.term)
    ensures AcksOk(Elect(h, n, core))
  {
    var h' := Elect(h, n, core);
    forall t | t in h.reigns ensures t in h'.reigns && Extends(h.reigns[t], h'.reigns[t]) {
    }
  }

  lemma ElectReign(h: History, n: NodeId, core: Core)
    requires HistoryOk(h) && NodeOk(h, n, core) && n in h.members
    requires core.role == Candidate && core.term !in h.reigns && Quorum(h.members, core.votes)
    requires GrowsBy(h, Elect(h, n, core), n, core.term)
    ensures ReignOk(Elect(h, n, core), core.term)
  {
    var h' := Elect(h, n, core);
    SourcedGrows(h, h', n, core.term, core.log);
    SourcedLogOk(h, core.log, core.term);
    assert BallotOk(h, n, core.term);
  }

  lemma KeptWithNewAcks(h: History, h': History, n: NodeId, core: Core, core': Core)
    requires AcksOk(h) && KeptByNode(h, n, core)
    requires core'.log == core.log && core'.term == core.term
    requires GrowsBy(h, h', n, core.term)
    requires forall k: nat :: Acked(h', n, core.term, k) ==> Holds(h', core.term, k, core.log)
    ensures KeptByNode(h', n, core')
  {
    forall t: nat, k: nat | Acked(h', n, t, k)
      ensures t <= core'.term && (Holds(h', t, k, core'.log) || Lost(h', t, k, core'.term + 1))
    {
      if t != core.term {
        AckedGrows(h, h', n, core.term, n, t, k);
        HoldsGrows(h, h', n, core.term, t, k, core.log);
        if Lost(h, t, k, core.term + 1) { LostGrows(h, h', n, core.term, t, k, core.term + 1); }
      }
    }
  }

  lemma ElectNode(h: History, n: NodeId, core: Core, core': Core)
    requires HistoryOk(h) && NodeOk(h, n, core)
    requires core.role == Candidate && core.term !in h.reigns
    requires GrowsBy(h, Elect(h, n, core), n, core.term)
    requires core' == core.(role := Leader, leaderId := Some(n),
                            nextIndex := core'.nextIndex, matchIndex := core'.matchIndex)
    requires forall f :: f in core'.matchIndex ==> core'.matchIndex[f] == 0
    ensures NodeOk(Elect(h, n, core), n, core')
  {
    var h' := Elect(h, n, core);
    SourcedGrows(h, h', n, core.term, core.log);
    CommittedGrows(h, h', n, core.term, core.log[..core.commit], core.term);
    KeptWithNewAcks(h, h', n, core, core');
  }

  lemma ElectKeeps(w: World, h: History, n: NodeId, core': Core)
    requires Inv(w, h) && n in w.cores
    requires w.cores[n].role == Candidate && Majority(h.members) <= |w.cores[n].votes|
    requires core' == w.cores[n].(role := Leader, leaderId := Some(n),
                                  nextIndex := core'.nextIndex, matchIndex := core'.matchIndex)
    requires forall f :: f in core'.matchIndex ==> core'.matchIndex[f] == 0
    ensures GrowsBy(h, Elect(h, n, w.cores[n]), n, w.cores[n].term)
    ensures Inv(WithCore(w, n, core'), Elect(h, n, w.cores[n]))
  {
    var core := w.cores[n];
    assert NodeOk(h, n, core);
    TermIsFree(h, n, core);
    ElectGrows(h, n, core);
    ElectReign(h, n, core);
    ElectNode(h, n, core, core');
    StepKeeps(w, h, WithCore(w, n, core'), Elect(h, n, core), n);
  }

  // ----- replication -----

  ghost function Extend(h: History, n: NodeId, core: Core, entry: LogEntry): History
    requires core.term in h.reigns
  {
    var log := core.log + [entry];
    h.(reigns := h.reigns[core.term := h.reigns[core.term].(log := log)],
       acks := h.acks[(n, core.term) := |log|])
  }

  lemma ExtendGrows(h: History, n: NodeId, core: Core, entry: LogEntry)
    requires AcksOk(h) && LeaderOk(h, n, core)
    ensures GrowsBy(h, Extend(h, n, core, entry), n, core.term)
    ensures AcksOk(Extend(h, n, core, entry))
  {
    var h' := Extend(h, n, core, entry);
    forall t | t in h.reigns ensures t in h'.reigns && Extends(h.reigns[t], h'.reigns[t]) {
    }
  }

  lemma ExtendSourced(h: History, n: NodeId, core: Core, entry: LogEntry)
    requires LeaderOk(h, n, core) && Sourced(h, core.log) && entry.term == core.term
    requires GrowsBy(h, Extend(h, n, core, entry), n, core.term)
    ensures Sourced(Extend(h, n, core, entry), core.log + [entry])
  {
    var h' := Extend(h, n, core, entry);
    var log := core.log + [entry];
    SourcedGrows(h, h', n, core.term, core.log);
    forall i | 0 <= i < |log| ensures SourcedAt(h', log, i) {
      if i < |core.log| {
        assert SourcedAt(h', core.log, i);
        assert log[..i + 1] == core.log[..i + 1];
      } else {
        assert log[..i + 1] == log;
      }
    }
  }

  lemma LongerLogOk(log: seq<LogEntry>, entry: LogEntry, term: nat)
    requires LogOk(log, term) && GoodCommands(log)
    requires entry.term == term && 0 < term && entry.command != "" && Applicable(entry.command)
    ensures LogOk(log + [entry], term) && GoodCommands(log + [entry])
  {
  }

  lemma ExtendReign(h: History, n: NodeId, core: Core, entry: LogEntry)
    requires LeaderOk(h, n, core) && ReignOk(h, core.term) && entry.term == core.term
    requires entry.command != "" && Applicable(entry.command)
    requires Sourced(Extend(h, n, core, entry), core.log + [entry])
    ensures ReignOk(Extend(h, n, core, entry), core.term)
  {
    LongerLogOk(core.log, entry, core.term);
    var r := h.reigns[core.term];
    PrefixOfPrefix(r.base, r.log, core.log + [entry]);
    assert forall i :: |r.base| <= i < |core.log + [entry]| ==> (core.log + [entry])[i].term == core.term;
  }

  lemma ExtendNode(h: History, n: NodeId, core: Core, entry: LogEntry)
    requires AcksOk(h) && NodeOk(h, n, core) && core.role == Leader
    requires entry.term == core.term
    requires GrowsBy(h, Extend(h, n, core, entry), n, core.term)
    requires Sourced(Extend(h, n, core, entry), core.log + [entry])
    ensures NodeOk(Extend(h, n, core, entry), n, core.(log := core.log + [entry]))
  {
    var h' := Extend(h, n, core, entry);
    var core' := core.(log := core.log + [entry]);
    assert core'.log[..core.commit] == core.log[..core.commit];
    CommittedGrows(h, h', n, core.term, core.log[..core.commit], core.term);
    ExtendKept(h, h', n, core, core');
    ExtendLeader(h, h', n, core, core');
    assert VotesOk(h', n, core');
  }

  lemma ExtendLeader(h: History, h': History, n: NodeId, core: Core, core': Core)
    requires LeaderOk(h, n, core) && GrowsBy(h, h', n, core.term)
    requires core'.term == core.term && core'.matchIndex == core.matchIndex
    requires h'.reigns[core.term].log == core'.log
    requires (n, core.term) in h'.acks && h'.acks[(n, core.term)] == |core'.log|
    ensures LeaderOk(h', n, core')
  {
    forall f | f in core'.matchIndex && 0 < core'.matchIndex[f]
      ensures Acked(h', f, core.term, core'.matchIndex[f])
    {
      AckedGrows(h, h', n, core.term, f, core.term, core'.matchIndex[f]);
    }
  }

  /** A longer log still holds what it held. */
  lemma ExtendKept(h: History, h': History, n: NodeId, core: Core, core': Core)
    requires AcksOk(h) && KeptByNode(h, n, core)
    requires GrowsBy(h, h', n, core.term)
    requires core'.term == core.term && core.log <= core'.log
    requires forall k: nat :: Acked(h', n, core.term, k) ==> Holds(h', core.term, k, core'.log)
    ensures KeptByNode(h', n, core')
  {
    forall t: nat, k: nat | Acked(h', n, t, k)
      ensures t <= core'.term && (Holds(h', t, k, core'.log) || Lost(h', t, k, core'.term + 1))
    {
      if t != core.term {
        AckedGrows(h, h', n, core.term, n, t, k);
        HoldsGrows(h, h', n, core.term, t, k, core'.log);
        if Lost(h, t, k, core.term + 1) {
          LostGrows(h, h', n, core.term, t, k, core.term + 1);
        } else {
          PrefixOfPrefix(h.reigns[t].log[..k], core.log, core'.log);
        }
      }
    }
  }

  lemma ExtendKeeps(w: World, h: History, n: NodeId, command: string)
    requires Inv(w, h) && n in w.cores && w.cores[n].role == Leader
    requires command != "" && Applicable(command)
    ensures w.cores[n].term in h.reigns
    ensures var h' := Extend(h, n, w.cores[n], LogEntry(w.cores[n].term, command));
            && GrowsBy(h, h', n, w.cores[n].term)
            && Inv(WithCore(w, n, AppendEntry(w.cores[n], command)), h')
  {
    var core := w.cores[n];
    var entry := LogEntry(core.term, command);
    assert NodeOk(h, n, core) && ReignOk(h, core.term);
    ExtendGrows(h, n, core, entry);
    ExtendSourced(h, n, core, entry);
    ExtendReign(h, n, core, entry);
    ExtendNode(h, n, core, entry);
    StepKeeps(w, h, WithCore(w, n, AppendEntry(core, command)), Extend(h, n, core, entry), n);
  }

  /** What a leader sends is a slice of its term's log. */
  lemma RequestIsSlice(h: History, cfg: Config, core: Core, follower: NodeId)
    requires NodeOk(h, cfg.id, core) && core.role == Leader
    requires follower in core.nextIndex && 1 <= core.nextIndex[follower] <= |core.log| + 1
    requires IsPeer(cfg, follower) && cfg.members == h.members && cfg.id in h.members
    ensures MessageOk(h, AppendRequest(cfg.id, follower, MakeAppendRequest(cfg, core, follower)))
  {
    var r := MakeAppendRequest(cfg, core, follower);
    assert r.entries == core.log[r.prevLogIndex..r.prevLogIndex + |r.entries|];
  }

  /** Before the first new offset, log and leader agree. */
  lemma AgreeUpTo(h: History, log: seq<LogEntry>, r: seq<LogEntry>, prev: nat, entries: seq<LogEntry>)
    requires Sourced(h, log) && Sourced(h, r)
    requires prev + |entries| <= |r| && entries == r[prev..prev + |entries|]
    requires prev <= |log| && (0 < prev ==> log[prev - 1].term == r[prev - 1].term)
    ensures var k := FirstNew(log, prev, entries, 0);
            prev + k <= |log| && log[..prev + k] == r[..prev + k]
  {
    var k := FirstNew(log, prev, entries, 0);
    if 0 < k {
      assert log[prev + (k - 1)].term == entries[k - 1].term;
      LogMatching(h, log, r, prev + k - 1);
    } else if 0 < prev {
      LogMatching(h, log, r, prev - 1);
    }
  }

  lemma CommonPrefixEnds(prefix: seq<LogEntry>, a: seq<LogEntry>, b: seq<LogEntry>, i: nat)
    requires prefix <= a && prefix <= b
    requires i < |a| && i < |b| ==> a[i].term != b[i].term
    ensures |prefix| <= i
  {
  }

  /** Merging a slice of the leader's log leaves the leader's log up to the slice's end: the
      old log when nothing was new, else exactly that prefix. What is lost, the leader lacked. */
  lemma MergeShape(h: History, log: seq<LogEntry>, r: seq<LogEntry>, prev: nat, entries: seq<LogEntry>,
                   log': seq<LogEntry>, m: nat, prefix: seq<LogEntry>)
    requires Sourced(h, log) && Sourced(h, r)
    requires prev + |entries| <= |r| && entries == r[prev..prev + |entries|]
    requires prev <= |log| && (0 < prev ==> log[prev - 1].term == r[prev - 1].term)
    requires log' == Merged(log, prev, entries) && m == prev + |entries|
    ensures m <= |log'| && log'[..m] == r[..m]
    ensures log' == if r[..m] <= log then log else r[..m]
    ensures prefix <= log && prefix <= r ==> prefix <= log'
  {
    hide Sourced, FirstNew;
    var k := FirstNew(log, prev, entries, 0);
    AgreeUpTo(h, log, r, prev, entries);
    if k < |entries| {
      SliceTail(r, prev, entries, k);
      if prefix <= log && prefix <= r {
        CommonPrefixEnds(prefix, log, r, prev + k);
        PrefixOfPrefix(prefix, r[..prev + k], r[..m]);
      }
    } else {
      assert m == prev + k;
    }
  }

  lemma SliceTail(r: seq<LogEntry>, prev: nat, entries: seq<LogEntry>, k: nat)
    requires prev + |entries| <= |r| && entries == r[prev..prev + |entries|] && k < |entries|
    ensures r[..prev + k] + entries[k..] == r[..prev + |entries|]
    ensures r[prev + k] == entries[k]
    ensures r[..prev + k] <= r[..prev + |entries|]
  {
  }

  ghost function Acknowledge(h: History, n: NodeId, T: nat, m: nat): History {
    h.(acks := h.acks[(n, T) := if (n, T) in h.acks then Max(h.acks[(n, T)], m) else m])
  }

  lemma AcknowledgeGrows(h: History, n: NodeId, T: nat, m: nat)
    requires AcksOk(h) && T in h.reigns && m <= |h.reigns[T].log|
    ensures GrowsBy(h, Acknowledge(h, n, T, m), n, T)
    ensures AcksOk(Acknowledge(h, n, T, m))
  {
  }

  lemma NoCommittedConflict(log: seq<LogEntry>, commit: nat, r: seq<LogEntry>, prev: nat, entries: seq<LogEntry>)
    requires commit <= |log| && log[..commit] <= r
    requires prev + |entries| <= |r| && entries == r[prev..prev + |entries|]
    ensures !ReplacesCommitted(log, commit, prev, entries)
  {
    var k := FirstNew(log, prev, entries, 0);
    if k < |entries| && prev + k < |log| {
      assert entries[k] == r[prev + k];
      CommonPrefixEnds(log[..commit], log, r, prev + k);
    }
  }

  /** Nothing committed conflicts with a leader's request. */
  lemma RequestKeepsCommitted(h: History, n: NodeId, core: Core, request: AppendEntriesRequest)
    requires HistoryOk(h) && NodeOk(h, n, core)
    requires SliceOk(h, request) && request.term == core.term
    ensures core.log[..core.commit] <= h.reigns[core.term].log
    ensures !ReplacesCommitted(core.log, core.commit, request.prevLogIndex, request.entries)
  {
    CommittedInLeader(h, core.log[..core.commit], core.term, core.term);
    NoCommittedConflict(core.log, core.commit, h.reigns[core.term].log, request.prevLogIndex, request.entries);
  }

  lemma SliceEntriesOk(r: seq<LogEntry>, T: nat, prev: nat, entries: seq<LogEntry>)
    requires LogOk(r, T)
    requires prev + |entries| <= |r| && entries == r[prev..prev + |entries|]
    ensures EntriesOk(entries, T, if prev == 0 then 0 else r[prev - 1].term)
  {
    EntriesOkMeaning(entries, T, if prev == 0 then 0 else r[prev - 1].term);
    assert forall i :: 0 <= i < |entries| ==> entries[i] == r[prev + i];
  }

  /** A leader's request always passes the entry checks. */
  lemma RequestEntriesOk(h: History, request: AppendEntriesRequest)
    requires SliceOk(h, request) && ReignOk(h, request.term)
    ensures EntriesOk(request.entries, request.term, request.prevLogTerm)
  {
    SliceEntriesOk(h.reigns[request.term].log, request.term, request.prevLogIndex, request.entries);
  }

  lemma PreviousAgrees(h: History, core: Core, request: AppendEntriesRequest)
    requires SliceOk(h, request)
    requires PreviousMatches(core.log, request.prevLogIndex, request.prevLogTerm)
    ensures request.prevLogIndex <= |core.log|
    ensures 0 < request.prevLogIndex ==>
              core.log[request.prevLogIndex - 1].term == h.reigns[request.term].log[request.prevLogIndex - 1].term
  {
  }

  /** What the node acknowledged before the merge it still holds, or this term's leader lacked. */
  lemma MergeKeptOld(h: History, core: Core, request: AppendEntriesRequest, t: nat, k: nat)
    requires Sourced(h, core.log) && SliceOk(h, request) && request.term == core.term
    requires var reign := h.reigns[core.term]; Sourced(h, reign.log) && reign.base <= reign.log
    requires PreviousMatches(core.log, request.prevLogIndex, request.prevLogTerm)
    requires t <= core.term && Holds(h, t, k, core.log)
    ensures || Holds(h, t, k, Merged(core.log, request.prevLogIndex, request.entries))
            || Lost(h, t, k, core.term + 1)
  {
    var r := h.reigns[core.term].log;
    var prefix := h.reigns[t].log[..k];
    MergeShape(h, core.log, r, request.prevLogIndex, request.entries,
               Merged(core.log, request.prevLogIndex, request.entries),
               request.prevLogIndex + |request.entries|, prefix);
    if !(prefix <= r) { OverwrittenIsLost(h, t, k, core.term); }
  }

  /** What merging does to what the node acknowledged. */
  lemma MergeKept(h: History, h': History, n: NodeId, core: Core, core': Core, request: AppendEntriesRequest)
    requires AcksOk(h) && KeptByNode(h, n, core) && Sourced(h, core.log)
    requires SliceOk(h, request) && request.term == core.term
    requires var reign := h.reigns[core.term]; Sourced(h, reign.log) && reign.base <= reign.log
    requires PreviousMatches(core.log, request.prevLogIndex, request.prevLogTerm)
    requires core' == core.(log := Merged(core.log, request.prevLogIndex, request.entries))
    requires h' == Acknowledge(h, n, core.term, request.prevLogIndex + |request.entries|)
    requires GrowsBy(h, h', n, core.term)
    ensures KeptByNode(h', n, core')
  {
    hide Merged, FirstNew, Sourced, PreviousMatches, GrowsBy;
    var T, m := core.term, request.prevLogIndex + |request.entries|;
    PreviousAgrees(h, core, request);
    MergeShape(h, core.log, h.reigns[T].log, request.prevLogIndex, request.entries, core'.log, m, []);
    forall t: nat, k: nat | Acked(h', n, t, k)
      ensures t <= T && (Holds(h', t, k, core'.log) || Lost(h', t, k, T + 1))
    {
      if t == T && k <= m {
        PrefixOfSame(core'.log, h.reigns[T].log, k, m);
      } else {
        assert Acked(h, n, t, k);
        HoldsGrows(h, h', n, T, t, k, core'.log);
        if Lost(h, t, k, T + 1) {
          LostGrows(h, h', n, T, t, k, T + 1);
        } else {
          MergeKeptOld(h, core, request, t, k);
        }
      }
    }
  }

  lemma PrefixOfSame(a: seq<LogEntry>, b: seq<LogEntry>, k: nat, m: nat)
    requires k <= m <= |a| && m <= |b| && a[..m] == b[..m]
    ensures b[..k] <= a
  {
    assert b[..k] == b[..m][..k];
  }

  /** Entries the term-T leader's log does not contain were lost at its election already. */
  lemma OverwrittenIsLost(h: History, t: nat, k: nat, T: nat)
    requires T in h.reigns && h.reigns[T].base <= h.reigns[T].log
    requires t <= T && t in h.reigns && k <= |h.reigns[t].log|
    requires !(h.reigns[t].log[..k] <= h.reigns[T].log)
    ensures Lost(h, t, k, T + 1)
  {
    assert t != T;
    if Holds(h, t, k, h.reigns[T].base) {
      PrefixOfPrefix(h.reigns[t].log[..k], h.reigns[T].base, h.reigns[T].log);
    }
  }

  lemma MergeSourced(h: History, log: seq<LogEntry>, r: seq<LogEntry>, log': seq<LogEntry>, m: nat, T: nat)
    requires Sourced(h, log) && Sourced(h, r) && m <= |r|
    requires TermsAtMost(log, T) && TermsAtMost(r, T)
    requires log' == log || log' == r[..m]
    ensures Sourced(h, log') && TermsAtMost(log', T)
  {
    if log' == r[..m] {
      forall i | 0 <= i < |log'| ensures SourcedAt(h, log', i) {
        assert SourcedAt(h, r, i);
        assert log'[..i + 1] == r[..i + 1];
      }
    }
  }

  /** The merged log is a log of leaders, and starts with everything committed here. */
  lemma MergeLog(h: History, core: Core, log': seq<LogEntry>, request: AppendEntriesRequest)
    requires Sourced(h, core.log) && TermsAtMost(core.log, core.term)
    requires SliceOk(h, request) && request.term == core.term
    requires var r := h.reigns[core.term].log; Sourced(h, r) && TermsAtMost(r, core.term)
    requires PreviousMatches(core.log, request.prevLogIndex, request.prevLogTerm)
    requires core.commit <= |core.log| && core.log[..core.commit] <= h.reigns[core.term].log
    requires log' == Merged(core.log, request.prevLogIndex, request.entries)
    ensures Sourced(h, log') && TermsAtMost(log', core.term)
    ensures core.commit <= |log'| && log'[..core.commit] == core.log[..core.commit]
    ensures request.prevLogIndex + |request.entries| <= |log'|
    ensures log'[..request.prevLogIndex + |request.entries|] ==
            h.reigns[core.term].log[..request.prevLogIndex + |request.entries|]
  {
    var r := h.reigns[core.term].log;
    PreviousAgrees(h, core, request);
    var m := request.prevLogIndex + |request.entries|;
    MergeShape(h, core.log, r, request.prevLogIndex, request.entries, log', m, core.log[..core.commit]);
    MergeSourced(h, core.log, r, log', m, core.term);
  }

  lemma MergeNode(h: History, h': History, n: NodeId, core: Core, core': Core)
    requires AcksOk(h) && NodeOk(h, n, core) && core.role == Follower
    requires GrowsBy(h, h', n, core.term) && h'.ballots == h.ballots && h'.reigns == h.reigns
    requires core' == core.(log := core'.log)
    requires Sourced(h, core'.log) && TermsAtMost(core'.log, core.term) && KeptByNode(h', n, core')
    requires core.commit <= |core'.log| && core'.log[..core.commit] == core.log[..core.commit]
    ensures NodeOk(h', n, core')
  {
    SourcedGrows(h, h', n, core.term, core'.log);
    CommittedGrows(h, h', n, core.term, core.log[..core.commit], core.term);
    assert VotesOk(h', n, core');
  }

  lemma LogOkTerms(log: seq<LogEntry>, term: nat)
    requires LogOk(log, term)
    ensures TermsAtMost(log, term)
  {
  }

  lemma MergeKeptAt(h: History, n: NodeId, core: Core, request: AppendEntriesRequest, core': Core)
    requires AcksOk(h) && NodeOk(h, n, core)
    requires SliceOk(h, request) && request.term == core.term && ReignOk(h, core.term)
    requires PreviousMatches(core.log, request.prevLogIndex, request.prevLogTerm)
    requires core' == core.(log := Merged(core.log, request.prevLogIndex, request.entries))
    ensures KeptByNode(Acknowledge(h, n, core.term, request.prevLogIndex + |request.entries|), n, core')
  {
    var m := request.prevLogIndex + |request.entries|;
    hide Merged, FirstNew, CommittedLog, KeptByNode, PreviousMatches, GrowsBy;
    var h' := Acknowledge(h, n, core.term, m);
    AcknowledgeGrows(h, n, core.term, m);
    MergeKept(h, h', n, core, core', request);
  }

  lemma MergeAtNode(h: History, h': History, n: NodeId, core: Core, core': Core,
                    request: AppendEntriesRequest, m: nat)
    requires NodeOk(h, n, core) && core.role == Follower
    requires HistoryOk(h)
    requires SliceOk(h, request) && request.term == core.term
    requires PreviousMatches(core.log, request.prevLogIndex, request.prevLogTerm)
    requires core' == core.(log := Merged(core.log, request.prevLogIndex, request.entries))
    requires h' == Acknowledge(h, n, core.term, m) && m == request.prevLogIndex + |request.entries|
    requires GrowsBy(h, h', n, core.term)
    ensures NodeOk(h', n, core')
    ensures core.commit <= |core'.log| && core'.log[..core.commit] == core.log[..core.commit]
    ensures m <= |core'.log| && core'.log[..m] == h.reigns[core.term].log[..m]
  {
    hide Merged, FirstNew, CommittedLog, KeptByNode, PreviousMatches, GrowsBy;
    assert ReignOk(h, core.term);
    RequestKeepsCommitted(h, n, core, request);
    MergeKeptAt(h, n, core, request, core');
    LogOkTerms(h.reigns[core.term].log, core.term);
    MergeLog(h, core, core'.log, request);
    MergeNode(h, h', n, core, core');
  }

  lemma MergeKeeps(w: World, h: History, h': History, n: NodeId, core: Core, core': Core,
                   request: AppendEntriesRequest, m: nat)
    requires Inv(w, h) && n in w.cores && core == w.cores[n] && core.role == Follower
    requires SliceOk(h, request) && request.term == core.term
    requires PreviousMatches(core.log, request.prevLogIndex, request.prevLogTerm)
    requires core' == core.(log := Merged(core.log, request.prevLogIndex, request.entries))
    requires m == request.prevLogIndex + |request.entries|
    requires h' == Acknowledge(h, n, core.term, m)
    ensures GrowsBy(h, h', n, core.term)
    ensures Inv(WithCore(w, n, core'), h')
    ensures core.commit <= |core.log| && core.commit <= |core'.log|
    ensures core'.log[..core.commit] == core.log[..core.commit]
    ensures m <= |core'.log| && core'.log[..m] == h.reigns[core.term].log[..m]
  {
    assert NodeOk(h, n, core);
    AcknowledgeGrows(h, n, core.term, m);
    MergeAtNode(h, h', n, core, core', request, m);
    StepKeeps(w, h, WithCore(w, n, core'), h', n);
  }

  /** Moving the commit index over a committed part of the log. */
  lemma CommitKeeps(w: World, h: History, n: NodeId, commit: nat)
    requires Inv(w, h) && n in w.cores
    requires commit <= |w.cores[n].log| && CommittedLog(h, w.cores[n].log[..commit], w.cores[n].term)
    ensures Inv(WithCore(w, n, w.cores[n].(commit := commit)), h)
  {
    var core' := w.cores[n].(commit := commit);
    assert NodeOk(h, n, w.cores[n]);
    KeptLater(h, n, w.cores[n], core');
    QuietStep(w, h, n, core');
  }

  /** A rejection touches next_index only. */
  lemma ProgressKeeps(w: World, h: History, n: NodeId, core': Core)
    requires Inv(w, h) && n in w.cores && w.cores[n].role == Leader
    requires core' == w.cores[n].(nextIndex := core'.nextIndex, matchIndex := core'.matchIndex)
    requires forall f :: f in core'.matchIndex && 0 < core'.matchIndex[f] ==>
               Acked(h, f, core'.term, core'.matchIndex[f])
    ensures Inv(WithCore(w, n, core'), h)
  {
    assert NodeOk(h, n, w.cores[n]);
    KeptLater(h, n, w.cores[n], core');
    QuietStep(w, h, n, core');
  }

  // ----- a leader's own commit -----

  ghost function ConfirmedSet(matchIndex: map<NodeId, nat>, nodes: seq<NodeId>, index: nat): set<NodeId>
    requires forall f :: f in nodes ==> f in matchIndex
  {
    set f | f in nodes && index <= matchIndex[f]
  }

  lemma {:induction false} ConfirmedCounts(matchIndex: map<NodeId, nat>, nodes: seq<NodeId>, index: nat)
    requires forall f :: f in nodes ==> f in matchIndex
    requires Distinct(nodes)
    ensures |ConfirmedSet(matchIndex, nodes, index)| == Confirmed(matchIndex, nodes, index)
  {
    if nodes != [] {
      var front, last := nodes[..|nodes| - 1], nodes[|nodes| - 1];
      assert nodes == front + [last];
      assert last !in front;
      ConfirmedCounts(matchIndex, front, index);
      var q := ConfirmedSet(matchIndex, front, index);
      assert last !in q;
      assert ConfirmedSet(matchIndex, nodes, index) == if index <= matchIndex[last] then q + {last} else q;
    } else {
      assert ConfirmedSet(matchIndex, nodes, index) == {};
    }
  }

  lemma {:induction false} PeersDistinct(members: seq<NodeId>, id: NodeId)
    requires Distinct(members)
    ensures Distinct(Peers(members, id))
    ensures |Peers(members, id)| == if id in members then |members| - 1 else |members|
  {
    if members != [] {
      var front, last := members[..|members| - 1], members[|members| - 1];
      assert members == front + [last];
      assert last !in front;
      PeersDistinct(front, id);
      assert last !in Peers(front, id);
    }
  }

  /** A majority of matching peers, with the leader, is a majority of acknowledgements. */
  lemma CommittableIsChosen(h: History, cfg: Config, core: Core, index: nat)
    requires RosterOk(h.members) && h.members == cfg.members && cfg.id in cfg.members
    requires LeaderOk(h, cfg.id, core) && ProgressOk(cfg, core)
    requires 0 < index <= |core.log| && Committable(cfg, core, index)
    ensures Chosen(h, core.term, index)
  {
    var peers := Peers(cfg.members, cfg.id);
    PeersDistinct(cfg.members, cfg.id);
    assert forall f :: f in peers ==> IsPeer(cfg, f);
    ConfirmedCounts(core.matchIndex, peers, index);
    var q := ConfirmedSet(core.matchIndex, peers, index);
    var all := q + {cfg.id};
    assert cfg.id !in q;
    forall v | v in all ensures v in h.members && Acked(h, v, core.term, index) {
      if v != cfg.id { assert Acked(h, v, core.term, core.matchIndex[v]); }
    }
    assert Quorum(h.members, all) && AllAcked(h, all, core.term, index);
  }

  lemma LeaderCommitKeeps(w: World, h: History, cfg: Config, index: nat)
    requires Inv(w, h) && cfg.id in w.cores && h.members == cfg.members
    requires var core := w.cores[cfg.id];
             && core.role == Leader && ProgressOk(cfg, core)
             && 0 < index <= |core.log| && Committable(cfg, core, index)
    ensures Inv(WithCore(w, cfg.id, w.cores[cfg.id].(commit := index)), h)
  {
    var core := w.cores[cfg.id];
    assert NodeOk(h, cfg.id, core);
    CommittableIsChosen(h, cfg, core, index);
    assert core.log[..index] <= h.reigns[core.term].log[..index];
    CommitKeeps(w, h, cfg.id, index);
  }
}
