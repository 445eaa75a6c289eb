/** The facts that hold between all nodes and all messages ever sent, stated with a history
    of votes, elected leaders and acknowledgements that no node stores
    (sections 5.2 to 5.4 of the extended Raft paper). */
module RaftProtocol {
  import opened RaftTypes
  import opened RaftNode

  /** A message with its sender and addressee; a reply carries the request it answers. */
  datatype Message =
    | VoteRequest(from: NodeId, to: NodeId, ask: RequestVoteRequest)
    | VoteReply(from: NodeId, to: NodeId, ask: RequestVoteRequest, vote: RequestVoteResponse)
    | AppendRequest(from: NodeId, to: NodeId, append: AppendEntriesRequest)
    | AppendReply(from: NodeId, to: NodeId, append: AppendEntriesRequest, answer: AppendEntriesResponse)

  /** A vote: for whom, and the voter's log when it voted. */
  datatype Ballot = Ballot(candidate: NodeId, log: seq<LogEntry>)

  /** An elected leader: who, by whose votes, its log when elected, and its log since. */
  datatype Reign = Reign(leader: NodeId, voters: set<NodeId>, base: seq<LogEntry>, log: seq<LogEntry>)

  /** Votes by (voter, term), leaders by term, and by (node, term) how much of that term's
      leader log the node has acknowledged storing. */
  datatype History = History(
    members: seq<NodeId>,
    ballots: map<(NodeId, nat), Ballot>,
    reigns: map<nat, Reign>,
    acks: map<(NodeId, nat), nat>)

  datatype World = World(cores: map<NodeId, Core>, messages: set<Message>)

  // ----- vocabulary -----

  ghost predicate Quorum(members: seq<NodeId>, q: set<NodeId>) {
    (forall v :: v in q ==> v in members) && Majority(members) <= |q|
  }

  ghost predicate Acked(h: History, v: NodeId, t: nat, n: nat) {
    0 < n && (v, t) in h.acks && n <= h.acks[(v, t)]
  }

  /** `log` starts with the first n entries of the term-t leader. */
  ghost predicate Holds(h: History, t: nat, n: nat, log: seq<LogEntry>) {
    t in h.reigns && n <= |h.reigns[t].log| && h.reigns[t].log[..n] <= log
  }

  /** Some leader elected after term t and before `bound` lacked those n entries. */
  ghost predicate Lost(h: History, t: nat, n: nat, bound: nat) {
    exists u :: t < u < bound && u in h.reigns && !Holds(h, t, n, h.reigns[u].base)
  }

  ghost predicate SourcedAt(h: History, log: seq<LogEntry>, i: nat)
    requires i < |log|
  {
    log[i].term in h.reigns && log[..i + 1] <= h.reigns[log[i].term].log
  }

  /** Every entry was created by the leader of its term, and what precedes it is what
      preceded it there. */
  ghost predicate Sourced(h: History, log: seq<LogEntry>) {
    forall i {:trigger SourcedAt(h, log, i)} :: 0 <= i < |log| ==> SourcedAt(h, log, i)
  }

  ghost predicate AllAcked(h: History, q: set<NodeId>, t: nat, n: nat) {
    forall v :: v in q ==> Acked(h, v, t, n)
  }

  /** The term-t leader's entry n is of term t and stored by a majority during term t. */
  ghost predicate Chosen(h: History, t: nat, n: nat) {
    && t in h.reigns
    && 0 < n <= |h.reigns[t].log|
    && h.reigns[t].log[n - 1].term == t
    && exists q :: Quorum(h.members, q) && AllAcked(h, q, t, n)
  }

  /** `log` lies inside what some leader of term at most `bound` has committed. */
  ghost predicate CommittedLog(h: History, log: seq<LogEntry>, bound: nat) {
    log == [] || exists t: nat, n: nat :: t <= bound && Chosen(h, t, n) && log <= h.reigns[t].log[..n]
  }

  ghost predicate TermsAtMost(log: seq<LogEntry>, t: nat) {
    forall i :: 0 <= i < |log| ==> log[i].term <= t
  }

  // ----- the invariant -----

  ghost predicate KeptByVoter(h: History, v: NodeId, T: nat, t: nat, n: nat)
    requires (v, T) in h.ballots
  {
    || Holds(h, t, n, h.ballots[(v, T)].log)
    || Lost(h, t, n, T)
    || (T in h.reigns && v !in h.reigns[T].voters)
  }

  ghost predicate BallotOk(h: History, v: NodeId, T: nat)
    requires (v, T) in h.ballots
  {
    var b := h.ballots[(v, T)];
    && 0 < T && v in h.members
    && (b.candidate, T) in h.ballots
    && h.ballots[(b.candidate, T)].candidate == b.candidate
    && (var c := h.ballots[(b.candidate, T)].log; UpToDate(|c|, LastTerm(c), b.log))
    && Sourced(h, b.log)
    && (b.candidate == v ==> TermsAtMost(b.log, T - 1))
    && (forall t: nat, n: nat :: t < T && Acked(h, v, t, n) ==> KeptByVoter(h, v, T, t, n))
  }

  ghost predicate ReignOk(h: History, t: nat)
    requires t in h.reigns
  {
    var r := h.reigns[t];
    && 0 < t && r.leader in h.members
    && Quorum(h.members, r.voters)
    && (forall v :: v in r.voters ==> (v, t) in h.ballots && h.ballots[(v, t)].candidate == r.leader)
    && (r.leader, t) in h.ballots && h.ballots[(r.leader, t)] == Ballot(r.leader, r.base)
    && r.base <= r.log
    && (forall i :: |r.base| <= i < |r.log| ==> r.log[i].term == t)
    && TermsAtMost(r.base, t - 1)
    && Sourced(h, r.log)
    && LogOk(r.log, t)
    && GoodCommands(r.log)
  }

  ghost predicate AcksOk(h: History) {
    forall k :: k in h.acks ==> k.1 in h.reigns && h.acks[k] <= |h.reigns[k.1].log|
  }

  ghost predicate CandidateOk(h: History, v: NodeId, core: Core) {
    && (v, core.term) in h.ballots
    && h.ballots[(v, core.term)] == Ballot(v, core.log)
    && (forall x :: x in core.votes ==>
          (x, core.term) in h.ballots && h.ballots[(x, core.term)].candidate == v)
    && (core.term in h.reigns ==> h.reigns[core.term].leader != v)
  }

  ghost predicate LeaderOk(h: History, v: NodeId, core: Core) {
    && core.term in h.reigns
    && h.reigns[core.term].leader == v
    && h.reigns[core.term].log == core.log
    && (v, core.term) in h.acks && h.acks[(v, core.term)] == |core.log|
    && (forall f :: f in core.matchIndex && 0 < core.matchIndex[f] ==>
          Acked(h, f, core.term, core.matchIndex[f]))
  }

  ghost predicate VotesOk(h: History, v: NodeId, core: Core) {
    && (forall T :: (v, T) in h.ballots ==> T <= core.term)
    && (core.votedFor.Some? <==> (v, core.term) in h.ballots)
    && (core.votedFor.Some? ==> h.ballots[(v, core.term)].candidate == core.votedFor.value)
  }

  /** What v acknowledged is still in its log, unless a later leader never had it. */
  ghost predicate KeptByNode(h: History, v: NodeId, core: Core) {
    forall t: nat, n: nat :: Acked(h, v, t, n) ==>
      t <= core.term && (Holds(h, t, n, core.log) || Lost(h, t, n, core.term + 1))
  }

  ghost predicate NodeOk(h: History, v: NodeId, core: Core) {
    && VotesOk(h, v, core)
    && Sourced(h, core.log) && TermsAtMost(core.log, core.term)
    && (core.role == Candidate ==> CandidateOk(h, v, core))
    && (core.role == Leader ==> LeaderOk(h, v, core))
    && (core.leaderId.Some? ==>
          core.term in h.reigns && h.reigns[core.term].leader == core.leaderId.value)
    && core.commit <= |core.log|
    && CommittedLog(h, core.log[..core.commit], core.term)
    && KeptByNode(h, v, core)
  }

  ghost predicate SliceOk(h: History, request: AppendEntriesRequest) {
    && request.term in h.reigns
    && var log := h.reigns[request.term].log;
    && request.prevLogIndex + |request.entries| <= |log|
    && request.entries == log[request.prevLogIndex..request.prevLogIndex + |request.entries|]
    && request.prevLogTerm == (if request.prevLogIndex == 0 then 0 else log[request.prevLogIndex - 1].term)
    && request.leaderCommit <= |log|
    && CommittedLog(h, log[..request.leaderCommit], request.term)
  }

  ghost predicate MessageOk(h: History, m: Message) {
    && m.from in h.members && m.to in h.members && m.from != m.to
    && match m
       case VoteRequest(from, to, ask) =>
         && ask.candidateId == from
         && (from, ask.term) in h.ballots
         && var b := h.ballots[(from, ask.term)];
         b.candidate == from && ask.lastLogIndex == |b.log| && ask.lastLogTerm == LastTerm(b.log)
       case VoteReply(from, to, ask, vote) =>
         vote.voteGranted ==>
           (from, vote.term) in h.ballots && h.ballots[(from, vote.term)].candidate == to
       case AppendRequest(from, to, append) =>
         append.leaderId == from && SliceOk(h, append) && h.reigns[append.term].leader == from
       case AppendReply(from, to, append, answer) =>
         answer.success ==>
           && answer.term in h.reigns
           && h.reigns[answer.term].leader == to
           && answer.matchedIndex <= |h.reigns[answer.term].log|
           && (0 < answer.matchedIndex ==> Acked(h, from, answer.term, answer.matchedIndex))
  }

  ghost predicate HistoryOk(h: History) {
    && (forall v: NodeId, t: nat {:trigger BallotOk(h, v, t)} :: (v, t) in h.ballots ==> BallotOk(h, v, t))
    && (forall t: nat {:trigger ReignOk(h, t)} :: t in h.reigns ==> ReignOk(h, t))
    && AcksOk(h)
  }

  ghost predicate Inv(w: World, h: History) {
    && RosterOk(h.members)
    && HistoryOk(h)
    && (forall v :: v in h.members <==> v in w.cores)
    && (forall v {:trigger NodeOk(h, v, w.cores[v])} :: v in w.cores ==> NodeOk(h, v, w.cores[v]))
    && (forall m {:trigger MessageOk(h, m)} :: m in w.messages ==> MessageOk(h, m))
  }

  // ----- how the history may grow -----

  /** Everything recorded stays; node n adds at most its own records, all in term T. */
  ghost predicate GrowsBy(h: History, h': History, n: NodeId, T: nat) {
    && h'.members == h.members
    && (forall k :: k in h.ballots ==> k in h'.ballots && h'.ballots[k] == h.ballots[k])
    && (forall k :: k in h'.ballots && k !in h.ballots ==> k == (n, T))
    && (forall t :: t in h.reigns ==> t in h'.reigns && Extends(h.reigns[t], h'.reigns[t]))
    && (forall t :: t in h'.reigns && t != T ==> t in h.reigns && h'.reigns[t] == h.reigns[t])
    && (T in h'.reigns ==> h'.reigns[T].leader == n || (T in h.reigns && h'.reigns[T] == h.reigns[T]))
    && (forall k :: k in h.acks ==> k in h'.acks && h.acks[k] <= h'.acks[k])
    && (forall k :: k in h'.acks && k != (n, T) ==> k in h.acks && h'.acks[k] == h.acks[k])
  }

  ghost predicate Extends(r: Reign, r': Reign) {
    r'.leader == r.leader && r'.voters == r.voters && r'.base == r.base && r.log <= r'.log
  }

  lemma SourcedGrows(h: History, h': History, n: NodeId, T: nat, log: seq<LogEntry>)
    requires GrowsBy(h, h', n, T)
    requires Sourced(h, log)
    ensures Sourced(h', log)
  {
    forall i | 0 <= i < |log| ensures SourcedAt(h', log, i) {
      assert SourcedAt(h, log, i);
    }
  }

  lemma HoldsGrows(h: History, h': History, n: NodeId, T: nat, t: nat, k: nat, log: seq<LogEntry>)
    requires GrowsBy(h, h', n, T)
    requires t in h.reigns && k <= |h.reigns[t].log|
    ensures Holds(h', t, k, log) <==> Holds(h, t, k, log)
  {
    assert h'.reigns[t].log[..k] == h.reigns[t].log[..k];
  }

  lemma LostGrows(h: History, h': History, n: NodeId, T: nat, t: nat, k: nat, bound: nat)
    requires GrowsBy(h, h', n, T)
    requires t in h.reigns && k <= |h.reigns[t].log|
    requires Lost(h, t, k, bound)
    ensures Lost(h', t, k, bound)
  {
    var u :| t < u < bound && u in h.reigns && !Holds(h, t, k, h.reigns[u].base);
    HoldsGrows(h, h', n, T, t, k, h.reigns[u].base);
    assert u in h'.reigns && !Holds(h', t, k, h'.reigns[u].base);
  }

  lemma CommittedGrows(h: History, h': History, n: NodeId, T: nat, log: seq<LogEntry>, bound: nat)
    requires GrowsBy(h, h', n, T)
    requires CommittedLog(h, log, bound)
    ensures CommittedLog(h', log, bound)
  {
    if log != [] {
      var t: nat, k: nat :| t <= bound && Chosen(h, t, k) && log <= h.reigns[t].log[..k];
      var q :| Quorum(h.members, q) && AllAcked(h, q, t, k);
      assert AllAcked(h', q, t, k) by {
        forall v | v in q ensures Acked(h', v, t, k) { assert Acked(h, v, t, k); }
      }
      assert h'.reigns[t].log[..k] == h.reigns[t].log[..k];
      assert Chosen(h', t, k);
    }
  }

  lemma AckedGrows(h: History, h': History, n: NodeId, T: nat, v: NodeId, t: nat, k: nat)
    requires GrowsBy(h, h', n, T)
    ensures Acked(h, v, t, k) ==> Acked(h', v, t, k)
    ensures Acked(h', v, t, k) && (v, t) != (n, T) ==> Acked(h, v, t, k)
  {
  }

  lemma KeptGrows(h: History, h': History, n: NodeId, T: nat, v: NodeId, core: Core)
    requires GrowsBy(h, h', n, T) && v != n
    requires AcksOk(h) && KeptByNode(h, v, core)
    ensures KeptByNode(h', v, core)
  {
    forall t: nat, k: nat | Acked(h', v, t, k)
      ensures t <= core.term && (Holds(h', t, k, core.log) || Lost(h', t, k, core.term + 1))
    {
      assert Acked(h, v, t, k);
      HoldsGrows(h, h', n, T, t, k, core.log);
      if Lost(h, t, k, core.term + 1) { LostGrows(h, h', n, T, t, k, core.term + 1); }
    }
  }

  lemma LeaderGrows(h: History, h': History, n: NodeId, T: nat, v: NodeId, core: Core)
    requires GrowsBy(h, h', n, T) && v != n
    requires LeaderOk(h, v, core)
    ensures LeaderOk(h', v, core)
  {
    assert core.term != T || h'.reigns[T] == h.reigns[T];
    forall f | f in core.matchIndex && 0 < core.matchIndex[f]
      ensures Acked(h', f, core.term, core.matchIndex[f])
    {
      AckedGrows(h, h', n, T, f, core.term, core.matchIndex[f]);
    }
  }

  /** A node that did not act keeps its part of the invariant. */
  lemma NodeGrows(h: History, h': History, n: NodeId, T: nat, v: NodeId, core: Core)
    requires GrowsBy(h, h', n, T) && v != n
    requires AcksOk(h) && NodeOk(h, v, core)
    ensures NodeOk(h', v, core)
  {
    SourcedGrows(h, h', n, T, core.log);
    CommittedGrows(h, h', n, T, core.log[..core.commit], core.term);
    KeptGrows(h, h', n, T, v, core);
    if core.role == Leader { LeaderGrows(h, h', n, T, v, core); }
    assert VotesOk(h', v, core);
  }

  lemma MessageGrows(h: History, h': History, n: NodeId, T: nat, m: Message)
    requires GrowsBy(h, h', n, T)
    requires MessageOk(h, m)
    ensures MessageOk(h', m)
  {
    match m
    case AppendRequest(from, to, append) =>
      var log, log' := h.reigns[append.term].log, h'.reigns[append.term].log;
      assert log'[..append.leaderCommit] == log[..append.leaderCommit];
      CommittedGrows(h, h', n, T, log[..append.leaderCommit], append.term);
    case AppendReply(from, to, append, answer) =>
      AckedGrows(h, h', n, T, from, answer.term, answer.matchedIndex);
    case _ =>
  }

  lemma BallotGrows(h: History, h': History, n: NodeId, T: nat, v: NodeId, V: nat)
    requires GrowsBy(h, h', n, T)
    requires AcksOk(h)
    requires (v, V) in h.ballots && BallotOk(h, v, V)
    requires v == n ==> V <= T
    ensures BallotOk(h', v, V)
  {
    SourcedGrows(h, h', n, T, h.ballots[(v, V)].log);
    forall t: nat, k: nat | t < V && Acked(h', v, t, k) ensures KeptByVoter(h', v, V, t, k) {
      AckedGrows(h, h', n, T, v, t, k);
      assert KeptByVoter(h, v, V, t, k);
      HoldsGrows(h, h', n, T, t, k, h.ballots[(v, V)].log);
      if Lost(h, t, k, V) { LostGrows(h, h', n, T, t, k, V); }
    }
  }

  lemma ReignGrows(h: History, h': History, n: NodeId, T: nat, t: nat)
    requires GrowsBy(h, h', n, T)
    requires t in h.reigns && ReignOk(h, t)
    requires h'.reigns[t] == h.reigns[t]
    ensures ReignOk(h', t)
  {
    SourcedGrows(h, h', n, T, h.reigns[t].log);
  }

  /** One node acts: it is enough to look at that node, its new records and its new messages. */
  lemma StepKeeps(w: World, h: History, w': World, h': History, n: NodeId)
    requires Inv(w, h)
    requires n in w.cores && n in w'.cores && w'.cores == w.cores[n := w'.cores[n]]
    requires GrowsBy(h, h', n, w'.cores[n].term)
    requires w.cores[n].term <= w'.cores[n].term
    requires NodeOk(h', n, w'.cores[n])
    requires forall m :: m in w'.messages && m !in w.messages ==> MessageOk(h', m)
    requires forall v: NodeId, t: nat :: (v, t) in h'.ballots && (v, t) !in h.ballots ==> BallotOk(h', v, t)
    requires forall t :: t in h'.reigns && (t !in h.reigns || h'.reigns[t] != h.reigns[t]) ==> ReignOk(h', t)
    requires AcksOk(h')
    ensures Inv(w', h')
  {
    var T := w'.cores[n].term;
    forall v | v in w'.cores && v != n ensures NodeOk(h', v, w'.cores[v]) {
      assert NodeOk(h, v, w.cores[v]);
      NodeGrows(h, h', n, T, v, w.cores[v]);
    }
    forall m | m in w'.messages ensures MessageOk(h', m) {
      if m in w.messages {
        assert MessageOk(h, m);
        MessageGrows(h, h', n, T, m);
      }
    }
    assert NodeOk(h, n, w.cores[n]);
    forall v: NodeId, t: nat | (v, t) in h'.ballots ensures BallotOk(h', v, t) {
      if (v, t) in h.ballots {
        assert BallotOk(h, v, t);
        BallotGrows(h, h', n, T, v, t);
      }
    }
    forall t | t in h'.reigns ensures ReignOk(h', t) {
      if t in h.reigns && h'.reigns[t] == h.reigns[t] {
        assert ReignOk(h, t);
        ReignGrows(h, h', n, T, t);
      }
    }
  }
}
