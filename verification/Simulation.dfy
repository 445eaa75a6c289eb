/** What reliable, immediate delivery adds: an election with enough up-to-date voters is won,
    and repeated heartbeats bring every follower up to the leader's log. Every delivery below
    is a pair of steps of the cluster, so all that is proved of runs holds throughout
    (src/in_memory_cluster.cpp:71-203). */
module RaftSimulation {
  import opened RaftTypes
  import opened RaftNode
  import opened RaftProtocol
  import opened RaftSafety
  import opened RaftSteps
  import opened RaftLocal
  import opened RaftCalls
  import opened RaftCluster
  import opened RaftTheorems
  import opened RaftReplication
  import opened RaftHandlers

  // ----- the simulator's calls, as functions of the cluster -----

  /** What the addressee of a request answers; anything else is its own answer. */
  ghost function AnswerTo(c: Cluster, m: Message): Message
    requires AllValid(c)
  {
    if m.to !in c.nodes then m
    else
      assert Valid(c.nodes[m.to]);
      match m
      case VoteRequest(from, to, ask) =>
        VoteReply(to, from, ask, HandleRequestVote(c.nodes[to], ask).reply.value)
      case AppendRequest(from, to, append) =>
        var r := HandleAppendEntries(c.nodes[to], append).reply;
        if r.Returned? then AppendReply(to, from, append, r.value) else m
      case _ => m
  }

  /** One action: the target handles the request, then the sender its answer. */
  ghost function Exchange(c: Cluster, m: Message): (c': Cluster)
    requires AllValid(c)
    ensures AllValid(c') && c'.nodes.Keys == c.nodes.Keys && c.messages <= c'.messages
  {
    Next(Next(c, Deliver(m)), Deliver(AnswerTo(c, m)))
  }

  /** The actions of a queue, one after the other. */
  ghost function DeliverAll(c: Cluster, q: seq<Message>): (c': Cluster)
    requires AllValid(c)
    ensures AllValid(c') && c'.nodes.Keys == c.nodes.Keys && c.messages <= c'.messages
  {
    if q == [] then c else Exchange(DeliverAll(c, q[..|q| - 1]), q[|q| - 1])
  }

  ghost function VoteMessages(s: NodeState): (q: seq<Message>)
    ensures |q| == |s.voteQueue|
  {
    seq(|s.voteQueue|, i requires 0 <= i < |s.voteQueue| =>
      VoteRequest(s.cfg.id, s.voteQueue[i].target, s.voteQueue[i].request))
  }

  ghost function AppendMessages(s: NodeState): (q: seq<Message>)
    ensures |q| == |s.appendQueue|
  {
    seq(|s.appendQueue|, i requires 0 <= i < |s.appendQueue| =>
      AppendRequest(s.cfg.id, s.appendQueue[i].target, s.appendQueue[i].request))
  }

  /** deliver_request_vote_actions */
  ghost function DeliverVotes(c: Cluster, n: NodeId): (c': Cluster)
    requires AllValid(c) && n in c.nodes
    ensures AllValid(c') && c'.nodes.Keys == c.nodes.Keys && c.messages <= c'.messages
  {
    DeliverAll(Next(c, VotesTaken(n)), VoteMessages(c.nodes[n]))
  }

  /** deliver_append_entries_actions */
  ghost function DeliverAppends(c: Cluster, n: NodeId): (c': Cluster)
    requires AllValid(c) && n in c.nodes
    ensures AllValid(c') && c'.nodes.Keys == c.nodes.Keys && c.messages <= c'.messages
  {
    DeliverAll(Next(c, AppendsTaken(n)), AppendMessages(c.nodes[n]))
  }

  /** send_heartbeats, at a leader */
  ghost function HeartbeatRound(c: Cluster, l: NodeId): (c': Cluster)
    requires AllValid(c) && l in c.nodes
    ensures AllValid(c') && c'.nodes.Keys == c.nodes.Keys && c.messages <= c'.messages
  {
    DeliverAppends(Next(c, Heartbeat(l)), l)
  }

  /** start_election */
  ghost function RunElection(c: Cluster, n: NodeId): (c': Cluster)
    requires AllValid(c) && n in c.nodes
    ensures AllValid(c') && c'.nodes.Keys == c.nodes.Keys && c.messages <= c'.messages
  {
    var c1 := DeliverVotes(Next(c, Campaign(n)), n);
    if c1.nodes[n].core.role == Leader then DeliverAppends(c1, n) else c1
  }

  ghost predicate CaughtUp(core: Core, f: NodeId) {
    f in core.matchIndex && |core.log| <= core.matchIndex[f]
  }

  /** all_followers_caught_up */
  ghost predicate AllCaughtUp(s: NodeState) {
    forall f {:trigger CaughtUp(s.core, f)} :: IsPeer(s.cfg, f) ==> CaughtUp(s.core, f)
  }

  /** The rounds of replicate_until_caught_up, and what it returns. */
  ghost function Rounds(c: Cluster, l: NodeId, rounds: nat): (r: (Cluster, bool))
    requires AllValid(c) && l in c.nodes
    ensures AllValid(r.0) && r.0.nodes.Keys == c.nodes.Keys
    decreases rounds
  {
    if rounds == 0 then (c, false)
    else
      var c' := HeartbeatRound(c, l);
      if c'.nodes[l].core.role != Leader then (c', false)
      else if AllCaughtUp(c'.nodes[l]) then (c', true)
      else Rounds(c', l, rounds - 1)
  }

  /** replicate_until_caught_up, at a leader */
  ghost function Replicate(c: Cluster, l: NodeId, rounds: nat): (r: (Cluster, bool))
    requires AllValid(c) && l in c.nodes
    ensures AllValid(r.0) && r.0.nodes.Keys == c.nodes.Keys
  {
    if AllCaughtUp(c.nodes[l]) then (c, true) else Rounds(c, l, rounds)
  }

  // ----- one action -----

  ghost predicate Deliverable(c: Cluster, m: Message) {
    && AllValid(c) && m in c.messages && m.to in c.nodes && m.from in c.nodes && m.to != m.from
    && (m.VoteRequest? || m.AppendRequest?)
  }

  lemma DeliveredNodes(c: Cluster, m: Message)
    requires AllValid(c) && m in c.messages && m.to in c.nodes
    ensures Enabled(c, Deliver(m))
    ensures Valid(c.nodes[m.to])
    ensures Next(c, Deliver(m)).nodes == c.nodes[m.to := React(c.nodes[m.to], Deliver(m)).state]
    ensures Next(c, Deliver(m)).messages >= c.messages + React(c.nodes[m.to], Deliver(m)).replies
  {
    assert Valid(c.nodes[m.to]);
  }

  /** An exchange is two steps: it keeps the invariant, and changes the two nodes it names. */
  lemma ExchangeInv(c: Cluster, members: seq<NodeId>, durable: set<NodeId>, h: History, m: Message)
    returns (h': History)
    requires ClusterInv(c, members, durable, h) && Deliverable(c, m)
    ensures ClusterInv(Exchange(c, m), members, durable, h') && Later(h, h')
    ensures Exchange(c, m).messages >= c.messages
    ensures Valid(c.nodes[m.to]) && Valid(c.nodes[m.from])
    ensures !React(c.nodes[m.to], Deliver(m)).threw && AnswerTo(c, m) != m
    ensures Exchange(c, m).nodes ==
            c.nodes[m.to := React(c.nodes[m.to], Deliver(m)).state]
                   [m.from := React(c.nodes[m.from], Deliver(AnswerTo(c, m))).state]
  {
    hide ClusterInv, Valid, Next, Later;
    DeliveredNodes(c, m);
    ValidAt(c, m.from);
    var h1 := StepInv(c, members, durable, h, Deliver(m));
    var c1, answer := Next(c, Deliver(m)), AnswerTo(c, m);
    AnswerIsReply(c, m);
    DeliveredNodes(c1, answer);
    h' := StepInv(c1, members, durable, h1, Deliver(answer));
    LaterTrans(h, h1, h');
  }

  lemma AnswerIsReply(c: Cluster, m: Message)
    requires Deliverable(c, m)
    requires Valid(c.nodes[m.to]) && !React(c.nodes[m.to], Deliver(m)).threw
    ensures AnswerTo(c, m) in React(c.nodes[m.to], Deliver(m)).replies
    ensures AnswerTo(c, m) != m && AnswerTo(c, m).to == m.from && AnswerTo(c, m).from == m.to
  {
    hide Valid;
  }

  // ----- replication to one follower -----

  /** How many entries two logs share from the start. */
  ghost function Shared(a: seq<LogEntry>, b: seq<LogEntry>): (n: nat)
    ensures n <= |a| && n <= |b| && a[..n] == b[..n]
    ensures n < |a| && n < |b| ==> a[n] != b[n]
  {
    if a == [] || b == [] || a[0] != b[0] then 0 else 1 + Shared(a[1..], b[1..])
  }

  lemma SharedIsLongest(a: seq<LogEntry>, b: seq<LogEntry>, k: nat)
    requires k <= |a| && k <= |b|
    ensures a[..k] == b[..k] <==> k <= Shared(a, b)
  {
    var n := Shared(a, b);
    if k <= n {
      assert a[..k] == a[..n][..k] == b[..n][..k] == b[..k];
    } else {
      assert a[..k][n] != b[..k][n];
    }
  }

  /** What one action makes of a leader's progress for f, when f's log goes from `log` to `log'`.
      Where f has everything before next_index, both indexes jump to the end of the leader's log;
      otherwise next_index goes back by one and nothing else changes. */
  ghost predicate Moved(before: Core, after: Core, f: NodeId, log: seq<LogEntry>, log': seq<LogEntry>) {
    && f in before.nextIndex && f in before.matchIndex && f in after.nextIndex && f in after.matchIndex
    && (if before.nextIndex[f] <= Shared(before.log, log) + 1 then
          after.matchIndex[f] == |before.log| && after.nextIndex[f] == |before.log| + 1
        else
          && after.matchIndex[f] == before.matchIndex[f] && after.nextIndex[f] == before.nextIndex[f] - 1
          && log' == log)
  }

  ghost predicate SameProgress(before: Core, after: Core, f: NodeId) {
    && f in before.nextIndex && f in before.matchIndex && f in after.nextIndex && f in after.matchIndex
    && before.matchIndex[f] == after.matchIndex[f] && before.nextIndex[f] == after.nextIndex[f]
  }

  ghost predicate Follows(s: NodeState, l: NodeId, term: nat) {
    s.core.role == Follower && s.core.term == term && s.core.leaderId == Some(l)
  }

  /** A follower keeps its log, or gets the leader's where its own was no extension of it. */
  ghost predicate Settles(r: seq<LogEntry>, log: seq<LogEntry>, log': seq<LogEntry>) {
    log' == log || (!(r <= log) && log' == r)
  }

  /** From c to c' the leader has dealt with the followers in `done`, and with nobody else. */
  ghost predicate Dealt(c: Cluster, c': Cluster, l: NodeId, term: nat, done: set<NodeId>) {
    && c'.nodes.Keys == c.nodes.Keys
    && IsLeader(c, l, term) && IsLeader(c', l, term)
    && c'.nodes[l].core.log == c.nodes[l].core.log && c'.nodes[l].cfg == c.nodes[l].cfg
    && (forall f {:trigger f in done} :: f in c.nodes && f != l ==>
          if f in done then
            && Follows(c'.nodes[f], l, term)
            && Moved(c.nodes[l].core, c'.nodes[l].core, f, c.nodes[f].core.log, c'.nodes[f].core.log)
            && Settles(c.nodes[l].core.log, c.nodes[f].core.log, c'.nodes[f].core.log)
          else c'.nodes[f] == c.nodes[f] && SameProgress(c.nodes[l].core, c'.nodes[l].core, f))
  }

  /** The request a leader would make now, up to the commit index it mentions. */
  ghost predicate Fresh(core: Core, f: NodeId, append: AppendEntriesRequest) {
    && f in core.nextIndex && append.term == core.term
    && append.prevLogIndex + 1 == core.nextIndex[f]
    && append.prevLogIndex + |append.entries| == |core.log|
  }

  /** The leader's side of an answer of its own term. */
  lemma AnswerRecorded(s: NodeState, follower: NodeId, answer: AppendEntriesResponse)
    requires Valid(s) && s.core.role == Leader && IsPeer(s.cfg, follower)
    requires answer.term == s.core.term && (answer.success ==> answer.matchedIndex <= |s.core.log|)
    ensures ProgressOk(s.cfg, s.core)
    ensures var core' := ReceiveAppendResponse(s, follower, answer).state.core;
            && core' == (if answer.success then RecordMatch(s.core, follower, answer.matchedIndex)
                         else RecordReject(s.core, follower)).(commit := core'.commit)
  {
    hide AdvanceCommit, LogOk, Applied;
    assert follower in s.core.nextIndex && follower in s.core.matchIndex;
    if answer.success {
      RecordMatchLocal(s, follower, answer.matchedIndex);
      AdvanceCommitLocal(s.(core := RecordMatch(s.core, follower, answer.matchedIndex)));
    }
  }

  /** A request leaves the log alone, or merges its entries into it. */
  lemma HandledLog(s: NodeState, append: AppendEntriesRequest)
    requires Valid(s) && s.core.commit <= |s.core.log|
    ensures var o := HandleAppendEntries(s, append);
            || o.state.core.log == s.core.log
            || (&& PreviousMatches(s.core.log, append.prevLogIndex, append.prevLogTerm)
                && append.prevLogIndex <= |s.core.log|
                && o.state.core.log == Merged(s.core.log, append.prevLogIndex, append.entries))
    ensures var o := HandleAppendEntries(s, append);
            o.reply.Returned? && !o.reply.value.success ==> o.state.core.log == s.core.log
  {
    hide ReplacesCommitted, Merged, EntriesOk, PreviousMatches, ApplyCommitted, Valid;
    if PreviousMatches(s.core.log, append.prevLogIndex, append.prevLogTerm) {
      PreviousInLog(s.core.log, append.prevLogIndex, append.prevLogTerm);
    }
  }

  /** What a leader's request up to the end of its log makes of its addressee's log. */
  lemma RequestSettles(c: Cluster, members: seq<NodeId>, durable: set<NodeId>, h: History, m: Message)
    requires ClusterInv(c, members, durable, h) && Deliverable(c, m) && m.AppendRequest?
    requires IsLeader(c, m.from, m.append.term) && Fresh(c.nodes[m.from].core, m.to, m.append)
    requires Valid(c.nodes[m.to]) && c.nodes[m.to].core.commit <= |c.nodes[m.to].core.log|
    ensures Settles(c.nodes[m.from].core.log, c.nodes[m.to].core.log,
                    HandleAppendEntries(c.nodes[m.to], m.append).state.core.log)
  {
    hide ClusterInv, Healthy, HandleAppendEntries, Valid, Sourced, CommittedLog, KeptByNode, Merged;
    NodeAt(c, members, durable, h, m.from);
    NodeAt(c, members, durable, h, m.to);
    SentSlice(c, members, durable, h, m);
    HandledLog(c.nodes[m.to], m.append);
    var log, r := c.nodes[m.to].core.log, c.nodes[m.from].core.log;
    var log' := HandleAppendEntries(c.nodes[m.to], m.append).state.core.log;
    if log' != log {
      MergeShape(h, log, r, m.append.prevLogIndex, m.append.entries, log', |r|, []);
      assert r[..|r|] == r;
    }
  }

  /** The leader's side of the answer to a request up to the end of its log. */
  lemma AnswerMoves(s: NodeState, follower: NodeId, append: AppendEntriesRequest, answer: AppendEntriesResponse,
                    core': Core, log: seq<LogEntry>, log': seq<LogEntry>)
    requires ProgressOk(s.cfg, s.core) && IsPeer(s.cfg, follower) && Fresh(s.core, follower, append)
    requires answer.success <==> append.prevLogIndex <= Shared(s.core.log, log)
    requires if answer.success then answer.matchedIndex == append.prevLogIndex + |append.entries| else log' == log
    requires core' == (if answer.success then RecordMatch(s.core, follower, answer.matchedIndex)
                       else RecordReject(s.core, follower)).(commit := core'.commit)
    ensures core'.role == s.core.role && core'.term == s.core.term && core'.log == s.core.log
    ensures Moved(s.core, core', follower, log, log')
    ensures forall f :: IsPeer(s.cfg, f) && f != follower ==> SameProgress(s.core, core', f)
  {
    assert follower in s.core.nextIndex && follower in s.core.matchIndex;
  }

  /** A leader's request of its own term always moves its addressee forward. */
  lemma AppendExchange(c: Cluster, members: seq<NodeId>, durable: set<NodeId>, h: History, m: Message)
    returns (h': History)
    requires ClusterInv(c, members, durable, h) && Deliverable(c, m) && m.AppendRequest?
    requires IsLeader(c, m.from, m.append.term) && c.nodes[m.to].core.term <= m.append.term
    requires Fresh(c.nodes[m.from].core, m.to, m.append)
    ensures ClusterInv(Exchange(c, m), members, durable, h')
    ensures Exchange(c, m).messages >= c.messages
    ensures Dealt(c, Exchange(c, m), m.from, m.append.term, {m.to})
  {
    hide ClusterInv, Valid, Next, HandleAppendEntries, ReceiveAppendResponse, ProgressOk, Later, RecordMatch,
         RecordReject, Moved, SameProgress, Exchange, Fresh, Settles;
    h' := ExchangeInv(c, members, durable, h, m);
    SentFacts(c, members, durable, h, m);
    RequestFollowed(c.nodes[m.to], m.append);
    AppendAnswer(c, members, durable, h, m);
    ValidProgress(c.nodes[m.to]);
    HandledLog(c.nodes[m.to], m.append);
    RequestSettles(c, members, durable, h, m);
    var answer := AnswerTo(c, m).answer;
    var s, s' := c.nodes[m.from], Exchange(c, m).nodes[m.from];
    AnswerRecorded(s, m.to, answer);
    AnswerMoves(s, m.to, m.append, answer, s'.core, c.nodes[m.to].core.log, Exchange(c, m).nodes[m.to].core.log);
    ConfigAt(c, members, durable, h, m.from);
    ConfigAt(Exchange(c, m), members, durable, h', m.from);
  }

  lemma ConfigAt(c: Cluster, members: seq<NodeId>, durable: set<NodeId>, h: History, n: NodeId)
    requires ClusterInv(c, members, durable, h) && n in c.nodes
    ensures c.nodes[n].cfg == Config(n, members, n in durable)
    ensures forall f :: f in c.nodes && f != n ==> IsPeer(c.nodes[n].cfg, f)
    ensures forall f :: IsPeer(c.nodes[n].cfg, f) ==> f in c.nodes
  {
    hide Healthy, Inv;
    assert NodeFits(c, members, durable, n);
    NodesAreMembers(c, members, durable, h);
  }

  lemma NodesAreMembers(c: Cluster, members: seq<NodeId>, durable: set<NodeId>, h: History)
    requires ClusterInv(c, members, durable, h)
    ensures forall f :: f in c.nodes <==> f in members
  {
    forall f ensures f in c.nodes <==> f in members { MemberIsNode(c, members, durable, h, f); }
  }

  lemma SentFacts(c: Cluster, members: seq<NodeId>, durable: set<NodeId>, h: History, m: Message)
    requires ClusterInv(c, members, durable, h) && m in c.messages && m.AppendRequest?
    requires m.to in c.nodes && m.from in c.nodes
    ensures m.append.leaderId == m.from && m.from in members && m.to in members && m.from != m.to
    ensures c.nodes[m.to].cfg.members == members && c.nodes[m.to].cfg.id == m.to
    ensures c.nodes[m.from].cfg.members == members && c.nodes[m.from].cfg.id == m.from
  {
    SentOk(c, members, durable, h, m);
    ActorPlaced(c, members, durable, h, m.to);
    ActorPlaced(c, members, durable, h, m.from);
  }

  /** A leader's request is accepted exactly by a log that shares all that precedes it. */
  lemma AppendAnswer(c: Cluster, members: seq<NodeId>, durable: set<NodeId>, h: History, m: Message)
    requires ClusterInv(c, members, durable, h) && Deliverable(c, m) && m.AppendRequest?
    requires IsLeader(c, m.from, m.append.term) && c.nodes[m.to].core.term <= m.append.term
    ensures Valid(c.nodes[m.to]) && HandleAppendEntries(c.nodes[m.to], m.append).reply.Returned?
    ensures m.append.prevLogIndex + |m.append.entries| <= |c.nodes[m.from].core.log|
    ensures HandleAppendEntries(c.nodes[m.to], m.append).reply.value.success <==>
              m.append.prevLogIndex <= Shared(c.nodes[m.from].core.log, c.nodes[m.to].core.log)
  {
    hide Keeps, Inv, HandleAppendEntries, Sourced, CommittedLog, KeptByNode, Healthy, Shared, PreviousMatches;
    SentOk(c, members, durable, h, m);
    ActorPlaced(c, members, durable, h, m.to);
    NodeAt(c, members, durable, h, m.from);
    NodeAt(c, members, durable, h, m.to);
    ValidAt(c, m.to);
    var h1 := HandleAppendEntriesCall(View(c), h, c.nodes[m.to], m);
    SentSlice(c, members, durable, h, m);
    PreviousShared(h, c.nodes[m.to].core.log, c.nodes[m.from].core.log, m.append.prevLogIndex, m.append.prevLogTerm);
  }

  /** A log of the cluster matches the leader's at a position exactly if it shares all up to it. */
  lemma PreviousShared(h: History, log: seq<LogEntry>, r: seq<LogEntry>, prev: nat, prevTerm: nat)
    requires Sourced(h, log) && Sourced(h, r) && prev <= |r|
    requires prevTerm == if prev == 0 then 0 else r[prev - 1].term
    ensures PreviousMatches(log, prev, prevTerm) <==> prev <= Shared(r, log)
  {
    hide Sourced;
    if prev <= |log| {
      SharedIsLongest(r, log, prev);
      if 0 < prev {
        if log[prev - 1].term == r[prev - 1].term { LogMatching(h, log, r, prev - 1); }
        if r[..prev] == log[..prev] { assert r[..prev][prev - 1] == log[..prev][prev - 1]; }
      }
    }
  }

  ghost predicate NoneOf(c: Cluster, nodes: set<NodeId>, term: nat) {
    forall f :: f in nodes && f in c.nodes ==> c.nodes[f].core.term <= term
  }

  /** A candidate or leader of that term that met newer ones: a follower in the latest it met. */
  ghost predicate Overtaken(c: Cluster, core: Core, term: nat, met: set<NodeId>) {
    && core.role == Follower && core.leaderId == None && term < core.term
    && (exists f :: f in met && f in c.nodes && c.nodes[f].core.term == core.term)
    && NoneOf(c, met, core.term)
  }

  /** From c to c' the leader of that term has called on the nodes in `done`, and met newer terms. */
  ghost predicate Deposed(c: Cluster, c': Cluster, l: NodeId, term: nat, done: set<NodeId>) {
    && c'.nodes.Keys == c.nodes.Keys && l in c.nodes
    && Overtaken(c, c'.nodes[l].core, term, done)
    && (forall f {:trigger f in done} :: f in c.nodes && f != l ==>
          if f in done then c'.nodes[f].core.term == Max(c.nodes[f].core.term, term) else c'.nodes[f] == c.nodes[f])
  }

  /** Whoever handles a request is then in the later of the two terms, and says so. */
  lemma RequestTerm(s: NodeState, append: AppendEntriesRequest)
    requires Valid(s) && append.leaderId in s.cfg.members && HandleAppendEntries(s, append).reply.Returned?
    ensures var o := HandleAppendEntries(s, append);
            o.state.core.term == Max(s.core.term, append.term) == o.reply.value.term
  {
    hide Valid, HandleAppendEntries, Acceptable, Continues, Applies, Saved, SameStored;
    AppendRequestHandled(s, append);
  }

  /** A newer term that a leader of term `term` or a follower learns from an answer is adopted,
      and nothing else changes its role or term once it is a follower. */
  lemma AnswerDeposes(s: NodeState, follower: NodeId, answer: AppendEntriesResponse)
    requires Valid(s) && IsPeer(s.cfg, follower) && (s.core.role == Follower || s.core.term < answer.term)
    ensures s.core.commit <= |s.core.log|
    ensures var s' := ReceiveAppendResponse(s, follower, answer).state;
            && s'.core.term == Max(s.core.term, answer.term) && s'.core.role == Follower
            && s'.core.leaderId == if s.core.term < answer.term then None else s.core.leaderId
  {
    hide Valid, ReceiveAppendResponse, CommitsByQuorum, Applies, Saved, Confirms, StepsBack, ProgressOk;
    AppendAnswerHandled(s, follower, answer);
  }

  /** One more call of a leader that meets a newer term, or has met one. */
  lemma StaleExchange(c0: Cluster, c: Cluster, members: seq<NodeId>, durable: set<NodeId>, h: History,
                      l: NodeId, term: nat, done: set<NodeId>, m: Message)
    returns (h': History)
    requires ClusterInv(c, members, durable, h) && Deliverable(c, m) && m.AppendRequest?
    requires m.from == l && m.append.term == term && m.to !in done && m.to in c0.nodes
    requires if NoneOf(c0, done, term) then Dealt(c0, c, l, term, done) && term < c0.nodes[m.to].core.term
             else Deposed(c0, c, l, term, done)
    ensures ClusterInv(Exchange(c, m), members, durable, h')
    ensures Exchange(c, m).messages >= c.messages
    ensures Deposed(c0, Exchange(c, m), l, term, done + {m.to})
  {
    hide ClusterInv, Valid, Next, HandleAppendEntries, ReceiveAppendResponse, Exchange, Later, Moved, SameProgress,
         Settles;
    h' := ExchangeInv(c, members, durable, h, m);
    SentFacts(c, members, durable, h, m);
    ConfigAt(c, members, durable, h, l);
    RequestTerm(c.nodes[m.to], m.append);
    AnswerDeposes(c.nodes[l], m.to, AnswerTo(c, m).answer);
    forall f | f in c0.nodes && f != l
      ensures var s := Exchange(c, m).nodes[f];
              if f in done + {m.to} then s.core.term == Max(c0.nodes[f].core.term, term) else s == c0.nodes[f]
    {
      assert f in done || f !in done;
    }
  }

  // ----- one round of appends -----

  /** The queue a leader has just filled, after it was taken: one fresh request for every
      other node. */
  ghost predicate RoundQueue(c: Cluster, l: NodeId, q: seq<Message>) {
    && l in c.nodes
    && (forall m {:trigger Deliverable(c, m)} :: m in q ==>
          Deliverable(c, m) && m.AppendRequest? && m.from == l && Fresh(c.nodes[l].core, m.to, m.append))
    && (forall i, j :: 0 <= i < j < |q| ==> q[i].to != q[j].to)
  }

  ghost function Targets(q: seq<Message>): set<NodeId> {
    set m | m in q :: m.to
  }

  lemma DealtNone(c: Cluster, members: seq<NodeId>, durable: set<NodeId>, h: History, l: NodeId, term: nat)
    requires ClusterInv(c, members, durable, h) && AllValid(c) && IsLeader(c, l, term)
    ensures Dealt(c, c, l, term, {})
  {
    hide ClusterInv;
    ConfigAt(c, members, durable, h, l);
    assert Valid(c.nodes[l]);
  }

  lemma DealtTrans(c0: Cluster, c: Cluster, c': Cluster, l: NodeId, term: nat, done: set<NodeId>, f: NodeId)
    requires Dealt(c0, c, l, term, done) && Dealt(c, c', l, term, {f}) && f !in done
    ensures Dealt(c0, c', l, term, done + {f})
  {
    forall k | k in c0.nodes && k != l
      ensures if k in done + {f} then
                && Follows(c'.nodes[k], l, term)
                && Moved(c0.nodes[l].core, c'.nodes[l].core, k, c0.nodes[k].core.log, c'.nodes[k].core.log)
                && Settles(c0.nodes[l].core.log, c0.nodes[k].core.log, c'.nodes[k].core.log)
              else c'.nodes[k] == c0.nodes[k] && SameProgress(c0.nodes[l].core, c'.nodes[l].core, k)
    {
      assert k in done || k !in done;
      assert k in {f} || k !in {f};
    }
  }

  lemma FreshStill(before: Core, after: Core, f: NodeId, append: AppendEntriesRequest)
    requires Fresh(before, f, append) && SameProgress(before, after, f)
    requires after.term == before.term && after.log == before.log
    ensures Fresh(after, f, append)
  {
  }

  lemma RoundStep(c0: Cluster, c: Cluster, members: seq<NodeId>, durable: set<NodeId>, h: History,
                  l: NodeId, term: nat, done: set<NodeId>, m: Message)
    returns (h': History)
    requires ClusterInv(c, members, durable, h) && Deliverable(c, m) && Deliverable(c0, m)
    requires m.AppendRequest? && m.from == l && m.to !in done && NoneOf(c0, done, term)
    requires Dealt(c0, c, l, term, done) && Fresh(c0.nodes[l].core, m.to, m.append)
    ensures ClusterInv(Exchange(c, m), members, durable, h')
    ensures Exchange(c, m).messages >= c.messages && Exchange(c, m).nodes.Keys == c.nodes.Keys
    ensures if c0.nodes[m.to].core.term <= term then Dealt(c0, Exchange(c, m), l, term, done + {m.to})
            else Deposed(c0, Exchange(c, m), l, term, done + {m.to})
  {
    hide ClusterInv, Exchange, Moved, SameProgress, Valid;
    assert m.append.term == term;
    FreshStill(c0.nodes[l].core, c.nodes[l].core, m.to, m.append);
    if c0.nodes[m.to].core.term <= term {
      h' := AppendExchange(c, members, durable, h, m);
      DealtTrans(c0, c, Exchange(c, m), l, term, done, m.to);
    } else {
      h' := StaleExchange(c0, c, members, durable, h, l, term, done, m);
    }
  }

  lemma RoundQueueFront(c: Cluster, l: NodeId, q: seq<Message>)
    requires RoundQueue(c, l, q) && q != []
    ensures q == q[..|q| - 1] + [q[|q| - 1]]
    ensures RoundQueue(c, l, q[..|q| - 1])
    ensures Targets(q) == Targets(q[..|q| - 1]) + {q[|q| - 1].to}
    ensures q[|q| - 1].to !in Targets(q[..|q| - 1])
    ensures var m := q[|q| - 1];
            Deliverable(c, m) && m.AppendRequest? && m.from == l && Fresh(c.nodes[l].core, m.to, m.append)
  {
    hide Deliverable, Fresh;
    var front, m := q[..|q| - 1], q[|q| - 1];
    assert q == front + [m];
    assert m in q;
    forall x | x in front ensures Deliverable(c, x) && x in q { assert x in q; }
  }

  lemma NoneOfMore(c: Cluster, nodes: set<NodeId>, f: NodeId, term: nat)
    requires f in c.nodes
    ensures NoneOf(c, nodes + {f}, term) <==> NoneOf(c, nodes, term) && c.nodes[f].core.term <= term
  {
  }

  lemma NoneOfNobody(c: Cluster, term: nat)
    ensures NoneOf(c, {}, term)
  {
  }

  lemma StillDeliverable(c: Cluster, c1: Cluster, m: Message)
    requires Deliverable(c, m) && AllValid(c1) && c.messages <= c1.messages && c1.nodes.Keys == c.nodes.Keys
    ensures Deliverable(c1, m) && m.to in c.nodes
  {
  }

  /** Whether and how a leader gets through its queue. */
  lemma {:induction false} RoundAll(c: Cluster, members: seq<NodeId>, durable: set<NodeId>, h: History,
                                    l: NodeId, term: nat, q: seq<Message>)
    returns (h': History)
    requires ClusterInv(c, members, durable, h) && AllValid(c) && IsLeader(c, l, term) && RoundQueue(c, l, q)
    ensures ClusterInv(DeliverAll(c, q), members, durable, h')
    ensures DeliverAll(c, q).messages >= c.messages && DeliverAll(c, q).nodes.Keys == c.nodes.Keys
    ensures if NoneOf(c, Targets(q), term) then Dealt(c, DeliverAll(c, q), l, term, Targets(q))
            else Deposed(c, DeliverAll(c, q), l, term, Targets(q))
  {
    hide ClusterInv, Exchange, Dealt, Deposed, NoneOf, Valid, Deliverable, RoundQueue;
    if q == [] {
      h' := h;
      assert Targets(q) == {};
      NoneOfNobody(c, term);
      DealtNone(c, members, durable, h, l, term);
    } else {
      var front, m := q[..|q| - 1], q[|q| - 1];
      RoundQueueFront(c, l, q);
      var h1 := RoundAll(c, members, durable, h, l, term, front);
      var c1 := DeliverAll(c, front);
      StillDeliverable(c, c1, m);
      NoneOfMore(c, Targets(front), m.to, term);
      if NoneOf(c, Targets(front), term) {
        h' := RoundStep(c, c1, members, durable, h1, l, term, Targets(front), m);
      } else {
        h' := StaleExchange(c, c1, members, durable, h1, l, term, Targets(front), m);
      }
    }
  }

  // ----- the leader's own steps around a round -----

  /** A step of one node on its own: a campaign, a heartbeat, taking a queue. */
  ghost predicate OwnStep(c: Cluster, step: Step) {
    Actor(step) in c.nodes && (step.Campaign? || step.Heartbeat? || step.VotesTaken? || step.AppendsTaken?)
  }

  lemma OwnStepInv(c: Cluster, members: seq<NodeId>, durable: set<NodeId>, h: History, step: Step)
    returns (h': History)
    requires ClusterInv(c, members, durable, h) && AllValid(c) && OwnStep(c, step)
    ensures ClusterInv(Next(c, step), members, durable, h')
    ensures Valid(c.nodes[Actor(step)])
    ensures Next(c, step).nodes == c.nodes[Actor(step) := React(c.nodes[Actor(step)], step).state]
    ensures c.messages <= Next(c, step).messages
  {
    hide ClusterInv, Valid;
    ValidAt(c, Actor(step));
    h' := StepInv(c, members, durable, h, step);
  }

  lemma QueuedIsSent(c: Cluster, members: seq<NodeId>, durable: set<NodeId>, h: History, n: NodeId)
    requires ClusterInv(c, members, durable, h) && n in c.nodes
    ensures Outgoing(c.nodes[n]) <= c.messages
  {
    assert NodeFits(c, members, durable, n);
  }

  /** A leader whose queue holds one request for every other node, made just now. */
  ghost predicate Queued(s: NodeState) {
    s.core.role == Leader && ProgressOk(s.cfg, s.core) && s.appendQueue == AppendActions(s.cfg, s.core)
  }

  lemma QueuedAt(s: NodeState, i: nat)
    requires Queued(s) && i < |AppendMessages(s)|
    ensures |AppendMessages(s)| == |Peers(s.cfg.members, s.cfg.id)|
    ensures var m := AppendMessages(s)[i];
            && m in Outgoing(s) && m.AppendRequest? && m.from == s.cfg.id
            && m.to == Peers(s.cfg.members, s.cfg.id)[i] && IsPeer(s.cfg, m.to)
            && Fresh(s.core, m.to, m.append)
  {
    hide Peers;
    var peers := Peers(s.cfg.members, s.cfg.id);
    assert peers[i] in peers;
    assert IsPeer(s.cfg, peers[i]);
    assert s.appendQueue[i] == AppendEntriesAction(peers[i], MakeAppendRequest(s.cfg, s.core, peers[i]));
    assert s.appendQueue[i] in s.appendQueue;
  }

  lemma QueuedMessages(s: NodeState)
    requires Queued(s) && RosterOk(s.cfg.members)
    ensures var q := AppendMessages(s);
            && (forall m :: m in q ==> m in Outgoing(s) && m.AppendRequest? && m.from == s.cfg.id
                                       && IsPeer(s.cfg, m.to) && Fresh(s.core, m.to, m.append))
            && (forall i, j :: 0 <= i < j < |q| ==> q[i].to != q[j].to)
            && (forall f :: f in Targets(q) <==> IsPeer(s.cfg, f))
  {
    hide Queued, AppendMessages, Peers, Outgoing, Fresh;
    var q, peers := AppendMessages(s), Peers(s.cfg.members, s.cfg.id);
    PeersDistinct(s.cfg.members, s.cfg.id);
    PeersAre(s.cfg);
    forall i | 0 <= i < |q|
      ensures |q| == |peers| && q[i].to == peers[i] && q[i] in Outgoing(s) && q[i].AppendRequest?
              && q[i].from == s.cfg.id && IsPeer(s.cfg, q[i].to) && Fresh(s.core, q[i].to, q[i].append)
    {
      QueuedAt(s, i);
    }
    QueueLength(s);
    forall f | IsPeer(s.cfg, f) ensures f in Targets(q) {
      var i :| 0 <= i < |peers| && peers[i] == f;
      assert q[i] in q;
    }
  }

  lemma QueueLength(s: NodeState)
    requires Queued(s)
    ensures |AppendMessages(s)| == |Peers(s.cfg.members, s.cfg.id)|
  {
  }

  lemma PeersAre(cfg: Config)
    ensures forall f :: f in Peers(cfg.members, cfg.id) <==> IsPeer(cfg, f)
  {
  }

  ghost predicate NoneHigher(c: Cluster, term: nat) {
    forall f :: f in c.nodes ==> c.nodes[f].core.term <= term
  }

  /** A whole round: either every other node follows, each one moved forward, or the leader
      has met a newer term. */
  lemma RoundResult(c: Cluster, members: seq<NodeId>, durable: set<NodeId>, h: History, l: NodeId, term: nat)
    returns (h': History)
    requires ClusterInv(c, members, durable, h) && AllValid(c) && IsLeader(c, l, term) && Queued(c.nodes[l])
    ensures ClusterInv(DeliverAppends(c, l), members, durable, h')
    ensures DeliverAppends(c, l).nodes.Keys == c.nodes.Keys
    ensures if NoneHigher(c, term) then Dealt(c, DeliverAppends(c, l), l, term, c.nodes.Keys - {l})
            else Deposed(c, DeliverAppends(c, l), l, term, c.nodes.Keys - {l})
  {
    hide ClusterInv, Next, DeliverAll, AppendMessages, Queued, Valid, NoneHigher, NoneOf, Dealt, RoundQueue, Deposed,
         Targets;
    var q, c1 := AppendMessages(c.nodes[l]), Next(c, AppendsTaken(l));
    var h1 := OwnStepInv(c, members, durable, h, AppendsTaken(l));
    QueueTaken(c, members, durable, h, l, term);
    h' := RoundAll(c1, members, durable, h1, l, term, q);
    NoneOfOthers(c, c1, l, term);
    if NoneHigher(c, term) {
      DealtBefore(c, c1, DeliverAppends(c, l), l, term, Targets(q));
    } else {
      DeposedBefore(c, c1, DeliverAppends(c, l), l, term, Targets(q));
    }
  }

  /** Taking the fresh queue hands over one fresh request for every other node. */
  lemma QueueTaken(c: Cluster, members: seq<NodeId>, durable: set<NodeId>, h: History, l: NodeId, term: nat)
    requires ClusterInv(c, members, durable, h) && AllValid(c) && IsLeader(c, l, term) && Queued(c.nodes[l])
    ensures RoundQueue(Next(c, AppendsTaken(l)), l, AppendMessages(c.nodes[l]))
    ensures Targets(AppendMessages(c.nodes[l])) == c.nodes.Keys - {l}
    ensures Next(c, AppendsTaken(l)).nodes == c.nodes[l := TakeAppends(c.nodes[l])]
  {
    hide ClusterInv, Next, AppendMessages, AppendActions, Queued, Fresh, Valid, Outgoing, ProgressOk, RosterOk;
    var s, q := c.nodes[l], AppendMessages(c.nodes[l]);
    var h1 := OwnStepInv(c, members, durable, h, AppendsTaken(l));
    ConfigAt(c, members, durable, h, l);
    ClusterRoster(c, members, durable, h);
    QueuedMessages(s);
    QueuedIsSent(c, members, durable, h, l);
    assert Targets(q) == c.nodes.Keys - {l};
  }

  lemma ClusterRoster(c: Cluster, members: seq<NodeId>, durable: set<NodeId>, h: History)
    requires ClusterInv(c, members, durable, h)
    ensures RosterOk(members)
  {
  }

  lemma NoneOfOthers(c: Cluster, c1: Cluster, l: NodeId, term: nat)
    requires IsLeader(c, l, term) && c1.nodes.Keys == c.nodes.Keys
    requires forall f :: f in c.nodes && f != l ==> c1.nodes[f] == c.nodes[f]
    ensures NoneOf(c1, c.nodes.Keys - {l}, term) <==> NoneHigher(c, term)
  {
    if NoneOf(c1, c.nodes.Keys - {l}, term) {
      forall f | f in c.nodes ensures c.nodes[f].core.term <= term {
        assert f == l || f in c.nodes.Keys - {l};
      }
    }
  }

  lemma DeposedBefore(c: Cluster, c1: Cluster, c': Cluster, l: NodeId, term: nat, done: set<NodeId>)
    requires Deposed(c1, c', l, term, done) && l in c.nodes && c1.nodes == c.nodes[l := c1.nodes[l]] && l !in done
    ensures Deposed(c, c', l, term, done)
  {
    assert c1.nodes.Keys == c.nodes.Keys;
    assert forall f :: f in done && f in c.nodes ==> c1.nodes[f] == c.nodes[f];
    forall f | f in c.nodes && f != l
      ensures if f in done then c'.nodes[f].core.term == Max(c.nodes[f].core.term, term)
              else c'.nodes[f] == c.nodes[f]
    {
      assert f in done || f !in done;
    }
  }

  lemma DealtBefore(c: Cluster, c1: Cluster, c': Cluster, l: NodeId, term: nat, done: set<NodeId>)
    requires Dealt(c1, c', l, term, done) && l in c.nodes && c1.nodes == c.nodes[l := c1.nodes[l]]
    requires c1.nodes[l].core == c.nodes[l].core && c1.nodes[l].cfg == c.nodes[l].cfg
    ensures Dealt(c, c', l, term, done)
  {
    forall k | k in c.nodes && k != l
      ensures if k in done then
                && Follows(c'.nodes[k], l, term)
                && Moved(c.nodes[l].core, c'.nodes[l].core, k, c.nodes[k].core.log, c'.nodes[k].core.log)
                && Settles(c.nodes[l].core.log, c.nodes[k].core.log, c'.nodes[k].core.log)
              else c'.nodes[k] == c.nodes[k] && SameProgress(c.nodes[l].core, c'.nodes[l].core, k)
    {
      assert k in done || k !in done;
    }
  }

  lemma SameTerms(c: Cluster, c1: Cluster, l: NodeId, term: nat)
    requires l in c.nodes && l in c1.nodes
    requires c1.nodes == c.nodes[l := c1.nodes[l]] && c1.nodes[l].core == c.nodes[l].core
    ensures NoneHigher(c1, term) <==> NoneHigher(c, term)
  {
    assert c1.nodes.Keys == c.nodes.Keys;
    if NoneHigher(c1, term) {
      forall f | f in c.nodes ensures c.nodes[f].core.term <= term {
        assert c1.nodes[f].core.term <= term;
      }
    }
  }

  /** The same for a round that starts with queueing heartbeats. */
  lemma HeartbeatResult(c: Cluster, members: seq<NodeId>, durable: set<NodeId>, h: History, l: NodeId, term: nat)
    returns (h': History)
    requires ClusterInv(c, members, durable, h) && AllValid(c) && IsLeader(c, l, term)
    ensures ClusterInv(HeartbeatRound(c, l), members, durable, h')
    ensures HeartbeatRound(c, l).nodes.Keys == c.nodes.Keys
    ensures if NoneHigher(c, term) then Dealt(c, HeartbeatRound(c, l), l, term, c.nodes.Keys - {l})
            else Deposed(c, HeartbeatRound(c, l), l, term, c.nodes.Keys - {l})
  {
    hide ClusterInv, Next, DeliverAppends, AppendActions, Moved, SameProgress, Valid, ProgressOk, Deposed;
    var c1 := Next(c, Heartbeat(l));
    var h1 := OwnStepInv(c, members, durable, h, Heartbeat(l));
    ValidProgress(c.nodes[l]);
    h' := RoundResult(c1, members, durable, h1, l, term);
    SameTerms(c, c1, l, term);
    assert c1.nodes.Keys == c.nodes.Keys;
    if NoneHigher(c, term) {
      DealtBefore(c, c1, HeartbeatRound(c, l), l, term, c.nodes.Keys - {l});
    } else {
      DeposedBefore(c, c1, HeartbeatRound(c, l), l, term, c.nodes.Keys - {l});
    }
  }

  // ----- bounded catch-up -----

  /** Every follower that is behind has a log that k steps back from next_index, the last of them
      an acceptance, are enough for: it shares all but k of the entries before that position. */
  ghost predicate Within(c: Cluster, l: NodeId, k: nat)
    requires l in c.nodes
  {
    forall f {:trigger CaughtUp(c.nodes[l].core, f)} :: f in c.nodes && f != l ==>
      || CaughtUp(c.nodes[l].core, f)
      || (&& f in c.nodes[l].core.nextIndex
          && c.nodes[l].core.nextIndex[f] <= Shared(c.nodes[l].core.log, c.nodes[f].core.log) + k)
  }

  /** Every log from c is in c' what it was, or the leader's where it was no extension of that. */
  ghost predicate AllSettled(c: Cluster, c': Cluster, r: seq<LogEntry>) {
    forall f :: f in c.nodes ==>
      f in c'.nodes && Settles(r, c.nodes[f].core.log, c'.nodes[f].core.log)
  }

  lemma DealtSettles(c: Cluster, c': Cluster, l: NodeId, term: nat, done: set<NodeId>)
    requires Dealt(c, c', l, term, done)
    ensures AllSettled(c, c', c.nodes[l].core.log)
  {
    hide Moved, SameProgress;
    forall f | f in c.nodes
      ensures f in c'.nodes && Settles(c.nodes[l].core.log, c.nodes[f].core.log, c'.nodes[f].core.log)
    {
      assert f in done || f !in done;
    }
  }

  lemma SettledTrans(c0: Cluster, c1: Cluster, c2: Cluster, r: seq<LogEntry>)
    requires AllSettled(c0, c1, r) && AllSettled(c1, c2, r)
    ensures AllSettled(c0, c2, r)
  {
    forall f | f in c0.nodes ensures f in c2.nodes && Settles(r, c0.nodes[f].core.log, c2.nodes[f].core.log) {
      assert f in c1.nodes && Settles(r, c0.nodes[f].core.log, c1.nodes[f].core.log);
      assert f in c2.nodes && Settles(r, c1.nodes[f].core.log, c2.nodes[f].core.log);
    }
  }

  /** A round takes exactly one rejection from every follower that is still behind. */
  lemma CloserAfterRound(c: Cluster, c': Cluster, l: NodeId, term: nat, k: nat)
    requires Dealt(c, c', l, term, c.nodes.Keys - {l}) && NoneHigher(c, term) && 0 < k
    requires ProgressOk(c.nodes[l].cfg, c.nodes[l].core)
    ensures Within(c', l, k - 1) <==> Within(c, l, k)
    ensures NoneHigher(c', term)
    ensures Within(c', l, 0) ==> forall f :: f in c'.nodes && f != l ==> CaughtUp(c'.nodes[l].core, f)
  {
    hide Shared;
    var done := c.nodes.Keys - {l};
    var before, after := c.nodes[l].core, c'.nodes[l].core;
    forall f | f in c.nodes && f != l
      ensures f in c'.nodes && Follows(c'.nodes[f], l, term)
      ensures Moved(before, after, f, c.nodes[f].core.log, c'.nodes[f].core.log)
    {
      assert f in done;
    }
    forall f | f in c'.nodes && f != l
      ensures CaughtUp(before, f) ==> CaughtUp(after, f)
      ensures CaughtUp(after, f) || (f in after.nextIndex && f in before.nextIndex
                                     && after.nextIndex[f] > Shared(after.log, c'.nodes[f].core.log)
                                     && after.nextIndex[f] == before.nextIndex[f] - 1
                                     && c'.nodes[f].core.log == c.nodes[f].core.log)
      ensures || CaughtUp(before, f) || !CaughtUp(after, f)
              || before.nextIndex[f] <= Shared(before.log, c.nodes[f].core.log) + k
    {
      assert Moved(before, after, f, c.nodes[f].core.log, c'.nodes[f].core.log);
    }
    forall f | f in c'.nodes ensures c'.nodes[f].core.term <= term {
      if f != l { assert f in done; }
    }
    if Within(c, l, k) {
      forall f | f in c'.nodes && f != l
        ensures CaughtUp(after, f) || after.nextIndex[f] <= Shared(after.log, c'.nodes[f].core.log) + (k - 1)
      {
        assert f in c.nodes;
        assert CaughtUp(before, f) ==> CaughtUp(after, f);
      }
    }
    if Within(c', l, k - 1) {
      forall f | f in c.nodes && f != l
        ensures CaughtUp(before, f) || before.nextIndex[f] <= Shared(before.log, c.nodes[f].core.log) + k
      {
        assert f in c'.nodes;
        assert CaughtUp(before, f) ==> CaughtUp(after, f);
      }
    }
  }

  lemma EveryoneCaughtUp(c: Cluster, members: seq<NodeId>, durable: set<NodeId>, h: History, l: NodeId)
    requires ClusterInv(c, members, durable, h) && l in c.nodes
    ensures AllCaughtUp(c.nodes[l]) <==> forall f :: f in c.nodes && f != l ==> CaughtUp(c.nodes[l].core, f)
    ensures AllCaughtUp(c.nodes[l]) ==> Within(c, l, 0)
  {
    hide ClusterInv, CaughtUp;
    ConfigAt(c, members, durable, h, l);
    if AllCaughtUp(c.nodes[l]) {
      forall f | f in c.nodes && f != l ensures CaughtUp(c.nodes[l].core, f) { assert IsPeer(c.nodes[l].cfg, f); }
    }
  }

  /** One round, seen from before: whether it is the last one needed, and what it leaves to do. */
  lemma RoundCloses(c: Cluster, members: seq<NodeId>, durable: set<NodeId>, h: History, l: NodeId, term: nat, k: nat)
    returns (h': History)
    requires ClusterInv(c, members, durable, h) && AllValid(c) && IsLeader(c, l, term) && 0 < k
    ensures var c' := HeartbeatRound(c, l);
            if NoneHigher(c, term) then
              && ClusterInv(c', members, durable, h') && IsLeader(c', l, term) && NoneHigher(c', term)
              && c'.nodes[l].core.log == c.nodes[l].core.log && AllSettled(c, c', c.nodes[l].core.log)
              && (Within(c', l, k - 1) <==> Within(c, l, k))
              && (Within(c', l, 0) <==> AllCaughtUp(c'.nodes[l]))
              && (AllCaughtUp(c'.nodes[l]) ==> Within(c', l, k - 1))
            else Deposed(c, c', l, term, c.nodes.Keys - {l})
  {
    hide ClusterInv, HeartbeatRound, Dealt, AllCaughtUp, NoneHigher, Within, AllSettled, CaughtUp, Valid, Deposed;
    h' := HeartbeatResult(c, members, durable, h, l, term);
    var c' := HeartbeatRound(c, l);
    if NoneHigher(c, term) {
      ValidAt(c, l);
      ValidProgress(c.nodes[l]);
      CloserAfterRound(c, c', l, term, k);
      DealtLeader(c, c', l, term, c.nodes.Keys - {l});
      DealtSettles(c, c', l, term, c.nodes.Keys - {l});
      EveryoneCaughtUp(c', members, durable, h', l);
      if AllCaughtUp(c'.nodes[l]) { WithinMore(c', l, k - 1); }
    }
  }

  lemma WithinMore(c: Cluster, l: NodeId, k: nat)
    requires l in c.nodes && Within(c, l, 0)
    ensures Within(c, l, k)
  {
    hide CaughtUp, Shared;
  }

  /** Any number of rounds brings everyone up to the log exactly if no node is of a newer term and
      every follower needs no more exchanges than that; what it returns says so. */
  lemma {:induction false} RoundsResult(c: Cluster, members: seq<NodeId>, durable: set<NodeId>, h: History,
                                        l: NodeId, term: nat, rounds: nat)
    returns (h': History)
    requires ClusterInv(c, members, durable, h) && AllValid(c) && IsLeader(c, l, term)
    requires !AllCaughtUp(c.nodes[l])
    ensures var (c', caughtUp) := Rounds(c, l, rounds);
            && (caughtUp <==> 0 < rounds && NoneHigher(c, term) && Within(c, l, rounds))
            && (caughtUp <==> IsLeader(c', l, term) && AllCaughtUp(c'.nodes[l]))
            && (NoneHigher(c, term) ==>
                  && ClusterInv(c', members, durable, h') && IsLeader(c', l, term) && NoneHigher(c', term)
                  && c'.nodes[l].core.log == c.nodes[l].core.log && AllSettled(c, c', c.nodes[l].core.log))
            && (!NoneHigher(c, term) && 0 < rounds ==> Deposed(c, c', l, term, c.nodes.Keys - {l}))
    decreases rounds
  {
    hide ClusterInv, HeartbeatRound, AllCaughtUp, NoneHigher, Within, AllSettled;
    h' := h;
    if rounds == 0 {
      NothingSettled(c, c.nodes[l].core.log);
    } else {
      h' := RoundCloses(c, members, durable, h, l, term, rounds);
      var c' := HeartbeatRound(c, l);
      if NoneHigher(c, term) && !AllCaughtUp(c'.nodes[l]) {
        h' := RoundsResult(c', members, durable, h', l, term, rounds - 1);
        SettledTrans(c, c', Rounds(c', l, rounds - 1).0, c.nodes[l].core.log);
      }
    }
  }

  lemma NothingSettled(c: Cluster, r: seq<LogEntry>)
    ensures AllSettled(c, c, r)
  {
  }

  lemma DealtLeader(c: Cluster, c': Cluster, l: NodeId, term: nat, done: set<NodeId>)
    requires Dealt(c, c', l, term, done)
    ensures IsLeader(c', l, term) && c'.nodes[l].core.log == c.nodes[l].core.log
  {
  }

  lemma CaughtUpHolds(c: Cluster, members: seq<NodeId>, durable: set<NodeId>, h: History,
                      l: NodeId, term: nat, f: NodeId)
    requires ClusterInv(c, members, durable, h) && IsLeader(c, l, term)
    requires AllCaughtUp(c.nodes[l]) && NoneHigher(c, term) && f in c.nodes
    ensures c.nodes[l].core.log <= c.nodes[f].core.log
  {
    hide ClusterInv, Healthy, Sourced, CommittedLog, LogOk;
    if f != l && c.nodes[l].core.log != [] {
      ConfigAt(c, members, durable, h, l);
      NodeAt(c, members, durable, h, l);
      NodeAt(c, members, durable, h, f);
      assert CaughtUp(c.nodes[l].core, f);
      AckedIsStored(h, f, c.nodes[f].core, term, c.nodes[l].core.matchIndex[f]);
    }
  }

  lemma ReplicateResult(c: Cluster, members: seq<NodeId>, durable: set<NodeId>, h: History,
                        l: NodeId, term: nat, rounds: nat)
    returns (h': History)
    requires ClusterInv(c, members, durable, h) && AllValid(c) && IsLeader(c, l, term)
    ensures var (c', caughtUp) := Replicate(c, l, rounds);
            && (caughtUp <==> CanCatchUp(c, l, term, rounds))
            && (caughtUp <==> IsLeader(c', l, term) && AllCaughtUp(c'.nodes[l]))
            && (NoneHigher(c, term) ==>
                  && ClusterInv(c', members, durable, h') && IsLeader(c', l, term) && NoneHigher(c', term)
                  && c'.nodes[l].core.log == c.nodes[l].core.log && AllSettled(c, c', c.nodes[l].core.log))
            && (!NoneHigher(c, term) && !caughtUp && 0 < rounds ==> Deposed(c, c', l, term, c.nodes.Keys - {l}))
  {
    hide ClusterInv, NoneHigher, Within, AllCaughtUp, Rounds, AllSettled, Deposed;
    h' := h;
    if AllCaughtUp(c.nodes[l]) {
      NothingSettled(c, c.nodes[l].core.log);
    } else {
      h' := RoundsResult(c, members, durable, h, l, term, rounds);
    }
  }

  /** What decides beforehand whether that many rounds are enough: nothing is left to do, or no
      node is of a newer term and every follower that is behind shares all but that many of the
      entries before its next_index. */
  ghost predicate CanCatchUp(c: Cluster, l: NodeId, term: nat, rounds: nat)
    requires l in c.nodes
  {
    AllCaughtUp(c.nodes[l]) || (0 < rounds && NoneHigher(c, term) && Within(c, l, rounds))
  }

  /** The log of a follower that has caught up with a leader whose log is r. */
  ghost function Joined(r: seq<LogEntry>, log: seq<LogEntry>): seq<LogEntry> {
    if r <= log then log else r
  }

  /** How all logs stand in c', seen from c: each starts with r, and is the old one if that did
      so already, and r itself otherwise; so they equal r except where the old one was longer
      and in agreement with it. */
  ghost predicate AllJoined(members: seq<NodeId>, c: Cluster, c': Cluster, r: seq<LogEntry>) {
    forall f :: f in members ==>
      && f in c.nodes && f in c'.nodes
      && r <= c'.nodes[f].core.log == Joined(r, c.nodes[f].core.log)
      && (c'.nodes[f].core.log == r <==> !(r < c.nodes[f].core.log))
  }

  /** Whatever the number of rounds, replicate_until_caught_up returns true exactly when that many
      were enough, which the logs tell beforehand, and exactly when afterwards the node still leads
      and has everyone's confirmation of its last entry. Then, if no node is of a newer term, every
      follower has the leader's whole log as a prefix: its own log if that was an extension of the
      leader's, and otherwise exactly the leader's. If it returns false, the node has been deposed,
      and then is a follower in the latest term there is, or no round was allowed, or some follower
      is still behind. While it leads, no log changes but into the leader's. */
  lemma CatchUp(members: seq<NodeId>, durable: set<NodeId>, run: seq<Step>, l: NodeId, term: nat, rounds: nat)
    requires RosterOk(members)
    requires IsLeader(After(members, durable, run), l, term)
    ensures var c := After(members, durable, run);
            var (c', caughtUp) := Replicate(c, l, rounds);
            && (caughtUp <==> CanCatchUp(c, l, term, rounds))
            && (caughtUp <==> IsLeader(c', l, term) && AllCaughtUp(c'.nodes[l]))
            && (NoneHigher(c, term) ==>
                  && IsLeader(c', l, term) && c'.nodes[l].core.log == c.nodes[l].core.log
                  && AllSettled(c, c', c.nodes[l].core.log)
                  && (caughtUp ==> AllJoined(members, c, c', c.nodes[l].core.log)))
            && (!NoneHigher(c, term) && !caughtUp && 0 < rounds ==> Deposed(c, c', l, term, c.nodes.Keys - {l}))
  {
    hide After, ClusterInv, AllCaughtUp, NoneHigher, Within, Valid, AllSettled, Replicate, CanCatchUp, Deposed;
    var c := After(members, durable, run);
    var h := RunInv(members, durable, run);
    var h' := ReplicateResult(c, members, durable, h, l, term, rounds);
    var (c', caughtUp) := Replicate(c, l, rounds);
    if NoneHigher(c, term) && caughtUp {
      NodesAreMembers(c, members, durable, h);
      NodesAreMembers(c', members, durable, h');
      forall f | f in members
        ensures c.nodes[l].core.log <= c'.nodes[f].core.log == Joined(c.nodes[l].core.log, c.nodes[f].core.log)
      {
        CaughtUpHolds(c', members, durable, h', l, term, f);
        SettledAt(c, c', c.nodes[l].core.log, f);
      }
    }
  }

  lemma SettledAt(c: Cluster, c': Cluster, r: seq<LogEntry>, f: NodeId)
    requires AllSettled(c, c', r) && f in c.nodes && f in c'.nodes && r <= c'.nodes[f].core.log
    ensures c'.nodes[f].core.log == Joined(r, c.nodes[f].core.log)
  {
    assert Settles(r, c.nodes[f].core.log, c'.nodes[f].core.log);
  }

  /** As many rounds as the largest next_index are always enough. */
  lemma EnoughRounds(members: seq<NodeId>, durable: set<NodeId>, run: seq<Step>, l: NodeId, term: nat, rounds: nat)
    requires RosterOk(members)
    requires IsLeader(After(members, durable, run), l, term) && NoneHigher(After(members, durable, run), term)
    requires var core := After(members, durable, run).nodes[l].core;
             forall f :: f in core.nextIndex ==> core.nextIndex[f] <= rounds
    ensures CanCatchUp(After(members, durable, run), l, term, rounds)
  {
    hide After, ClusterInv, CaughtUp, NoneHigher, ProgressOk, Shared;
    var c := After(members, durable, run);
    var h := RunInv(members, durable, run);
    ConfigAt(c, members, durable, h, l);
    ValidAt(c, l);
    ValidProgress(c.nodes[l]);
    if !AllCaughtUp(c.nodes[l]) {
      var f :| IsPeer(c.nodes[l].cfg, f) && !CaughtUp(c.nodes[l].core, f);
      ProgressBounds(c.nodes[l], f);
    }
    forall f | f in c.nodes && f != l ensures f in c.nodes[l].core.nextIndex {
      ProgressBounds(c.nodes[l], f);
    }
  }

  lemma ProgressBounds(s: NodeState, f: NodeId)
    requires ProgressOk(s.cfg, s.core) && IsPeer(s.cfg, f)
    ensures f in s.core.nextIndex && 0 < s.core.nextIndex[f]
  {
  }
}
