/** What the loops of replication compute: the backward commit scan finds the quorum order
    statistic, and the merge does what one sentence says, twice the same, and never undoes a
    newer request (src/raft_core.cpp:458-507, src/raft_core.cpp:1013-1059). */
module RaftReplication {
  import opened RaftTypes
  import opened KeyValue
  import opened RaftNode
  import opened RaftProtocol
  import opened RaftLocal
  import opened RaftCalls
  import opened RaftCluster
  import opened RaftTheorems

  // ----- the commit scan -----

  ghost function CountAtLeast(xs: seq<nat>, v: nat): (n: nat)
    ensures n <= |xs|
  {
    if xs == [] then 0
    else CountAtLeast(xs[..|xs| - 1], v) + if v <= xs[|xs| - 1] then 1 else 0
  }

  /** v is the k-th largest of xs. */
  ghost predicate KthLargest(xs: seq<nat>, k: nat, v: nat) {
    v in xs && CountAtLeast(xs, v + 1) < k <= CountAtLeast(xs, v)
  }

  lemma {:induction false} CountShrinks(xs: seq<nat>, v: nat, w: nat)
    requires v <= w
    ensures CountAtLeast(xs, w) <= CountAtLeast(xs, v)
  {
    if xs != [] { CountShrinks(xs[..|xs| - 1], v, w); }
  }

  lemma {:induction false} CountStep(xs: seq<nat>, v: nat)
    ensures v !in xs ==> CountAtLeast(xs, v + 1) == CountAtLeast(xs, v)
    ensures CountAtLeast(xs, 0) == |xs|
  {
    if xs != [] {
      assert xs == xs[..|xs| - 1] + [xs[|xs| - 1]];
      CountStep(xs[..|xs| - 1], v);
    }
  }

  lemma {:induction false} CountNone(xs: seq<nat>, bound: nat)
    requires forall i :: 0 <= i < |xs| ==> xs[i] < bound
    ensures CountAtLeast(xs, bound) == 0
  {
    if xs != [] { CountNone(xs[..|xs| - 1], bound); }
  }

  /** Every rank has exactly one value. */
  lemma KthLargestExists(xs: seq<nat>, k: nat, bound: nat) returns (v: nat)
    requires 0 < k <= |xs| && CountAtLeast(xs, bound + 1) < k
    ensures KthLargest(xs, k, v)
    decreases bound
  {
    CountStep(xs, bound);
    if k <= CountAtLeast(xs, bound) {
      v := bound;
    } else {
      v := KthLargestExists(xs, k, bound - 1);
    }
  }

  lemma KthLargestUnique(xs: seq<nat>, k: nat, v: nat, w: nat)
    requires KthLargest(xs, k, v) && KthLargest(xs, k, w)
    ensures v == w
  {
    if v < w { CountShrinks(xs, v + 1, w); }
    if w < v { CountShrinks(xs, w + 1, v); }
  }

  ghost function Matches(matchIndex: map<NodeId, nat>, nodes: seq<NodeId>): (ms: seq<nat>)
    requires forall f :: f in nodes ==> f in matchIndex
    ensures |ms| == |nodes| && forall i :: 0 <= i < |nodes| ==> ms[i] == matchIndex[nodes[i]]
  {
    if nodes == [] then []
    else
      var front := nodes[..|nodes| - 1];
      assert forall f :: f in front ==> f in nodes;
      Matches(matchIndex, front) + [matchIndex[nodes[|nodes| - 1]]]
  }

  /** How far each member's log is known to reach: the leader's own, then its followers'. */
  ghost function Reached(cfg: Config, core: Core): (xs: seq<nat>)
    requires ProgressOk(cfg, core)
  {
    var peers := Peers(cfg.members, cfg.id);
    assert forall f :: f in peers ==> IsPeer(cfg, f);
    var own: seq<nat> := [|core.log|];
    own + Matches(core.matchIndex, peers)
  }

  lemma {:induction false} CountIsConfirmed(matchIndex: map<NodeId, nat>, nodes: seq<NodeId>, own: seq<nat>, v: nat)
    requires |own| == 1 && forall f :: f in nodes ==> f in matchIndex
    ensures CountAtLeast(own + Matches(matchIndex, nodes), v) ==
            Confirmed(matchIndex, nodes, v) + if v <= own[0] then 1 else 0
  {
    var xs := own + Matches(matchIndex, nodes);
    if nodes == [] {
      assert xs == own && xs[..0] == [];
    } else {
      var front, last := nodes[..|nodes| - 1], nodes[|nodes| - 1];
      assert nodes == front + [last];
      CountIsConfirmed(matchIndex, front, own, v);
      assert xs[..|xs| - 1] == own + Matches(matchIndex, front);
    }
  }

  /** An index can be committed exactly if a majority reached it and its entry is current. */
  lemma CommittableIsCounted(cfg: Config, core: Core, index: nat)
    requires ProgressOk(cfg, core) && 0 < index <= |core.log|
    ensures Committable(cfg, core, index) <==>
              core.log[index - 1].term == core.term && Majority(cfg.members) <= CountAtLeast(Reached(cfg, core), index)
  {
    var peers := Peers(cfg.members, cfg.id);
    forall f | f in peers ensures f in core.matchIndex { assert IsPeer(cfg, f); }
    CountIsConfirmed(core.matchIndex, peers, [|core.log|], index);
  }

  lemma ReachedBounds(cfg: Config, core: Core)
    requires ConfigOk(cfg) && ProgressOk(cfg, core)
    ensures |Reached(cfg, core)| == |cfg.members| && CountAtLeast(Reached(cfg, core), |core.log| + 1) == 0
  {
    PeersCount(cfg.members, cfg.id);
    var peers, xs := Peers(cfg.members, cfg.id), Reached(cfg, core);
    forall i | 0 <= i < |xs| ensures xs[i] < |core.log| + 1 {
      if 0 < i { assert peers[i - 1] in peers && IsPeer(cfg, peers[i - 1]); }
    }
    CountNone(xs, |core.log| + 1);
  }

  /** advance_commit_index sets the commit index to the majority-th largest of the leader's own
      last index and its match indexes, exactly when that exceeds the old one and its entry is
      of the current term; there always is exactly one such number. */
  lemma CommitScanIsQuorumRule(s: NodeState) returns (v: nat)
    requires Valid(s) && s.core.role == Leader
    ensures ProgressOk(s.cfg, s.core) && s.core.commit <= |s.core.log|
    ensures KthLargest(Reached(s.cfg, s.core), Majority(s.cfg.members), v) && v <= |s.core.log|
    ensures AdvanceCommit(s).0.core ==
            s.core.(commit := if s.core.commit < v && s.core.log[v - 1].term == s.core.term then v else s.core.commit)
  {
    hide Applied, ApplyCommitted, LogOk, CommitScan;
    v := QuorumRank(s.cfg, s.core);
  }

  lemma QuorumRank(cfg: Config, core: Core) returns (v: nat)
    requires ConfigOk(cfg) && CoreOk(cfg, core) && core.role == Leader
    ensures KthLargest(Reached(cfg, core), Majority(cfg.members), v) && v <= |core.log|
    ensures CommitScan(cfg, core, |core.log|) ==
            if core.commit < v && core.log[v - 1].term == core.term then v else core.commit
  {
    hide Reached, Committable;
    ReachedBounds(cfg, core);
    v := KthLargestExists(Reached(cfg, core), Majority(cfg.members), |core.log|);
    if |core.log| < v { CountShrinks(Reached(cfg, core), |core.log| + 1, v); }
    forall i: nat | 0 < i <= |core.log|
      ensures v < i ==> !Committable(cfg, core, i)
      ensures i <= v ==> (Committable(cfg, core, i) <==> core.log[i - 1].term == core.term)
    {
      CommittableIsCounted(cfg, core, i);
      if v < i { CountShrinks(Reached(cfg, core), v + 1, i); } else { CountShrinks(Reached(cfg, core), i, v); }
    }
    assert core.commit < v ==> (Committable(cfg, core, v) <==> core.log[v - 1].term == core.term);
  }

  // ----- rejections -----

  /** A rejection of the leader's own term keeps match_index below next_index exactly when a
      position lies between them, or next_index is at its lower end already. */
  lemma RejectionOrder(s: NodeState, follower: NodeId, response: AppendEntriesResponse)
    requires Valid(s) && s.core.role == Leader && IsPeer(s.cfg, follower)
    requires response.term == s.core.term && !response.success
    ensures follower in s.core.matchIndex && follower in s.core.nextIndex
    ensures s.core.commit <= |s.core.log| && ProgressOk(s.cfg, s.core)
    ensures var core' := ReceiveAppendResponse(s, follower, response).state.core;
            && follower in core'.matchIndex && follower in core'.nextIndex
            && (s.core.matchIndex[follower] < s.core.nextIndex[follower] ==>
                  (core'.matchIndex[follower] < core'.nextIndex[follower] <==>
                     s.core.matchIndex[follower] + 1 < s.core.nextIndex[follower] || s.core.nextIndex[follower] == 1))
  {
    hide LogOk, Applied;
    assert follower in s.core.nextIndex && follower in s.core.matchIndex;
  }

  // ----- the merge -----

  /** The entry at that offset is in the log already, going by its term as the code does. */
  predicate Present(log: seq<LogEntry>, prev: nat, entries: seq<LogEntry>, k: nat)
    requires k < |entries|
  {
    prev + k < |log| && log[prev + k].term == entries[k].term
  }

  lemma FirstNewIsFirst(log: seq<LogEntry>, prev: nat, entries: seq<LogEntry>)
    requires prev <= |log|
    ensures var n := FirstNew(log, prev, entries, 0);
            && (forall i: nat :: i < n ==> Present(log, prev, entries, i))
            && (n < |entries| ==> !Present(log, prev, entries, n))
  {
    var n := FirstNew(log, prev, entries, 0);
    forall i: nat | i < n ensures Present(log, prev, entries, i) {
      assert log[prev + i].term == entries[i].term;
    }
  }

  /** The log stays as it is when nothing conflicts and nothing is missing; otherwise it is cut
      at the first entry that does or is, and continued with the request's. */
  lemma MergeSpec(log: seq<LogEntry>, prev: nat, entries: seq<LogEntry>, k: nat)
    requires prev <= |log| && k <= |entries|
    requires forall i: nat :: i < k ==> Present(log, prev, entries, i)
    requires k < |entries| ==> !Present(log, prev, entries, k)
    ensures k == 0 || prev + k <= |log|
    ensures Merged(log, prev, entries) == if k == |entries| then log else log[..prev + k] + entries[k..]
  {
    if 0 < k { assert Present(log, prev, entries, k - 1); }
    FirstNewIsFirst(log, prev, entries);
  }

  /** Afterwards every entry is present, so that merging again changes nothing. */
  lemma MergedPresent(log: seq<LogEntry>, prev: nat, entries: seq<LogEntry>)
    requires prev <= |log|
    ensures forall i: nat :: i < |entries| ==> Present(Merged(log, prev, entries), prev, entries, i)
    ensures Merged(log, prev, entries)[..prev] == log[..prev]
    ensures FirstNew(Merged(log, prev, entries), prev, entries, 0) == |entries|
    ensures Merged(Merged(log, prev, entries), prev, entries) == Merged(log, prev, entries)
  {
    var k, merged := FirstNew(log, prev, entries, 0), Merged(log, prev, entries);
    forall i: nat | i < |entries| ensures Present(merged, prev, entries, i) {
      if i < k { assert log[prev + i].term == entries[i].term; }
    }
    FirstNewIsFirst(merged, prev, entries);
  }

  lemma AcceptTwice(s: NodeState, request: AppendEntriesRequest)
    requires request.prevLogIndex <= |s.core.log| && s.core.commit <= |s.core.log|
    requires !ReplacesCommitted(s.core.log, s.core.commit, request.prevLogIndex, request.entries)
    requires AcceptEntries(s, request).reply.Returned?
    ensures var s' := AcceptEntries(s, request).state;
            && request.prevLogIndex <= |s'.core.log| && s'.core.commit <= |s'.core.log|
            && !ReplacesCommitted(s'.core.log, s'.core.commit, request.prevLogIndex, request.entries)
            && AcceptEntries(s', request) == AcceptEntries(s, request)
  {
    hide Merged, ApplyCommitted, FirstNew;
    MergedKeepsCommitted(s.core.log, s.core.commit, request.prevLogIndex, request.entries);
    MergedPresent(s.core.log, request.prevLogIndex, request.entries);
  }

  /** A request whose handling did not throw is answered the same the second time. */
  lemma ReturnedTwice(s: NodeState, request: AppendEntriesRequest)
    requires Valid(s) && HandleAppendEntries(s, request).reply.Returned?
    ensures var o := HandleAppendEntries(s, request);
            && o.state.core.commit <= |o.state.core.log|
            && HandleAppendEntries(o.state, request) == o
  {
    hide AcceptEntries, ReplacesCommitted, EntriesOk, LogOk, Applied, Merged;
    HandleAppendEntriesLocal(s, request);
    if request.leaderId in s.cfg.members && s.core.term <= request.term {
      var s1 := FollowLeader(s, request);
      FollowLeaderLocal(s, request);
      if && PreviousMatches(s1.core.log, request.prevLogIndex, request.prevLogTerm)
         && EntriesOk(request.entries, request.term, request.prevLogTerm)
         && !ReplacesCommitted(s1.core.log, s1.core.commit, request.prevLogIndex, request.entries)
      {
        PreviousInLog(s1.core.log, request.prevLogIndex, request.prevLogTerm);
        AcceptTwice(s1, request);
        AcceptedFollows(s1, request);
      }
    }
  }

  /** What an accepted request leaves for its repetition: follower, leader and term as they
      are, and the previous entry still in place. */
  lemma AcceptedFollows(s: NodeState, request: AppendEntriesRequest)
    requires request.prevLogIndex <= |s.core.log| && s.core.commit <= |s.core.log|
    requires PreviousMatches(s.core.log, request.prevLogIndex, request.prevLogTerm)
    requires !ReplacesCommitted(s.core.log, s.core.commit, request.prevLogIndex, request.entries)
    ensures var s' := AcceptEntries(s, request).state;
            && s'.cfg == s.cfg && s'.core.term == s.core.term && s'.core.role == s.core.role
            && s'.core.leaderId == s.core.leaderId
            && PreviousMatches(s'.core.log, request.prevLogIndex, request.prevLogTerm)
  {
    hide Merged, ApplyCommitted, ReplacesCommitted;
    MergedPresent(s.core.log, request.prevLogIndex, request.entries);
    var merged, p := Merged(s.core.log, request.prevLogIndex, request.entries), request.prevLogIndex;
    if 0 < p { assert merged[..p][p - 1] == s.core.log[..p][p - 1]; }
  }

  // ----- repeating a request -----

  /** The request passes every check of handle_append_entries. */
  ghost predicate Passes(s: NodeState, request: AppendEntriesRequest) {
    && request.leaderId in s.cfg.members && s.core.term <= request.term
    && PreviousMatches(s.core.log, request.prevLogIndex, request.prevLogTerm)
    && EntriesOk(request.entries, request.term, request.prevLogTerm)
    && !ReplacesCommitted(s.core.log, s.core.commit, request.prevLogIndex, request.entries)
  }

  /** The request passes every check, and moves the commit index over an entry, among those
      still to be applied, that applying rejects. */
  ghost predicate Poisoned(s: NodeState, request: AppendEntriesRequest) {
    && Passes(s, request)
    && var log := Merged(s.core.log, request.prevLogIndex, request.entries);
    var safe := Min(request.leaderCommit, request.prevLogIndex + |request.entries|);
    && s.core.commit < safe
    && exists i: nat :: s.machine.lastApplied <= i < safe && !Applicable(log[i].command)
  }

  /** Handling a request throws exactly when it is poisoned. */
  lemma ThrowsIffPoisoned(s: NodeState, request: AppendEntriesRequest)
    requires Valid(s)
    ensures s.core.commit <= |s.core.log|
    ensures HandleAppendEntries(s, request).reply.Threw? <==> Poisoned(s, request)
  {
    hide Merged, ReplacesCommitted, EntriesOk, PreviousMatches, LogOk, Applied, ApplyCommitted, Applicable;
    if Passes(s, request) {
      PreviousInLog(s.core.log, request.prevLogIndex, request.prevLogTerm);
      MergedKeepsCommitted(s.core.log, s.core.commit, request.prevLogIndex, request.entries);
      ApplyThrowsIff(AcceptedCore(FollowLeader(s, request).core, request), s.machine);
    }
  }

  lemma FollowTwice(s: NodeState, request: AppendEntriesRequest)
    requires s.core.term == request.term && s.core.role == Follower && s.core.leaderId == Some(request.leaderId)
    ensures FollowLeader(s, request) == s
  {
  }

  /** A request that threw is acknowledged when it comes again, and what it left behind is
      saved: the commit index then covers an entry that was never applied. */
  lemma PoisonedRepeated(s: NodeState, request: AppendEntriesRequest)
    requires Valid(s) && Poisoned(s, request)
    ensures s.core.commit <= |s.core.log|
    ensures var o := HandleAppendEntries(s, request);
            && o.reply == Threw(InvalidArgument) && o.state.core.commit <= |o.state.core.log|
            && o.state.core.commit == Min(request.leaderCommit, request.prevLogIndex + |request.entries|)
            && HandleAppendEntries(o.state, request) ==
               Outcome(Persist(o.state), Returned(AppendEntriesResponse(
                 request.term, true, request.prevLogIndex + |request.entries|)))
  {
    hide Merged, ReplacesCommitted, EntriesOk, PreviousMatches, LogOk, Applied, ApplyCommitted, Applicable, Poisoned,
         FirstNew;
    ThrowsIffPoisoned(s, request);
    HandleAppendEntriesLocal(s, request);
    PoisonedPasses(s, request);
    PreviousInLog(s.core.log, request.prevLogIndex, request.prevLogTerm);
    FollowLeaderLocal(s, request);
    var s1 := FollowLeader(s, request);
    var o := AcceptEntries(s1, request);
    MergedKeepsCommitted(s.core.log, s.core.commit, request.prevLogIndex, request.entries);
    MergedPresent(s.core.log, request.prevLogIndex, request.entries);
    AcceptedFollows(s1, request);
    NothingReplaced(o.state, request);
    FollowTwice(o.state, request);
  }

  /** The node is left standing before the entry it could not apply. */
  lemma PoisonedStands(s: NodeState, request: AppendEntriesRequest)
    requires Valid(s) && Poisoned(s, request)
    ensures s.core.commit <= |s.core.log|
    ensures var s' := HandleAppendEntries(s, request).state;
            && s'.machine.lastApplied < s'.core.commit <= |s'.core.log|
            && !Applicable(s'.core.log[s'.machine.lastApplied].command)
  {
    hide Merged, ReplacesCommitted, EntriesOk, PreviousMatches, LogOk, Applied, ApplyCommitted, Applicable, Poisoned,
         FirstNew, Healthy, Advances;
    ThrowsIffPoisoned(s, request);
    HandleAppendEntriesLocal(s, request);
    PoisonedPasses(s, request);
    PreviousInLog(s.core.log, request.prevLogIndex, request.prevLogTerm);
    FollowLeaderLocal(s, request);
    var s1 := FollowLeader(s, request);
    AcceptedCoreLocal(s1.cfg, s1.core, request);
    CommitLocal(s1, AcceptedCore(s1.core, request));
  }

  lemma PoisonedPasses(s: NodeState, request: AppendEntriesRequest)
    requires Poisoned(s, request)
    ensures Passes(s, request)
    ensures s.core.commit < Min(request.leaderCommit, request.prevLogIndex + |request.entries|)
  {
  }

  lemma NothingReplaced(s: NodeState, request: AppendEntriesRequest)
    requires FirstNew(s.core.log, request.prevLogIndex, request.entries, 0) == |request.entries|
    ensures !ReplacesCommitted(s.core.log, s.core.commit, request.prevLogIndex, request.entries)
  {
  }

  /** Handling a request a second time gives the same answer and changes nothing further,
      exactly when the request is not poisoned. */
  lemma HandlingTwice(s: NodeState, request: AppendEntriesRequest)
    requires Valid(s)
    ensures s.core.commit <= |s.core.log|
    ensures var o := HandleAppendEntries(s, request);
            && o.state.core.commit <= |o.state.core.log|
            && (HandleAppendEntries(o.state, request) == o <==> !Poisoned(s, request))
  {
    hide HandleAppendEntries, Poisoned;
    ThrowsIffPoisoned(s, request);
    if Poisoned(s, request) {
      PoisonedRepeated(s, request);
    } else {
      ReturnedTwice(s, request);
    }
  }

  /** From the disk that a poisoned request leaves once it was repeated, the node cannot be
      started. */
  lemma PoisonedDisk(s: NodeState, request: AppendEntriesRequest)
    requires Valid(s) && s.cfg.durable && Poisoned(s, request)
    ensures s.core.commit <= |s.core.log|
    ensures var o := HandleAppendEntries(s, request);
            && o.state.core.commit <= |o.state.core.log|
            && Boot(s.cfg, 0, [], HandleAppendEntries(o.state, request).state.disk).Threw?
  {
    hide Merged, ReplacesCommitted, EntriesOk, PreviousMatches, LogOk, Applied, ApplyCommitted, Applicable;
    PoisonedRepeated(s, request);
    HandleAppendEntriesLocal(s, request);
    var core := HandleAppendEntries(s, request).state.core;
    var booted := Core(Follower, core.term, core.votedFor, None, core.log, core.commit, {}, map[], map[]);
    PreviousInLog(s.core.log, request.prevLogIndex, request.prevLogTerm);
    var i: nat :| i < core.commit && !Applicable(core.log[i].command);
    ApplyThrowsIff(booted, Machine(0, [], map[]));
  }

  /** A healthy follower of term 1 with an empty log and a state file. */
  ghost function ExampleNode(): NodeState {
    var core := Core(Follower, 1, None, None, [], 0, {}, map[], map[]);
    NodeState(Config("a", ["a", "b", "c"], true), core, Machine(0, [], map[]), [], [], Some(Persistent(core)))
  }

  /** One raw command, said to be committed. */
  ghost function ExampleRequest(): AppendEntriesRequest {
    AppendEntriesRequest(1, "b", 0, 0, [LogEntry(1, "SET foo")], 1)
  }

  lemma ExampleIsPoisoned()
    ensures Healthy(ExampleNode()) && Poisoned(ExampleNode(), ExampleRequest())
  {
    hide Applicable;
    var request := ExampleRequest();
    RawCommandThrows();
    MergeSpec([], 0, request.entries, 0);
    assert Merged([], 0, request.entries)[0] == request.entries[0];
  }

  /** There the first call throws, the second acknowledges the entry and saves the commit index
      over it, and the node cannot be started again. */
  lemma PoisonedExample()
    ensures Healthy(ExampleNode()) && Poisoned(ExampleNode(), ExampleRequest())
    ensures var o := HandleAppendEntries(ExampleNode(), ExampleRequest());
            && o.reply == Threw(InvalidArgument) && o.state.core.commit <= |o.state.core.log|
            && var again := HandleAppendEntries(o.state, ExampleRequest());
            && again.reply == Returned(AppendEntriesResponse(1, true, 1))
            && again.state.disk == Some(Persistent(o.state.core)) && o.state.core.commit == 1
            && Boot(ExampleNode().cfg, 0, [], again.state.disk).Threw?
  {
    hide HandleAppendEntries, Boot, Poisoned, LogOk, Applied;
    ExampleIsPoisoned();
    PoisonedRepeated(ExampleNode(), ExampleRequest());
    PoisonedDisk(ExampleNode(), ExampleRequest());
    HandledConfig(ExampleNode(), ExampleRequest());
  }

  lemma HandledConfig(s: NodeState, request: AppendEntriesRequest)
    requires Valid(s)
    ensures s.core.commit <= |s.core.log| && HandleAppendEntries(s, request).state.cfg == s.cfg
  {
    hide Valid, HandleAppendEntries;
    ValidProgress(s);
    HandleAppendEntriesLocal(s, request);
  }

  // ----- a command that throws at its leader -----

  /** append_command throws at a leader exactly when the commit index moves, with the new entry
      counted, over an entry still to be applied that applying rejects. Then the entry and the
      new commit index are in memory, and nothing is saved. */
  lemma CommandThrowsIff(s: NodeState, command: string)
    requires Valid(s) && s.core.role == Leader && command != ""
    ensures s.core.commit <= |s.core.log| && ProgressOk(s.cfg, s.core)
    ensures var core := AppendEntry(s.core, command);
            var o := AppendCommand(s, command);
            && ProgressOk(s.cfg, core)
            && var n := CommitScan(s.cfg, core, |core.log|);
            && (o.reply.Threw? <==>
                  && s.core.commit < n
                  && exists i: nat :: s.machine.lastApplied <= i < n && !Applicable(core.log[i].command))
            && (o.reply.Threw? ==>
                  o.reply.fault == InvalidArgument && o.state.core == core.(commit := n) && o.state.disk == s.disk)
  {
    hide LogOk, Applied, Committable, ApplyCommitted, Applicable, AppendActions;
    ValidProgress(s);
    AppendEntryLocal(s, command);
    var s1 := s.(core := AppendEntry(s.core, command));
    AdvanceCommitLocal(s1);
    var n := CommitScan(s.cfg, s1.core, |s1.core.log|);
    ApplyThrowsIff(s1.core.(commit := n), s.machine);
  }

  /** The only member of a cluster, just elected. */
  ghost function SoleLeader(): NodeState {
    StartElection(FreshNode(Config("a", ["a"], true)))
  }

  lemma SoleLeaderIs()
    ensures SoleLeader().core == Core(Leader, 1, Some("a"), Some("a"), [], 0, {"a"}, map[], map[])
    ensures SoleLeader().cfg == Config("a", ["a"], true) && SoleLeader().machine == Machine(0, [], map[])
    ensures SoleLeader().disk == Some(PersistentState(1, Some("a"), [], 0))
    ensures Valid(SoleLeader())
  {
  }

  /** There a raw command is committed in memory, throws, and is gone after a restart. */
  lemma CommittedIsLost()
    ensures Valid(SoleLeader()) && SoleLeader().core.role == Leader
    ensures SoleLeader().core.commit <= |SoleLeader().core.log| && ProgressOk(SoleLeader().cfg, SoleLeader().core)
    ensures var o := AppendCommand(SoleLeader(), "SET foo");
            var restarted := Boot(SoleLeader().cfg, 0, [], o.state.disk);
            && o.reply == Threw(InvalidArgument) && o.state.core.commit == 1 == |o.state.core.log|
            && restarted.Returned? && restarted.value.core.log == [] && restarted.value.core.commit == 0
  {
    hide AppendCommand, Applicable, SoleLeader;
    SoleLeaderIs();
    RawCommandThrows();
    CommandThrowsIff(SoleLeader(), "SET foo");
    var core := AppendEntry(SoleLeader().core, "SET foo");
    assert Committable(SoleLeader().cfg, core, 1);
    assert !Applicable(core.log[0].command);
  }

  // ----- an older request after a newer one -----

  /** Once step i has delivered `newer` and it was accepted, no step removes what it has put in
      place while its addressee is in that term: not a late, repeated or overtaken request of
      the same leader, and nothing else that may happen up to moment j. */
  lemma LateRequestKeeps(members: seq<NodeId>, durable: set<NodeId>, run: seq<Step>, i: nat, j: nat, newer: Message)
    requires RosterOk(members) && i < j <= |run|
    requires run[i] == Deliver(newer) && newer.AppendRequest?
    requires newer in After(members, durable, run[..i]).messages && newer.to in After(members, durable, run[..i]).nodes
    requires var s := After(members, durable, run[..i]).nodes[newer.to];
             && s.core.commit <= |s.core.log|
             && HandleAppendEntries(s, newer.append).reply.Returned?
             && HandleAppendEntries(s, newer.append).reply.value.success
    requires newer.to in After(members, durable, run[..j]).nodes
    requires After(members, durable, run[..j]).nodes[newer.to].core.term == newer.append.term
    ensures var end := newer.append.prevLogIndex + |newer.append.entries|;
            && newer.to in After(members, durable, run[..i + 1]).nodes
            && var log := After(members, durable, run[..i + 1]).nodes[newer.to].core.log;
            end <= |log| && log[..end] <= After(members, durable, run[..j]).nodes[newer.to].core.log
  {
    hide ClusterInv, HandleAppendEntries, Next;
    var c := After(members, durable, run[..i]);
    var h := RunInv(members, durable, run[..i]);
    assert run[..i + 1][..i] == run[..i];
    var answer := SuccessIsSent(c, members, durable, h, newer);
    AcknowledgedStays(members, durable, run, i + 1, j, answer);
  }

  lemma SuccessIsCurrent(s: NodeState, request: AppendEntriesRequest)
    requires Valid(s)
    requires HandleAppendEntries(s, request).reply.Returned? && HandleAppendEntries(s, request).reply.value.success
    ensures s.core.term <= request.term && request.leaderId in s.cfg.members
  {
    hide EntriesOk, ReplacesCommitted, AcceptEntries, FollowLeader, PreviousMatches;
  }

  /** The follower's side of a request of at least its own term. */
  lemma RequestFollowed(s: NodeState, append: AppendEntriesRequest)
    requires Valid(s) && s.core.term <= append.term && append.leaderId in s.cfg.members
    requires HandleAppendEntries(s, append).reply.Returned?
    ensures var o := HandleAppendEntries(s, append);
            && o.reply.value.term == append.term
            && o.state.core.term == append.term
            && o.state.core.role == Follower
            && o.state.core.leaderId == Some(append.leaderId)
            && (o.reply.value.success ==> o.reply.value.matchedIndex == append.prevLogIndex + |append.entries|)
  {
    hide ReplacesCommitted, Merged, EntriesOk, PreviousMatches, ApplyCommitted;
    FollowLeaderLocal(s, append);
    var s1 := FollowLeader(s, append);
    if && PreviousMatches(s1.core.log, append.prevLogIndex, append.prevLogTerm)
       && EntriesOk(append.entries, append.term, append.prevLogTerm)
       && !ReplacesCommitted(s1.core.log, s1.core.commit, append.prevLogIndex, append.entries)
    {
      PreviousInLog(s1.core.log, append.prevLogIndex, append.prevLogTerm);
      AcceptEntriesShape(s1, append);
    }
  }

  /** Accepting a request leaves the addressee in its term, and sends a reply that counts all
      the request covers. */
  lemma SuccessIsSent(c: Cluster, members: seq<NodeId>, durable: set<NodeId>, h: History, m: Message)
    returns (answer: Message)
    requires ClusterInv(c, members, durable, h) && AllValid(c)
    requires m in c.messages && m.AppendRequest? && m.to in c.nodes
    requires Valid(c.nodes[m.to]) && HandleAppendEntries(c.nodes[m.to], m.append).reply.Returned?
    requires HandleAppendEntries(c.nodes[m.to], m.append).reply.value.success
    ensures m.to in Next(c, Deliver(m)).nodes && Next(c, Deliver(m)).nodes[m.to].core.term == m.append.term
    ensures answer in Next(c, Deliver(m)).messages && answer.AppendReply? && answer.from == m.to
    ensures answer.answer == AppendEntriesResponse(m.append.term, true, m.append.prevLogIndex + |m.append.entries|)
  {
    hide ClusterInv, HandleAppendEntries, Valid;
    ValidProgress(c.nodes[m.to]);
    SuccessIsCurrent(c.nodes[m.to], m.append);
    assert Enabled(c, Deliver(m));
    RequestFollowed(c.nodes[m.to], m.append);
    answer := AppendReply(m.to, m.from, m.append, HandleAppendEntries(c.nodes[m.to], m.append).reply.value);
  }
}
