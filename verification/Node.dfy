/** One Raft node as pure steps: the old state and a message determine the new state and
    the reply (src/raft_core.cpp). Election timers are kept apart, in the class RaftCore:
    no decision below depends on them. */
module RaftNode {
  import opened RaftTypes
  import opened KeyValue

  /** What never changes: identity, the members in the iteration order of the set that
      holds them, and whether a storage path was given. */
  datatype Config = Config(id: NodeId, members: seq<NodeId>, durable: bool)

  /** The consensus fields. */
  datatype Core = Core(
    role: Role, term: nat, votedFor: Option<NodeId>, leaderId: Option<NodeId>,
    log: seq<LogEntry>, commit: nat, votes: set<NodeId>,
    nextIndex: map<NodeId, nat>, matchIndex: map<NodeId, nat>)

  /** The applied side: last_applied_, applied_commands_ and key_value_store_. */
  datatype Machine = Machine(lastApplied: nat, journal: seq<string>, store: Store)

  datatype NodeState = NodeState(
    cfg: Config, core: Core, machine: Machine,
    voteQueue: seq<RequestVoteAction>, appendQueue: seq<AppendEntriesAction>,
    disk: Option<PersistentState>)

  /** The state a call leaves behind, and how it ends. */
  datatype Outcome<+T> = Outcome(state: NodeState, reply: Reply<T>)

  ghost predicate ConfigOk(cfg: Config) {
    RosterOk(cfg.members) && cfg.id in cfg.members
  }

  predicate IsPeer(cfg: Config, node: NodeId) {
    node in cfg.members && node != cfg.id
  }

  /** The members other than `id`, in iteration order. */
  function Peers(members: seq<NodeId>, id: NodeId): (peers: seq<NodeId>)
    ensures forall m :: m in peers <==> m in members && m != id
    ensures |peers| <= |members|
  {
    if members == [] then []
    else
      var front, last := members[..|members| - 1], members[|members| - 1];
      assert members == front + [last];
      if last == id then Peers(front, id) else Peers(front, id) + [last]
  }

  // ----- the local invariant -----

  /** Both progress maps cover exactly the peers and stay inside the leader's log. */
  ghost predicate ProgressOk(cfg: Config, core: Core) {
    && (forall f :: f in core.nextIndex <==> IsPeer(cfg, f))
    && (forall f :: f in core.matchIndex <==> IsPeer(cfg, f))
    && (forall f :: f in core.nextIndex ==> 1 <= core.nextIndex[f] <= |core.log| + 1)
    && (forall f :: f in core.matchIndex ==> core.matchIndex[f] <= |core.log|)
  }

  ghost predicate CoreOk(cfg: Config, core: Core) {
    && LogOk(core.log, core.term)
    && core.commit <= |core.log|
    && (core.votedFor.Some? ==> core.votedFor.value in cfg.members)
    && (core.role != Follower ==> 0 < core.term)
    && (if core.role == Leader then ProgressOk(cfg, core)
        else core.nextIndex == map[] && core.matchIndex == map[])
    && (forall v :: v in core.votes ==> v in cfg.members)
  }

  function Commands(log: seq<LogEntry>): (cs: seq<string>)
    ensures |cs| == |log|
    ensures forall i :: 0 <= i < |log| ==> cs[i] == log[i].command
  {
    seq(|log|, i requires 0 <= i < |log| => log[i].command)
  }

  /** Everything applied so far is a log prefix, in order, and the map is its replay. */
  ghost predicate Applied(log: seq<LogEntry>, m: Machine) {
    && m.lastApplied <= |log|
    && m.journal == Commands(log[..m.lastApplied])
    && (forall c :: c in m.journal ==> Applicable(c))
    && m.store == Replay(m.journal)
  }

  /** The machine has caught up with the commit index, or stands before a command that throws. */
  ghost predicate MachineOk(core: Core, m: Machine) {
    && Applied(core.log, m)
    && m.lastApplied <= core.commit <= |core.log|
    && (m.lastApplied < core.commit ==> !Applicable(core.log[m.lastApplied].command))
  }

  /** Holds of every constructed node, whatever messages it receives, even after a throw. */
  ghost predicate Valid(s: NodeState) {
    ConfigOk(s.cfg) && CoreOk(s.cfg, s.core) && MachineOk(s.core, s.machine)
  }

  function Persistent(core: Core): PersistentState {
    PersistentState(core.term, core.votedFor, core.log, core.commit)
  }

  ghost predicate GoodCommands(log: seq<LogEntry>) {
    forall i :: 0 <= i < |log| ==> Applicable(log[i].command)
  }

  /** What every call keeps as long as the commands it is handed are applicable: the whole
      committed prefix is applied, and the disk holds the persistent fields. */
  ghost predicate Healthy(s: NodeState) {
    && Valid(s)
    && GoodCommands(s.core.log)
    && s.machine.lastApplied == s.core.commit
    && (s.cfg.durable ==> s.disk == Some(Persistent(s.core)))
  }

  // ----- private helpers of the class -----

  /** persist_state (src/raft_core.cpp:201-218); with an empty path it does nothing. */
  function Persist(s: NodeState): NodeState {
    if s.cfg.durable then s.(disk := Some(Persistent(s.core))) else s
  }

  /** The core after discovering a newer term. */
  function RaiseTerm(core: Core, term: nat): Core {
    core.(term := term, role := Follower, votedFor := None, leaderId := None,
          votes := {}, nextIndex := map[], matchIndex := map[])
  }

  function BecomeFollower(s: NodeState, term: nat): NodeState
    requires s.core.term < term
  {
    Persist(s.(core := RaiseTerm(s.core, term), voteQueue := [], appendQueue := []))
  }

  /** A candidate or old leader following a recognized leader of its own term. */
  function StepDown(core: Core): Core {
    core.(role := Follower, votes := {}, nextIndex := map[], matchIndex := map[])
  }

  /** apply_committed_entries: stops at the first command that throws. */
  function ApplyCommitted(core: Core, m: Machine): (r: (Machine, bool))
    requires core.commit <= |core.log|
    decreases core.commit - m.lastApplied
  {
    if core.commit <= m.lastApplied then (m, true)
    else
      var command := core.log[m.lastApplied].command;
      if !Applicable(command) then (m, false)
      else
        ApplyCommitted(core, Machine(m.lastApplied + 1, m.journal + [command], Effect(m.store, command)))
  }

  function MakeVoteRequest(cfg: Config, core: Core): RequestVoteRequest {
    RequestVoteRequest(core.term, cfg.id, |core.log|, LastTerm(core.log))
  }

  /** make_append_entries_request: everything from next_index on, after one entry to check. */
  function MakeAppendRequest(cfg: Config, core: Core, follower: NodeId): AppendEntriesRequest
    requires follower in core.nextIndex && 1 <= core.nextIndex[follower] <= |core.log| + 1
  {
    var prev := core.nextIndex[follower] - 1;
    AppendEntriesRequest(core.term, cfg.id, prev,
                         if prev == 0 then 0 else core.log[prev - 1].term,
                         core.log[prev..], core.commit)
  }

  function VoteActions(cfg: Config, core: Core): (q: seq<RequestVoteAction>)
  {
    var peers := Peers(cfg.members, cfg.id);
    seq(|peers|, i requires 0 <= i < |peers| => RequestVoteAction(peers[i], MakeVoteRequest(cfg, core)))
  }

  function AppendActions(cfg: Config, core: Core): (q: seq<AppendEntriesAction>)
    requires ProgressOk(cfg, core)
  {
    var peers := Peers(cfg.members, cfg.id);
    seq(|peers|, i requires 0 <= i < |peers| =>
      AppendEntriesAction(peers[i], MakeAppendRequest(cfg, core, peers[i])))
  }

  /** The core of a candidate that has just won. */
  function Crown(cfg: Config, core: Core): Core {
    var peers := set m | m in cfg.members && m != cfg.id;
    core.(role := Leader, leaderId := Some(cfg.id),
          nextIndex := map f | f in peers :: |core.log| + 1,
          matchIndex := map f | f in peers :: 0)
  }

  function TakeOffice(s: NodeState): NodeState
  {
    var core := Crown(s.cfg, s.core);
    s.(core := core, voteQueue := [], appendQueue := AppendActions(s.cfg, core))
  }

  /** How many of `nodes` have confirmed `index`. */
  function Confirmed(matchIndex: map<NodeId, nat>, nodes: seq<NodeId>, index: nat): nat
    requires forall f :: f in nodes ==> f in matchIndex
  {
    if nodes == [] then 0
    else
      var front, last := nodes[..|nodes| - 1], nodes[|nodes| - 1];
      assert forall f :: f in front ==> f in nodes;
      Confirmed(matchIndex, front, index) + if index <= matchIndex[last] then 1 else 0
  }

  /** An index the leader may commit itself: an entry of its own term, held by a majority. */
  predicate Committable(cfg: Config, core: Core, index: nat)
    requires forall f :: IsPeer(cfg, f) ==> f in core.matchIndex
    requires 0 < index <= |core.log|
  {
    assert forall f :: f in Peers(cfg.members, cfg.id) ==> IsPeer(cfg, f);
    && core.log[index - 1].term == core.term
    && Majority(cfg.members) <= 1 + Confirmed(core.matchIndex, Peers(cfg.members, cfg.id), index)
  }

  /** The commit index advance_commit_index settles on: the highest committable index at or
      below `index`, or the old commit index when there is none above it. */
  function CommitScan(cfg: Config, core: Core, index: nat): (n: nat)
    requires forall f :: IsPeer(cfg, f) ==> f in core.matchIndex
    requires index <= |core.log|
    ensures core.commit <= n
    ensures n == core.commit || (core.commit < n <= index && Committable(cfg, core, n))
    ensures forall k :: n < k <= index ==> !Committable(cfg, core, k)
  {
    if index <= core.commit then core.commit
    else if Committable(cfg, core, index) then index
    else CommitScan(cfg, core, index - 1)
  }

  /** advance_commit_index; the flag is false when applying a command threw. */
  function AdvanceCommit(s: NodeState): (r: (NodeState, bool))
    requires s.core.role == Leader && ProgressOk(s.cfg, s.core) && s.core.commit <= |s.core.log|
  {
    var n := CommitScan(s.cfg, s.core, |s.core.log|);
    if n == s.core.commit then (s, true)
    else
      var core := s.core.(commit := n);
      var (machine, ok) := ApplyCommitted(core, s.machine);
      var s' := s.(core := core, machine := machine);
      if ok then (Persist(s'), true) else (s', false)
  }

  predicate UpToDate(lastIndex: nat, lastTerm: nat, log: seq<LogEntry>) {
    lastTerm > LastTerm(log) || (lastTerm == LastTerm(log) && lastIndex >= |log|)
  }

  predicate PreviousMatches(log: seq<LogEntry>, prevIndex: nat, prevTerm: nat) {
    if prevIndex == 0 then prevTerm == 0
    else prevIndex <= |log| && log[prevIndex - 1].term == prevTerm
  }

  /** The four entry checks of handle_append_entries. */
  predicate EntriesOk(entries: seq<LogEntry>, term: nat, previous: nat)
  {
    entries == [] ||
    (&& entries[0].term != 0
     && entries[0].command != ""
     && entries[0].term <= term
     && previous <= entries[0].term
     && EntriesOk(entries[1..], term, entries[0].term))
  }

  /** The recursive entry check, as a statement about positions. */
  lemma {:induction false} EntriesOkMeaning(entries: seq<LogEntry>, term: nat, previous: nat)
    ensures EntriesOk(entries, term, previous) <==>
              LogOk(entries, term) && (entries != [] ==> previous <= entries[0].term)
  {
    if entries != [] {
      var rest := entries[1..];
      EntriesOkMeaning(rest, term, entries[0].term);
      if LogOk(entries, term) && previous <= entries[0].term {
        assert LogOk(rest, term);
      }
      if EntriesOk(entries, term, previous) {
        assert entries == [entries[0]] + rest;
        forall i, j | 0 <= i < j < |entries| ensures entries[i].term <= entries[j].term {
          if i == 0 && j > 1 { assert rest[0].term <= rest[j - 1].term; }
        }
      }
    }
  }

  /** The first offset whose entry the log does not hold with the same term. */
  function FirstNew(log: seq<LogEntry>, prev: nat, entries: seq<LogEntry>, offset: nat): (k: nat)
    requires offset <= |entries|
    ensures offset <= k <= |entries|
    ensures k == offset || prev + k <= |log|
    ensures forall i {:trigger entries[i]} :: offset <= i < k ==> log[prev + i].term == entries[i].term
    ensures k < |entries| && prev + k < |log| ==> log[prev + k].term != entries[k].term
    decreases |entries| - offset
  {
    if offset == |entries| || |log| <= prev + offset || log[prev + offset].term != entries[offset].term
    then offset
    else FirstNew(log, prev, entries, offset + 1)
  }

  /** The log the merge leaves: untouched when every entry is there already, otherwise cut at
      the first new offset and continued with the request's entries. */
  function Merged(log: seq<LogEntry>, prev: nat, entries: seq<LogEntry>): (r: seq<LogEntry>)
    requires prev <= |log|
    ensures prev + |entries| <= |r|
  {
    var k := FirstNew(log, prev, entries, 0);
    if k == |entries| then log else log[..prev + k] + entries[k..]
  }

  /** The merge would replace an entry at or below the commit index. */
  predicate ReplacesCommitted(log: seq<LogEntry>, commit: nat, prev: nat, entries: seq<LogEntry>) {
    var k := FirstNew(log, prev, entries, 0);
    k < |entries| && prev + k < |log| && prev + k < commit
  }

  // ----- public calls -----

  function StartElection(s: NodeState): NodeState {
    var core := s.core.(term := s.core.term + 1, role := Candidate, leaderId := None,
                        nextIndex := map[], matchIndex := map[],
                        votedFor := Some(s.cfg.id), votes := {s.cfg.id});
    var s1 := Persist(s.(core := core, appendQueue := []));
    var s2 := s1.(voteQueue := VoteActions(s.cfg, core));
    if Majority(s.cfg.members) <= 1 then TakeOffice(s2) else s2
  }

  function HandleRequestVote(s: NodeState, request: RequestVoteRequest): Outcome<RequestVoteResponse> {
    if request.candidateId !in s.cfg.members || request.term < s.core.term then
      Outcome(s, Returned(RequestVoteResponse(s.core.term, false)))
    else
      var s1 := if s.core.term < request.term then BecomeFollower(s, request.term) else s;
      var refused := Outcome(s1, Returned(RequestVoteResponse(s1.core.term, false)));
      if s1.core.votedFor.Some? && s1.core.votedFor.value != request.candidateId then refused
      else if !UpToDate(request.lastLogIndex, request.lastLogTerm, s1.core.log) then refused
      else
        Outcome(Persist(s1.(core := s1.core.(votedFor := Some(request.candidateId)))),
                Returned(RequestVoteResponse(s1.core.term, true)))
  }

  function ReceiveVote(s: NodeState, voter: NodeId, response: RequestVoteResponse): Outcome<()> {
    if voter !in s.cfg.members then Outcome(s, Threw(InvalidArgument))
    else if s.core.term < response.term then Outcome(BecomeFollower(s, response.term), Returned(()))
    else if response.term < s.core.term || s.core.role != Candidate || !response.voteGranted then
      Outcome(s, Returned(()))
    else
      var s1 := s.(core := s.core.(votes := s.core.votes + {voter}));
      Outcome(if Majority(s.cfg.members) <= |s1.core.votes| then TakeOffice(s1) else s1, Returned(()))
  }

  /** The part of handle_append_entries before any log check: adopt the term or step down,
      and remember the leader. */
  function FollowLeader(s: NodeState, request: AppendEntriesRequest): NodeState
    requires s.core.term <= request.term
  {
    var s1 :=
      if s.core.term < request.term then BecomeFollower(s, request.term)
      else if s.core.role != Follower then s.(core := StepDown(s.core), voteQueue := [], appendQueue := [])
      else s;
    s1.(core := s1.core.(leaderId := Some(request.leaderId)))
  }

  /** What an accepted request does: merge, commit, apply, persist, answer. */
  function AcceptEntries(s: NodeState, request: AppendEntriesRequest): Outcome<AppendEntriesResponse>
    requires request.prevLogIndex <= |s.core.log|
    requires s.core.commit <= |s.core.log|
    requires !ReplacesCommitted(s.core.log, s.core.commit, request.prevLogIndex, request.entries)
  {
    var log := Merged(s.core.log, request.prevLogIndex, request.entries);
    var matched := request.prevLogIndex + |request.entries|;
    var safe := Min(request.leaderCommit, matched);
    var core := s.core.(log := log, commit := Max(s.core.commit, safe));
    assert core.commit <= |log|;
    var (machine, ok) :=
      if s.core.commit < safe then ApplyCommitted(core, s.machine) else (s.machine, true);
    var s' := s.(core := core, machine := machine);
    if ok then Outcome(Persist(s'), Returned(AppendEntriesResponse(core.term, true, matched)))
    else Outcome(s', Threw(InvalidArgument))
  }

  function HandleAppendEntries(s: NodeState, request: AppendEntriesRequest): Outcome<AppendEntriesResponse>
    requires s.core.commit <= |s.core.log|
  {
    if request.leaderId !in s.cfg.members || request.term < s.core.term then
      Outcome(s, Returned(AppendEntriesResponse(s.core.term, false, 0)))
    else
      var s1 := FollowLeader(s, request);
      if || !PreviousMatches(s1.core.log, request.prevLogIndex, request.prevLogTerm)
         || !EntriesOk(request.entries, request.term, request.prevLogTerm)
         || ReplacesCommitted(s1.core.log, s1.core.commit, request.prevLogIndex, request.entries)
      then Outcome(s1, Returned(AppendEntriesResponse(s1.core.term, false, 0)))
      else AcceptEntries(s1, request)
  }

  /** A rejection moves next_index one back, never below one. */
  function RecordReject(core: Core, follower: NodeId): Core
    requires follower in core.nextIndex
  {
    if core.nextIndex[follower] > 1
    then core.(nextIndex := core.nextIndex[follower := core.nextIndex[follower] - 1])
    else core
  }

  /** A success can only move both indexes forward. */
  function RecordMatch(core: Core, follower: NodeId, matched: nat): Core
    requires follower in core.nextIndex && follower in core.matchIndex
  {
    core.(matchIndex := core.matchIndex[follower := Max(core.matchIndex[follower], matched)],
          nextIndex := core.nextIndex[follower := Max(core.nextIndex[follower], matched + 1)])
  }

  function ReceiveAppendResponse(s: NodeState, follower: NodeId, response: AppendEntriesResponse): Outcome<()>
    requires s.core.commit <= |s.core.log|
    requires s.core.role == Leader ==> ProgressOk(s.cfg, s.core)
  {
    if !IsPeer(s.cfg, follower) then Outcome(s, Threw(InvalidArgument))
    else if s.core.term < response.term then Outcome(BecomeFollower(s, response.term), Returned(()))
    else if response.term < s.core.term || s.core.role != Leader then Outcome(s, Returned(()))
    else if !response.success then Outcome(s.(core := RecordReject(s.core, follower)), Returned(()))
    else if |s.core.log| < response.matchedIndex then Outcome(s, Threw(InvalidArgument))
    else
      var (s', ok) := AdvanceCommit(s.(core := RecordMatch(s.core, follower, response.matchedIndex)));
      Outcome(s', if ok then Returned(()) else Threw(InvalidArgument))
  }

  function QueueHeartbeats(s: NodeState): Outcome<()>
    requires s.core.role == Leader ==> ProgressOk(s.cfg, s.core)
  {
    if s.core.role != Leader then Outcome(s, Threw(LogicError))
    else Outcome(s.(appendQueue := AppendActions(s.cfg, s.core)), Returned(()))
  }

  /** The leader's log with one more entry of its own term. */
  function AppendEntry(core: Core, command: string): Core {
    core.(log := core.log + [LogEntry(core.term, command)])
  }

  function AppendCommand(s: NodeState, command: string): Outcome<nat>
    requires s.core.commit <= |s.core.log|
    requires s.core.role == Leader ==> ProgressOk(s.cfg, s.core)
  {
    if s.core.role != Leader then Outcome(s, Threw(LogicError))
    else if command == "" then Outcome(s, Threw(InvalidArgument))
    else
      var core := AppendEntry(s.core, command);
      var (s1, ok) := AdvanceCommit(s.(core := core));
      if !ok then Outcome(s1, Threw(InvalidArgument))
      else
        var s2 := Persist(s1);
        Outcome(s2.(appendQueue := AppendActions(s2.cfg, s2.core)), Returned(|s2.core.log|))
  }

  /** What take_request_vote_actions and take_append_entries_actions leave behind. */
  function TakeVotes(s: NodeState): NodeState {
    s.(voteQueue := [])
  }

  function TakeAppends(s: NodeState): NodeState {
    s.(appendQueue := [])
  }

  // ----- construction and restart -----

  /** Constructing a node: `disk` is what the state file holds, if there is one. */
  function Boot(cfg: Config, initialTerm: nat, initialLog: seq<LogEntry>, disk: Option<PersistentState>)
    : Reply<NodeState>
  {
    var p :=
      if cfg.durable && disk.Some? then disk.value
      else PersistentState(initialTerm, None, initialLog, 0);
    if !(RosterOk(cfg.members) && cfg.id in cfg.members) then Threw(InvalidArgument)
    else if p.votedFor.Some? && p.votedFor.value !in cfg.members then Threw(InvalidArgument)
    else if |p.log| < p.commitIndex || !EntriesOk(p.log, p.currentTerm, 0) then Threw(InvalidArgument)
    else
      var core := Core(Follower, p.currentTerm, p.votedFor, None, p.log, p.commitIndex, {}, map[], map[]);
      var (machine, ok) := ApplyCommitted(core, Machine(0, [], map[]));
      if !ok then Threw(InvalidArgument)
      else Returned(Persist(NodeState(cfg, core, machine, [], [], disk)))
  }
}
