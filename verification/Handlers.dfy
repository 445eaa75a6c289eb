/** What each call answers and leaves behind, for every valid node and every argument: spelled
    out in the fields a caller can see, with every case in which the call refuses, ignores or
    throws (src/raft_core.cpp:532-1154). */
module RaftHandlers {
  import opened RaftTypes
  import opened KeyValue
  import opened RaftNode
  import opened RaftSteps
  import opened RaftLocal
  import opened RaftCalls
  import opened RaftCluster
  import opened RaftReplication

  // ----- parts that several calls share -----

  /** Everything but the role, the term and what belongs to a term is as before. */
  ghost predicate SameStored(s: NodeState, s': NodeState) {
    && s'.cfg == s.cfg && s'.machine == s.machine
    && s'.core.log == s.core.log && s'.core.commit == s.core.commit
  }

  /** What a durable node has saved; any other node has nothing to save. */
  ghost predicate Saved(s: NodeState, s': NodeState) {
    s'.disk == if s.cfg.durable
               then Some(PersistentState(s'.core.term, s'.core.votedFor, s'.core.log, s'.core.commit))
               else s.disk
  }

  /** A plain follower of exactly that term and with that vote: it knows no leader, counts no
      votes, tracks nobody, has nothing to send, and has saved this. */
  ghost predicate Retired(s: NodeState, s': NodeState, term: nat, vote: Option<NodeId>) {
    && SameStored(s, s') && Saved(s, s')
    && s'.core.role == Follower && s'.core.term == term
    && s'.core.votedFor == vote && s'.core.leaderId == None && s'.core.votes == {}
    && s'.core.nextIndex == map[] && s'.core.matchIndex == map[]
    && s'.voteQueue == [] && s'.appendQueue == []
  }

  /** The queue holds one request for every other member and no more: it starts where the leader
      believes the member's log to end, names the term before that position, carries the log from
      there to its end, and tells how much is committed. */
  ghost predicate FreshQueue(s: NodeState) {
    && |s.appendQueue| == |s.cfg.members| - 1
    && (forall f :: IsPeer(s.cfg, f) ==> exists i :: 0 <= i < |s.appendQueue| && s.appendQueue[i].target == f)
    && (forall i :: 0 <= i < |s.appendQueue| ==> IsFresh(s.cfg, s.core, s.appendQueue[i]))
  }

  ghost predicate IsFresh(cfg: Config, core: Core, action: AppendEntriesAction) {
    var request := action.request;
    && IsPeer(cfg, action.target) && action.target in core.nextIndex
    && request.term == core.term && request.leaderId == cfg.id
    && request.prevLogIndex + 1 == core.nextIndex[action.target]
    && request.prevLogIndex <= |core.log|
    && request.entries == core.log[request.prevLogIndex..]
    && request.prevLogTerm == (if request.prevLogIndex == 0 then 0 else core.log[request.prevLogIndex - 1].term)
    && request.leaderCommit == core.commit
  }

  /** A leader that has just won: it expects every log to end where its own does, and has
      confirmed nothing yet. */
  ghost predicate TookOffice(s': NodeState) {
    && s'.core.role == Leader && s'.core.leaderId == Some(s'.cfg.id)
    && (forall f :: f in s'.core.nextIndex <==> IsPeer(s'.cfg, f))
    && (forall f :: f in s'.core.matchIndex <==> IsPeer(s'.cfg, f))
    && (forall f :: f in s'.core.nextIndex ==> s'.core.nextIndex[f] == |s'.core.log| + 1)
    && (forall f :: f in s'.core.matchIndex ==> s'.core.matchIndex[f] == 0)
    && s'.voteQueue == [] && FreshQueue(s')
  }

  /** What becomes of the machine when the commit index may have moved: it throws exactly when a
      command up to there, still to be applied, is one that applying rejects; otherwise everything
      up to there is applied, in order, and the map is the replay. */
  ghost predicate Applies(s: NodeState, s': NodeState, threw: bool) {
    && s.core.commit <= s'.core.commit <= |s'.core.log|
    && (threw <==>
          && s.core.commit < s'.core.commit
          && exists i: nat :: s.machine.lastApplied <= i < s'.core.commit && !Applicable(s'.core.log[i].command))
    && (s'.core.commit == s.core.commit ==> s'.machine == s.machine)
    && (s.core.commit < s'.core.commit && !threw ==>
          s'.machine.lastApplied == s'.core.commit && Applied(s'.core.log, s'.machine))
  }

  /** The commit index is raised to the largest index that a majority has, when that is higher
      and its entry is of the leader's term, and stays otherwise. */
  ghost predicate CommitsByQuorum(s: NodeState, s': NodeState)
    requires ProgressOk(s'.cfg, s'.core)
  {
    exists v: nat ::
      && KthLargest(Reached(s'.cfg, s'.core), Majority(s'.cfg.members), v) && v <= |s'.core.log|
      && s'.core.commit == if s.core.commit < v && s'.core.log[v - 1].term == s'.core.term then v
                           else s.core.commit
  }

  lemma FreshAt(cfg: Config, core: Core, i: nat)
    requires ProgressOk(cfg, core) && i < |AppendActions(cfg, core)|
    ensures |AppendActions(cfg, core)| == |Peers(cfg.members, cfg.id)|
    ensures IsFresh(cfg, core, AppendActions(cfg, core)[i])
    ensures AppendActions(cfg, core)[i].target == Peers(cfg.members, cfg.id)[i]
  {
    hide Peers;
    var peer := Peers(cfg.members, cfg.id)[i];
    assert peer in Peers(cfg.members, cfg.id);
    assert IsPeer(cfg, peer);
    assert AppendActions(cfg, core)[i] == AppendEntriesAction(peer, MakeAppendRequest(cfg, core, peer));
  }

  lemma ActionsFresh(s: NodeState)
    requires ConfigOk(s.cfg) && ProgressOk(s.cfg, s.core) && s.appendQueue == AppendActions(s.cfg, s.core)
    ensures FreshQueue(s)
  {
    hide AppendActions, ProgressOk, IsFresh, Peers;
    var peers := Peers(s.cfg.members, s.cfg.id);
    PeersCount(s.cfg.members, s.cfg.id);
    ActionsLength(s.cfg, s.core);
    forall i | 0 <= i < |s.appendQueue| ensures IsFresh(s.cfg, s.core, s.appendQueue[i]) {
      FreshAt(s.cfg, s.core, i);
    }
    forall f | IsPeer(s.cfg, f) ensures exists i :: 0 <= i < |s.appendQueue| && s.appendQueue[i].target == f {
      PeerListed(s.cfg, f);
      var i :| 0 <= i < |peers| && peers[i] == f;
      FreshAt(s.cfg, s.core, i);
      assert s.appendQueue[i].target == f;
    }
  }

  lemma PeerListed(cfg: Config, f: NodeId)
    ensures IsPeer(cfg, f) <==> f in Peers(cfg.members, cfg.id)
  {
  }

  lemma ActionsLength(cfg: Config, core: Core)
    requires ProgressOk(cfg, core)
    ensures |AppendActions(cfg, core)| == |Peers(cfg.members, cfg.id)|
  {
  }

  lemma OfficeTaken(s: NodeState)
    requires ConfigOk(s.cfg)
    ensures TookOffice(TakeOffice(s))
    ensures SameStored(s, TakeOffice(s)) && TakeOffice(s).disk == s.disk
    ensures TakeOffice(s).core.term == s.core.term && TakeOffice(s).core.votedFor == s.core.votedFor
    ensures TakeOffice(s).core.votes == s.core.votes
  {
    hide FreshQueue, AppendActions, ProgressOk;
    CrownProgress(s.cfg, s.core);
    ActionsFresh(TakeOffice(s));
  }

  // ----- votes -----

  /** The last entry of the log, by term and then by index, is no later than that position. */
  ghost predicate NotBehind(lastIndex: nat, lastTerm: nat, log: seq<LogEntry>) {
    || log == []
    || log[|log| - 1].term < lastTerm
    || (log[|log| - 1].term == lastTerm && |log| <= lastIndex)
  }

  /** The one rule by which a vote is given, over all terms. */
  ghost predicate GivesVote(s: NodeState, request: RequestVoteRequest) {
    && request.candidateId in s.cfg.members
    && s.core.term <= request.term
    && (|| s.core.term < request.term
        || s.core.votedFor == None || s.core.votedFor == Some(request.candidateId))
    && NotBehind(request.lastLogIndex, request.lastLogTerm, s.core.log)
  }

  /** A request of a member is granted exactly by the rule, whether it is the first of its term,
      a repetition or a rival's; the answer names the later of the two terms. A newer term makes
      the node a plain follower of it, a grant records the vote, both are saved, and nothing else
      changes. */
  lemma VoteRequestHandled(s: NodeState, request: RequestVoteRequest)
    requires Valid(s)
    ensures var o := HandleRequestVote(s, request);
            var heard := request.candidateId in s.cfg.members && s.core.term < request.term;
            && o.reply == Returned(RequestVoteResponse(if heard then request.term else s.core.term,
                                                       GivesVote(s, request)))
            && (heard ==> Retired(s, o.state, request.term,
                                  if GivesVote(s, request) then Some(request.candidateId) else None))
            && (!heard && GivesVote(s, request) ==>
                  && o.state == s.(core := s.core.(votedFor := Some(request.candidateId)), disk := o.state.disk)
                  && Saved(s, o.state))
            && (!heard && !GivesVote(s, request) ==> o.state == s)
  {
  }

  /** An answer to a vote request. Of a newer term, it retires the node in any role; of an older
      term, at a node that is no candidate or without a vote, it changes nothing; otherwise the
      voter is counted once, and a majority makes a leader. */
  lemma VoteReplyHandled(s: NodeState, voter: NodeId, response: RequestVoteResponse)
    requires Valid(s)
    ensures var o := ReceiveVote(s, voter, response);
            if voter !in s.cfg.members then o == Outcome(s, Threw(InvalidArgument))
            else
              && o.reply == Returned(())
              && (s.core.term < response.term ==> Retired(s, o.state, response.term, None))
              && (response.term <= s.core.term ==>
                    if response.term == s.core.term && s.core.role == Candidate && response.voteGranted then
                      && SameStored(s, o.state) && o.state.disk == s.disk
                      && o.state.core.term == s.core.term && o.state.core.votedFor == s.core.votedFor
                      && o.state.core.votes == s.core.votes + {voter}
                      && (if Majority(s.cfg.members) <= |o.state.core.votes| then TookOffice(o.state)
                          else o.state == s.(core := s.core.(votes := o.state.core.votes)))
                    else o.state == s)
  {
    hide TakeOffice, TookOffice, LogOk, Applied;
    OfficeTaken(s.(core := s.core.(votes := s.core.votes + {voter})));
  }

  // ----- appends -----

  /** The previous entry is there with that term. */
  ghost predicate HasPrevious(log: seq<LogEntry>, prev: nat, prevTerm: nat) {
    if prev == 0 then prevTerm == 0 else prev <= |log| && log[prev - 1].term == prevTerm
  }

  /** No committed entry would be replaced. */
  ghost predicate SparesCommitted(log: seq<LogEntry>, commit: nat, prev: nat, entries: seq<LogEntry>) {
    forall i: nat :: i < |entries| && prev + i < commit && prev + i < |log| ==> Present(log, prev, entries, i)
  }

  ghost predicate Acceptable(s: NodeState, request: AppendEntriesRequest) {
    && HasPrevious(s.core.log, request.prevLogIndex, request.prevLogTerm)
    && LogOk(request.entries, request.term)
    && (request.entries != [] ==> request.prevLogTerm <= request.entries[0].term)
    && SparesCommitted(s.core.log, s.core.commit, request.prevLogIndex, request.entries)
  }

  /** The log afterwards: the same when every entry is present, and otherwise cut at the first
      that is not and continued with the rest of the request. */
  ghost predicate Continues(log: seq<LogEntry>, log': seq<LogEntry>, prev: nat, entries: seq<LogEntry>) {
    && ((forall i: nat :: i < |entries| ==> Present(log, prev, entries, i)) ==> log' == log)
    && forall k: nat ::
         k < |entries| && !Present(log, prev, entries, k) && (forall i: nat :: i < k ==> Present(log, prev, entries, i))
         ==> prev + k <= |log| && log' == log[..prev + k] + entries[k..]
  }

  /** The node follows the sender in the request's term; what it had queued, counted and tracked
      in another role or term is gone, and so is a vote of an older term. */
  ghost predicate FollowsSender(s: NodeState, s': NodeState, request: AppendEntriesRequest) {
    && s'.cfg == s.cfg
    && s'.core.role == Follower && s'.core.term == request.term && s'.core.leaderId == Some(request.leaderId)
    && s'.core.votedFor == (if s.core.term < request.term then None else s.core.votedFor)
    && s'.core.nextIndex == map[] && s'.core.matchIndex == map[]
    && (if s.core.term < request.term || s.core.role != Follower then s'.voteQueue == [] && s'.appendQueue == []
        else s'.voteQueue == s.voteQueue && s'.appendQueue == s.appendQueue)
    && s'.core.votes == (if s.core.term < request.term || s.core.role != Follower then {} else s.core.votes)
  }

  lemma AppendRequestHandled(s: NodeState, request: AppendEntriesRequest)
    requires Valid(s)
    ensures s.core.commit <= |s.core.log|
    ensures var o := HandleAppendEntries(s, request);
            var s', matched := o.state, request.prevLogIndex + |request.entries|;
            if request.leaderId !in s.cfg.members || request.term < s.core.term then
              o == Outcome(s, Returned(AppendEntriesResponse(s.core.term, false, 0)))
            else
              && FollowsSender(s, s', request)
              && (if Acceptable(s, request) then
                    && Continues(s.core.log, s'.core.log, request.prevLogIndex, request.entries)
                    && s'.core.commit == Max(s.core.commit, Min(request.leaderCommit, matched))
                    && Applies(s, s', o.reply.Threw?)
                    && (o.reply.Threw? || Saved(s, s'))
                    && o.reply == (if o.reply.Threw? then Threw(InvalidArgument)
                                   else Returned(AppendEntriesResponse(request.term, true, matched)))
                  else
                    && SameStored(s, s')
                    && (if s.core.term < request.term then Saved(s, s') else s'.disk == s.disk)
                    && o.reply == Returned(AppendEntriesResponse(request.term, false, 0)))
  {
    hide AcceptEntries, Merged, ReplacesCommitted, EntriesOk, PreviousMatches, Applies, Acceptable, Continues, Valid;
    ValidProgress(s);
    AcceptableMeaning(s, request);
    if request.leaderId in s.cfg.members && s.core.term <= request.term {
      FollowLeaderLocal(s, request);
      var s1, o := FollowLeader(s, request), HandleAppendEntries(s, request);
      SameAcceptable(s, s1, request);
      LeaderFollowed(s, s1, request);
      if Acceptable(s, request) {
        AcceptedMeaning(s1, request);
        LeaderFollowed(s, o.state, request);
        AppliesFrom(s, s1, o.state, o.state, o.reply.Threw?);
      }
    }
  }

  lemma AcceptableMeaning(s: NodeState, request: AppendEntriesRequest)
    requires s.core.commit <= |s.core.log|
    ensures Acceptable(s, request) ==> request.prevLogIndex <= |s.core.log|
    ensures Acceptable(s, request) <==>
              && PreviousMatches(s.core.log, request.prevLogIndex, request.prevLogTerm)
              && EntriesOk(request.entries, request.term, request.prevLogTerm)
              && !ReplacesCommitted(s.core.log, s.core.commit, request.prevLogIndex, request.entries)
  {
    hide EntriesOk, LogOk, SparesCommitted, ReplacesCommitted, PreviousMatches, HasPrevious;
    EntriesOkMeaning(request.entries, request.term, request.prevLogTerm);
    PreviousMeaning(s.core.log, request.prevLogIndex, request.prevLogTerm);
    if HasPrevious(s.core.log, request.prevLogIndex, request.prevLogTerm) {
      SparesMeaning(s.core.log, s.core.commit, request.prevLogIndex, request.entries);
    }
  }

  lemma LeaderFollowed(s: NodeState, s': NodeState, request: AppendEntriesRequest)
    requires Valid(s) && s.core.term <= request.term
    requires var s1 := FollowLeader(s, request);
             s' == s1.(core := s1.core.(log := s'.core.log, commit := s'.core.commit),
                       machine := s'.machine, disk := s'.disk)
    ensures FollowsSender(s, s', request)
  {
  }

  lemma SameAcceptable(s: NodeState, s1: NodeState, request: AppendEntriesRequest)
    requires s1.core.log == s.core.log && s1.core.commit == s.core.commit
    ensures Acceptable(s1, request) <==> Acceptable(s, request)
  {
  }

  /** Only the commit indexes, the machines and the log it ends with matter. */
  lemma AppliesFrom(s: NodeState, s1: NodeState, s1': NodeState, s': NodeState, threw: bool)
    requires Applies(s1, s1', threw) && s1.core.commit == s.core.commit && s1.machine == s.machine
    requires s1'.core == s'.core && s1'.machine == s'.machine
    ensures Applies(s, s', threw)
  {
    hide Applied;
  }

  lemma PreviousMeaning(log: seq<LogEntry>, prev: nat, prevTerm: nat)
    ensures PreviousMatches(log, prev, prevTerm) <==> HasPrevious(log, prev, prevTerm)
    ensures HasPrevious(log, prev, prevTerm) ==> prev <= |log|
  {
  }

  lemma SparesMeaning(log: seq<LogEntry>, commit: nat, prev: nat, entries: seq<LogEntry>)
    requires prev <= |log| && commit <= |log|
    ensures ReplacesCommitted(log, commit, prev, entries) <==> !SparesCommitted(log, commit, prev, entries)
  {
    FirstNewIsFirst(log, prev, entries);
  }

  lemma AcceptedMeaning(s: NodeState, request: AppendEntriesRequest)
    requires Valid(s) && s.core.role == Follower && s.core.term == request.term && Acceptable(s, request)
    ensures request.prevLogIndex <= |s.core.log| && s.core.commit <= |s.core.log|
    ensures !ReplacesCommitted(s.core.log, s.core.commit, request.prevLogIndex, request.entries)
    ensures var o := AcceptEntries(s, request);
            && Continues(s.core.log, o.state.core.log, request.prevLogIndex, request.entries)
            && o.state == s.(core := AcceptedCore(s.core, request), machine := o.state.machine, disk := o.state.disk)
            && Applies(s, o.state, o.reply.Threw?)
            && (if o.reply.Threw? then o.reply == Threw(InvalidArgument) && o.state.disk == s.disk
                else o.reply == Returned(AppendEntriesResponse(
                       request.term, true, request.prevLogIndex + |request.entries|))
                     && Saved(s, o.state))
  {
    hide Merged, LogOk, ReplacesCommitted, EntriesOk, PreviousMatches, Applies, ApplyCommitted, Continues, Applied,
         Acceptable, AcceptEntries;
    AcceptableMeaning(s, request);
    MergedContinues(s.core.log, request.prevLogIndex, request.entries);
    AcceptedCoreLocal(s.cfg, s.core, request);
    var core := AcceptedCore(s.core, request);
    CommitLocal(s, core);
    AppliedMeaning(s, core);
    AcceptedState(s, request);
  }

  /** What accepting a request returns and leaves, but for the disk. */
  lemma AcceptedState(s: NodeState, request: AppendEntriesRequest)
    requires request.prevLogIndex <= |s.core.log| && s.core.commit <= |s.core.log|
    requires !ReplacesCommitted(s.core.log, s.core.commit, request.prevLogIndex, request.entries)
    requires s.core.term == request.term
    requires s.core.commit <= |AcceptedCore(s.core, request).log|
    requires AcceptedCore(s.core, request).commit <= |AcceptedCore(s.core, request).log|
    requires MachineApplies(s, AcceptedCore(s.core, request))
    ensures var o, core := AcceptEntries(s, request), AcceptedCore(s.core, request);
            && o.state == s.(core := core, machine := o.state.machine, disk := o.state.disk)
            && Applies(s, o.state, o.reply.Threw?)
            && (if o.reply.Threw? then o.reply == Threw(InvalidArgument) && o.state.disk == s.disk
                else o.reply == Returned(AppendEntriesResponse(
                       request.term, true, request.prevLogIndex + |request.entries|))
                     && Saved(s, o.state))
  {
    hide Merged, ReplacesCommitted, ApplyCommitted, Applied;
  }

  lemma MergedContinues(log: seq<LogEntry>, prev: nat, entries: seq<LogEntry>)
    requires prev <= |log|
    ensures Continues(log, Merged(log, prev, entries), prev, entries)
  {
    FirstNewIsFirst(log, prev, entries);
    forall k: nat | k < |entries| && !Present(log, prev, entries, k)
                    && (forall i: nat :: i < k ==> Present(log, prev, entries, i))
      ensures prev + k <= |log| && Merged(log, prev, entries) == log[..prev + k] + entries[k..]
    {
      MergeSpec(log, prev, entries, k);
    }
    if forall i: nat :: i < |entries| ==> Present(log, prev, entries, i) {
      MergeSpec(log, prev, entries, |entries|);
    }
  }

  /** Applying up to the commit index of `core`, when that is above the old one. */
  ghost predicate MachineApplies(s: NodeState, core: Core)
    requires s.core.commit <= |core.log| && core.commit <= |core.log|
  {
    var (machine, ok) :=
      if s.core.commit < core.commit then ApplyCommitted(core, s.machine) else (s.machine, true);
    Applies(s, s.(core := core, machine := machine), !ok)
  }

  lemma AppliedMeaning(s: NodeState, core: Core)
    requires MachineOk(s.core, s.machine) && s.core.commit <= core.commit <= |core.log|
    requires s.core.commit < core.commit ==> MachineOk(core, ApplyCommitted(core, s.machine).0)
    requires s.core.commit < core.commit ==>
      (ApplyCommitted(core, s.machine).1 <==> ApplyCommitted(core, s.machine).0.lastApplied == core.commit)
    ensures MachineApplies(s, core)
  {
    hide ApplyCommitted;
    ApplyThrowsIff(core, s.machine);
  }

  /** The follower's two indexes after a success: the larger of what they were and what it
      confirms. Everyone else's are as before. */
  ghost predicate Confirms(before: Core, after: Core, follower: NodeId, matched: nat) {
    && after.nextIndex.Keys == before.nextIndex.Keys && after.matchIndex.Keys == before.matchIndex.Keys
    && follower in before.nextIndex && follower in before.matchIndex
    && after.matchIndex[follower] == Max(before.matchIndex[follower], matched)
    && after.nextIndex[follower] == Max(before.nextIndex[follower], matched + 1)
    && (forall f :: f in before.nextIndex && f != follower ==> after.nextIndex[f] == before.nextIndex[f])
    && (forall f :: f in before.matchIndex && f != follower ==> after.matchIndex[f] == before.matchIndex[f])
  }

  /** The follower's next_index after a refusal: one less, but never below one. Nothing else in
      the two maps changes. */
  ghost predicate StepsBack(before: Core, after: Core, follower: NodeId) {
    && after.nextIndex.Keys == before.nextIndex.Keys && after.matchIndex == before.matchIndex
    && follower in before.nextIndex
    && after.nextIndex[follower] == (if before.nextIndex[follower] <= 1 then before.nextIndex[follower]
                                     else before.nextIndex[follower] - 1)
    && (forall f :: f in before.nextIndex && f != follower ==> after.nextIndex[f] == before.nextIndex[f])
  }

  /** An answer to an append request. From anyone but another member, or confirming more than the
      leader has, it throws and changes nothing; of a newer term, it retires the node; of an older
      one, or at a node that is no leader, it changes nothing. A refusal moves next_index back, a
      success moves both indexes forward and may move the commit index, and no other field. */
  lemma AppendAnswerHandled(s: NodeState, follower: NodeId, response: AppendEntriesResponse)
    requires Valid(s)
    ensures s.core.commit <= |s.core.log| && (s.core.role == Leader ==> ProgressOk(s.cfg, s.core))
    ensures var o := ReceiveAppendResponse(s, follower, response);
            var s' := o.state;
            if !IsPeer(s.cfg, follower) then o == Outcome(s, Threw(InvalidArgument))
            else if s.core.term < response.term then
              o.reply == Returned(()) && Retired(s, s', response.term, None)
            else if response.term < s.core.term || s.core.role != Leader then o == Outcome(s, Returned(()))
            else if !response.success then
              && o.reply == Returned(()) && StepsBack(s.core, s'.core, follower)
              && s' == s.(core := s.core.(nextIndex := s'.core.nextIndex))
            else if |s.core.log| < response.matchedIndex then o == Outcome(s, Threw(InvalidArgument))
            else
              && Confirms(s.core, s'.core, follower, response.matchedIndex)
              && s' == s.(core := s.core.(matchIndex := s'.core.matchIndex, nextIndex := s'.core.nextIndex,
                                          commit := s'.core.commit),
                          machine := s'.machine, disk := s'.disk)
              && ProgressOk(s'.cfg, s'.core) && CommitsByQuorum(s, s')
              && Applies(s, s', o.reply.Threw?)
              && o.reply == (if o.reply.Threw? then Threw(InvalidArgument) else Returned(()))
              && (if o.reply.Returned? && s.core.commit < s'.core.commit then Saved(s, s') else s'.disk == s.disk)
  {
    hide Valid, AdvanceCommit, Applies, CommitsByQuorum, ProgressOk, LogOk;
    ValidProgress(s);
    if && IsPeer(s.cfg, follower) && response.term == s.core.term && s.core.role == Leader
       && response.matchedIndex <= |s.core.log|
    {
      ProgressCovers(s, follower);
      RecordMatchLocal(s, follower, response.matchedIndex);
      var s1 := s.(core := RecordMatch(s.core, follower, response.matchedIndex));
      AdvanceMeaning(s1);
      var (s', ok) := AdvanceCommit(s1);
      AppliesFrom(s, s1, s', s', !ok);
      QuorumFrom(s, s1, s');
    } else if IsPeer(s.cfg, follower) && s.core.role == Leader {
      ProgressCovers(s, follower);
    }
  }

  lemma QuorumFrom(s: NodeState, s1: NodeState, s': NodeState)
    requires ProgressOk(s'.cfg, s'.core) && CommitsByQuorum(s1, s') && s1.core.commit == s.core.commit
    ensures CommitsByQuorum(s, s')
  {
    hide KthLargest;
  }

  /** Where the commit index of a leader goes, and what that applies and saves. */
  lemma AdvanceMeaning(s: NodeState)
    requires Valid(s) && s.core.role == Leader
    ensures s.core.commit <= |s.core.log| && ProgressOk(s.cfg, s.core)
    ensures var (s', ok) := AdvanceCommit(s);
            && s' == s.(core := s.core.(commit := s'.core.commit), machine := s'.machine, disk := s'.disk)
            && ProgressOk(s'.cfg, s'.core) && CommitsByQuorum(s, s') && Applies(s, s', !ok)
            && (if ok && s.core.commit < s'.core.commit then Saved(s, s') else s'.disk == s.disk)
  {
    hide Reached, KthLargest, ApplyCommitted, Applied, LogOk, AdvanceCommit, Applies, Healthy, ProgressOk;
    var v := CommitScanIsQuorumRule(s);
    AdvanceCommitLocal(s);
    var (s', ok) := AdvanceCommit(s);
    var core := s.core.(commit := s'.core.commit);
    CommitIndexLocal(s, core.commit);
    AppliedMeaning(s, core);
    AdvancedState(s);
    SameReached(s.cfg, s.core, s'.core);
  }

  lemma SameReached(cfg: Config, core: Core, core': Core)
    requires ProgressOk(cfg, core) && core' == core.(commit := core'.commit)
    ensures ProgressOk(cfg, core') && Reached(cfg, core') == Reached(cfg, core)
  {
  }

  lemma AdvancedState(s: NodeState)
    requires Valid(s) && s.core.role == Leader && s.core.commit <= |s.core.log| && ProgressOk(s.cfg, s.core)
    requires var core := AdvanceCommit(s).0.core;
             core.commit <= |core.log| && MachineApplies(s, s.core.(commit := core.commit))
    ensures var (s', ok) := AdvanceCommit(s);
            && s' == s.(core := s.core.(commit := s'.core.commit), machine := s'.machine, disk := s'.disk)
            && Applies(s, s', !ok)
            && (if ok && s.core.commit < s'.core.commit then Saved(s, s') else s'.disk == s.disk)
  {
    hide ApplyCommitted, Applied, LogOk, Committable;
  }

  // ----- elections, commands and heartbeats -----

  /** The queue asks every other member for its vote, once, on behalf of the node's last entry. */
  ghost predicate AsksEveryone(s: NodeState) {
    && |s.voteQueue| == |s.cfg.members| - 1
    && (forall f :: IsPeer(s.cfg, f) ==> exists i :: 0 <= i < |s.voteQueue| && s.voteQueue[i].target == f)
    && (forall i :: 0 <= i < |s.voteQueue| ==>
          && IsPeer(s.cfg, s.voteQueue[i].target)
          && s.voteQueue[i].request == RequestVoteRequest(
               s.core.term, s.cfg.id, |s.core.log|,
               if s.core.log == [] then 0 else s.core.log[|s.core.log| - 1].term))
  }

  lemma EveryoneAsked(s: NodeState)
    requires ConfigOk(s.cfg) && s.voteQueue == VoteActions(s.cfg, s.core)
    ensures AsksEveryone(s)
  {
    hide Peers;
    var peers := Peers(s.cfg.members, s.cfg.id);
    PeersCount(s.cfg.members, s.cfg.id);
    forall i | 0 <= i < |s.voteQueue|
      ensures s.voteQueue[i] == RequestVoteAction(peers[i], MakeVoteRequest(s.cfg, s.core)) && IsPeer(s.cfg, peers[i])
    {
      PeerListed(s.cfg, peers[i]);
    }
    forall f | IsPeer(s.cfg, f) ensures exists i :: 0 <= i < |s.voteQueue| && s.voteQueue[i].target == f {
      PeerListed(s.cfg, f);
      var i :| 0 <= i < |peers| && peers[i] == f;
      assert s.voteQueue[i].target == f;
    }
  }

  /** start_election, in any role: the next term, a vote for itself, saved; then everyone is
      asked, and a node without peers has won. */
  lemma CampaignHandled(s: NodeState)
    requires Valid(s)
    ensures var s' := StartElection(s);
            && SameStored(s, s') && Saved(s, s')
            && s'.core.term == s.core.term + 1 && s'.core.votedFor == Some(s.cfg.id) && s'.core.votes == {s.cfg.id}
            && (if |s.cfg.members| == 1 then TookOffice(s')
                else
                  && s'.core.role == Candidate && s'.core.leaderId == None
                  && s'.core.nextIndex == map[] && s'.core.matchIndex == map[]
                  && s'.appendQueue == [] && AsksEveryone(s'))
  {
    hide TakeOffice, VoteActions, TookOffice, AsksEveryone, LogOk, Applied;
    var core := CampaignCore(s.core, s.cfg.id);
    var s2 := Persist(s.(core := core, appendQueue := [])).(voteQueue := VoteActions(s.cfg, core));
    OfficeTaken(s2);
    EveryoneAsked(s2);
  }

  /** append_command: refused anywhere but at a leader, and without a command. Otherwise the
      entry of the leader's term is added, the commit index may move, and unless that throws
      everything is saved, everyone is to be told, and the answer is the entry's index. */
  lemma CommandHandled(s: NodeState, command: string)
    requires Valid(s)
    ensures s.core.commit <= |s.core.log| && (s.core.role == Leader ==> ProgressOk(s.cfg, s.core))
    ensures var o := AppendCommand(s, command);
            var s' := o.state;
            if s.core.role != Leader then o == Outcome(s, Threw(LogicError))
            else if command == "" then o == Outcome(s, Threw(InvalidArgument))
            else
              && s' == s.(core := s.core.(log := s.core.log + [LogEntry(s.core.term, command)],
                                          commit := s'.core.commit),
                          machine := s'.machine, appendQueue := s'.appendQueue, disk := s'.disk)
              && ProgressOk(s'.cfg, s'.core) && CommitsByQuorum(s, s')
              && Applies(s, s', o.reply.Threw?)
              && (if o.reply.Threw? then
                    o.reply == Threw(InvalidArgument) && s'.disk == s.disk && s'.appendQueue == s.appendQueue
                  else
                    o.reply == Returned(|s.core.log| + 1) && Saved(s, s') && FreshQueue(s'))
  {
    hide Valid, AdvanceCommit, Applies, CommitsByQuorum, ProgressOk, LogOk, AppendActions, FreshQueue;
    ValidProgress(s);
    if s.core.role == Leader && command != "" {
      AppendEntryLocal(s, command);
      var s1 := s.(core := AppendEntry(s.core, command));
      AdvanceMeaning(s1);
      var (s2, ok) := AdvanceCommit(s1);
      var s' := AppendCommand(s, command).state;
      AppliesFrom(s, s1, s2, s', !ok);
      QuorumFrom(s, s1, s2);
      QuorumTo(s, s2, s');
      ValidConfig(s);
      if ok { ActionsFresh(s'); }
    }
  }

  lemma QuorumTo(s: NodeState, s1: NodeState, s': NodeState)
    requires ProgressOk(s1.cfg, s1.core) && CommitsByQuorum(s, s1) && s'.cfg == s1.cfg && s'.core == s1.core
    ensures ProgressOk(s'.cfg, s'.core) && CommitsByQuorum(s, s')
  {
  }

  lemma ValidConfig(s: NodeState)
    requires Valid(s)
    ensures ConfigOk(s.cfg)
  {
  }

  /** queue_heartbeat_actions: everyone is to be told, at a leader only. */
  lemma HeartbeatHandled(s: NodeState)
    requires Valid(s)
    ensures s.core.role == Leader ==> ProgressOk(s.cfg, s.core)
    ensures var o := QueueHeartbeats(s);
            if s.core.role != Leader then o == Outcome(s, Threw(LogicError))
            else o.reply == Returned(()) && o.state == s.(appendQueue := o.state.appendQueue) && FreshQueue(o.state)
  {
    hide AppendActions, FreshQueue, LogOk, Applied;
    if s.core.role == Leader { ActionsFresh(QueueHeartbeats(s).state); }
  }

  /** Taking a queue leaves nothing of its kind to send, and nothing else changes; so what one
      call hands over, no later one hands over again. */
  lemma QueuesTaken(s: NodeState)
    ensures TakeVotes(s) == s.(voteQueue := TakeVotes(s).voteQueue) && TakeAppends(s) ==
            s.(appendQueue := TakeAppends(s).appendQueue)
    ensures forall m :: m in Outgoing(TakeVotes(s)) ==> m.AppendRequest? && m in Outgoing(s)
    ensures forall m :: m in Outgoing(TakeAppends(s)) ==> m.VoteRequest? && m in Outgoing(s)
    ensures Outgoing(TakeVotes(TakeAppends(s))) == {}
  {
  }

  // ----- construction -----

  /** A node is built from its state file, if it has one, and from the arguments otherwise;
      exactly when the roster names it and is odd and distinct, the state is well formed and votes
      for a member, and no committed command is one that applying rejects. Then it is a follower
      of that state that has applied everything committed, and saves at once. */
  lemma BootHandled(cfg: Config, initialTerm: nat, initialLog: seq<LogEntry>, disk: Option<PersistentState>)
    ensures var p := if cfg.durable && disk.Some? then disk.value
                     else PersistentState(initialTerm, None, initialLog, 0);
            var r := Boot(cfg, initialTerm, initialLog, disk);
            && (r.Returned? <==>
                  && RosterOk(cfg.members) && cfg.id in cfg.members
                  && (p.votedFor.Some? ==> p.votedFor.value in cfg.members)
                  && LogOk(p.log, p.currentTerm) && p.commitIndex <= |p.log|
                  && forall i :: 0 <= i < p.commitIndex ==> Applicable(p.log[i].command))
            && (r.Threw? ==> r.fault == InvalidArgument)
            && (r.Returned? ==>
                  var s := r.value;
                  && s.cfg == cfg && s.voteQueue == [] && s.appendQueue == []
                  && s.core == Core(Follower, p.currentTerm, p.votedFor, None, p.log, p.commitIndex, {}, map[], map[])
                  && s.machine.lastApplied == p.commitIndex && Applied(p.log, s.machine)
                  && s.disk == if cfg.durable then Some(p) else disk)
  {
    hide EntriesOk, LogOk, ApplyCommitted, Applicable;
    var p := if cfg.durable && disk.Some? then disk.value else PersistentState(initialTerm, None, initialLog, 0);
    EntriesOkMeaning(p.log, p.currentTerm, 0);
    var core := Core(Follower, p.currentTerm, p.votedFor, None, p.log, p.commitIndex, {}, map[], map[]);
    if p.commitIndex <= |p.log| {
      ApplyThrowsIff(core, Machine(0, [], map[]));
      NothingApplied(p.log);
      ApplyReaches(core, Machine(0, [], map[]));
    }
  }

  lemma NothingApplied(log: seq<LogEntry>)
    ensures Applied(log, Machine(0, [], map[]))
  {
  }
}
