/** What a leader believes of its followers is exactly what it has heard since it took office:
    match_index is the best confirmation, next_index the best start any of them justifies, less
    the refusals since (src/raft_core.cpp:436-456, src/raft_core.cpp:758-844). */
module RaftProgress {
  import opened RaftTypes
  import opened RaftNode
  import opened RaftProtocol
  import opened RaftLocal
  import opened RaftCalls
  import opened RaftCluster
  import opened RaftTheorems
  import opened RaftSimulation
  import opened RaftHandlers
  import opened RaftTerms
  import opened RaftVotes

  // ----- what answers amount to -----

  function Refusals(answers: seq<AppendEntriesResponse>): nat {
    if answers == [] then 0
    else Refusals(answers[..|answers| - 1]) + if answers[|answers| - 1].success then 0 else 1
  }

  /** What answer k alone would make of next_index, with the refusals that followed it. */
  function Suggested(answers: seq<AppendEntriesResponse>, k: nat): int
    requires k < |answers|
  {
    answers[k].matchedIndex + 1 - Refusals(answers[k + 1..])
  }

  /** n is the largest of one, the start less all refusals, and, for every success, the position
      after what it confirmed less the refusals since. */
  ghost predicate NextIs(start: nat, answers: seq<AppendEntriesResponse>, n: nat) {
    && 1 <= n && start - Refusals(answers) <= n
    && (forall k :: 0 <= k < |answers| && answers[k].success ==> Suggested(answers, k) <= n)
    && (|| n == 1 || n == start - Refusals(answers)
        || exists k :: 0 <= k < |answers| && answers[k].success && Suggested(answers, k) == n)
  }

  /** n is the largest of the start and what any success confirmed. */
  ghost predicate MatchIs(start: nat, answers: seq<AppendEntriesResponse>, n: nat) {
    && start <= n
    && (forall k :: 0 <= k < |answers| && answers[k].success ==> answers[k].matchedIndex <= n)
    && (n == start || exists k :: 0 <= k < |answers| && answers[k].success && answers[k].matchedIndex == n)
  }

  /** How one answer moves the two indexes. */
  ghost predicate Moves(match0: nat, next0: nat, answer: AppendEntriesResponse, match1: nat, next1: nat) {
    && match1 == (if answer.success then Max(match0, answer.matchedIndex) else match0)
    && next1 == (if answer.success then Max(next0, answer.matchedIndex + 1)
                 else if next0 <= 1 then next0 else next0 - 1)
  }

  lemma SuggestedThen(answers: seq<AppendEntriesResponse>, answer: AppendEntriesResponse, k: nat)
    requires k <= |answers|
    ensures var more := answers + [answer];
            if k == |answers| then Suggested(more, k) == answer.matchedIndex + 1
            else Suggested(more, k) == Suggested(answers, k) - if answer.success then 0 else 1
  {
    var more := answers + [answer];
    if k == |answers| {
      assert more[k + 1..] == [];
    } else {
      assert more[k + 1..] == answers[k + 1..] + [answer];
      assert more[k + 1..][..|more[k + 1..]| - 1] == answers[k + 1..];
    }
  }

  lemma OneMoreAnswer(start: nat, start': nat, answers: seq<AppendEntriesResponse>, answer: AppendEntriesResponse,
                      match0: nat, next0: nat, match1: nat, next1: nat)
    requires MatchIs(start', answers, match0) && NextIs(start, answers, next0)
    requires Moves(match0, next0, answer, match1, next1)
    ensures MatchIs(start', answers + [answer], match1) && NextIs(start, answers + [answer], next1)
  {
    var more := answers + [answer];
    assert more[..|answers|] == answers;
    forall k | 0 <= k <= |answers|
      ensures if k == |answers| then more[k] == answer && Suggested(more, k) == answer.matchedIndex + 1
              else && more[k] == answers[k]
                   && Suggested(more, k) == Suggested(answers, k) - if answer.success then 0 else 1
    {
      SuggestedThen(answers, answer, k);
    }
    assert Refusals(more) == Refusals(answers) + if answer.success then 0 else 1;
    BestMatch(start', answers, answer, match0, match1);
    BestNext(start, answers, answer, next0, next1);
  }

  lemma BestMatch(start: nat, answers: seq<AppendEntriesResponse>, answer: AppendEntriesResponse, n: nat, n': nat)
    requires MatchIs(start, answers, n) && n' == (if answer.success then Max(n, answer.matchedIndex) else n)
    ensures MatchIs(start, answers + [answer], n')
  {
    var more := answers + [answer];
    if n' == n && n != start {
      var k :| 0 <= k < |answers| && answers[k].success && answers[k].matchedIndex == n;
      assert more[k] == answers[k];
    } else if n' != n {
      assert more[|answers|] == answer;
    }
  }

  lemma BestNext(start: nat, answers: seq<AppendEntriesResponse>, answer: AppendEntriesResponse, n: nat, n': nat)
    requires NextIs(start, answers, n)
    requires n' == (if answer.success then Max(n, answer.matchedIndex + 1) else if n <= 1 then n else n - 1)
    requires var more := answers + [answer];
             && Refusals(more) == Refusals(answers) + (if answer.success then 0 else 1)
             && forall k :: 0 <= k <= |answers| ==>
                  if k == |answers| then more[k] == answer && Suggested(more, k) == answer.matchedIndex + 1
                  else && more[k] == answers[k]
                       && Suggested(more, k) == Suggested(answers, k) - if answer.success then 0 else 1
    ensures NextIs(start, answers + [answer], n')
  {
    hide Refusals, Suggested;
    var more := answers + [answer];
    forall k | 0 <= k < |more| && more[k].success ensures Suggested(more, k) <= n' {
      assert k < |answers| ==> Suggested(answers, k) <= n;
    }
    if answer.success && n' != n {
      assert Suggested(more, |answers|) == n';
    } else if n' != 1 && n != start - Refusals(answers) {
      var k :| 0 <= k < |answers| && answers[k].success && Suggested(answers, k) == n;
      assert Suggested(more, k) == n' && more[k].success;
    }
  }

  // ----- one call at a leader -----

  /** The progress of one follower is as before. */
  ghost predicate Untouched(before: Core, after: Core, f: NodeId) {
    && f in before.nextIndex && f in before.matchIndex && f in after.nextIndex && f in after.matchIndex
    && after.nextIndex[f] == before.nextIndex[f] && after.matchIndex[f] == before.matchIndex[f]
  }

  ghost predicate Touched(before: Core, after: Core, f: NodeId, answer: AppendEntriesResponse) {
    && f in before.nextIndex && f in before.matchIndex && f in after.nextIndex && f in after.matchIndex
    && Moves(before.matchIndex[f], before.nextIndex[f], answer, after.matchIndex[f], after.nextIndex[f])
  }

  ghost predicate HearsOf(step: Step, f: NodeId, term: nat) {
    step.Deliver? && step.message.AppendReply? && step.message.from == f && step.message.answer.term == term
  }

  lemma LeaderTracks(s: NodeState, step: Step, f: NodeId)
    requires CanTake(s, step) && s.core.role == Leader && IsPeer(s.cfg, f)
    requires React(s, step).state.core.role == Leader && React(s, step).state.core.term == s.core.term
    requires step.Deliver? ==> !React(s, step).threw
    ensures if HearsOf(step, f, s.core.term) then Touched(s.core, React(s, step).state.core, f, step.message.answer)
            else Untouched(s.core, React(s, step).state.core, f)
  {
    hide Valid, Healthy, StartElection, AppendCommand, QueueHeartbeats, Boot, HandleRequestVote, ReceiveVote,
         HandleAppendEntries, ReceiveAppendResponse, CommitsByQuorum, Applies, FreshQueue, TookOffice, AsksEveryone,
         Saved, ProgressOk, Acceptable, Continues, GivesVote;
    ValidProgress(s);
    ProgressCovers(s, f);
    match step
    case Campaign(_) => CampaignHandled(s);
    case Deliver(VoteRequest(from, to, ask)) => VoteRequestHandled(s, ask);
    case Deliver(VoteReply(from, to, ask, vote)) => VoteReplyHandled(s, from, vote);
    case Deliver(AppendRequest(from, to, append)) => AppendRequestHandled(s, append);
    case Deliver(AppendReply(from, to, append, answer)) => AppendAnswerHandled(s, from, answer);
    case Client(_, command) => CommandHandled(s, command);
    case Heartbeat(_) => HeartbeatHandled(s);
    case VotesTaken(_) =>
    case AppendsTaken(_) =>
    case Restart(_) => RestartRestores(s);
    case Interrupted(m) => InterruptedRestores(s, m);
  }

  /** Whoever is leader after a call, and was not leader of that term before, has just taken
      office, and was a candidate unless it has just campaigned. */
  lemma OfficeStarts(s: NodeState, step: Step)
    requires CanTake(s, step) && React(s, step).state.core.role == Leader
    requires s.core.role != Leader || React(s, step).state.core.term != s.core.term
    ensures TookOffice(React(s, step).state)
    ensures s.core.role == Candidate || React(s, step).state.core.term == s.core.term + 1
  {
    hide Valid, Healthy, StartElection, AppendCommand, QueueHeartbeats, Boot, HandleRequestVote, ReceiveVote,
         HandleAppendEntries, ReceiveAppendResponse, CommitsByQuorum, Applies, FreshQueue, TookOffice, AsksEveryone,
         Saved, ProgressOk, Acceptable, Continues, GivesVote, Confirms, StepsBack;
    ValidProgress(s);
    match step
    case Campaign(_) => CampaignHandled(s);
    case Deliver(VoteRequest(from, to, ask)) => VoteRequestHandled(s, ask);
    case Deliver(VoteReply(from, to, ask, vote)) => VoteReplyHandled(s, from, vote);
    case Deliver(AppendRequest(from, to, append)) => AppendRequestHandled(s, append);
    case Deliver(AppendReply(from, to, append, answer)) => AppendAnswerHandled(s, from, answer);
    case Client(_, command) => CommandHandled(s, command);
    case Heartbeat(_) => HeartbeatHandled(s);
    case VotesTaken(_) =>
    case AppendsTaken(_) =>
    case Restart(_) => RestartRestores(s);
    case Interrupted(m) => InterruptedRestores(s, m);
  }

  /** The request built after a success starts behind what was confirmed, and further on only if
      next_index was there already. */
  lemma NextStartsAfter(s: NodeState, follower: NodeId, response: AppendEntriesResponse)
    requires Valid(s) && s.core.role == Leader && IsPeer(s.cfg, follower)
    requires response.term == s.core.term && response.success && response.matchedIndex <= |s.core.log|
    ensures s.core.commit <= |s.core.log| && ProgressOk(s.cfg, s.core) && follower in s.core.nextIndex
    ensures var s' := ReceiveAppendResponse(s, follower, response).state;
            && ProgressOk(s'.cfg, s'.core) && follower in s'.core.nextIndex
            && MakeAppendRequest(s'.cfg, s'.core, follower).prevLogIndex ==
               Max(s.core.nextIndex[follower] - 1, response.matchedIndex)
  {
    hide Valid, ReceiveAppendResponse, CommitsByQuorum, Applies, Saved;
    AppendAnswerHandled(s, follower, response);
  }

  // ----- a leader over a run -----

  /** A node that leads a term at two moments leads it at the moment before the later one. */
  lemma LeadsBetween(members: seq<NodeId>, durable: set<NodeId>, run: seq<Step>, i: nat, l: NodeId, term: nat)
    requires RosterOk(members) && i < |run|
    requires IsLeader(After(members, durable, run[..i]), l, term) && IsLeader(After(members, durable, run), l, term)
    ensures IsLeader(After(members, durable, run[..|run| - 1]), l, term)
  {
    hide After, Healthy, Next, React, CanTake, Enabled, ClusterInv, Sourced, CommittedLog;
    var shorter, step := run[..|run| - 1], run[|run| - 1];
    var c := After(members, durable, shorter);
    assert shorter[..i] == run[..i] && shorter + [step] == run;
    TermBetween(members, durable, run, i, l);
    assert c.nodes[l].core.term == term;
    var h0, h := LaterMoment(members, durable, shorter, i);
    NodeAt(After(members, durable, run[..i]), members, durable, h0, l);
    assert Extends(h0.reigns[term], h.reigns[term]);
    NodeAt(c, members, durable, h, l);
    if c.nodes[l].core.role != Leader {
      StepMakesLeader(members, durable, shorter, step, l);
    }
  }

  /** A node that a step makes leader was the actor, and took office just then. */
  lemma StepMakesLeader(members: seq<NodeId>, durable: set<NodeId>, run: seq<Step>, step: Step, l: NodeId)
    requires RosterOk(members) && l in After(members, durable, run).nodes
    requires l in After(members, durable, run + [step]).nodes
    requires After(members, durable, run + [step]).nodes[l].core.role == Leader
    requires var core := After(members, durable, run).nodes[l].core;
             core.role != Leader || core.term != After(members, durable, run + [step]).nodes[l].core.term
    ensures TookOffice(After(members, durable, run + [step]).nodes[l])
    ensures || After(members, durable, run).nodes[l].core.role == Candidate
            || After(members, durable, run + [step]).nodes[l].core.term ==
               After(members, durable, run).nodes[l].core.term + 1
  {
    hide After, Valid, React, CanTake, TookOffice;
    var c := After(members, durable, run);
    if Enabled(c, step) {
      RunExtended(members, durable, run, step);
      ActorCan(members, durable, run, step);
      OfficeStarts(c.nodes[Actor(step)], step);
    } else {
      NotTakenRun(members, durable, run, step);
    }
  }

  lemma NotTakenRun(members: seq<NodeId>, durable: set<NodeId>, run: seq<Step>, step: Step)
    requires RosterOk(members) && !Enabled(After(members, durable, run), step)
    ensures After(members, durable, run + [step]) == After(members, durable, run)
  {
    hide Enabled;
    assert (run + [step])[..|run|] == run;
    NotEnabled(After(members, durable, run), step);
  }

  /** The answers of that term from f that reached l from step i on, in the order they did. */
  ghost function Heard(members: seq<NodeId>, durable: set<NodeId>, run: seq<Step>, i: nat,
                       l: NodeId, f: NodeId, term: nat): seq<AppendEntriesResponse>
    requires RosterOk(members) && i <= |run|
    decreases |run|
  {
    if |run| == i then []
    else
      var shorter, step := run[..|run| - 1], run[|run| - 1];
      Heard(members, durable, shorter, i, l, f, term) +
      if HearsOf(step, f, term) && Actor(step) == l && Enabled(After(members, durable, shorter), step)
      then [step.message.answer] else []
  }

  lemma LeaderStep(members: seq<NodeId>, durable: set<NodeId>, run: seq<Step>, step: Step,
                   l: NodeId, term: nat, f: NodeId)
    requires RosterOk(members) && f in members && f != l
    requires IsLeader(After(members, durable, run), l, term)
    requires IsLeader(After(members, durable, run + [step]), l, term)
    ensures var before, after := After(members, durable, run).nodes[l].core,
                                 After(members, durable, run + [step]).nodes[l].core;
            if HearsOf(step, f, term) && Actor(step) == l && Enabled(After(members, durable, run), step)
            then Touched(before, after, f, step.message.answer) else Untouched(before, after, f)
  {
    hide After, Valid, React, CanTake, Touched, Moves, ProgressOk, ClusterInv;
    var c := After(members, durable, run);
    var h := RunInv(members, durable, run);
    ConfigAt(c, members, durable, h, l);
    ValidAt(c, l);
    ValidProgress(c.nodes[l]);
    ProgressCovers(c.nodes[l], f);
    if Enabled(c, step) {
      RunExtended(members, durable, run, step);
      ActorCan(members, durable, run, step);
      if Actor(step) == l {
        OnlyMisuseThrows(members, durable, run, step);
        LeaderTracks(c.nodes[l], step, f);
      }
    } else {
      NotTakenRun(members, durable, run, step);
    }
  }

  /** Between any two moments of a reign, both indexes of every follower are exactly what the
      answers heard in between make of them. */
  lemma {:induction false} ProgressIsHeard(members: seq<NodeId>, durable: set<NodeId>, run: seq<Step>, i: nat,
                                           l: NodeId, term: nat, f: NodeId)
    requires RosterOk(members) && i <= |run| && f in members && f != l
    requires IsLeader(After(members, durable, run[..i]), l, term) && IsLeader(After(members, durable, run), l, term)
    ensures var before, after := After(members, durable, run[..i]).nodes[l].core,
                                 After(members, durable, run).nodes[l].core;
            var answers := Heard(members, durable, run, i, l, f, term);
            && f in before.nextIndex && f in before.matchIndex && f in after.nextIndex && f in after.matchIndex
            && NextIs(before.nextIndex[f], answers, after.nextIndex[f])
            && MatchIs(before.matchIndex[f], answers, after.matchIndex[f])
    decreases |run|
  {
    hide After, Enabled, NextIs, MatchIs, Moves, ProgressOk, Valid;
    if i == |run| {
      assert run[..i] == run;
      ProgressIsTruthful(members, durable, run, l, term, f);
      NothingHeard(After(members, durable, run).nodes[l].core.nextIndex[f],
                   After(members, durable, run).nodes[l].core.matchIndex[f]);
    } else {
      var shorter, step := run[..|run| - 1], run[|run| - 1];
      assert shorter[..i] == run[..i] && shorter + [step] == run;
      LeadsBetween(members, durable, run, i, l, term);
      ProgressIsHeard(members, durable, shorter, i, l, term, f);
      LeaderStep(members, durable, shorter, step, l, term, f);
      var start, mid, end := After(members, durable, run[..i]).nodes[l].core,
                             After(members, durable, shorter).nodes[l].core, After(members, durable, run).nodes[l].core;
      if HearsOf(step, f, term) && Actor(step) == l && Enabled(After(members, durable, shorter), step) {
        OneMoreAnswer(start.nextIndex[f], start.matchIndex[f], Heard(members, durable, shorter, i, l, f, term),
                      step.message.answer, mid.matchIndex[f], mid.nextIndex[f], end.matchIndex[f], end.nextIndex[f]);
      } else {
        assert Heard(members, durable, run, i, l, f, term) == Heard(members, durable, shorter, i, l, f, term);
      }
    }
  }

  lemma NothingHeard(next: nat, matched: nat)
    requires 1 <= next
    ensures NextIs(next, [], next) && MatchIs(matched, [], matched)
  {
  }

  /** Every leader took office at some moment, expecting every log to end where its own did, with
      one fresh request queued for everyone; and since then its two indexes are exactly what it
      has heard. */
  lemma ProgressSinceOffice(members: seq<NodeId>, durable: set<NodeId>, run: seq<Step>, l: NodeId, term: nat)
    returns (i: nat)
    requires RosterOk(members) && IsLeader(After(members, durable, run), l, term)
    ensures 0 < i <= |run| && !IsLeader(After(members, durable, run[..i - 1]), l, term)
    ensures IsLeader(After(members, durable, run[..i]), l, term)
    ensures TookOffice(After(members, durable, run[..i]).nodes[l])
    ensures forall f :: f in members && f != l ==>
              var core := After(members, durable, run).nodes[l].core;
              var answers := Heard(members, durable, run, i, l, f, term);
              && f in core.nextIndex && f in core.matchIndex
              && NextIs(|After(members, durable, run[..i]).nodes[l].core.log| + 1, answers, core.nextIndex[f])
              && MatchIs(0, answers, core.matchIndex[f])
  {
    hide After, NextIs, MatchIs, FreshQueue, ProgressOk;
    i := OfficeMoment(members, durable, run, l, term);
    forall f | f in members && f != l
      ensures var core := After(members, durable, run).nodes[l].core;
              var answers := Heard(members, durable, run, i, l, f, term);
              && f in core.nextIndex && f in core.matchIndex
              && NextIs(|After(members, durable, run[..i]).nodes[l].core.log| + 1, answers, core.nextIndex[f])
              && MatchIs(0, answers, core.matchIndex[f])
    {
      ProgressIsHeard(members, durable, run, i, l, term, f);
    }
  }

  lemma {:induction false} OfficeMoment(members: seq<NodeId>, durable: set<NodeId>, run: seq<Step>,
                                        l: NodeId, term: nat)
    returns (i: nat)
    requires RosterOk(members) && IsLeader(After(members, durable, run), l, term)
    ensures 0 < i <= |run| && !IsLeader(After(members, durable, run[..i - 1]), l, term)
    ensures IsLeader(After(members, durable, run[..i]), l, term)
    ensures TookOffice(After(members, durable, run[..i]).nodes[l])
  {
    hide Next, TookOffice, Enabled;
    assert run[..|run|] == run;
    if run != [] {
      var shorter, step := run[..|run| - 1], run[|run| - 1];
      assert shorter + [step] == run;
      if IsLeader(After(members, durable, shorter), l, term) {
        i := OfficeMoment(members, durable, shorter, l, term);
        assert run[..i] == shorter[..i] && run[..i - 1] == shorter[..i - 1];
      } else {
        StepMakesLeader(members, durable, shorter, step, l);
        i := |run|;
      }
    }
  }
}
