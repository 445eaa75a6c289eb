/** What every run of every cluster guarantees: any odd membership, any elections, losses,
    delays, repetitions, reorderings, crashes and restarts. A moment of a run is the cluster
    after one of its prefixes. */
module RaftTheorems {
  import opened RaftTypes
  import opened RaftNode
  import opened RaftProtocol
  import opened RaftSafety
  import opened RaftSteps
  import opened RaftLocal
  import opened RaftCalls
  import opened RaftCluster
  import opened RaftQueues

  ghost predicate IsLeader(c: Cluster, n: NodeId, term: nat) {
    n in c.nodes && c.nodes[n].core.role == Leader && c.nodes[n].core.term == term
  }

  // ----- two moments of one run -----

  lemma LaterMoment(members: seq<NodeId>, durable: set<NodeId>, run: seq<Step>, i: nat)
    returns (h: History, h': History)
    requires RosterOk(members) && i <= |run|
    ensures ClusterInv(After(members, durable, run[..i]), members, durable, h)
    ensures ClusterInv(After(members, durable, run), members, durable, h')
    ensures Later(h, h')
    decreases |run|
  {
    hide ClusterInv;
    if i == |run| {
      assert run[..i] == run;
      h := RunInv(members, durable, run);
      h' := h;
      LaterSelf(h);
    } else {
      var shorter := run[..|run| - 1];
      assert shorter[..i] == run[..i];
      var h1: History;
      h, h1 := LaterMoment(members, durable, shorter, i);
      h' := h1;
      var before := After(members, durable, shorter);
      if Enabled(before, run[|run| - 1]) {
        h' := StepInv(before, members, durable, h1, run[|run| - 1]);
        LaterTrans(h, h1, h');
      }
    }
  }

  /** Histories of any two moments, the earlier one inside the later one. */
  lemma TwoMoments(members: seq<NodeId>, durable: set<NodeId>, run: seq<Step>, i: nat, j: nat)
    returns (h: History, h': History)
    requires RosterOk(members) && i <= j <= |run|
    ensures ClusterInv(After(members, durable, run[..i]), members, durable, h)
    ensures ClusterInv(After(members, durable, run[..j]), members, durable, h')
    ensures Later(h, h')
  {
    assert run[..j][..i] == run[..i];
    h, h' := LaterMoment(members, durable, run[..j], i);
  }

  lemma NodeAt(c: Cluster, members: seq<NodeId>, durable: set<NodeId>, h: History, n: NodeId)
    requires ClusterInv(c, members, durable, h) && n in c.nodes
    ensures NodeOk(h, n, c.nodes[n].core) && Healthy(c.nodes[n]) && HistoryOk(h)
    ensures c.nodes[n].cfg == Config(n, members, n in durable)
  {
    ActorPlaced(c, members, durable, h, n);
    PlacedParts(View(c), h, c.nodes[n]);
  }

  // ----- Election Safety -----

  /** At most one node is ever leader in a term, over the whole run. */
  lemma ElectionSafety(members: seq<NodeId>, durable: set<NodeId>, run: seq<Step>,
                       i: nat, a: NodeId, j: nat, b: NodeId, term: nat)
    requires RosterOk(members) && i <= |run| && j <= |run|
    requires IsLeader(After(members, durable, run[..i]), a, term)
    requires IsLeader(After(members, durable, run[..j]), b, term)
    ensures a == b
  {
    hide Healthy, After;
    if j < i {
      ElectionSafety(members, durable, run, j, b, i, a, term);
    } else {
      var h, h' := TwoMoments(members, durable, run, i, j);
      NodeAt(After(members, durable, run[..i]), members, durable, h, a);
      NodeAt(After(members, durable, run[..j]), members, durable, h', b);
      assert Extends(h.reigns[term], h'.reigns[term]);
    }
  }

  /** Every leader on record really was leader at some moment. */
  lemma {:induction false} ReignsHappened(members: seq<NodeId>, durable: set<NodeId>, run: seq<Step>)
    returns (h: History)
    requires RosterOk(members)
    ensures ClusterInv(After(members, durable, run), members, durable, h)
    ensures forall t :: t in h.reigns ==> Reigned(members, durable, run, h.reigns[t].leader, t)
  {
    hide ClusterInv, Reigned;
    if run == [] {
      h := History(members, map[], map[], map[]);
      GenesisHistory(members, durable);
    } else {
      var shorter, step := run[..|run| - 1], run[|run| - 1];
      var before := After(members, durable, shorter);
      var h0 := ReignsHappened(members, durable, shorter);
      h := h0;
      if Enabled(before, step) {
        h := StepInv(before, members, durable, h0, step);
      }
      forall t | t in h.reigns ensures Reigned(members, durable, run, h.reigns[t].leader, t) {
        if t in h0.reigns {
          assert Enabled(before, step) ==> Extends(h0.reigns[t], h.reigns[t]);
          ReignedLater(members, durable, run, h.reigns[t].leader, t);
        } else {
          ActorKeepsId(before, members, durable, h0, step);
          ReignsNow(members, durable, run, h.reigns[t].leader, t);
        }
      }
    }
  }

  lemma ReignedLater(members: seq<NodeId>, durable: set<NodeId>, run: seq<Step>, leader: NodeId, t: nat)
    requires RosterOk(members) && run != [] && Reigned(members, durable, run[..|run| - 1], leader, t)
    ensures Reigned(members, durable, run, leader, t)
  {
    hide After, IsLeader;
    var shorter := run[..|run| - 1];
    var i :| 0 <= i <= |shorter| && IsLeader(After(members, durable, shorter[..i]), leader, t);
    assert run[..i] == shorter[..i];
  }

  lemma ReignsNow(members: seq<NodeId>, durable: set<NodeId>, run: seq<Step>, leader: NodeId, t: nat)
    requires RosterOk(members) && IsLeader(After(members, durable, run), leader, t)
    ensures Reigned(members, durable, run, leader, t)
  {
    hide After, IsLeader;
    assert run[..|run|] == run;
  }

  lemma GenesisHistory(members: seq<NodeId>, durable: set<NodeId>)
    requires RosterOk(members)
    ensures ClusterInv(Genesis(members, durable), members, durable, History(members, map[], map[], map[]))
  {
    var h := GenesisInv(members, durable);
  }

  lemma ActorKeepsId(c: Cluster, members: seq<NodeId>, durable: set<NodeId>, h: History, step: Step)
    requires ClusterInv(c, members, durable, h) && AllValid(c) && Enabled(c, step)
    ensures Actor(step) in Next(c, step).nodes
    ensures Next(c, step).nodes[Actor(step)].cfg.id == Actor(step)
  {
    ActorPlaced(c, members, durable, h, Actor(step));
    assert Valid(c.nodes[Actor(step)]);
    ReactValid(c.nodes[Actor(step)], step);
  }

  ghost predicate Reigned(members: seq<NodeId>, durable: set<NodeId>, run: seq<Step>, leader: NodeId, t: nat)
    requires RosterOk(members)
  {
    exists i :: 0 <= i <= |run| && IsLeader(After(members, durable, run[..i]), leader, t)
  }

  /** A node that names a leader names the one that was elected in the node's current term,
      and by ElectionSafety the only one. */
  lemma LeaderIdIsElected(members: seq<NodeId>, durable: set<NodeId>, run: seq<Step>, n: NodeId)
    requires RosterOk(members)
    requires n in After(members, durable, run).nodes
    requires After(members, durable, run).nodes[n].core.leaderId.Some?
    ensures var core := After(members, durable, run).nodes[n].core;
            Reigned(members, durable, run, core.leaderId.value, core.term)
  {
    hide Healthy, After;
    var h := ReignsHappened(members, durable, run);
    NodeAt(After(members, durable, run), members, durable, h, n);
  }

  // ----- Log Matching -----

  lemma SourcedLater(h: History, h': History, log: seq<LogEntry>)
    requires Later(h, h') && Sourced(h, log)
    ensures Sourced(h', log)
  {
    forall i | 0 <= i < |log| ensures SourcedAt(h', log, i) {
      assert SourcedAt(h, log, i);
      assert Extends(h.reigns[log[i].term], h'.reigns[log[i].term]);
    }
  }

  /** Two logs, of any nodes at any moments, that have the same term at a position are equal
      up to that position. */
  lemma LogsMatch(members: seq<NodeId>, durable: set<NodeId>, run: seq<Step>,
                  i: nat, a: NodeId, j: nat, b: NodeId, k: nat)
    requires RosterOk(members) && i <= |run| && j <= |run|
    requires a in After(members, durable, run[..i]).nodes && b in After(members, durable, run[..j]).nodes
    requires var x := After(members, durable, run[..i]).nodes[a].core.log;
             var y := After(members, durable, run[..j]).nodes[b].core.log;
             k < |x| && k < |y| && x[k].term == y[k].term
    ensures After(members, durable, run[..i]).nodes[a].core.log[..k + 1] ==
            After(members, durable, run[..j]).nodes[b].core.log[..k + 1]
  {
    hide Healthy, After, Later;
    if j < i {
      LogsMatch(members, durable, run, j, b, i, a, k);
    } else {
      var h, h' := TwoMoments(members, durable, run, i, j);
      var x := After(members, durable, run[..i]).nodes[a].core.log;
      var y := After(members, durable, run[..j]).nodes[b].core.log;
      NodeAt(After(members, durable, run[..i]), members, durable, h, a);
      NodeAt(After(members, durable, run[..j]), members, durable, h', b);
      SourcedLater(h, h', x);
      LogMatching(h', x, y, k);
    }
  }

  lemma MessagesStay(members: seq<NodeId>, durable: set<NodeId>, run: seq<Step>, i: nat, j: nat)
    requires RosterOk(members) && i <= j <= |run|
    ensures After(members, durable, run[..i]).messages <= After(members, durable, run[..j]).messages
    decreases j
  {
    hide Next;
    if i < j {
      assert run[..j][..j - 1] == run[..j - 1];
      MessagesStay(members, durable, run, i, j - 1);
    }
  }

  /** A request sent by moment i and a log of moment j, earlier or later, that agree on the term
      of one of the request's entries agree on that entry, on everything the request carries
      before it, and on the previous-entry check. */
  lemma RequestMatchesLog(members: seq<NodeId>, durable: set<NodeId>, run: seq<Step>,
                          i: nat, m: Message, j: nat, n: NodeId, k: nat)
    requires RosterOk(members) && i <= |run| && j <= |run|
    requires m in After(members, durable, run[..i]).messages && m.AppendRequest? && k < |m.append.entries|
    requires n in After(members, durable, run[..j]).nodes
    requires var log := After(members, durable, run[..j]).nodes[n].core.log;
             m.append.prevLogIndex + k < |log| && log[m.append.prevLogIndex + k].term == m.append.entries[k].term
    ensures var log := After(members, durable, run[..j]).nodes[n].core.log;
            var p := m.append.prevLogIndex;
            && log[p..p + k + 1] == m.append.entries[..k + 1]
            && PreviousMatches(log, p, m.append.prevLogTerm)
  {
    hide Healthy, After, CommittedLog, Later;
    var t := if i <= j then j else i;
    MessagesStay(members, durable, run, i, t);
    var h, h' := TwoMoments(members, durable, run, j, t);
    var log := After(members, durable, run[..j]).nodes[n].core.log;
    NodeAt(After(members, durable, run[..j]), members, durable, h, n);
    SourcedLater(h, h', log);
    SentSlice(After(members, durable, run[..t]), members, durable, h', m);
    SliceMatches(h', log, m.append, k);
  }

  lemma SentSlice(c: Cluster, members: seq<NodeId>, durable: set<NodeId>, h: History, m: Message)
    requires ClusterInv(c, members, durable, h) && m in c.messages && m.AppendRequest?
    ensures m.append.term in h.reigns && SliceOk(h, m.append) && Sourced(h, h.reigns[m.append.term].log)
  {
    hide CommittedLog, Sourced;
    SentOk(c, members, durable, h, m);
    HistoryReign(View(c), h, m.append.term);
  }

  /** Request a starts inside request b, or where b starts, and up to its entry x agrees with
      what b carries up to its entry y; it also names the term that b has just before. */
  ghost predicate StartsInside(a: AppendEntriesRequest, x: nat, b: AppendEntriesRequest, y: nat)
    requires b.prevLogIndex <= a.prevLogIndex && a.prevLogIndex + x == b.prevLogIndex + y
    requires x < |a.entries| && y < |b.entries|
  {
    var skipped := a.prevLogIndex - b.prevLogIndex;
    && a.entries[..x + 1] == b.entries[skipped..y + 1]
    && a.prevLogTerm == if skipped == 0 then b.prevLogTerm else b.entries[skipped - 1].term
  }

  /** Two requests of any leaders, terms, addressees and moments, whose entries for the same log
      position have the same term, agree on all they both carry up to there, and the one that
      starts later names the term the other has just before. */
  lemma RequestsMatch(members: seq<NodeId>, durable: set<NodeId>, run: seq<Step>,
                      i: nat, a: Message, j: nat, b: Message, x: nat, y: nat)
    requires RosterOk(members) && i <= |run| && j <= |run|
    requires a in After(members, durable, run[..i]).messages && a.AppendRequest? && x < |a.append.entries|
    requires b in After(members, durable, run[..j]).messages && b.AppendRequest? && y < |b.append.entries|
    requires a.append.prevLogIndex + x == b.append.prevLogIndex + y
    requires a.append.entries[x].term == b.append.entries[y].term
    ensures if b.append.prevLogIndex <= a.append.prevLogIndex then StartsInside(a.append, x, b.append, y)
            else StartsInside(b.append, y, a.append, x)
  {
    hide After, ClusterInv, StartsInside, SliceOk, Sourced;
    MessagesStay(members, durable, run, i, |run|);
    MessagesStay(members, durable, run, j, |run|);
    assert run[..|run|] == run;
    var c := After(members, durable, run);
    var h := RunInv(members, durable, run);
    SentSlice(c, members, durable, h, a);
    SentSlice(c, members, durable, h, b);
    if b.append.prevLogIndex <= a.append.prevLogIndex {
      SlicesMatch(h, a.append, x, b.append, y);
    } else {
      SlicesMatch(h, b.append, y, a.append, x);
    }
  }

  lemma SlicesMatch(h: History, a: AppendEntriesRequest, x: nat, b: AppendEntriesRequest, y: nat)
    requires a.term in h.reigns && SliceOk(h, a) && Sourced(h, h.reigns[a.term].log)
    requires b.term in h.reigns && SliceOk(h, b) && Sourced(h, h.reigns[b.term].log)
    requires b.prevLogIndex <= a.prevLogIndex && a.prevLogIndex + x == b.prevLogIndex + y
    requires x < |a.entries| && y < |b.entries| && a.entries[x].term == b.entries[y].term
    ensures StartsInside(a, x, b, y)
  {
    hide Sourced, SliceOk;
    var r, u, p := h.reigns[a.term].log, h.reigns[b.term].log, a.prevLogIndex;
    SliceAt(h, a, x, p);
    SliceAt(h, b, y, p);
    LogMatching(h, r, u, p + x);
    if 0 < p {
      assert r[..p + x + 1][p - 1] == u[..p + x + 1][p - 1];
      if b.prevLogIndex < p { SliceAt(h, b, p - 1 - b.prevLogIndex, p - 1); }
    }
  }

  /** Where the entries of a request come from. */
  lemma SliceAt(h: History, request: AppendEntriesRequest, x: nat, from: nat)
    requires SliceOk(h, request) && x < |request.entries|
    requires request.prevLogIndex <= from <= request.prevLogIndex + x
    ensures request.term in h.reigns
    ensures var r, p := h.reigns[request.term].log, request.prevLogIndex;
            && p + x < |r| && request.entries[x] == r[p + x]
            && request.entries[from - p..x + 1] == r[..p + x + 1][from..]
            && request.prevLogTerm == if p == 0 then 0 else r[p - 1].term
  {
    hide CommittedLog;
    var r, p := h.reigns[request.term].log, request.prevLogIndex;
    SliceOfSlice(r, p, |request.entries|, from - p, x + 1);
    assert r[..p + x + 1][from..] == r[from..p + x + 1];
  }

  lemma SliceOfSlice(r: seq<LogEntry>, p: nat, n: nat, i: nat, j: nat)
    requires p + n <= |r| && i <= j <= n
    ensures r[p..p + n][i..j] == r[p + i..p + j]
  {
    var s := r[p..p + n];
    forall k | 0 <= k < j - i ensures s[i..j][k] == r[p + i..p + j][k] {
      assert s[i + k] == r[p + i + k];
    }
  }

  lemma SliceMatches(h: History, log: seq<LogEntry>, request: AppendEntriesRequest, k: nat)
    requires SliceOk(h, request) && Sourced(h, log) && Sourced(h, h.reigns[request.term].log)
    requires k < |request.entries| && request.prevLogIndex + k < |log|
    requires log[request.prevLogIndex + k].term == request.entries[k].term
    ensures log[request.prevLogIndex..request.prevLogIndex + k + 1] == request.entries[..k + 1]
    ensures PreviousMatches(log, request.prevLogIndex, request.prevLogTerm)
  {
    hide CommittedLog, Sourced;
    var r, p := h.reigns[request.term].log, request.prevLogIndex;
    assert request.entries[k] == r[p + k];
    LogMatching(h, log, r, p + k);
    assert log[p..p + k + 1] == log[..p + k + 1][p..] == r[..p + k + 1][p..];
    assert request.entries[..k + 1] == r[p..p + k + 1];
    if 0 < p { assert log[..p + k + 1][p - 1] == r[..p + k + 1][p - 1]; }
  }

  // ----- Leader Append-Only -----

  /** A leader never overwrites or deletes entries of its log: at any two moments at which a
      term has a leader, the earlier log is a prefix of the later one. */
  lemma LeaderAppendsOnly(members: seq<NodeId>, durable: set<NodeId>, run: seq<Step>,
                          i: nat, a: NodeId, j: nat, b: NodeId, term: nat)
    requires RosterOk(members) && i <= j <= |run|
    requires IsLeader(After(members, durable, run[..i]), a, term)
    requires IsLeader(After(members, durable, run[..j]), b, term)
    ensures a == b
    ensures After(members, durable, run[..i]).nodes[a].core.log <= After(members, durable, run[..j]).nodes[b].core.log
  {
    hide Healthy, After;
    var h, h' := TwoMoments(members, durable, run, i, j);
    NodeAt(After(members, durable, run[..i]), members, durable, h, a);
    NodeAt(After(members, durable, run[..j]), members, durable, h', b);
    assert Extends(h.reigns[term], h'.reigns[term]);
  }

  // ----- Leader Completeness -----

  /** Whatever any node has committed by any moment, every leader of a later term holds at
      every moment it leads, earlier or later; a leader of the same term holds it from then on. */
  lemma LeadersHoldCommitted(members: seq<NodeId>, durable: set<NodeId>, run: seq<Step>,
                             i: nat, a: NodeId, j: nat, b: NodeId, term: nat)
    requires RosterOk(members) && i <= |run| && j <= |run|
    requires a in After(members, durable, run[..i]).nodes
    requires IsLeader(After(members, durable, run[..j]), b, term)
    requires var core := After(members, durable, run[..i]).nodes[a].core;
             core.term < term || (core.term == term && i <= j)
    ensures var core := After(members, durable, run[..i]).nodes[a].core;
            && core.commit <= |core.log|
            && core.log[..core.commit] <= After(members, durable, run[..j]).nodes[b].core.log
  {
    hide Healthy, After, Sourced, KeptByNode, CommittedLog;
    var ci, cj := After(members, durable, run[..i]), After(members, durable, run[..j]);
    var core := ci.nodes[a].core;
    if i <= j {
      var h, h' := TwoMoments(members, durable, run, i, j);
      NodeAt(ci, members, durable, h, a);
      NodeAt(cj, members, durable, h', b);
      CommittedLater(h, h', core.log[..core.commit], core.term);
      CommittedInLeader(h', core.log[..core.commit], core.term, term);
    } else {
      var h, h' := TwoMoments(members, durable, run, j, i);
      NodeAt(cj, members, durable, h, b);
      NodeAt(ci, members, durable, h', a);
      assert Extends(h.reigns[term], h'.reigns[term]);
      CommittedInLeader(h', core.log[..core.commit], core.term, term);
      ReignBase(h, term);
      PrefixOfPrefix(core.log[..core.commit], h.reigns[term].base, h.reigns[term].log);
    }
  }

  lemma ReignBase(h: History, t: nat)
    requires HistoryOk(h) && t in h.reigns
    ensures h.reigns[t].base <= h.reigns[t].log
  {
    assert ReignOk(h, t);
  }

  // ----- State Machine Safety -----

  lemma CommandsPrefix(a: seq<LogEntry>, b: seq<LogEntry>)
    requires a <= b
    ensures Commands(a) <= Commands(b)
  {
  }

  /** Any two journals, of any nodes at any two moments, are prefixes of one another. */
  lemma JournalsAgree(members: seq<NodeId>, durable: set<NodeId>, run: seq<Step>,
                      i: nat, a: NodeId, j: nat, b: NodeId)
    requires RosterOk(members) && i <= |run| && j <= |run|
    requires a in After(members, durable, run[..i]).nodes && b in After(members, durable, run[..j]).nodes
    ensures var x := After(members, durable, run[..i]).nodes[a];
            var y := After(members, durable, run[..j]).nodes[b];
            && (x.machine.journal <= y.machine.journal || y.machine.journal <= x.machine.journal)
            && (x.core.commit == y.core.commit ==> x.machine == y.machine)
  {
    hide After, Sourced, KeptByNode, CommittedLog, LogOk;
    if j < i {
      JournalsAgree(members, durable, run, j, b, i, a);
    } else {
      var h, h' := TwoMoments(members, durable, run, i, j);
      var x := After(members, durable, run[..i]).nodes[a];
      var y := After(members, durable, run[..j]).nodes[b];
      NodeAt(After(members, durable, run[..i]), members, durable, h, a);
      NodeAt(After(members, durable, run[..j]), members, durable, h', b);
      var p, q := x.core.log[..x.core.commit], y.core.log[..y.core.commit];
      CommittedLater(h, h', p, x.core.term);
      CommittedAgree(h', p, x.core.term, q, y.core.term);
      if p <= q { CommandsPrefix(p, q); } else { CommandsPrefix(q, p); }
      if x.core.commit == y.core.commit {
        MachineDetermined(x.core, x.machine, y.core, y.machine);
      }
    }
  }

  // ----- what a leader knows, and what an acknowledgement means -----

  lemma AckedIsStored(h: History, f: NodeId, core: Core, t: nat, n: nat)
    requires KeptByNode(h, f, core) && Acked(h, f, t, n)
    ensures t <= core.term
    ensures core.term == t ==> Holds(h, t, n, core.log)
  {
  }

  /** A success reply of term T sent by moment j, against the leader of term T at any moment i,
      earlier or later, whether or not it still leads, lives or has just restarted at the other:
      the reply counts entries of that leader's log, never more than it has once the reply is
      sent; and as long as its sender is in term T, it holds as many of them as the log at
      moment i has. */
  lemma AcknowledgedIsStored(members: seq<NodeId>, durable: set<NodeId>, run: seq<Step>,
                             i: nat, l: NodeId, j: nat, m: Message)
    requires RosterOk(members) && i <= |run| && j <= |run|
    requires m in After(members, durable, run[..j]).messages && m.AppendReply? && m.answer.success
    requires IsLeader(After(members, durable, run[..i]), l, m.answer.term)
    ensures var c := After(members, durable, run[..j]);
            var log, k := After(members, durable, run[..i]).nodes[l].core.log, m.answer.matchedIndex;
            && m.to == l && m.from in c.nodes
            && (j <= i ==> k <= |log|)
            && (0 < k ==> m.answer.term <= c.nodes[m.from].core.term)
            && (c.nodes[m.from].core.term == m.answer.term ==> log[..Min(k, |log|)] <= c.nodes[m.from].core.log)
  {
    hide After, ClusterInv;
    var ci, cj := After(members, durable, run[..i]), After(members, durable, run[..j]);
    var hi: History, hj: History;
    if i < j {
      hi, hj := TwoMoments(members, durable, run, i, j);
    } else {
      hj, hi := TwoMoments(members, durable, run, j, i);
    }
    AcknowledgedAt(ci, cj, members, durable, hi, hj, l, m);
    var t := m.answer.term;
    assert if i < j then Extends(hi.reigns[t], hj.reigns[t]) else Extends(hj.reigns[t], hi.reigns[t]);
    SharedPrefix(ci.nodes[l].core.log, hj.reigns[t].log, cj.nodes[m.from].core.log, m.answer.matchedIndex,
                 cj.nodes[m.from].core.term == t);
  }

  /** The two ends of an acknowledgement, each in the history of its moment. */
  lemma AcknowledgedAt(ci: Cluster, cj: Cluster, members: seq<NodeId>, durable: set<NodeId>, hi: History, hj: History,
                       l: NodeId, m: Message)
    requires ClusterInv(ci, members, durable, hi) && ClusterInv(cj, members, durable, hj)
    requires m in cj.messages && m.AppendReply? && m.answer.success && IsLeader(ci, l, m.answer.term)
    ensures m.answer.term in hi.reigns && hi.reigns[m.answer.term].leader == l
    ensures hi.reigns[m.answer.term].log == ci.nodes[l].core.log
    ensures m.answer.term in hj.reigns && hj.reigns[m.answer.term].leader == m.to
    ensures m.answer.matchedIndex <= |hj.reigns[m.answer.term].log| && m.from in cj.nodes
    ensures 0 < m.answer.matchedIndex ==> m.answer.term <= cj.nodes[m.from].core.term
    ensures cj.nodes[m.from].core.term == m.answer.term ==>
              hj.reigns[m.answer.term].log[..m.answer.matchedIndex] <= cj.nodes[m.from].core.log
  {
    hide Healthy, Sourced, CommittedLog, ClusterInv;
    NodeAt(ci, members, durable, hi, l);
    SentOk(cj, members, durable, hj, m);
    HistoryMembers(cj, members, durable, hj);
    MemberIsNode(cj, members, durable, hj, m.from);
    NodeAt(cj, members, durable, hj, m.from);
    if 0 < m.answer.matchedIndex {
      AckedIsStored(hj, m.from, cj.nodes[m.from].core, m.answer.term, m.answer.matchedIndex);
    }
  }

  lemma HistoryMembers(c: Cluster, members: seq<NodeId>, durable: set<NodeId>, h: History)
    requires ClusterInv(c, members, durable, h)
    ensures h.members == members
  {
  }

  lemma SharedPrefix(a: seq<LogEntry>, b: seq<LogEntry>, c: seq<LogEntry>, k: nat, stored: bool)
    requires (a <= b || b <= a) && k <= |b| && (stored ==> b[..k] <= c)
    ensures stored ==> a[..Min(k, |a|)] <= c
  {
    var n := Min(k, |a|);
    assert a[..n] == b[..n] == b[..k][..n];
  }

  lemma StoredStays(c1: Cluster, c2: Cluster, members: seq<NodeId>, durable: set<NodeId>, h1: History, h2: History,
                    n: NodeId, term: nat, k: nat)
    requires ClusterInv(c1, members, durable, h1) && ClusterInv(c2, members, durable, h2) && Later(h1, h2)
    requires n in c1.nodes && n in c2.nodes && c1.nodes[n].core.term == term && c2.nodes[n].core.term == term
    requires 0 < k ==> Acked(h1, n, term, k)
    ensures k <= |c1.nodes[n].core.log| && c1.nodes[n].core.log[..k] <= c2.nodes[n].core.log
  {
    hide ClusterInv, Healthy, Sourced, CommittedLog, LogOk;
    NodeAt(c1, members, durable, h1, n);
    NodeAt(c2, members, durable, h2, n);
    if 0 < k {
      AckedIsStored(h1, n, c1.nodes[n].core, term, k);
      assert Acked(h2, n, term, k);
      AckedIsStored(h2, n, c2.nodes[n].core, term, k);
      assert Extends(h1.reigns[term], h2.reigns[term]);
      assert h1.reigns[term].log[..k] == h2.reigns[term].log[..k];
    }
  }

  /** What a node has acknowledged by moment i it still holds, unchanged, at any later moment
      at which it is in that term, whatever happens between: other requests, votes, restarts,
      the end of the leader. */
  lemma AcknowledgedStays(members: seq<NodeId>, durable: set<NodeId>, run: seq<Step>, i: nat, j: nat, m: Message)
    requires RosterOk(members) && i <= j <= |run|
    requires m in After(members, durable, run[..i]).messages && m.AppendReply? && m.answer.success
    requires m.from in After(members, durable, run[..i]).nodes && m.from in After(members, durable, run[..j]).nodes
    requires After(members, durable, run[..i]).nodes[m.from].core.term == m.answer.term
    requires After(members, durable, run[..j]).nodes[m.from].core.term == m.answer.term
    ensures var log := After(members, durable, run[..i]).nodes[m.from].core.log;
            && m.answer.matchedIndex <= |log|
            && log[..m.answer.matchedIndex] <= After(members, durable, run[..j]).nodes[m.from].core.log
  {
    hide After, ClusterInv, Later;
    var c1, c2 := After(members, durable, run[..i]), After(members, durable, run[..j]);
    var h1, h2 := TwoMoments(members, durable, run, i, j);
    SentOk(c1, members, durable, h1, m);
    StoredStays(c1, c2, members, durable, h1, h2, m.from, m.answer.term, m.answer.matchedIndex);
  }

  lemma MemberIsNode(c: Cluster, members: seq<NodeId>, durable: set<NodeId>, h: History, n: NodeId)
    requires ClusterInv(c, members, durable, h)
    ensures n in members <==> n in c.nodes
  {
    assert n in View(c).cores <==> n in c.nodes;
  }

  /** match_index is truthful, next_index stays between one and the end of the log, and both
      maps cover exactly the other members. */
  lemma ProgressIsTruthful(members: seq<NodeId>, durable: set<NodeId>, run: seq<Step>, l: NodeId, term: nat, f: NodeId)
    requires RosterOk(members)
    requires IsLeader(After(members, durable, run), l, term)
    ensures var c := After(members, durable, run);
            var core := c.nodes[l].core;
            && (f in core.matchIndex <==> f in members && f != l)
            && (f in core.nextIndex <==> f in members && f != l)
            && (f in core.matchIndex ==>
                  && 1 <= core.nextIndex[f] <= |core.log| + 1
                  && core.matchIndex[f] <= |core.log|
                  && f in c.nodes
                  && (c.nodes[f].core.term == term ==> core.log[..core.matchIndex[f]] <= c.nodes[f].core.log))
  {
    hide After, Sourced, CommittedLog, LogOk;
    var c := After(members, durable, run);
    var h := RunInv(members, durable, run);
    NodeAt(c, members, durable, h, l);
    var core := c.nodes[l].core;
    if f in core.matchIndex {
      assert IsPeer(c.nodes[l].cfg, f);
      MemberIsNode(c, members, durable, h, f);
      NodeAt(c, members, durable, h, f);
      if 0 < core.matchIndex[f] {
        AckedIsStored(h, f, c.nodes[f].core, term, core.matchIndex[f]);
      }
    }
  }

  // ----- which branches real runs take -----

  /** A request that was really sent is refused for a stale term or a previous-position
      mismatch only: the four entry checks and the committed-conflict return never fire. */
  lemma RefusalsAreRaftRefusals(members: seq<NodeId>, durable: set<NodeId>, run: seq<Step>, m: Message)
    requires RosterOk(members)
    requires m in After(members, durable, run).messages && m.AppendRequest?
    ensures m.to in After(members, durable, run).nodes
    ensures var s := After(members, durable, run).nodes[m.to];
            && s.core.commit <= |s.core.log|
            && EntriesOk(m.append.entries, m.append.term, m.append.prevLogTerm)
            && (s.core.term <= m.append.term ==>
                  !ReplacesCommitted(s.core.log, s.core.commit, m.append.prevLogIndex, m.append.entries))
            && HandleAppendEntries(s, m.append).reply.Returned?
            && (HandleAppendEntries(s, m.append).reply.value.success <==>
                  && s.core.term <= m.append.term
                  && PreviousMatches(s.core.log, m.append.prevLogIndex, m.append.prevLogTerm))
  {
    hide After, Inv, NodeOk, Keeps, EntriesOk, ReplacesCommitted, PreviousMatches, HandleAppendEntries, FollowLeader;
    var c := After(members, durable, run);
    var h := RunInv(members, durable, run);
    SentOk(c, members, durable, h, m);
    SentRequest(c, members, durable, h, m);
    MemberIsNode(c, members, durable, h, m.to);
    ActorPlaced(c, members, durable, h, m.to);
    var s := c.nodes[m.to];
    var h' := HandleAppendEntriesCall(View(c), h, s, m);
    HandleAppendEntriesAnswers(View(c), h, s, m);
    if s.core.term <= m.append.term { FollowLeaderCall(View(c), h, s, m); }
    PlacedHealthy(View(c), h, s);
    HealthyCommit(s);
  }

  lemma SentRequest(c: Cluster, members: seq<NodeId>, durable: set<NodeId>, h: History, m: Message)
    requires ClusterInv(c, members, durable, h) && m in c.messages && m.AppendRequest?
    ensures m.to in members
    ensures EntriesOk(m.append.entries, m.append.term, m.append.prevLogTerm)
  {
    SentOk(c, members, durable, h, m);
    HistoryReign(View(c), h, m.append.term);
    RequestEntriesOk(h, m.append);
  }

  lemma HistoryReign(w: World, h: History, t: nat)
    requires Inv(w, h) && t in h.reigns
    ensures ReignOk(h, t)
  {
  }

  /** No call of a real run throws, except a client command or heartbeat sent to a node that
      is not leader, and an empty command: no internal error, no failing apply, no rejected
      restart. */
  lemma OnlyMisuseThrows(members: seq<NodeId>, durable: set<NodeId>, run: seq<Step>, step: Step)
    requires RosterOk(members)
    requires Enabled(After(members, durable, run), step)
    ensures Reacted(After(members, durable, run), step).threw <==>
            Misused(After(members, durable, run).nodes[Actor(step)], step)
  {
    var h := RunInv(members, durable, run);
    var h' := StepInv(After(members, durable, run), members, durable, h, step);
  }

  // ----- durability -----

  /** After every call of every run, and so before anything it answers or queues can be seen,
      the disk holds term, vote, log and commit index; all that is queued speaks of just these
      fields (`Backed`); and a restart at that moment gives them back. */
  lemma DurableBeforeVisible(members: seq<NodeId>, durable: set<NodeId>, run: seq<Step>, n: NodeId)
    requires RosterOk(members)
    requires n in After(members, durable, run).nodes && n in durable
    ensures var c := After(members, durable, run);
            var s := c.nodes[n];
            var s' := Next(c, Restart(n)).nodes[n];
            && s.disk == Some(Persistent(s.core))
            && Backed(s)
            && s'.core == s.core.(role := Follower, leaderId := None, votes := {},
                                  nextIndex := map[], matchIndex := map[])
            && s'.machine == s.machine && s'.disk == s.disk
  {
    hide After, Inv, Backed;
    var c := After(members, durable, run);
    var h := RunInv(members, durable, run);
    RunBacked(members, durable, run);
    assert Backed(c.nodes[n]);
    NodeHealthy(c, members, durable, h, n);
    assert NodeFits(c, members, durable, n);
    RestartRestores(c.nodes[n]);
    assert Enabled(c, Restart(n));
  }

  /** The commit index and everything below it only ever grow, in a run and over restarts. */
  lemma CommitOnlyGrows(members: seq<NodeId>, durable: set<NodeId>, run: seq<Step>, i: nat, j: nat, n: NodeId)
    requires RosterOk(members) && i <= j <= |run|
    requires n in After(members, durable, run[..i]).nodes
    ensures n in After(members, durable, run[..j]).nodes
    ensures Advances(After(members, durable, run[..i]).nodes[n], After(members, durable, run[..j]).nodes[n])
    decreases j
  {
    hide Advances;
    if i == j {
      assert Valid(After(members, durable, run[..i]).nodes[n]);
      AdvancesSelf(After(members, durable, run[..i]).nodes[n]);
    } else {
      CommitOnlyGrows(members, durable, run, i, j - 1, n);
      var c := After(members, durable, run[..j - 1]);
      assert run[..j][..j - 1] == run[..j - 1];
      StepAdvances(members, durable, run[..j - 1], run[j - 1], n);
      AdvancesTrans(After(members, durable, run[..i]).nodes[n], c.nodes[n],
                    After(members, durable, run[..j]).nodes[n]);
    }
  }

  lemma StepAdvances(members: seq<NodeId>, durable: set<NodeId>, run: seq<Step>, step: Step, n: NodeId)
    requires RosterOk(members)
    requires n in After(members, durable, run).nodes
    ensures n in Next(After(members, durable, run), step).nodes
    ensures Advances(After(members, durable, run).nodes[n], Next(After(members, durable, run), step).nodes[n])
  {
    hide After, Advances, Inv;
    var c := After(members, durable, run);
    assert Valid(c.nodes[n]);
    AdvancesSelf(c.nodes[n]);
    if Enabled(c, step) && n == Actor(step) {
      var h := RunInv(members, durable, run);
      NodeAt(c, members, durable, h, n);
      ReactAdvances(c.nodes[n], step);
    }
  }

  lemma ReactAdvances(s: NodeState, step: Step)
    requires Valid(s)
    requires ComesBack(step) ==> Healthy(s) && s.cfg.durable
    ensures Advances(s, React(s, step).state)
  {
    hide Advances, Healthy, Valid;
    ValidProgress(s);
    match step
    case Campaign(_) => StartElectionLocal(s);
    case Deliver(VoteRequest(from, to, ask)) => HandleRequestVoteLocal(s, ask);
    case Deliver(VoteReply(from, to, ask, vote)) => ReceiveVoteLocal(s, from, vote);
    case Deliver(AppendRequest(from, to, append)) => HandleAppendEntriesLocal(s, append);
    case Deliver(AppendReply(from, to, append, answer)) => ReceiveAppendResponseLocal(s, from, answer);
    case Client(_, command) => AppendCommandLocal(s, command);
    case Heartbeat(_) => QueuesLocal(s, QueueHeartbeats(s).state);
    case VotesTaken(_) => QueuesLocal(s, TakeVotes(s));
    case AppendsTaken(_) => QueuesLocal(s, TakeAppends(s));
    case Restart(_) =>
      RestartRestores(s);
      RestartAdvances(s, Boot(s.cfg, 0, [], s.disk).value);
    case Interrupted(m) =>
      InterruptedRestores(s, m);
      var s1, s' := Struck(s, m), Boot(s.cfg, 0, [], Struck(s, m).disk).value;
      HealthyIsValid(s1);
      RestartAdvances(s1, s');
      AdvancesTrans(s, s1, s');
  }

  lemma RestartAdvances(s: NodeState, s': NodeState)
    requires Valid(s) && s'.cfg == s.cfg && s'.machine == s.machine
    requires s'.core == StepDown(s.core).(leaderId := None)
    ensures Advances(s, s')
  {
  }
}
