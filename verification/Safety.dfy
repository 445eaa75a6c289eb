/** What the invariant says about one moment: log matching, leader completeness, and
    agreement on everything committed (sections 5.3 and 5.4, Figure 3). */
module RaftSafety {
  import opened RaftTypes
  import opened RaftNode
  import opened RaftProtocol

  function Ids(members: seq<NodeId>): (s: set<NodeId>)
    ensures forall m :: m in s <==> m in members
  {
    set m | m in members
  }

  lemma {:induction false} IdsSize(members: seq<NodeId>)
    ensures |Ids(members)| <= |members|
    ensures Distinct(members) ==> |Ids(members)| == |members|
  {
    if members != [] {
      var front, last := members[..|members| - 1], members[|members| - 1];
      IdsSize(front);
      assert members == front + [last];
      assert Ids(members) == Ids(front) + {last};
    }
  }

  /** Two majorities share a member. */
  lemma QuorumsMeet(members: seq<NodeId>, p: set<NodeId>, q: set<NodeId>) returns (v: NodeId)
    requires Quorum(members, p) && Quorum(members, q)
    ensures v in p && v in q
  {
    if p * q == {} {
      IdsSize(members);
      assert |p + q| == |p| + |q|;
      assert p + q <= Ids(members);
      SubsetSize(p + q, Ids(members));
      assert false;
    }
    v :| v in p * q;
  }

  lemma {:induction false} SubsetSize(a: set<NodeId>, b: set<NodeId>)
    requires a <= b
    ensures |a| <= |b|
  {
    if a != {} {
      var x :| x in a;
      SubsetSize(a - {x}, b - {x});
    }
  }

  /** Log Matching: the same term at the same position means the same entries up to there. */
  lemma LogMatching(h: History, a: seq<LogEntry>, b: seq<LogEntry>, i: nat)
    requires Sourced(h, a) && Sourced(h, b)
    requires i < |a| && i < |b| && a[i].term == b[i].term
    ensures a[..i + 1] == b[..i + 1]
  {
    assert SourcedAt(h, a, i) && SourcedAt(h, b, i);
    var r := h.reigns[a[i].term].log;
    assert a[..i + 1] == r[..i + 1] == b[..i + 1];
  }

  /** Terms do not decrease along a log that leaders produced. */
  lemma SourcedTermsOrdered(h: History, log: seq<LogEntry>, i: nat, j: nat)
    requires HistoryOk(h) && Sourced(h, log)
    requires i <= j < |log|
    ensures 0 < log[i].term <= log[j].term
    ensures log[i].command != "" && KeyValue.Applicable(log[i].command)
  {
    assert SourcedAt(h, log, j);
    var r := h.reigns[log[j].term].log;
    assert ReignOk(h, log[j].term);
    assert log[..j + 1][i] == r[i] && log[..j + 1][j] == r[j];
  }

  lemma SourcedLogOk(h: History, log: seq<LogEntry>, term: nat)
    requires HistoryOk(h) && Sourced(h, log) && TermsAtMost(log, term)
    ensures LogOk(log, term) && GoodCommands(log)
  {
    forall i, j | 0 <= i <= j < |log|
      ensures 0 < log[i].term <= log[j].term && log[i].command != ""
      ensures KeyValue.Applicable(log[i].command)
    {
      SourcedTermsOrdered(h, log, i, j);
    }
    forall i | 0 <= i < |log|
      ensures 0 < log[i].term <= term && log[i].command != "" && KeyValue.Applicable(log[i].command)
    {
      SourcedTermsOrdered(h, log, i, i);
    }
  }

  lemma PrefixOfPrefix(a: seq<LogEntry>, b: seq<LogEntry>, c: seq<LogEntry>)
    requires a <= b && b <= c
    ensures a <= c
  {
  }

  /** What a reign record says about the log its leader was elected with. */
  lemma BaseFacts(h: History, T: nat)
    requires T in h.reigns && ReignOk(h, T)
    ensures h.reigns[T].base <= h.reigns[T].log
    ensures Sourced(h, h.reigns[T].base) && TermsAtMost(h.reigns[T].base, T - 1)
    ensures forall i :: 0 <= i < |h.reigns[T].log| ==> (h.reigns[T].log[i].term == T <==> |h.reigns[T].base| <= i)
  {
    var base, log := h.reigns[T].base, h.reigns[T].log;
    forall i | 0 <= i < |base| ensures SourcedAt(h, base, i) {
      assert SourcedAt(h, log, i);
      assert log[..i + 1] == base[..i + 1];
    }
  }

  /** Same last term: the longer log contains the shorter one. */
  lemma SameLastTerm(h: History, a: seq<LogEntry>, b: seq<LogEntry>)
    requires Sourced(h, a) && Sourced(h, b)
    requires a != [] && |a| <= |b| && LastTerm(a) == LastTerm(b)
    ensures a <= b
  {
    assert SourcedAt(h, a, |a| - 1) && SourcedAt(h, b, |b| - 1);
    var r := h.reigns[LastTerm(a)].log;
    assert a[..|a|] == a && b[..|b|] == b;
  }

  /** A log whose last entry is of term b reaches past everything b's leader started with. */
  lemma ReachesPastBase(h: History, log: seq<LogEntry>, prefix: seq<LogEntry>)
    requires Sourced(h, log) && log != [] && LastTerm(log) in h.reigns && ReignOk(h, LastTerm(log))
    requires prefix <= h.reigns[LastTerm(log)].base
    ensures prefix <= log
  {
    var b := LastTerm(log);
    BaseFacts(h, b);
    assert SourcedAt(h, log, |log| - 1);
    assert log[..|log|] == log;
    assert h.reigns[b].log[|log| - 1] == log[|log| - 1];
    assert prefix <= h.reigns[b].log;
  }

  /** The step of the induction: an up-to-date candidate whose voter holds the entries, and
      that no earlier leader lacked, holds them too. */
  lemma CandidateHolds(h: History, t: nat, prefix: seq<LogEntry>, T: nat, base: seq<LogEntry>, log: seq<LogEntry>)
    requires HistoryOk(h)
    requires prefix != [] && LastTerm(prefix) == t
    requires 0 < T && prefix <= log && Sourced(h, log) && Sourced(h, base) && TermsAtMost(base, T - 1)
    requires UpToDate(|base|, LastTerm(base), log)
    requires forall u :: t < u < T && u in h.reigns ==> prefix <= h.reigns[u].base
    ensures prefix <= base
  {
    SourcedTermsOrdered(h, log, |prefix| - 1, |log| - 1);
    assert t <= LastTerm(log) <= LastTerm(base);
    if LastTerm(base) == LastTerm(log) {
      SameLastTerm(h, log, base);
    } else {
      assert SourcedAt(h, base, |base| - 1);
      assert t < LastTerm(base) < T;
      ReachesPastBase(h, base, prefix);
    }
  }

  /** Leader Completeness: what a majority acknowledged in term t, every later leader had
      when it was elected. */
  lemma {:induction false} LeaderCompleteness(h: History, t: nat, n: nat, T: nat)
    requires HistoryOk(h) && Chosen(h, t, n)
    requires t < T && T in h.reigns
    ensures Holds(h, t, n, h.reigns[T].base)
    decreases T
  {
    var prefix := h.reigns[t].log[..n];
    forall u | t < u < T && u in h.reigns ensures Holds(h, t, n, h.reigns[u].base) {
      LeaderCompleteness(h, t, n, u);
    }
    var v := VoterWhoAcked(h, t, n, T);
    BaseFacts(h, T);
    CandidateHolds(h, t, prefix, T, h.reigns[T].base, h.ballots[(v, T)].log);
  }

  /** Some voter of the term-T leader stored the chosen entries and, unless a leader in
      between lacked them, still had them when it voted for an up-to-date candidate. */
  lemma VoterWhoAcked(h: History, t: nat, n: nat, T: nat) returns (v: NodeId)
    requires HistoryOk(h) && Chosen(h, t, n)
    requires t < T && T in h.reigns
    ensures (v, T) in h.ballots
    ensures var log := h.ballots[(v, T)].log;
            && Sourced(h, log)
            && UpToDate(|h.reigns[T].base|, LastTerm(h.reigns[T].base), log)
            && (Lost(h, t, n, T) || Holds(h, t, n, log))
  {
    var q :| Quorum(h.members, q) && AllAcked(h, q, t, n);
    assert ReignOk(h, T);
    v := QuorumsMeet(h.members, q, h.reigns[T].voters);
    assert Acked(h, v, t, n);
    assert BallotOk(h, v, T);
    assert KeptByVoter(h, v, T, t, n);
  }

  /** What was chosen in term t is in the log of every leader from term t on. */
  lemma ChosenInLeader(h: History, t: nat, n: nat, T: nat)
    requires HistoryOk(h) && Chosen(h, t, n)
    requires t <= T && T in h.reigns
    ensures Holds(h, t, n, h.reigns[T].log)
    ensures t < T ==> Holds(h, t, n, h.reigns[T].base)
  {
    if t < T {
      LeaderCompleteness(h, t, n, T);
      BaseFacts(h, T);
      PrefixOfPrefix(h.reigns[t].log[..n], h.reigns[T].base, h.reigns[T].log);
    }
  }

  lemma CommittedWitness(h: History, log: seq<LogEntry>, bound: nat) returns (t: nat, n: nat)
    requires CommittedLog(h, log, bound) && log != []
    ensures t <= bound && Chosen(h, t, n) && log <= h.reigns[t].log[..n]
  {
    t, n :| t <= bound && Chosen(h, t, n) && log <= h.reigns[t].log[..n];
  }

  /** A committed log is a prefix of every leader's log from its term on, and was so at the
      election of every later one. */
  lemma CommittedInLeader(h: History, log: seq<LogEntry>, bound: nat, T: nat)
    requires HistoryOk(h) && CommittedLog(h, log, bound)
    requires bound <= T && T in h.reigns
    ensures log <= h.reigns[T].log
    ensures bound < T ==> log <= h.reigns[T].base
  {
    if log != [] {
      var t, n := CommittedWitness(h, log, bound);
      ChosenInLeader(h, t, n, T);
      PrefixOfPrefix(log, h.reigns[t].log[..n], h.reigns[T].log);
      if t < T {
        PrefixOfPrefix(log, h.reigns[t].log[..n], h.reigns[T].base);
      }
    }
  }

  /** Two committed logs never disagree. */
  lemma CommittedAgree(h: History, a: seq<LogEntry>, x: nat, b: seq<LogEntry>, y: nat)
    requires HistoryOk(h) && CommittedLog(h, a, x) && CommittedLog(h, b, y)
    ensures a <= b || b <= a
  {
    if a != [] && b != [] {
      var t, n := CommittedWitness(h, a, x);
      var u, k := CommittedWitness(h, b, y);
      var T := Max(t, u);
      ChosenInLeader(h, t, n, T);
      ChosenInLeader(h, u, k, T);
      PrefixOfPrefix(a, h.reigns[t].log[..n], h.reigns[T].log);
      PrefixOfPrefix(b, h.reigns[u].log[..k], h.reigns[T].log);
    }
  }

  /** A piece of a committed log is committed. */
  lemma CommittedPrefix(h: History, a: seq<LogEntry>, b: seq<LogEntry>, x: nat, y: nat)
    requires CommittedLog(h, b, x) && a <= b && x <= y
    ensures CommittedLog(h, a, y)
  {
    if a != [] {
      var t: nat, n: nat :| t <= x && Chosen(h, t, n) && b <= h.reigns[t].log[..n];
      assert t <= y && Chosen(h, t, n) && a <= h.reigns[t].log[..n];
    }
  }
}
