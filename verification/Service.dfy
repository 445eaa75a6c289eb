/** The handlers that clients call. The mutex makes each one a single step
    (src/raft_service.cpp:163-272). */
module RaftService {
  import opened RaftTypes
  import opened KeyValue
  import opened RaftNode
  import opened RaftLocal
  import opened RaftCluster
  import opened RaftClients
  import opened RaftCoreObject

  /** The gRPC status codes the handlers return. */
  datatype Status = Accepted | FailedPrecondition | BadArgument

  class RaftServiceImpl {
    const core: RaftCore

    constructor (core: RaftCore)
      ensures this.core == core
    {
      this.core := core;
    }

    /** The try block shared by Set and Delete. */
    method Submit(command: Reply<string>) returns (status: Status, logIndex: nat)
      requires core.Valid() && core.role == Leader
      requires command.Returned? ==> command.value != "" && Applicable(command.value)
      modifies core, core.keyValueStore, core.storage
      ensures core.Valid()
      ensures command.Threw? ==> status == BadArgument && core.State() == old(core.State())
      ensures command.Returned? ==> Submitted(old(core.State()), core.State(), command.value, status, logIndex)
    {
      hide RaftNode.Valid, Healthy, Applicable, RaftNode.AppendCommand;
      if command.Threw? {
        return BadArgument, 0;
      }
      AppendMeaning(core.State(), command.value);
      var r := core.AppendCommand(command.value);
      if r.Threw? {
        return BadArgument, 0;
      }
      return Accepted, r.value;
    }

    method Set(key: string, value: string) returns (status: Status, logIndex: nat)
      requires core.Valid()
      modifies core, core.keyValueStore, core.storage
      ensures core.Valid()
      ensures old(core.role) != Leader ==> status == FailedPrecondition && core.State() == old(core.State())
      ensures old(core.role) == Leader && !KeyOk(key) ==> status == BadArgument && core.State() == old(core.State())
      ensures old(core.role) == Leader && KeyOk(key) ==>
                Submitted(old(core.State()), core.State(), Encode(Put(key, value)), status, logIndex)
    {
      hide RaftNode.Valid, Submitted;
      if core.role != Leader {
        return FailedPrecondition, 0;
      }
      MadeCommandsApply(map[], key, value);
      status, logIndex := Submit(MakeSetCommand(key, value));
    }

    method Delete(key: string) returns (status: Status, logIndex: nat)
      requires core.Valid()
      modifies core, core.keyValueStore, core.storage
      ensures core.Valid()
      ensures old(core.role) != Leader ==> status == FailedPrecondition && core.State() == old(core.State())
      ensures old(core.role) == Leader && !KeyOk(key) ==> status == BadArgument && core.State() == old(core.State())
      ensures old(core.role) == Leader && KeyOk(key) ==>
                Submitted(old(core.State()), core.State(), Encode(Remove(key)), status, logIndex)
    {
      hide RaftNode.Valid, Submitted;
      if core.role != Leader {
        return FailedPrecondition, 0;
      }
      MadeCommandsApply(map[], key, "");
      status, logIndex := Submit(MakeDeleteCommand(key));
    }

    /** A leader answers from the replay of what it has applied, which at a healthy one is its
        whole committed prefix. */
    method Get(key: string) returns (status: Status, value: Option<string>)
      requires core.Valid()
      ensures core.role != Leader ==> status == FailedPrecondition
      ensures core.role == Leader ==> status == Accepted
      ensures core.role == Leader ==>
                && core.lastApplied <= core.commitIndex <= |core.logEntries|
                && (forall c :: c in Commands(core.logEntries[..core.lastApplied]) ==> Applicable(c))
                && value == Lookup(Replay(Commands(core.logEntries[..core.lastApplied])), key)
      ensures core.role == Leader && Healthy(core.State()) ==> core.lastApplied == core.commitIndex
    {
      hide LogOk;
      if core.role != Leader {
        return FailedPrecondition, None;
      }
      status := Accepted;
      value := core.keyValueStore.Get(key);
    }
  }

  function Lookup(store: Store, key: string): Option<string> {
    if key in store then Some(store[key]) else None
  }

  /** A write that reached append_command: the step of RaftNode, answered with the index it
      returns, or with INVALID_ARGUMENT when it throws because an older command of the log cannot
      be applied. Either way the command is the last entry of the leader's log; at a healthy
      leader it never throws. */
  ghost predicate Submitted(s: NodeState, s': NodeState, command: string, status: Status, logIndex: nat) {
    && RaftNode.Valid(s)
    && s' == AppendCommand(s, command).state
    && (match AppendCommand(s, command).reply
        case Returned(index) => status == Accepted && logIndex == index == |s'.core.log|
        case Threw(_) => status == BadArgument)
    && s'.core.log == s.core.log + [LogEntry(s.core.term, command)]
    && s'.core.role == Leader && s'.core.term == s.core.term
    && (Healthy(s) ==> Healthy(s') && status == Accepted)
  }

  lemma AppendMeaning(s: NodeState, command: string)
    requires RaftNode.Valid(s) && s.core.role == Leader && command != "" && Applicable(command)
    ensures s.core.commit <= |s.core.log| && ProgressOk(s.cfg, s.core)
    ensures var o := AppendCommand(s, command);
            && o.state.core.log == s.core.log + [LogEntry(s.core.term, command)]
            && o.state.core.role == Leader && o.state.core.term == s.core.term
            && (o.reply.Returned? ==> o.reply.value == |s.core.log| + 1)
            && (Healthy(s) ==> Healthy(o.state) && o.reply.Returned?)
  {
    hide AdvanceCommit, AppendActions, LogOk, Applied, ProgressOk, Applicable;
    ValidProgress(s);
    AppendEntryLocal(s, command);
    AdvanceCommitLocal(s.(core := AppendEntry(s.core, command)));
    AppendCommandLocal(s, command);
  }

  // ----- runs driven by the service -----

  /** A command that the service can submit: one that a maker built. */
  ghost predicate Built(command: string) {
    exists op: Operation :: KeyOk(op.key) && command == Encode(op)
  }

  /** The service is the only client entry. */
  ghost predicate ServiceRun(run: seq<Step>) {
    forall i :: 0 <= i < |run| && run[i].Client? ==> Built(run[i].command)
  }

  lemma BuiltDecodes(command: string)
    ensures Built(command) <==> Decode(command).Returned?
    ensures Built(command) ==> Applicable(command) && IsKeyValueCommand(command)
  {
    hide Decode, Encode;
    if Built(command) {
      var op: Operation :| KeyOk(op.key) && command == Encode(op);
      DecodeEncode(op);
    }
    if Decode(command).Returned? {
      DecodedWasBuilt(command);
      var op := Decode(command).value;
      assert KeyOk(op.key) && command == Encode(op);
    }
  }

  /** The update an entry stands for. */
  ghost function Meaning(log: seq<LogEntry>): (ops: seq<Operation>)
    requires forall i :: 0 <= i < |log| ==> Decode(log[i].command).Returned?
  {
    seq(|log|, i requires 0 <= i < |log| => Decode(log[i].command).value)
  }

  ghost function PerformAll(ops: seq<Operation>): Store {
    if ops == [] then map[] else Perform(PerformAll(ops[..|ops| - 1]), ops[|ops| - 1])
  }

  lemma {:induction false} ReplayIsPerformAll(log: seq<LogEntry>)
    requires forall i :: 0 <= i < |log| ==> Decode(log[i].command).Returned?
    ensures forall c :: c in Commands(log) ==> Applicable(c)
    ensures Replay(Commands(log)) == PerformAll(Meaning(log))
  {
    hide Decode, Perform;
    forall c | c in Commands(log) ensures Applicable(c) {
      var i :| 0 <= i < |log| && log[i].command == c;
      BuiltDecodes(c);
    }
    if log != [] {
      var front, last := log[..|log| - 1], log[|log| - 1];
      ReplayIsPerformAll(front);
      BuiltDecodes(last.command);
      assert Commands(log) == Commands(front) + [last.command];
      assert Meaning(log) == Meaning(front) + [Decode(last.command).value];
      ReplayExtend(Commands(front), last.command);
      assert Meaning(log)[..|log| - 1] == Meaning(front);
    }
  }

  /** In a run driven by the service every command of every log and request was built by a
      maker and has one meaning, and every node's map is what the meanings of its committed
      entries make of the empty map, in log order. */
  lemma ServiceRunsApply(members: seq<NodeId>, durable: set<NodeId>, run: seq<Step>, n: NodeId)
    requires RosterOk(members) && ServiceRun(run)
    requires n in After(members, durable, run).nodes
    ensures forall m :: m in After(members, durable, run).messages && m.AppendRequest? ==>
              forall i :: 0 <= i < |m.append.entries| ==> Built(m.append.entries[i].command)
    ensures var s := After(members, durable, run).nodes[n];
            && (forall i :: 0 <= i < |s.core.log| ==>
                  Built(s.core.log[i].command) && Decode(s.core.log[i].command).Returned?)
            && s.core.commit <= |s.core.log|
            && s.machine.store == PerformAll(Meaning(s.core.log[..s.core.commit]))
  {
    hide After, Given, Decode, LogOk, Built, Replay;
    NothingInvented(members, durable, run);
    GivenBuilt(run);
    var c := After(members, durable, run);
    var s := c.nodes[n];
    forall m, i: nat | m in c.messages && m.AppendRequest? && i < |m.append.entries|
      ensures Built(m.append.entries[i].command)
    {
      assert From(m.append.entries, Given(run));
    }
    forall i | 0 <= i < |s.core.log| ensures Built(s.core.log[i].command) && Decode(s.core.log[i].command).Returned? {
      assert From(s.core.log, Given(run));
      BuiltDecodes(s.core.log[i].command);
    }
    var h := RunInv(members, durable, run);
    NodeHealthy(c, members, durable, h, n);
    ReplayIsPerformAll(s.core.log[..s.core.commit]);
  }

  lemma GivenBuilt(run: seq<Step>)
    requires ServiceRun(run)
    ensures forall c :: c in Given(run) ==> Built(c)
  {
    hide Built;
  }
}
