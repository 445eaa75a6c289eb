/** The replicated key-value state machine and its command codec
    (src/key_value_store.cpp). */
module KeyValue {
  import opened RaftTypes

  const SET := "SET "
  const DELETE := "DELETE "

  type Store = map<string, string>

  /** What a committed command means to the state machine. */
  datatype Operation = Put(key: string, value: string) | Remove(key: string)

  /** The keys validate_key lets through. */
  predicate KeyOk(key: string) {
    key != "" && ' ' !in key
  }

  function MakeSetCommand(key: string, value: string): Reply<string> {
    if KeyOk(key) then Returned(SET + key + " " + value) else Threw(InvalidArgument)
  }

  function MakeDeleteCommand(key: string): Reply<string> {
    if KeyOk(key) then Returned(DELETE + key) else Threw(InvalidArgument)
  }

  predicate IsKeyValueCommand(command: string) {
    SET <= command || DELETE <= command
  }

  /** The position of the first space at or after `start`, or |s|. */
  function FindSpace(s: string, start: nat): (k: nat)
    requires start <= |s|
    ensures start <= k <= |s|
    ensures k < |s| ==> s[k] == ' '
    ensures ' ' !in s[start..k]
    decreases |s| - start
  {
    if start == |s| then start
    else if s[start] == ' ' then start
    else
      var k := FindSpace(s, start + 1);
      assert s[start..k] == [s[start]] + s[start + 1..k];
      k
  }

  /** The reading half of KeyValueStore::apply. */
  function Decode(command: string): Reply<Operation> {
    if SET <= command then
      var keyEnd := FindSpace(command, 4);
      if keyEnd == |command| then Threw(InvalidArgument)
      else
        var key := command[4..keyEnd];
        if KeyOk(key) then Returned(Put(key, command[keyEnd + 1..])) else Threw(InvalidArgument)
    else if DELETE <= command then
      var key := command[7..];
      if KeyOk(key) then Returned(Remove(key)) else Threw(InvalidArgument)
    else Threw(InvalidArgument)
  }

  function Perform(store: Store, op: Operation): Store {
    match op
    case Put(key, value) => store[key := value]
    case Remove(key) => store - {key}
  }

  /** The updating object of the source: an unordered_map changed in place. */
  class KeyValueStore {
    var values: Store

    constructor ()
      ensures values == map[]
    {
      values := map[];
    }

    method Apply(command: string) returns (r: Reply<()>)
      modifies this
      ensures r.Returned? <==> Decode(command).Returned?
      ensures r.Returned? ==> values == Perform(old(values), Decode(command).value)
      ensures r.Threw? ==> r.fault == InvalidArgument && values == old(values)
    {
      if SET <= command {
        var keyEnd := FindSpace(command, 4);
        if keyEnd == |command| {
          return Threw(InvalidArgument);
        }
        var key := command[4..keyEnd];
        var value := command[keyEnd + 1..];
        if !KeyOk(key) {
          return Threw(InvalidArgument);
        }
        values := values[key := value];
        return Returned(());
      }
      if DELETE <= command {
        var key := command[7..];
        if !KeyOk(key) {
          return Threw(InvalidArgument);
        }
        values := values - {key};
        return Returned(());
      }
      return Threw(InvalidArgument);
    }

    method Get(key: string) returns (value: Option<string>)
      ensures value == if key in values then Some(values[key]) else None
    {
      value := if key in values then Some(values[key]) else None;
    }
  }

  /** Committing `command` cannot throw: it is either no key-value command or a readable one. */
  predicate Applicable(command: string) {
    IsKeyValueCommand(command) ==> Decode(command).Returned?
  }

  /** The effect of one committed command (the guarded call at src/raft_core.cpp:520-522). */
  function Effect(store: Store, command: string): Store
    requires Applicable(command)
  {
    if IsKeyValueCommand(command) then Perform(store, Decode(command).value) else store
  }

  /** The map that a journal of commands produces, starting from nothing. */
  function Replay(journal: seq<string>): Store
    requires forall c :: c in journal ==> Applicable(c)
  {
    if journal == [] then map[]
    else Effect(Replay(journal[..|journal| - 1]), journal[|journal| - 1])
  }

  // ----- what the codec promises -----

  ghost function Encode(op: Operation): string {
    match op
    case Put(key, value) => SET + key + " " + value
    case Remove(key) => DELETE + key
  }

  lemma {:induction false} FindSpaceUnique(s: string, start: nat, k: nat)
    requires start <= k <= |s|
    requires k < |s| ==> s[k] == ' '
    requires ' ' !in s[start..k]
    ensures FindSpace(s, start) == k
    decreases |s| - start
  {
    if start < k {
      assert s[start..k][0] == s[start];
      assert s[start + 1..k] == s[start..k][1..];
      FindSpaceUnique(s, start + 1, k);
    }
  }

  /** Any space-free, non-empty key and any value come back from the command built from them. */
  lemma DecodeEncode(op: Operation)
    requires KeyOk(op.key)
    ensures Decode(Encode(op)) == Returned(op)
    ensures IsKeyValueCommand(Encode(op)) && Applicable(Encode(op))
  {
    var c := Encode(op);
    match op
    case Put(key, value) =>
      assert c[..4] == SET;
      assert c[4..4 + |key|] == key;
      assert c[4 + |key|] == ' ';
      FindSpaceUnique(c, 4, 4 + |key|);
      assert c[5 + |key|..] == value;
    case Remove(key) =>
      assert c[0] == 'D';
      assert c[7..] == key;
  }

  lemma DecodedWasBuilt(command: string)
    requires Decode(command).Returned?
    ensures KeyOk(Decode(command).value.key)
    ensures command == Encode(Decode(command).value)
  {
    if SET <= command {
      var k := FindSpace(command, 4);
      assert command == SET + command[4..k] + " " + command[k + 1..];
    } else {
      assert command == DELETE + command[7..];
    }
  }

  /** A command is readable exactly when it was built from a good key; the reading is unique. */
  lemma ReadableIffBuilt(command: string, op: Operation)
    ensures Decode(command) == Returned(op) <==> (KeyOk(op.key) && command == Encode(op))
  {
    hide Decode, Encode;
    if Decode(command) == Returned(op) {
      DecodedWasBuilt(command);
    }
    if KeyOk(op.key) && command == Encode(op) {
      DecodeEncode(op);
    }
  }

  /** The makers build readable commands, with the meaning their names say, and reject only bad keys. */
  lemma MadeCommandsApply(store: Store, key: string, value: string)
    ensures MakeSetCommand(key, value).Returned? <==> KeyOk(key)
    ensures MakeDeleteCommand(key).Returned? <==> KeyOk(key)
    ensures KeyOk(key) ==>
              var c := MakeSetCommand(key, value).value;
              c != "" && Applicable(c) && Effect(store, c) == store[key := value]
    ensures KeyOk(key) ==>
              var c := MakeDeleteCommand(key).value;
              c != "" && Applicable(c) && Effect(store, c) == store - {key}
  {
    if KeyOk(key) {
      DecodeEncode(Put(key, value));
      DecodeEncode(Remove(key));
    }
  }

  /** A command is a key-value command by its first word; then it can be applied exactly if a
      maker could have built it. Any other command leaves the map alone. */
  lemma AppliesByPrefix(store: Store, command: string)
    ensures IsKeyValueCommand(command) <==>
              || (|command| >= 4 && command[..4] == "SET ")
              || (|command| >= 7 && command[..7] == "DELETE ")
    ensures IsKeyValueCommand(command) ==>
              (Applicable(command) <==> exists op: Operation :: KeyOk(op.key) && command == Encode(op))
    ensures !IsKeyValueCommand(command) ==> Applicable(command) && Effect(store, command) == store
  {
    hide Decode, Encode;
    if IsKeyValueCommand(command) {
      if Applicable(command) { DecodedWasBuilt(command); }
      if exists op: Operation :: KeyOk(op.key) && command == Encode(op) {
        var op: Operation :| KeyOk(op.key) && command == Encode(op);
        DecodeEncode(op);
      }
    }
  }

  /** Raw commands can have the prefix of a key-value command without being one. */
  lemma RawCommandThrows()
    ensures IsKeyValueCommand("SET foo") && Decode("SET foo") == Threw(InvalidArgument)
    ensures !Applicable("SET foo") && Applicable("add-user")
  {
    FindSpaceUnique("SET foo", 4, 7);
    assert "add-user"[0] != SET[0] && "add-user"[0] != DELETE[0];
  }

  lemma ReplayExtend(journal: seq<string>, command: string)
    requires forall c :: c in journal ==> Applicable(c)
    requires Applicable(command)
    ensures forall c :: c in journal + [command] ==> Applicable(c)
    ensures Replay(journal + [command]) == Effect(Replay(journal), command)
  {
    assert (journal + [command])[..|journal|] == journal;
  }
}
