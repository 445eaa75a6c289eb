/** The state file: what save prints, what load reads back, character by character
    (src/raft_storage.cpp). Quoting follows [quoted.manip] of ISO C++20. */
module RaftStorage {
  import opened RaftTypes
  import opened RaftNode

  const FORMAT := "MINIRAFT_STATE_V1"

  /** What a reading operation on the stream yields: a value and the unread rest. */
  type Parsed<T> = Option<(T, string)>

  // ----- reading -----

  predicate IsSpace(c: char) {
    c == ' ' || c == '\t' || c == '\n' || c == '\r' || c == '\U{000B}' || c == '\U{000C}'
  }

  predicate IsDigit(c: char) { '0' <= c <= '9' }

  function SkipSpace(s: string): string {
    if s != "" && IsSpace(s[0]) then SkipSpace(s[1..]) else s
  }

  /** The longest prefix without white space, and what follows it. */
  function TakeWord(s: string): (string, string) {
    if s == "" || IsSpace(s[0]) then ("", s)
    else var (word, rest) := TakeWord(s[1..]); ([s[0]] + word, rest)
  }

  function TakeDigits(s: string): (r: (string, string))
    ensures forall i :: 0 <= i < |r.0| ==> IsDigit(r.0[i])
  {
    if s == "" || !IsDigit(s[0]) then ("", s)
    else var (digits, rest) := TakeDigits(s[1..]); ([s[0]] + digits, rest)
  }

  function DigitValue(c: char): nat
    requires IsDigit(c)
  {
    c as int - '0' as int
  }

  function Value(digits: string): nat
    requires forall i :: 0 <= i < |digits| ==> IsDigit(digits[i])
  {
    if digits == "" then 0
    else 10 * Value(digits[..|digits| - 1]) + DigitValue(digits[|digits| - 1])
  }

  /** operator>> into a string. */
  function ReadWord(s: string): Parsed<string> {
    var (word, rest) := TakeWord(SkipSpace(s));
    if word == "" then None else Some((word, rest))
  }

  /** operator>> into an unsigned number. */
  function ReadNat(s: string): Parsed<nat> {
    var (digits, rest) := TakeDigits(SkipSpace(s));
    if digits == "" then None else Some((Value(digits), rest))
  }

  /** The text up to the closing quote, with escaped characters taken literally. */
  function Unescape(s: string): Parsed<string> {
    if s == "" then None
    else if s[0] == '"' then Some(("", s[1..]))
    else if s[0] == '\\' && |s| < 2 then None
    else
      var skip := if s[0] == '\\' then 1 else 0;
      match Unescape(s[skip + 1..])
      case None => None
      case Some((text, rest)) => Some(([s[skip]] + text, rest))
  }

  /** operator>> into quoted(string): without an opening quote it reads a plain word. */
  function ReadQuoted(s: string): Parsed<string> {
    var t := SkipSpace(s);
    if t != "" && t[0] == '"' then Unescape(t[1..]) else ReadWord(t)
  }

  /** getline: fails only when nothing is left. */
  function ReadLine(s: string): (r: Parsed<string>)
    ensures s != "" ==> r.Some?
  {
    if s == "" then None
    else if s[0] == '\n' then Some(("", s[1..]))
    else if |s| == 1 then Some((s, ""))
    else var Some((line, rest)) := ReadLine(s[1..]); Some(([s[0]] + line, rest))
  }

  /** A label and a number; a wrong label is an error like a missing one. */
  function ReadField(s: string, name: string): Parsed<nat> {
    match ReadWord(s)
    case None => None
    case Some((word, rest)) => if word == name then ReadNat(rest) else None
  }

  function ReadEntry(s: string): Parsed<LogEntry> {
    match ReadField(s, "entry")
    case None => None
    case Some((term, rest)) =>
      match ReadQuoted(rest)
      case None => None
      case Some((command, rest')) => Some((LogEntry(term, command), rest'))
  }

  function ReadEntries(s: string, count: nat): Parsed<seq<LogEntry>> {
    if count == 0 then Some(([], s))
    else
      match ReadEntries(s, count - 1)
      case None => None
      case Some((entries, rest)) =>
        match ReadEntry(rest)
        case None => None
        case Some((entry, rest')) => Some((entries + [entry], rest'))
  }

  function ReadVote(s: string): Parsed<Option<NodeId>> {
    match ReadField(s, "voted_for")
    case None => None
    case Some((flag, rest)) =>
      if flag == 0 then Some((None, rest))
      else if flag != 1 then None
      else
        match ReadQuoted(rest)
        case None => None
        case Some((id, rest')) => Some((Some(id), rest'))
  }

  // ----- what a file may hold -----

  /** The states validate_state lets through. */
  ghost predicate StateOk(p: PersistentState) {
    && p.commitIndex <= |p.log|
    && p.votedFor != Some("")
    && LogOk(p.log, p.currentTerm)
  }

  predicate ValidateState(p: PersistentState) {
    && p.commitIndex <= |p.log|
    && p.votedFor != Some("")
    && EntriesOk(p.log, p.currentTerm, 0)
  }

  lemma ValidateMeansOk(p: PersistentState)
    ensures ValidateState(p) <==> StateOk(p)
  {
    EntriesOkMeaning(p.log, p.currentTerm, 0);
  }

  /** What load makes of a file's text, before its final validation. */
  function ReadState(text: string): Option<PersistentState> {
    match ReadLine(text)
    case None => None
    case Some((format, s0)) =>
      if format != FORMAT then None else
      match ReadField(s0, "current_term")
      case None => None
      case Some((term, s1)) =>
        match ReadVote(s1)
        case None => None
        case Some((vote, s2)) =>
          match ReadField(s2, "commit_index")
          case None => None
          case Some((commit, s3)) =>
            match ReadField(s3, "log_count")
            case None => None
            case Some((count, s4)) =>
              match ReadEntries(s4, count)
              case None => None
              case Some((log, _)) => Some(PersistentState(term, vote, log, commit))
  }

  function Parse(text: string): Reply<PersistentState> {
    match ReadState(text)
    case None => Threw(RuntimeError)
    case Some(p) => if ValidateState(p) then Returned(p) else Threw(InvalidArgument)
  }

  // ----- printing -----

  function Digit(d: nat): (c: char)
    requires d < 10
    ensures IsDigit(c) && DigitValue(c) == d
  {
    ('0' as int + d) as char
  }

  function PrintNat(n: nat): string {
    if n < 10 then [Digit(n)] else PrintNat(n / 10) + [Digit(n % 10)]
  }

  function EscapeChar(c: char): string {
    if c == '"' || c == '\\' then ['\\', c] else [c]
  }

  function Escape(s: string): string {
    if s == "" then "" else EscapeChar(s[0]) + Escape(s[1..])
  }

  function Quote(s: string): string { "\"" + Escape(s) + "\"" }

  function PrintVote(vote: Option<NodeId>): string {
    match vote
    case None => "voted_for 0"
    case Some(id) => "voted_for 1 " + Quote(id)
  }

  function PrintEntry(e: LogEntry): string {
    "entry " + PrintNat(e.term) + " " + Quote(e.command) + "\n"
  }

  function PrintEntries(log: seq<LogEntry>): string {
    if log == [] then ""
    else PrintEntries(log[..|log| - 1]) + PrintEntry(log[|log| - 1])
  }

  function PrintHeader(p: PersistentState): string {
    FORMAT + "\n"
    + "current_term " + PrintNat(p.currentTerm) + "\n"
    + PrintVote(p.votedFor) + "\n"
    + "commit_index " + PrintNat(p.commitIndex) + "\n"
    + "log_count " + PrintNat(|p.log|) + "\n"
  }

  function Print(p: PersistentState): string {
    PrintHeader(p) + PrintEntries(p.log)
  }

  // ----- the storage object -----

  /** One node's state file; `file` is its text, if it exists. Saving is modelled as atomic. */
  class FileRaftStorage {
    const path: string
    var file: Option<string>

    constructor (path: string, contents: Option<string>)
      ensures this.path == path && file == contents
    {
      this.path := path;
      file := contents;
    }

    method Exists() returns (b: bool)
      ensures b <==> file.Some?
    {
      b := file.Some?;
    }

    /** validate_state, with its running previous term. */
    static method Validate(p: PersistentState) returns (ok: bool)
      ensures ok <==> StateOk(p)
    {
      if |p.log| < p.commitIndex {
        return false;
      }
      if p.votedFor == Some("") {
        return false;
      }
      var previous := 0;
      for i := 0 to |p.log|
        invariant LogOk(p.log[..i], p.currentTerm)
        invariant previous == LastTerm(p.log[..i])
      {
        var entry := p.log[i];
        if entry.term == 0 || entry.command == "" || entry.term < previous || p.currentTerm < entry.term {
          return false;
        }
        NextEntryOk(p.log, p.currentTerm, i);
        previous := entry.term;
      }
      assert p.log[..|p.log|] == p.log;
      return true;
    }

    /** Field by field, line by line. A state that does not validate leaves the file alone. */
    method Save(p: PersistentState) returns (r: Reply<()>)
      modifies this
      ensures StateOk(p) ==> r == Returned(()) && file == Some(Print(p))
      ensures !StateOk(p) ==> r == Threw(InvalidArgument) && file == old(file)
    {
      hide PrintHeader, PrintEntries, PrintEntry, LogOk;
      var ok := Validate(p);
      if !ok {
        return Threw(InvalidArgument);
      }
      var output := WriteHeader(p);
      NoEntries(output);
      for i := 0 to |p.log|
        invariant output == PrintHeader(p) + PrintEntries(p.log[..i])
      {
        output := output + PrintEntry(p.log[i]);
        OneMoreEntry(PrintHeader(p), p.log, i);
      }
      assert p.log[..|p.log|] == p.log;
      file := Some(output);
      return Returned(());
    }

    static method WriteHeader(p: PersistentState) returns (output: string)
      ensures output == PrintHeader(p)
    {
      hide PrintNat, Quote;
      output := FORMAT + "\n";
      output := output + "current_term " + PrintNat(p.currentTerm) + "\n";
      var vote := "voted_for 0";
      if p.votedFor.Some? {
        vote := "voted_for 1 " + Quote(p.votedFor.value);
      }
      output := output + vote + "\n";
      output := output + "commit_index " + PrintNat(p.commitIndex) + "\n";
      output := output + "log_count " + PrintNat(|p.log|) + "\n";
    }

    /** A reading cursor moves over the text; any field that does not read back throws. */
    method Load() returns (r: Reply<PersistentState>)
      ensures file == None ==> r == Threw(RuntimeError)
      ensures file.Some? ==> r == Parse(file.value)
    {
      if file == None {
        return Threw(RuntimeError);
      }
      var line := ReadLine(file.value);
      if line == None || line.value.0 != FORMAT {
        return Threw(RuntimeError);
      }
      var input := line.value.1;
      var term := ReadField(input, "current_term");
      if term == None {
        return Threw(RuntimeError);
      }
      input := term.value.1;
      var vote := ReadVote(input);
      if vote == None {
        return Threw(RuntimeError);
      }
      input := vote.value.1;
      var commit := ReadField(input, "commit_index");
      if commit == None {
        return Threw(RuntimeError);
      }
      input := commit.value.1;
      var count := ReadField(input, "log_count");
      if count == None {
        return Threw(RuntimeError);
      }
      input := count.value.1;
      var entries := [];
      ghost var start := input;
      for i := 0 to count.value.0
        invariant ReadEntries(start, i) == Some((entries, input))
      {
        var entry := ReadEntry(input);
        if entry == None {
          NoEntriesAfterBadOne(start, i + 1, count.value.0);
          return Threw(RuntimeError);
        }
        entries := entries + [entry.value.0];
        input := entry.value.1;
      }
      var p := PersistentState(term.value.0, vote.value.0, entries, commit.value.0);
      var ok := Validate(p);
      ValidateMeansOk(p);
      return if ok then Returned(p) else Threw(InvalidArgument);
    }
  }

  /** `contents` is what the file system has at the path, if anything; opening leaves it alone.
      An empty path is refused. */
  method OpenStorage(path: string, contents: Option<string>) returns (r: Reply<FileRaftStorage>)
    ensures path == "" ==> r == Threw(InvalidArgument)
    ensures path != "" ==> r.Returned? && fresh(r.value) && r.value.path == path && r.value.file == contents
  {
    if path == "" {
      return Threw(InvalidArgument);
    }
    var storage := new FileRaftStorage(path, contents);
    return Returned(storage);
  }

  lemma NextEntryOk(log: seq<LogEntry>, term: nat, i: nat)
    requires i < |log| && LogOk(log[..i], term)
    requires 0 < log[i].term <= term && log[i].command != "" && LastTerm(log[..i]) <= log[i].term
    ensures LogOk(log[..i + 1], term) && LastTerm(log[..i + 1]) == log[i].term
  {
    assert log[..i + 1] == log[..i] + [log[i]];
    forall x | 0 <= x < i ensures log[x].term <= log[i].term {
      assert log[..i][x].term <= log[..i][i - 1].term;
    }
  }

  lemma NoEntries(header: string)
    ensures forall log: seq<LogEntry> :: header + PrintEntries(log[..0]) == header
  {
  }

  lemma OneMoreEntry(header: string, log: seq<LogEntry>, i: nat)
    requires i < |log|
    ensures header + PrintEntries(log[..i]) + PrintEntry(log[i]) == header + PrintEntries(log[..i + 1])
  {
    hide PrintEntry;
    assert log[..i + 1][..i] == log[..i];
    assert PrintEntries(log[..i + 1]) == PrintEntries(log[..i]) + PrintEntry(log[i]);
  }

  lemma {:induction false} NoEntriesAfterBadOne(s: string, i: nat, count: nat)
    requires i <= count && ReadEntries(s, i) == None
    ensures ReadEntries(s, count) == None
  {
    if i < count { NoEntriesAfterBadOne(s, i, count - 1); }
  }

  // ----- reading back what was printed -----

  /** White space in front of a word, a number or a quoted string is skipped. */
  lemma LeadingSpace(c: char, s: string)
    requires IsSpace(c)
    ensures ReadWord([c] + s) == ReadWord(s)
    ensures ReadNat([c] + s) == ReadNat(s)
    ensures ReadQuoted([c] + s) == ReadQuoted(s)
  {
    assert ([c] + s)[1..] == s;
  }

  lemma {:induction false} TakeWordExact(word: string, rest: string)
    requires forall i :: 0 <= i < |word| ==> !IsSpace(word[i])
    requires rest != "" ==> IsSpace(rest[0])
    ensures TakeWord(word + rest) == (word, rest)
  {
    if word == "" {
      assert word + rest == rest;
    } else {
      assert (word + rest)[1..] == word[1..] + rest;
      assert [word[0]] + word[1..] == word;
      TakeWordExact(word[1..], rest);
    }
  }

  lemma {:induction false} TakeDigitsExact(digits: string, rest: string)
    requires forall i :: 0 <= i < |digits| ==> IsDigit(digits[i])
    requires rest != "" ==> !IsDigit(rest[0])
    ensures TakeDigits(digits + rest) == (digits, rest)
  {
    if digits == "" {
      assert digits + rest == rest;
    } else {
      assert (digits + rest)[1..] == digits[1..] + rest;
      assert [digits[0]] + digits[1..] == digits;
      TakeDigitsExact(digits[1..], rest);
    }
  }

  /** A printed number is digits only, not empty, and worth the number. */
  lemma {:induction false} PrintNatValue(n: nat)
    ensures PrintNat(n) != ""
    ensures forall i :: 0 <= i < |PrintNat(n)| ==> IsDigit(PrintNat(n)[i])
    ensures Value(PrintNat(n)) == n
  {
    if n < 10 {
      assert [Digit(n)][..0] == "";
    } else {
      PrintNatValue(n / 10);
      var digits := PrintNat(n / 10);
      assert (digits + [Digit(n % 10)])[..|digits|] == digits;
    }
  }

  lemma NatReadsBack(n: nat, rest: string)
    requires rest != "" ==> !IsDigit(rest[0])
    ensures ReadNat(PrintNat(n) + rest) == Some((n, rest))
  {
    PrintNatValue(n);
    TakeDigitsExact(PrintNat(n), rest);
    assert (PrintNat(n) + rest)[0] == PrintNat(n)[0];
  }

  lemma UnescapeChar(c: char, s: string, text: string, rest: string)
    requires Unescape(s) == Some((text, rest))
    ensures Unescape(EscapeChar(c) + s) == Some(([c] + text, rest))
  {
    var t := EscapeChar(c) + s;
    if c == '"' || c == '\\' {
      assert t[0] == '\\' && t[1] == c && t[2..] == s;
    } else {
      assert t[0] == c && t[1..] == s;
    }
  }

  lemma {:induction false} EscapeReadsBack(s: string, rest: string)
    ensures Unescape(Escape(s) + "\"" + rest) == Some((s, rest))
  {
    if s == "" {
      assert (Escape(s) + "\"" + rest)[1..] == rest;
    } else {
      hide Unescape, EscapeChar;
      var tail := Escape(s[1..]) + "\"" + rest;
      EscapeReadsBack(s[1..], rest);
      UnescapeChar(s[0], tail, s[1..], rest);
      assert Escape(s) + "\"" + rest == EscapeChar(s[0]) + tail;
      assert [s[0]] + s[1..] == s;
    }
  }

  /** Any text comes back from its quoted form: quotes, backslashes, spaces, newlines. */
  lemma QuotedReadsBack(s: string, rest: string)
    ensures ReadQuoted(Quote(s) + rest) == Some((s, rest))
  {
    var text := Quote(s) + rest;
    assert text[0] == '"' && text[1..] == Escape(s) + "\"" + rest;
    EscapeReadsBack(s, rest);
  }

  lemma FieldReadsBack(name: string, n: nat, rest: string)
    requires name != "" && forall i :: 0 <= i < |name| ==> !IsSpace(name[i])
    requires rest != "" ==> !IsDigit(rest[0])
    ensures ReadField(name + " " + PrintNat(n) + rest, name) == Some((n, rest))
  {
    var tail := " " + PrintNat(n) + rest;
    assert name + " " + PrintNat(n) + rest == name + tail;
    assert (name + tail)[0] == name[0];
    TakeWordExact(name, tail);
    assert tail == [' '] + (PrintNat(n) + rest);
    LeadingSpace(' ', PrintNat(n) + rest);
    NatReadsBack(n, rest);
  }

  lemma FieldAfterSpace(c: char, s: string, name: string)
    requires IsSpace(c)
    ensures ReadField([c] + s, name) == ReadField(s, name)
  {
    LeadingSpace(c, s);
  }

  lemma EntryReadsBack(e: LogEntry, rest: string)
    ensures ReadEntry(PrintEntry(e) + rest) == Some((e, "\n" + rest))
  {
    var tail := " " + (Quote(e.command) + ("\n" + rest));
    assert PrintEntry(e) + rest == "entry" + " " + PrintNat(e.term) + tail;
    FieldReadsBack("entry", e.term, tail);
    LeadingSpace(' ', Quote(e.command) + ("\n" + rest));
    assert tail == [' '] + (Quote(e.command) + ("\n" + rest));
    QuotedReadsBack(e.command, "\n" + rest);
  }

  /** The printed entries, after the newline that ends the line before them. */
  lemma {:induction false} EntriesReadBack(log: seq<LogEntry>, rest: string)
    ensures ReadEntries("\n" + PrintEntries(log) + rest, |log|) == Some((log, "\n" + rest))
  {
    if log == [] {
      assert "\n" + PrintEntries(log) + rest == "\n" + rest;
    } else {
      var front, last := log[..|log| - 1], log[|log| - 1];
      var tail := PrintEntry(last) + rest;
      assert PrintEntries(log) == PrintEntries(front) + PrintEntry(last);
      assert "\n" + PrintEntries(log) + rest == "\n" + PrintEntries(front) + tail;
      EntriesReadBack(front, tail);
      assert "\n" + tail == ['\n'] + tail;
      EntryAfterNewline(last, rest);
      assert front + [last] == log;
    }
  }

  lemma EntryAfterNewline(e: LogEntry, rest: string)
    ensures ReadEntry("\n" + (PrintEntry(e) + rest)) == Some((e, "\n" + rest))
  {
    assert "\n" + (PrintEntry(e) + rest) == ['\n'] + (PrintEntry(e) + rest);
    FieldAfterSpace('\n', PrintEntry(e) + rest, "entry");
    EntryReadsBack(e, rest);
  }

  lemma VoteReadsBack(vote: Option<NodeId>, rest: string)
    requires rest != "" && IsSpace(rest[0])
    ensures ReadVote(PrintVote(vote) + rest) == Some((vote, rest))
  {
    hide ReadField, ReadQuoted, Quote, IsSpace;
    VoteFlag(vote, rest);
    match vote
    case None =>
    case Some(id) =>
      var tail := " " + (Quote(id) + rest);
      assert tail == [' '] + (Quote(id) + rest);
      QuotedAfterSpace(id, rest);
  }

  /** The flag before a vote, and what is left to read after it. */
  lemma VoteFlag(vote: Option<NodeId>, rest: string)
    requires rest != "" && IsSpace(rest[0])
    ensures ReadField(PrintVote(vote) + rest, "voted_for") ==
            match vote
            case None => Some((0, rest))
            case Some(id) => Some((1, " " + (Quote(id) + rest)))
  {
    hide ReadField, Quote;
    assert PrintNat(0) == "0" && PrintNat(1) == "1";
    match vote
    case None =>
      assert PrintVote(vote) + rest == "voted_for" + " " + PrintNat(0) + rest;
      FieldReadsBack("voted_for", 0, rest);
    case Some(id) =>
      var tail := " " + (Quote(id) + rest);
      assert PrintVote(vote) + rest == "voted_for" + " " + PrintNat(1) + tail;
      FieldReadsBack("voted_for", 1, tail);
  }

  lemma QuotedAfterSpace(id: string, rest: string)
    ensures ReadQuoted(" " + (Quote(id) + rest)) == Some((id, rest))
  {
    assert " " + (Quote(id) + rest) == [' '] + (Quote(id) + rest);
    LeadingSpace(' ', Quote(id) + rest);
    QuotedReadsBack(id, rest);
  }

  lemma {:induction false} LineReadsBack(line: string, rest: string)
    requires '\n' !in line
    ensures ReadLine(line + "\n" + rest) == Some((line, rest))
  {
    var text := line + "\n" + rest;
    if line == "" {
      assert text[1..] == rest;
    } else {
      assert text[0] == line[0] && text[1..] == line[1..] + "\n" + rest;
      assert [line[0]] + line[1..] == line;
      LineReadsBack(line[1..], rest);
    }
  }

  lemma FieldOnNewLine(name: string, n: nat, rest: string)
    requires name != "" && forall i :: 0 <= i < |name| ==> !IsSpace(name[i])
    requires rest != "" ==> !IsDigit(rest[0])
    ensures ReadField("\n" + name + " " + PrintNat(n) + rest, name) == Some((n, rest))
  {
    var s := name + " " + PrintNat(n) + rest;
    assert "\n" + name + " " + PrintNat(n) + rest == ['\n'] + s;
    FieldAfterSpace('\n', s, name);
    FieldReadsBack(name, n, rest);
  }

  lemma VoteOnNewLine(vote: Option<NodeId>, rest: string)
    requires rest != "" && IsSpace(rest[0])
    ensures ReadVote("\n" + PrintVote(vote) + rest) == Some((vote, rest))
  {
    assert "\n" + PrintVote(vote) + rest == ['\n'] + (PrintVote(vote) + rest);
    FieldAfterSpace('\n', PrintVote(vote) + rest, "voted_for");
    VoteReadsBack(vote, rest);
  }

  /** Moving a line from the text so far to the rest. */
  lemma LineLayout(before: string, name: string, number: string, rest: string)
    ensures before + ("\n" + name + " " + number + rest) == before + "\n" + (name + " ") + number + rest
  {
    var a, b := before + "\n", (name + " ") + number + rest;
    assert "\n" + name + " " + number + rest == "\n" + b;
    assert a + b == a + (name + " ") + number + rest;
  }

  /** The printed text, cut after each field. */
  lemma PrintLayout(p: PersistentState, s0: string, s1: string, s2: string, s3: string, s4: string)
    requires s4 == "\n" + PrintEntries(p.log) + ""
    requires s3 == "\n" + "log_count" + " " + PrintNat(|p.log|) + s4
    requires s2 == "\n" + "commit_index" + " " + PrintNat(p.commitIndex) + s3
    requires s1 == "\n" + PrintVote(p.votedFor) + s2
    requires s0 == "current_term" + " " + PrintNat(p.currentTerm) + s1
    ensures Print(p) == FORMAT + "\n" + s0
  {
    hide PrintNat, PrintVote, PrintEntries;
    var p1 := FORMAT + "\n" + "current_term " + PrintNat(p.currentTerm);
    var p2 := p1 + "\n" + PrintVote(p.votedFor);
    var p3 := p2 + "\n" + "commit_index " + PrintNat(p.commitIndex);
    var p4 := p3 + "\n" + "log_count " + PrintNat(|p.log|);
    assert "log_count" + " " == "log_count " && "commit_index" + " " == "commit_index ";
    assert "current_term" + " " == "current_term ";
    assert PrintHeader(p) == p4 + "\n";
    Regroup(p4, "\n", PrintEntries(p.log));
    assert s4 == "\n" + PrintEntries(p.log);
    LineLayout(p3, "log_count", PrintNat(|p.log|), s4);
    LineLayout(p2, "commit_index", PrintNat(p.commitIndex), s3);
    Regroup(p1 + "\n", PrintVote(p.votedFor), s2);
    Regroup(p1, "\n", PrintVote(p.votedFor) + s2);
    Regroup("\n", PrintVote(p.votedFor), s2);
    Regroup(FORMAT + "\n", "current_term " + PrintNat(p.currentTerm), s1);
    Regroup(FORMAT + "\n", "current_term ", PrintNat(p.currentTerm));
  }

  lemma Regroup(a: string, b: string, c: string)
    ensures (a + b) + c == a + (b + c)
  {
  }

  /** The text after each field, from the back. */
  lemma StateReadsBack(p: PersistentState)
    ensures ReadState(Print(p)) == Some(p)
  {
    hide ReadField, ReadVote, ReadEntries, ReadLine, PrintNat, PrintVote, PrintEntries, Print;
    var s4 := "\n" + PrintEntries(p.log) + "";
    var s3 := "\n" + "log_count" + " " + PrintNat(|p.log|) + s4;
    var s2 := "\n" + "commit_index" + " " + PrintNat(p.commitIndex) + s3;
    var s1 := "\n" + PrintVote(p.votedFor) + s2;
    var s0 := "current_term" + " " + PrintNat(p.currentTerm) + s1;
    PrintLayout(p, s0, s1, s2, s3, s4);
    LineReadsBack(FORMAT, s0);
    FieldReadsBack("current_term", p.currentTerm, s1);
    VoteOnNewLine(p.votedFor, s2);
    FieldOnNewLine("commit_index", p.commitIndex, s3);
    FieldOnNewLine("log_count", |p.log|, s4);
    EntriesReadBack(p.log, "");
  }

  /** Loading what was saved gives the saved state back, for every state save accepts;
      whatever loads is a state save would accept. */
  lemma RoundTrip(p: PersistentState, text: string)
    ensures StateOk(p) ==> Parse(Print(p)) == Returned(p)
    ensures Parse(text).Returned? ==> StateOk(Parse(text).value) && Parse(Print(Parse(text).value)) == Parse(text)
  {
    hide ReadState, Print;
    StateReadsBack(p);
    ValidateMeansOk(p);
    if Parse(text).Returned? {
      ValidateMeansOk(Parse(text).value);
      StateReadsBack(Parse(text).value);
    }
  }

  /** Different states never print to the same file. */
  lemma PrintInjective(p: PersistentState, q: PersistentState)
    requires Print(p) == Print(q)
    ensures p == q
  {
    hide ReadState, Print;
    StateReadsBack(p);
    StateReadsBack(q);
  }
}
