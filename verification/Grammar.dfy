/** Which texts load accepts, as a grammar: each part of the file is a cut of the text, with any
    white space before it, and the reading functions find exactly these cuts
    (src/raft_storage.cpp:172-297). */
module RaftGrammar {
  import opened RaftTypes
  import opened RaftStorage

  // ----- words, numbers and quoted texts -----

  ghost predicate Blank(w: string) {
    forall i :: 0 <= i < |w| ==> IsSpace(w[i])
  }

  ghost predicate NoBlank(w: string) {
    w != "" && forall i :: 0 <= i < |w| ==> !IsSpace(w[i])
  }

  ghost predicate AllDigits(d: string) {
    d != "" && forall i :: 0 <= i < |d| ==> IsDigit(d[i])
  }

  /** s is white space, then the word, then a rest that does not go on with it. */
  ghost predicate WordText(s: string, word: string, rest: string) {
    NoBlank(word) && (rest != "" ==> IsSpace(rest[0])) && exists w :: Blank(w) && s == w + (word + rest)
  }

  /** s is white space, then digits worth n, then a rest that does not go on with them. */
  ghost predicate NumberText(s: string, n: nat, rest: string) {
    && (rest != "" ==> !IsDigit(rest[0]))
    && exists w, d :: Blank(w) && AllDigits(d) && Value(d) == n && s == w + (d + rest)
  }

  /** body is text, with a backslash before every quote and every backslash, and perhaps before
      other characters. */
  ghost predicate EscapedAs(body: string, text: string) {
    if text == "" then body == ""
    else
      || (|body| >= 1 && body[0] != '"' && body[0] != '\\' && body[0] == text[0] && EscapedAs(body[1..], text[1..]))
      || (|body| >= 2 && body[0] == '\\' && body[1] == text[0] && EscapedAs(body[2..], text[1..]))
  }

  ghost predicate InQuotes(s: string, text: string, rest: string) {
    exists w, body :: Blank(w) && EscapedAs(body, text) && s == w + ("\"" + (body + ("\"" + rest)))
  }

  /** s is white space, then the text in quotes, or a word that does not begin with one. */
  ghost predicate QuotedText(s: string, text: string, rest: string) {
    InQuotes(s, text, rest) || (WordText(s, text, rest) && text[0] != '"')
  }

  lemma {:induction false} SkipSpaceIs(s: string) returns (w: string)
    ensures Blank(w) && s == w + SkipSpace(s)
    ensures SkipSpace(s) != "" ==> !IsSpace(SkipSpace(s)[0])
  {
    if s != "" && IsSpace(s[0]) {
      hide Blank;
      var w1 := SkipSpaceIs(s[1..]);
      BlankMore(s[0], w1);
      Regroup([s[0]], w1, SkipSpace(s[1..]));
      FirstAndRest(s);
      w := [s[0]] + w1;
    } else {
      w := "";
    }
  }

  lemma BlankMore(c: char, w: string)
    requires IsSpace(c) && Blank(w)
    ensures Blank([c] + w)
  {
  }

  lemma FirstAndRest(s: string)
    requires s != ""
    ensures s == [s[0]] + s[1..]
  {
  }

  lemma {:induction false} SkipBlank(w: string, t: string)
    requires Blank(w) && (t != "" ==> !IsSpace(t[0]))
    ensures SkipSpace(w + t) == t
  {
    if w == "" {
      assert w + t == t;
    } else {
      assert (w + t)[1..] == w[1..] + t;
      SkipBlank(w[1..], t);
    }
  }

  lemma {:induction false} TakeWordIs(s: string)
    ensures s == TakeWord(s).0 + TakeWord(s).1
    ensures forall i :: 0 <= i < |TakeWord(s).0| ==> !IsSpace(TakeWord(s).0[i])
    ensures TakeWord(s).1 != "" ==> IsSpace(TakeWord(s).1[0])
    ensures s != "" && !IsSpace(s[0]) ==> TakeWord(s).0 != ""
  {
    if s != "" && !IsSpace(s[0]) {
      TakeWordIs(s[1..]);
      FirstAndRest(s);
    }
  }

  lemma WordIs(s: string, word: string, rest: string)
    ensures ReadWord(s) == Some((word, rest)) <==> WordText(s, word, rest)
  {
    if ReadWord(s) == Some((word, rest)) {
      var w := SkipSpaceIs(s);
      TakeWordIs(SkipSpace(s));
    }
    if WordText(s, word, rest) {
      var w :| Blank(w) && s == w + (word + rest);
      assert (word + rest)[0] == word[0];
      SkipBlank(w, word + rest);
      TakeWordExact(word, rest);
    }
  }

  lemma {:induction false} TakeDigitsIs(s: string)
    ensures s == TakeDigits(s).0 + TakeDigits(s).1
    ensures TakeDigits(s).1 != "" ==> !IsDigit(TakeDigits(s).1[0])
  {
    if s != "" && IsDigit(s[0]) {
      TakeDigitsIs(s[1..]);
      FirstAndRest(s);
    }
  }

  lemma NumberIs(s: string, n: nat, rest: string)
    ensures ReadNat(s) == Some((n, rest)) <==> NumberText(s, n, rest)
  {
    if ReadNat(s) == Some((n, rest)) {
      var w := SkipSpaceIs(s);
      TakeDigitsIs(SkipSpace(s));
      assert AllDigits(TakeDigits(SkipSpace(s)).0);
    }
    if NumberText(s, n, rest) {
      var w, d :| Blank(w) && AllDigits(d) && Value(d) == n && s == w + (d + rest);
      assert (d + rest)[0] == d[0];
      SkipBlank(w, d + rest);
      TakeDigitsExact(d, rest);
    }
  }

  /** One more character in front, after a backslash or by itself. */
  lemma EscapedMore(c: char, body: string, text: string)
    requires EscapedAs(body, text)
    ensures EscapedAs(['\\', c] + body, [c] + text)
    ensures c != '"' && c != '\\' ==> EscapedAs([c] + body, [c] + text)
  {
    assert ([c] + text)[1..] == text;
    assert ([c] + body)[1..] == body && (['\\', c] + body)[2..] == body;
  }

  /** What one character read means for the rest. */
  lemma UnescapeFirst(s: string)
    requires Unescape(s).Some? && s[0] != '"'
    ensures var skip := if s[0] == '\\' then 1 else 0;
            && skip < |s| && Unescape(s[skip + 1..]).Some?
            && Unescape(s).value == ([s[skip]] + Unescape(s[skip + 1..]).value.0, Unescape(s[skip + 1..]).value.1)
  {
  }

  lemma {:induction false} UnescapeIs(s: string) returns (body: string)
    requires Unescape(s).Some?
    ensures EscapedAs(body, Unescape(s).value.0) && s == body + ("\"" + Unescape(s).value.1)
    decreases |s|
  {
    if s[0] == '"' {
      body := "";
    } else {
      hide Unescape, EscapedAs;
      UnescapeFirst(s);
      var skip := if s[0] == '\\' then 1 else 0;
      var tail := UnescapeIs(s[skip + 1..]);
      var (text, rest) := Unescape(s[skip + 1..]).value;
      EscapedMore(s[skip], tail, text);
      UnescapedChar(s, skip);
      Regroup(s[..skip + 1], tail, "\"" + rest);
      body := s[..skip + 1] + tail;
    }
  }

  lemma UnescapedChar(s: string, skip: nat)
    requires s != "" && skip < |s| && skip == if s[0] == '\\' then 1 else 0
    ensures s[..skip + 1] == if skip == 1 then ['\\', s[1]] else [s[0]]
    ensures s == s[..skip + 1] + s[skip + 1..]
  {
  }

  lemma {:induction false} EscapedUnescapes(body: string, text: string, rest: string)
    requires EscapedAs(body, text)
    ensures Unescape(body + ("\"" + rest)) == Some((text, rest))
    decreases |text|
  {
    var s := body + ("\"" + rest);
    if text == "" {
      assert s[1..] == rest;
    } else {
      var skip := if body[0] == '\\' then 1 else 0;
      EscapedUnescapes(body[skip + 1..], text[1..], rest);
      assert s[skip + 1..] == body[skip + 1..] + ("\"" + rest);
      assert s[0] == body[0] && s[skip] == text[0];
      assert [text[0]] + text[1..] == text;
    }
  }

  /** What save puts between quotes is the one shortest text that reads back: nothing is escaped
      but quotes and backslashes. */
  lemma {:induction false} EscapeIsShortest(body: string, text: string)
    requires EscapedAs(body, text)
    ensures EscapedAs(Escape(text), text)
    ensures |Escape(text)| < |body| || body == Escape(text)
    decreases |text|
  {
    if text != "" {
      var skip := if body[0] == '\\' then 1 else 0;
      EscapeIsShortest(body[skip + 1..], text[1..]);
      EscapedMore(text[0], Escape(text[1..]), text[1..]);
      assert [text[0]] + text[1..] == text;
      assert body == body[..skip + 1] + body[skip + 1..];
    }
  }

  /** A number is written without leading zeros. */
  lemma {:induction false} NoLeadingZero(n: nat)
    ensures PrintNat(n) != "" && (PrintNat(n)[0] == '0' ==> n == 0)
  {
    if n >= 10 { NoLeadingZero(n / 10); }
  }

  lemma QuotedIs(s: string, text: string, rest: string)
    ensures ReadQuoted(s) == Some((text, rest)) <==> QuotedText(s, text, rest)
  {
    var t := SkipSpace(s);
    var w := SkipSpaceIs(s);
    if t != "" && t[0] == '"' {
      if ReadQuoted(s) == Some((text, rest)) {
        var body := UnescapeIs(t[1..]);
        assert t == "\"" + (body + ("\"" + rest));
      }
      QuoteIsNoWord(s, w, t, text, rest);
    } else {
      WordIs(t, text, rest);
      SameWord(s, w, t, text, rest);
    }
    if InQuotes(s, text, rest) {
      var v, body :| Blank(v) && EscapedAs(body, text) && s == v + ("\"" + (body + ("\"" + rest)));
      SkipBlank(v, "\"" + (body + ("\"" + rest)));
      assert t[1..] == body + ("\"" + rest);
      EscapedUnescapes(body, text, rest);
    }
  }

  lemma QuoteIsNoWord(s: string, w: string, t: string, text: string, rest: string)
    requires Blank(w) && s == w + t && t != "" && t[0] == '"'
    ensures WordText(s, text, rest) ==> text[0] == '"'
  {
    if WordText(s, text, rest) {
      var v :| Blank(v) && s == v + (text + rest);
      assert (text + rest)[0] == text[0];
      SkipBlank(v, text + rest);
      SkipBlank(w, t);
    }
  }

  lemma SameWord(s: string, w: string, t: string, text: string, rest: string)
    requires Blank(w) && s == w + t && t == SkipSpace(s) && (t != "" ==> !IsSpace(t[0]) && t[0] != '"')
    ensures WordText(s, text, rest) <==> WordText(t, text, rest)
    ensures WordText(s, text, rest) ==> text[0] != '"'
  {
    if WordText(s, text, rest) {
      var v :| Blank(v) && s == v + (text + rest);
      assert (text + rest)[0] == text[0];
      SkipBlank(v, text + rest);
      assert t == "" + (text + rest);
    }
    if WordText(t, text, rest) {
      var v :| Blank(v) && t == v + (text + rest);
      assert (text + rest)[0] == text[0];
      SkipBlank(v, text + rest);
      SkipBlank("", t);
      assert "" + t == t;
      assert s == w + (text + rest);
    }
  }

  // ----- the parts of the file -----

  /** A label, and the number it is for. */
  ghost predicate FieldText(s: string, name: string, n: nat, rest: string) {
    exists mid :: WordText(s, name, mid) && NumberText(mid, n, rest)
  }

  /** The flag 0, or the flag 1 and the name of the candidate. */
  ghost predicate VoteText(s: string, vote: Option<NodeId>, rest: string) {
    match vote
    case None => FieldText(s, "voted_for", 0, rest)
    case Some(id) => exists mid :: FieldText(s, "voted_for", 1, mid) && QuotedText(mid, id, rest)
  }

  ghost predicate EntryText(s: string, e: LogEntry, rest: string) {
    exists mid :: FieldText(s, "entry", e.term, mid) && QuotedText(mid, e.command, rest)
  }

  ghost predicate EntriesText(s: string, log: seq<LogEntry>, rest: string) {
    if log == [] then rest == s
    else
      var front, last := log[..|log| - 1], log[|log| - 1];
      exists mid :: EntriesText(s, front, mid) && EntryText(mid, last, rest)
  }

  /** The fields in their order, as many entries as the count says, and anything after that. */
  ghost predicate FieldsText(s0: string, p: PersistentState, s1: string, s2: string, s3: string, s4: string,
                             s5: string)
  {
    && FieldText(s0, "current_term", p.currentTerm, s1)
    && VoteText(s1, p.votedFor, s2)
    && FieldText(s2, "commit_index", p.commitIndex, s3)
    && FieldText(s3, "log_count", |p.log|, s4)
    && EntriesText(s4, p.log, s5)
  }

  /** The text is a state file that holds p: the format on a line of its own, then the fields. */
  ghost predicate FileText(text: string, p: PersistentState) {
    exists s0, s1, s2, s3, s4, s5 :: text == FORMAT + ("\n" + s0) && FieldsText(s0, p, s1, s2, s3, s4, s5)
  }

  lemma FieldIs(s: string, name: string, n: nat, rest: string)
    ensures ReadField(s, name) == Some((n, rest)) <==> FieldText(s, name, n, rest)
  {
    hide ReadWord, ReadNat, WordText, NumberText;
    if ReadField(s, name) == Some((n, rest)) {
      var (word, mid) := ReadWord(s).value;
      WordIs(s, word, mid);
      NumberIs(mid, n, rest);
    }
    if FieldText(s, name, n, rest) {
      var mid :| WordText(s, name, mid) && NumberText(mid, n, rest);
      WordIs(s, name, mid);
      NumberIs(mid, n, rest);
    }
  }

  lemma VoteIs(s: string, vote: Option<NodeId>, rest: string)
    ensures ReadVote(s) == Some((vote, rest)) <==> VoteText(s, vote, rest)
  {
    hide ReadField, ReadQuoted, FieldText, QuotedText;
    if ReadVote(s) == Some((vote, rest)) {
      var (flag, mid) := ReadField(s, "voted_for").value;
      FieldIs(s, "voted_for", flag, mid);
      if vote.Some? { QuotedIs(mid, vote.value, rest); }
    }
    if VoteText(s, vote, rest) {
      match vote
      case None => FieldIs(s, "voted_for", 0, rest);
      case Some(id) =>
        var mid :| FieldText(s, "voted_for", 1, mid) && QuotedText(mid, id, rest);
        FieldIs(s, "voted_for", 1, mid);
        QuotedIs(mid, id, rest);
    }
  }

  lemma EntryIs(s: string, e: LogEntry, rest: string)
    ensures ReadEntry(s) == Some((e, rest)) <==> EntryText(s, e, rest)
  {
    hide ReadField, ReadQuoted, FieldText, QuotedText;
    if ReadEntry(s) == Some((e, rest)) {
      var (term, mid) := ReadField(s, "entry").value;
      FieldIs(s, "entry", term, mid);
      QuotedIs(mid, e.command, rest);
    }
    if EntryText(s, e, rest) {
      var mid :| FieldText(s, "entry", e.term, mid) && QuotedText(mid, e.command, rest);
      FieldIs(s, "entry", e.term, mid);
      QuotedIs(mid, e.command, rest);
    }
  }

  lemma {:induction false} EntriesAre(s: string, count: nat, log: seq<LogEntry>, rest: string)
    ensures ReadEntries(s, count) == Some((log, rest)) <==> |log| == count && EntriesText(s, log, rest)
  {
    hide ReadEntry, EntryText;
    if 0 < count {
      if ReadEntries(s, count) == Some((log, rest)) {
        var (front, mid) := ReadEntries(s, count - 1).value;
        EntriesAre(s, count - 1, front, mid);
        var (last, rest1) := ReadEntry(mid).value;
        EntryIs(mid, last, rest);
        assert log == front + [last] && log[..|log| - 1] == front;
      }
      if |log| == count && EntriesText(s, log, rest) {
        var front, last := log[..|log| - 1], log[|log| - 1];
        var mid :| EntriesText(s, front, mid) && EntryText(mid, last, rest);
        EntriesAre(s, count - 1, front, mid);
        EntryIs(mid, last, rest);
        assert log == front + [last];
      }
    }
  }

  lemma {:induction false} LineIs(s: string, line: string) returns (rest: string)
    requires ReadLine(s).Some? && ReadLine(s).value.0 == line
    ensures ReadLine(s) == Some((line, rest))
    ensures s == line + ("\n" + rest) || (s == line && rest == "")
  {
    rest := ReadLine(s).value.1;
    if s[0] != '\n' && |s| != 1 {
      var tail := LineIs(s[1..], ReadLine(s[1..]).value.0);
      assert s == [s[0]] + s[1..];
    }
  }

  lemma NothingRead(name: string)
    ensures ReadField("", name) == None
  {
  }

  /** The text reads as a state exactly if it is a state file that holds it. */
  lemma StateIs(text: string, p: PersistentState)
    ensures ReadState(text) == Some(p) <==> FileText(text, p)
  {
    hide ReadField, ReadVote, ReadEntries, FieldText, VoteText, EntriesText, ReadLine;
    if ReadState(text) == Some(p) {
      var s0 := LineIs(text, FORMAT);
      NothingRead("current_term");
      var (term, s1) := ReadField(s0, "current_term").value;
      var (vote, s2) := ReadVote(s1).value;
      var (commit, s3) := ReadField(s2, "commit_index").value;
      var (count, s4) := ReadField(s3, "log_count").value;
      var (log, s5) := ReadEntries(s4, count).value;
      FieldIs(s0, "current_term", term, s1);
      VoteIs(s1, vote, s2);
      FieldIs(s2, "commit_index", commit, s3);
      FieldIs(s3, "log_count", count, s4);
      EntriesAre(s4, count, log, s5);
      assert FieldsText(s0, p, s1, s2, s3, s4, s5);
    }
    if FileText(text, p) {
      var s0, s1, s2, s3, s4, s5 :| text == FORMAT + ("\n" + s0) && FieldsText(s0, p, s1, s2, s3, s4, s5);
      assert text == FORMAT + "\n" + s0;
      LineReadsBack(FORMAT, s0);
      FieldIs(s0, "current_term", p.currentTerm, s1);
      VoteIs(s1, p.votedFor, s2);
      FieldIs(s2, "commit_index", p.commitIndex, s3);
      FieldIs(s3, "log_count", |p.log|, s4);
      EntriesAre(s4, |p.log|, p.log, s5);
    }
  }

  /** load returns p exactly if the text is a state file that holds p and p is a state save would
      write. A file that holds no state is unreadable; one that holds another is invalid. */
  lemma LoadsExactly(text: string, p: PersistentState)
    ensures Parse(text) == Returned(p) <==> FileText(text, p) && StateOk(p)
    ensures FileText(text, p) && !StateOk(p) ==> Parse(text) == Threw(InvalidArgument)
    ensures Parse(text) == Threw(RuntimeError) ==> !FileText(text, p)
    ensures Parse(text).Threw? && Parse(text).fault != RuntimeError ==>
              Parse(text).fault == InvalidArgument && exists q :: FileText(text, q) && !StateOk(q)
  {
    hide ReadState, FileText, StateOk, ValidateState;
    StateIs(text, p);
    ValidateMeansOk(p);
    if ReadState(text).Some? {
      var q := ReadState(text).value;
      StateIs(text, q);
      ValidateMeansOk(q);
    }
  }
}
