/**
 The login counter file: a text list of names and counts, rewritten on every admitted attempt. It counts
 attempts, successful or not, and is never reset.
 */
module Lockout {
  import opened Wrappers
  import opened Sequences
  import opened Text

  const LOCKOUT_ATTEMPTS := 3

  datatype Entry = Entry(name: string, count: int)

  // ---------- One call, on the list ----------

  /** Whether the reader loop meets an entry of `name` that has used up its attempts. */
  predicate Exhausted(es: seq<Entry>, name: string) {
    exists i | 0 <= i < |es| :: es[i].name == name && es[i].count >= LOCKOUT_ATTEMPTS
  }

  predicate Has(es: seq<Entry>, name: string) {
    exists i | 0 <= i < |es| :: es[i].name == name
  }

  function BumpOne(e: Entry, name: string): Entry {
    if e.name == name then Entry(name, e.count + 1) else e
  }

  /** Every entry of `name` counted up by one. */
  function Bump(es: seq<Entry>, name: string): seq<Entry> {
    seq(|es|, i requires 0 <= i < |es| => BumpOne(es[i], name))
  }

  /** One call: the new entries, and whether the attempt is admitted. */
  function Attempt(es: seq<Entry>, name: string): (seq<Entry>, bool) {
    if Exhausted(es, name) then (es, false)
    else if Has(es, name) then (Bump(es, name), true)
    else (es + [Entry(name, 1)], true)
  }

  /**
   What one login leaves to the next. An empty name, which the server takes from a login it cannot read, is
   let through, and the line that is written for it is not read back as an entry.
   */
  function Login(es: seq<Entry>, name: string): (seq<Entry>, bool) {
    if name == "" then (es, true) else Attempt(es, name)
  }

  // ---------- A counter per name ----------

  predicate Distinct(es: seq<Entry>) {
    forall i, j | 0 <= i < j < |es| :: es[i].name != es[j].name
  }

  /** The count stored for `name`, zero if there is none. */
  function Stored(es: seq<Entry>, name: string): int {
    if es == [] then 0 else if es[0].name == name then es[0].count else Stored(es[1..], name)
  }

  lemma {:induction false} StoredAt(es: seq<Entry>, i: nat)
    requires Distinct(es) && i < |es|
    ensures Stored(es, es[i].name) == es[i].count
  {
    if i > 0 {
      StoredAt(es[1..], i - 1);
    }
  }

  lemma {:induction false} StoredNone(es: seq<Entry>, name: string)
    requires !Has(es, name)
    ensures Stored(es, name) == 0
  {
    if es != [] {
      StoredNone(es[1..], name);
    }
  }

  /** Counts are looked up by position where the name is listed, and are zero elsewhere. */
  lemma StoredCases(es: seq<Entry>, name: string)
    requires Distinct(es)
    ensures Has(es, name) ==> exists i | 0 <= i < |es| :: es[i].name == name && es[i].count == Stored(es, name)
    ensures !Has(es, name) ==> Stored(es, name) == 0
    ensures Exhausted(es, name) <==> Stored(es, name) >= LOCKOUT_ATTEMPTS
  {
    if Has(es, name) {
      var i :| 0 <= i < |es| && es[i].name == name;
      StoredAt(es, i);
      assert forall j | 0 <= j < |es| && es[j].name == name :: j == i;
    } else {
      StoredNone(es, name);
    }
  }

  lemma {:induction false} StoredAfterBump(es: seq<Entry>, name: string, other: string)
    ensures Stored(Bump(es, name), other) == Stored(es, other) + (if other == name && Has(es, name) then 1 else 0)
  {
    if es != [] {
      assert Bump(es, name)[1..] == Bump(es[1..], name);
      assert Has(es, name) <==> es[0].name == name || Has(es[1..], name);
      StoredAfterBump(es[1..], name, other);
    }
  }

  lemma {:induction false} StoredAfterAppend(es: seq<Entry>, e: Entry, other: string)
    ensures Stored(es + [e], other) ==
            if Has(es, other) then Stored(es, other) else if e.name == other then e.count else 0
  {
    if es != [] {
      assert (es + [e])[1..] == es[1..] + [e];
      assert Has(es, other) <==> es[0].name == other || Has(es[1..], other);
      StoredAfterAppend(es[1..], e, other);
    }
  }

  /**
   One call is one step of a counter per name: admitted below three, then one more for that name; every
   other name keeps its count, the listed names keep their places, and a refusal changes nothing.
   */
  lemma AttemptCounts(es: seq<Entry>, name: string, other: string)
    requires Distinct(es)
    ensures var (es', admitted) := Attempt(es, name);
      && Distinct(es')
      && (admitted <==> Stored(es, name) < 3)
      && (!admitted ==> es' == es)
      && Stored(es', other) == Stored(es, other) + (if admitted && other == name then 1 else 0)
      && |es'| >= |es| && (forall i | 0 <= i < |es| :: es'[i].name == es[i].name)
  {
    StoredCases(es, name);
    StoredCases(es, other);
    StoredAfterBump(es, name, other);
    StoredAfterAppend(es, Entry(name, 1), other);
  }

  // ---------- Any sequence of calls ----------

  function Occurrences(names: seq<string>, name: string): nat {
    if names == [] then 0
    else Occurrences(names[..|names| - 1], name) + if names[|names| - 1] == name then 1 else 0
  }

  /** The entries after calls for `names`, in that order, from no file. */
  function AfterCalls(names: seq<string>): seq<Entry> {
    if names == [] then [] else Attempt(AfterCalls(names[..|names| - 1]), names[|names| - 1]).0
  }

  /** The names in the order of their first call. */
  function FirstCalls(names: seq<string>): seq<string> {
    if names == [] then []
    else
      var before := FirstCalls(names[..|names| - 1]);
      var last := names[|names| - 1];
      if last in before then before else before + [last]
  }

  /**
   After any calls for any names the file lists each called name once, in the order of first calls, with
   the number of its calls, but never more than three.
   */
  lemma {:induction false} CountsAreCalls(names: seq<string>, name: string)
    ensures var es := AfterCalls(names);
      && Distinct(es)
      && Stored(es, name) == (if Occurrences(names, name) < 3 then Occurrences(names, name) else 3)
      && |es| == |FirstCalls(names)|
      && (forall i | 0 <= i < |es| :: es[i].name == FirstCalls(names)[i])
  {
    if names != [] {
      var before, last := names[..|names| - 1], names[|names| - 1];
      CountsAreCalls(before, name);
      CountsAreCalls(before, last);
      AttemptCounts(AfterCalls(before), last, name);
      var es := AfterCalls(before);
      assert Has(es, last) <==> last in FirstCalls(before);
      StoredCases(es, last);
    }
  }

  /** A call is admitted exactly if fewer than three earlier calls were for that name. */
  lemma AdmittedBelowThree(names: seq<string>, name: string)
    ensures Attempt(AfterCalls(names), name).1 <==> Occurrences(names, name) < 3
  {
    CountsAreCalls(names, name);
    AttemptCounts(AfterCalls(names), name, name);
  }

  // ---------- The file ----------

  function Line(e: Entry): string {
    e.name + " " + ToString(e.count) + "\n"
  }

  function Print(es: seq<Entry>): string {
    if es == [] then "" else Print(es[..|es| - 1]) + Line(es[|es| - 1])
  }

  /** What the reader loop takes from `text`: pairs of tokens, until one is missing. */
  function Parse(text: string): seq<Entry>
    decreases |text|
  {
    var (name, rest) := NextToken(text);
    if name == "" then []
    else
      var (count, rest') := NextToken(rest);
      if count == "" then [] else [Entry(name, Atoi(count))] + Parse(rest')
  }

  predicate Wellformed(es: seq<Entry>) {
    forall i | 0 <= i < |es| :: IsToken(es[i].name)
  }

  lemma {:induction false} ParsedNamesAreTokens(text: string)
    ensures Wellformed(Parse(text))
    decreases |text|
  {
    var (name, rest) := NextToken(text);
    if name != "" {
      var (count, rest') := NextToken(rest);
      if count != "" {
        ParsedNamesAreTokens(rest');
      }
    }
  }

  lemma {:induction false} PrintFront(e: Entry, es: seq<Entry>)
    ensures Print([e] + es) == Line(e) + Print(es)
  {
    if es == [] {
      assert ([e] + es)[..0] == [];
      assert [e] + es == [e];
    } else {
      var init, last := es[..|es| - 1], es[|es| - 1];
      assert ([e] + es)[..|es|] == [e] + init;
      PrintFront(e, init);
      Regroup3(Line(e), Print(init), Line(last));
    }
  }

  /** One turn of the reader. */
  lemma ParseTakes(text: string, name: string, rest: string, count: string, rest': string)
    requires NextToken(text) == (name, rest) && NextToken(rest) == (count, rest')
    ensures Parse(text) == if name == "" || count == "" then [] else [Entry(name, Atoi(count))] + Parse(rest')
  {
  }

  /** The reader sees a text only through its next token. */
  lemma ParseSkips(text: string, text': string)
    requires NextToken(text) == NextToken(text')
    ensures Parse(text) == Parse(text')
  {
  }

  lemma LineText(e: Entry, more: string)
    ensures Line(e) + more == e.name + (" " + (ToString(e.count) + ("\n" + more)))
  {
    Regroup5(e.name, " ", ToString(e.count), "\n", more);
  }

  /** The two tokens of a line, and what follows it. */
  lemma LineTokens(name: string, count: string, more: string)
    requires IsToken(name) && IsToken(count)
    ensures NextToken(name + (" " + (count + ("\n" + more)))) == (name, " " + (count + ("\n" + more)))
    ensures NextToken(" " + (count + ("\n" + more))) == (count, "\n" + more)
    ensures NextToken("\n" + more) == NextToken(more)
  {
    NextTokenExact(name, " " + (count + ("\n" + more)));
    NextTokenSkips(' ', count + ("\n" + more));
    NextTokenExact(count, "\n" + more);
    NextTokenSkips('\n', more);
  }

  /** One line is read back as the entry it was written from. */
  lemma ParseLine(e: Entry, more: string)
    requires IsToken(e.name)
    ensures Parse(Line(e) + more) == [e] + Parse(more)
  {
    var count := ToString(e.count);
    var rest := " " + (count + ("\n" + more));
    AtoiToString(e.count);
    ToStringIsToken(e.count);
    LineText(e, more);
    LineTokens(e.name, count, more);
    ParseTakes(e.name + rest, e.name, rest, count, "\n" + more);
    ParseSkips("\n" + more, more);
  }

  /** What an entry looks like in the file, and what is read of it. */
  lemma EntryInFile(es: seq<Entry>, e: Entry, more: string)
    requires IsToken(e.name)
    ensures Print([]) == "" && Print(es + [e]) == Print(es) + (e.name + " " + ToString(e.count) + "\n")
    ensures Parse("") == [] && Parse((e.name + " " + ToString(e.count) + "\n") + more) == [e] + Parse(more)
  {
    PrintAppend(es, e);
    ParseLine(e, more);
    assert NextToken("").0 == "";
  }

  lemma FirstAndRest(es: seq<Entry>)
    requires es != []
    ensures [es[0]] + es[1..] == es
  {
  }

  /** A list that was written is read back, whatever was written after it. */
  lemma {:induction false} ListThenRest(es: seq<Entry>, more: string)
    requires Wellformed(es)
    ensures Parse(Print(es) + more) == es + Parse(more)
  {
    if es == [] {
      assert Print(es) + more == more;
    } else {
      var first, rest := es[0], es[1..];
      FirstAndRest(es);
      PrintFront(first, rest);
      Regroup3(Line(first), Print(rest), more);
      ParseLine(first, Print(rest) + more);
      ListThenRest(rest, more);
      Regroup([first], rest, Parse(more));
    }
  }

  /** The line of an empty name holds one token only, so no entry. */
  lemma NamelessLine()
    ensures Parse(Line(Entry("", 1))) == []
  {
    assert Line(Entry("", 1)) == [' '] + ("1" + "\n") by {
      assert ToString(1) == "1";
    }
    NextTokenSkips(' ', "1" + "\n");
    NextTokenExact("1", "\n");
    assert ['\n'] + "" == "\n";
    NextTokenSkips('\n', "");
    ParseTakes(Line(Entry("", 1)), "1", "\n", "", NextToken("\n").1);
  }

  /** The file after an empty name, read back. */
  lemma NamelessIsForgotten(es: seq<Entry>)
    requires Wellformed(es)
    ensures Attempt(es, "") == (es + [Entry("", 1)], true)
    ensures Parse(Print(es + [Entry("", 1)])) == es
  {
    NamelessLine();
    ListThenRest(es, Line(Entry("", 1)));
    assert (es + [Entry("", 1)])[..|es|] == es;
    assert es + [] == es;
  }

  /** The list read back is the list that was written. */
  lemma ListRoundTrip(es: seq<Entry>)
    requires Wellformed(es)
    ensures Parse(Print(es)) == es
  {
    ListThenRest(es, "");
    assert Print(es) + "" == Print(es) && es + [] == es;
    assert NextToken("").0 == "";
  }

  lemma PrintAppend(es: seq<Entry>, e: Entry)
    ensures Print(es + [e]) == Print(es) + Line(e)
  {
    assert (es + [e])[..|es|] == es;
  }

  lemma HasAppend(es: seq<Entry>, e: Entry, name: string)
    ensures Has(es + [e], name) <==> Has(es, name) || e.name == name
  {
    assert (es + [e])[|es|] == e;
    assert forall i | 0 <= i < |es| :: (es + [e])[i] == es[i];
  }

  lemma TakeOne(es: seq<Entry>, i: nat)
    requires i < |es|
    ensures es[..i + 1] == es[..i] + [es[i]]
  {
  }

  /** What the writer loop adds for one entry. */
  lemma OneMore(es: seq<Entry>, i: nat, name: string)
    requires i < |es|
    ensures Print(es[..i + 1]) == Print(es[..i]) + Line(es[i])
    ensures Has(es[..i + 1], name) <==> Has(es[..i], name) || es[i].name == name
  {
    TakeOne(es, i);
    PrintAppend(es[..i], es[i]);
    HasAppend(es[..i], es[i], name);
  }

  /** What the reader loop knows of the list after one more entry. */
  lemma OneEntryRead(all: seq<Entry>, taken: seq<Entry>, e: Entry, rest: seq<Entry>, name: string)
    requires all == taken + ([e] + rest) && !Exhausted(taken, name)
    ensures all == (taken + [e]) + rest
    ensures Bump(taken + [e], name) == Bump(taken, name) + [BumpOne(e, name)]
    ensures Exhausted(taken + [e], name) <==> e.name == name && e.count >= LOCKOUT_ATTEMPTS
    ensures e.name == name && e.count >= LOCKOUT_ATTEMPTS ==> Exhausted(all, name)
  {
    assert all[|taken|] == e && (taken + [e])[|taken|] == e;
    assert forall i | 0 <= i < |taken| :: (taken + [e])[i] == taken[i];
  }

  /** What the reader and the writer loop leave of an unexhausted list is what the call is to leave. */
  lemma RewriteIsAttempt(es: seq<Entry>, name: string)
    requires !Exhausted(es, name)
    ensures var lib := Bump(es, name);
      Attempt(es, name) == (if Has(lib, name) then lib else lib + [Entry(name, 1)], true)
    ensures Wellformed(es) && IsToken(name) ==> Wellformed(Attempt(es, name).0)
  {
    var lib := Bump(es, name);
    assert forall i | 0 <= i < |es| :: lib[i].name == es[i].name;
    if !Has(es, name) {
      assert lib == es;
    }
  }

  /** The reader loop: counts up the entry of `name`; stops short if that entry is used up. */
  method ReadEntries(text: string, name: string) returns (lib: seq<Entry>, refused: bool)
    ensures refused <==> Exhausted(Parse(text), name)
    ensures !refused ==> lib == Bump(Parse(text), name)
  {
    lib := [];
    var rest := text;
    ghost var all, taken: seq<Entry> := Parse(text), [];
    while true
      invariant all == Parse(text) && all == taken + Parse(rest)
      invariant !Exhausted(taken, name) && lib == Bump(taken, name)
      decreases |rest|
    {
      var (account, afterName) := NextToken(rest);
      var (lockNumStr, afterCount) := NextToken(afterName);
      ParseTakes(rest, account, afterName, lockNumStr, afterCount);
      if account == "" || lockNumStr == "" {
        break;
      }
      var lockNum := Atoi(lockNumStr);
      ghost var e := Entry(account, lockNum);
      OneEntryRead(all, taken, e, Parse(afterCount), name);
      if name == account {
        if lockNum >= LOCKOUT_ATTEMPTS {
          return lib, true;
        }
        lockNum := lockNum + 1;
      }
      assert Entry(account, lockNum) == BumpOne(e, name);
      lib := lib + [Entry(account, lockNum)];
      taken := taken + [e];
      assert lib == Bump(taken, name);
      rest := afterCount;
    }
    assert taken + [] == taken;
    refused := false;
  }

  /** The counter file: absent, or its text. */
  class LockoutFile {
    var text: Option<string>

    function Entries(): seq<Entry>
      reads this
    {
      if text.None? then [] else Parse(text.value)
    }

    constructor ()
      ensures text == None
    {
      text := None;
    }

    method ReadList(name: string) returns (lib: seq<Entry>, refused: bool)
      requires text.Some?
      ensures refused <==> Exhausted(Entries(), name)
      ensures !refused ==> lib == Bump(Entries(), name)
    {
      lib, refused := ReadEntries(text.value, name);
    }

    /** Writes the list out, with a first entry for `name` at its end if it has none. */
    method WriteList(lib: seq<Entry>, name: string)
      modifies this
      ensures text == Some(Print(if Has(lib, name) then lib else lib + [Entry(name, 1)]))
    {
      text := Some("");
      var foundAccount := false;
      for i := 0 to |lib|
        invariant text == Some(Print(lib[..i]))
        invariant foundAccount <==> Has(lib[..i], name)
      {
        if lib[i].name == name {
          foundAccount := true;
        }
        OneMore(lib, i, name);
        text := Some(text.value + (lib[i].name + " " + ToString(lib[i].count) + "\n"));
      }
      assert lib[..|lib|] == lib;
      if !foundAccount {
        PrintAppend(lib, Entry(name, 1));
        text := Some(text.value + (name + " " + ToString(1) + "\n"));
      }
    }

    /**
     One attempt on the list that the file holds. The new text reads back as the new list if the name is a
     token, and as the old list if the name is empty; a name with a space in it would be taken apart.
     */
    method IsAccountUnlocked(name: string) returns (r: bool)
      modifies this
      ensures var (es, admitted) := Attempt(old(Entries()), name);
        && r == admitted && text == (if r then Some(Print(es)) else old(text))
        && (name == "" || IsToken(name) ==> (Entries(), r) == Login(old(Entries()), name))
    {
      var lib: seq<Entry> := [];
      assert text.None? ==> Entries() == Bump(Entries(), name);
      if text.Some? {
        var refused;
        lib, refused := ReadList(name);
        ParsedNamesAreTokens(text.value);
        if refused {
          return false;
        }
      }
      RewriteIsAttempt(Entries(), name);
      WriteList(lib, name);
      if name == "" {
        NamelessIsForgotten(old(Entries()));
      } else if IsToken(name) {
        ListRoundTrip(Attempt(old(Entries()), name).0);
      }
      return true;
    }

    /** The same for the name of a login, as it reads back. */
    method CountLogin(name: string) returns (r: bool)
      requires name == "" || IsToken(name)
      modifies this
      ensures (Entries(), r) == Login(old(Entries()), name)
    {
      r := IsAccountUnlocked(name);
    }
  }
}
