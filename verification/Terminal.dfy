/** The operator's terminal: deposits and inquiries straight on the account files, and the reading of account names. */
module Terminal {
  import opened Wrappers
  import opened Sequences
  import opened Text
  import opened Account
  import Commands
  import opened System
  import Calls
  import L = Ledger

  // ---------- Account names ----------

  /** The account a file of the directory belongs to: word characters, then ".act". */
  function AccountOf(fileName: string): Option<string> {
    var k := |fileName| - 4;
    if k > 0 && fileName[k..] == ".act" && AllWord(fileName[..k]) then Some(fileName[..k]) else None
  }

  lemma OneFilePerAccount(a: string, b: string)
    requires AccountOf(a).Some? && AccountOf(a) == AccountOf(b)
    ensures a == b
  {
    assert a == AccountOf(a).value + ".act" && b == AccountOf(b).value + ".act";
  }

  /** A file is an account's exactly if it is called by the account's name, a word, and ".act". */
  lemma AccountFileSyntax(fileName: string, n: string)
    ensures AccountOf(fileName) == Some(n) <==> fileName == n + ".act" && n != "" && AllWord(n)
  {
    var k := |fileName| - 4;
    if k > 0 {
      assert fileName == fileName[..k] + fileName[k..];
    }
    if fileName == n + ".act" {
      assert fileName[..k] == n && fileName[k..] == ".act";
    }
  }

  /** The account names of a directory, in its order. No two are equal, as no two files have one name. */
  method GetAccountNames(entries: seq<string>) returns (accounts: seq<string>)
    requires forall i, j | 0 <= i < j < |entries| :: entries[i] != entries[j]
    ensures forall n :: n in accounts <==> exists e | e in entries :: AccountOf(e) == Some(n)
    ensures forall i, j | 0 <= i < j < |accounts| :: accounts[i] != accounts[j]
  {
    accounts := [];
    for i := 0 to |entries|
      invariant forall n | n in accounts :: exists k | 0 <= k < i :: AccountOf(entries[k]) == Some(n)
      invariant forall k | 0 <= k < i && AccountOf(entries[k]).Some? :: AccountOf(entries[k]).value in accounts
      invariant forall j, k | 0 <= j < k < |accounts| :: accounts[j] != accounts[k]
    {
      var name := AccountOf(entries[i]);
      if name.Some? {
        forall k | 0 <= k < i ensures AccountOf(entries[k]) != name {
          if AccountOf(entries[k]) == name {
            OneFilePerAccount(entries[k], entries[i]);
          }
        }
        accounts := accounts + [name.value];
      }
    }
  }

  // ---------- The operator's deposit ----------

  /** The text the terminal writes: the first token as it is, the second as a number, increased. */
  function Redeposited(text: string, amount: int): string {
    NextToken(text).0 + " " + ToString(ParseFile(text).balance + amount) + "\n"
  }

  /**
   The rewritten file has the same PIN and the balance increased by the amount, exactly if the file had a
   first token at all or nothing is deposited; if it had none, the amount is read back as the PIN.
   */
  lemma RedepositedFile(text: string, amount: int)
    ensures ParseFile(Redeposited(text, amount)) == L.File(ParseFile(text).pin, ParseFile(text).balance + amount)
            <==> NextToken(text).0 != "" || amount == 0
    ensures NextToken(text).0 != "" ==> NextToken(Redeposited(text, amount)).0 == NextToken(text).0
    ensures NextToken(text).0 == "" ==> ParseFile(Redeposited(text, amount)) == L.File(amount, 0)
  {
    var pin, balance := NextToken(text).0, ParseFile(text).balance + amount;
    AtoiToString(balance);
    if pin != "" {
      TwoTokens(pin, ToString(balance));
    } else {
      NoTokens(text);
      OneToken(ToString(balance));
    }
  }

  /** A lone token after a blank is read as the PIN, the balance as zero. */
  lemma OneToken(tok: string)
    requires IsToken(tok)
    ensures ParseFile("" + " " + tok + "\n") == L.File(Atoi(tok), 0)
  {
    assert "" + " " + tok + "\n" == [' '] + (tok + "\n");
    NextTokenSkips(' ', tok + "\n");
    NextTokenExact(tok, "\n");
    assert ['\n'] + "" == "\n";
    NextTokenSkips('\n', "");
  }

  /** A text without a first token has no second one either: it reads as zeros. */
  lemma NoTokens(text: string)
    requires NextToken(text).0 == ""
    ensures ParseFile(text) == L.File(0, 0)
  {
    SkipSpacesStops(text);
    assert SkipSpaces(text) == "";
  }

  lemma SkipSpacesStops(s: string)
    ensures SkipSpaces(s) == "" || !IsSpace(SkipSpaces(s)[0])
  {
  }

  datatype TerminalCommand = DepositTo(name: string, amount: string) | BalanceOf(name: string)

  function ParseTerminal(command: string): Option<TerminalCommand> {
    if Commands.StartsWith(command, "deposit ") then
      var rest := command[8..];
      var k := Commands.Before(rest, ' ');
      if k < |rest| && Commands.IsName(rest[..k]) && Commands.IsAmount(rest[k + 1..])
      then Some(DepositTo(rest[..k], rest[k + 1..])) else None
    else if Commands.StartsWith(command, "balance ") && Commands.IsName(command[8..]) then Some(BalanceOf(command[8..]))
    else None
  }

  /** The account files after one terminal line. */
  function AfterLine(files: map<string, string>, command: string): map<string, string> {
    match ParseTerminal(command)
    case Some(DepositTo(name, amount)) =>
      if name in files then files[name := Redeposited(files[name], Atoi(amount))] else files
    case _ => files
  }

  /** What the terminal shows for one line: the balance as it stands in the file. */
  function Shown(files: map<string, string>, command: string): seq<string> {
    match ParseTerminal(command)
    case Some(BalanceOf(name)) => if name in files then [NextToken(NextToken(files[name]).1).0] else []
    case _ => []
  }

  /** The files after the lines up to "exit", and what was shown. */
  function TerminalRun(files: map<string, string>, commands: seq<string>): (map<string, string>, seq<string>)
    decreases |commands|
  {
    if commands == [] || commands[0] == "exit" then (files, [])
    else
      var (after, shown) := TerminalRun(AfterLine(files, commands[0]), commands[1..]);
      (after, Shown(files, commands[0]) + shown)
  }

  /** One line of the terminal. */
  method Obey(store: Store, command: string) returns (shown: seq<string>)
    modifies store
    ensures store.files == AfterLine(old(store.files), command) && shown == Shown(old(store.files), command)
    ensures store.locks == old(store.locks)
  {
    shown := [];
    match ParseTerminal(command) {
      case None =>
      case Some(DepositTo(act, amountStr)) =>
        if act in store.files {
          var (pin, afterPin) := NextToken(store.files[act]);
          var oldBalance := Atoi(NextToken(afterPin).0);
          store.files := store.files[act := pin + " " + ToString(oldBalance + Atoi(amountStr)) + "\n"];
        }
      case Some(BalanceOf(act)) =>
        if act in store.files {
          shown := [NextToken(NextToken(store.files[act]).1).0];
        }
    }
  }

  /** The terminal loop; the locks are neither looked at nor touched. */
  method StartTerminal(store: Store, commands: seq<string>) returns (shown: seq<string>)
    modifies store
    ensures (store.files, shown) == TerminalRun(old(store.files), commands)
    ensures store.locks == old(store.locks)
  {
    shown := [];
    var i := 0;
    assert commands[0..] == commands;
    while i < |commands| && commands[i] != "exit"
      invariant 0 <= i <= |commands| && store.locks == old(store.locks)
      invariant TerminalRun(old(store.files), commands).0 == TerminalRun(store.files, commands[i..]).0
      invariant TerminalRun(old(store.files), commands).1 == shown + TerminalRun(store.files, commands[i..]).1
    {
      ghost var files := store.files;
      assert commands[i..][0] == commands[i] && commands[i..][1..] == commands[i + 1..];
      var line := Obey(store, commands[i]);
      Regroup(shown, line, TerminalRun(store.files, commands[i + 1..]).1);
      shown := shown + line;
      i := i + 1;
    }
    assert TerminalRun(store.files, commands[i..]) == (store.files, []);
    assert shown + [] == shown;
  }

  lemma DepositLine(name: string, amount: string)
    requires Commands.IsName(name) && Commands.IsAmount(amount)
    ensures ParseTerminal("deposit " + (name + [' '] + amount)) == Some(DepositTo(name, amount))
  {
    var rest := name + [' '] + amount;
    assert ("deposit " + rest)[8..] == rest && ("deposit " + rest)[..8] == "deposit ";
    assert ' ' !in name;
    Commands.BeforeExact(name, ' ', amount);
    assert rest[..|name|] == name && rest[|name| + 1..] == amount;
  }

  /** Every file has a first token, as account files that were written by the program do. */
  predicate Filled(files: map<string, string>) {
    forall n | n in files :: NextToken(files[n]).0 != ""
  }

  /** However texts are read: just a text that reads as the increased account makes the operator's step. */
  lemma RewriteIsOperatorStep(read: string -> L.File, files: map<string, string>, name: string, text: string,
                              amount: nat, sys: System)
    requires name in files && sys.files == Image(read, files)
    ensures Image(read, files[name := text]) == OperatorStep(sys, name, amount).0.files
            <==> read(text) == L.File(read(files[name]).pin, read(files[name]).balance + amount)
  {
    ImageUpdate(read, files, name, text);
    assert Image(read, files[name := text])[name] == read(text);
  }

  lemma RedepositIsOperatorStep(files: map<string, string>, name: string, amount: nat, sys: System)
    requires name in files && sys.files == Image(ParseFile, files)
    ensures Image(ParseFile, files[name := Redeposited(files[name], amount)]) == OperatorStep(sys, name, amount).0.files
            <==> NextToken(files[name]).0 != "" || amount == 0
  {
    RedepositedFile(files[name], amount);
    RewriteIsOperatorStep(ParseFile, files, name, Redeposited(files[name], amount), amount, sys);
  }

  lemma LineRedeposits(files: map<string, string>, name: string, amount: string)
    requires Commands.IsName(name) && Commands.IsAmount(amount)
    ensures AfterLine(files, "deposit " + (name + [' '] + amount))
            == if name in files then files[name := Redeposited(files[name], Atoi(amount))] else files
  {
    DepositLine(name, amount);
  }

  /**
   One deposit line is, on the accounts the files stand for, the operator's step of the system, if and only if
   the account's file holds anything at all (or there is none, or nothing is deposited).
   */
  lemma LineIsOperatorStep(files: map<string, string>, name: string, amount: string, sys: System)
    requires Commands.IsName(name) && Commands.IsAmount(amount)
    requires sys.files == Image(ParseFile, files)
    ensures var line := "deposit " + (name + [' '] + amount);
      && Atoi(amount) >= 0 && (Filled(files) ==> Filled(AfterLine(files, line)))
      && (Image(ParseFile, AfterLine(files, line)) == OperatorStep(sys, name, Atoi(amount)).0.files
          <==> name !in files || NextToken(files[name]).0 != "" || Atoi(amount) == 0)
  {
    LineRedeposits(files, name, amount);
    AtoiOfDigits(amount);
    if name in files {
      RedepositedFile(files[name], Atoi(amount));
      RedepositIsOperatorStep(files, name, Atoi(amount), sys);
    }
  }

  // ---------- What the operator types, and what comes of it ----------

  lemma DepositTaken(line: string)
    requires ParseTerminal(line).Some? && ParseTerminal(line).value.DepositTo?
    ensures var c := ParseTerminal(line).value;
      line == "deposit " + (c.name + [' '] + c.amount) && Commands.IsName(c.name) && Commands.IsAmount(c.amount)
  {
    var rest := line[8..];
    var k := Commands.Before(rest, ' ');
    assert line == "deposit " + rest;
    assert rest == rest[..k] + [' '] + rest[k + 1..];
  }

  /** What is taken for a deposit, letter by letter. */
  lemma DepositSyntax(line: string, name: string, amount: string)
    ensures ParseTerminal(line) == Some(DepositTo(name, amount)) <==>
            line == "deposit " + (name + " " + amount) && Commands.IsName(name) && Commands.IsAmount(amount)
  {
    assert name + " " + amount == name + [' '] + amount;
    if ParseTerminal(line) == Some(DepositTo(name, amount)) {
      DepositTaken(line);
    } else if Commands.IsName(name) && Commands.IsAmount(amount) {
      DepositLine(name, amount);
    }
  }

  /** What is taken for an inquiry, letter by letter. */
  lemma BalanceSyntax(line: string, name: string)
    ensures ParseTerminal(line) == Some(BalanceOf(name)) <==> line == "balance " + name && Commands.IsName(name)
  {
    if Commands.StartsWith(line, "balance ") {
      assert line == "balance " + line[8..];
    }
    if line == "balance " + name {
      assert line[8..] == name && line[..8][0] == 'b';
    }
  }

  /** A balance line changes nothing, and shows the second token of the account's file, if there is one. */
  lemma BalanceLine(files: map<string, string>, name: string)
    requires Commands.IsName(name)
    ensures AfterLine(files, "balance " + name) == files
    ensures name !in files ==> Shown(files, "balance " + name) == []
    ensures name in files ==> |Shown(files, "balance " + name)| == 1
  {
    BalanceSyntax("balance " + name, name);
  }

  /** What is shown of a file of two tokens, whatever white space is in it, is the second one as it stands. */
  lemma BalanceIsShown(files: map<string, string>, name: string, gap: string, pin: string, gap': string,
                       balance: string, rest: string)
    requires Commands.IsName(name) && IsToken(pin) && IsToken(balance)
    requires forall i | 0 <= i < |gap| :: IsSpace(gap[i])
    requires gap' != "" && forall i | 0 <= i < |gap'| :: IsSpace(gap'[i])
    requires rest == "" || IsSpace(rest[0])
    requires name in files && files[name] == gap + (pin + (gap' + (balance + rest)))
    ensures Shown(files, "balance " + name) == [balance]
    ensures ParseFile(files[name]) == L.File(Atoi(pin), Atoi(balance))
  {
    BalanceSyntax("balance " + name, name);
    TokenIsRead(gap, pin, gap' + (balance + rest));
    TokenIsRead(gap', balance, rest);
  }

  /**
   A line changes the files only if it is a deposit line for an account that has one, and then that one alone; and it
   shows something only if it is a balance line.
   */
  lemma OnlyDepositsChange(files: map<string, string>, line: string)
    ensures AfterLine(files, line) != files ==>
              exists name, amount ::
                && line == "deposit " + (name + " " + amount) && name in files
                && AfterLine(files, line).Keys == files.Keys
                && forall n | n in files && n != name :: AfterLine(files, line)[n] == files[n]
    ensures Shown(files, line) != [] ==> exists name :: line == "balance " + name && name in files
  {
    match ParseTerminal(line) {
      case Some(DepositTo(name, amount)) => DepositSyntax(line, name, amount);
      case Some(BalanceOf(name)) => BalanceSyntax(line, name);
      case None =>
    }
  }

  /** Nothing after the first "exit" has any effect. */
  lemma {:induction false} ExitEnds(files: map<string, string>, before: seq<string>, after: seq<string>)
    ensures TerminalRun(files, before + ["exit"] + after) == TerminalRun(files, before)
    decreases |before|
  {
    var all := before + ["exit"] + after;
    if before == [] {
      assert all[0] == "exit";
    } else {
      assert all[0] == before[0] && all[1..] == before[1..] + ["exit"] + after;
      ExitEnds(AfterLine(files, before[0]), before[1..], after);
    }
  }

  /** Before that, lines are obeyed one after the other, each on what the ones before it have left. */
  lemma {:induction false} LinesInOrder(files: map<string, string>, before: seq<string>, after: seq<string>)
    requires "exit" !in before
    ensures var (middle, shown) := TerminalRun(files, before);
      var (final, more) := TerminalRun(middle, after);
      TerminalRun(files, before + after) == (final, shown + more)
    decreases |before|
  {
    if before == [] {
      assert before + after == after;
      assert [] + TerminalRun(files, after).1 == TerminalRun(files, after).1;
    } else {
      var both := before + after;
      assert both[0] == before[0] && both[1..] == before[1..] + after;
      LinesInOrder(AfterLine(files, before[0]), before[1..], after);
      var (middle, more) := TerminalRun(AfterLine(files, before[0]), before[1..]);
      Regroup(Shown(files, before[0]), more, TerminalRun(middle, after).1);
    }
  }

  /** The operator's steps that the lines up to "exit" stand for. */
  function Steps(commands: seq<string>): seq<Event> {
    if commands == [] || commands[0] == "exit" then []
    else
      (match ParseTerminal(commands[0])
       case Some(DepositTo(name, amount)) => [Operator(name, if Atoi(amount) >= 0 then Atoi(amount) else 0)]
       case _ => [])
      + Steps(commands[1..])
  }

  lemma StepsJoin(line: string, rest: seq<string>)
    requires line != "exit"
    ensures Steps([line] + rest) == Steps([line]) + Steps(rest)
  {
    assert ([line] + rest)[1..] == rest && [line][1..] == [];
  }

  lemma DepositRuns(files: map<string, string>, name: string, amount: string, sys: System)
    requires Commands.IsName(name) && Commands.IsAmount(amount)
    requires sys.files == Image(ParseFile, files) && Filled(files)
    ensures var line := "deposit " + (name + [' '] + amount); var e := Operator(name, LeadingDigits(amount, 0));
      && Filled(AfterLine(files, line)) && Atoi(amount) == LeadingDigits(amount, 0)
      && Image(ParseFile, AfterLine(files, line)) == Run(sys, [e]).files
  {
    LineIsOperatorStep(files, name, amount, sys);
    AtoiOfDigits(amount);
    var e := Operator(name, LeadingDigits(amount, 0));
    assert [e][1..] == [];
    assert Run(sys, [e]) == Run(Next(sys, e), []);
  }

  lemma OneLine(files: map<string, string>, line: string, sys: System)
    requires sys.files == Image(ParseFile, files) && Filled(files) && line != "exit"
    ensures Filled(AfterLine(files, line))
    ensures Image(ParseFile, AfterLine(files, line)) == Run(sys, Steps([line])).files
  {
    assert [line][1..] == [];
    match ParseTerminal(line) {
      case Some(DepositTo(name, amount)) =>
        DepositSyntax(line, name, amount);
        assert name + [' '] + amount == name + " " + amount;
        DepositRuns(files, name, amount, sys);
        assert Steps([line]) == [Operator(name, LeadingDigits(amount, 0))];
      case _ => assert Steps([line]) == [];
    }
  }

  /**
   A whole session at the terminal is, on the accounts the files stand for, a run of the operator's steps of the
   system: one for every deposit line before "exit", in their order, and nothing for any other line.
   */
  lemma {:induction false} TerminalIsRun(files: map<string, string>, commands: seq<string>, sys: System)
    requires sys.files == Image(ParseFile, files) && Filled(files)
    ensures var files' := TerminalRun(files, commands).0;
      Filled(files') && Image(ParseFile, files') == Run(sys, Steps(commands)).files
    decreases |commands|
  {
    if commands != [] && commands[0] != "exit" {
      var line, rest := commands[0], commands[1..];
      OneLine(files, line, sys);
      assert [line] + rest == commands;
      StepsJoin(line, rest);
      Calls.RunConcat(sys, Steps([line]), Steps(rest));
      TerminalIsRun(AfterLine(files, line), rest, Run(sys, Steps([line])));
    }
  }
}
