/**
 From the line that is typed to the account files and back to what is shown: one command with nothing in between,
 through client, channel, server, bank and files.
 */
module Errands {
  import opened Wrappers
  import opened Text
  import opened Commands
  import opened Dialogue
  import opened LedgerLaws
  import L = Ledger
  import Y = System
  import V = SystemInvariant
  import C = Client
  import S = Server
  import P = Process

  // ---------- What the server makes of one request ----------

  /** The account is held by the caller, its file is there, and the PIN is the file's. */
  predicate Good(w: L.World, act: string, pin: int) {
    Held(w, act, pin) && act in w.files && w.files[act].pin == pin
  }

  lemma ReportsMoved(w: L.World, act: string, pin: int, delta: int)
    requires Good(w, act, pin)
    ensures var w1 := MovedBy(w, act, pin, delta);
      S.Report(w1, act, pin) == (w1, Returned(S.Answer(true, w.files[act].balance + delta)))
  {
    var w1 := MovedBy(w, act, pin, delta);
    BalanceOutcome(w1, act, pin);
    assert w1.caches[act := L.Cache(pin, w1.files[act].balance)] == w1.caches;
  }

  lemma ServesWithdraw(w: L.World, act: string, pin: int, amount: string)
    requires Good(w, act, pin)
    ensures var n := Atoi(amount);
      S.Serve(w, act, pin, Withdraw(amount)) ==
      if n > w.caches[act].balance then (w, Returned(S.NO))
      else (MovedBy(w, act, pin, 0 - n), Returned(S.Answer(true, w.files[act].balance - n)))
  {
    WithdrawOutcome(w, act, pin, Atoi(amount));
    ReportsMoved(w, act, pin, 0 - Atoi(amount));
  }

  lemma ServesDeposit(w: L.World, act: string, pin: int, amount: string)
    requires Good(w, act, pin)
    ensures var n := Atoi(amount);
      S.Serve(w, act, pin, Deposit(amount))
      == (MovedBy(w, act, pin, n), Returned(S.Answer(true, w.files[act].balance + n)))
  {
    DepositOutcome(w, act, pin, Atoi(amount));
    ReportsMoved(w, act, pin, Atoi(amount));
  }

  lemma ServesBalance(w: L.World, act: string, pin: int)
    requires Good(w, act, pin) && w.files[act].balance >= 0
    ensures var (w', r) := S.Serve(w, act, pin, Balance);
      w'.files == w.files && r == Returned(S.Answer(true, w.files[act].balance))
  {
    BalanceOutcome(w, act, pin);
  }

  /** The files with the balance of `n` replaced. */
  function WithBalance(files: map<string, L.File>, n: string, balance: int): map<string, L.File>
    requires n in files
  {
    files[n := L.File(files[n].pin, balance)]
  }

  /** The files after a transfer, by the recipient alone once the sender may be debited. */
  function Transferred(files: map<string, L.File>, locks: set<string>, act: string, t: string, n: int)
    : map<string, L.File>
    requires act in files
  {
    var left := WithBalance(files, act, files[act].balance - n);
    if t in locks then left else if t in files then WithBalance(left, t, left[t].balance + n) else files
  }

  lemma ServesTransfer(w: L.World, act: string, pin: int, amount: string, t: string)
    requires Good(w, act, pin)
    ensures var n := Atoi(amount); var (w', r) := S.Serve(w, act, pin, Transfer(amount, t));
      if t == act || t !in w.caches || n > w.caches[act].balance then w' == w && r == Returned(S.NO)
      else
        && w'.files == Transferred(w.files, w.locks, act, t, n)
        && r == Returned(if t !in w.locks && t in w.files then S.Answer(true, w.files[act].balance - n) else S.NO)
  {
    TransferOutcome(w, act, pin, t, Atoi(amount));
    assert w.files[act := w.files[act]] == w.files;
    var (w1, r1) := L.Transfer(w, act, pin, t, Atoi(amount));
    if r1 == Returned(true) {
      BalanceOutcome(w1, act, pin);
    }
  }

  // ---------- From the prompt to the prompt ----------

  /** A line is typed, its message received, and the reply received. */
  function Errand(line: string): seq<Event> {
    [TypeLine(line), ServerHears, ClientHears]
  }

  /** The client is at its prompt and the server waits for it. */
  predicate AtPrompt(k: Config) {
    k.client.stage.Prompt? && k.server.stage.Serving? && k.toServer == [] && k.toClient == []
  }

  /** What is shown for an answer. */
  function ShownFor(c: Command, a: S.Answer): C.Shown {
    if a.done then C.Shown(c, true, ToString(a.balance)) else C.Shown(c, false, "")
  }

  lemma Types(p: Parties, k: Config, line: string, c: Command)
    requires AtPrompt(k) && Lower(line) == LineFor(c) && Wellformed(c) && !c.Exit?
    ensures Apply(p, k, TypeLine(line))
            == k.(client := k.client.(stage := C.AwaitReply(c)), toServer := [Encode(c)])
  {
    LineGrammar(line, c);
    assert [] + [Encode(c)] == [Encode(c)];
  }

  lemma Hears(p: Parties, k: Config, c: Command, w: L.World, a: S.Answer)
    requires k.server.stage.Serving? && k.toServer == [Encode(c)] && k.toClient == [] && Wellformed(c) && !c.Exit?
    requires S.Serve(k.server.world, k.server.act, k.server.pin, c) == (w, Returned(a))
    ensures var k' := Apply(p, k, ServerHears);
      && k'.client == k.client && k'.toServer == [] && k'.toClient == [S.ReplyText(a)]
      && k'.server == k.server.(world := w, log := k.server.log + [S.Called(c, a)])
  {
    MessageGrammar(Encode(c), c);
  }

  lemma Shows(p: Parties, k: Config, c: Command, a: S.Answer)
    requires k.client.stage == C.AwaitReply(c) && k.toServer == [] && k.toClient == [S.ReplyText(a)]
    ensures Apply(p, k, ClientHears)
            == k.(client := C.State(C.Prompt, k.client.log + [ShownFor(c, a)]), toClient := [])
  {
    NumberIsNotFailure(a.balance);
  }

  lemma RunOn(p: Parties, k: Config, e: Event, rest: seq<Event>)
    requires Enabled(k, e) && AllEnabled(p, Apply(p, k, e), rest)
    ensures AllEnabled(p, k, [e] + rest) && Run(p, k, [e] + rest) == Run(p, Apply(p, k, e), rest)
  {
    assert ([e] + rest)[1..] == rest;
  }

  lemma RunErrand(p: Parties, k: Config, line: string, k1: Config, k2: Config, k3: Config)
    requires Enabled(k, TypeLine(line)) && Apply(p, k, TypeLine(line)) == k1
    requires Enabled(k1, ServerHears) && Apply(p, k1, ServerHears) == k2
    requires Enabled(k2, ClientHears) && Apply(p, k2, ClientHears) == k3
    ensures AllEnabled(p, k, Errand(line)) && Run(p, k, Errand(line)) == k3
  {
    RunOn(p, k2, ClientHears, []);
    assert [ClientHears] + [] == [ClientHears];
    RunOn(p, k1, ServerHears, [ClientHears]);
    assert [ServerHears] + [ClientHears] == [ServerHears, ClientHears];
    RunOn(p, k, TypeLine(line), [ServerHears, ClientHears]);
    assert [TypeLine(line)] + [ServerHears, ClientHears] == Errand(line);
  }

  /** What a line comes to: the files afterwards, and what the customer has been shown. */
  datatype Ending = Ending(files: map<string, L.File>, shown: C.Shown)

  /** What the line comes to with nothing in between; nothing if it does not lead back to the prompt. */
  function EndOf(p: Parties, k: Config, line: string): Option<Ending> {
    if !AllEnabled(p, k, Errand(line)) then None
    else
      var k' := Run(p, k, Errand(line));
      var n := |k.client.log|;
      if AtPrompt(k') && |k'.client.log| == n + 1 && k'.client.log[..n] == k.client.log
      then Some(Ending(k'.server.world.files, k'.client.log[n])) else None
  }

  /** One command, served with nothing in between. */
  lemma ErrandIsServed(p: Parties, k: Config, line: string, c: Command, w: L.World, a: S.Answer)
    requires AtPrompt(k) && Lower(line) == LineFor(c) && Wellformed(c) && !c.Exit?
    requires S.Serve(k.server.world, k.server.act, k.server.pin, c) == (w, Returned(a))
    ensures EndOf(p, k, line) == Some(Ending(w.files, ShownFor(c, a)))
  {
    Types(p, k, line, c);
    var k1 := Apply(p, k, TypeLine(line));
    Hears(p, k1, c, w, a);
    var k2 := Apply(p, k1, ServerHears);
    Shows(p, k2, c, a);
    RunErrand(p, k, line, k1, k2, Apply(p, k2, ClientHears));
    assert (k.client.log + [ShownFor(c, a)])[..|k.client.log|] == k.client.log;
  }

  predicate GoodServer(k: Config) {
    Good(k.server.world, k.server.act, k.server.pin)
  }

  lemma WithdrawFromPrompt(p: Parties, k: Config, line: string, amount: string)
    requires AtPrompt(k) && GoodServer(k) && Lower(line) == LineFor(Withdraw(amount)) && IsAmount(amount)
    ensures var act, w, n := k.server.act, k.server.world, Atoi(amount);
      var left := w.files[act].balance - n;
      if n <= w.caches[act].balance
      then EndOf(p, k, line)
            == Some(Ending(WithBalance(w.files, act, left), C.Shown(Withdraw(amount), true, ToString(left))))
      else EndOf(p, k, line) == Some(Ending(w.files, C.Shown(Withdraw(amount), false, "")))
  {
    var (w, r) := S.Serve(k.server.world, k.server.act, k.server.pin, Withdraw(amount));
    ServesWithdraw(k.server.world, k.server.act, k.server.pin, amount);
    ErrandIsServed(p, k, line, Withdraw(amount), w, r.value);
  }

  lemma DepositFromPrompt(p: Parties, k: Config, line: string, amount: string)
    requires AtPrompt(k) && GoodServer(k) && Lower(line) == LineFor(Deposit(amount)) && IsAmount(amount)
    ensures var act, w := k.server.act, k.server.world;
      var sum := w.files[act].balance + Atoi(amount);
      EndOf(p, k, line)
      == Some(Ending(WithBalance(w.files, act, sum), C.Shown(Deposit(amount), true, ToString(sum))))
  {
    var (w, r) := S.Serve(k.server.world, k.server.act, k.server.pin, Deposit(amount));
    ServesDeposit(k.server.world, k.server.act, k.server.pin, amount);
    ErrandIsServed(p, k, line, Deposit(amount), w, r.value);
  }

  lemma BalanceFromPrompt(p: Parties, k: Config, line: string)
    requires AtPrompt(k) && GoodServer(k) && Lower(line) == LineFor(Balance)
    requires k.server.world.files[k.server.act].balance >= 0
    ensures var act, w := k.server.act, k.server.world;
      EndOf(p, k, line) == Some(Ending(w.files, C.Shown(Balance, true, ToString(w.files[act].balance))))
  {
    var (w, r) := S.Serve(k.server.world, k.server.act, k.server.pin, Balance);
    ServesBalance(k.server.world, k.server.act, k.server.pin);
    ErrandIsServed(p, k, line, Balance, w, r.value);
  }

  /**
   What a transfer comes to, by the files, the locks, the accounts there are and the cached balance. If the recipient
   is the sender or no account, or the cached balance does not cover the amount, it is refused with nothing changed.
   Else, if the recipient is free and has a file, the amount moves and the sender is shown what is left; if it is
   locked, the sender is short of the amount and shown a failure; if it has no file, nothing changes and a failure is
   shown.
   */
  function TransferEnding(files: map<string, L.File>, locks: set<string>, names: set<string>, cached: int,
                          act: string, amount: string, t: string): Ending
    requires act in files
  {
    var n := Atoi(amount);
    var left := files[act].balance - n;
    if t == act || t !in names || n > cached then Ending(files, C.Shown(Transfer(amount, t), false, ""))
    else
      Ending(Transferred(files, locks, act, t, n),
             if t !in locks && t in files then C.Shown(Transfer(amount, t), true, ToString(left))
             else C.Shown(Transfer(amount, t), false, ""))
  }

  lemma TransferEnds(w: L.World, act: string, pin: int, amount: string, t: string)
    requires Good(w, act, pin)
    ensures var (w', r) := S.Serve(w, act, pin, Transfer(amount, t));
      && r.Returned?
      && Ending(w'.files, ShownFor(Transfer(amount, t), r.value))
         == TransferEnding(w.files, w.locks, w.caches.Keys, w.caches[act].balance, act, amount, t)
  {
    ServesTransfer(w, act, pin, amount, t);
  }

  lemma TransferFromPrompt(p: Parties, k: Config, line: string, amount: string, t: string)
    requires AtPrompt(k) && GoodServer(k) && Lower(line) == LineFor(Transfer(amount, t))
    requires IsAmount(amount) && IsName(t)
    ensures var act, w := k.server.act, k.server.world;
      EndOf(p, k, line)
      == Some(TransferEnding(w.files, w.locks, w.caches.Keys, w.caches[act].balance, act, amount, t))
  {
    TransferEnds(k.server.world, k.server.act, k.server.pin, amount, t);
    var (w, r) := S.Serve(k.server.world, k.server.act, k.server.pin, Transfer(amount, t));
    ErrandIsServed(p, k, line, Transfer(amount, t), w, r.value);
  }

  /** The server of the dialogue is a session of a system in a reachable state, and its customer at the prompt. */
  predicate Live(k: Config, sys: Y.System, s: nat) {
    V.Inv(sys) && P.Is(sys, s, k.server) && AtPrompt(k)
  }

  lemma LiveIsGood(k: Config, sys: Y.System, s: nat)
    requires Live(k, sys, s)
    ensures var w := k.server.world;
      && Good(w, k.server.act, k.server.pin) && w.files == sys.files && w.locks == sys.locks
      && w.caches == sys.sessions[s].caches && w.caches.Keys == sys.names
      && 0 <= w.caches[k.server.act].balance <= w.files[k.server.act].balance
  {
    assert V.SessionOk(sys.names, sys.files, sys.locks, sys.sessions[s]);
  }

  /**
   "withdraw" and an amount: if the cached balance covers it, the account's file has that much less and the customer
   is shown what is left; otherwise no file changes and the customer is shown a failure.
   */
  lemma WithdrawErrand(p: Parties, k: Config, sys: Y.System, s: nat, line: string, amount: string)
    requires Live(k, sys, s) && Lower(line) == "withdraw " + amount && IsAmount(amount)
    ensures var act, n := k.server.act, Atoi(amount);
      && act in sys.files && act in sys.sessions[s].caches
      && var left := sys.files[act].balance - n;
         if n <= sys.sessions[s].caches[act].balance
         then EndOf(p, k, line)
               == Some(Ending(WithBalance(sys.files, act, left), C.Shown(Withdraw(amount), true, ToString(left))))
         else EndOf(p, k, line) == Some(Ending(sys.files, C.Shown(Withdraw(amount), false, "")))
  {
    LiveIsGood(k, sys, s);
    WithdrawFromPrompt(p, k, line, amount);
  }

  /** "deposit" and an amount: the file has that much more, and the customer is shown the sum. */
  lemma DepositErrand(p: Parties, k: Config, sys: Y.System, s: nat, line: string, amount: string)
    requires Live(k, sys, s) && Lower(line) == "deposit " + amount && IsAmount(amount)
    ensures var act := k.server.act;
      && act in sys.files
      && var sum := sys.files[act].balance + Atoi(amount);
         EndOf(p, k, line)
         == Some(Ending(WithBalance(sys.files, act, sum), C.Shown(Deposit(amount), true, ToString(sum))))
  {
    LiveIsGood(k, sys, s);
    DepositFromPrompt(p, k, line, amount);
  }

  /** "balance": no file changes, and the customer is shown the balance in the file. */
  lemma BalanceErrand(p: Parties, k: Config, sys: Y.System, s: nat, line: string)
    requires Live(k, sys, s) && Lower(line) == "balance"
    ensures var act := k.server.act;
      && act in sys.files
      && EndOf(p, k, line) == Some(Ending(sys.files, C.Shown(Balance, true, ToString(sys.files[act].balance))))
  {
    LiveIsGood(k, sys, s);
    BalanceFromPrompt(p, k, line);
  }

  /** "transfer", an amount and a recipient: `TransferEnding` says what comes of it. */
  lemma TransferErrand(p: Parties, k: Config, sys: Y.System, s: nat, line: string, amount: string, t: string)
    requires Live(k, sys, s) && IsAmount(amount) && IsName(t)
    requires Lower(line) == "transfer " + (amount + (" " + t))
    ensures var act := k.server.act;
      && act in sys.files && act in sys.sessions[s].caches
      && EndOf(p, k, line)
         == Some(TransferEnding(sys.files, sys.locks, sys.names, sys.sessions[s].caches[act].balance, act, amount, t))
  {
    LiveIsGood(k, sys, s);
    TransferLine(amount, t);
    TransferFromPrompt(p, k, line, amount, t);
  }

  lemma TransferLine(amount: string, t: string)
    ensures LineFor(Transfer(amount, t)) == "transfer " + (amount + (" " + t))
  {
    assert amount + (" " + t) == amount + [' '] + t;
  }
}
