/** The server's process for one connection, at work on its bank and on the login counter file. */
module Connection {
  import opened Wrappers
  import opened Sequences
  import opened Text
  import opened Commands
  import opened Server
  import L = Ledger
  import Lockout
  import Mac
  import B = Bank

  class Connection {
    const setup: Setup
    const bank: B.Bank
    const lockoutFile: Lockout.LockoutFile
    var stage: Stage
    var act: string
    var pin: int
    ghost var log: seq<Note>

    constructor (setup: Setup, bank: B.Bank, lockoutFile: Lockout.LockoutFile)
      requires bank.Valid()
      ensures this.setup == setup && this.bank == bank && this.lockoutFile == lockoutFile
      ensures State() == Conn(AwaitHello, "", 0, bank.View(), lockoutFile.Entries(), [])
    {
      this.setup, this.bank, this.lockoutFile := setup, bank, lockoutFile;
      stage, act, pin := AwaitHello, "", 0;
      log := [];
    }

    /** The connection as the value model sees it. */
    ghost function State(): Conn
      requires bank.Valid()
      reads this, bank.store, bank.accounts, lockoutFile
    {
      Conn(stage, act, pin, bank.View(), lockoutFile.Entries(), log)
    }

    /** After a call that went through, the balance that is reported. */
    method FinishCall(r: Outcome<bool>) returns (answer: Outcome<Answer>)
      requires bank.Valid()
      modifies bank.store, bank.accounts
      ensures (bank.View(), answer) == Finish(old(bank.View()), r, act, pin)
    {
      if r.Exited? {
        return Exited;
      }
      if !r.value {
        return Returned(NO);
      }
      var balance :- bank.BalanceInq(act, pin);
      return Returned(Answer(true, balance));
    }

    /** The bank calls for one request. */
    method Transact(c: Command) returns (answer: Outcome<Answer>)
      requires bank.Valid()
      modifies bank.store, bank.accounts
      ensures (bank.View(), answer) == Serve(old(bank.View()), act, pin, c)
    {
      match c {
        case Withdraw(amount) =>
          var r := bank.Withdraw(act, pin, Atoi(amount));
          answer := FinishCall(r);
        case Deposit(amount) =>
          var r := bank.Deposit(act, pin, Atoi(amount));
          answer := FinishCall(r);
        case Transfer(amount, recipient) =>
          var r := bank.Transfer(act, pin, recipient, Atoi(amount));
          answer := FinishCall(r);
        case Balance =>
          var balance :- bank.BalanceInq(act, pin);
          answer := Returned(if balance != -1 then Answer(true, balance) else NO);
        case Exit => answer := Returned(NO);
      }
    }

    method LogIn() returns (loginSuccess: bool)
      requires bank.Valid()
      modifies this, bank.store, bank.accounts
      ensures (bank.View(), loginSuccess) == L.LockAct(old(bank.View()), old(act), old(pin))
      ensures act == old(act) && pin == old(pin) && stage == (if loginSuccess then Serving else Gone)
      ensures log == if loginSuccess then old(log) + [LetIn(old(act), old(pin))] else old(log)
    {
      loginSuccess := bank.LockAct(act, pin);
      stage := if loginSuccess then Serving else Gone;
      log := if loginSuccess then log + [LetIn(act, pin)] else log;
    }

    method Admit() returns (out: Option<string>)
      requires bank.Valid()
      modifies this, bank.store, bank.accounts
      ensures (State(), out) == Server.LogIn(old(State()))
    {
      var loginSuccess := LogIn();
      out := Some(if loginSuccess then "SUCCESS." else "FAILURE.");
    }

    method CountLogin(name: string, p: int) returns (admitted: bool)
      requires bank.Valid() && (name == "" || IsToken(name))
      modifies this, lockoutFile
      ensures act == name && pin == p && stage == old(stage) && log == old(log)
      ensures (lockoutFile.Entries(), admitted) == Lockout.Login(old(lockoutFile.Entries()), name)
      ensures bank.View() == old(bank.View())
    {
      act, pin := name, p;
      admitted := lockoutFile.CountLogin(name);
    }

    method TakeLogin(name: string, p: int) returns (out: Option<string>)
      requires bank.Valid() && (name == "" || IsToken(name))
      modifies this, bank.store, bank.accounts, lockoutFile
      ensures (State(), out) == ReceiveLogin(old(State()), name, p)
    {
      var admitted := CountLogin(name, p);
      if !admitted {
        stage := Gone;
        return None;
      }
      out := Admit();
    }

    method Leave()
      requires bank.Valid()
      modifies this, bank.store, bank.accounts
      ensures State() == Server.Leave(old(State()))
    {
      var _ := bank.UnlockAct(act, pin);
      stage := Gone;
    }

    method Carry(c: Command) returns (out: Option<string>)
      requires bank.Valid()
      modifies this, bank.store, bank.accounts
      ensures (State(), out) == Server.Carry(old(State()), c)
    {
      var r := Transact(c);
      out := Reply(c, r);
    }

    /** What follows a transaction: a reply, or the end of the process. */
    method Reply(c: Command, r: Outcome<Answer>) returns (out: Option<string>)
      requires bank.Valid()
      modifies this
      ensures r.Exited? ==> (State(), out) == (old(State()).(stage := Gone), None)
      ensures !r.Exited? ==> State() == old(State()).(log := old(log) + [Called(c, r.value)])
      ensures !r.Exited? ==> out == Some(ReplyText(r.value))
    {
      if r.Exited? {
        stage := Gone;
        return None;
      }
      log := log + [Called(c, r.value)];
      return Some(ReplyText(r.value));
    }

    method TakeRequest(text: string) returns (out: Option<string>)
      requires bank.Valid()
      modifies this, bank.store, bank.accounts
      ensures (State(), out) == ReceiveRequest(old(State()), text)
    {
      var c := Decode(text);
      if c == Some(Exit) {
        Leave();
        return None;
      }
      if c.None? {
        return Some("FAILURE.");
      }
      out := Carry(c.value);
    }

    method TakeHello(text: string) returns (out: Option<string>)
      requires bank.Valid()
      modifies this
      ensures (State(), out) == ReceiveHello(setup, old(State()), text)
    {
      if text == "PUBKEY" {
        stage := AwaitKey;
        return Some(setup.pubKey);
      }
      stage := Gone;
      return None;
    }

    method TakeMac(text: string) returns (out: Option<string>)
      requires bank.Valid()
      modifies this
      ensures (State(), out) == ReceiveMac(setup, old(State()), text)
    {
      var macCheck := Mac.CheckMac(setup.hmac, setup.trusted, text);
      out := AnswerMac(text, macCheck);
    }

    method AnswerMac(text: string, macCheck: bool) returns (out: Option<string>)
      requires bank.Valid()
      modifies this
      ensures macCheck ==> State() == old(State()).(stage := AwaitOk, log := old(log) + [MacAccepted(text)])
      ensures macCheck ==> out == Some(setup.mac)
      ensures !macCheck ==> (State(), out) == (old(State()).(stage := Gone), None)
    {
      if !macCheck {
        stage := Gone;
        return None;
      }
      log := log + [MacAccepted(text)];
      stage := AwaitOk;
      return Some(setup.mac);
    }

    method TakeOk(text: string) returns (out: Option<string>)
      requires bank.Valid()
      modifies this
      ensures (State(), out) == ReceiveOk(old(State()), text)
    {
      if text != "OK." {
        stage := AwaitHello;
        return None;
      }
      stage := AwaitLogin;
      return Some("OK.");
    }

    /** What the process does with one message. */
    method TakeText(text: string) returns (out: Option<string>)
      requires bank.Valid() && !stage.Gone?
      modifies this, bank.store, bank.accounts, lockoutFile
      ensures (State(), out) == ReceiveText(setup, old(State()), text)
    {
      match stage {
        case AwaitHello => out := TakeHello(text);
        case AwaitKey =>
          stage := AwaitMac;
          out := Some("MAC.");
        case AwaitMac => out := TakeMac(text);
        case AwaitOk => out := TakeOk(text);
        case AwaitLogin =>
          var (name, p) := LoginOf(text);
          NameIsToken(text);
          out := TakeLogin(name, p);
        case Serving => out := TakeRequest(text);
      }
    }

    /** What the process does with one result of recv. */
    method Take(input: Input) returns (out: Option<string>)
      requires bank.Valid()
      modifies this, bank.store, bank.accounts, lockoutFile
      ensures (State(), out) == Receive(setup, old(State()), input)
    {
      if stage == Gone {
        return None;
      }
      match input {
        case Idle =>
          stage := Gone;
          out := None;
        case Eof =>
          if stage == Serving {
            Leave();
          } else {
            stage := Gone;
          }
          out := None;
        case Msg(text) => out := TakeText(text);
      }
    }

    /** The receive loop, over everything recv will deliver. */
    method ProcessConnection(inputs: seq<Input>) returns (outputs: seq<string>)
      requires bank.Valid()
      modifies this, bank.store, bank.accounts, lockoutFile
      ensures (State(), outputs) == Converse(setup, old(State()), inputs)
    {
      outputs := [];
      var i := 0;
      ghost var k := State();
      assert inputs[0..] == inputs;
      while i < |inputs|
        invariant 0 <= i <= |inputs|
        invariant GoesOn(setup, k, inputs, outputs, State(), inputs[i..])
      {
        TurnGoesOn(setup, k, inputs, outputs, State(), i);
        var out := Take(inputs[i]);
        outputs := outputs + Post(out);
        i := i + 1;
      }
      assert outputs + [] == outputs;
    }
  }

  /** What is left of a conversation: it ends as the whole one does, and all that was sent comes before. */
  predicate GoesOn(cfg: Setup, k: Conn, inputs: seq<Input>, outputs: seq<string>, k1: Conn, rest: seq<Input>) {
    && Converse(cfg, k, inputs).0 == Converse(cfg, k1, rest).0
    && Converse(cfg, k, inputs).1 == outputs + Converse(cfg, k1, rest).1
  }

  lemma TurnGoesOn(cfg: Setup, k: Conn, inputs: seq<Input>, outputs: seq<string>, k1: Conn, i: nat)
    requires i < |inputs| && GoesOn(cfg, k, inputs, outputs, k1, inputs[i..])
    ensures var (k2, out) := Receive(cfg, k1, inputs[i]);
      GoesOn(cfg, k, inputs, outputs + Post(out), k2, inputs[i + 1..])
  {
    assert inputs[i..][0] == inputs[i] && inputs[i..][1..] == inputs[i + 1..];
    var (k2, out) := Receive(cfg, k1, inputs[i]);
    Regroup(outputs, Post(out), Converse(cfg, k2, inputs[i + 1..]).1);
  }

  /** The name of a login is one token, or empty if the login cannot be read. */
  lemma NameIsToken(text: string)
    ensures LoginOf(text).0 == "" || IsToken(LoginOf(text).0)
  {
    var act := LoginOf(text).0;
    assert forall i | 0 <= i < |act| :: IsWordChar(act[i]);
  }
}
