/**
 The server process of a connection is a session of the system: whatever it receives, it moves the shared
 files, its caches and the login counter just as a few calls of the system do.
 */
module Process {
  import opened Wrappers
  import opened Text
  import opened Commands
  import L = Ledger
  import S = Server
  import opened System
  import opened SystemInvariant
  import SystemLaws
  import K = Calls
  import opened Ownership

  /** The connection `k` is session `s` of `sys`. */
  predicate Is(sys: System, s: nat, k: S.Conn) {
    && s in sys.sessions && k.world == WorldOf(sys, s) && k.lockout == sys.lockout
    && match k.stage
       case Serving => sys.sessions[s].phase.Active? && k.act == sys.sessions[s].act && k.pin == sys.sessions[s].pin
       case Gone => Ended(sys.sessions[s].phase)
       case _ => sys.sessions[s].phase.Anon?
  }

  predicate Ended(phase: Phase) {
    phase.Closed? || phase.TimedOut? || phase.Dead?
  }

  function Number(digits: string): nat {
    if Atoi(digits) >= 0 then Atoi(digits) else 0
  }

  lemma NumberOfDigits(digits: string)
    requires digits != "" && AllDigits(digits)
    ensures Number(digits) == Atoi(digits)
  {
  }

  // ---------- The calls of one message ----------

  function CallOf(s: nat, c: Command): K.Call {
    match c
    case Withdraw(amount) => K.Withdraw(s, Number(amount))
    case Deposit(amount) => K.Single(Event.Deposit(s, Number(amount)))
    case Transfer(amount, recipient) => K.Transfer(s, recipient, Number(amount))
    case Balance => K.Single(Inquire(s))
    case Exit => K.Single(Logout(s))
  }

  predicate WentThrough(r: Reply) {
    r.Accepted? || r.Paid?
  }

  /** A request that goes through is followed by an inquiry for the balance that is reported. */
  function RequestCalls(sys: System, s: nat, c: Command): seq<K.Call> {
    if (c.Withdraw? || c.Deposit? || c.Transfer?) && WentThrough(K.CallStep(sys, CallOf(s, c)).1)
    then [CallOf(s, c), K.Single(Inquire(s))]
    else [CallOf(s, c)]
  }

  function MessageCalls(cfg: S.Setup, sys: System, s: nat, k: S.Conn, text: string): seq<K.Call> {
    match k.stage
    case AwaitLogin =>
      var (act, pin) := S.LoginOf(text);
      [K.Single(Login(s, act, if pin >= 0 then pin else 0))]
    case Serving => if Decode(text).Some? then RequestCalls(sys, s, Decode(text).value) else []
    case Gone => []
    case _ => if S.Receive(cfg, k, S.Msg(text)).0.stage.Gone? then [K.Single(Timeout(s))] else []
  }

  function CallsFor(cfg: S.Setup, sys: System, s: nat, k: S.Conn, input: S.Input): seq<K.Call> {
    match input
    case Msg(text) => MessageCalls(cfg, sys, s, k, text)
    case Eof => [K.Single(Logout(s))]
    case Idle => [K.Single(Timeout(s))]
  }

  // ---------- Requests ----------

  lemma AfterTwice(sys: System, s: nat, w: L.World, phase: Phase, w': L.World, phase': Phase)
    requires s in sys.sessions
    ensures After(After(sys, s, w, phase), s, w', phase') == After(sys, s, w', phase')
  {
    var twice, once := After(After(sys, s, w, phase), s, w', phase'), After(sys, s, w', phase');
    assert twice.sessions == once.sessions;
  }

  lemma InquireAfter(sys: System, s: nat, w1: L.World)
    requires s in sys.sessions
    ensures var (w, answer) := S.Report(w1, sys.sessions[s].act, sys.sessions[s].pin);
      InquireStep(After(sys, s, w1, Active), s).0 == After(sys, s, w, if answer.Exited? then Dead else Active)
  {
    var (w, answer) := S.Report(w1, sys.sessions[s].act, sys.sessions[s].pin);
    assert WorldOf(After(sys, s, w1, Active), s) == w1;
    AfterTwice(sys, s, w1, Active, w, if answer.Exited? then Dead else Active);
  }

  lemma RunOne(sys: System, a: K.Call)
    ensures K.CallRun(sys, [a]) == K.CallStep(sys, a).0
  {
    assert [a][1..] == [];
  }

  lemma RunTwo(sys: System, a: K.Call, b: K.Call)
    ensures K.CallRun(sys, [a, b]) == K.CallStep(K.CallStep(sys, a).0, b).0
  {
    assert [a, b][1..] == [b];
    RunOne(K.CallStep(sys, a).0, b);
  }

  /** What the server does about a bank call that turned the bank into `w1` and returned `r`. */
  lemma FinishIsInquiry(sys: System, s: nat, w1: L.World, r: Outcome<bool>, next: System)
    requires s in sys.sessions && next == After(sys, s, w1, if r.Exited? then Dead else Active)
    ensures var (w, answer) := S.Finish(w1, r, sys.sessions[s].act, sys.sessions[s].pin);
      After(sys, s, w, if answer.Exited? then Dead else Active)
      == if r == Returned(true) then InquireStep(next, s).0 else next
  {
    if r == Returned(true) {
      InquireAfter(sys, s, w1);
    }
  }

  lemma RequestRuns(sys: System, s: nat, c: Command)
    requires c.Withdraw? || c.Deposit? || c.Transfer?
    requires s in K.CallStep(sys, CallOf(s, c)).0.sessions
    ensures var (next, reply) := K.CallStep(sys, CallOf(s, c));
      K.CallRun(sys, RequestCalls(sys, s, c)) == if WentThrough(reply) then InquireStep(next, s).0 else next
  {
    RunOne(sys, CallOf(s, c));
    RunTwo(sys, CallOf(s, c), K.Single(Inquire(s)));
  }

  /** One request: the bank calls of the server are the calls of the system. */
  lemma ServeIsCalls(sys: System, s: nat, c: Command)
    requires s in sys.sessions && sys.sessions[s].phase.Active? && Wellformed(c) && !c.Exit?
    ensures var (w, r) := S.Serve(WorldOf(sys, s), sys.sessions[s].act, sys.sessions[s].pin, c);
      K.CallRun(sys, RequestCalls(sys, s, c)) == After(sys, s, w, if r.Exited? then Dead else Active)
  {
    var ses, w := sys.sessions[s], WorldOf(sys, s);
    var next := K.CallStep(sys, CallOf(s, c)).0;
    match c {
      case Withdraw(amount) =>
        NumberOfDigits(amount);
        var (w1, r) := L.BankWithdraw(w, ses.act, ses.pin, Atoi(amount));
        FinishIsInquiry(sys, s, w1, r, next);
        RequestRuns(sys, s, c);
      case Deposit(amount) =>
        NumberOfDigits(amount);
        var (w1, r) := L.BankDeposit(w, ses.act, ses.pin, Atoi(amount));
        FinishIsInquiry(sys, s, w1, r, next);
        RequestRuns(sys, s, c);
      case Transfer(amount, recipient) =>
        NumberOfDigits(amount);
        var (w1, r) := L.Transfer(w, ses.act, ses.pin, recipient, Atoi(amount));
        FinishIsInquiry(sys, s, w1, r, next);
        RequestRuns(sys, s, c);
      case Balance => RunOne(sys, CallOf(s, c));
    }
  }

  lemma CarryIsCalls(sys: System, s: nat, k: S.Conn, c: Command)
    requires Is(sys, s, k) && k.stage.Serving? && Wellformed(c) && !c.Exit?
    ensures Is(K.CallRun(sys, RequestCalls(sys, s, c)), s, S.Carry(k, c).0)
  {
    ServeIsCalls(sys, s, c);
  }

  lemma LeaveIsCall(sys: System, s: nat, k: S.Conn)
    requires Is(sys, s, k) && k.stage.Serving?
    ensures Is(K.CallRun(sys, [K.Single(Logout(s))]), s, S.Leave(k))
  {
    RunOne(sys, K.Single(Logout(s)));
  }

  lemma LoginIsCall(sys: System, s: nat, k: S.Conn, act: string, pin: nat)
    requires Is(sys, s, k) && k.stage.AwaitLogin?
    ensures Is(K.CallRun(sys, [K.Single(Login(s, act, pin))]), s, S.ReceiveLogin(k, act, pin).0)
  {
    RunOne(sys, K.Single(Login(s, act, pin)));
  }

  lemma LoginPinIsNumber(text: string)
    ensures S.LoginOf(text).1 >= 0
  {
    var login := DecodeLogin(text);
    if login.Some? {
      LoginGrammar(text, login.value.0, login.value.1);
      NumberOfDigits(login.value.1);
    }
  }

  lemma MessageIsCalls(cfg: S.Setup, sys: System, s: nat, k: S.Conn, text: string)
    requires Is(sys, s, k)
    ensures Is(K.CallRun(sys, MessageCalls(cfg, sys, s, k, text)), s, S.Receive(cfg, k, S.Msg(text)).0)
  {
    match k.stage {
      case AwaitLogin =>
        LoginPinIsNumber(text);
        LoginIsCall(sys, s, k, S.LoginOf(text).0, S.LoginOf(text).1);
      case Serving =>
        if Decode(text) == Some(Command.Exit) {
          LeaveIsCall(sys, s, k);
        } else if Decode(text).Some? {
          MessageGrammar(text, Decode(text).value);
          CarryIsCalls(sys, s, k, Decode(text).value);
        }
      case _ => RunOne(sys, K.Single(Timeout(s)));
    }
  }

  /** One result of recv, in whatever stage: the process makes just these calls of the system. */
  lemma InputIsCalls(cfg: S.Setup, sys: System, s: nat, k: S.Conn, input: S.Input)
    requires Is(sys, s, k)
    ensures Is(K.CallRun(sys, CallsFor(cfg, sys, s, k, input)), s, S.Receive(cfg, k, input).0)
  {
    match input {
      case Msg(text) => MessageIsCalls(cfg, sys, s, k, text);
      case Eof =>
        RunOne(sys, K.Single(Logout(s)));
        if k.stage.Serving? {
          LeaveIsCall(sys, s, k);
        }
      case Idle => RunOne(sys, K.Single(Timeout(s)));
    }
  }

  // ---------- A whole connection among others ----------

  /** What happens around a connection: it receives something, or something else happens in the system. */
  datatype Happening = Own(input: S.Input) | Other(e: Event)

  /** The connection over shared files that somebody else has changed. */
  function Refreshed(sys: System, s: nat, k: S.Conn): S.Conn
    requires s in sys.sessions
  {
    k.(world := k.world.(files := sys.files, locks := sys.locks), lockout := sys.lockout)
  }

  lemma ForeignStepLeaves(sys: System, s: nat, e: Event)
    requires s in sys.sessions && ByOther(e, s)
    ensures s in Next(sys, e).sessions && Next(sys, e).sessions[s] == sys.sessions[s]
  {
  }

  /** All that is not the connection's own is done by others: by the operator, or as part of other sessions' calls. */
  predicate AllForeign(hs: seq<Happening>, s: nat) {
    forall h | h in hs && h.Other? :: ByOther(h.e, s)
  }

  /** The steps of the system while the connection goes on. */
  function AllSteps(cfg: S.Setup, sys: System, s: nat, k: S.Conn, hs: seq<Happening>): seq<Event>
    requires Is(sys, s, k) && AllForeign(hs, s)
    decreases |hs|
  {
    if hs == [] then []
    else
      match hs[0]
      case Own(input) =>
        InputIsCalls(cfg, sys, s, k, input);
        var calls := CallsFor(cfg, sys, s, k, input);
        K.Scripts(calls) + AllSteps(cfg, K.CallRun(sys, calls), s, S.Receive(cfg, k, input).0, hs[1..])
      case Other(e) =>
        ForeignStepLeaves(sys, s, e);
        [e] + AllSteps(cfg, Next(sys, e), s, Refreshed(Next(sys, e), s, k), hs[1..])
  }

  /** The connection afterwards. */
  function Afterwards(cfg: S.Setup, sys: System, s: nat, k: S.Conn, hs: seq<Happening>): S.Conn
    requires Is(sys, s, k) && AllForeign(hs, s)
    decreases |hs|
  {
    if hs == [] then k
    else
      match hs[0]
      case Own(input) =>
        InputIsCalls(cfg, sys, s, k, input);
        Afterwards(cfg, K.CallRun(sys, CallsFor(cfg, sys, s, k, input)), s, S.Receive(cfg, k, input).0, hs[1..])
      case Other(e) =>
        ForeignStepLeaves(sys, s, e);
        Afterwards(cfg, Next(sys, e), s, Refreshed(Next(sys, e), s, k), hs[1..])
  }

  /** The call is one of session `s`. */
  predicate OwnCall(c: K.Call, s: nat) {
    match c
    case Single(e) => !e.Operator? && e.s == s
    case Withdraw(s', _) => s' == s
    case Transfer(s', _, _) => s' == s
  }

  lemma ScriptLeavesReady(sys: System, s: nat, c: K.Call)
    requires s in sys.sessions && K.Ready(sys, s) && OwnCall(c, s)
    ensures var sys' := K.CallStep(sys, c).0; s in sys'.sessions && K.Ready(sys', s)
  {
  }

  /** The calls of one session are the steps of their scripts, whatever other sessions are in the middle of. */
  lemma {:induction false} OwnCallsAreSteps(sys: System, s: nat, cs: seq<K.Call>)
    requires Inv(sys) && s in sys.sessions && K.Ready(sys, s) && forall c | c in cs :: OwnCall(c, s)
    ensures K.CallRun(sys, cs) == Run(sys, K.Scripts(cs)) && Inv(K.CallRun(sys, cs))
    decreases |cs|
  {
    if cs != [] {
      var c := cs[0];
      assert c in cs;
      K.CallIsScript(sys, c);
      RunKeepsInv(sys, K.Script(c));
      ScriptLeavesReady(sys, s, c);
      OwnCallsAreSteps(K.CallStep(sys, c).0, s, cs[1..]);
      K.RunConcat(sys, K.Script(c), K.Scripts(cs[1..]));
    }
  }

  lemma InputCallsAreOwn(cfg: S.Setup, sys: System, s: nat, k: S.Conn, input: S.Input)
    requires Is(sys, s, k)
    ensures forall c | c in CallsFor(cfg, sys, s, k, input) :: OwnCall(c, s)
  {
  }

  /**
   A whole connection, whatever it receives and whatever others do in between, in the middle of their own calls
   too, is a run of the system; so the laws of all runs hold of it, and the session is where the process is.
   */
  lemma {:induction false} ConnectionIsRun(cfg: S.Setup, sys: System, s: nat, k: S.Conn, hs: seq<Happening>)
    requires Inv(sys) && Is(sys, s, k) && AllForeign(hs, s)
    ensures Is(Run(sys, AllSteps(cfg, sys, s, k, hs)), s, Afterwards(cfg, sys, s, k, hs))
    decreases |hs|
  {
    if hs != [] {
      match hs[0] {
        case Own(input) =>
          InputIsCalls(cfg, sys, s, k, input);
          InputCallsAreOwn(cfg, sys, s, k, input);
          var calls := CallsFor(cfg, sys, s, k, input);
          OwnCallsAreSteps(sys, s, calls);
          var sys', k' := K.CallRun(sys, calls), S.Receive(cfg, k, input).0;
          ConnectionIsRun(cfg, sys', s, k', hs[1..]);
          K.RunConcat(sys, K.Scripts(calls), AllSteps(cfg, sys', s, k', hs[1..]));
        case Other(e) =>
          ForeignStepLeaves(sys, s, e);
          StepKeepsInv(sys, e);
          var rest := AllSteps(cfg, Next(sys, e), s, Refreshed(Next(sys, e), s, k), hs[1..]);
          ConnectionIsRun(cfg, Next(sys, e), s, Refreshed(Next(sys, e), s, k), hs[1..]);
          assert ([e] + rest)[1..] == rest;
      }
    }
  }

  /**
   No connection makes or destroys money but by deposits, withdrawals and the transfers that are dropped, even
   while others are in the middle of theirs; and no balance is negative at its end.
   */
  lemma ConnectionConserves(cfg: S.Setup, sys: System, s: nat, k: S.Conn, hs: seq<Happening>)
    requires Inv(sys) && Is(sys, s, k) && AllForeign(hs, s)
    ensures var steps := AllSteps(cfg, sys, s, k, hs);
      && Afterwards(cfg, sys, s, k, hs).world.files == Run(sys, steps).files
      && SystemLaws.Balanced(SystemLaws.Worth(sys), SystemLaws.Worth(Run(sys, steps)), SystemLaws.Total(sys, steps))
      && Solvent(Run(sys, steps).files)
  {
    ConnectionIsRun(cfg, sys, s, k, hs);
    SystemLaws.Conservation(sys, AllSteps(cfg, sys, s, k, hs));
    RunKeepsInv(sys, AllSteps(cfg, sys, s, k, hs));
  }

  // ---------- What a logged-in customer can rely on ----------

  lemma BalanceIsAnswered(sys: System, s: nat)
    requires Inv(sys) && s in sys.sessions && sys.sessions[s].phase.Active?
    ensures var ses := sys.sessions[s];
      S.CallReturned(WorldOf(sys, s), ses.act, ses.pin, Command.Balance) == Returned(true)
  {
  }

  lemma DepositIsAnswered(sys: System, s: nat, amount: string)
    requires Inv(sys) && s in sys.sessions && sys.sessions[s].phase.Active?
    ensures var ses := sys.sessions[s];
      S.CallReturned(WorldOf(sys, s), ses.act, ses.pin, Command.Deposit(amount)) == Returned(true)
  {
  }

  lemma ServeStays(sys: System, s: nat, c: Command)
    requires Inv(sys) && s in sys.sessions && sys.sessions[s].phase.Active?
    requires Wellformed(c) && !c.Exit?
    ensures var (w, r) := S.Serve(WorldOf(sys, s), sys.sessions[s].act, sys.sessions[s].pin, c);
      r.Returned? && SystemInvariant.Solvent(w.files) && sys.sessions[s].act in w.files
  {
    ServeIsCalls(sys, s, c);
    OwnCallsAreSteps(sys, s, RequestCalls(sys, s, c));
    var (w, r) := S.Serve(WorldOf(sys, s), sys.sessions[s].act, sys.sessions[s].pin, c);
    var sys' := After(sys, s, w, if r.Exited? then Dead else Active);
    assert SessionOk(sys'.names, sys'.files, sys'.locks, sys'.sessions[s]);
  }

  /**
   In every reachable state every request of a logged-in customer is answered: with the balance in the
   account's file, never negative, if the bank call returned true, and with a failure otherwise; an
   inquiry and a deposit always succeed, so the value -1 never stands for a balance.
   */
  lemma RequestsAreAnswered(cfg: S.Setup, sys: System, s: nat, k: S.Conn, c: Command)
    requires Inv(sys) && Is(sys, s, k) && k.stage.Serving? && Wellformed(c) && !c.Exit?
    ensures var (k', out) := S.Receive(cfg, k, S.Msg(Encode(c)));
      && k'.stage.Serving? && k.act in k'.world.files && k'.world.files[k.act].balance >= 0
      && out == Some(if S.CallReturned(k.world, k.act, k.pin, c) == Returned(true)
                     then ToString(k'.world.files[k.act].balance) else "FAILURE.")
      && (c.Balance? || c.Deposit? ==> S.CallReturned(k.world, k.act, k.pin, c) == Returned(true))
  {
    MessageGrammar(Encode(c), c);
    ServeStays(sys, s, c);
    S.AnswerIsTrue(k.world, k.act, k.pin, c);
    if c.Balance? {
      BalanceIsAnswered(sys, s);
    } else if c.Deposit? {
      DepositIsAnswered(sys, s, c.amount);
    }
  }

  // ---------- The reply fits ----------

  lemma OfferedByRequest(sys: System, s: nat, c: Command)
    requires !c.Exit?
    ensures SystemLaws.Offered(K.Scripts(RequestCalls(sys, s, c))) == if c.Deposit? then Number(c.amount) else 0
  {
    var calls := RequestCalls(sys, s, c);
    var first := K.Script(calls[0]);
    if |calls| == 1 {
      assert calls[1..] == [] && K.Scripts(calls) == first + [] == first;
    } else {
      assert calls[1..] == [K.Single(Inquire(s))] && calls[1..][1..] == [];
      assert K.Scripts(calls[1..]) == [Inquire(s)] + [] == [Inquire(s)];
      assert K.Scripts(calls) == first + [Inquire(s)];
    }
    OfferedByScript(CallOf(s, c), if |calls| == 1 then [] else [Inquire(s)]);
  }

  lemma OfferedByScript(call: K.Call, rest: seq<Event>)
    requires call.Single? ==> K.WholeCall(call.e)
    requires rest == [] || (|rest| == 1 && rest[0].Inquire?)
    ensures SystemLaws.Offered(K.Script(call) + rest)
            == if call.Single? && (call.e.Deposit? || call.e.Operator?) then call.e.amount else 0
  {
    var es := K.Script(call) + rest;
    assert rest != [] ==> rest[1..] == [];
    assert SystemLaws.Offered(rest) == 0;
    if call.Single? {
      assert es[1..] == rest;
    } else if call.Withdraw? {
      assert es[1..] == [Debit(call.s)] + rest && es[1..][1..] == rest;
    } else {
      var last := [Credit(call.s)] + rest;
      assert es[1..] == [Debit(call.s)] + last && es[1..][1..] == last && last[1..] == rest;
      assert SystemLaws.Offered(last) == 0;
    }
  }

  /** The balance after a request is no more than all the money there was and what the request deposits. */
  lemma BalanceIsBounded(sys: System, s: nat, c: Command)
    requires Inv(sys) && s in sys.sessions && sys.sessions[s].phase.Active? && Wellformed(c) && !c.Exit?
    ensures var act := sys.sessions[s].act;
      var w := S.Serve(WorldOf(sys, s), act, sys.sessions[s].pin, c).0;
      && act in w.files
      && w.files[act].balance <= SystemLaws.Worth(sys) + (if c.Deposit? then Number(c.amount) else 0)
  {
    var calls := RequestCalls(sys, s, c);
    var steps := K.Scripts(calls);
    ServeStays(sys, s, c);
    ServeIsCalls(sys, s, c);
    OwnCallsAreSteps(sys, s, calls);
    SystemLaws.Conservation(sys, steps);
    SystemLaws.ReceivedIsOffered(sys, steps);
    OfferedByRequest(sys, s, c);
    SystemLaws.PartsWithinWorth(Run(sys, steps), sys.sessions[s].act);
  }

  /**
   If the money there is and what a request deposits fit an int together, the reply fits the sixteen characters
   that are encrypted of it.
   */
  lemma ReplyFits(cfg: S.Setup, sys: System, s: nat, k: S.Conn, c: Command)
    requires Inv(sys) && Is(sys, s, k) && k.stage.Serving? && Wellformed(c) && !c.Exit?
    requires SystemLaws.Worth(sys) + (if c.Deposit? then Number(c.amount) else 0) <= 0x7fff_ffff
    ensures var out := S.Receive(cfg, k, S.Msg(Encode(c))).1; out.Some? && |out.value| <= 16
  {
    RequestsAreAnswered(cfg, sys, s, k, c);
    BalanceIsBounded(sys, s, c);
    MessageGrammar(Encode(c), c);
    var balance := S.Receive(cfg, k, S.Msg(Encode(c))).0.world.files[k.act].balance;
    IntFits(balance);
  }

  lemma IntFits(n: nat)
    requires n <= 0x7fff_ffff
    ensures |ToString(n)| <= 16
  {
    assert Power10(10) > 0x7fff_ffff by {
      assert Power10(5) == 100_000;
      assert Power10(10) == 10 * (10 * (10 * (10 * (10 * Power10(5)))));
    }
    DigitsLength(n, 10);
  }
}
