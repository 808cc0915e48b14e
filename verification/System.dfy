/**
 Any number of client sessions, each its own process with its own caches, and an operator, over one
 accounts directory. A step is one event; a withdrawal and a transfer are split where the code re-reads
 the file (account.cpp line 88) and where the recipient is taken up (bank.cpp line 96), so that other
 sessions and the operator may come in between. Within a step nothing interferes.
 */
module System {
  import opened Wrappers
  import opened Ledger
  import Lockout

  /** Where a session's process is. */
  datatype Phase =
    | Anon                                            // connected, not logged in
    | Active                                          // logged in, waiting for a transaction
    | Checked(amount: nat, dest: Option<string>)      // the cached balance has passed the test
    | Owing(recipient: string, amount: nat)           // debited, the recipient not yet taken up
    | Closed                                          // ended, account released (or never held)
    | TimedOut                                        // ended idle while logged in
    | Dead                                            // ended by exit() inside an account call

  datatype Session = Session(caches: map<string, Cache>, phase: Phase, act: string, pin: int)

  /** `names` is the vector of accounts every process starts with. */
  datatype System = System(
    names: set<string>,
    files: map<string, File>,
    locks: set<string>,
    lockout: seq<Lockout.Entry>,
    sessions: map<nat, Session>)

  datatype Event =
    | Connect(s: nat)
    | Login(s: nat, act: string, pin: nat)
    | Deposit(s: nat, amount: nat)
    | Check(s: nat, amount: nat, dest: Option<string>)
    | Debit(s: nat)
    | Credit(s: nat)
    | Inquire(s: nat)
    | Logout(s: nat)
    | Timeout(s: nat)
    | Operator(name: string, amount: nat)

  /** What the program can tell of a step: the value its call returned, or the branch it took. */
  datatype Reply =
    | Ignored                     // the event does not apply
    | LockedOut                   // refused by the login counter
    | Refused                     // the call returned false
    | Accepted                    // the call returned true
    | Balance(balance: int)       // the value balance_inq returned
    | Paid(amount: nat)           // a withdrawal went through
    | Sent(amount: nat)           // the first half of a transfer went through
    | Settled(end: Settlement, amount: nat)
    | Exit                        // the process ended inside the call

  // ---------- Sessions ----------

  predicate LoggedIn(ses: Session) {
    ses.phase.Active? || ses.phase.Checked? || ses.phase.Owing?
  }

  /** The sessions that keep an account locked. */
  predicate Claims(ses: Session) {
    LoggedIn(ses) || ses.phase.TimedOut?
  }

  /** The bank as the process of session `s` sees it. */
  function WorldOf(sys: System, s: nat): World
    requires s in sys.sessions
  {
    World(sys.files, sys.locks, sys.sessions[s].caches)
  }

  /** The system once session `s` has turned its bank into `w` and is in `phase`. */
  function After(sys: System, s: nat, w: World, phase: Phase): System
    requires s in sys.sessions
  {
    sys.(files := w.files, locks := w.locks,
         sessions := sys.sessions[s := sys.sessions[s].(caches := w.caches, phase := phase)])
  }

  // ---------- Steps ----------

  function ConnectStep(sys: System, s: nat): (System, Reply) {
    if s in sys.sessions then (sys, Ignored)
    else
      var caches := map n | n in sys.names :: RESET;
      (sys.(sessions := sys.sessions[s := Session(caches, Anon, "", 0)]), Accepted)
  }

  function LoginStep(sys: System, s: nat, act: string, pin: nat): (System, Reply)
    requires s in sys.sessions
  {
    if !sys.sessions[s].phase.Anon? then (sys, Ignored)
    else
      var (lockout, admitted) := Lockout.Login(sys.lockout, act);
      var ses := sys.sessions[s].(act := act, pin := pin);
      if !admitted then
        (sys.(lockout := lockout, sessions := sys.sessions[s := ses.(phase := Closed)]), LockedOut)
      else
        var (w, ok) := LockAct(WorldOf(sys, s), act, pin);
        var phase := if ok then Active else Closed;
        (sys.(files := w.files, locks := w.locks, lockout := lockout,
              sessions := sys.sessions[s := ses.(caches := w.caches, phase := phase)]),
         if ok then Accepted else Refused)
  }

  function DepositStep(sys: System, s: nat, amount: nat): (System, Reply)
    requires s in sys.sessions
  {
    var ses := sys.sessions[s];
    if !ses.phase.Active? then (sys, Ignored)
    else
      var (w, r) := BankDeposit(WorldOf(sys, s), ses.act, ses.pin, amount);
      if r.Exited? then (After(sys, s, w, Dead), Exit)
      else (After(sys, s, w, Active), if r.value then Accepted else Refused)
  }

  /** The tests of a withdrawal, or of a transfer to `dest`, up to the one on the cached balance. */
  predicate CheckPasses(w: World, an: string, p: int, amount: nat, dest: Option<string>) {
    && (dest.Some? ==> !TransferRefused(w, an, p, dest.value))
    && Lookup(w, an, p)
    && MayWithdraw(an, SlotOf(w, an), an, p, amount)
  }

  function CheckStep(sys: System, s: nat, amount: nat, dest: Option<string>): (System, Reply)
    requires s in sys.sessions
  {
    var ses := sys.sessions[s];
    if !ses.phase.Active? then (sys, Ignored)
    else if CheckPasses(WorldOf(sys, s), ses.act, ses.pin, amount, dest)
    then (After(sys, s, WorldOf(sys, s), Checked(amount, dest)), Accepted)
    else (sys, Refused)
  }

  function DebitStep(sys: System, s: nat): (System, Reply)
    requires s in sys.sessions
  {
    var ses := sys.sessions[s];
    if !ses.phase.Checked? || ses.act !in ses.caches then (sys, Ignored)
    else
      var amount := ses.phase.amount;
      var (sl, r) := Adjust(SlotOf(WorldOf(sys, s), ses.act), 0 - amount);
      var w := Put(WorldOf(sys, s), ses.act, sl);
      if r.Exited? then (After(sys, s, w, Dead), Exit)
      else if ses.phase.dest.None? then (After(sys, s, w, Active), Paid(amount))
      else (After(sys, s, w, Owing(ses.phase.dest.value, amount)), Sent(amount))
  }

  function CreditStep(sys: System, s: nat): (System, Reply)
    requires s in sys.sessions
  {
    var ses := sys.sessions[s];
    if !ses.phase.Owing? || ses.act !in ses.caches || ses.phase.recipient !in ses.caches then (sys, Ignored)
    else
      var (w, end) := Settle(WorldOf(sys, s), ses.act, ses.phase.recipient, ses.phase.amount);
      (After(sys, s, w, if end.Died? then Dead else Active), Settled(end, ses.phase.amount))
  }

  function InquireStep(sys: System, s: nat): (System, Reply)
    requires s in sys.sessions
  {
    var ses := sys.sessions[s];
    if !ses.phase.Active? then (sys, Ignored)
    else
      var (w, r) := BalanceInq(WorldOf(sys, s), ses.act, ses.pin);
      if r.Exited? then (After(sys, s, w, Dead), Exit)
      else (After(sys, s, w, Active), Balance(r.value))
  }

  /** The session ends by EXIT. or because the client closed the stream. */
  function LogoutStep(sys: System, s: nat): (System, Reply)
    requires s in sys.sessions
  {
    var ses := sys.sessions[s];
    if ses.phase.Anon? then (After(sys, s, WorldOf(sys, s), Closed), Accepted)
    else if !ses.phase.Active? then (sys, Ignored)
    else
      var (w, ok) := UnlockAct(WorldOf(sys, s), ses.act, ses.pin);
      (After(sys, s, w, Closed), if ok then Accepted else Refused)
  }

  /** The server has waited too long for the client; it can only be waiting between transactions. */
  function TimeoutStep(sys: System, s: nat): (System, Reply)
    requires s in sys.sessions
  {
    var ses := sys.sessions[s];
    if ses.phase.Anon? then (After(sys, s, WorldOf(sys, s), Closed), Accepted)
    else if ses.phase.Active? then (After(sys, s, WorldOf(sys, s), TimedOut), Accepted)
    else (sys, Ignored)
  }

  /** The operator's deposit rewrites the file whether or not the account is locked. */
  function OperatorStep(sys: System, name: string, amount: nat): (System, Reply) {
    if name !in sys.files then (sys, Refused)
    else
      var f := sys.files[name];
      (sys.(files := sys.files[name := File(f.pin, f.balance + amount)]), Accepted)
  }

  function Step(sys: System, e: Event): (System, Reply) {
    match e
    case Connect(s) => ConnectStep(sys, s)
    case Operator(name, amount) => OperatorStep(sys, name, amount)
    case Login(s, act, pin) => if s in sys.sessions then LoginStep(sys, s, act, pin) else (sys, Ignored)
    case Deposit(s, amount) => if s in sys.sessions then DepositStep(sys, s, amount) else (sys, Ignored)
    case Check(s, amount, dest) => if s in sys.sessions then CheckStep(sys, s, amount, dest) else (sys, Ignored)
    case Debit(s) => if s in sys.sessions then DebitStep(sys, s) else (sys, Ignored)
    case Credit(s) => if s in sys.sessions then CreditStep(sys, s) else (sys, Ignored)
    case Inquire(s) => if s in sys.sessions then InquireStep(sys, s) else (sys, Ignored)
    case Logout(s) => if s in sys.sessions then LogoutStep(sys, s) else (sys, Ignored)
    case Timeout(s) => if s in sys.sessions then TimeoutStep(sys, s) else (sys, Ignored)
  }

  function Next(sys: System, e: Event): System {
    Step(sys, e).0
  }

  function ReplyTo(sys: System, e: Event): Reply {
    Step(sys, e).1
  }

  function Run(sys: System, es: seq<Event>): System
    decreases |es|
  {
    if es == [] then sys else Run(Next(sys, es[0]), es[1..])
  }

  /** The bank server at its start: no session yet, files and left-over locks as they are found. */
  predicate Init(sys: System) {
    && sys.sessions == map[]
    && sys.lockout == []
    && forall n | n in sys.files :: sys.files[n].balance >= 0
  }
}
