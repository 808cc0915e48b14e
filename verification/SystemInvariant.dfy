/**
 The inductive invariant of the system. Under it every step amounts to a simple one, written without
 lock tests, credential tests, re-reads or write-backs; all later arguments are about the simple steps.
 */
module SystemInvariant {
  import opened Wrappers
  import opened Ledger
  import opened System
  import Lockout
  import LedgerLaws

  /** What holds of one session next to the shared files and locks. */
  predicate SessionOk(names: set<string>, files: map<string, File>, locks: set<string>, ses: Session) {
    && ses.caches.Keys == names
    && !ses.phase.Dead?
    && (!ses.phase.TimedOut? ==>
          forall n | n in names && !(LoggedIn(ses) && n == ses.act) :: ses.caches[n] == RESET)
    && (Claims(ses) ==> ses.act in names && ses.act in locks)
    && (LoggedIn(ses) ==>
          && ses.act in files
          && ses.caches[ses.act].pin == ses.pin == files[ses.act].pin
          && ses.pin >= 0
          && 0 <= ses.caches[ses.act].balance <= files[ses.act].balance)
    && (ses.phase.Checked? ==>
          && ses.phase.amount <= ses.caches[ses.act].balance
          && (ses.phase.dest.Some? ==> ses.phase.dest.value in names && ses.phase.dest.value != ses.act))
    && (ses.phase.Owing? ==> ses.phase.recipient in names && ses.phase.recipient != ses.act)
  }

  predicate Solvent(files: map<string, File>) {
    forall n | n in files :: files[n].balance >= 0
  }

  /** No account is kept locked by two sessions. */
  predicate Exclusive(sessions: map<nat, Session>) {
    forall s, s' | s in sessions && s' in sessions && s != s' && Claims(sessions[s]) && Claims(sessions[s']) ::
      sessions[s].act != sessions[s'].act
  }

  predicate Inv(sys: System) {
    && Solvent(sys.files)
    && (forall s | s in sys.sessions :: SessionOk(sys.names, sys.files, sys.locks, sys.sessions[s]))
    && Exclusive(sys.sessions)
  }

  // ---------- What each step amounts to under the invariant ----------

  /** Session `s`, logged in, moves its own balance by `delta` and is then in `phase`. */
  function Moved(sys: System, s: nat, delta: int, phase: Phase): System
    requires s in sys.sessions && sys.sessions[s].act in sys.files
  {
    var ses := sys.sessions[s];
    var f := sys.files[ses.act];
    var g := File(f.pin, f.balance + delta);
    sys.(files := sys.files[ses.act := g],
         sessions := sys.sessions[s := ses.(caches := ses.caches[ses.act := Cache(g.pin, g.balance)], phase := phase)])
  }

  function InPhase(sys: System, s: nat, phase: Phase): System
    requires s in sys.sessions
  {
    sys.(sessions := sys.sessions[s := sys.sessions[s].(phase := phase)])
  }

  /** The balance of `n` raised in its file, and nothing else. */
  function Raised(sys: System, n: string, amount: nat): System
    requires n in sys.files
  {
    sys.(files := sys.files[n := File(sys.files[n].pin, sys.files[n].balance + amount)])
  }

  /** Whether a login, once admitted by the counter, gets the account. */
  predicate LoginGranted(sys: System, act: string, pin: int) {
    act in sys.names && act !in sys.locks && act in sys.files && sys.files[act].pin == pin
  }

  function LoginEffect(sys: System, s: nat, act: string, pin: nat): (System, Reply)
    requires s in sys.sessions
  {
    var (lockout, admitted) := Lockout.Login(sys.lockout, act);
    var ses := sys.sessions[s].(act := act, pin := pin);
    if admitted && LoginGranted(sys, act, pin) then
      var caches := ses.caches[act := Cache(pin, sys.files[act].balance)];
      (sys.(lockout := lockout, locks := sys.locks + {act},
            sessions := sys.sessions[s := ses.(phase := Active, caches := caches)]),
       Accepted)
    else
      (sys.(lockout := lockout, sessions := sys.sessions[s := ses.(phase := Closed)]),
       if admitted then Refused else LockedOut)
  }

  /** The cached balance covers the amount, and a recipient is another existing account. */
  predicate Affordable(sys: System, s: nat, amount: nat, dest: Option<string>)
    requires s in sys.sessions && sys.sessions[s].act in sys.sessions[s].caches
  {
    var ses := sys.sessions[s];
    && amount <= ses.caches[ses.act].balance
    && (dest.Some? ==> dest.value != ses.act && dest.value in sys.names)
  }

  function AfterDebit(ph: Phase): Phase
    requires ph.Checked?
  {
    if ph.dest.None? then Active else Owing(ph.dest.value, ph.amount)
  }

  function DebitEffect(sys: System, s: nat): System
    requires s in sys.sessions && sys.sessions[s].phase.Checked? && sys.sessions[s].act in sys.files
  {
    Moved(sys, s, 0 - sys.sessions[s].phase.amount, AfterDebit(sys.sessions[s].phase))
  }

  function DebitReply(ph: Phase): Reply
    requires ph.Checked?
  {
    if ph.dest.None? then Paid(ph.amount) else Sent(ph.amount)
  }

  function CreditEffect(sys: System, s: nat): (System, Reply)
    requires s in sys.sessions && sys.sessions[s].phase.Owing? && sys.sessions[s].act in sys.files
  {
    var ph := sys.sessions[s].phase;
    var t := ph.recipient;
    if t in sys.locks then (InPhase(sys, s, Active), Settled(Dropped, ph.amount))
    else if t in sys.files then (InPhase(Raised(sys, t, ph.amount), s, Active), Settled(Credited, ph.amount))
    else (Moved(sys, s, ph.amount, Active), Settled(Refunded, ph.amount))
  }

  function LogoutEffect(sys: System, s: nat): (System, Reply)
    requires s in sys.sessions
  {
    var ses := sys.sessions[s];
    (sys.(locks := sys.locks - {ses.act},
          sessions := sys.sessions[s := ses.(caches := ses.caches[ses.act := RESET], phase := Closed)]),
     Accepted)
  }

  predicate In(sys: System, s: nat, active: bool) {
    s in sys.sessions && if active then sys.sessions[s].phase.Active? else sys.sessions[s].phase.Anon?
  }

  /** A logged-in session's account has a file, and the session a cache of it: enough to say what a step does. */
  predicate Grounded(sys: System) {
    forall s | s in sys.sessions && LoggedIn(sys.sessions[s]) ::
      sys.sessions[s].act in sys.files && sys.sessions[s].act in sys.sessions[s].caches
  }

  lemma InvIsGrounded(sys: System)
    requires Inv(sys)
    ensures Grounded(sys)
  {
    forall s | s in sys.sessions && LoggedIn(sys.sessions[s])
      ensures sys.sessions[s].act in sys.files && sys.sessions[s].act in sys.sessions[s].caches
    {
      assert SessionOk(sys.names, sys.files, sys.locks, sys.sessions[s]);
    }
  }

  function Effect(sys: System, e: Event): (System, Reply)
    requires Grounded(sys)
  {
    match e
    case Connect(s) => ConnectStep(sys, s)
    case Login(s, act, pin) => if In(sys, s, false) then LoginEffect(sys, s, act, pin) else (sys, Ignored)
    case Deposit(s, amount) => if In(sys, s, true) then (Moved(sys, s, amount, Active), Accepted) else (sys, Ignored)
    case Check(s, amount, dest) =>
      if !In(sys, s, true) then (sys, Ignored)
      else if Affordable(sys, s, amount, dest) then (InPhase(sys, s, Checked(amount, dest)), Accepted)
      else (sys, Refused)
    case Debit(s) =>
      if s in sys.sessions && sys.sessions[s].phase.Checked?
      then (DebitEffect(sys, s), DebitReply(sys.sessions[s].phase))
      else (sys, Ignored)
    case Credit(s) =>
      if s in sys.sessions && sys.sessions[s].phase.Owing? then CreditEffect(sys, s) else (sys, Ignored)
    case Inquire(s) =>
      if In(sys, s, true) then (Moved(sys, s, 0, Active), Balance(sys.files[sys.sessions[s].act].balance))
      else (sys, Ignored)
    case Logout(s) =>
      if In(sys, s, true) then LogoutEffect(sys, s)
      else if In(sys, s, false) then (InPhase(sys, s, Closed), Accepted)
      else (sys, Ignored)
    case Timeout(s) =>
      if In(sys, s, true) then (InPhase(sys, s, TimedOut), Accepted)
      else if In(sys, s, false) then (InPhase(sys, s, Closed), Accepted)
      else (sys, Ignored)
    case Operator(name, amount) => if name in sys.files then (Raised(sys, name, amount), Accepted) else (sys, Refused)
  }

  lemma DepositIsEffect(sys: System, s: nat, amount: nat)
    requires Inv(sys) && s in sys.sessions && sys.sessions[s].phase.Active?
    ensures DepositStep(sys, s, amount) == (Moved(sys, s, amount, Active), Accepted)
  {
    assert sys.locks + {sys.sessions[s].act} == sys.locks;
  }

  lemma DebitIsEffect(sys: System, s: nat)
    requires Inv(sys) && s in sys.sessions && sys.sessions[s].phase.Checked?
    ensures DebitStep(sys, s) == (DebitEffect(sys, s), DebitReply(sys.sessions[s].phase))
  {
    assert sys.locks + {sys.sessions[s].act} == sys.locks;
  }

  lemma CreditIsEffect(sys: System, s: nat)
    requires Inv(sys) && s in sys.sessions && sys.sessions[s].phase.Owing?
    ensures sys.sessions[s].act in sys.files && CreditStep(sys, s) == CreditEffect(sys, s)
  {
    assert SessionOk(sys.names, sys.files, sys.locks, sys.sessions[s]);
    OwingCredits(sys, s);
  }

  /** What of the invariant the second half of a transfer needs. */
  predicate MayCredit(sys: System, ses: Session) {
    && ses.phase.Owing? && ses.act in sys.files && ses.act in sys.locks && ses.act in ses.caches
    && ses.caches[ses.act].pin == sys.files[ses.act].pin
    && ses.phase.recipient in ses.caches && ses.phase.recipient != ses.act
    && ses.caches[ses.phase.recipient] == RESET
  }

  lemma OwingCredits(sys: System, s: nat)
    requires s in sys.sessions && MayCredit(sys, sys.sessions[s])
    ensures CreditStep(sys, s) == CreditEffect(sys, s)
  {
    var ses := sys.sessions[s];
    LedgerLaws.SettleOutcome(WorldOf(sys, s), ses.act, ses.phase.recipient, ses.phase.amount);
    assert ses.caches[ses.phase.recipient := RESET] == ses.caches;
  }

  lemma InquireIsEffect(sys: System, s: nat)
    requires Inv(sys) && s in sys.sessions && sys.sessions[s].phase.Active?
    ensures InquireStep(sys, s) == (Moved(sys, s, 0, Active), Balance(sys.files[sys.sessions[s].act].balance))
  {
    var act := sys.sessions[s].act;
    assert sys.locks + {act} == sys.locks;
    assert sys.files[act := sys.files[act]] == sys.files;
  }

  lemma LogoutIsEffect(sys: System, s: nat)
    requires Inv(sys) && s in sys.sessions && sys.sessions[s].phase.Active?
    ensures LogoutStep(sys, s) == LogoutEffect(sys, s)
  {
    var act := sys.sessions[s].act;
    assert sys.files[act := sys.files[act]] == sys.files;
  }

  lemma LoginIsEffect(sys: System, s: nat, act: string, pin: nat)
    requires Inv(sys) && s in sys.sessions && sys.sessions[s].phase.Anon?
    ensures LoginStep(sys, s, act, pin) == LoginEffect(sys, s, act, pin)
  {
    var ses := sys.sessions[s];
    assert act in sys.names ==> ses.caches[act := RESET] == ses.caches;
    LedgerLaws.LockActOutcome(WorldOf(sys, s), act, pin);
  }

  /**
   Under the invariant a step is the simple one: credentials always match for a logged-in session, no
   account call ends the process, a credit or a refund never fails, and what is re-read and written back
   is the file's own balance moved by the amount.
   */
  lemma StepIsEffect(sys: System, e: Event)
    requires Inv(sys)
    ensures Grounded(sys) && Step(sys, e) == Effect(sys, e)
  {
    InvIsGrounded(sys);
    match e {
      case Login(s, act, pin) => if In(sys, s, false) { LoginIsEffect(sys, s, act, pin); }
      case Deposit(s, amount) => if In(sys, s, true) { DepositIsEffect(sys, s, amount); }
      case Debit(s) => if s in sys.sessions && sys.sessions[s].phase.Checked? { DebitIsEffect(sys, s); }
      case Credit(s) => if s in sys.sessions && sys.sessions[s].phase.Owing? { CreditIsEffect(sys, s); }
      case Inquire(s) => if In(sys, s, true) { InquireIsEffect(sys, s); }
      case Logout(s) => if In(sys, s, true) { LogoutIsEffect(sys, s); }
      case _ =>
    }
  }

  // ---------- The invariant is inductive ----------

  /** What a step of another session may do to an account that is kept locked: only raise its balance. */
  predicate StillHeld(sys: System, sys': System, n: string) {
    && n in sys'.locks
    && (n in sys.files ==>
          n in sys'.files && sys'.files[n].pin == sys.files[n].pin && sys'.files[n].balance >= sys.files[n].balance)
  }

  /** A step of session `s` that keeps `s` in order and the others' accounts held keeps the invariant. */
  lemma OneSessionSteps(sys: System, sys': System, s: nat, ses: Session)
    requires Inv(sys) && Solvent(sys'.files)
    requires sys'.names == sys.names && sys'.sessions == sys.sessions[s := ses]
    requires SessionOk(sys'.names, sys'.files, sys'.locks, ses)
    requires forall r | r in sys.sessions && r != s && Claims(sys.sessions[r]) ::
               StillHeld(sys, sys', sys.sessions[r].act) && (Claims(ses) ==> sys.sessions[r].act != ses.act)
    ensures Inv(sys')
  {
    forall r | r in sys'.sessions ensures SessionOk(sys'.names, sys'.files, sys'.locks, sys'.sessions[r]) {
      if r != s {
        assert SessionOk(sys.names, sys.files, sys.locks, sys.sessions[r]);
      }
    }
  }

  lemma MovedKeepsInv(sys: System, s: nat, delta: int, phase: Phase)
    requires Inv(sys) && s in sys.sessions && LoggedIn(sys.sessions[s])
    requires sys.files[sys.sessions[s].act].balance + delta >= 0
    requires phase.Active? || (phase.Owing? && phase.recipient in sys.names && phase.recipient != sys.sessions[s].act)
    ensures Inv(Moved(sys, s, delta, phase))
  {
    var sys' := Moved(sys, s, delta, phase);
    OneSessionSteps(sys, sys', s, sys'.sessions[s]);
  }

  lemma PhaseKeepsInv(sys: System, s: nat, phase: Phase)
    requires Inv(sys) && s in sys.sessions
    requires SessionOk(sys.names, sys.files, sys.locks, sys.sessions[s].(phase := phase))
    requires LoggedIn(sys.sessions[s]) || phase.Closed?
    ensures Inv(InPhase(sys, s, phase))
  {
    var sys' := InPhase(sys, s, phase);
    OneSessionSteps(sys, sys', s, sys'.sessions[s]);
  }

  lemma RaisedKeepsInv(sys: System, n: string, amount: nat)
    requires Inv(sys) && n in sys.files
    ensures Inv(Raised(sys, n, amount))
  {
    var sys' := Raised(sys, n, amount);
    forall s | s in sys'.sessions ensures SessionOk(sys'.names, sys'.files, sys'.locks, sys'.sessions[s]) {
      assert SessionOk(sys.names, sys.files, sys.locks, sys.sessions[s]);
    }
  }

  lemma ConnectKeepsInv(sys: System, s: nat)
    requires Inv(sys) && s !in sys.sessions
    ensures Inv(ConnectStep(sys, s).0)
  {
    var sys' := ConnectStep(sys, s).0;
    OneSessionSteps(sys, sys', s, sys'.sessions[s]);
  }

  lemma LoginKeepsInv(sys: System, s: nat, act: string, pin: nat)
    requires Inv(sys) && s in sys.sessions && sys.sessions[s].phase.Anon?
    ensures Inv(LoginEffect(sys, s, act, pin).0)
  {
    var sys' := LoginEffect(sys, s, act, pin).0;
    OneSessionSteps(sys, sys', s, sys'.sessions[s]);
  }

  lemma DebitKeepsInv(sys: System, s: nat)
    requires Inv(sys) && s in sys.sessions && sys.sessions[s].phase.Checked?
    ensures Inv(DebitEffect(sys, s))
  {
    var sys' := DebitEffect(sys, s);
    OneSessionSteps(sys, sys', s, sys'.sessions[s]);
  }

  lemma CreditKeepsInv(sys: System, s: nat)
    requires Inv(sys) && s in sys.sessions && sys.sessions[s].phase.Owing?
    ensures Inv(CreditEffect(sys, s).0)
  {
    var ph := sys.sessions[s].phase;
    var t := ph.recipient;
    if t in sys.locks {
      PhaseKeepsInv(sys, s, Active);
    } else if t in sys.files {
      var raised := Raised(sys, t, ph.amount);
      RaisedKeepsInv(sys, t, ph.amount);
      assert SessionOk(raised.names, raised.files, raised.locks, raised.sessions[s]);
      PhaseKeepsInv(raised, s, Active);
    } else {
      MovedKeepsInv(sys, s, ph.amount, Active);
    }
  }

  lemma LogoutKeepsInv(sys: System, s: nat)
    requires Inv(sys) && s in sys.sessions && sys.sessions[s].phase.Active?
    ensures Inv(LogoutEffect(sys, s).0)
  {
    var sys' := LogoutEffect(sys, s).0;
    OneSessionSteps(sys, sys', s, sys'.sessions[s]);
  }

  lemma RefreshKeepsInv(sys: System, s: nat, amount: nat)
    requires Inv(sys) && In(sys, s, true)
    ensures LoggedIn(sys.sessions[s]) && sys.sessions[s].act in sys.files && Inv(Moved(sys, s, amount, Active))
  {
    InvIsGrounded(sys);
    MovedKeepsInv(sys, s, amount, Active);
  }

  lemma CheckKeepsInv(sys: System, s: nat, amount: nat, dest: Option<string>)
    requires Inv(sys) && Grounded(sys) && In(sys, s, true) && Affordable(sys, s, amount, dest)
    ensures Inv(InPhase(sys, s, Checked(amount, dest)))
  {
    assert SessionOk(sys.names, sys.files, sys.locks, sys.sessions[s]);
    PhaseKeepsInv(sys, s, Checked(amount, dest));
  }

  lemma TimeoutKeepsInv(sys: System, s: nat)
    requires Inv(sys) && In(sys, s, true)
    ensures Inv(InPhase(sys, s, TimedOut))
  {
    assert SessionOk(sys.names, sys.files, sys.locks, sys.sessions[s]);
    PhaseKeepsInv(sys, s, TimedOut);
  }

  lemma LeaveKeepsInv(sys: System, s: nat)
    requires Inv(sys) && In(sys, s, false)
    ensures Inv(InPhase(sys, s, Closed))
  {
    assert SessionOk(sys.names, sys.files, sys.locks, sys.sessions[s]);
    PhaseKeepsInv(sys, s, Closed);
  }

  /** The events of a session that is logged in and stays so. */
  predicate Transacts(e: Event) {
    e.Deposit? || e.Check? || e.Debit? || e.Credit? || e.Inquire?
  }

  lemma TransactionKeepsInv(sys: System, e: Event)
    requires Inv(sys) && Grounded(sys) && Transacts(e)
    ensures Inv(Effect(sys, e).0)
  {
    match e {
      case Deposit(s, amount) => if In(sys, s, true) { RefreshKeepsInv(sys, s, amount); }
      case Check(s, amount, dest) =>
        if In(sys, s, true) && Affordable(sys, s, amount, dest) { CheckKeepsInv(sys, s, amount, dest); }
      case Debit(s) => if s in sys.sessions && sys.sessions[s].phase.Checked? { DebitKeepsInv(sys, s); }
      case Credit(s) => if s in sys.sessions && sys.sessions[s].phase.Owing? { CreditKeepsInv(sys, s); }
      case Inquire(s) => if In(sys, s, true) { RefreshKeepsInv(sys, s, 0); }
    }
  }

  lemma EffectKeepsInv(sys: System, e: Event)
    requires Inv(sys) && Grounded(sys)
    ensures Inv(Effect(sys, e).0)
  {
    match e {
      case Connect(s) => if s !in sys.sessions { ConnectKeepsInv(sys, s); }
      case Login(s, act, pin) => if In(sys, s, false) { LoginKeepsInv(sys, s, act, pin); }
      case Logout(s) =>
        if In(sys, s, true) { LogoutKeepsInv(sys, s); } else if In(sys, s, false) { LeaveKeepsInv(sys, s); }
      case Timeout(s) =>
        if In(sys, s, true) { TimeoutKeepsInv(sys, s); } else if In(sys, s, false) { LeaveKeepsInv(sys, s); }
      case Operator(name, amount) => if name in sys.files { RaisedKeepsInv(sys, name, amount); }
      case _ => TransactionKeepsInv(sys, e);
    }
  }

  /**
   Every step keeps the invariant: balances stay non-negative although a withdrawal is tested against a
   cached balance, each logged-in session's account is locked for it alone with the right PIN cached,
   everybody else's cache of it is reset, and no process ends by exit() inside an account call.
   */
  lemma StepKeepsInv(sys: System, e: Event)
    requires Inv(sys)
    ensures Inv(Next(sys, e))
  {
    InvIsGrounded(sys);
    StepIsEffect(sys, e);
    EffectKeepsInv(sys, e);
  }

  lemma {:induction false} RunKeepsInv(sys: System, es: seq<Event>)
    requires Inv(sys)
    ensures Inv(Run(sys, es))
    decreases |es|
  {
    if es != [] {
      StepKeepsInv(sys, es[0]);
      RunKeepsInv(Next(sys, es[0]), es[1..]);
    }
  }

  lemma InitEstablishesInv(sys: System)
    requires Init(sys)
    ensures Inv(sys)
  {
  }
}
