/**
 A plain ledger: one balance per account, a set of locked accounts and who sits at which account. No
 caches, no re-reading, no credentials after login. The bank's calls are held against it.
 */
module Book {
  import opened Wrappers
  import opened Ledger
  import opened System
  import opened SystemInvariant
  import opened Calls
  import LedgerLaws
  import Lockout

  datatype Book = Book(
    names: set<string>,
    pins: map<string, int>,
    money: map<string, int>,
    locked: set<string>,
    attempts: seq<Lockout.Entry>,
    known: set<nat>,
    waiting: set<nat>,
    seat: map<nat, string>)

  function Add(b: Book, n: string, delta: int): Book
    requires n in b.money
  {
    b.(money := b.money[n := b.money[n] + delta])
  }

  /** Whether session `s` sits at an account with a balance. */
  predicate Seated(b: Book, s: nat) {
    s in b.seat && b.seat[s] in b.money
  }

  function LoginEntry(b: Book, s: nat, act: string, pin: nat): (Book, Reply) {
    var (attempts, admitted) := Lockout.Login(b.attempts, act);
    var b1 := b.(attempts := attempts, waiting := b.waiting - {s});
    if !admitted then (b1, LockedOut)
    else if act in b.names && act !in b.locked && act in b.pins && b.pins[act] == pin
    then (b1.(locked := b.locked + {act}, seat := b.seat[s := act]), Accepted)
    else (b1, Refused)
  }

  function TransferEntry(b: Book, s: nat, t: string, amount: nat): (Book, Reply)
    requires Seated(b, s)
  {
    var act := b.seat[s];
    if t == act || t !in b.names || amount > b.money[act] then (b, Refused)
    else if t in b.locked then (Add(b, act, 0 - amount), Refused)
    else if t !in b.money then (b, Refused)
    else (Add(Add(b, act, 0 - amount), t, amount), Accepted)
  }

  function LeaveEntry(b: Book, s: nat, unlock: bool): (Book, Reply) {
    if s in b.waiting then (b.(waiting := b.waiting - {s}), Accepted)
    else if s !in b.seat then (b, Ignored)
    else (b.(seat := b.seat - {s}, locked := if unlock then b.locked - {b.seat[s]} else b.locked), Accepted)
  }

  function Entry(b: Book, c: Call): (Book, Reply) {
    match c
    case Single(Connect(s)) =>
      if s in b.known then (b, Ignored) else (b.(known := b.known + {s}, waiting := b.waiting + {s}), Accepted)
    case Single(Login(s, act, pin)) => if s in b.waiting then LoginEntry(b, s, act, pin) else (b, Ignored)
    case Single(Deposit(s, amount)) => if Seated(b, s) then (Add(b, b.seat[s], amount), Accepted) else (b, Ignored)
    case Single(Inquire(s)) => if Seated(b, s) then (b, Balance(b.money[b.seat[s]])) else (b, Ignored)
    case Single(Logout(s)) => LeaveEntry(b, s, true)
    case Single(Timeout(s)) => LeaveEntry(b, s, false)
    case Single(Operator(name, amount)) => if name in b.money then (Add(b, name, amount), Accepted) else (b, Refused)
    case Single(_) => (b, Ignored)
    case Withdraw(s, amount) =>
      if !Seated(b, s) then (b, Ignored)
      else if amount <= b.money[b.seat[s]] then (Add(b, b.seat[s], 0 - amount), Paid(amount))
      else (b, Refused)
    case Transfer(s, t, amount) => if Seated(b, s) then TransferEntry(b, s, t, amount) else (b, Ignored)
  }

  // ---------- The book of a system ----------

  function Pins(files: map<string, File>): map<string, int> {
    map n | n in files :: files[n].pin
  }

  function Waiting(sessions: map<nat, Session>): set<nat> {
    set s | s in sessions && sessions[s].phase.Anon?
  }

  function Seats(sessions: map<nat, Session>): map<nat, string> {
    map s | s in sessions && LoggedIn(sessions[s]) :: sessions[s].act
  }

  function BookOf(sys: System): Book {
    Book(sys.names, Pins(sys.files), LedgerLaws.Balances(sys.files), sys.locks, sys.lockout,
         sys.sessions.Keys, Waiting(sys.sessions), Seats(sys.sessions))
  }

  lemma FileInBook(files: map<string, File>, n: string, balance: int)
    requires n in files
    ensures Pins(files[n := File(files[n].pin, balance)]) == Pins(files)
    ensures LedgerLaws.Balances(files[n := File(files[n].pin, balance)]) == LedgerLaws.Balances(files)[n := balance]
  {
  }

  /** What the book sees of one session replaced or added. */
  lemma SessionInBook(sessions: map<nat, Session>, s: nat, ses: Session)
    ensures Waiting(sessions[s := ses]) == if ses.phase.Anon? then Waiting(sessions) + {s} else Waiting(sessions) - {s}
    ensures Seats(sessions[s := ses]) == if LoggedIn(ses) then Seats(sessions)[s := ses.act] else Seats(sessions) - {s}
    ensures sessions[s := ses].Keys == sessions.Keys + {s}
  {
  }

  lemma MovedInBook(sys: System, s: nat, delta: int)
    requires s in sys.sessions && sys.sessions[s].act in sys.files && LoggedIn(sys.sessions[s])
    ensures Seated(BookOf(sys), s) && BookOf(sys).seat[s] == sys.sessions[s].act
    ensures BookOf(Moved(sys, s, delta, Active)) == Add(BookOf(sys), sys.sessions[s].act, delta)
  {
    var act := sys.sessions[s].act;
    FileInBook(sys.files, act, sys.files[act].balance + delta);
    var ses := Moved(sys, s, delta, Active).sessions[s];
    SessionInBook(sys.sessions, s, ses);
    assert Waiting(sys.sessions) - {s} == Waiting(sys.sessions);
    assert Seats(sys.sessions)[s := act] == Seats(sys.sessions);
    assert sys.sessions.Keys + {s} == sys.sessions.Keys;
    assert BookOf(Moved(sys, s, delta, Active)).money == Add(BookOf(sys), act, delta).money;
  }

  lemma RaisedInBook(sys: System, n: string, amount: nat)
    requires n in sys.files
    ensures BookOf(Raised(sys, n, amount)) == Add(BookOf(sys), n, amount)
  {
    FileInBook(sys.files, n, sys.files[n].balance + amount);
    assert BookOf(Raised(sys, n, amount)).money == Add(BookOf(sys), n, amount).money;
  }

  lemma PhaseInBook(sys: System, s: nat, phase: Phase)
    requires s in sys.sessions && !phase.Anon? && !LoggedIn(sys.sessions[s].(phase := phase))
    ensures BookOf(InPhase(sys, s, phase)) ==
            BookOf(sys).(waiting := Waiting(sys.sessions) - {s}, seat := Seats(sys.sessions) - {s})
  {
    SessionInBook(sys.sessions, s, sys.sessions[s].(phase := phase));
    assert sys.sessions.Keys + {s} == sys.sessions.Keys;
  }

  // ---------- Refinement ----------

  /**
   The call is one the bank refuses although the money is there: the amount lies above the cached balance
   but within the file's, and nothing else stands against the debit.
   */
  predicate Stale(sys: System, c: Call) {
    match c
    case Single(_) => false
    case Withdraw(s, amount) => Short(sys, s, amount)
    case Transfer(s, t, amount) =>
      && Short(sys, s, amount)
      && t != sys.sessions[s].act && t in sys.names && (t in sys.locks || t in sys.files)
  }

  predicate Short(sys: System, s: nat, amount: nat) {
    && In(sys, s, true)
    && var ses := sys.sessions[s];
       ses.act in ses.caches && ses.act in sys.files
       && ses.caches[ses.act].balance < amount <= sys.files[ses.act].balance
  }

  lemma NotActive(sys: System, s: nat)
    requires Inv(sys) && Whole(sys)
    ensures Seated(BookOf(sys), s) <==> In(sys, s, true)
    ensures s in BookOf(sys).seat <==> In(sys, s, true)
    ensures s in BookOf(sys).waiting <==> In(sys, s, false)
    ensures In(sys, s, true) ==> BookOf(sys).seat[s] == sys.sessions[s].act
  {
    if s in sys.sessions {
      assert SessionOk(sys.names, sys.files, sys.locks, sys.sessions[s]);
    }
  }

  predicate Agrees(sys: System, c: Call, after: (System, Reply)) {
    (BookOf(after.0), after.1) == Entry(BookOf(sys), c)
  }

  /** Of session `s`, logged in: the cached balance is not negative and not above the file's. */
  predicate CacheBelowFile(sys: System, s: nat) {
    && In(sys, s, true) && sys.sessions[s].act in sys.files && sys.sessions[s].act in sys.sessions[s].caches
    && 0 <= sys.sessions[s].caches[sys.sessions[s].act].balance <= sys.files[sys.sessions[s].act].balance
  }

  lemma WithdrawVerdict(sys: System, s: nat, amount: nat, after: (System, Reply))
    requires CacheBelowFile(sys, s)
    requires after == if amount <= sys.sessions[s].caches[sys.sessions[s].act].balance
                      then (Moved(sys, s, 0 - amount, Active), Paid(amount)) else (sys, Refused)
    ensures Agrees(sys, Withdraw(s, amount), after) <==> !Stale(sys, Withdraw(s, amount))
  {
    MovedInBook(sys, s, 0 - amount);
  }

  lemma WithdrawRefines(sys: System, s: nat, amount: nat)
    requires Inv(sys) && Whole(sys)
    ensures Agrees(sys, Withdraw(s, amount), WithdrawCall(sys, s, amount)) <==> !Stale(sys, Withdraw(s, amount))
  {
    NotActive(sys, s);
    if In(sys, s, true) {
      assert SessionOk(sys.names, sys.files, sys.locks, sys.sessions[s]);
      WithdrawIsEffect(sys, s, amount);
      WithdrawVerdict(sys, s, amount, WithdrawCall(sys, s, amount));
    }
  }

  /** Re-reading the balance is nothing to the book. */
  lemma RefreshInBook(sys: System, s: nat)
    requires s in sys.sessions && sys.sessions[s].act in sys.files && LoggedIn(sys.sessions[s])
    ensures BookOf(Moved(sys, s, 0, Active)) == BookOf(sys)
  {
    var b, act := BookOf(sys), sys.sessions[s].act;
    MovedInBook(sys, s, 0);
    assert b.money[act := b.money[act] + 0] == b.money;
  }

  lemma CreditInBook(sys: System, s: nat, t: string, amount: nat)
    requires s in sys.sessions && sys.sessions[s].act in sys.files && LoggedIn(sys.sessions[s])
    requires t in sys.files
    ensures BookOf(Raised(Moved(sys, s, 0 - amount, Active), t, amount)) ==
            Add(Add(BookOf(sys), sys.sessions[s].act, 0 - amount), t, amount)
  {
    MovedInBook(sys, s, 0 - amount);
    RaisedInBook(Moved(sys, s, 0 - amount, Active), t, amount);
  }

  /** The entry of a transfer whose tests pass in the book, next to what the bank leaves when its own pass. */
  lemma TransferEntryAgrees(sys: System, s: nat, t: string, amount: nat)
    requires s in sys.sessions && sys.sessions[s].act in sys.files && LoggedIn(sys.sessions[s])
    requires t != sys.sessions[s].act && t in sys.names && amount <= sys.files[sys.sessions[s].act].balance
    ensures Seated(BookOf(sys), s)
    ensures TransferEntry(BookOf(sys), s, t, amount) ==
            (BookOf(Transferred(sys, s, t, amount)), if t !in sys.locks && t in sys.files then Accepted else Refused)
  {
    MovedInBook(sys, s, 0 - amount);
    if t in sys.locks {
    } else if t in sys.files {
      CreditInBook(sys, s, t, amount);
    } else {
      RefreshInBook(sys, s);
    }
  }

  lemma TransferVerdict(sys: System, s: nat, t: string, amount: nat, after: (System, Reply))
    requires CacheBelowFile(sys, s)
    requires after ==
      if Affordable(sys, s, amount, Some(t))
      then (Transferred(sys, s, t, amount), if t !in sys.locks && t in sys.files then Accepted else Refused)
      else (sys, Refused)
    ensures Seated(BookOf(sys), s)
    ensures (BookOf(after.0), after.1) == TransferEntry(BookOf(sys), s, t, amount)
            <==> !Stale(sys, Transfer(s, t, amount))
  {
    var act, b := sys.sessions[s].act, BookOf(sys);
    if t != act && t in sys.names && amount <= sys.files[act].balance {
      TransferEntryAgrees(sys, s, t, amount);
      assert amount > 0 ==> Add(b, act, 0 - amount).money[act] != b.money[act];
    }
  }

  lemma TransferRefines(sys: System, s: nat, t: string, amount: nat)
    requires Inv(sys) && Whole(sys)
    ensures Agrees(sys, Transfer(s, t, amount), TransferCall(sys, s, t, amount))
            <==> !Stale(sys, Transfer(s, t, amount))
  {
    NotActive(sys, s);
    if In(sys, s, true) {
      assert SessionOk(sys.names, sys.files, sys.locks, sys.sessions[s]);
      TransferIsEffect(sys, s, t, amount);
      TransferVerdict(sys, s, t, amount, TransferCall(sys, s, t, amount));
    }
  }

  lemma LoginRefines(sys: System, s: nat, act: string, pin: nat)
    requires s in sys.sessions && sys.sessions[s].phase.Anon?
    ensures var (sys', r) := LoginEffect(sys, s, act, pin); (BookOf(sys'), r) == LoginEntry(BookOf(sys), s, act, pin)
  {
    var sys' := LoginEffect(sys, s, act, pin).0;
    SessionInBook(sys.sessions, s, sys'.sessions[s]);
    assert Seats(sys.sessions) - {s} == Seats(sys.sessions);
    assert sys.sessions.Keys + {s} == sys.sessions.Keys;
  }

  lemma LogoutRefines(sys: System, s: nat)
    requires In(sys, s, true)
    ensures (BookOf(LogoutEffect(sys, s).0), Accepted) == LeaveEntry(BookOf(sys), s, true)
  {
    SessionInBook(sys.sessions, s, LogoutEffect(sys, s).0.sessions[s]);
    assert sys.sessions.Keys + {s} == sys.sessions.Keys;
    assert Waiting(sys.sessions) - {s} == Waiting(sys.sessions);
  }

  lemma TimeoutRefines(sys: System, s: nat)
    requires In(sys, s, true)
    ensures (BookOf(InPhase(sys, s, TimedOut)), Accepted) == LeaveEntry(BookOf(sys), s, false)
  {
    PhaseInBook(sys, s, TimedOut);
    assert Waiting(sys.sessions) - {s} == Waiting(sys.sessions);
  }

  lemma CloseRefines(sys: System, s: nat, unlock: bool)
    requires In(sys, s, false)
    ensures (BookOf(InPhase(sys, s, Closed)), Accepted) == LeaveEntry(BookOf(sys), s, unlock)
  {
    PhaseInBook(sys, s, Closed);
    assert Seats(sys.sessions) - {s} == Seats(sys.sessions);
  }

  lemma ConnectRefines(sys: System, s: nat)
    ensures Agrees(sys, Single(Connect(s)), ConnectStep(sys, s))
  {
    if s !in sys.sessions {
      SessionInBook(sys.sessions, s, ConnectStep(sys, s).0.sessions[s]);
      assert Seats(sys.sessions) - {s} == Seats(sys.sessions);
    }
  }

  lemma EnterRefines(sys: System, e: Event)
    requires Inv(sys) && Whole(sys) && (e.Connect? || e.Login? || e.Operator?)
    ensures Agrees(sys, Single(e), Step(sys, e))
  {
    StepIsEffect(sys, e);
    match e {
      case Connect(s) => ConnectRefines(sys, s);
      case Operator(name, amount) => if name in sys.files { RaisedInBook(sys, name, amount); }
      case Login(s, act, pin) =>
        NotActive(sys, s);
        if In(sys, s, false) { LoginRefines(sys, s, act, pin); }
    }
  }

  lemma StayRefines(sys: System, e: Event)
    requires Inv(sys) && Whole(sys) && (e.Deposit? || e.Inquire?)
    ensures Agrees(sys, Single(e), Step(sys, e))
  {
    StepIsEffect(sys, e);
    NotActive(sys, e.s);
    if In(sys, e.s, true) {
      if e.Deposit? { MovedInBook(sys, e.s, e.amount); } else { RefreshInBook(sys, e.s); }
    }
  }

  lemma LeaveRefines(sys: System, e: Event)
    requires Inv(sys) && Whole(sys) && (e.Logout? || e.Timeout?)
    ensures Agrees(sys, Single(e), Step(sys, e))
  {
    StepIsEffect(sys, e);
    NotActive(sys, e.s);
    if In(sys, e.s, true) {
      if e.Logout? { LogoutRefines(sys, e.s); } else { TimeoutRefines(sys, e.s); }
    } else if In(sys, e.s, false) {
      CloseRefines(sys, e.s, e.Logout?);
    }
  }

  lemma SingleRefines(sys: System, e: Event)
    requires Inv(sys) && Whole(sys) && WholeCall(e)
    ensures Agrees(sys, Single(e), Step(sys, e))
  {
    if e.Connect? || e.Login? || e.Operator? {
      EnterRefines(sys, e);
    } else if e.Deposit? || e.Inquire? {
      StayRefines(sys, e);
    } else {
      LeaveRefines(sys, e);
    }
  }

  /**
   A bank call gives the plain ledger's answer and leaves the plain ledger's balances, locks and seats
   exactly when it is not a debit between the cached balance and the file's.
   */
  lemma CallRefines(sys: System, c: Call)
    requires Inv(sys) && Whole(sys)
    ensures Agrees(sys, c, CallStep(sys, c)) <==> !Stale(sys, c)
  {
    match c {
      case Single(e) =>
        if WholeCall(e) { SingleRefines(sys, e); }
      case Withdraw(s, amount) => WithdrawRefines(sys, s, amount);
      case Transfer(s, t, amount) => TransferRefines(sys, s, t, amount);
    }
  }

  // ---------- Runs ----------

  function Replies(sys: System, cs: seq<Call>): seq<Reply>
    decreases |cs|
  {
    if cs == [] then [] else [CallStep(sys, cs[0]).1] + Replies(CallStep(sys, cs[0]).0, cs[1..])
  }

  function Entries(b: Book, cs: seq<Call>): (Book, seq<Reply>)
    decreases |cs|
  {
    if cs == [] then (b, [])
    else
      var (b1, r) := Entry(b, cs[0]);
      var (b2, rs) := Entries(b1, cs[1..]);
      (b2, [r] + rs)
  }

  predicate NeverStale(sys: System, cs: seq<Call>)
    decreases |cs|
  {
    cs == [] || (!Stale(sys, cs[0]) && NeverStale(CallStep(sys, cs[0]).0, cs[1..]))
  }

  /** A run without stale refusals gives the plain ledger's answers and ends with the plain ledger's balances. */
  lemma {:induction false} RunRefines(sys: System, cs: seq<Call>)
    requires Inv(sys) && Whole(sys) && NeverStale(sys, cs)
    ensures Entries(BookOf(sys), cs) == (BookOf(CallRun(sys, cs)), Replies(sys, cs))
    decreases |cs|
  {
    if cs != [] {
      CallRefines(sys, cs[0]);
      CallsAreRuns(sys, [cs[0]]);
      assert CallRun(sys, [cs[0]]) == CallRun(CallStep(sys, cs[0]).0, []);
      RunRefines(CallStep(sys, cs[0]).0, cs[1..]);
    }
  }

  /** Every logged-in session's cached balance is the file's. */
  predicate Fresh(sys: System) {
    forall s | s in sys.sessions && LoggedIn(sys.sessions[s]) ::
      sys.sessions[s].act in sys.sessions[s].caches && sys.sessions[s].act in sys.files
      && sys.sessions[s].caches[sys.sessions[s].act].balance == sys.files[sys.sessions[s].act].balance
  }

  /** An operator's deposit to an account somebody is logged in to. */
  predicate Intrudes(sys: System, c: Call) {
    c.Single? && c.e.Operator? && c.e.name in Seats(sys.sessions).Values
  }

  predicate NeverIntrudes(sys: System, cs: seq<Call>)
    decreases |cs|
  {
    cs == [] || (!Intrudes(sys, cs[0]) && NeverIntrudes(CallStep(sys, cs[0]).0, cs[1..]))
  }

  /** One session's balances moved or one account raised: caches stay fresh if nobody else is at the account. */
  lemma MovedKeepsFresh(sys: System, s: nat, delta: int)
    requires Inv(sys) && Fresh(sys) && s in sys.sessions && LoggedIn(sys.sessions[s])
    ensures Fresh(Moved(sys, s, delta, Active))
  {
  }

  lemma RaisedKeepsFresh(sys: System, n: string, amount: nat)
    requires Fresh(sys) && n in sys.files
    requires forall s | s in sys.sessions && LoggedIn(sys.sessions[s]) :: sys.sessions[s].act != n
    ensures Fresh(Raised(sys, n, amount))
  {
  }

  lemma SingleKeepsFresh(sys: System, e: Event)
    requires Grounded(sys) && Fresh(sys) && WholeCall(e) && !e.Operator? && !e.Deposit? && !e.Inquire?
    ensures Fresh(Effect(sys, e).0)
  {
  }

  lemma OperatorKeepsFresh(sys: System, name: string, amount: nat)
    requires Fresh(sys) && name in sys.files && name !in Seats(sys.sessions).Values
    ensures Fresh(Raised(sys, name, amount))
  {
    forall s | s in sys.sessions && LoggedIn(sys.sessions[s]) ensures sys.sessions[s].act != name {
      assert Seats(sys.sessions)[s] == sys.sessions[s].act;
    }
    RaisedKeepsFresh(sys, name, amount);
  }

  lemma EffectKeepsFresh(sys: System, e: Event)
    requires Inv(sys) && Whole(sys) && Fresh(sys) && WholeCall(e) && !Intrudes(sys, Single(e))
    ensures Fresh(Effect(sys, e).0)
  {
    match e {
      case Operator(name, amount) => if name in sys.files { OperatorKeepsFresh(sys, name, amount); }
      case Deposit(s, amount) => if In(sys, s, true) { MovedKeepsFresh(sys, s, amount); }
      case Inquire(s) => if In(sys, s, true) { MovedKeepsFresh(sys, s, 0); }
      case _ => SingleKeepsFresh(sys, e);
    }
  }

  lemma TransferredKeepsFresh(sys: System, s: nat, t: string, amount: nat)
    requires Inv(sys) && Fresh(sys) && In(sys, s, true) && t != sys.sessions[s].act
    ensures Fresh(Transferred(sys, s, t, amount))
  {
    var paid := Moved(sys, s, 0 - amount, Active);
    MovedKeepsFresh(sys, s, 0 - amount);
    MovedKeepsFresh(sys, s, 0);
    if t in sys.files && t !in sys.locks {
      forall r | r in paid.sessions && LoggedIn(paid.sessions[r]) ensures paid.sessions[r].act != t {
        assert SessionOk(sys.names, sys.files, sys.locks, sys.sessions[r]);
      }
      RaisedKeepsFresh(paid, t, amount);
    }
  }

  lemma CallKeepsFresh(sys: System, c: Call)
    requires Inv(sys) && Whole(sys) && Fresh(sys) && !Intrudes(sys, c)
    ensures Fresh(CallStep(sys, c).0)
  {
    match c {
      case Single(e) =>
        if WholeCall(e) {
          StepIsEffect(sys, e);
          EffectKeepsFresh(sys, e);
        }
      case Withdraw(s, amount) =>
        if In(sys, s, true) {
          WithdrawIsEffect(sys, s, amount);
          MovedKeepsFresh(sys, s, 0 - amount);
        }
      case Transfer(s, t, amount) =>
        if In(sys, s, true) {
          TransferIsEffect(sys, s, t, amount);
          if t != sys.sessions[s].act {
            TransferredKeepsFresh(sys, s, t, amount);
          }
        }
    }
  }

  /**
   If the operator never deposits to an account while somebody is logged in to it, no call is refused on
   a stale balance, and the run is the plain ledger's run.
   */
  lemma {:induction false} UndisturbedRunRefines(sys: System, cs: seq<Call>)
    requires Inv(sys) && Whole(sys) && Fresh(sys) && NeverIntrudes(sys, cs)
    ensures NeverStale(sys, cs)
    ensures Entries(BookOf(sys), cs) == (BookOf(CallRun(sys, cs)), Replies(sys, cs))
    decreases |cs|
  {
    if cs != [] {
      assert !Stale(sys, cs[0]);
      CallKeepsFresh(sys, cs[0]);
      CallsAreRuns(sys, [cs[0]]);
      assert CallRun(sys, [cs[0]]) == CallRun(CallStep(sys, cs[0]).0, []);
      UndisturbedRunRefines(CallStep(sys, cs[0]).0, cs[1..]);
    }
    RunRefines(sys, cs);
  }

  /** One account, empty, and nobody there yet. */
  function EmptyAccount(): System {
    System({"a"}, map["a" := File(1111, 0)], {}, [], map[])
  }

  /** The same with its owner logged in, the balance of the file being `balance`. */
  function OwnerThere(balance: int): System {
    var ses := Session(map["a" := Cache(1111, 0)], Active, "a", 1111);
    System({"a"}, map["a" := File(1111, balance)], {"a"}, [Lockout.Entry("a", 1)], map[0 := ses])
  }

  lemma OwnerComes()
    ensures CallRun(EmptyAccount(), [Single(Connect(0)), Single(Login(0, "a", 1111))]) == OwnerThere(0)
  {
    var login := Single(Login(0, "a", 1111));
    var sys0 := EmptyAccount();
    var sys1 := CallStep(sys0, Single(Connect(0))).0;
    assert [Single(Connect(0)), login][1..] == [login];
    assert CallRun(sys1, [login]) == CallRun(CallStep(sys1, login).0, []);
    InitEstablishesInv(sys0);
    StepKeepsInv(sys0, Connect(0));
    LoginIsEffect(sys1, 0, "a", 1111);
    assert LoginEffect(sys1, 0, "a", 1111).0.sessions[0].caches == map["a" := Cache(1111, 0)];
    assert LoginEffect(sys1, 0, "a", 1111).0 == OwnerThere(0);
  }

  /**
   The plain ledger is not met in general: after a login to an empty account and an operator's deposit of
   50, a withdrawal of 20 is refused though the file shows the money.
   */
  lemma StaleRefusalHappens()
    ensures Init(EmptyAccount())
    ensures CallRun(EmptyAccount(), [Single(Connect(0)), Single(Login(0, "a", 1111))]) == OwnerThere(0)
    ensures CallStep(OwnerThere(0), Single(Operator("a", 50))).0 == OwnerThere(50)
    ensures CallStep(OwnerThere(50), Withdraw(0, 20)).1 == Refused
    ensures Entry(BookOf(OwnerThere(50)), Withdraw(0, 20)).1 == Paid(20)
  {
    OwnerComes();
    assert Seated(BookOf(OwnerThere(50)), 0);
  }
}
