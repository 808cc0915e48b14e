/**
 What holds over every run of the finer system: money and locks; and how its runs relate to those of the coarser
 one, which are just the ones in which nobody meets a passing lock.
 */
module MomentLaws {
  import opened Wrappers
  import opened Ledger
  import L = Ledger
  import opened System
  import opened SystemInvariant
  import opened SystemLaws
  import opened Moments
  import Lockout
  import Ownership

  // ---------- Conservation ----------

  /** What a move reports. */
  function FineReported(mv: Move, r: Option<Reply>): Tally {
    match r
    case None => NOTHING
    case Some(reply) => Reported(if mv.Do? then mv.e else Credit(mv.s), reply)
  }

  function FineTotal(f: Fine, mvs: seq<Move>): Tally
    decreases |mvs|
  {
    if mvs == [] then NOTHING
    else
      var (f', r) := FineStep(f, mvs[0]);
      Plus(FineReported(mvs[0], r), FineTotal(f', mvs[1..]))
  }

  predicate Quiet(ses: Session) {
    !ses.phase.Owing?
  }

  /** Neither a file nor what is in flight has changed. */
  lemma QuietReplacement(sys: System, sys': System, s: nat, ses: Session)
    requires s in sys.sessions && sys'.files == sys.files && sys'.sessions == sys.sessions[s := ses]
    requires Quiet(sys.sessions[s]) && Quiet(ses)
    ensures Worth(sys') == Worth(sys)
  {
    WorthSession(sys, sys', s, ses);
  }

  lemma AskWorth(f: Fine, s: nat, act: string, pin: nat)
    requires s in f.sys.sessions
    ensures Worth(AskStep(f, s, act, pin).0.sys) == Worth(f.sys)
  {
    var f' := AskStep(f, s, act, pin).0;
    if f.sys.sessions[s].phase.Anon? && f'.sys.sessions != f.sys.sessions {
      QuietReplacement(f.sys, f'.sys, s, f'.sys.sessions[s]);
    }
  }

  lemma TakeWorth(f: Fine, s: nat, act: string, pin: nat)
    requires s in f.sys.sessions && f.sys.sessions[s].phase.Anon?
    ensures Worth(TakeStep(f, s, act, pin).0.sys) == Worth(f.sys)
  {
    var caches := f.sys.sessions[s].caches;
    var turned := Tried(f.sys, s, act, pin, caches, Closed);
    QuietReplacement(f.sys, turned, s, turned.sessions[s]);
    if act in caches && act !in f.sys.locks && act in f.sys.files {
      LoadIsEffect(f.sys, act, caches[act]);
    }
  }

  lemma JudgeWorth(f: Fine, s: nat, act: string, pin: nat, cache: Cache)
    requires s in f.sys.sessions && f.sys.sessions[s].phase.Anon? && act in f.sys.locks && act in f.sys.files
    ensures Worth(JudgeStep(f, s, act, pin, cache).0.sys) == Worth(f.sys)
  {
    SaveIsEffect(f.sys, act, cache);
    var sys' := JudgeStep(f, s, act, pin, cache).0.sys;
    QuietReplacement(f.sys, sys', s, sys'.sessions[s]);
  }

  lemma ReachWorth(f: Fine, s: nat)
    requires s in f.sys.sessions
    ensures var (f', r) := ReachStep(f, s); Balanced(Worth(f.sys), Worth(f'.sys), FineReported(Do(Credit(s)), r))
  {
    var ses := f.sys.sessions[s];
    if ses.phase.Owing? && ses.phase.recipient in ses.caches {
      var t := ses.phase.recipient;
      if t in f.sys.locks {
        PhaseWorth(f.sys, s, Active);
      } else if t in f.sys.files {
        LoadIsEffect(f.sys, t, ses.caches[t]);
      } else {
        NoLoadIsEffect(f.sys, t, ses.caches[t]);
      }
    }
  }

  lemma PaidWorth(sys: System, s: nat, t: string, amount: nat)
    requires s in sys.sessions && t in sys.files && PhaseFits(sys.sessions[s].phase, Returning(amount))
    ensures Worth(InPhase(Raised(sys, t, amount), s, Active)) == Worth(sys)
  {
    RaisedWorth(sys, t, amount);
    PhaseWorth(Raised(sys, t, amount), s, Active);
  }

  lemma PayWorth(f: Fine, s: nat, t: string, amount: nat, cache: Cache)
    requires s in f.sys.sessions && f.sys.sessions[s].phase == Owing(t, amount) && HeldOk(f.sys, t, cache)
    ensures Worth(PayStep(f, s, t, amount, cache).0.sys) == Worth(f.sys)
    ensures PayStep(f, s, t, amount, cache).1.None?
  {
    PayIsEffect(f.sys, t, cache, amount);
    PaidWorth(f.sys, s, t, amount);
  }

  lemma ReturnWorth(f: Fine, s: nat, amount: nat)
    requires Inv(f.sys) && s in f.sys.sessions && PhaseFits(f.sys.sessions[s].phase, Returning(amount))
    ensures Worth(ReturnStep(f, s, amount).0.sys) == Worth(f.sys)
    ensures ReturnStep(f, s, amount).1 == Some(Settled(Refunded, amount))
  {
    ReturnIsEffect(f.sys, s);
    MovedWorth(f.sys, s, amount, Active);
  }

  lemma GoWorth(f: Fine, s: nat)
    requires FineInv(f) && s in f.sys.sessions && s in f.moments
    ensures var (f', r) := GoStep(f, s); Worth(f'.sys) == Worth(f.sys) && FineReported(Go(s), r) == NOTHING
  {
    var m, sys := f.moments[s], f.sys;
    assert MomentOk(sys, s, m);
    match m {
      case Admitted(act, pin) => TakeWorth(f, s, act, pin);
      case Entering(act, pin, cache) => JudgeWorth(f, s, act, pin, cache);
      case Paying(t, amount, cache) => PayWorth(f, s, t, amount, cache);
      case Releasing(t, amount, cache) => ReleaseIsEffect(sys, s, t, cache);
      case Returning(amount) => ReturnWorth(f, s, amount);
    }
  }

  lemma PlainBalances(f: Fine, e: Event)
    requires Inv(f.sys)
    ensures Balanced(Worth(f.sys), Worth(Next(f.sys, e)), FineReported(Do(e), Some(ReplyTo(f.sys, e))))
  {
    StepBalances(f.sys, e);
  }

  lemma DoBalances(f: Fine, e: Event)
    requires Inv(f.sys)
    ensures var (f', r) := FineStep(f, Do(e)); Balanced(Worth(f.sys), Worth(f'.sys), FineReported(Do(e), r))
  {
    if !Busy(f, e) {
      if e.Login? && e.s in f.sys.sessions {
        AskWorth(f, e.s, e.act, e.pin);
      } else if e.Credit? && e.s in f.sys.sessions {
        ReachWorth(f, e.s);
      } else {
        PlainBalances(f, e);
      }
    }
  }

  lemma FineStepBalances(f: Fine, mv: Move)
    requires FineInv(f)
    ensures var (f', r) := FineStep(f, mv); Balanced(Worth(f.sys), Worth(f'.sys), FineReported(mv, r))
  {
    match mv {
      case Go(s) => if s in f.sys.sessions && s in f.moments { GoWorth(f, s); }
      case Do(e) => DoBalances(f, e);
    }
  }

  /**
   Conservation with the passing locks in it: files and amounts in flight change by deposits, by withdrawals, and
   by the transfers that were dropped because somebody had the recipient locked, be it for a moment.
   */
  lemma {:induction false} FineConservation(f: Fine, mvs: seq<Move>)
    requires FineInv(f)
    ensures Balanced(Worth(f.sys), Worth(FineRun(f, mvs).sys), FineTotal(f, mvs))
    decreases |mvs|
  {
    if mvs != [] {
      FineStepBalances(f, mvs[0]);
      FineStepKeeps(f, mvs[0]);
      FineConservation(FineStep(f, mvs[0]).0, mvs[1..]);
    }
  }

  // ---------- What is locked is private ----------

  /** Session `s` has `n` for its own, or has it locked for the moment. */
  predicate Has(f: Fine, s: nat, n: string) {
    || (s in f.sys.sessions && LoggedIn(f.sys.sessions[s]) && f.sys.sessions[s].act == n)
    || (s in f.moments && Locks(f.moments[s]) && Account(f.moments[s]) == n)
  }

  /** The move is the operator's, or that of a session that does not have `n`. */
  predicate ByOutsider(f: Fine, mv: Move, n: string) {
    match mv
    case Do(e) => e.Operator? || !Has(f, e.s, n)
    case Go(s) => !Has(f, s, n)
  }

  predicate ByOtherMove(mv: Move, h: nat) {
    match mv
    case Do(e) => Ownership.ByOther(e, h)
    case Go(s) => s != h
  }

  function OperatorShare(mv: Move, n: string): nat {
    if mv.Do? then Ownership.OperatorPart(mv.e, n) else 0
  }

  /** Session `h` is where it was, with what it had. */
  predicate SameSession(f: Fine, f': Fine, h: nat) {
    && h in f'.sys.sessions && h in f.sys.sessions && f'.sys.sessions[h] == f.sys.sessions[h]
    && (h in f'.moments <==> h in f.moments) && (h in f.moments ==> f'.moments[h] == f.moments[h])
  }

  /** `n` is left alone by a step from `sys` to `sys'`. */
  predicate Left(sys: System, sys': System, n: string) {
    n in sys.locks ==> Ownership.Kept(sys, sys', n, 0)
  }

  lemma AskLeaves(f: Fine, s: nat, act: string, pin: nat, n: string)
    requires s in f.sys.sessions
    ensures Left(f.sys, AskStep(f, s, act, pin).0.sys, n)
  {
  }

  lemma TakeLeaves(f: Fine, s: nat, act: string, pin: nat, n: string)
    requires s in f.sys.sessions
    ensures Left(f.sys, TakeStep(f, s, act, pin).0.sys, n)
  {
  }

  lemma JudgeLeaves(f: Fine, s: nat, act: string, pin: nat, cache: Cache, n: string)
    requires s in f.sys.sessions && act != n && act in f.sys.files
    ensures Left(f.sys, JudgeStep(f, s, act, pin, cache).0.sys, n)
  {
  }

  lemma ReachLeaves(f: Fine, s: nat, n: string)
    requires s in f.sys.sessions
    ensures Left(f.sys, ReachStep(f, s).0.sys, n)
  {
  }

  lemma PayLeaves(f: Fine, s: nat, t: string, amount: nat, cache: Cache, n: string)
    requires s in f.sys.sessions && t != n && t in f.sys.files
    ensures Left(f.sys, PayStep(f, s, t, amount, cache).0.sys, n)
  {
  }

  lemma ReleaseLeaves(f: Fine, s: nat, t: string, amount: nat, cache: Cache, n: string)
    requires s in f.sys.sessions && t != n && t in f.sys.files
    ensures Left(f.sys, ReleaseStep(f, s, t, amount, cache).0.sys, n)
  {
  }

  lemma ReturnLeaves(f: Fine, s: nat, amount: nat, n: string)
    requires Inv(f.sys) && s in f.sys.sessions && PhaseFits(f.sys.sessions[s].phase, Returning(amount))
    requires f.sys.sessions[s].act != n
    ensures Left(f.sys, ReturnStep(f, s, amount).0.sys, n)
  {
    ReturnIsEffect(f.sys, s);
  }

  lemma GoLeaves(f: Fine, s: nat, n: string)
    requires FineInv(f) && s in f.sys.sessions && s in f.moments && !Has(f, s, n)
    ensures Left(f.sys, GoStep(f, s).0.sys, n)
  {
    assert MomentOk(f.sys, s, f.moments[s]);
    match f.moments[s] {
      case Admitted(act, pin) => TakeLeaves(f, s, act, pin, n);
      case Entering(act, pin, cache) => JudgeLeaves(f, s, act, pin, cache, n);
      case Paying(t, amount, cache) => PayLeaves(f, s, t, amount, cache, n);
      case Releasing(t, amount, cache) => ReleaseLeaves(f, s, t, amount, cache, n);
      case Returning(amount) => ReturnLeaves(f, s, amount, n);
    }
  }

  lemma GoIsOwn(f: Fine, s: nat, h: nat)
    requires s in f.sys.sessions && s in f.moments && h in f.sys.sessions && h != s
    ensures SameSession(f, GoStep(f, s).0, h)
  {
  }

  lemma FirstIsOwn(f: Fine, s: nat, h: nat, act: string, pin: nat)
    requires s in f.sys.sessions && h in f.sys.sessions && h != s
    ensures SameSession(f, AskStep(f, s, act, pin).0, h) && SameSession(f, ReachStep(f, s).0, h)
  {
  }

  lemma PlainIsOwn(f: Fine, e: Event, h: nat)
    requires FineInv(f) && h in f.sys.sessions && Ownership.ByOther(e, h)
    ensures SameSession(f, f.(sys := Next(f.sys, e)), h)
  {
    StepIsEffect(f.sys, e);
    Ownership.OthersLeaveAlone(f.sys, e, h);
  }

  /** A move of one session is not felt by another. */
  lemma OthersAreSame(f: Fine, mv: Move, h: nat)
    requires FineInv(f) && h in f.sys.sessions && ByOtherMove(mv, h)
    ensures SameSession(f, FineStep(f, mv).0, h)
  {
    match mv {
      case Go(s) => if s in f.sys.sessions && s in f.moments { GoIsOwn(f, s, h); }
      case Do(e) =>
        if !Busy(f, e) {
          if e.Login? && e.s in f.sys.sessions {
            FirstIsOwn(f, e.s, h, e.act, e.pin);
          } else if e.Credit? && e.s in f.sys.sessions {
            FirstIsOwn(f, e.s, h, "", 0);
          } else {
            PlainIsOwn(f, e, h);
          }
        }
    }
  }

  /**
   While `n` is locked, be it for a moment, a move by anyone but the session that is logged in to it or has it
   locked leaves the lock and, but for an operator's deposit, the file; and every other session is as it was.
   */
  lemma FineLockedIsPrivate(f: Fine, mv: Move, n: string)
    requires FineInv(f) && n in f.sys.locks && ByOutsider(f, mv, n)
    ensures Ownership.Kept(f.sys, FineStep(f, mv).0.sys, n, OperatorShare(mv, n))
    ensures forall h | h in f.sys.sessions && ByOtherMove(mv, h) :: SameSession(f, FineStep(f, mv).0, h)
  {
    forall h | h in f.sys.sessions && ByOtherMove(mv, h) ensures SameSession(f, FineStep(f, mv).0, h) {
      OthersAreSame(f, mv, h);
    }
    match mv {
      case Go(s) => if s in f.sys.sessions && s in f.moments { GoLeaves(f, s, n); }
      case Do(e) =>
        if !Busy(f, e) {
          if e.Login? && e.s in f.sys.sessions {
            AskLeaves(f, e.s, e.act, e.pin, n);
          } else if e.Credit? && e.s in f.sys.sessions {
            ReachLeaves(f, e.s, n);
          } else {
            Ownership.LockedIsPrivate(f.sys, e, n);
          }
        }
    }
  }

  /** Who has an account has it alone: as its own, or for the moment. */
  lemma OneHasIt(f: Fine, s: nat, s': nat, n: string)
    requires FineInv(f) && Has(f, s, n) && Has(f, s', n)
    ensures s == s' && n in f.sys.locks
  {
    if s in f.moments {
      assert MomentOk(f.sys, s, f.moments[s]);
    }
    if s' in f.moments {
      assert MomentOk(f.sys, s', f.moments[s']);
    }
    if s in f.sys.sessions && LoggedIn(f.sys.sessions[s]) {
      assert SessionOk(f.sys.names, f.sys.files, f.sys.locks, f.sys.sessions[s]);
    }
  }

  // ---------- With nothing in between ----------

  /** Session `s` goes on until it has an answer, `n` times at most. */
  function Through(f: Fine, r: Option<Reply>, s: nat, n: nat): (Fine, Option<Reply>)
    decreases n
  {
    if n == 0 || r.Some? then (f, r)
    else
      var (f', r') := FineStep(f, Go(s));
      Through(f', r', s, n - 1)
  }

  /** Event `e` of session `s` with all that it begins. */
  function Whole(f: Fine, e: Event, s: nat): (Fine, Option<Reply>) {
    var (f', r) := FineStep(f, Do(e));
    Through(f', r, s, 2)
  }

  /** What a login comes to that the counter has let through. */
  function Entered(sys: System, s: nat, act: string, pin: nat): (System, Reply)
    requires s in sys.sessions
  {
    var caches := sys.sessions[s].caches;
    if LoginGranted(sys, act, pin) then
      (Tried(LockedNow(sys, act), s, act, pin, caches[act := Cache(pin, sys.files[act].balance)], Active), Accepted)
    else (Tried(sys, s, act, pin, caches, Closed), Refused)
  }

  /** The PIN is compared right after the account was loaded. */
  lemma JudgedAtOnce(f: Fine, s: nat, act: string, pin: nat, sys: System)
    requires s in sys.sessions && act in sys.sessions[s].caches && sys.sessions[s].caches[act] == RESET
    requires sys.names == sys.sessions[s].caches.Keys && act !in sys.locks && act in sys.files
    requires f.sys == LockedNow(sys, act)
    ensures var (f', r) := JudgeStep(f, s, act, pin, Cache(sys.files[act].pin, sys.files[act].balance));
      f'.sys == Entered(sys, s, act, pin).0 && r == Some(Entered(sys, s, act, pin).1)
  {
    SaveIsEffect(f.sys, act, Cache(sys.files[act].pin, sys.files[act].balance));
    assert Freed(f.sys, act).locks == sys.locks;
    var caches := sys.sessions[s].caches;
    assert caches[act := RESET] == caches;
  }

  lemma GoesThrough(f: Fine, s: nat, f1: Fine, r1: Option<Reply>, n: nat)
    requires s in f.moments && s in f.sys.sessions && n > 0 && GoStep(f, s) == (f1, r1)
    ensures Through(f, None, s, n) == Through(f1, r1, s, n - 1)
    ensures r1.Some? ==> Through(f, None, s, n) == (f1, r1)
  {
  }

  lemma AdmittedIsLogin(f: Fine, s: nat, act: string, pin: nat, moments: map<nat, Moment>)
    requires s in f.sys.sessions && s !in moments && f.moments == moments[s := Admitted(act, pin)]
    requires f.sys.sessions[s].caches.Keys == f.sys.names
    requires act in f.sys.names ==> f.sys.sessions[s].caches[act] == RESET
    ensures var (sys', r) := Entered(f.sys, s, act, pin);
      Through(f, None, s, 2) == (Fine(sys', moments), Some(r))
  {
    var sys := f.sys;
    var (f1, r1) := TakeStep(f, s, act, pin);
    assert f.moments - {s} == moments;
    GoesThrough(f, s, f1, r1, 2);
    if act in sys.names && act !in sys.locks && act in sys.files {
      var cache := Cache(sys.files[act].pin, sys.files[act].balance);
      LoadIsEffect(sys, act, sys.sessions[s].caches[act]);
      assert f1 == Begin(Fine(LockedNow(sys, act), f.moments), s, Entering(act, pin, cache)) && r1 == None;
      JudgedAtOnce(f1, s, act, pin, sys);
      var (f2, r2) := JudgeStep(f1, s, act, pin, cache);
      assert f1.moments - {s} == moments;
      GoesThrough(f1, s, f2, r2, 1);
    }
  }

  /** A login that nobody interrupts is the login of the coarser system. */
  lemma LoginIsWhole(f: Fine, s: nat, act: string, pin: nat)
    requires FineInv(f) && s in f.sys.sessions && s !in f.moments && f.sys.sessions[s].phase.Anon?
    ensures var e := Login(s, act, pin);
      Whole(f, e, s) == (f.(sys := Next(f.sys, e)), Some(ReplyTo(f.sys, e)))
  {
    var (lockout, admitted) := Lockout.Login(f.sys.lockout, act);
    var counted := f.sys.(lockout := lockout);
    LoginIsEffect(f.sys, s, act, pin);
    if admitted {
      assert SessionOk(f.sys.names, f.sys.files, f.sys.locks, f.sys.sessions[s]);
      AdmittedIsLogin(Fine(counted, f.moments[s := Admitted(act, pin)]), s, act, pin, f.moments);
    }
  }

  /** Session `s` has credited `t`. */
  function Paid(sys: System, s: nat, t: string, amount: nat): System
    requires s in sys.sessions && t in sys.files
  {
    InPhase(Raised(sys, t, amount), s, Active)
  }

  lemma PayUnderLock(f: Fine, s: nat, t: string, amount: nat, cache: Cache, sys: System)
    requires s in f.moments && f.moments[s] == Paying(t, amount, cache) && f.sys == LockedNow(sys, t)
    requires s in sys.sessions && t in sys.files && cache.pin == sys.files[t].pin
    ensures var paid := L.Deposit(Seen(f.sys, t, cache), amount).0.cache;
      GoStep(f, s)
      == (Begin(Fine(LockedNow(Paid(sys, s, t, amount), t), f.moments), s, Releasing(t, amount, paid)), None)
  {
    RaiseIsEffect(f.sys, t, cache, amount);
    assert InPhase(Raised(f.sys, t, amount), s, Active) == LockedNow(Paid(sys, s, t, amount), t);
    assert GoStep(f, s).1 == None;
  }

  lemma ReleaseGoes(f: Fine, s: nat, t: string, amount: nat, cache: Cache, sys: System)
    requires s in f.moments && f.moments[s] == Releasing(t, amount, cache) && f.sys == LockedNow(sys, t)
    requires t !in sys.locks && t in sys.files
    requires s in sys.sessions && t in sys.sessions[s].caches && sys.sessions[s].caches[t] == RESET
    ensures GoStep(f, s) == (Fine(sys, f.moments - {s}), Some(Settled(Credited, amount)))
  {
    SaveIsEffect(f.sys, t, cache);
    var ses := sys.sessions[s];
    assert Freed(f.sys, t).locks == sys.locks;
    assert ses.caches[t := RESET] == ses.caches;
    assert sys.sessions[s := ses] == sys.sessions;
  }

  /** The recipient is credited, and let go right after. */
  lemma CreditedAtOnce(f: Fine, s: nat, t: string, amount: nat, cache: Cache, sys: System)
    requires s in f.moments && f.moments[s] == Paying(t, amount, cache) && f.sys == LockedNow(sys, t)
    requires t !in sys.locks && t in sys.files && cache.pin == sys.files[t].pin
    requires s in sys.sessions && t in sys.sessions[s].caches && sys.sessions[s].caches[t] == RESET
    ensures Through(f, None, s, 2)
            == (Fine(Paid(sys, s, t, amount), f.moments - {s}), Some(Settled(Credited, amount)))
  {
    PayUnderLock(f, s, t, amount, cache, sys);
    var (f1, r1) := GoStep(f, s);
    GoesThrough(f, s, f1, r1, 2);
    ReleaseGoes(f1, s, t, amount, f1.moments[s].cache, Paid(sys, s, t, amount));
    var (f2, r2) := GoStep(f1, s);
    GoesThrough(f1, s, f2, r2, 1);
    assert f1.moments - {s} == f.moments - {s};
  }

  lemma ReturnedAtOnce(f: Fine, s: nat, amount: nat)
    requires Inv(f.sys) && s in f.sys.sessions && PhaseFits(f.sys.sessions[s].phase, Returning(amount))
    requires s !in f.moments && f.sys.sessions[s].act in f.sys.files
    ensures Through(Begin(f, s, Returning(amount)), None, s, 2)
            == (Fine(Moved(f.sys, s, amount, Active), f.moments), Some(Settled(Refunded, amount)))
  {
    ReturnIsEffect(f.sys, s);
    var f1 := Begin(f, s, Returning(amount));
    var (f2, r2) := ReturnStep(f1, s, amount);
    GoesThrough(f1, s, f2, r2, 2);
    assert f1.moments - {s} == f.moments;
  }

  lemma ReachedAndCredited(f: Fine, s: nat)
    requires s in f.sys.sessions && s !in f.moments && f.sys.sessions[s].phase.Owing?
    requires var ses := f.sys.sessions[s]; var t := ses.phase.recipient;
      && t !in f.sys.locks && t in f.sys.files && ses.act in ses.caches && t in ses.caches && ses.caches[t] == RESET
    ensures var ph := f.sys.sessions[s].phase;
      Whole(f, Credit(s), s)
      == (f.(sys := Paid(f.sys, s, ph.recipient, ph.amount)), Some(Settled(Credited, ph.amount)))
  {
    var sys, ses := f.sys, f.sys.sessions[s];
    var t, amount := ses.phase.recipient, ses.phase.amount;
    LoadIsEffect(sys, t, ses.caches[t]);
    var cache := Cache(sys.files[t].pin, sys.files[t].balance);
    var f1 := Begin(Fine(LockedNow(sys, t), f.moments), s, Paying(t, amount, cache));
    CreditedAtOnce(f1, s, t, amount, cache, sys);
    assert f1.moments - {s} == f.moments;
  }

  lemma ReachedInVain(f: Fine, s: nat)
    requires FineInv(f) && s in f.sys.sessions && s !in f.moments && f.sys.sessions[s].phase.Owing?
    requires f.sys.sessions[s].act in f.sys.files
    requires var t := f.sys.sessions[s].phase.recipient; t !in f.sys.locks && t !in f.sys.files
    ensures var amount := f.sys.sessions[s].phase.amount;
      Whole(f, Credit(s), s) == (f.(sys := Moved(f.sys, s, amount, Active)), Some(Settled(Refunded, amount)))
  {
    var sys, ses := f.sys, f.sys.sessions[s];
    assert SessionOk(sys.names, sys.files, sys.locks, ses);
    NoLoadIsEffect(sys, ses.phase.recipient, ses.caches[ses.phase.recipient]);
    ReturnedAtOnce(f, s, ses.phase.amount);
  }

  lemma ReachedLocked(f: Fine, s: nat)
    requires FineInv(f) && s in f.sys.sessions && s !in f.moments && f.sys.sessions[s].phase.Owing?
    requires f.sys.sessions[s].phase.recipient in f.sys.locks
    ensures var amount := f.sys.sessions[s].phase.amount;
      Whole(f, Credit(s), s) == (f.(sys := InPhase(f.sys, s, Active)), Some(Settled(Dropped, amount)))
  {
    assert SessionOk(f.sys.names, f.sys.files, f.sys.locks, f.sys.sessions[s]);
  }

  /** The second half of a transfer that nobody interrupts is the one of the coarser system. */
  lemma CreditIsWhole(f: Fine, s: nat)
    requires FineInv(f) && s in f.sys.sessions && s !in f.moments && f.sys.sessions[s].phase.Owing?
    ensures Whole(f, Credit(s), s) == (f.(sys := Next(f.sys, Credit(s))), Some(ReplyTo(f.sys, Credit(s))))
  {
    var t := f.sys.sessions[s].phase.recipient;
    CreditIsEffect(f.sys, s);
    assert SessionOk(f.sys.names, f.sys.files, f.sys.locks, f.sys.sessions[s]);
    if t in f.sys.locks {
      ReachedLocked(f, s);
    } else if t in f.sys.files {
      ReachedAndCredited(f, s);
    } else {
      ReachedInVain(f, s);
    }
  }

  /** The events in the parts they fall into. */
  function Parts(es: seq<Event>): seq<Move> {
    if es == [] then []
    else (if es[0].Login? || es[0].Credit? then [Do(es[0]), Go(es[0].s), Go(es[0].s)] else [Do(es[0])]) + Parts(es[1..])
  }

  /** Having answered, a session has nothing to go on with. */
  lemma AnsweredStays(f: Fine, s: nat)
    ensures var (f', r) := FineStep(f, Go(s)); r.Some? ==> FineStep(f', Go(s)).0 == f'
  {
  }

  lemma ThroughIsRun(f: Fine, r: Option<Reply>, s: nat)
    requires r.Some? ==> FineStep(f, Go(s)).0 == f
    ensures Through(f, r, s, 2).0 == FineStep(FineStep(f, Go(s)).0, Go(s)).0
  {
    var (f1, r1) := FineStep(f, Go(s));
    AnsweredStays(f, s);
    var (f2, r2) := FineStep(f1, Go(s));
    assert Through(f2, r2, s, 0) == (f2, r2);
    assert Through(f1, r1, s, 1) == if r1.Some? then (f1, r1) else Through(f2, r2, s, 0);
    assert Through(f, r, s, 2) == if r.Some? then (f, r) else Through(f1, r1, s, 1);
  }

  lemma {:induction false} RunConcat(f: Fine, mvs: seq<Move>, rest: seq<Move>)
    ensures FineRun(f, mvs + rest) == FineRun(FineRun(f, mvs), rest)
    decreases |mvs|
  {
    if mvs == [] {
      assert mvs + rest == rest;
    } else {
      assert (mvs + rest)[1..] == mvs[1..] + rest;
      RunConcat(FineStep(f, mvs[0]).0, mvs[1..], rest);
    }
  }

  lemma RunOn(f: Fine, mv: Move, rest: seq<Move>)
    ensures FineRun(f, [mv] + rest) == FineRun(FineStep(f, mv).0, rest)
  {
    assert ([mv] + rest)[1..] == rest;
  }

  lemma RunThree(f: Fine, e: Event, s: nat)
    requires FineStep(f, Do(e)).1.Some? ==> FineStep(FineStep(f, Do(e)).0, Go(s)).0 == FineStep(f, Do(e)).0
    ensures FineRun(f, [Do(e), Go(s), Go(s)]) == Whole(f, e, s).0
  {
    var (f1, r1) := FineStep(f, Do(e));
    RunOn(f, Do(e), [Go(s), Go(s)]);
    assert [Do(e), Go(s), Go(s)] == [Do(e)] + [Go(s), Go(s)];
    RunOn(f1, Go(s), [Go(s)]);
    assert [Go(s), Go(s)] == [Go(s)] + [Go(s)];
    RunOn(FineStep(f1, Go(s)).0, Go(s), []);
    assert [Go(s)] == [Go(s)] + [];
    ThroughIsRun(f1, r1, s);
  }

  lemma FirstPartAnswers(f: Fine, e: Event)
    requires !e.Operator? && e.s !in f.moments
    ensures var (f', r) := FineStep(f, Do(e)); r.Some? ==> FineStep(f', Go(e.s)).0 == f'
  {
  }

  /** One event in its parts, with nothing in between. */
  lemma PartsOfOne(sys: System, e: Event)
    requires Inv(sys)
    ensures FineRun(Fine(sys, map[]), Parts([e])) == Fine(Next(sys, e), map[])
  {
    var f := Fine(sys, map[]);
    assert [e][1..] == [];
    if e.Login? || e.Credit? {
      assert Parts([e]) == [Do(e), Go(e.s), Go(e.s)];
      FirstPartAnswers(f, e);
      RunThree(f, e, e.s);
      if e.Login? && In(sys, e.s, false) {
        LoginIsWhole(f, e.s, e.act, e.pin);
      } else if e.Credit? && e.s in sys.sessions && sys.sessions[e.s].phase.Owing? {
        CreditIsWhole(f, e.s);
      } else {
        assert Next(sys, e) == sys;
      }
    } else {
      assert Parts([e]) == [Do(e)] && [Do(e)][1..] == [];
    }
  }

  /** Every run of the coarser system is a run here: the one in which nobody meets a passing lock. */
  lemma {:induction false} CoarseRunIsFine(sys: System, es: seq<Event>)
    requires Inv(sys)
    ensures FineRun(Fine(sys, map[]), Parts(es)) == Fine(Run(sys, es), map[])
    decreases |es|
  {
    if es != [] {
      PartsOfOne(sys, es[0]);
      StepKeepsInv(sys, es[0]);
      CoarseRunIsFine(Next(sys, es[0]), es[1..]);
      assert Parts([es[0]]) + Parts(es[1..]) == Parts(es);
      RunConcat(Fine(sys, map[]), Parts([es[0]]), Parts(es[1..]));
    }
  }

  // ---------- What a passing lock does ----------

  /** Whoever meets it: the transfer is dropped, the login is refused. */
  lemma HeldIsMet(f: Fine, h: nat, s: nat)
    requires FineInv(f) && h in f.moments && Locks(f.moments[h]) && s in f.sys.sessions
    ensures var n := Account(f.moments[h]);
      && (s !in f.moments && f.sys.sessions[s].phase.Owing? && f.sys.sessions[s].phase.recipient == n ==>
            FineStep(f, Do(Credit(s))).1 == Some(Settled(Dropped, f.sys.sessions[s].phase.amount)))
      && (s in f.moments && f.moments[s].Admitted? && f.moments[s].act == n ==>
            FineStep(f, Go(s)).1 == Some(Refused))
  {
    assert MomentOk(f.sys, h, f.moments[h]);
    assert SessionOk(f.sys.names, f.sys.files, f.sys.locks, f.sys.sessions[s]);
  }

  /** Session `r` tries `t` with a wrong PIN, and the credit of `s` falls between its lock and its answer. */
  function Collision(r: nat, s: nat, t: string, wrong: nat): seq<Move> {
    [Do(Login(r, t, wrong)), Go(r), Do(Credit(s)), Go(r)]
  }

  lemma RunFour(f: Fine, a: Move, b: Move, c: Move, d: Move)
    ensures FineRun(f, [a, b, c, d])
            == FineStep(FineStep(FineStep(FineStep(f, a).0, b).0, c).0, d).0
  {
    var f1 := FineStep(f, a).0;
    var f2 := FineStep(f1, b).0;
    var f3 := FineStep(f2, c).0;
    RunOn(f, a, [b, c, d]);
    assert [a, b, c, d] == [a] + [b, c, d];
    RunOn(f1, b, [c, d]);
    assert [b, c, d] == [b] + [c, d];
    RunOn(f2, c, [d]);
    assert [c, d] == [c] + [d];
    RunOn(f3, d, []);
    assert [d] == [d] + [];
  }

  /** The account is loaded for a login. */
  lemma LoginLoads(f: Fine, r: nat, t: string, pin: nat)
    requires r in f.sys.sessions && r !in f.moments && f.sys.sessions[r].phase.Anon? && t in f.sys.sessions[r].caches
    requires t in f.sys.files && t !in f.sys.locks && Lockout.Login(f.sys.lockout, t).1
    ensures var f2 := FineStep(FineStep(f, Do(Login(r, t, pin))).0, Go(r)).0;
      && f2.sys == LockedNow(f.sys, t).(lockout := Lockout.Login(f.sys.lockout, t).0)
      && f2.moments == f.moments[r := Entering(t, pin, Cache(f.sys.files[t].pin, f.sys.files[t].balance))]
  {
    var f1 := FineStep(f, Do(Login(r, t, pin))).0;
    LoadIsEffect(f1.sys, t, f1.sys.sessions[r].caches[t]);
  }

  /** A credit to an account that is locked. */
  lemma CreditIsLost(f: Fine, s: nat)
    requires s in f.sys.sessions && s !in f.moments && f.sys.sessions[s].phase.Owing?
    requires var ses := f.sys.sessions[s];
      ses.phase.recipient in f.sys.locks && ses.act in ses.caches && ses.phase.recipient in ses.caches
    ensures FineStep(f, Do(Credit(s))).0 == f.(sys := InPhase(f.sys, s, Active))
    ensures Worth(InPhase(f.sys, s, Active)) == Worth(f.sys) - f.sys.sessions[s].phase.amount
  {
    PhaseWorth(f.sys, s, Active);
  }

  /** The wrong PIN has been compared: all is as it was but for the session, which has ended. */
  lemma WrongPinLeaves(f: Fine, r: nat, t: string, wrong: nat, cache: Cache)
    requires r in f.moments && f.moments[r] == Entering(t, wrong, cache) && cache.pin != wrong
    requires t in f.sys.locks && t in f.sys.files && r in f.sys.sessions && f.sys.sessions[r].phase.Anon?
    ensures var f' := FineStep(f, Go(r)).0;
      && f'.sys.files == f.sys.files && f'.sys.locks == f.sys.locks - {t} && f'.moments == f.moments - {r}
      && Worth(f'.sys) == Worth(f.sys)
  {
    SaveIsEffect(f.sys, t, cache);
    var f' := FineStep(f, Go(r)).0;
    QuietReplacement(f.sys, f'.sys, r, f'.sys.sessions[r]);
  }

  /** The lock and the wrong PIN, with the credit in between. */
  lemma Collide(f: Fine, r: nat, s: nat, t: string, wrong: nat)
    requires r in f.sys.sessions && r !in f.moments && f.sys.sessions[r].phase.Anon? && t in f.sys.sessions[r].caches
    requires t in f.sys.files && t !in f.sys.locks && Lockout.Login(f.sys.lockout, t).1 && wrong != f.sys.files[t].pin
    requires s in f.sys.sessions && s !in f.moments && f.sys.sessions[s].phase.Owing?
    requires var ses := f.sys.sessions[s]; ses.act in ses.caches && ses.phase.recipient == t && t in ses.caches
    ensures var f' := FineRun(f, Collision(r, s, t, wrong));
      && f'.sys.files == f.sys.files && f'.sys.locks == f.sys.locks && f'.moments == f.moments
      && Worth(f'.sys) == Worth(f.sys) - f.sys.sessions[s].phase.amount
  {
    var f2 := FineStep(FineStep(f, Do(Login(r, t, wrong))).0, Go(r)).0;
    var f3 := FineStep(f2, Do(Credit(s))).0;
    var f4 := FineStep(f3, Go(r)).0;
    RunFour(f, Do(Login(r, t, wrong)), Go(r), Do(Credit(s)), Go(r));
    LoginLoads(f, r, t, wrong);
    CreditIsLost(f2, s);
    WrongPinLeaves(f3, r, t, wrong, f2.moments[r].cache);
    assert f4.sys.locks == f.sys.locks;
    assert f4.moments == f.moments;
  }

  /**
   So a wrong PIN tried at an account that nobody uses can cost somebody else a transfer to it: the amount is in
   no file afterwards, and every lock is as it was.
   */
  lemma WrongPinCostsTransfer(f: Fine, r: nat, s: nat, t: string, wrong: nat)
    requires FineInv(f) && r in f.sys.sessions && r !in f.moments && f.sys.sessions[r].phase.Anon?
    requires t in f.sys.files && t !in f.sys.locks && Lockout.Login(f.sys.lockout, t).1 && wrong != f.sys.files[t].pin
    requires s in f.sys.sessions && s !in f.moments && f.sys.sessions[s].phase.Owing?
    requires f.sys.sessions[s].phase.recipient == t
    ensures var f' := FineRun(f, Collision(r, s, t, wrong));
      && f'.sys.files == f.sys.files && f'.sys.locks == f.sys.locks && f'.moments == f.moments
      && Worth(f'.sys) == Worth(f.sys) - f.sys.sessions[s].phase.amount
  {
    assert SessionOk(f.sys.names, f.sys.files, f.sys.locks, f.sys.sessions[s]);
    assert SessionOk(f.sys.names, f.sys.files, f.sys.locks, f.sys.sessions[r]);
    Collide(f, r, s, t, wrong);
  }
}
