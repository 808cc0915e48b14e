/**
 The system in steps finer still: a login and the second half of a transfer are split where the source takes a
 lock and lets it go (bank.cpp lines 158, 161, 102 and 132), so that others meet a lock that stands only inside a
 call. What a process has loaded under such a lock it has for itself, so it is kept beside the shared system.
 */
module Moments {
  import opened Wrappers
  import opened Ledger
  import L = Ledger
  import opened System
  import opened SystemInvariant
  import Lockout
  import Ownership

  /** Where a process is inside a login or inside the second half of a transfer. */
  datatype Moment =
    | Admitted(act: string, pin: nat)                               // let through by the login counter
    | Entering(act: string, pin: nat, cache: Cache)                 // account loaded, the PIN not yet compared
    | Paying(recipient: string, amount: nat, cache: Cache)          // recipient loaded, not yet credited
    | Releasing(recipient: string, amount: nat, cache: Cache)       // credited, its lock still there
    | Returning(amount: nat)                                        // no credit: the sender is to have it back

  datatype Fine = Fine(sys: System, moments: map<nat, Moment>)

  /** A step of the system, of a login or a credit only the first part; or the next part of what a session began. */
  datatype Move = Do(e: Event) | Go(s: nat)

  predicate Locks(m: Moment) {
    m.Entering? || m.Paying? || m.Releasing?
  }

  /** The account that is locked for the moment. */
  function Account(m: Moment): string
    requires Locks(m)
  {
    if m.Entering? then m.act else m.recipient
  }

  // ---------- Steps ----------

  /** What a call on account `n` sees that has `cache` of it. */
  function Seen(sys: System, n: string, cache: Cache): Slot {
    Slot(if n in sys.files then Some(sys.files[n]) else None, n in sys.locks, cache)
  }

  /** The file and the lock of `n` as they are in `sl`. */
  function Share(sys: System, n: string, sl: Slot): System {
    sys.(files := if sl.file.Some? then sys.files[n := sl.file.value] else sys.files - {n},
         locks := if sl.locked then sys.locks + {n} else sys.locks - {n})
  }

  /** Session `s` has tried to log in, and is now in `phase` with `caches`. */
  function Tried(sys: System, s: nat, act: string, pin: nat, caches: map<string, Cache>, phase: Phase): System
    requires s in sys.sessions
  {
    sys.(sessions := sys.sessions[s := Session(caches, phase, act, pin)])
  }

  function Begin(f: Fine, s: nat, m: Moment): Fine {
    f.(moments := f.moments[s := m])
  }

  function End(f: Fine, s: nat): Fine {
    f.(moments := f.moments - {s})
  }

  /** The login counter. */
  function AskStep(f: Fine, s: nat, act: string, pin: nat): (Fine, Option<Reply>)
    requires s in f.sys.sessions
  {
    if !f.sys.sessions[s].phase.Anon? then (f, Some(Ignored))
    else
      var (lockout, admitted) := Lockout.Login(f.sys.lockout, act);
      var counted := f.sys.(lockout := lockout);
      if admitted then (Begin(Fine(counted, f.moments), s, Admitted(act, pin)), None)
      else (Fine(Tried(counted, s, act, pin, counted.sessions[s].caches, Closed), f.moments), Some(LockedOut))
  }

  /** The account is looked up, tested for a lock, and loaded. */
  function TakeStep(f: Fine, s: nat, act: string, pin: nat): (Fine, Option<Reply>)
    requires s in f.sys.sessions
  {
    var caches := f.sys.sessions[s].caches;
    var turnedAway := End(Fine(Tried(f.sys, s, act, pin, caches, Closed), f.moments), s);
    if act !in caches || act in f.sys.locks then (turnedAway, Some(Refused))
    else
      var (held, loaded) := Load(Seen(f.sys, act, caches[act]));
      if loaded then (Begin(Fine(Share(f.sys, act, held), f.moments), s, Entering(act, pin, held.cache)), None)
      else (turnedAway, Some(Refused))
  }

  /** The PIN is compared; if it is wrong the account is let go. */
  function JudgeStep(f: Fine, s: nat, act: string, pin: nat, cache: Cache): (Fine, Option<Reply>)
    requires s in f.sys.sessions
  {
    var sl, caches := Seen(f.sys, act, cache), f.sys.sessions[s].caches;
    if CheckCreds(act, sl, act, pin)
    then (End(Fine(Tried(f.sys, s, act, pin, caches[act := cache], Active), f.moments), s), Some(Accepted))
    else
      var freed := Save(sl).0;
      var shared := Share(f.sys, act, freed);
      (End(Fine(Tried(shared, s, act, pin, caches[act := freed.cache], Closed), f.moments), s), Some(Refused))
  }

  /** The recipient is tested for a lock, and loaded. */
  function ReachStep(f: Fine, s: nat): (Fine, Option<Reply>)
    requires s in f.sys.sessions
  {
    var ses := f.sys.sessions[s];
    if !ses.phase.Owing? || ses.act !in ses.caches || ses.phase.recipient !in ses.caches then (f, Some(Ignored))
    else
      var t, amount := ses.phase.recipient, ses.phase.amount;
      if t in f.sys.locks then (f.(sys := InPhase(f.sys, s, Active)), Some(Settled(Dropped, amount)))
      else
        var (held, loaded) := Load(Seen(f.sys, t, ses.caches[t]));
        if loaded then (Begin(Fine(Share(f.sys, t, held), f.moments), s, Paying(t, amount, held.cache)), None)
        else (Begin(Fine(Share(f.sys, t, Save(held).0), f.moments), s, Returning(amount)), None)
  }

  /** The loaded recipient is credited. */
  function PayStep(f: Fine, s: nat, t: string, amount: nat, cache: Cache): (Fine, Option<Reply>)
    requires s in f.sys.sessions
  {
    var (paid, r) := L.Deposit(Seen(f.sys, t, cache), amount);
    if r.Exited? then (End(Fine(InPhase(Share(f.sys, t, paid), s, Dead), f.moments), s), Some(Settled(Died, amount)))
    else if r.value then
      (Begin(Fine(InPhase(Share(f.sys, t, paid), s, Active), f.moments), s, Releasing(t, amount, paid.cache)), None)
    else (Begin(Fine(Share(f.sys, t, Save(paid).0), f.moments), s, Returning(amount)), None)
  }

  /** The credited recipient is let go. */
  function ReleaseStep(f: Fine, s: nat, t: string, amount: nat, cache: Cache): (Fine, Option<Reply>)
    requires s in f.sys.sessions
  {
    var (freed, saved) := Save(Seen(f.sys, t, cache));
    var ses, shared := f.sys.sessions[s], Share(f.sys, t, freed);
    var sys' := shared.(sessions := shared.sessions[s := ses.(caches := ses.caches[t := freed.cache])]);
    (End(Fine(sys', f.moments), s), Some(Settled(if saved then Credited else Unsaved, amount)))
  }

  /** The sender is given the amount back. */
  function ReturnStep(f: Fine, s: nat, amount: nat): (Fine, Option<Reply>)
    requires s in f.sys.sessions
  {
    var act := f.sys.sessions[s].act;
    if act !in f.sys.sessions[s].caches then (f, Some(Ignored))
    else
      var (w, end) := Refund(WorldOf(f.sys, s), act, amount);
      (End(Fine(After(f.sys, s, w, if end.Died? then Dead else Active), f.moments), s), Some(Settled(end, amount)))
  }

  function GoStep(f: Fine, s: nat): (Fine, Option<Reply>)
    requires s in f.sys.sessions && s in f.moments
  {
    match f.moments[s]
    case Admitted(act, pin) => TakeStep(f, s, act, pin)
    case Entering(act, pin, cache) => JudgeStep(f, s, act, pin, cache)
    case Paying(t, amount, cache) => PayStep(f, s, t, amount, cache)
    case Releasing(t, amount, cache) => ReleaseStep(f, s, t, amount, cache)
    case Returning(amount) => ReturnStep(f, s, amount)
  }

  /** A process that is inside a call does nothing else. */
  predicate Busy(f: Fine, e: Event) {
    !e.Operator? && e.s in f.moments
  }

  function FineStep(f: Fine, mv: Move): (Fine, Option<Reply>) {
    match mv
    case Go(s) => if s in f.sys.sessions && s in f.moments then GoStep(f, s) else (f, Some(Ignored))
    case Do(e) =>
      if Busy(f, e) then (f, Some(Ignored))
      else if e.Login? && e.s in f.sys.sessions then AskStep(f, e.s, e.act, e.pin)
      else if e.Credit? && e.s in f.sys.sessions then ReachStep(f, e.s)
      else (f.(sys := Next(f.sys, e)), Some(ReplyTo(f.sys, e)))
  }

  function FineRun(f: Fine, mvs: seq<Move>): Fine
    decreases |mvs|
  {
    if mvs == [] then f else FineRun(FineStep(f, mvs[0]).0, mvs[1..])
  }

  // ---------- The invariant ----------

  /** No session has `n` for its own. */
  predicate Unclaimed(sys: System, n: string) {
    forall h | h in sys.sessions && Claims(sys.sessions[h]) :: sys.sessions[h].act != n
  }

  /** Account `n` is locked for a moment by a process that has `cache` of it. */
  predicate HeldOk(sys: System, n: string, cache: Cache) {
    && n in sys.names && n in sys.locks && Unclaimed(sys, n)
    && n in sys.files && cache.pin == sys.files[n].pin && 0 <= cache.balance <= sys.files[n].balance
  }

  predicate PhaseFits(phase: Phase, m: Moment) {
    match m
    case Admitted(_, _) => phase.Anon?
    case Entering(_, _, _) => phase.Anon?
    case Paying(t, amount, _) => phase == Owing(t, amount)
    case Releasing(_, _, _) => phase.Active?
    case Returning(amount) => phase.Owing? && phase.amount == amount
  }

  predicate MomentOk(sys: System, s: nat, m: Moment) {
    && s in sys.sessions && PhaseFits(sys.sessions[s].phase, m)
    && (Locks(m) ==> HeldOk(sys, Account(m), m.cache))
  }

  /** No account is locked by two processes for the moment. */
  predicate OneHolder(moments: map<nat, Moment>) {
    forall s, s' | s in moments && s' in moments && s != s' && Locks(moments[s]) && Locks(moments[s']) ::
      Account(moments[s]) != Account(moments[s'])
  }

  predicate FineInv(f: Fine) {
    Inv(f.sys) && (forall s | s in f.moments :: MomentOk(f.sys, s, f.moments[s])) && OneHolder(f.moments)
  }

  /** What a step leaves of an account that somebody else has locked for a moment. */
  predicate Spared(sys: System, sys': System, n: string) {
    StillHeld(sys, sys', n) && (Unclaimed(sys, n) ==> Unclaimed(sys', n))
  }

  /** The step of `s` to `sys'` spares what others hold, and leaves them where they are. */
  predicate SparesOthers(f: Fine, sys': System, s: nat) {
    forall r | r in f.moments && r != s ::
      && r in f.sys.sessions && r in sys'.sessions && sys'.sessions[r] == f.sys.sessions[r]
      && (Locks(f.moments[r]) ==> Spared(f.sys, sys', Account(f.moments[r])))
  }

  /** Nobody but `s` has `n` locked for the moment. */
  predicate NotHeld(f: Fine, s: nat, n: string) {
    forall r | r in f.moments && r != s && Locks(f.moments[r]) :: Account(f.moments[r]) != n
  }

  lemma OthersAreOk(f: Fine, sys': System, s: nat, r: nat)
    requires FineInv(f) && sys'.names == f.sys.names && SparesOthers(f, sys', s) && r in f.moments && r != s
    ensures MomentOk(sys', r, f.moments[r])
  {
    assert MomentOk(f.sys, r, f.moments[r]);
  }

  /** A step of `s` that begins no moment: it was in none, or its moment ends. */
  lemma EndKeeps(f: Fine, sys': System, s: nat)
    requires FineInv(f) && Inv(sys') && sys'.names == f.sys.names && SparesOthers(f, sys', s)
    ensures FineInv(End(Fine(sys', f.moments), s))
  {
    forall r | r in f.moments && r != s ensures MomentOk(sys', r, f.moments[r]) {
      OthersAreOk(f, sys', s, r);
    }
  }

  lemma OneHolderMore(f: Fine, s: nat, m: Moment)
    requires OneHolder(f.moments) && (Locks(m) ==> NotHeld(f, s, Account(m)))
    ensures OneHolder(f.moments[s := m])
  {
  }

  /** A step of `s` to the moment `m`. */
  lemma BeginKeeps(f: Fine, sys': System, s: nat, m: Moment)
    requires FineInv(f) && Inv(sys') && sys'.names == f.sys.names && SparesOthers(f, sys', s)
    requires MomentOk(sys', s, m) && (Locks(m) ==> NotHeld(f, s, Account(m)))
    ensures FineInv(Begin(Fine(sys', f.moments), s, m))
  {
    forall r | r in f.moments && r != s ensures MomentOk(sys', r, f.moments[r]) {
      OthersAreOk(f, sys', s, r);
    }
    OneHolderMore(f, s, m);
  }

  /** Nothing but the account `n` and the session `s` is touched. */
  predicate Touches(sys: System, sys': System, s: nat, n: string, ses: Session) {
    && s in sys.sessions && sys'.sessions == sys.sessions[s := ses]
    && (Claims(ses) ==> ses.act == n || (Claims(sys.sessions[s]) && sys.sessions[s].act == ses.act))
    && (forall o | o in sys.locks && o != n :: o in sys'.locks)
    && (forall o | o in sys.files && o != n :: o in sys'.files && sys'.files[o] == sys.files[o])
  }

  lemma TouchSpares(f: Fine, sys': System, s: nat, n: string, ses: Session)
    requires FineInv(f) && Touches(f.sys, sys', s, n, ses) && NotHeld(f, s, n)
    ensures SparesOthers(f, sys', s)
  {
    forall r | r in f.moments && r != s
      ensures r in f.sys.sessions && r in sys'.sessions && sys'.sessions[r] == f.sys.sessions[r]
      ensures Locks(f.moments[r]) ==> Spared(f.sys, sys', Account(f.moments[r]))
    {
      assert MomentOk(f.sys, r, f.moments[r]);
    }
  }

  // ---------- Moves that are steps of the system ----------

  lemma UnclaimedStays(sys: System, e: Event, n: string)
    requires Grounded(sys) && n in sys.locks && Unclaimed(sys, n)
    ensures Unclaimed(Effect(sys, e).0, n)
  {
  }

  lemma StepSpares(f: Fine, e: Event, r: nat)
    requires FineInv(f) && !Busy(f, e) && r in f.moments
    ensures r in f.sys.sessions && r in Next(f.sys, e).sessions
    ensures Next(f.sys, e).sessions[r] == f.sys.sessions[r]
    ensures Locks(f.moments[r]) ==> Spared(f.sys, Next(f.sys, e), Account(f.moments[r]))
  {
    assert MomentOk(f.sys, r, f.moments[r]);
    StepIsEffect(f.sys, e);
    Ownership.OthersLeaveAlone(f.sys, e, r);
    if Locks(f.moments[r]) {
      var n := Account(f.moments[r]);
      UnclaimedStays(f.sys, e, n);
      Ownership.LockedIsPrivate(f.sys, e, n);
    }
  }

  lemma StepKeepsNames(sys: System, e: Event)
    ensures Next(sys, e).names == sys.names
  {
  }

  lemma PlainKeeps(f: Fine, e: Event)
    requires FineInv(f) && !Busy(f, e)
    ensures FineInv(f.(sys := Next(f.sys, e)))
  {
    StepKeepsInv(f.sys, e);
    StepKeepsNames(f.sys, e);
    forall r | r in f.moments ensures MomentOk(Next(f.sys, e), r, f.moments[r]) {
      StepSpares(f, e, r);
      assert MomentOk(f.sys, r, f.moments[r]);
    }
  }

  // ---------- Logging in ----------

  lemma FreeIsNotHeld(f: Fine, s: nat, n: string)
    requires FineInv(f) && n !in f.sys.locks
    ensures NotHeld(f, s, n) && Unclaimed(f.sys, n)
  {
    forall r | r in f.moments && r != s && Locks(f.moments[r]) ensures Account(f.moments[r]) != n {
      assert MomentOk(f.sys, r, f.moments[r]);
    }
    forall h | h in f.sys.sessions && Claims(f.sys.sessions[h]) ensures f.sys.sessions[h].act != n {
      assert SessionOk(f.sys.names, f.sys.files, f.sys.locks, f.sys.sessions[h]);
    }
  }

  lemma ClosedKeepsInv(sys: System, s: nat, act: string, pin: nat)
    requires Inv(sys) && s in sys.sessions && sys.sessions[s].phase.Anon?
    ensures Inv(Tried(sys, s, act, pin, sys.sessions[s].caches, Closed))
  {
    var sys' := Tried(sys, s, act, pin, sys.sessions[s].caches, Closed);
    assert SessionOk(sys.names, sys.files, sys.locks, sys.sessions[s]);
    OneSessionSteps(sys, sys', s, sys'.sessions[s]);
  }

  /** Files and locks stay, and no session gets an account. */
  lemma SessionSpares(f: Fine, sys': System, s: nat, ses: Session)
    requires FineInv(f) && !Claims(ses)
    requires sys'.files == f.sys.files && sys'.locks == f.sys.locks && sys'.sessions == f.sys.sessions[s := ses]
    ensures SparesOthers(f, sys', s)
  {
    forall r | r in f.moments && r != s
      ensures r in f.sys.sessions && r in sys'.sessions && sys'.sessions[r] == f.sys.sessions[r]
      ensures Locks(f.moments[r]) ==> Spared(f.sys, sys', Account(f.moments[r]))
    {
      assert MomentOk(f.sys, r, f.moments[r]);
    }
  }

  /** The session has not got in. */
  lemma TurnedAwayKeeps(f: Fine, s: nat, act: string, pin: nat)
    requires FineInv(f) && s in f.sys.sessions && f.sys.sessions[s].phase.Anon?
    ensures FineInv(End(Fine(Tried(f.sys, s, act, pin, f.sys.sessions[s].caches, Closed), f.moments), s))
  {
    var sys' := Tried(f.sys, s, act, pin, f.sys.sessions[s].caches, Closed);
    ClosedKeepsInv(f.sys, s, act, pin);
    SessionSpares(f, sys', s, sys'.sessions[s]);
    EndKeeps(f, sys', s);
  }

  lemma CountedKeeps(f: Fine, lockout: seq<Lockout.Entry>)
    requires FineInv(f)
    ensures FineInv(f.(sys := f.sys.(lockout := lockout)))
  {
    forall s | s in f.moments ensures MomentOk(f.sys.(lockout := lockout), s, f.moments[s]) {
      assert MomentOk(f.sys, s, f.moments[s]);
    }
  }

  lemma AskKeeps(f: Fine, s: nat, act: string, pin: nat)
    requires FineInv(f) && s in f.sys.sessions && s !in f.moments
    ensures FineInv(AskStep(f, s, act, pin).0)
  {
    if f.sys.sessions[s].phase.Anon? {
      var (lockout, admitted) := Lockout.Login(f.sys.lockout, act);
      var f1 := f.(sys := f.sys.(lockout := lockout));
      CountedKeeps(f, lockout);
      if admitted {
        BeginKeeps(f1, f1.sys, s, Admitted(act, pin));
      } else {
        TurnedAwayKeeps(f1, s, act, pin);
        assert f.moments - {s} == f.moments;
      }
    }
  }

  /** One lock more: an account that was free. */
  function LockedNow(sys: System, n: string): System {
    sys.(locks := sys.locks + {n})
  }

  lemma LockKeepsInv(sys: System, n: string)
    requires Inv(sys)
    ensures Inv(LockedNow(sys, n))
  {
    forall s | s in sys.sessions ensures SessionOk(sys.names, sys.files, sys.locks + {n}, sys.sessions[s]) {
      assert SessionOk(sys.names, sys.files, sys.locks, sys.sessions[s]);
    }
  }

  /** A free account that has a file is loaded, and locked for the moment. */
  lemma LoadIsEffect(sys: System, n: string, cache: Cache)
    requires n !in sys.locks && n in sys.files
    ensures var (held, loaded) := Load(Seen(sys, n, cache));
      loaded && Share(sys, n, held) == LockedNow(sys, n)
      && held.cache == Cache(sys.files[n].pin, sys.files[n].balance)
  {
    assert sys.files[n := sys.files[n]] == sys.files;
  }

  lemma TakeHolds(f: Fine, s: nat, n: string, m: Moment)
    requires FineInv(f) && s in f.sys.sessions && n in f.sys.names && n in f.sys.files && n !in f.sys.locks
    requires Locks(m) && Account(m) == n && m.cache == Cache(f.sys.files[n].pin, f.sys.files[n].balance)
    requires PhaseFits(f.sys.sessions[s].phase, m)
    ensures FineInv(Begin(Fine(LockedNow(f.sys, n), f.moments), s, m))
  {
    var sys' := LockedNow(f.sys, n);
    FreeIsNotHeld(f, s, n);
    LockKeepsInv(f.sys, n);
    TouchSpares(f, sys', s, n, f.sys.sessions[s]);
    BeginKeeps(f, sys', s, m);
  }

  lemma TakeKeeps(f: Fine, s: nat, act: string, pin: nat)
    requires FineInv(f) && s in f.sys.sessions && f.sys.sessions[s].phase.Anon?
    ensures FineInv(TakeStep(f, s, act, pin).0)
  {
    var caches := f.sys.sessions[s].caches;
    TurnedAwayKeeps(f, s, act, pin);
    assert SessionOk(f.sys.names, f.sys.files, f.sys.locks, f.sys.sessions[s]);
    if act in caches && act !in f.sys.locks && act in f.sys.files {
      LoadIsEffect(f.sys, act, caches[act]);
      TakeHolds(f, s, act, Entering(act, pin, Cache(f.sys.files[act].pin, f.sys.files[act].balance)));
    }
  }

  /** A lock less. */
  function Freed(sys: System, n: string): System {
    sys.(locks := sys.locks - {n})
  }

  lemma SaveIsEffect(sys: System, n: string, cache: Cache)
    requires n in sys.locks && n in sys.files
    ensures var (freed, saved) := Save(Seen(sys, n, cache));
      saved && freed.cache == RESET && Share(sys, n, freed) == Freed(sys, n)
  {
    assert sys.files[n := sys.files[n]] == sys.files;
  }

  /** A session step of the invariant's own kind, on an account that only `s` may have for the moment. */
  lemma ReplacedKeeps(f: Fine, sys': System, s: nat, n: string, ses: Session)
    requires FineInv(f) && NotHeld(f, s, n) && Touches(f.sys, sys', s, n, ses)
    requires Inv(sys') && sys'.names == f.sys.names
    ensures FineInv(End(Fine(sys', f.moments), s))
  {
    TouchSpares(f, sys', s, n, ses);
    EndKeeps(f, sys', s);
  }

  /** The right PIN: the session has the account for its own. */
  lemma RightPinKeepsInv(sys: System, s: nat, act: string, pin: nat, cache: Cache)
    requires Inv(sys) && s in sys.sessions && sys.sessions[s].phase.Anon? && HeldOk(sys, act, cache) && cache.pin == pin
    ensures Inv(Tried(sys, s, act, pin, sys.sessions[s].caches[act := cache], Active))
  {
    assert SessionOk(sys.names, sys.files, sys.locks, sys.sessions[s]);
    var sys' := Tried(sys, s, act, pin, sys.sessions[s].caches[act := cache], Active);
    assert SessionOk(sys'.names, sys'.files, sys'.locks, sys'.sessions[s]);
    OneSessionSteps(sys, sys', s, sys'.sessions[s]);
  }

  /** The wrong PIN: the session ends, and the account is let go. */
  lemma WrongPinKeepsInv(sys: System, s: nat, act: string, pin: nat)
    requires Inv(sys) && s in sys.sessions && sys.sessions[s].phase.Anon? && act in sys.names && Unclaimed(sys, act)
    ensures Inv(Tried(Freed(sys, act), s, act, pin, sys.sessions[s].caches[act := RESET], Closed))
  {
    assert SessionOk(sys.names, sys.files, sys.locks, sys.sessions[s]);
    var sys' := Tried(Freed(sys, act), s, act, pin, sys.sessions[s].caches[act := RESET], Closed);
    assert SessionOk(sys'.names, sys'.files, sys'.locks, sys'.sessions[s]);
    OneSessionSteps(sys, sys', s, sys'.sessions[s]);
  }

  lemma JudgeKeeps(f: Fine, s: nat)
    requires FineInv(f) && s in f.moments && f.moments[s].Entering?
    ensures var m := f.moments[s];
      s in f.sys.sessions && FineInv(JudgeStep(f, s, m.act, m.pin, m.cache).0)
  {
    var m, sys := f.moments[s], f.sys;
    assert MomentOk(sys, s, m);
    var caches := sys.sessions[s].caches;
    if m.cache.pin == m.pin {
      RightPinKeepsInv(sys, s, m.act, m.pin, m.cache);
      var sys' := Tried(sys, s, m.act, m.pin, caches[m.act := m.cache], Active);
      ReplacedKeeps(f, sys', s, m.act, sys'.sessions[s]);
    } else {
      SaveIsEffect(sys, m.act, m.cache);
      WrongPinKeepsInv(sys, s, m.act, m.pin);
      var sys' := Tried(Freed(sys, m.act), s, m.act, m.pin, caches[m.act := RESET], Closed);
      ReplacedKeeps(f, sys', s, m.act, sys'.sessions[s]);
    }
  }

  // ---------- The second half of a transfer ----------

  lemma CreditDrops(sys: System, s: nat)
    requires Inv(sys) && s in sys.sessions && sys.sessions[s].phase.Owing?
    requires sys.sessions[s].phase.recipient in sys.locks
    ensures Next(sys, Credit(s)) == InPhase(sys, s, Active)
  {
    InvIsGrounded(sys);
    CreditIsEffect(sys, s);
  }

  lemma DroppedKeeps(f: Fine, s: nat)
    requires FineInv(f) && s in f.sys.sessions && s !in f.moments && f.sys.sessions[s].phase.Owing?
    requires f.sys.sessions[s].phase.recipient in f.sys.locks
    ensures FineInv(f.(sys := InPhase(f.sys, s, Active)))
  {
    CreditDrops(f.sys, s);
    PlainKeeps(f, Credit(s));
  }

  /** The account of a logged-in session is nobody else's for the moment. */
  lemma OwnIsNotHeld(f: Fine, s: nat)
    requires FineInv(f) && s in f.sys.sessions && Claims(f.sys.sessions[s])
    ensures NotHeld(f, s, f.sys.sessions[s].act)
  {
    forall r | r in f.moments && r != s && Locks(f.moments[r]) ensures Account(f.moments[r]) != f.sys.sessions[s].act {
      assert MomentOk(f.sys, r, f.moments[r]);
    }
  }

  /** A failed load leaves nothing behind. */
  lemma NoLoadIsEffect(sys: System, n: string, cache: Cache)
    requires n !in sys.locks && n !in sys.files
    ensures var (held, loaded) := Load(Seen(sys, n, cache)); !loaded && Share(sys, n, Save(held).0) == sys
  {
    assert sys.files - {n} == sys.files;
    assert sys.locks - {n} == sys.locks;
  }

  lemma ReturningKeeps(f: Fine, s: nat, amount: nat)
    requires FineInv(f) && s in f.sys.sessions && PhaseFits(f.sys.sessions[s].phase, Returning(amount))
    ensures FineInv(Begin(f, s, Returning(amount)))
  {
    BeginKeeps(f, f.sys, s, Returning(amount));
  }

  lemma ReachKeeps(f: Fine, s: nat)
    requires FineInv(f) && s in f.sys.sessions && s !in f.moments
    ensures FineInv(ReachStep(f, s).0)
  {
    var ses := f.sys.sessions[s];
    if ses.phase.Owing? {
      assert SessionOk(f.sys.names, f.sys.files, f.sys.locks, ses);
      var t, amount := ses.phase.recipient, ses.phase.amount;
      if t in f.sys.locks {
        DroppedKeeps(f, s);
      } else if t in f.sys.files {
        LoadIsEffect(f.sys, t, ses.caches[t]);
        TakeHolds(f, s, t, Paying(t, amount, Cache(f.sys.files[t].pin, f.sys.files[t].balance)));
      } else {
        NoLoadIsEffect(f.sys, t, ses.caches[t]);
        ReturningKeeps(f, s, amount);
      }
    }
  }

  /** On a locked account a credit re-reads the file, raises the balance and writes it back under the same PIN. */
  lemma RaiseIsEffect(sys: System, n: string, cache: Cache, amount: nat)
    requires n in sys.locks && n in sys.files && cache.pin == sys.files[n].pin
    ensures var (paid, r) := L.Deposit(Seen(sys, n, cache), amount);
      && r == Returned(true) && Share(sys, n, paid) == Raised(sys, n, amount)
      && paid.cache == Cache(cache.pin, sys.files[n].balance + amount)
  {
    assert sys.locks + {n} == sys.locks;
  }

  /** A recipient that is held is credited, whatever its file has become meanwhile. */
  lemma PayIsEffect(sys: System, n: string, cache: Cache, amount: nat)
    requires HeldOk(sys, n, cache)
    ensures var (paid, r) := L.Deposit(Seen(sys, n, cache), amount);
      && r == Returned(true) && Share(sys, n, paid) == Raised(sys, n, amount)
      && HeldOk(Raised(sys, n, amount), n, paid.cache)
  {
    RaiseIsEffect(sys, n, cache, amount);
  }

  lemma PaidKeepsInv(sys: System, s: nat, t: string, amount: nat)
    requires Inv(sys) && s in sys.sessions && sys.sessions[s].phase.Owing? && t in sys.files
    ensures Inv(InPhase(Raised(sys, t, amount), s, Active))
  {
    var raised := Raised(sys, t, amount);
    RaisedKeepsInv(sys, t, amount);
    assert SessionOk(raised.names, raised.files, raised.locks, raised.sessions[s]);
    PhaseKeepsInv(raised, s, Active);
  }

  /** Session `s` becomes active: nobody gets an account by that. */
  lemma HeldThroughPhase(sys: System, s: nat, n: string, cache: Cache)
    requires HeldOk(sys, n, cache) && s in sys.sessions && sys.sessions[s].phase.Owing?
    ensures HeldOk(InPhase(sys, s, Active), n, cache)
  {
  }

  lemma PaidKeeps(f: Fine, s: nat, t: string, amount: nat, cache: Cache)
    requires FineInv(f) && s in f.sys.sessions && f.sys.sessions[s].phase.Owing? && NotHeld(f, s, t)
    requires t in f.sys.files && HeldOk(Raised(f.sys, t, amount), t, cache)
    ensures FineInv(Begin(f.(sys := InPhase(Raised(f.sys, t, amount), s, Active)), s, Releasing(t, amount, cache)))
  {
    var raised := Raised(f.sys, t, amount);
    var sys' := InPhase(raised, s, Active);
    PaidKeepsInv(f.sys, s, t, amount);
    HeldThroughPhase(raised, s, t, cache);
    TouchSpares(f, sys', s, t, sys'.sessions[s]);
    BeginKeeps(f, sys', s, Releasing(t, amount, cache));
  }

  lemma PayKeeps(f: Fine, s: nat)
    requires FineInv(f) && s in f.moments && f.moments[s].Paying?
    ensures var m := f.moments[s];
      s in f.sys.sessions && FineInv(PayStep(f, s, m.recipient, m.amount, m.cache).0)
  {
    var m := f.moments[s];
    assert MomentOk(f.sys, s, m);
    PayIsEffect(f.sys, m.recipient, m.cache, m.amount);
    PaidKeeps(f, s, m.recipient, m.amount, L.Deposit(Seen(f.sys, m.recipient, m.cache), m.amount).0.cache);
  }

  lemma FreedKeepsInv(sys: System, n: string)
    requires Inv(sys) && Unclaimed(sys, n)
    ensures Inv(Freed(sys, n))
  {
    forall h | h in sys.sessions ensures SessionOk(sys.names, sys.files, sys.locks - {n}, sys.sessions[h]) {
      assert SessionOk(sys.names, sys.files, sys.locks, sys.sessions[h]);
    }
  }

  /** The recipient's lock goes, and its cache is as it was before. */
  lemma ReleaseIsEffect(sys: System, s: nat, n: string, cache: Cache)
    requires Inv(sys) && s in sys.sessions && sys.sessions[s].phase.Active? && HeldOk(sys, n, cache)
    ensures var (freed, saved) := Save(Seen(sys, n, cache)); var ses := sys.sessions[s];
      && saved && Share(sys, n, freed) == Freed(sys, n)
      && sys.sessions[s := ses.(caches := ses.caches[n := freed.cache])] == sys.sessions
  {
    SaveIsEffect(sys, n, cache);
    assert SessionOk(sys.names, sys.files, sys.locks, sys.sessions[s]);
    assert sys.sessions[s].caches[n := RESET] == sys.sessions[s].caches;
  }

  lemma ReleaseKeeps(f: Fine, s: nat)
    requires FineInv(f) && s in f.moments && f.moments[s].Releasing?
    ensures var m := f.moments[s];
      s in f.sys.sessions && FineInv(ReleaseStep(f, s, m.recipient, m.amount, m.cache).0)
  {
    var m, sys := f.moments[s], f.sys;
    assert MomentOk(sys, s, m);
    ReleaseIsEffect(sys, s, m.recipient, m.cache);
    FreedKeepsInv(sys, m.recipient);
    var sys' := Freed(sys, m.recipient);
    assert sys'.sessions == sys.sessions[s := sys.sessions[s]];
    ReplacedKeeps(f, sys', s, m.recipient, sys.sessions[s]);
  }

  lemma RefundIsEffect(sys: System, s: nat, act: string, amount: nat)
    requires s in sys.sessions && sys.sessions[s].act == act && act in sys.files && act in sys.locks
    requires act in sys.sessions[s].caches && sys.sessions[s].caches[act].pin == sys.files[act].pin
    ensures var (w, end) := Refund(WorldOf(sys, s), act, amount);
      end == Refunded && After(sys, s, w, Active) == Moved(sys, s, amount, Active)
  {
    assert sys.locks + {act} == sys.locks;
  }

  lemma ReturnIsEffect(sys: System, s: nat)
    requires Inv(sys) && s in sys.sessions && sys.sessions[s].phase.Owing?
    ensures var ses := sys.sessions[s]; var amount := ses.phase.amount;
      && ses.act in ses.caches && ses.act in sys.files
      && var (w, end) := Refund(WorldOf(sys, s), ses.act, amount);
         end == Refunded && After(sys, s, w, Active) == Moved(sys, s, amount, Active)
  {
    assert SessionOk(sys.names, sys.files, sys.locks, sys.sessions[s]);
    RefundIsEffect(sys, s, sys.sessions[s].act, sys.sessions[s].phase.amount);
  }

  lemma ReturnedKeeps(f: Fine, s: nat, amount: nat)
    requires FineInv(f) && s in f.sys.sessions && f.sys.sessions[s].phase.Owing? && f.sys.sessions[s].act in f.sys.files
    ensures FineInv(End(f.(sys := Moved(f.sys, s, amount, Active)), s))
  {
    var sys' := Moved(f.sys, s, amount, Active);
    MovedKeepsInv(f.sys, s, amount, Active);
    OwnIsNotHeld(f, s);
    ReplacedKeeps(f, sys', s, f.sys.sessions[s].act, sys'.sessions[s]);
  }

  lemma ReturnKeeps(f: Fine, s: nat)
    requires FineInv(f) && s in f.moments && f.moments[s].Returning?
    ensures s in f.sys.sessions && FineInv(ReturnStep(f, s, f.moments[s].amount).0)
  {
    assert MomentOk(f.sys, s, f.moments[s]);
    ReturnIsEffect(f.sys, s);
    ReturnedKeeps(f, s, f.moments[s].amount);
  }

  // ---------- Every run ----------

  lemma GoKeeps(f: Fine, s: nat)
    requires FineInv(f) && s in f.sys.sessions && s in f.moments
    ensures FineInv(GoStep(f, s).0)
  {
    assert MomentOk(f.sys, s, f.moments[s]);
    match f.moments[s] {
      case Admitted(act, pin) => TakeKeeps(f, s, act, pin);
      case Entering(_, _, _) => JudgeKeeps(f, s);
      case Paying(_, _, _) => PayKeeps(f, s);
      case Releasing(_, _, _) => ReleaseKeeps(f, s);
      case Returning(_) => ReturnKeeps(f, s);
    }
  }

  lemma FineStepKeeps(f: Fine, mv: Move)
    requires FineInv(f)
    ensures FineInv(FineStep(f, mv).0)
  {
    match mv {
      case Go(s) => if s in f.sys.sessions && s in f.moments { GoKeeps(f, s); }
      case Do(e) =>
        if !Busy(f, e) {
          if e.Login? && e.s in f.sys.sessions {
            AskKeeps(f, e.s, e.act, e.pin);
          } else if e.Credit? && e.s in f.sys.sessions {
            ReachKeeps(f, e.s);
          } else {
            PlainKeeps(f, e);
          }
        }
    }
  }

  /**
   In every run: what holds of the system in its coarser steps holds here too, an account is locked for a moment
   by one process at most and then is nobody's own, and what that process has loaded is still the file's PIN and
   at most its balance.
   */
  lemma {:induction false} FineRunKeeps(f: Fine, mvs: seq<Move>)
    requires FineInv(f)
    ensures FineInv(FineRun(f, mvs))
    decreases |mvs|
  {
    if mvs != [] {
      FineStepKeeps(f, mvs[0]);
      FineRunKeeps(FineStep(f, mvs[0]).0, mvs[1..]);
    }
  }

  /** The server at its start. */
  predicate FineInit(f: Fine) {
    Init(f.sys) && f.moments == map[]
  }

  lemma StartIsSound(f: Fine)
    requires FineInit(f)
    ensures FineInv(f)
  {
    InitEstablishesInv(f.sys);
  }

  /** No balance is negative after any run from the start. */
  lemma FineNeverNegative(f: Fine, mvs: seq<Move>)
    requires FineInit(f)
    ensures Solvent(FineRun(f, mvs).sys.files)
  {
    StartIsSound(f);
    FineRunKeeps(f, mvs);
  }
}
