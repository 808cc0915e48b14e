/** Who may change a locked account, who keeps one, and who never gets one. */
module Ownership {
  import opened Ledger
  import opened System
  import opened SystemInvariant
  import Lockout

  // ---------- One step ----------

  predicate ByOther(e: Event, h: nat) {
    e.Operator? || e.s != h
  }

  function OperatorPart(e: Event, n: string): nat {
    if e.Operator? && e.name == n then e.amount else 0
  }

  /** The file of `n` after a step that only the operator's part of can have changed it. */
  predicate OnlyOperatorMoved(sys: System, sys': System, n: string, part: nat) {
    if n in sys.files then n in sys'.files && sys'.files[n] == File(sys.files[n].pin, sys.files[n].balance + part)
    else n !in sys'.files
  }

  /** No session is logged in to `n`. */
  predicate Unattended(sys: System, n: string) {
    forall s | s in sys.sessions && LoggedIn(sys.sessions[s]) :: sys.sessions[s].act != n
  }

  /** The other sessions after a step of `s` that does not make `s` attend `n`. */
  lemma OthersStay(sys: System, sys': System, s: nat, n: string)
    requires s in sys'.sessions && sys'.sessions == sys.sessions[s := sys'.sessions[s]]
    requires LoggedIn(sys'.sessions[s]) ==> sys'.sessions[s].act != n
    ensures forall h | h in sys.sessions && h != s :: h in sys'.sessions && sys'.sessions[h] == sys.sessions[h]
    ensures Unattended(sys, n) ==> Unattended(sys', n)
  {
  }

  /** What a step leaves of a locked account `n` that the acting session is not logged in to. */
  predicate Kept(sys: System, sys': System, n: string, part: nat) {
    n in sys'.locks && OnlyOperatorMoved(sys, sys', n, part)
  }

  lemma LockedFileIsPrivate(sys: System, e: Event, n: string)
    requires Grounded(sys) && n in sys.locks
    requires !e.Operator? && e.s in sys.sessions && LoggedIn(sys.sessions[e.s]) ==> sys.sessions[e.s].act != n
    ensures Kept(sys, Effect(sys, e).0, n, OperatorPart(e, n))
  {
  }

  /** A session's step replaces that session and no other. */
  lemma OneSessionMoves(sys: System, e: Event)
    requires Grounded(sys) && !e.Operator?
    ensures var sys' := Effect(sys, e).0;
      sys'.sessions == sys.sessions
      || (e.s in sys'.sessions && sys'.sessions == sys.sessions[e.s := sys'.sessions[e.s]])
  {
  }

  lemma ActorKeepsOff(sys: System, e: Event, n: string)
    requires Grounded(sys) && n in sys.locks && !e.Operator? && Effect(sys, e).0.sessions != sys.sessions
    requires e.s in sys.sessions && LoggedIn(sys.sessions[e.s]) ==> sys.sessions[e.s].act != n
    ensures var sys' := Effect(sys, e).0;
      e.s in sys'.sessions && (LoggedIn(sys'.sessions[e.s]) ==> sys'.sessions[e.s].act != n)
  {
  }

  lemma LockedIsPrivateEffect(sys: System, e: Event, n: string, sys': System)
    requires Grounded(sys) && n in sys.locks && sys' == Effect(sys, e).0
    requires !e.Operator? && e.s in sys.sessions && LoggedIn(sys.sessions[e.s]) ==> sys.sessions[e.s].act != n
    ensures Kept(sys, sys', n, OperatorPart(e, n))
    ensures forall h | h in sys.sessions && ByOther(e, h) :: h in sys'.sessions && sys'.sessions[h] == sys.sessions[h]
    ensures Unattended(sys, n) ==> Unattended(sys', n)
  {
    LockedFileIsPrivate(sys, e, n);
    if e.Operator? {
      assert sys'.sessions == sys.sessions;
    } else if sys'.sessions != sys.sessions {
      OneSessionMoves(sys, e);
      ActorKeepsOff(sys, e, n);
      OthersStay(sys, sys', e.s, n);
    }
  }

  /**
   While `n` is locked, a step by anyone but a session logged in to it leaves the lock and, but for an
   operator's deposit, the file; and every other session is as it was.
   */
  lemma LockedIsPrivate(sys: System, e: Event, n: string)
    requires Inv(sys) && n in sys.locks
    requires !e.Operator? && e.s in sys.sessions && LoggedIn(sys.sessions[e.s]) ==> sys.sessions[e.s].act != n
    ensures Kept(sys, Next(sys, e), n, OperatorPart(e, n))
    ensures forall h | h in sys.sessions && ByOther(e, h) ::
              h in Next(sys, e).sessions && Next(sys, e).sessions[h] == sys.sessions[h]
    ensures Unattended(sys, n) ==> Unattended(Next(sys, e), n)
  {
    StepIsEffect(sys, e);
    LockedIsPrivateEffect(sys, e, n, Effect(sys, e).0);
  }

  // ---------- An account nobody can get at ----------

  /** Locked, and no session is logged in to it: after an idle timeout, or left over from before. */
  predicate Orphaned(sys: System, n: string) {
    n in sys.locks && Unattended(sys, n)
  }

  lemma TimeoutOrphans(sys: System, s: nat)
    requires Inv(sys) && s in sys.sessions && sys.sessions[s].phase.Active?
    ensures Orphaned(Next(sys, Timeout(s)), sys.sessions[s].act)
  {
    StepIsEffect(sys, Timeout(s));
  }

  /** The operator's deposits to `n` among the events. */
  function OperatorSum(es: seq<Event>, n: string): nat {
    if es == [] then 0 else OperatorPart(es[0], n) + OperatorSum(es[1..], n)
  }

  /** The second half of a transfer to `n`. */
  predicate CreditTo(sys: System, e: Event, n: string) {
    && e.Credit? && e.s in sys.sessions
    && sys.sessions[e.s].phase.Owing? && sys.sessions[e.s].phase.recipient == n
  }

  /** Every login to `n` fails, and every transfer that gets as far as `n` is dropped. */
  predicate NobodyGets(sys: System, es: seq<Event>, n: string)
    decreases |es|
  {
    es == [] ||
    (&& (es[0].Login? && es[0].act == n ==> !ReplyTo(sys, es[0]).Accepted?)
     && (CreditTo(sys, es[0], n) ==> ReplyTo(sys, es[0]).Settled? && ReplyTo(sys, es[0]).end.Dropped?)
     && NobodyGets(Next(sys, es[0]), es[1..], n))
  }

  lemma OrphanStep(sys: System, e: Event, n: string)
    requires Inv(sys) && Orphaned(sys, n)
    ensures Orphaned(Next(sys, e), n) && Kept(sys, Next(sys, e), n, OperatorPart(e, n))
    ensures NobodyGets(sys, [e], n)
  {
    LockedIsPrivate(sys, e, n);
    StepIsEffect(sys, e);
  }

  /**
   Once an account is orphaned it stays so in every continuation: no login to it succeeds, no transfer
   reaches it, nothing unlocks it, and its file changes by the operator's deposits alone.
   */
  lemma {:induction false} OrphanForever(sys: System, es: seq<Event>, n: string)
    requires Inv(sys) && Orphaned(sys, n)
    ensures Orphaned(Run(sys, es), n)
    ensures Kept(sys, Run(sys, es), n, OperatorSum(es, n))
    ensures NobodyGets(sys, es, n)
    decreases |es|
  {
    if es != [] {
      OrphanStep(sys, es[0], n);
      StepKeepsInv(sys, es[0]);
      OrphanForever(Next(sys, es[0]), es[1..], n);
    }
  }

  // ---------- A session until it ends ----------

  predicate Ends(e: Event, s: nat) {
    (e.Logout? || e.Timeout?) && e.s == s
  }

  /** Session `s` is logged in to `act` with `pin`. */
  predicate Holds(sys: System, s: nat, act: string, pin: int) {
    s in sys.sessions && LoggedIn(sys.sessions[s]) && sys.sessions[s].act == act && sys.sessions[s].pin == pin
  }

  lemma OthersLeaveAlone(sys: System, e: Event, s: nat)
    requires Grounded(sys) && s in sys.sessions && ByOther(e, s)
    ensures s in Effect(sys, e).0.sessions && Effect(sys, e).0.sessions[s] == sys.sessions[s]
  {
    if !e.Operator? {
      OneSessionMoves(sys, e);
    }
  }

  lemma OwnStepHolds(sys: System, e: Event, s: nat, act: string, pin: int)
    requires Grounded(sys) && Holds(sys, s, act, pin) && !Ends(e, s) && !ByOther(e, s)
    ensures Holds(Effect(sys, e).0, s, act, pin)
  {
  }

  lemma HoldsStep(sys: System, e: Event, s: nat, act: string, pin: int)
    requires Inv(sys) && Holds(sys, s, act, pin) && !Ends(e, s)
    ensures Holds(Next(sys, e), s, act, pin)
  {
    StepIsEffect(sys, e);
    if ByOther(e, s) {
      OthersLeaveAlone(sys, e, s);
    } else {
      OwnStepHolds(sys, e, s, act, pin);
    }
  }

  /**
   From a login on, through any events but the session's own end, the session keeps its account: the
   credentials it logged in with stay good, and to unlock answers true and removes exactly that lock.
   */
  lemma {:induction false} SessionStable(sys: System, es: seq<Event>, s: nat, act: string, pin: int)
    requires Inv(sys) && Holds(sys, s, act, pin)
    requires forall i | 0 <= i < |es| :: !Ends(es[i], s)
    ensures var sys' := Run(sys, es);
      && Holds(sys', s, act, pin)
      && Lookup(WorldOf(sys', s), act, pin)
      && UnlockAct(WorldOf(sys', s), act, pin).1
      && act in sys'.locks && UnlockAct(WorldOf(sys', s), act, pin).0.locks == sys'.locks - {act}
    decreases |es|
  {
    if es == [] {
      assert SessionOk(sys.names, sys.files, sys.locks, sys.sessions[s]);
    } else {
      HoldsStep(sys, es[0], s, act, pin);
      StepKeepsInv(sys, es[0]);
      SessionStable(Next(sys, es[0]), es[1..], s, act, pin);
    }
  }

  /** A session that ends by logging out, or because its client went away, leaves its account unlocked. */
  lemma LogoutReleases(sys: System, s: nat)
    requires Inv(sys) && s in sys.sessions && sys.sessions[s].phase.Active?
    ensures ReplyTo(sys, Logout(s)).Accepted?
    ensures Next(sys, Logout(s)).locks == sys.locks - {sys.sessions[s].act}
    ensures Next(sys, Logout(s)).files == sys.files
  {
    StepIsEffect(sys, Logout(s));
  }

  // ---------- What never changes ----------

  predicate SamePins(sys: System, sys': System) {
    && sys'.files.Keys == sys.files.Keys
    && forall n | n in sys.files :: sys'.files[n].pin == sys.files[n].pin
  }

  lemma EffectKeepsPins(sys: System, e: Event)
    requires Grounded(sys)
    ensures SamePins(sys, Effect(sys, e).0)
  {
  }

  lemma StepKeepsPins(sys: System, e: Event)
    requires Inv(sys)
    ensures SamePins(sys, Next(sys, e))
  {
    EffectKeepsPins(sys, e);
    StepIsEffect(sys, e);
  }

  /** No run adds or removes an account file or changes a PIN, though the cached PIN is written back. */
  lemma {:induction false} PinsNeverChange(sys: System, es: seq<Event>)
    requires Inv(sys)
    ensures SamePins(sys, Run(sys, es))
    decreases |es|
  {
    if es != [] {
      StepKeepsPins(sys, es[0]);
      StepKeepsInv(sys, es[0]);
      PinsNeverChange(Next(sys, es[0]), es[1..]);
    }
  }

  /** Every PIN in a file is a number a customer can type; the reset value is not. */
  predicate NumericPins(sys: System) {
    forall n | n in sys.files :: sys.files[n].pin >= 0
  }

  /**
   So a file that was written during a run never holds the reset value -1, nor any other PIN that is no
   number, unless it did so at the start: there is one such file now exactly if there was one then.
   */
  lemma ResetPinIsNeverWritten(sys: System, es: seq<Event>)
    requires Inv(sys)
    ensures NumericPins(Run(sys, es)) <==> NumericPins(sys)
    ensures forall n | n in Run(sys, es).files && Run(sys, es).files[n].pin == -1 ::
              n in sys.files && sys.files[n].pin == -1
  {
    PinsNeverChange(sys, es);
  }

  // ---------- The login counter ----------

  /** A login that the counter has let through to the account, whatever came of it. */
  predicate Reaches(e: Event, r: Reply, n: string) {
    e.Login? && e.act == n && (r.Accepted? || r.Refused?)
  }

  /** How many logins to `n`, with the right PIN or a wrong one, get as far as the account during the run. */
  function Reached(sys: System, es: seq<Event>, n: string): nat
    decreases |es|
  {
    if es == [] then 0
    else (if Reaches(es[0], ReplyTo(sys, es[0]), n) then 1 else 0) + Reached(Next(sys, es[0]), es[1..], n)
  }

  lemma StepCounts(sys: System, e: Event, n: string)
    requires Lockout.Distinct(sys.lockout) && n != ""
    ensures var before, after := Lockout.Stored(sys.lockout, n), Lockout.Stored(Next(sys, e).lockout, n);
      && Lockout.Distinct(Next(sys, e).lockout)
      && after == before + (if Reaches(e, ReplyTo(sys, e), n) then 1 else 0)
      && (Reaches(e, ReplyTo(sys, e), n) ==> before < 3)
      && (e.Login? && e.act == n && In(sys, e.s, false) ==>
            (ReplyTo(sys, e).LockedOut? <==> before >= 3))
  {
    if e.Login? && e.act != "" {
      Lockout.AttemptCounts(sys.lockout, e.act, n);
    }
  }

  /** The counter counts exactly the logins that get as far as the account. */
  lemma {:induction false} CounterCountsAttempts(sys: System, es: seq<Event>, n: string)
    requires Lockout.Distinct(sys.lockout) && n != ""
    ensures Lockout.Distinct(Run(sys, es).lockout)
    ensures Lockout.Stored(Run(sys, es).lockout, n) == Lockout.Stored(sys.lockout, n) + Reached(sys, es, n)
    ensures Lockout.Stored(sys.lockout, n) <= 3 ==>
              Lockout.Stored(Run(sys, es).lockout, n) <= 3
    decreases |es|
  {
    if es != [] {
      StepCounts(sys, es[0], n);
      CounterCountsAttempts(Next(sys, es[0]), es[1..], n);
    }
  }

  /**
   From the start no more than three logins to an account ever get as far as the account, right or wrong; a
   login that is tried is turned away by the counter exactly if there have been three. The empty name, which
   is no account's, is not counted.
   */
  lemma AtMostThreeAttempts(sys: System, es: seq<Event>, s: nat, act: string, pin: nat)
    requires Init(sys) && act != ""
    ensures Reached(sys, es, act) <= 3
    ensures Lockout.Stored(Run(sys, es).lockout, act) == Reached(sys, es, act)
    ensures In(Run(sys, es), s, false) ==>
              (ReplyTo(Run(sys, es), Login(s, act, pin)).LockedOut?
               <==> Reached(sys, es, act) == 3)
  {
    CounterCountsAttempts(sys, es, act);
    StepCounts(Run(sys, es), Login(s, act, pin), act);
  }

  /** A login without a name gets nowhere, as long as there is no account without a name. */
  lemma NamelessLoginFails(sys: System, s: nat, pin: nat)
    requires Inv(sys) && "" !in sys.names && In(sys, s, false)
    ensures ReplyTo(sys, Login(s, "", pin)) == Refused
    ensures var sys' := Next(sys, Login(s, "", pin));
      sys'.files == sys.files && sys'.locks == sys.locks && sys'.lockout == sys.lockout
  {
    StepIsEffect(sys, Login(s, "", pin));
  }
}
