/** What holds over every run of the system, whatever the interleaving. */
module SystemLaws {
  import opened Ledger
  import opened LedgerLaws
  import opened Sums
  import opened System
  import opened SystemInvariant

  // ---------- Conservation ----------

  /** Money that has come in and gone out, as the program reported it. */
  datatype Tally = Tally(deposited: nat, byOperator: nat, withdrawn: nat, dropped: nat)

  const NOTHING := Tally(0, 0, 0, 0)

  function Plus(a: Tally, b: Tally): Tally {
    Tally(a.deposited + b.deposited, a.byOperator + b.byOperator, a.withdrawn + b.withdrawn, a.dropped + b.dropped)
  }

  /** What one step reports: only these four replies stand for money entering or leaving the accounts. */
  function Reported(e: Event, r: Reply): Tally {
    match (e, r)
    case (Deposit(_, amount), Accepted) => NOTHING.(deposited := amount)
    case (Operator(_, amount), Accepted) => NOTHING.(byOperator := amount)
    case (Debit(_), Paid(amount)) => NOTHING.(withdrawn := amount)
    case (Credit(_), Settled(Dropped, amount)) => NOTHING.(dropped := amount)
    case _ => NOTHING
  }

  function Total(sys: System, es: seq<Event>): Tally
    decreases |es|
  {
    if es == [] then NOTHING
    else Plus(Reported(es[0], ReplyTo(sys, es[0])), Total(Next(sys, es[0]), es[1..]))
  }

  function InFlight(ses: Session): nat {
    if ses.phase.Owing? then ses.phase.amount else 0
  }

  function AllInFlight(sessions: map<nat, Session>): map<nat, int> {
    map s | s in sessions :: InFlight(sessions[s])
  }

  /** The money in the account files and in transfers between their two halves. */
  ghost function Worth(sys: System): int {
    Money(sys.files) + Sum(AllInFlight(sys.sessions))
  }

  /** One file and one session replaced: the worth changes by what they stand for. */
  lemma WorthUpdate(sys: System, sys': System, n: string, f: File, s: nat, ses: Session)
    requires sys'.files == sys.files[n := f] && n in sys.files
    requires sys'.sessions == sys.sessions[s := ses] && s in sys.sessions
    ensures Worth(sys') == Worth(sys) + f.balance - sys.files[n].balance + InFlight(ses) - InFlight(sys.sessions[s])
  {
    MoneyUpdate(sys.files, n, f);
    SumUpdate(AllInFlight(sys.sessions), s, InFlight(ses));
    assert AllInFlight(sys'.sessions) == AllInFlight(sys.sessions)[s := InFlight(ses)];
  }

  /** One session replaced or added. */
  lemma WorthSession(sys: System, sys': System, s: nat, ses: Session)
    requires sys'.files == sys.files && sys'.sessions == sys.sessions[s := ses]
    requires s !in sys.sessions ==> InFlight(ses) == 0
    ensures Worth(sys') ==
            Worth(sys) + InFlight(ses) - if s in sys.sessions then InFlight(sys.sessions[s]) else 0
  {
    SumUpdate(AllInFlight(sys.sessions), s, InFlight(ses));
    assert AllInFlight(sys'.sessions) == AllInFlight(sys.sessions)[s := InFlight(ses)];
  }

  lemma MovedWorth(sys: System, s: nat, delta: int, phase: Phase)
    requires s in sys.sessions && sys.sessions[s].act in sys.files
    ensures Worth(Moved(sys, s, delta, phase)) ==
            Worth(sys) + delta + InFlight(sys.sessions[s].(phase := phase)) - InFlight(sys.sessions[s])
  {
    var sys' := Moved(sys, s, delta, phase);
    var act := sys.sessions[s].act;
    WorthUpdate(sys, sys', act, sys'.files[act], s, sys'.sessions[s]);
  }

  lemma PhaseWorth(sys: System, s: nat, phase: Phase)
    requires s in sys.sessions
    ensures Worth(InPhase(sys, s, phase)) ==
            Worth(sys) + InFlight(sys.sessions[s].(phase := phase)) - InFlight(sys.sessions[s])
  {
    var sys' := InPhase(sys, s, phase);
    WorthSession(sys, sys', s, sys'.sessions[s]);
  }

  lemma RaisedWorth(sys: System, n: string, amount: nat)
    requires n in sys.files
    ensures Worth(Raised(sys, n, amount)) == Worth(sys) + amount
  {
    MoneyUpdate(sys.files, n, Raised(sys, n, amount).files[n]);
  }

  predicate Balanced(before: int, after: int, t: Tally) {
    after + t.withdrawn + t.dropped == before + t.deposited + t.byOperator
  }

  lemma CreditWorth(sys: System, s: nat)
    requires s in sys.sessions && sys.sessions[s].phase.Owing? && sys.sessions[s].act in sys.files
    ensures var (sys', r) := CreditEffect(sys, s); Balanced(Worth(sys), Worth(sys'), Reported(Credit(s), r))
  {
    var ph := sys.sessions[s].phase;
    var t := ph.recipient;
    if t in sys.locks {
      PhaseWorth(sys, s, Active);
    } else if t in sys.files {
      RaisedWorth(sys, t, ph.amount);
      PhaseWorth(Raised(sys, t, ph.amount), s, Active);
    } else {
      MovedWorth(sys, s, ph.amount, Active);
    }
  }

  lemma DebitWorth(sys: System, s: nat)
    requires s in sys.sessions && sys.sessions[s].phase.Checked? && sys.sessions[s].act in sys.files
    ensures var ph := sys.sessions[s].phase;
      Worth(DebitEffect(sys, s)) == Worth(sys) - if ph.dest.None? then ph.amount else 0
  {
    var ph := sys.sessions[s].phase;
    MovedWorth(sys, s, 0 - ph.amount, AfterDebit(ph));
  }

  /** The steps that move no money change neither a file nor what is in flight. */
  lemma QuietWorth(sys: System, e: Event)
    requires Grounded(sys)
    requires e.Connect? || e.Login? || e.Check? || e.Logout? || e.Timeout?
    ensures Worth(Effect(sys, e).0) == Worth(sys)
  {
    var sys' := Effect(sys, e).0;
    if sys' != sys {
      WorthSession(sys, sys', e.s, sys'.sessions[e.s]);
    }
  }

  lemma DepositBalances(sys: System, s: nat, amount: nat)
    requires Grounded(sys) && In(sys, s, true)
    ensures Balanced(Worth(sys), Worth(Moved(sys, s, amount, Active)), NOTHING.(deposited := amount))
  {
    MovedWorth(sys, s, amount, Active);
  }

  lemma DebitBalances(sys: System, s: nat)
    requires Grounded(sys) && s in sys.sessions && sys.sessions[s].phase.Checked?
    ensures Balanced(Worth(sys), Worth(DebitEffect(sys, s)), Reported(Debit(s), DebitReply(sys.sessions[s].phase)))
  {
    DebitWorth(sys, s);
  }

  lemma OperatorBalances(sys: System, n: string, amount: nat)
    requires n in sys.files
    ensures Balanced(Worth(sys), Worth(Raised(sys, n, amount)), NOTHING.(byOperator := amount))
  {
    RaisedWorth(sys, n, amount);
  }

  lemma QuietBalances(sys: System, e: Event)
    requires Grounded(sys)
    requires e.Connect? || e.Login? || e.Check? || e.Logout? || e.Timeout?
    ensures var (sys', r) := Effect(sys, e); Balanced(Worth(sys), Worth(sys'), Reported(e, r))
  {
    QuietWorth(sys, e);
  }

  lemma EffectBalances(sys: System, e: Event)
    requires Grounded(sys)
    ensures var (sys', r) := Effect(sys, e); Balanced(Worth(sys), Worth(sys'), Reported(e, r))
  {
    match e {
      case Deposit(s, amount) => if In(sys, s, true) { DepositBalances(sys, s, amount); }
      case Inquire(s) => if In(sys, s, true) { DepositBalances(sys, s, 0); }
      case Debit(s) => if s in sys.sessions && sys.sessions[s].phase.Checked? { DebitBalances(sys, s); }
      case Credit(s) => if s in sys.sessions && sys.sessions[s].phase.Owing? { CreditWorth(sys, s); }
      case Operator(name, amount) =>
        if name in sys.files { OperatorBalances(sys, name, amount); }
      case _ => QuietBalances(sys, e);
    }
  }

  /** Every step accounts for its money. */
  lemma StepBalances(sys: System, e: Event)
    requires Inv(sys)
    ensures Balanced(Worth(sys), Worth(Next(sys, e)), Reported(e, ReplyTo(sys, e)))
  {
    StepIsEffect(sys, e);
    EffectBalances(sys, e);
  }

  /**
   Conservation: after any events, the money in the files and in flight is the initial money plus what
   sessions and the operator deposited, less what was withdrawn and what transfers dropped because they
   found the recipient locked.
   */
  lemma {:induction false} Conservation(sys: System, es: seq<Event>)
    requires Inv(sys)
    ensures Balanced(Worth(sys), Worth(Run(sys, es)), Total(sys, es))
    decreases |es|
  {
    if es != [] {
      StepBalances(sys, es[0]);
      StepKeepsInv(sys, es[0]);
      Conservation(Next(sys, es[0]), es[1..]);
    }
  }

  // ---------- Solvency and the width of int ----------

  /** From any start with non-negative balances, no account file ever shows a negative balance. */
  lemma NeverNegative(sys: System, es: seq<Event>)
    requires Init(sys)
    ensures Solvent(Run(sys, es).files)
  {
    InitEstablishesInv(sys);
    RunKeepsInv(sys, es);
  }

  const INT_MAX := 0x7fff_ffff
  const INT_MIN := -0x8000_0000

  predicate FitsInt(n: int) {
    INT_MIN <= n <= INT_MAX
  }

  /** The numbers of 32 bits in two's complement. */
  lemma IntRange(n: int)
    ensures FitsInt(n) <==> -2_147_483_648 <= n <= 2_147_483_647
  {
  }

  /** Every sum and difference of balances that step `e` computes, and every balance it reads, fits an int. */
  predicate StepFits(sys: System, e: Event) {
    && (forall n | n in sys.files :: FitsInt(sys.files[n].balance))
    && (match e
        case Deposit(s, amount) =>
          s in sys.sessions && sys.sessions[s].phase.Active? && sys.sessions[s].act in sys.files ==>
            FitsInt(sys.files[sys.sessions[s].act].balance + amount)
        case Debit(s) =>
          s in sys.sessions && sys.sessions[s].phase.Checked? && sys.sessions[s].act in sys.files ==>
            FitsInt(sys.files[sys.sessions[s].act].balance - sys.sessions[s].phase.amount)
        case Credit(s) =>
          s in sys.sessions && sys.sessions[s].phase.Owing? ==>
            forall n | n in sys.files && (n == sys.sessions[s].phase.recipient || n == sys.sessions[s].act) ::
              FitsInt(sys.files[n].balance + sys.sessions[s].phase.amount)
        case Operator(name, amount) => name in sys.files ==> FitsInt(sys.files[name].balance + amount)
        case _ => true)
  }

  predicate RunFits(sys: System, es: seq<Event>)
    decreases |es|
  {
    es == [] || (StepFits(sys, es[0]) && RunFits(Next(sys, es[0]), es[1..]))
  }

  /** What the deposits of a run have brought in. */
  function Received(t: Tally): nat {
    t.deposited + t.byOperator
  }

  /** What the deposits among the events would bring in, accepted or not. */
  function Offered(es: seq<Event>): nat {
    if es == [] then 0
    else (if es[0].Deposit? || es[0].Operator? then es[0].amount else 0) + Offered(es[1..])
  }

  lemma {:induction false} ReceivedIsOffered(sys: System, es: seq<Event>)
    ensures Received(Total(sys, es)) <= Offered(es)
    decreases |es|
  {
    if es != [] {
      ReceivedIsOffered(Next(sys, es[0]), es[1..]);
    }
  }

  lemma PartsWithinWorth(sys: System, n: string)
    requires Inv(sys) && n in sys.files
    ensures 0 <= sys.files[n].balance <= Worth(sys)
    ensures forall s | s in sys.sessions :: sys.files[n].balance + InFlight(sys.sessions[s]) <= Worth(sys)
  {
    var flight := AllInFlight(sys.sessions);
    SumBounds(Balances(sys.files));
    SumBounds(flight);
    assert Balances(sys.files)[n] == sys.files[n].balance;
    forall s | s in sys.sessions ensures sys.files[n].balance + InFlight(sys.sessions[s]) <= Worth(sys) {
      assert flight[s] == InFlight(sys.sessions[s]);
    }
  }

  /** No balance, and no balance with an amount in flight, is above `worth`. */
  predicate Within(sys: System, worth: int) {
    forall n | n in sys.files ::
      && 0 <= sys.files[n].balance <= worth
      && forall s | s in sys.sessions :: sys.files[n].balance + InFlight(sys.sessions[s]) <= worth
  }

  lemma WithinFits(sys: System, e: Event, worth: int)
    requires Grounded(sys) && Within(sys, worth) && worth <= INT_MAX
    requires e.Deposit? && In(sys, e.s, true) ==> worth + e.amount <= INT_MAX
    requires e.Operator? && e.name in sys.files ==> worth + e.amount <= INT_MAX
    requires e.Debit? && e.s in sys.sessions && sys.sessions[e.s].phase.Checked? ==>
               sys.sessions[e.s].phase.amount <= sys.files[sys.sessions[e.s].act].balance
    ensures StepFits(sys, e)
  {
  }

  lemma StepWithinBound(sys: System, e: Event)
    requires Inv(sys) && Worth(sys) + Received(Reported(e, ReplyTo(sys, e))) <= INT_MAX
    ensures StepFits(sys, e)
  {
    forall n | n in sys.files
      ensures 0 <= sys.files[n].balance <= Worth(sys)
      ensures forall s | s in sys.sessions :: sys.files[n].balance + InFlight(sys.sessions[s]) <= Worth(sys)
    {
      PartsWithinWorth(sys, n);
    }
    if e.Debit? && e.s in sys.sessions {
      assert SessionOk(sys.names, sys.files, sys.locks, sys.sessions[e.s]);
    }
    StepIsEffect(sys, e);
    WithinFits(sys, e, Worth(sys));
  }

  /**
   If what is there and what the deposits of the run bring in fit an int together, no step of the run
   overflows: there is no other way for a balance to grow.
   */
  lemma {:induction false} NoOverflow(sys: System, es: seq<Event>)
    requires Inv(sys) && Worth(sys) + Received(Total(sys, es)) <= 0x7fff_ffff
    ensures RunFits(sys, es)
    decreases |es|
  {
    if es != [] {
      StepWithinBound(sys, es[0]);
      StepBalances(sys, es[0]);
      StepKeepsInv(sys, es[0]);
      NoOverflow(Next(sys, es[0]), es[1..]);
    }
  }
}
