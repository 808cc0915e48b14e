/**
 The system at the grain of whole bank calls: what a session's process does for one message, built from
 the functions the class Bank is proved against. Every such run is a run of the finer system.
 */
module Calls {
  import opened Wrappers
  import opened Ledger
  import opened System
  import opened SystemInvariant
  import LedgerLaws
  import Lockout

  datatype Call =
    | Single(e: Event)                                  // everything that is one step already
    | Withdraw(s: nat, amount: nat)
    | Transfer(s: nat, recipient: string, amount: nat)

  /** The events that are calls of their own: all but the parts of a withdrawal or a transfer. */
  predicate WholeCall(e: Event) {
    !e.Check? && !e.Debit? && !e.Credit?
  }

  function WithdrawCall(sys: System, s: nat, amount: nat): (System, Reply) {
    if !In(sys, s, true) then (sys, Ignored)
    else
      var ses := sys.sessions[s];
      var (w, r) := BankWithdraw(WorldOf(sys, s), ses.act, ses.pin, amount);
      if r.Exited? then (After(sys, s, w, Dead), Exit)
      else (After(sys, s, w, Active), if r.value then Paid(amount) else Refused)
  }

  function TransferCall(sys: System, s: nat, t: string, amount: nat): (System, Reply) {
    if !In(sys, s, true) then (sys, Ignored)
    else
      var ses := sys.sessions[s];
      var (w, r) := Ledger.Transfer(WorldOf(sys, s), ses.act, ses.pin, t, amount);
      if r.Exited? then (After(sys, s, w, Dead), Exit)
      else (After(sys, s, w, Active), if r.value then Accepted else Refused)
  }

  function CallStep(sys: System, c: Call): (System, Reply) {
    match c
    case Single(e) => if WholeCall(e) then Step(sys, e) else (sys, Ignored)
    case Withdraw(s, amount) => WithdrawCall(sys, s, amount)
    case Transfer(s, t, amount) => TransferCall(sys, s, t, amount)
  }

  function CallRun(sys: System, cs: seq<Call>): System
    decreases |cs|
  {
    if cs == [] then sys else CallRun(CallStep(sys, cs[0]).0, cs[1..])
  }

  /** Session `s` is not in the middle of a call. */
  predicate Ready(sys: System, s: nat) {
    s in sys.sessions ==> !sys.sessions[s].phase.Checked? && !sys.sessions[s].phase.Owing?
  }

  predicate Whole(sys: System) {
    forall s | s in sys.sessions :: Ready(sys, s)
  }

  /** The session that makes the call is not in the middle of another; other sessions may be. */
  predicate ReadyFor(sys: System, c: Call) {
    match c
    case Single(_) => true
    case Withdraw(s, _) => Ready(sys, s)
    case Transfer(s, _, _) => Ready(sys, s)
  }

  // ---------- A call is a run of steps ----------

  function Script(c: Call): seq<Event> {
    match c
    case Single(e) => if WholeCall(e) then [e] else []
    case Withdraw(s, amount) => [Check(s, amount, None), Debit(s)]
    case Transfer(s, t, amount) => [Check(s, amount, Some(t)), Debit(s), Credit(s)]
  }

  function Scripts(cs: seq<Call>): seq<Event> {
    if cs == [] then [] else Script(cs[0]) + Scripts(cs[1..])
  }

  /** What the steps of a run answer, in order. */
  function Answers(sys: System, es: seq<Event>): seq<Reply>
    decreases |es|
  {
    if es == [] then [] else [ReplyTo(sys, es[0])] + Answers(Next(sys, es[0]), es[1..])
  }

  /** The end of a transfer as its caller is told of it. */
  function Verdict(r: Reply): Reply {
    if r.Settled? then if r.end.Credited? then Accepted else Refused else r
  }

  /** The answer to a whole call, from the answers of its parts: the first refusal, or else the last. */
  function Combined(c: Call, rs: seq<Reply>): Reply {
    match c
    case Single(_) => if |rs| == 1 then rs[0] else Ignored
    case Withdraw(_, _) => if |rs| == 2 then if rs[0].Accepted? then rs[1] else rs[0] else Ignored
    case Transfer(_, _, _) => if |rs| == 3 then if rs[0].Accepted? then Verdict(rs[2]) else rs[0] else Ignored
  }

  lemma {:induction false} RunConcat(sys: System, es: seq<Event>, fs: seq<Event>)
    ensures Run(sys, es + fs) == Run(Run(sys, es), fs)
    decreases |es|
  {
    if es == [] {
      assert es + fs == fs;
    } else {
      assert (es + fs)[1..] == es[1..] + fs;
      RunConcat(Next(sys, es[0]), es[1..], fs);
    }
  }

  /** The withdrawal as one call. */
  lemma WithdrawIsEffect(sys: System, s: nat, amount: nat)
    requires Inv(sys) && In(sys, s, true)
    ensures WithdrawCall(sys, s, amount) ==
      if amount <= sys.sessions[s].caches[sys.sessions[s].act].balance
      then (Moved(sys, s, 0 - amount, Active), Paid(amount)) else (sys, Refused)
  {
    var ses := sys.sessions[s];
    assert sys.locks + {ses.act} == sys.locks;
    PutThenSlot(WorldOf(sys, s), ses.act, SlotOf(WorldOf(sys, s), ses.act), ses.act);
    assert sys.sessions[s := ses] == sys.sessions;
  }

  /** Where a transfer that has passed its tests ends. */
  function Transferred(sys: System, s: nat, t: string, amount: nat): System
    requires s in sys.sessions && sys.sessions[s].act in sys.files
  {
    if t in sys.locks then Moved(sys, s, 0 - amount, Active)
    else if t !in sys.files then Moved(sys, s, 0, Active)
    else Raised(Moved(sys, s, 0 - amount, Active), t, amount)
  }

  /** What of the invariant a transfer of session `s` needs. */
  predicate Holding(sys: System, s: nat) {
    In(sys, s, true) &&
    var ses := sys.sessions[s];
    && ses.act in sys.files && ses.act in sys.locks && ses.caches.Keys == sys.names && ses.act in ses.caches
    && ses.caches[ses.act].pin == ses.pin == sys.files[ses.act].pin
    && (forall n | n in ses.caches && n != ses.act :: ses.caches[n] == RESET)
  }

  lemma InvHolds(sys: System, s: nat)
    requires Inv(sys) && In(sys, s, true)
    ensures Holding(sys, s)
  {
    assert SessionOk(sys.names, sys.files, sys.locks, sys.sessions[s]);
  }

  lemma HoldingTransfers(sys: System, s: nat, t: string, amount: nat)
    requires Holding(sys, s)
    ensures TransferCall(sys, s, t, amount) ==
      if Affordable(sys, s, amount, Some(t))
      then (Transferred(sys, s, t, amount), if t !in sys.locks && t in sys.files then Accepted else Refused)
      else (sys, Refused)
  {
    var ses := sys.sessions[s];
    LedgerLaws.TransferOutcome(WorldOf(sys, s), ses.act, ses.pin, t, amount);
    assert sys.sessions[s := ses] == sys.sessions;
    if Affordable(sys, s, amount, Some(t)) {
      var seen := ses.caches[ses.act := Cache(ses.pin, sys.files[ses.act].balance - amount)];
      assert seen[t := RESET] == seen;
    }
  }

  /** The transfer as one call. */
  lemma TransferIsEffect(sys: System, s: nat, t: string, amount: nat)
    requires Inv(sys) && In(sys, s, true)
    ensures TransferCall(sys, s, t, amount) ==
      if Affordable(sys, s, amount, Some(t))
      then (Transferred(sys, s, t, amount), if t !in sys.locks && t in sys.files then Accepted else Refused)
      else (sys, Refused)
  {
    InvHolds(sys, s);
    HoldingTransfers(sys, s, t, amount);
  }

  lemma RunTwo(sys: System, a: Event, b: Event)
    ensures Run(sys, [a, b]) == Next(Next(sys, a), b)
    ensures Answers(sys, [a, b]) == [ReplyTo(sys, a), ReplyTo(Next(sys, a), b)]
  {
    assert [a, b][1..] == [b];
    assert Run(Next(sys, a), [b]) == Next(Next(sys, a), b);
    assert Answers(Next(sys, a), [b]) == [ReplyTo(Next(sys, a), b)];
  }

  lemma RunThree(sys: System, a: Event, b: Event, c: Event)
    ensures Run(sys, [a, b, c]) == Next(Next(Next(sys, a), b), c)
    ensures Answers(sys, [a, b, c])
            == [ReplyTo(sys, a), ReplyTo(Next(sys, a), b), ReplyTo(Next(Next(sys, a), b), c)]
  {
    assert [a, b, c][1..] == [b, c];
    RunTwo(Next(sys, a), b, c);
  }

  /** Two moves of one session's balance in a row are one. */
  lemma MovedTwice(sys: System, s: nat, first: int, between: Phase, second: int, phase: Phase)
    requires s in sys.sessions && sys.sessions[s].act in sys.files
    ensures Moved(Moved(sys, s, first, between), s, second, phase) == Moved(sys, s, first + second, phase)
  {
    var once, twice := Moved(sys, s, first + second, phase), Moved(Moved(sys, s, first, between), s, second, phase);
    assert twice.files == once.files;
    assert twice.sessions[s].caches == once.sessions[s].caches;
    assert twice.sessions == once.sessions;
  }

  /** A phase that is at once replaced leaves no trace. */
  lemma PhaseThenMoved(sys: System, s: nat, between: Phase, delta: int, phase: Phase)
    requires s in sys.sessions && sys.sessions[s].act in sys.files
    ensures Moved(InPhase(sys, s, between), s, delta, phase) == Moved(sys, s, delta, phase)
  {
    assert Moved(InPhase(sys, s, between), s, delta, phase).sessions == Moved(sys, s, delta, phase).sessions;
  }

  lemma MovedThenPhase(sys: System, s: nat, delta: int, between: Phase, phase: Phase)
    requires s in sys.sessions && sys.sessions[s].act in sys.files
    ensures InPhase(Moved(sys, s, delta, between), s, phase) == Moved(sys, s, delta, phase)
  {
    assert InPhase(Moved(sys, s, delta, between), s, phase).sessions == Moved(sys, s, delta, phase).sessions;
  }

  lemma CheckMoves(sys: System, s: nat, amount: nat, dest: Option<string>)
    requires Inv(sys)
    ensures Step(sys, Check(s, amount, dest)) ==
            if !In(sys, s, true) then (sys, Ignored)
            else if Affordable(sys, s, amount, dest) then (InPhase(sys, s, Checked(amount, dest)), Accepted)
            else (sys, Refused)
  {
    StepIsEffect(sys, Check(s, amount, dest));
  }

  lemma DebitMoves(sys: System, s: nat)
    requires Inv(sys)
    ensures Step(sys, Debit(s)) ==
            if s in sys.sessions && sys.sessions[s].phase.Checked?
            then (DebitEffect(sys, s), DebitReply(sys.sessions[s].phase)) else (sys, Ignored)
  {
    StepIsEffect(sys, Debit(s));
  }

  lemma CreditMoves(sys: System, s: nat)
    requires Inv(sys)
    ensures Step(sys, Credit(s)) ==
            if s in sys.sessions && sys.sessions[s].phase.Owing? then CreditEffect(sys, s) else (sys, Ignored)
  {
    StepIsEffect(sys, Credit(s));
  }

  lemma DebitFromCheck(sys: System, s: nat, ph: Phase)
    requires s in sys.sessions && sys.sessions[s].act in sys.files && ph.Checked?
    ensures DebitEffect(InPhase(sys, s, ph), s) == Moved(sys, s, 0 - ph.amount, AfterDebit(ph))
  {
    PhaseThenMoved(sys, s, ph, 0 - ph.amount, AfterDebit(ph));
  }

  predicate Passes(sys: System, s: nat, amount: nat, dest: Option<string>)
    requires Inv(sys)
  {
    In(sys, s, true) && Affordable(sys, s, amount, dest)
  }

  /** The test, when it fails, and the debit that is then none. */
  lemma FailedCheck(sys: System, s: nat, amount: nat, dest: Option<string>)
    requires Inv(sys) && Ready(sys, s) && !Passes(sys, s, amount, dest)
    ensures Step(sys, Check(s, amount, dest)) == (sys, if In(sys, s, true) then Refused else Ignored)
    ensures Next(sys, Debit(s)) == sys
  {
    CheckMoves(sys, s, amount, dest);
    DebitMoves(sys, s);
  }

  /** The test, when it succeeds, and the debit that follows it with nothing in between. */
  lemma CheckThenDebit(sys: System, s: nat, amount: nat, dest: Option<string>)
    requires Inv(sys) && Passes(sys, s, amount, dest)
    ensures ReplyTo(sys, Check(s, amount, dest)) == Accepted
    ensures Step(Next(sys, Check(s, amount, dest)), Debit(s))
            == (Moved(sys, s, 0 - amount, AfterDebit(Checked(amount, dest))), DebitReply(Checked(amount, dest)))
  {
    CheckMoves(sys, s, amount, dest);
    StepKeepsInv(sys, Check(s, amount, dest));
    DebitMoves(InPhase(sys, s, Checked(amount, dest)), s);
    DebitFromCheck(sys, s, Checked(amount, dest));
  }

  /** A call ends where its script ends, and answers what the parts of the script answer together. */
  predicate IsScript(sys: System, c: Call) {
    var (sys', r) := CallStep(sys, c);
    sys' == Run(sys, Script(c)) && r == Combined(c, Answers(sys, Script(c)))
  }

  lemma WithdrawIsScript(sys: System, s: nat, amount: nat)
    requires Inv(sys) && Ready(sys, s)
    ensures IsScript(sys, Withdraw(s, amount))
  {
    RunTwo(sys, Check(s, amount, None), Debit(s));
    if Passes(sys, s, amount, None) {
      CheckThenDebit(sys, s, amount, None);
    } else {
      FailedCheck(sys, s, amount, None);
    }
    if In(sys, s, true) {
      WithdrawIsEffect(sys, s, amount);
    }
  }

  /** The credit that follows a debit at once, whichever way it ends. */
  lemma CreditAfterDebit(sys: System, s: nat, t: string, amount: nat)
    requires s in sys.sessions && sys.sessions[s].act in sys.files && t != sys.sessions[s].act
    ensures var (sys', r) := CreditEffect(Moved(sys, s, 0 - amount, Owing(t, amount)), s);
      && sys' == Transferred(sys, s, t, amount)
      && Verdict(r) == if t !in sys.locks && t in sys.files then Accepted else Refused
  {
    var owing := Moved(sys, s, 0 - amount, Owing(t, amount));
    assert owing.sessions[s].phase == Owing(t, amount) && owing.locks == sys.locks;
    assert t in sys.files <==> t in owing.files;
    if t in sys.locks {
      MovedThenPhase(sys, s, 0 - amount, Owing(t, amount), Active);
    } else if t in sys.files {
      MovedThenPhase(sys, s, 0 - amount, Owing(t, amount), Active);
      assert InPhase(Raised(owing, t, amount), s, Active) == Raised(InPhase(owing, s, Active), t, amount);
    } else {
      MovedTwice(sys, s, 0 - amount, Owing(t, amount), amount, Active);
    }
  }

  lemma TransferIsScript(sys: System, s: nat, t: string, amount: nat)
    requires Inv(sys) && Ready(sys, s)
    ensures IsScript(sys, Transfer(s, t, amount))
  {
    RunThree(sys, Check(s, amount, Some(t)), Debit(s), Credit(s));
    if Passes(sys, s, amount, Some(t)) {
      CheckThenDebit(sys, s, amount, Some(t));
      StepKeepsInv(sys, Check(s, amount, Some(t)));
      StepKeepsInv(Next(sys, Check(s, amount, Some(t))), Debit(s));
      CreditMoves(Moved(sys, s, 0 - amount, Owing(t, amount)), s);
      CreditAfterDebit(sys, s, t, amount);
    } else {
      FailedCheck(sys, s, amount, Some(t));
      CreditMoves(sys, s);
    }
    if In(sys, s, true) {
      TransferIsEffect(sys, s, t, amount);
    }
  }

  lemma CallIsScript(sys: System, c: Call)
    requires Inv(sys) && ReadyFor(sys, c)
    ensures IsScript(sys, c)
  {
    match c {
      case Single(e) =>
        assert WholeCall(e) ==> Run(sys, [e]) == Run(Next(sys, e), []);
        assert [e][1..] == [];
      case Withdraw(s, amount) => WithdrawIsScript(sys, s, amount);
      case Transfer(s, t, amount) => TransferIsScript(sys, s, t, amount);
    }
  }

  lemma EffectKeepsWhole(sys: System, e: Event)
    requires Inv(sys) && Whole(sys) && WholeCall(e)
    ensures Whole(Effect(sys, e).0)
  {
  }

  lemma MovedKeepsWhole(sys: System, s: nat, delta: int)
    requires Whole(sys) && s in sys.sessions && sys.sessions[s].act in sys.files
    ensures Whole(Moved(sys, s, delta, Active))
  {
  }

  lemma CallKeepsWhole(sys: System, c: Call)
    requires Inv(sys) && Whole(sys)
    ensures Whole(CallStep(sys, c).0)
  {
    match c {
      case Single(e) =>
        if WholeCall(e) {
          StepIsEffect(sys, e);
          EffectKeepsWhole(sys, e);
        }
      case Withdraw(s, amount) =>
        if In(sys, s, true) {
          WithdrawIsEffect(sys, s, amount);
          MovedKeepsWhole(sys, s, 0 - amount);
        }
      case Transfer(s, t, amount) =>
        if In(sys, s, true) {
          TransferIsEffect(sys, s, t, amount);
          MovedKeepsWhole(sys, s, 0 - amount);
          MovedKeepsWhole(sys, s, 0);
        }
    }
  }

  /**
   Every run of whole calls ends where a run of steps ends: whatever holds of all runs of the finer
   system holds of the runs of the bank's own calls.
   */
  lemma {:induction false} CallsAreRuns(sys: System, cs: seq<Call>)
    requires Inv(sys) && Whole(sys)
    ensures CallRun(sys, cs) == Run(sys, Scripts(cs))
    ensures Inv(CallRun(sys, cs)) && Whole(CallRun(sys, cs))
    decreases |cs|
  {
    if cs != [] {
      CallIsScript(sys, cs[0]);
      RunKeepsInv(sys, Script(cs[0]));
      CallKeepsWhole(sys, cs[0]);
      RunConcat(sys, Script(cs[0]), Scripts(cs[1..]));
      CallsAreRuns(CallStep(sys, cs[0]).0, cs[1..]);
    }
  }

  // ---------- Money that is lost ----------

  /** Two accounts, 10 in the one, and nobody there yet. */
  function TwoAccounts(): System {
    System({"a", "b"}, map["a" := File(1, 10), "b" := File(2, 0)], {}, [], map[])
  }

  function Arrivals(): seq<Call> {
    [Single(Connect(0)), Single(Login(0, "a", 1)), Single(Connect(1)), Single(Login(1, "b", 2))]
  }

  /** A session that connects and logs in to a free account, and what it leaves as it was. */
  lemma Enters(sys: System, s: nat, act: string, pin: nat)
    requires Inv(sys) && s !in sys.sessions
    requires LoginGranted(sys, act, pin) && Lockout.Login(sys.lockout, act).1
    ensures var sys' := Next(Next(sys, Connect(s)), Login(s, act, pin));
      && Inv(sys') && sys'.names == sys.names && sys'.files == sys.files && sys'.locks == sys.locks + {act}
      && sys'.lockout == Lockout.Login(sys.lockout, act).0
      && (forall h | h in sys.sessions :: h in sys'.sessions && sys'.sessions[h] == sys.sessions[h])
      && (forall h | h in sys'.sessions :: h == s || h in sys.sessions)
      && In(sys', s, true) && sys'.sessions[s].act == act
      && act in sys'.sessions[s].caches && sys'.sessions[s].caches[act] == Cache(pin, sys.files[act].balance)
  {
    var sys1 := Next(sys, Connect(s));
    StepKeepsInv(sys, Connect(s));
    StepIsEffect(sys1, Login(s, act, pin));
    StepKeepsInv(sys1, Login(s, act, pin));
  }

  /** Both accounts locked, the owner of the first logged in, and nothing else changed. */
  predicate BothThere(sys: System) {
    && sys.names == {"a", "b"} && sys.files == TwoAccounts().files && sys.locks == {"a", "b"}
    && In(sys, 0, true) && sys.sessions[0].act == "a"
    && "a" in sys.sessions[0].caches && sys.sessions[0].caches["a"] == Cache(1, 10)
  }

  lemma BothArrive()
    ensures var sys := CallRun(TwoAccounts(), Arrivals()); Inv(sys) && BothThere(sys)
  {
    var start := TwoAccounts();
    assert "a"[0] != "b"[0];
    InitEstablishesInv(start);
    Enters(start, 0, "a", 1);
    var half := Next(Next(start, Connect(0)), Login(0, "a", 1));
    assert half.lockout == [Lockout.Entry("a", 1)];
    Enters(half, 1, "b", 2);
    ArrivalsRun(start);
  }

  /** A transfer to an account that somebody else holds: refused, and the money is taken. */
  lemma DroppedTransfer(sys: System, s: nat, t: string, amount: nat)
    requires Inv(sys) && In(sys, s, true) && Affordable(sys, s, amount, Some(t)) && t in sys.locks
    ensures var act := sys.sessions[s].act; var (sys', r) := CallStep(sys, Transfer(s, t, amount));
      && r == Refused && act in sys.files
      && sys'.files == sys.files[act := File(sys.files[act].pin, sys.files[act].balance - amount)]
  {
    TransferIsEffect(sys, s, t, amount);
  }

  lemma LossFrom(sys: System)
    requires Inv(sys) && BothThere(sys)
    ensures CallStep(sys, Transfer(0, "b", 5)).1 == Refused
    ensures CallStep(sys, Transfer(0, "b", 5)).0.files == map["a" := File(1, 5), "b" := File(2, 0)]
  {
    assert "a"[0] != "b"[0];
    DroppedTransfer(sys, 0, "b", 5);
    assert sys.files["a" := File(1, 5)] == map["a" := File(1, 5), "b" := File(2, 0)];
  }

  /**
   A failed transfer can lose money in a run from the start: both owners log in, the one sends the other 5 of
   10 and is told that the transfer failed; the 5 are gone, and in no other account.
   */
  lemma LossHappens(sys: System)
    requires sys == CallRun(TwoAccounts(), Arrivals())
    ensures Init(TwoAccounts()) && TwoAccounts().files == map["a" := File(1, 10), "b" := File(2, 0)]
    ensures CallStep(sys, Transfer(0, "b", 5)).1 == Refused
    ensures CallStep(sys, Transfer(0, "b", 5)).0.files == map["a" := File(1, 5), "b" := File(2, 0)]
  {
    BothArrive();
    LossFrom(sys);
  }

  lemma ArrivalsRun(sys: System)
    ensures CallRun(sys, Arrivals())
            == Next(Next(Next(Next(sys, Connect(0)), Login(0, "a", 1)), Connect(1)), Login(1, "b", 2))
  {
    var cs := Arrivals();
    assert cs[1..] == [cs[1], cs[2], cs[3]] && cs[1..][1..] == [cs[2], cs[3]];
    assert [cs[2], cs[3]][1..] == [cs[3]] && [cs[3]][1..] == [];
    assert CallRun(sys, cs) == CallRun(Next(sys, Connect(0)), cs[1..]);
    var sys2 := Next(Next(sys, Connect(0)), Login(0, "a", 1));
    assert CallRun(sys, cs) == CallRun(sys2, [cs[2], cs[3]]);
    assert CallRun(sys2, [cs[2], cs[3]]) == CallRun(Next(sys2, Connect(1)), [cs[3]]);
  }
}
