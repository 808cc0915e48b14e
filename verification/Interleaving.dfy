/**
 A connection whose requests are carried out in the steps of the system: the operator and other sessions may come
 in between the test, the debit, the credit and the inquiry of one and the same request.
 */
module Interleaving {
  import opened Wrappers
  import opened Commands
  import opened System
  import opened SystemInvariant
  import opened Ownership
  import L = Ledger
  import S = Server
  import K = Calls
  import P = Process
  import SystemLaws

  /** A request under way, and what its steps have answered. */
  datatype Work = Work(request: Command, answers: seq<Reply>)

  /** The request with one more answer. */
  function More(w: Work, r: Reply): Work {
    w.(answers := w.answers + [r])
  }

  /** What follows an answer. */
  function Follows(s: nat, c: Command, r: Reply): Option<Event> {
    match r
    case Accepted => Some(if c.Deposit? then Inquire(s) else Debit(s))
    case Paid(_) => Some(Inquire(s))
    case Sent(_) => Some(Credit(s))
    case Settled(end, _) => if end.Credited? then Some(Inquire(s)) else None
    case _ => None
  }

  /** The step that comes next for a request, by the answers so far; none when it is done. */
  function Plan(s: nat, w: Work): Option<Event> {
    if w.request.Exit? then None
    else if w.answers != [] then Follows(s, w.request, w.answers[|w.answers| - 1])
    else
      match w.request
      case Balance => Some(Inquire(s))
      case Deposit(amount) => Some(Event.Deposit(s, P.Number(amount)))
      case Withdraw(amount) => Some(Check(s, P.Number(amount), None))
      case Transfer(amount, recipient) => Some(Check(s, P.Number(amount), Some(recipient)))
  }

  /** The phase a session is in when `w` is what it has done of a request. */
  predicate Matches(s: nat, w: Work, phase: Phase) {
    match Plan(s, w)
    case Some(Debit(_)) =>
      (match w.request
       case Withdraw(amount) => phase == Checked(P.Number(amount), None)
       case Transfer(amount, recipient) => phase == Checked(P.Number(amount), Some(recipient))
       case _ => false)
    case Some(Credit(_)) => phase.Owing?
    case _ => phase.Active?
  }

  /** What a request is answered with when it is done: the balance of its inquiry, or a failure. */
  function AnswerOf(w: Work): S.Answer {
    var n := |w.answers|;
    if n > 0 && w.answers[n - 1].Balance? && (w.request.Balance? ==> w.answers[n - 1].balance != -1)
    then S.Answer(true, w.answers[n - 1].balance) else S.NO
  }

  /** A connection in the system, and the request it is at work on, if any. */
  datatype Live = Live(sys: System, k: S.Conn, work: Option<Work>)

  /** The connection receives something, makes the next step of its request, or somebody else makes a step. */
  datatype Turn = Own(input: S.Input) | Proceed | Other(e: Event)

  predicate IsRequest(k: S.Conn, input: S.Input) {
    k.stage.Serving? && input.Msg? && Decode(input.text).Some? && !Decode(input.text).value.Exit?
  }

  predicate Possible(s: nat, l: Live, t: Turn) {
    match t
    case Own(_) => l.work.None?
    case Proceed => l.work.Some? && Plan(s, l.work.value).Some?
    case Other(e) => ByOther(e, s)
  }

  /** The connection sees the bank as it now is. */
  function Seen(sys: System, s: nat, k: S.Conn): S.Conn
    requires s in sys.sessions
  {
    k.(world := WorldOf(sys, s), lockout := sys.lockout)
  }

  /** The connection after one more step of its request: at work still, or done and answered. */
  function Stepped(sys: System, s: nat, k: S.Conn, w: Work): Live
    requires s in sys.sessions
  {
    var seen := Seen(sys, s, k);
    if Plan(s, w).Some? then Live(sys, seen, Some(w))
    else Live(sys, seen.(log := seen.log + [S.Called(w.request, AnswerOf(w))]), None)
  }

  /** The steps of the system in one turn. */
  function Does(cfg: S.Setup, s: nat, l: Live, t: Turn): seq<Event>
    requires Possible(s, l, t)
  {
    match t
    case Own(input) => if IsRequest(l.k, input) then [] else K.Scripts(P.CallsFor(cfg, l.sys, s, l.k, input))
    case Proceed => [Plan(s, l.work.value).value]
    case Other(e) => [e]
  }

  function Do(cfg: S.Setup, s: nat, l: Live, t: Turn): Live
    requires Possible(s, l, t)
  {
    var sys' := Run(l.sys, Does(cfg, s, l, t));
    match t
    case Own(input) =>
      if IsRequest(l.k, input) then l.(work := Some(Work(Decode(input.text).value, [])))
      else Live(sys', S.Receive(cfg, l.k, input).0, None)
    case Proceed =>
      var w := l.work.value;
      var r := ReplyTo(l.sys, Plan(s, w).value);
      if s in sys'.sessions then Stepped(sys', s, l.k, More(w, r)) else l
    case Other(e) => if s in sys'.sessions then Live(sys', Seen(sys', s, l.k), l.work) else l
  }

  /** The connection is session `s`, in the phase that goes with its work. */
  predicate Sound(s: nat, l: Live) {
    match l.work
    case None => P.Is(l.sys, s, l.k)
    case Some(w) =>
      && s in l.sys.sessions && l.k == Seen(l.sys, s, l.k) && l.k.stage.Serving?
      && l.k.act == l.sys.sessions[s].act && l.k.pin == l.sys.sessions[s].pin
      && Wellformed(w.request) && (w.request.Balance? ==> w.answers == [])
      && Plan(s, w).Some? && Matches(s, w, l.sys.sessions[s].phase)
  }

  // ---------- Every turn is a run of the system ----------

  lemma RunSingle(sys: System, e: Event)
    ensures Run(sys, [e]) == Next(sys, e)
  {
    assert [e][1..] == [];
    assert Run(Next(sys, e), []) == Next(sys, e);
  }

  lemma OwnIsSound(cfg: S.Setup, s: nat, l: Live, input: S.Input)
    requires Inv(l.sys) && Sound(s, l) && l.work.None?
    ensures Sound(s, Do(cfg, s, l, Own(input)))
  {
    if IsRequest(l.k, input) {
      MessageGrammar(input.text, Decode(input.text).value);
    } else {
      P.InputIsCalls(cfg, l.sys, s, l.k, input);
      P.InputCallsAreOwn(cfg, l.sys, s, l.k, input);
      P.OwnCallsAreSteps(l.sys, s, P.CallsFor(cfg, l.sys, s, l.k, input));
    }
  }

  lemma PlanFollows(s: nat, w: Work, r: Reply)
    requires !w.request.Exit?
    ensures Plan(s, More(w, r)) == Follows(s, w.request, r)
  {
    assert (w.answers + [r])[|w.answers|] == r;
  }

  /** The phase that goes with an answer. */
  predicate Fits(c: Command, r: Reply, phase: Phase) {
    match r
    case Accepted =>
      (match c
       case Deposit(_) => phase.Active?
       case Withdraw(amount) => phase == Checked(P.Number(amount), None)
       case Transfer(amount, recipient) => phase == Checked(P.Number(amount), Some(recipient))
       case _ => false)
    case Sent(_) => phase.Owing?
    case _ => phase.Active?
  }

  /** The session after a step of its own request, and what the step answers. */
  lemma EffectFits(sys: System, s: nat, w: Work)
    requires Grounded(sys) && s in sys.sessions && Plan(s, w).Some? && Matches(s, w, sys.sessions[s].phase)
    ensures var (sys', r) := Effect(sys, Plan(s, w).value);
      && s in sys'.sessions && sys'.lockout == sys.lockout
      && sys'.sessions[s].act == sys.sessions[s].act && sys'.sessions[s].pin == sys.sessions[s].pin
      && Fits(w.request, r, sys'.sessions[s].phase)
  {
  }

  lemma StepMatches(sys: System, s: nat, w: Work)
    requires Inv(sys) && s in sys.sessions && Plan(s, w).Some? && Matches(s, w, sys.sessions[s].phase)
    ensures var (sys', r) := Step(sys, Plan(s, w).value);
      && s in sys'.sessions && sys'.lockout == sys.lockout
      && sys'.sessions[s].act == sys.sessions[s].act && sys'.sessions[s].pin == sys.sessions[s].pin
      && Matches(s, More(w, r), sys'.sessions[s].phase)
  {
    StepIsEffect(sys, Plan(s, w).value);
    EffectFits(sys, s, w);
    PlanFollows(s, w, ReplyTo(sys, Plan(s, w).value));
  }

  lemma ProceedIsStep(cfg: S.Setup, s: nat, l: Live)
    requires Inv(l.sys) && Sound(s, l) && Possible(s, l, Proceed)
    ensures var w := l.work.value; var (sys', r) := Step(l.sys, Plan(s, w).value);
      s in sys'.sessions && Do(cfg, s, l, Proceed) == Stepped(sys', s, l.k, More(w, r))
  {
    var w := l.work.value;
    RunSingle(l.sys, Plan(s, w).value);
    StepMatches(l.sys, s, w);
  }

  lemma BalanceIsOneStep(s: nat, w: Work, r: Reply)
    requires w.request.Balance? && Plan(s, w) == Some(Inquire(s)) && r.Balance?
    ensures Plan(s, More(w, r)).None?
  {
    PlanFollows(s, w, r);
  }

  lemma StepIsSound(cfg: S.Setup, s: nat, l: Live)
    requires Inv(l.sys) && Sound(s, l) && Possible(s, l, Proceed)
    ensures Sound(s, Do(cfg, s, l, Proceed))
  {
    var w := l.work.value;
    ProceedIsStep(cfg, s, l);
    StepMatches(l.sys, s, w);
    if w.request.Balance? {
      StepIsEffect(l.sys, Inquire(s));
      BalanceIsOneStep(s, w, ReplyTo(l.sys, Inquire(s)));
    }
  }

  lemma OtherIsSound(cfg: S.Setup, s: nat, l: Live, e: Event)
    requires Inv(l.sys) && Sound(s, l) && ByOther(e, s)
    ensures Sound(s, Do(cfg, s, l, Other(e)))
  {
    RunSingle(l.sys, e);
    P.ForeignStepLeaves(l.sys, s, e);
  }

  lemma TurnIsSound(cfg: S.Setup, s: nat, l: Live, t: Turn)
    requires Inv(l.sys) && Sound(s, l) && Possible(s, l, t)
    ensures var l' := Do(cfg, s, l, t);
      Inv(l'.sys) && Sound(s, l') && l'.sys == Run(l.sys, Does(cfg, s, l, t))
  {
    RunKeepsInv(l.sys, Does(cfg, s, l, t));
    match t {
      case Own(input) => OwnIsSound(cfg, s, l, input);
      case Proceed =>
        StepIsSound(cfg, s, l);
        RunSingle(l.sys, Plan(s, l.work.value).value);
        StepMatches(l.sys, s, l.work.value);
      case Other(e) =>
        OtherIsSound(cfg, s, l, e);
        RunSingle(l.sys, e);
        P.ForeignStepLeaves(l.sys, s, e);
    }
  }

  predicate AllPossible(cfg: S.Setup, s: nat, l: Live, ts: seq<Turn>)
    decreases |ts|
  {
    ts == [] || (Possible(s, l, ts[0]) && AllPossible(cfg, s, Do(cfg, s, l, ts[0]), ts[1..]))
  }

  function DoAll(cfg: S.Setup, s: nat, l: Live, ts: seq<Turn>): Live
    requires AllPossible(cfg, s, l, ts)
    decreases |ts|
  {
    if ts == [] then l else DoAll(cfg, s, Do(cfg, s, l, ts[0]), ts[1..])
  }

  function DoesAll(cfg: S.Setup, s: nat, l: Live, ts: seq<Turn>): seq<Event>
    requires AllPossible(cfg, s, l, ts)
    decreases |ts|
  {
    if ts == [] then [] else Does(cfg, s, l, ts[0]) + DoesAll(cfg, s, Do(cfg, s, l, ts[0]), ts[1..])
  }

  /** A connection, its requests interrupted wherever others please, is a run of the system. */
  lemma {:induction false} TurnsAreRun(cfg: S.Setup, s: nat, l: Live, ts: seq<Turn>)
    requires Inv(l.sys) && Sound(s, l) && AllPossible(cfg, s, l, ts)
    ensures var l' := DoAll(cfg, s, l, ts);
      Inv(l'.sys) && Sound(s, l') && l'.sys == Run(l.sys, DoesAll(cfg, s, l, ts))
    decreases |ts|
  {
    if ts != [] {
      var l1 := Do(cfg, s, l, ts[0]);
      TurnIsSound(cfg, s, l, ts[0]);
      TurnsAreRun(cfg, s, l1, ts[1..]);
      K.RunConcat(l.sys, Does(cfg, s, l, ts[0]), DoesAll(cfg, s, l1, ts[1..]));
    }
  }

  /**
   Money is conserved and no balance is negative over every interleaving of a connection's own tests, debits,
   credits and inquiries with the operator's deposits and the steps of other sessions.
   */
  lemma InterruptedConserves(cfg: S.Setup, s: nat, l: Live, ts: seq<Turn>)
    requires Inv(l.sys) && Sound(s, l) && AllPossible(cfg, s, l, ts)
    ensures var sys' := DoAll(cfg, s, l, ts).sys;
      && SystemLaws.Balanced(SystemLaws.Worth(l.sys), SystemLaws.Worth(sys'),
                             SystemLaws.Total(l.sys, DoesAll(cfg, s, l, ts)))
      && Solvent(sys'.files)
  {
    TurnsAreRun(cfg, s, l, ts);
    SystemLaws.Conservation(l.sys, DoesAll(cfg, s, l, ts));
  }

  // ---------- Every request is answered, and truly ----------

  /** How many steps of its own a request can still take. */
  function Left(s: nat, w: Work): nat {
    match Plan(s, w)
    case None => 0
    case Some(Inquire(_)) => 1
    case Some(Credit(_)) => 2
    case Some(Debit(_)) => 3
    case _ => 4
  }

  /** The last answer says that the money has moved. */
  predicate MoneyMoved(w: Work) {
    w.answers != [] &&
    var r := w.answers[|w.answers| - 1];
    r.Paid? || (r.Settled? && r.end.Credited?) || (w.request.Deposit? && r.Accepted?)
  }

  lemma EffectAnswers(sys: System, s: nat, w: Work)
    requires Grounded(sys) && s in sys.sessions && Plan(s, w).Some? && Matches(s, w, sys.sessions[s].phase)
    ensures var (sys', r) := Effect(sys, Plan(s, w).value); var act := sys.sessions[s].act;
      if Plan(s, w) == Some(Inquire(s)) then act in sys'.files && r == Reply.Balance(sys'.files[act].balance)
      else !r.Balance?
  {
  }

  lemma EffectDescends(sys: System, s: nat, w: Work)
    requires Grounded(sys) && s in sys.sessions && Plan(s, w).Some? && Matches(s, w, sys.sessions[s].phase)
    ensures Left(s, More(w, Effect(sys, Plan(s, w).value).1)) < Left(s, w)
  {
    PlanFollows(s, w, Effect(sys, Plan(s, w).value).1);
  }

  /** The answer of a request that is done says done exactly if the last step was its inquiry. */
  lemma LastAnswer(w: Work, r: Reply, inquired: bool, balance: int)
    requires if inquired then r == Reply.Balance(balance) && balance >= 0 else !r.Balance?
    ensures AnswerOf(More(w, r)).done <==> inquired
    ensures inquired ==> AnswerOf(More(w, r)).balance == balance
  {
    assert More(w, r).answers[|w.answers|] == r;
  }

  lemma StepAnswers(sys: System, s: nat, w: Work)
    requires Inv(sys) && s in sys.sessions && Plan(s, w).Some? && Matches(s, w, sys.sessions[s].phase)
    ensures var (sys', r) := Step(sys, Plan(s, w).value); var act := sys.sessions[s].act;
      && Left(s, More(w, r)) < Left(s, w)
      && (AnswerOf(More(w, r)).done <==> Plan(s, w) == Some(Inquire(s)))
      && (AnswerOf(More(w, r)).done ==>
            act in sys'.files && AnswerOf(More(w, r)).balance == sys'.files[act].balance >= 0)
  {
    var e := Plan(s, w).value;
    StepIsEffect(sys, e);
    EffectAnswers(sys, s, w);
    EffectDescends(sys, s, w);
    StepKeepsInv(sys, e);
    var (sys', r) := Effect(sys, e);
    LastAnswer(w, r, e == Inquire(s), if r.Balance? then r.balance else 0);
  }

  /**
   Whatever others do in between, a request goes on, ends after at most four steps of its own, and the answer
   says done exactly if the money has moved (or only the balance was asked for); then the balance it reports
   is the one in the account's file at that moment, and not negative.
   */
  lemma AnswersAreTrue(cfg: S.Setup, s: nat, l: Live)
    requires Inv(l.sys) && Sound(s, l) && l.work.Some?
    ensures Possible(s, l, Proceed) && 0 < Left(s, l.work.value) <= 4
    ensures var l', w := Do(cfg, s, l, Proceed), l.work.value;
      var answer := AnswerOf(More(w, ReplyTo(l.sys, Plan(s, w).value)));
      && l'.k.stage.Serving?
      && (l'.work.Some? ==> l'.work.value.request == w.request && Left(s, l'.work.value) < Left(s, w))
      && (l'.work.None? ==>
            && l'.k.log == l.k.log + [S.Called(w.request, answer)]
            && (answer.done <==> w.request.Balance? || MoneyMoved(w))
            && (answer.done ==> l.k.act in l'.sys.files && answer.balance == l'.sys.files[l.k.act].balance >= 0))
  {
    var w := l.work.value;
    ProceedIsStep(cfg, s, l);
    StepAnswers(l.sys, s, w);
    InquiriesFollow(s, w);
  }

  /** The inquiry comes when nothing else was asked for, and when the money has moved. */
  lemma InquiriesFollow(s: nat, w: Work)
    requires Plan(s, w).Some? && (w.request.Balance? ==> w.answers == [])
    ensures Plan(s, w) == Some(Inquire(s)) <==> w.request.Balance? || MoneyMoved(w)
  {
  }

  // ---------- With nothing in between it is the server's request ----------

  /** The rest of a request with nothing in between. */
  function Alone(s: nat, sys: System, w: Work, n: nat): (System, Work)
    decreases n
  {
    if n == 0 || Plan(s, w).None? then (sys, w)
    else
      var (sys1, r) := Step(sys, Plan(s, w).value);
      Alone(s, sys1, More(w, r), n - 1)
  }

  lemma AloneSteps(s: nat, sys: System, w: Work, n: nat, e: Event, sys1: System, r: Reply)
    requires n > 0 && Plan(s, w) == Some(e) && Step(sys, e) == (sys1, r)
    ensures Alone(s, sys, w, n) == Alone(s, sys1, More(w, r), n - 1)
  {
  }

  /** A request that is at its inquiry. */
  lemma AloneInquires(s: nat, sys: System, w: Work, n: nat)
    requires Inv(sys) && In(sys, s, true) && n > 0 && Plan(s, w) == Some(Inquire(s))
    ensures var (sys', w') := Alone(s, sys, w, n); var act := sys.sessions[s].act;
      && sys' == Next(sys, Inquire(s)) && act in sys'.files && sys'.files[act].balance >= 0
      && w'.request == w.request && AnswerOf(w') == S.Answer(true, sys'.files[act].balance)
  {
    StepIsEffect(sys, Inquire(s));
    var (sys', r) := Step(sys, Inquire(s));
    PlanFollows(s, w, r);
    LastAnswer(w, r, true, sys.files[sys.sessions[s].act].balance);
  }

  /** A request that has been refused. */
  lemma AloneEnds(s: nat, sys: System, w: Work, r: Reply, n: nat)
    requires r.Refused? || (r.Settled? && !r.end.Credited?)
    ensures Alone(s, sys, More(w, r), n) == (sys, More(w, r)) && AnswerOf(More(w, r)) == S.NO
  {
    assert More(w, r).answers[|w.answers|] == r;
  }

  /** Done alone, a request leaves the system as the calls of the server do, and answers as they do. */
  predicate Served(sys: System, s: nat, c: Command, end: (System, Work)) {
    && end.0 == K.CallRun(sys, P.RequestCalls(sys, s, c)) && end.1.request == c
    && s in sys.sessions && sys.sessions[s].act in end.0.files
    && AnswerOf(end.1) ==
       if c.Balance? || P.WentThrough(K.CallStep(sys, P.CallOf(s, c)).1)
       then S.Answer(true, end.0.files[sys.sessions[s].act].balance) else S.NO
  }

  /** The request has ended in `end`, its inquiry made from `before`. */
  predicate Inquired(before: System, s: nat, c: Command, end: (System, Work)) {
    && s in before.sessions && before.sessions[s].act in end.0.files
    && end.0 == Next(before, Inquire(s)) && end.1.request == c
    && AnswerOf(end.1) == S.Answer(true, end.0.files[before.sessions[s].act].balance)
  }

  /** A call that went through, and the inquiry after it; or a call that did not. */
  lemma CallThenInquiry(sys: System, s: nat, c: Command, next: System, r: Reply, end: (System, Work))
    requires (c.Withdraw? || c.Deposit? || c.Transfer?) && K.CallStep(sys, P.CallOf(s, c)) == (next, r)
    requires s in sys.sessions && s in next.sessions && next.sessions[s].act == sys.sessions[s].act
    requires if P.WentThrough(r) then Inquired(next, s, c, end)
             else end.0 == next && end.1.request == c && sys.sessions[s].act in next.files && AnswerOf(end.1) == S.NO
    ensures Served(sys, s, c, end)
  {
    P.RunOne(sys, P.CallOf(s, c));
    P.RunTwo(sys, P.CallOf(s, c), K.Single(Inquire(s)));
  }

  lemma TwoSteps(s: nat, sys: System, w: Work, n: nat, e: Event, sys1: System, r: Reply,
                 e': Event, sys2: System, r': Reply)
    requires n > 1 && !w.request.Exit? && Plan(s, w) == Some(e) && Step(sys, e) == (sys1, r)
    requires Follows(s, w.request, r) == Some(e') && Step(sys1, e') == (sys2, r')
    ensures Alone(s, sys, w, n) == Alone(s, sys2, More(More(w, r), r'), n - 2)
    ensures Plan(s, More(More(w, r), r')) == Follows(s, w.request, r')
  {
    AloneSteps(s, sys, w, n, e, sys1, r);
    PlanFollows(s, w, r);
    AloneSteps(s, sys1, More(w, r), n - 1, e', sys2, r');
    PlanFollows(s, More(w, r), r');
  }

  lemma DebitedIsSound(sys: System, s: nat, amount: nat, dest: Option<string>)
    requires Inv(sys) && K.Passes(sys, s, amount, dest)
    ensures sys.sessions[s].act in sys.files
    ensures Inv(Moved(sys, s, 0 - amount, AfterDebit(Checked(amount, dest))))
  {
    InvIsGrounded(sys);
    K.CheckThenDebit(sys, s, amount, dest);
    StepKeepsInv(sys, Check(s, amount, dest));
    StepKeepsInv(Next(sys, Check(s, amount, dest)), Debit(s));
  }

  /** The test and the debit of a request that passes. */
  lemma AloneDebits(sys: System, s: nat, w: Work, amount: nat, dest: Option<string>)
    requires Inv(sys) && K.Passes(sys, s, amount, dest) && (w.request.Withdraw? || w.request.Transfer?)
    requires Plan(s, w) == Some(Check(s, amount, dest))
    ensures sys.sessions[s].act in sys.files
    ensures var w' := More(More(w, Accepted), DebitReply(Checked(amount, dest)));
      && Alone(s, sys, w, 4) == Alone(s, Moved(sys, s, 0 - amount, AfterDebit(Checked(amount, dest))), w', 2)
      && Plan(s, w') == Follows(s, w.request, DebitReply(Checked(amount, dest)))
  {
    InvIsGrounded(sys);
    K.CheckThenDebit(sys, s, amount, dest);
    TwoSteps(s, sys, w, 4, Check(s, amount, dest), Next(sys, Check(s, amount, dest)), Accepted, Debit(s),
             Moved(sys, s, 0 - amount, AfterDebit(Checked(amount, dest))), DebitReply(Checked(amount, dest)));
  }

  lemma WithdrawPasses(sys: System, s: nat, w: Work, amount: nat)
    requires Inv(sys) && K.Passes(sys, s, amount, None) && w.request.Withdraw?
    requires Plan(s, w) == Some(Check(s, amount, None))
    ensures sys.sessions[s].act in sys.files
    ensures Inquired(Moved(sys, s, 0 - amount, Active), s, w.request, Alone(s, sys, w, 4))
  {
    AloneDebits(sys, s, w, amount, None);
    DebitedIsSound(sys, s, amount, None);
    AloneInquires(s, Moved(sys, s, 0 - amount, Active), More(More(w, Accepted), Paid(amount)), 2);
  }

  lemma CheckFails(sys: System, s: nat, w: Work, amount: nat, dest: Option<string>)
    requires Inv(sys) && In(sys, s, true) && !K.Passes(sys, s, amount, dest)
    requires Plan(s, w) == Some(Check(s, amount, dest))
    ensures Alone(s, sys, w, 4) == (sys, More(w, Refused)) && AnswerOf(More(w, Refused)) == S.NO
  {
    K.FailedCheck(sys, s, amount, dest);
    AloneSteps(s, sys, w, 4, Check(s, amount, dest), sys, Refused);
    AloneEnds(s, sys, w, Refused, 3);
  }

  lemma WithdrawAlone(sys: System, s: nat, c: Command)
    requires Inv(sys) && In(sys, s, true) && c.Withdraw?
    ensures Served(sys, s, c, Alone(s, sys, Work(c, []), 4))
  {
    var amount, end := P.Number(c.amount), Alone(s, sys, Work(c, []), 4);
    InvIsGrounded(sys);
    K.WithdrawIsEffect(sys, s, amount);
    if K.Passes(sys, s, amount, None) {
      WithdrawPasses(sys, s, Work(c, []), amount);
      CallThenInquiry(sys, s, c, Moved(sys, s, 0 - (amount as int), Active), Paid(amount), end);
    } else {
      CheckFails(sys, s, Work(c, []), amount, None);
      CallThenInquiry(sys, s, c, sys, Refused, end);
    }
  }

  lemma DepositAlone(sys: System, s: nat, c: Command)
    requires Inv(sys) && In(sys, s, true) && c.Deposit?
    ensures Served(sys, s, c, Alone(s, sys, Work(c, []), 4))
  {
    var w, e := Work(c, []), Event.Deposit(s, P.Number(c.amount));
    StepIsEffect(sys, e);
    StepKeepsInv(sys, e);
    AloneSteps(s, sys, w, 4, e, Next(sys, e), Accepted);
    PlanFollows(s, w, Accepted);
    AloneInquires(s, Next(sys, e), More(w, Accepted), 3);
    CallThenInquiry(sys, s, c, Next(sys, e), Accepted, Alone(s, sys, w, 4));
  }

  lemma BalanceAlone(sys: System, s: nat, c: Command)
    requires Inv(sys) && In(sys, s, true) && c.Balance?
    ensures Served(sys, s, c, Alone(s, sys, Work(c, []), 4))
  {
    P.RunOne(sys, P.CallOf(s, c));
    AloneInquires(s, sys, Work(c, []), 4);
  }

  /** The credit of a transfer, and what comes after it. */
  lemma CreditAlone(sys: System, s: nat, w: Work, t: string, amount: nat, owing: System)
    requires Inv(owing) && s in sys.sessions && sys.sessions[s].act in sys.files && t != sys.sessions[s].act
    requires owing == Moved(sys, s, 0 - amount, Owing(t, amount))
    requires w.request.Transfer? && Plan(s, w) == Some(Credit(s))
    ensures var end, next := Alone(s, owing, w, 2), K.Transferred(sys, s, t, amount);
      if t !in sys.locks && t in sys.files then Inquired(next, s, w.request, end)
      else end.0 == next && end.1.request == w.request && AnswerOf(end.1) == S.NO
  {
    K.CreditMoves(owing, s);
    K.CreditAfterDebit(sys, s, t, amount);
    StepKeepsInv(owing, Credit(s));
    var (sys3, r) := Step(owing, Credit(s));
    AloneSteps(s, owing, w, 2, Credit(s), sys3, r);
    PlanFollows(s, w, r);
    if t !in sys.locks && t in sys.files {
      AloneInquires(s, sys3, More(w, r), 1);
    } else {
      AloneEnds(s, sys3, w, r, 1);
    }
  }

  lemma TransferPasses(sys: System, s: nat, w: Work, t: string, amount: nat)
    requires Inv(sys) && K.Passes(sys, s, amount, Some(t)) && w.request.Transfer?
    requires Plan(s, w) == Some(Check(s, amount, Some(t)))
    ensures sys.sessions[s].act in sys.files
    ensures var end, next := Alone(s, sys, w, 4), K.Transferred(sys, s, t, amount);
      if t !in sys.locks && t in sys.files then Inquired(next, s, w.request, end)
      else end.0 == next && end.1.request == w.request && AnswerOf(end.1) == S.NO
  {
    AloneDebits(sys, s, w, amount, Some(t));
    DebitedIsSound(sys, s, amount, Some(t));
    CreditAlone(sys, s, More(More(w, Accepted), Sent(amount)), t, amount, Moved(sys, s, 0 - amount, Owing(t, amount)));
  }

  lemma TransferAlone(sys: System, s: nat, c: Command)
    requires Inv(sys) && In(sys, s, true) && c.Transfer?
    ensures Served(sys, s, c, Alone(s, sys, Work(c, []), 4))
  {
    InvIsGrounded(sys);
    K.TransferIsEffect(sys, s, c.recipient, P.Number(c.amount));
    if K.Passes(sys, s, P.Number(c.amount), Some(c.recipient)) {
      TransferPasses(sys, s, Work(c, []), c.recipient, P.Number(c.amount));
    } else {
      CheckFails(sys, s, Work(c, []), P.Number(c.amount), Some(c.recipient));
    }
    var (next, r) := K.CallStep(sys, P.CallOf(s, c));
    CallThenInquiry(sys, s, c, next, r, Alone(s, sys, Work(c, []), 4));
  }

  lemma RequestAlone(sys: System, s: nat, c: Command)
    requires Inv(sys) && In(sys, s, true) && !c.Exit?
    ensures Served(sys, s, c, Alone(s, sys, Work(c, []), 4))
  {
    match c {
      case Withdraw(_) => WithdrawAlone(sys, s, c);
      case Deposit(_) => DepositAlone(sys, s, c);
      case Transfer(_, _) => TransferAlone(sys, s, c);
      case Balance => BalanceAlone(sys, s, c);
    }
  }

  lemma CallReplies(sys: System, s: nat, c: Command)
    requires In(sys, s, true) && Wellformed(c) && (c.Withdraw? || c.Deposit? || c.Transfer?)
    ensures var ses := sys.sessions[s];
      S.CallReturned(WorldOf(sys, s), ses.act, ses.pin, c) == Returned(true)
      <==> P.WentThrough(K.CallStep(sys, P.CallOf(s, c)).1)
  {
    P.NumberOfDigits(c.amount);
  }

  /** A request that was not carried out is answered in one way only. */
  lemma NotDone(w: L.World, act: string, pin: int, c: Command)
    ensures var r := S.Serve(w, act, pin, c).1;
      r.Returned? && !r.value.done ==> r.value == S.NO
  {
  }

  lemma AloneIsAnswered(sys: System, s: nat, c: Command)
    requires Inv(sys) && In(sys, s, true) && Wellformed(c) && !c.Exit?
    ensures var (sys', w') := Alone(s, sys, Work(c, []), 4); var ses := sys.sessions[s];
      var (w, r) := S.Serve(WorldOf(sys, s), ses.act, ses.pin, c);
      sys' == After(sys, s, w, Active) && w'.request == c && r == Returned(AnswerOf(w'))
  {
    var ses := sys.sessions[s];
    RequestAlone(sys, s, c);
    P.ServeIsCalls(sys, s, c);
    P.ServeStays(sys, s, c);
    S.AnswerIsTrue(WorldOf(sys, s), ses.act, ses.pin, c);
    NotDone(WorldOf(sys, s), ses.act, ses.pin, c);
    if c.Balance? {
      P.BalanceIsAnswered(sys, s);
    } else {
      CallReplies(sys, s, c);
    }
  }

  /** As many steps of the request at hand as are left, up to `n`, with nothing in between. */
  function Straight(cfg: S.Setup, s: nat, l: Live, n: nat): Live
    decreases n
  {
    if n == 0 || !Possible(s, l, Proceed) then l else Straight(cfg, s, Do(cfg, s, l, Proceed), n - 1)
  }

  lemma {:induction false} StraightIsAlone(cfg: S.Setup, s: nat, l: Live, n: nat)
    requires Inv(l.sys) && Sound(s, l) && l.work.Some? && n > 0
    ensures var (sys', w') := Alone(s, l.sys, l.work.value, n);
      s in sys'.sessions && Straight(cfg, s, l, n) == Stepped(sys', s, l.k, w')
    decreases n
  {
    var w, l' := l.work.value, Do(cfg, s, l, Proceed);
    var (sys1, r) := Step(l.sys, Plan(s, w).value);
    TurnIsSound(cfg, s, l, Proceed);
    ProceedIsStep(cfg, s, l);
    AloneSteps(s, l.sys, w, n, Plan(s, w).value, sys1, r);
    if n > 1 && l'.work.Some? {
      StraightIsAlone(cfg, s, l', n - 1);
    }
  }

  /** The session is where its request has got to. */
  predicate Going(sys: System, s: nat, w: Work) {
    Inv(sys) && s in sys.sessions && Matches(s, w, sys.sessions[s].phase)
  }

  lemma StepGoesOn(sys: System, s: nat, w: Work)
    requires Going(sys, s, w) && Plan(s, w).Some?
    ensures var (sys1, r) := Step(sys, Plan(s, w).value);
      Going(sys1, s, More(w, r)) && Left(s, More(w, r)) < Left(s, w)
  {
    StepMatches(sys, s, w);
    StepAnswers(sys, s, w);
    StepKeepsInv(sys, Plan(s, w).value);
  }

  lemma NothingLeft(s: nat, w: Work)
    ensures Left(s, w) == 0 <==> Plan(s, w).None?
  {
  }

  lemma {:induction false} AloneIsDone(s: nat, sys: System, w: Work, n: nat)
    requires Going(sys, s, w) && n >= Left(s, w)
    ensures Plan(s, Alone(s, sys, w, n).1).None?
    decreases n
  {
    NothingLeft(s, w);
    if n > 0 && Plan(s, w).Some? {
      var e := Plan(s, w).value;
      var (sys1, r) := Step(sys, e);
      StepGoesOn(sys, s, w);
      AloneSteps(s, sys, w, n, e, sys1, r);
      AloneIsDone(s, sys1, More(w, r), n - 1);
    }
  }

  /**
   A request that nobody interrupts is, after its four steps at most, what the server makes of the message:
   the same files, locks and caches, and the same answer.
   */
  lemma UninterruptedIsReceived(cfg: S.Setup, s: nat, l: Live, c: Command)
    requires Inv(l.sys) && Sound(s, l) && l.work.None? && l.k.stage.Serving? && Wellformed(c) && !c.Exit?
    ensures var input := S.Msg(Encode(c)); var l' := Straight(cfg, s, Do(cfg, s, l, Own(input)), 4);
      l'.k == S.Receive(cfg, l.k, input).0 && l'.work.None? && P.Is(l'.sys, s, l'.k)
  {
    var input := S.Msg(Encode(c));
    MessageGrammar(Encode(c), c);
    var start := Do(cfg, s, l, Own(input));
    OwnIsSound(cfg, s, l, input);
    assert start == l.(work := Some(Work(c, [])));
    StraightIsAlone(cfg, s, start, 4);
    AloneIsDone(s, l.sys, Work(c, []), 4);
    AloneIsAnswered(l.sys, s, c);
  }
}
