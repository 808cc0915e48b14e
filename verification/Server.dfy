/**
 The server's side of one connection: handshake, login, transactions, and three ways to end. A message is
 its plain text; encryption to the right key and back is taken to be exact.
 */
module Server {
  import opened Wrappers
  import opened Sequences
  import opened Text
  import opened Commands
  import L = Ledger
  import Lockout
  import Mac
  import LedgerLaws

  /** What recv delivers: a message, the end of the stream, or nothing for too long. */
  datatype Input = Msg(text: string) | Eof | Idle

  datatype Stage = AwaitHello | AwaitKey | AwaitMac | AwaitOk | AwaitLogin | Serving | Gone

  /** Whether the bank carried the request out, and the balance it then reported. */
  datatype Answer = Answer(done: bool, balance: int)

  const NO := Answer(false, -1)

  /** What the server has done so far that matters: whom it trusted, whom it let in, what it called. */
  datatype Note =
    | MacAccepted(mac: string)
    | LetIn(act: string, pin: int)
    | Called(request: Command, answer: Answer)

  /** What the server was started with. */
  datatype Setup = Setup(pubKey: string, mac: string, hmac: Mac.Hmac, trusted: string)

  datatype Conn = Conn(
    stage: Stage,
    act: string,
    pin: int,
    world: L.World,
    lockout: seq<Lockout.Entry>,
    log: seq<Note>)

  // ---------- Transactions ----------

  /** The balance that goes back to the client after a call that returned true. */
  function Report(w: L.World, act: string, pin: int): (L.World, Outcome<Answer>) {
    var (w1, r) := L.BalanceInq(w, act, pin);
    (w1, if r.Exited? then Exited else Returned(Answer(true, r.value)))
  }

  function Finish(w: L.World, r: Outcome<bool>, act: string, pin: int): (L.World, Outcome<Answer>) {
    match r
    case Exited => (w, Exited)
    case Returned(done) => if done then Report(w, act, pin) else (w, Returned(NO))
  }

  /** The bank calls for one request. */
  function Serve(w: L.World, act: string, pin: int, c: Command): (L.World, Outcome<Answer>) {
    match c
    case Withdraw(amount) =>
      var (w1, r) := L.BankWithdraw(w, act, pin, Atoi(amount));
      Finish(w1, r, act, pin)
    case Deposit(amount) =>
      var (w1, r) := L.BankDeposit(w, act, pin, Atoi(amount));
      Finish(w1, r, act, pin)
    case Transfer(amount, recipient) =>
      var (w1, r) := L.Transfer(w, act, pin, recipient, Atoi(amount));
      Finish(w1, r, act, pin)
    case Balance =>
      var (w1, r) := L.BalanceInq(w, act, pin);
      (w1, if r.Exited? then Exited else if r.value != -1 then Returned(Answer(true, r.value)) else Returned(NO))
    case Exit => (w, Returned(NO))
  }

  function ReplyText(a: Answer): string {
    if a.done then ToString(a.balance) else "FAILURE."
  }

  // ---------- One message ----------

  function LoginOf(text: string): (string, int) {
    match DecodeLogin(text)
    case Some((act, pin)) => (act, Atoi(pin))
    case None => ("", 0)
  }

  function ReceiveHello(cfg: Setup, k: Conn, text: string): (Conn, Option<string>) {
    if text == "PUBKEY" then (k.(stage := AwaitKey), Some(cfg.pubKey)) else (k.(stage := Gone), None)
  }

  function ReceiveMac(cfg: Setup, k: Conn, text: string): (Conn, Option<string>) {
    if Mac.Accepts(cfg.hmac, cfg.trusted, text)
    then (k.(stage := AwaitOk, log := k.log + [MacAccepted(text)]), Some(cfg.mac))
    else (k.(stage := Gone), None)
  }

  function ReceiveOk(k: Conn, text: string): (Conn, Option<string>) {
    if text == "OK." then (k.(stage := AwaitLogin), Some("OK.")) else (k.(stage := AwaitHello), None)
  }

  /** The login counter has let the attempt through. */
  function LogIn(k: Conn): (Conn, Option<string>) {
    var (w, ok) := L.LockAct(k.world, k.act, k.pin);
    if ok then (k.(stage := Serving, world := w, log := k.log + [LetIn(k.act, k.pin)]), Some("SUCCESS."))
    else (k.(stage := Gone, world := w), Some("FAILURE."))
  }

  function ReceiveLogin(k: Conn, act: string, pin: int): (Conn, Option<string>) {
    var (lockout, admitted) := Lockout.Login(k.lockout, act);
    var k1 := k.(act := act, pin := pin, lockout := lockout);
    if admitted then LogIn(k1) else (k1.(stage := Gone), None)
  }

  function Leave(k: Conn): Conn {
    k.(stage := Gone, world := L.UnlockAct(k.world, k.act, k.pin).0)
  }

  function Carry(k: Conn, c: Command): (Conn, Option<string>) {
    var (w, r) := Serve(k.world, k.act, k.pin, c);
    if r.Exited? then (k.(stage := Gone, world := w), None)
    else (k.(world := w, log := k.log + [Called(c, r.value)]), Some(ReplyText(r.value)))
  }

  function ReceiveRequest(k: Conn, text: string): (Conn, Option<string>) {
    match Decode(text)
    case Some(Exit) => (Leave(k), None)
    case None => (k, Some("FAILURE."))
    case Some(c) => Carry(k, c)
  }

  function ReceiveText(cfg: Setup, k: Conn, text: string): (Conn, Option<string>) {
    match k.stage
    case AwaitHello => ReceiveHello(cfg, k, text)
    case AwaitKey => (k.(stage := AwaitMac), Some("MAC."))
    case AwaitMac => ReceiveMac(cfg, k, text)
    case AwaitOk => ReceiveOk(k, text)
    case AwaitLogin => ReceiveLogin(k, LoginOf(text).0, LoginOf(text).1)
    case Serving => ReceiveRequest(k, text)
    case Gone => (k, None)
  }

  function Receive(cfg: Setup, k: Conn, input: Input): (Conn, Option<string>) {
    if k.stage.Gone? then (k, None)
    else
      match input
      case Idle => (k.(stage := Gone), None)
      case Eof => (if k.stage.Serving? then Leave(k) else k.(stage := Gone), None)
      case Msg(text) => ReceiveText(cfg, k, text)
  }

  /** A whole connection: the final state, and everything sent. */
  function Converse(cfg: Setup, k: Conn, inputs: seq<Input>): (Conn, seq<string>)
    decreases |inputs|
  {
    if inputs == [] then (k, [])
    else
      var (k1, out) := Receive(cfg, k, inputs[0]);
      var (k2, outs) := Converse(cfg, k1, inputs[1..]);
      (k2, Post(out) + outs)
  }

  // ---------- What the log shows ----------

  predicate TrustedBy(cfg: Setup, n: Note) {
    n.MacAccepted? && Mac.Accepts(cfg.hmac, cfg.trusted, n.mac)
  }

  predicate SeenTrust(cfg: Setup, log: seq<Note>) {
    log != [] && (TrustedBy(cfg, log[|log| - 1]) || SeenTrust(cfg, log[..|log| - 1]))
  }

  predicate SeenLetIn(log: seq<Note>) {
    log != [] && (log[|log| - 1].LetIn? || SeenLetIn(log[..|log| - 1]))
  }

  /** Nobody is let in before a trusted message was seen, and nothing is called before somebody was let in. */
  predicate Ordered(cfg: Setup, log: seq<Note>) {
    log != [] ==>
      var last, before := log[|log| - 1], log[..|log| - 1];
      && Ordered(cfg, before)
      && (last.LetIn? ==> SeenTrust(cfg, before))
      && (last.Called? ==> SeenLetIn(before))
  }

  predicate Earned(cfg: Setup, k: Conn) {
    && Ordered(cfg, k.log)
    && (k.stage.AwaitOk? || k.stage.AwaitLogin? ==> SeenTrust(cfg, k.log))
    && (k.stage.Serving? ==> SeenLetIn(k.log))
  }

  lemma Appended(cfg: Setup, log: seq<Note>, n: Note)
    ensures SeenTrust(cfg, log + [n]) <==> TrustedBy(cfg, n) || SeenTrust(cfg, log)
    ensures SeenLetIn(log + [n]) <==> n.LetIn? || SeenLetIn(log)
    ensures Ordered(cfg, log + [n]) <==>
            Ordered(cfg, log) && (n.LetIn? ==> SeenTrust(cfg, log)) && (n.Called? ==> SeenLetIn(log))
  {
    assert (log + [n])[..|log|] == log;
  }

  lemma CarryEarns(cfg: Setup, k: Conn, c: Command)
    requires Earned(cfg, k) && k.stage.Serving?
    ensures Earned(cfg, Carry(k, c).0)
  {
    var r := Serve(k.world, k.act, k.pin, c).1;
    if r.Returned? {
      Appended(cfg, k.log, Called(c, r.value));
    }
  }

  lemma LoginEarns(cfg: Setup, k: Conn, act: string, pin: int)
    requires Earned(cfg, k) && k.stage.AwaitLogin?
    ensures Earned(cfg, ReceiveLogin(k, act, pin).0)
  {
    Appended(cfg, k.log, LetIn(act, pin));
  }

  lemma MacEarns(cfg: Setup, k: Conn, text: string)
    requires Earned(cfg, k) && k.stage.AwaitMac?
    ensures Earned(cfg, ReceiveMac(cfg, k, text).0)
  {
    Appended(cfg, k.log, MacAccepted(text));
  }

  lemma TextEarns(cfg: Setup, k: Conn, text: string)
    requires Earned(cfg, k)
    ensures Earned(cfg, ReceiveText(cfg, k, text).0)
  {
    match k.stage {
      case AwaitMac => MacEarns(cfg, k, text);
      case AwaitLogin => LoginEarns(cfg, k, LoginOf(text).0, LoginOf(text).1);
      case Serving => if Decode(text).Some? { CarryEarns(cfg, k, Decode(text).value); }
      case _ =>
    }
  }

  lemma ReceiveEarns(cfg: Setup, k: Conn, input: Input)
    requires Earned(cfg, k)
    ensures Earned(cfg, Receive(cfg, k, input).0)
  {
    if input.Msg? {
      TextEarns(cfg, k, input.text);
    }
  }

  lemma {:induction false} SeenAt(cfg: Setup, log: seq<Note>)
    ensures SeenTrust(cfg, log) ==> exists j | 0 <= j < |log| :: TrustedBy(cfg, log[j])
    ensures SeenLetIn(log) ==> exists j | 0 <= j < |log| :: log[j].LetIn?
  {
    if log != [] {
      var before := log[..|log| - 1];
      SeenAt(cfg, before);
      assert forall j | 0 <= j < |before| :: before[j] == log[j];
    }
  }

  /** In an ordered log every bank call has a login before it, and every login a trusted keyed message. */
  lemma {:induction false} OrderedMeans(cfg: Setup, log: seq<Note>, i: nat)
    requires Ordered(cfg, log) && i < |log|
    ensures log[i].LetIn? ==> exists j | 0 <= j < i :: TrustedBy(cfg, log[j])
    ensures log[i].Called? ==> exists j | 0 <= j < i :: log[j].LetIn?
  {
    var before := log[..|log| - 1];
    if i == |log| - 1 {
      SeenAt(cfg, before);
    } else {
      OrderedMeans(cfg, before, i);
    }
    assert forall j | 0 <= j < |before| :: before[j] == log[j];
  }

  // ---------- The log tells everything ----------

  /** The bank after the logged logins and requests, made again in order. */
  function Replay(w: L.World, act: string, pin: int, notes: seq<Note>): L.World
    decreases |notes|
  {
    if notes == [] then w
    else
      match notes[0]
      case MacAccepted(_) => Replay(w, act, pin, notes[1..])
      case LetIn(a, p) => Replay(L.LockAct(w, a, p).0, a, p, notes[1..])
      case Called(c, _) => Replay(Serve(w, act, pin, c).0, act, pin, notes[1..])
  }

  /** Made again, every login succeeds and every request is answered as the log says. */
  predicate Repeats(w: L.World, act: string, pin: int, notes: seq<Note>)
    decreases |notes|
  {
    notes == [] ||
    match notes[0]
    case MacAccepted(_) => Repeats(w, act, pin, notes[1..])
    case LetIn(a, p) => L.LockAct(w, a, p).1 && Repeats(L.LockAct(w, a, p).0, a, p, notes[1..])
    case Called(c, answer) =>
      Serve(w, act, pin, c).1 == Returned(answer) && Repeats(Serve(w, act, pin, c).0, act, pin, notes[1..])
  }

  predicate SameBooks(w: L.World, w': L.World) {
    w.files == w'.files && w.locks == w'.locks
  }

  /** A request in which the process ends has changed no file and no lock. */
  lemma ExitKeepsBooks(w: L.World, act: string, pin: int, c: Command)
    requires Serve(w, act, pin, c).1.Exited?
    ensures SameBooks(w, Serve(w, act, pin, c).0)
  {
    match c {
      case Withdraw(amount) =>
        LedgerLaws.WithdrawOutcome(w, act, pin, Atoi(amount));
        LedgerLaws.BalanceOutcome(L.BankWithdraw(w, act, pin, Atoi(amount)).0, act, pin);
      case Deposit(amount) =>
        LedgerLaws.DepositOutcome(w, act, pin, Atoi(amount));
        LedgerLaws.BalanceOutcome(L.BankDeposit(w, act, pin, Atoi(amount)).0, act, pin);
      case Transfer(amount, recipient) =>
        LedgerLaws.TransferOutcome(w, act, pin, recipient, Atoi(amount));
        LedgerLaws.BalanceOutcome(L.Transfer(w, act, pin, recipient, Atoi(amount)).0, act, pin);
      case _ => LedgerLaws.BalanceOutcome(w, act, pin);
    }
  }

  /** How the files and locks of an ended connection stand to the replayed bank: a logout removes its lock. */
  predicate Settled(k: Conn, w: L.World) {
    && k.world.files == w.files
    && (k.world.locks == w.locks || (k.stage.Gone? && k.world.locks == w.locks - {k.act}))
  }

  /** What one input adds to the log accounts for what it does to the bank. */
  predicate Told(k: Conn, k': Conn, notes: seq<Note>) {
    && k'.log == k.log + notes && |notes| <= 1
    && Repeats(k.world, k.act, k.pin, notes)
    && Settled(k', Replay(k.world, k.act, k.pin, notes))
    && (!k'.stage.Gone? ==>
          && k'.world == Replay(k.world, k.act, k.pin, notes)
          && k'.act == (if notes != [] && notes[0].LetIn? then notes[0].act else k.act)
          && k'.pin == (if notes != [] && notes[0].LetIn? then notes[0].pin else k.pin))
  }

  /** The note one input adds, if any. */
  function Noted(k: Conn, k': Conn): seq<Note> {
    if |k.log| <= |k'.log| then k'.log[|k.log|..] else []
  }

  lemma CarryTells(k: Conn, c: Command)
    requires k.stage.Serving?
    ensures Told(k, Carry(k, c).0, Noted(k, Carry(k, c).0))
  {
    var r := Serve(k.world, k.act, k.pin, c).1;
    if r.Exited? {
      ExitKeepsBooks(k.world, k.act, k.pin, c);
      assert k.log + [] == k.log;
    }
  }

  lemma LeaveTells(k: Conn)
    ensures Told(k, Leave(k), Noted(k, Leave(k)))
  {
    LedgerLaws.UnlockActOutcome(k.world, k.act, k.pin);
    assert k.log + [] == k.log;
  }

  lemma LoginTells(k: Conn, act: string, pin: int)
    ensures Told(k, ReceiveLogin(k, act, pin).0, Noted(k, ReceiveLogin(k, act, pin).0))
  {
    LedgerLaws.LockActOutcome(k.world, act, pin);
    assert k.log + [] == k.log;
  }

  /** The stages before the login neither know nor change anything of the bank. */
  lemma HandshakeTells(cfg: Setup, k: Conn, text: string)
    requires !k.stage.AwaitLogin? && !k.stage.Serving?
    ensures var k' := Receive(cfg, k, Msg(text)).0;
      k'.world == k.world && k'.lockout == k.lockout && Told(k, k', Noted(k, k'))
  {
    assert k.log + [] == k.log;
  }

  lemma RequestTells(cfg: Setup, k: Conn, text: string)
    requires k.stage.Serving?
    ensures Told(k, ReceiveRequest(k, text).0, Noted(k, ReceiveRequest(k, text).0))
  {
    if Decode(text) == Some(Exit) {
      LeaveTells(k);
    } else if Decode(text).Some? {
      CarryTells(k, Decode(text).value);
    } else {
      assert k.log + [] == k.log;
    }
  }

  lemma EndTells(cfg: Setup, k: Conn, input: Input)
    requires !input.Msg?
    ensures Told(k, Receive(cfg, k, input).0, Noted(k, Receive(cfg, k, input).0))
  {
    assert k.log + [] == k.log;
    if input.Eof? && k.stage.Serving? {
      LeaveTells(k);
    }
  }

  lemma ReceiveTells(cfg: Setup, k: Conn, input: Input)
    ensures Told(k, Receive(cfg, k, input).0, Noted(k, Receive(cfg, k, input).0))
  {
    if !input.Msg? {
      EndTells(cfg, k, input);
    } else if k.stage.AwaitLogin? {
      LoginTells(k, LoginOf(input.text).0, LoginOf(input.text).1);
    } else if k.stage.Serving? {
      RequestTells(cfg, k, input.text);
    } else {
      HandshakeTells(cfg, k, input.text);
    }
  }

  lemma {:induction false} GoneStays(cfg: Setup, k: Conn, inputs: seq<Input>)
    requires k.stage.Gone?
    ensures Converse(cfg, k, inputs).0 == k
    decreases |inputs|
  {
    if inputs != [] {
      GoneStays(cfg, k, inputs[1..]);
    }
  }

  lemma ReplayOne(k: Conn, k': Conn, first: seq<Note>, rest: seq<Note>)
    requires Told(k, k', first) && !k'.stage.Gone?
    ensures Replay(k.world, k.act, k.pin, first + rest) == Replay(k'.world, k'.act, k'.pin, rest)
    ensures Repeats(k'.world, k'.act, k'.pin, rest) ==> Repeats(k.world, k.act, k.pin, first + rest)
  {
    if first == [] {
      assert first + rest == rest;
    } else {
      assert first[1..] == [] && (first + rest)[0] == first[0] && (first + rest)[1..] == rest;
      match first[0] {
        case MacAccepted(_) => assert Replay(k.world, k.act, k.pin, first[1..]) == k.world;
        case LetIn(a, p) =>
          var w := L.LockAct(k.world, a, p).0;
          assert Replay(w, a, p, first[1..]) == w;
        case Called(c, _) =>
          var w := Serve(k.world, k.act, k.pin, c).0;
          assert Replay(w, k.act, k.pin, first[1..]) == w;
      }
    }
  }

  /**
   Whatever arrives, in whatever stage: the files and locks at the end are what the logged logins and requests,
   made again in order on the bank at the start, make of them, but for the lock a logout removes; each answers
   again as logged. Nothing that is not in the log has touched the accounts.
   */
  lemma {:induction false} LogTellsAll(cfg: Setup, k: Conn, inputs: seq<Input>)
    ensures var k' := Converse(cfg, k, inputs).0;
      && k.log <= k'.log
      && Repeats(k.world, k.act, k.pin, Noted(k, k'))
      && Settled(k', Replay(k.world, k.act, k.pin, Noted(k, k')))
    decreases |inputs|
  {
    if inputs == [] {
      assert Noted(k, k) == [];
    } else {
      var k1 := Receive(cfg, k, inputs[0]).0;
      var first := Noted(k, k1);
      ReceiveTells(cfg, k, inputs[0]);
      if k1.stage.Gone? {
        GoneStays(cfg, k1, inputs[1..]);
      } else {
        LogTellsAll(cfg, k1, inputs[1..]);
        var k' := Converse(cfg, k1, inputs[1..]).0;
        var rest := Noted(k1, k');
        ReplayOne(k, k1, first, rest);
        assert Noted(k, k') == first + rest;
      }
    }
  }

  // ---------- What the messages have to do with it ----------

  predicate TrustedMessage(cfg: Setup, input: Input) {
    input.Msg? && Mac.Accepts(cfg.hmac, cfg.trusted, input.text)
  }

  /** The stages after the client's keyed message. */
  predicate Trusting(k: Conn) {
    k.stage.AwaitOk? || k.stage.AwaitLogin? || k.stage.Serving?
  }

  /** What a stranger is sent: the public key, and the request to show that he is none. */
  predicate Harmless(cfg: Setup, outputs: seq<string>) {
    forall text | text in outputs :: text == cfg.pubKey || text == "MAC."
  }

  lemma StrangerStep(cfg: Setup, k: Conn, input: Input)
    requires !Trusting(k) && !TrustedMessage(cfg, input)
    ensures var (k1, out) := Receive(cfg, k, input);
      && !Trusting(k1) && k1.world == k.world && k1.lockout == k.lockout && k1.log == k.log
      && Harmless(cfg, Post(out))
  {
  }

  /**
   Whatever arrives: until a keyed message arrives that is trusted, the connection stays before its login;
   neither the bank nor the login counter is touched, and all that is sent is the public key and "MAC.".
   */
  lemma {:induction false} StrangersGetNowhere(cfg: Setup, k: Conn, inputs: seq<Input>)
    requires !Trusting(k) && forall i | 0 <= i < |inputs| :: !TrustedMessage(cfg, inputs[i])
    ensures var (k', outputs) := Converse(cfg, k, inputs);
      && !Trusting(k') && k'.world == k.world && k'.lockout == k.lockout && k'.log == k.log
      && Harmless(cfg, outputs)
    decreases |inputs|
  {
    if inputs != [] {
      StrangerStep(cfg, k, inputs[0]);
      StrangersGetNowhere(cfg, Receive(cfg, k, inputs[0]).0, inputs[1..]);
    }
  }

  predicate NoLogin(notes: seq<Note>) {
    forall n | n in notes :: !n.LetIn?
  }

  predicate NoTrust(notes: seq<Note>) {
    forall n | n in notes :: !n.MacAccepted?
  }

  lemma StepWithoutLogin(cfg: Setup, k: Conn, input: Input)
    requires !k.stage.Serving?
    ensures var k1 := Receive(cfg, k, input).0;
      && (NoLogin(Noted(k, k1)) ==> !k1.stage.Serving? && SameBooks(k.world, k1.world))
      && (NoTrust(Noted(k, k1)) && !Trusting(k) ==> !Trusting(k1) && k1.lockout == k.lockout)
  {
    if input.Msg? && k.stage.AwaitLogin? {
      var (act, pin) := LoginOf(input.text);
      LedgerLaws.LockActOutcome(k.world, act, pin);
      if ReceiveLogin(k, act, pin).0.stage.Serving? {
        assert Noted(k, ReceiveLogin(k, act, pin).0) == [LetIn(act, pin)];
        assert LetIn(act, pin) in Noted(k, ReceiveLogin(k, act, pin).0);
      }
    } else if input.Msg? {
      HandshakeTells(cfg, k, input.text);
      if k.stage.AwaitMac? && Receive(cfg, k, input).0.stage.AwaitOk? {
        assert Noted(k, Receive(cfg, k, input).0) == [MacAccepted(input.text)];
        assert MacAccepted(input.text) in Noted(k, Receive(cfg, k, input).0);
      }
    }
  }

  /**
   Whatever arrives: as long as nobody is let in no file and no lock changes, and as long as no keyed message
   is accepted the login counter does not change either.
   */
  lemma {:induction false} UntouchedBeforeLogin(cfg: Setup, k: Conn, inputs: seq<Input>)
    requires !k.stage.Serving?
    ensures var k' := Converse(cfg, k, inputs).0;
      && (NoLogin(Noted(k, k')) ==> SameBooks(k.world, k'.world))
      && (NoTrust(Noted(k, k')) && !Trusting(k) ==> k'.lockout == k.lockout)
    decreases |inputs|
  {
    if inputs != [] {
      var k1 := Receive(cfg, k, inputs[0]).0;
      var k' := Converse(cfg, k1, inputs[1..]).0;
      ReceiveTells(cfg, k, inputs[0]);
      LogTellsAll(cfg, k1, inputs[1..]);
      NotesJoin(k, k1, k');
      StepWithoutLogin(cfg, k, inputs[0]);
      if !k1.stage.Serving? {
        UntouchedBeforeLogin(cfg, k1, inputs[1..]);
      }
    }
  }

  lemma NotesJoin(k: Conn, k1: Conn, k': Conn)
    requires k.log <= k1.log <= k'.log
    ensures Noted(k, k') == Noted(k, k1) + Noted(k1, k')
    ensures NoLogin(Noted(k, k')) <==> NoLogin(Noted(k, k1)) && NoLogin(Noted(k1, k'))
    ensures NoTrust(Noted(k, k')) <==> NoTrust(Noted(k, k1)) && NoTrust(Noted(k1, k'))
  {
    assert Noted(k, k') == Noted(k, k1) + Noted(k1, k');
  }

  /** The note is of this message: a trusted one, the login it holds, or the request it holds. */
  predicate Caused(cfg: Setup, n: Note, input: Input) {
    && input.Msg?
    && match n
       case MacAccepted(mac) => mac == input.text && Mac.Accepts(cfg.hmac, cfg.trusted, input.text)
       case LetIn(act, pin) => LoginOf(input.text) == (act, pin)
       case Called(c, _) => Decode(input.text) == Some(c)
  }

  /** The same as a relation of its own. */
  function Causes(cfg: Setup): (Note, Input) -> bool {
    (n, input) => Caused(cfg, n, input)
  }

  lemma NoteIsCaused(cfg: Setup, k: Conn, input: Input)
    ensures forall n | n in Noted(k, Receive(cfg, k, input).0) :: Caused(cfg, n, input)
  {
  }

  /** Every new note has a message that caused it, each its own, in the order of the notes. */
  lemma {:induction false} NotesFollowMessages(cfg: Setup, k: Conn, inputs: seq<Input>)
    ensures var k' := Converse(cfg, k, inputs).0; k.log <= k'.log && Embeds(Causes(cfg), Noted(k, k'), inputs)
    decreases |inputs|
  {
    if inputs != [] {
      var k1 := Receive(cfg, k, inputs[0]).0;
      var k' := Converse(cfg, k1, inputs[1..]).0;
      ReceiveTells(cfg, k, inputs[0]);
      NoteIsCaused(cfg, k, inputs[0]);
      NotesFollowMessages(cfg, k1, inputs[1..]);
      NotesJoin(k, k1, k');
      EmbedsMore(Causes(cfg), Noted(k, k1), Noted(k1, k'), inputs);
    }
  }

  lemma {:induction false} ConverseEarns(cfg: Setup, k: Conn, inputs: seq<Input>)
    requires Earned(cfg, k)
    ensures Earned(cfg, Converse(cfg, k, inputs).0)
    decreases |inputs|
  {
    if inputs != [] {
      ReceiveEarns(cfg, k, inputs[0]);
      ConverseEarns(cfg, Receive(cfg, k, inputs[0]).0, inputs[1..]);
    }
  }

  /**
   Whatever arrives: every logged transaction has a login before it in the log, and every login a trusted
   keyed message.
   */
  lemma NotesAreOrdered(cfg: Setup, k: Conn, inputs: seq<Input>)
    requires Earned(cfg, k)
    ensures var log := Converse(cfg, k, inputs).0.log;
      && (forall i | 0 <= i < |log| && log[i].LetIn? :: exists j | 0 <= j < i :: TrustedBy(cfg, log[j]))
      && (forall i | 0 <= i < |log| && log[i].Called? :: exists j | 0 <= j < i :: log[j].LetIn?)
  {
    ConverseEarns(cfg, k, inputs);
    var log := Converse(cfg, k, inputs).0.log;
    forall i | 0 <= i < |log|
      ensures log[i].LetIn? ==> exists j | 0 <= j < i :: TrustedBy(cfg, log[j])
      ensures log[i].Called? ==> exists j | 0 <= j < i :: log[j].LetIn?
    {
      OrderedMeans(cfg, log, i);
    }
  }

  /**
   Whatever arrives, in whatever order, at a connection that begins: for every transaction that was called
   for there have arrived, one after the other, a keyed message that is trusted, the message with the name
   and PIN that were let in, and the message with that request.
   */
  lemma CallsAreEarned(cfg: Setup, k: Conn, inputs: seq<Input>, i: nat) returns (mac: nat, login: nat, request: nat)
    requires !Trusting(k) && k.log == []
    requires var log := Converse(cfg, k, inputs).0.log; i < |log| && log[i].Called?
    ensures var log := Converse(cfg, k, inputs).0.log;
      && mac < login < request < |inputs|
      && TrustedMessage(cfg, inputs[mac])
      && inputs[login].Msg?
      && (exists j | 0 <= j < i :: log[j].LetIn? && LoginOf(inputs[login].text) == (log[j].act, log[j].pin))
      && inputs[request].Msg? && Decode(inputs[request].text) == Some(log[i].request)
  {
    var k' := Converse(cfg, k, inputs).0;
    var log := k'.log;
    ConverseEarns(cfg, k, inputs);
    NotesFollowMessages(cfg, k, inputs);
    assert Noted(k, k') == log;
    var places := Embedding(Causes(cfg), log, inputs);
    OrderedMeans(cfg, log, i);
    var j :| 0 <= j < i && log[j].LetIn?;
    OrderedMeans(cfg, log, j);
    var m :| 0 <= m < j && TrustedBy(cfg, log[m]);
    mac, login, request := places[m], places[j], places[i];
  }

  // ---------- What is read as a login, and what is not read ----------

  /**
   A name of 1 to 64 letters, digits and underscores, a colon, and a PIN of 4 to 6 digits is the login with that name
   and that number.
   */
  lemma LoginIsRead(act: string, pin: string)
    requires 1 <= |act| <= 64 && 4 <= |pin| <= 6
    requires forall i | 0 <= i < |act| ::
               'a' <= act[i] <= 'z' || 'A' <= act[i] <= 'Z' || '0' <= act[i] <= '9' || act[i] == '_'
    requires forall i | 0 <= i < |pin| :: '0' <= pin[i] <= '9'
    ensures LoginOf(act + (":" + pin)) == (act, Atoi(pin))
  {
    LoginSyntax(act + (":" + pin), act, pin);
  }

  /** And no other text is a login with any name. */
  lemma NothingElseIsRead(text: string)
    ensures var act := LoginOf(text).0;
      act != "" ==>
        && 1 <= |act| <= 64 && |act| + 5 <= |text| <= |act| + 7
        && text == act + (":" + text[|act| + 1..])
        && (forall i | 0 <= i < |act| ::
              'a' <= act[i] <= 'z' || 'A' <= act[i] <= 'Z' || '0' <= act[i] <= '9' || act[i] == '_')
        && (forall i | |act| < i < |text| :: '0' <= text[i] <= '9')
        && LoginOf(text).1 == Atoi(text[|act| + 1..])
  {
    var login := DecodeLogin(text);
    if login.Some? {
      var (act, pin) := login.value;
      LoginSyntax(text, act, pin);
      assert text[|act| + 1..] == pin;
      forall i | |act| < i < |text| ensures '0' <= text[i] <= '9' {
        assert text[i] == pin[i - |act| - 1];
      }
    }
  }

  /** What a server does with a text it does not expect. */
  lemma Unexpected(cfg: Setup, k: Conn, text: string)
    ensures k.stage.AwaitHello? && text != "PUBKEY" ==> Receive(cfg, k, Msg(text)) == (k.(stage := Gone), None)
    ensures k.stage.AwaitMac? && !Mac.Accepts(cfg.hmac, cfg.trusted, text) ==>
              Receive(cfg, k, Msg(text)) == (k.(stage := Gone), None)
    ensures k.stage.AwaitOk? && text != "OK." ==> Receive(cfg, k, Msg(text)) == (k.(stage := AwaitHello), None)
    ensures k.stage.Serving? && Decode(text).None? ==> Receive(cfg, k, Msg(text)) == (k, Some("FAILURE."))
  {
  }

  /**
   What comes of a login message. The fourth one under a name is turned away without an answer; otherwise the attempt
   is counted, and the account is locked and served if it exists, is free, has a file and the PIN is the file's. If
   not, the connection ends with a failure and neither a file nor a lock is different.
   */
  lemma LoginOutcome(cfg: Setup, k: Conn, text: string)
    requires k.stage.AwaitLogin? && Lockout.Distinct(k.lockout)
    ensures var (act, pin) := LoginOf(text); var (k', out) := Receive(cfg, k, Msg(text)); var w := k.world;
      && k'.act == act && k'.pin == pin && k'.world.files == w.files
      && if act != "" && Lockout.Stored(k.lockout, act) >= 3 then
           k'.stage.Gone? && out == None && k'.world == w && k'.lockout == k.lockout
         else
           && (act != "" ==> Lockout.Stored(k'.lockout, act) == Lockout.Stored(k.lockout, act) + 1)
           && if act in w.caches && act !in w.locks && act in w.files && w.files[act].pin == pin
              then k'.stage.Serving? && out == Some("SUCCESS.") && k'.world.locks == w.locks + {act}
              else k'.stage.Gone? && out == Some("FAILURE.") && k'.world.locks == w.locks
  {
    var (act, pin) := LoginOf(text);
    LedgerLaws.LockActOutcome(k.world, act, pin);
    Lockout.AttemptCounts(k.lockout, act, act);
  }

  /**
   The ways out of being served: a logout and the end of the stream release the account, in silence; a timeout
   leaves it locked.
   */
  lemma WaysOut(cfg: Setup, k: Conn)
    requires k.stage.Serving? && LedgerLaws.Held(k.world, k.act, k.pin)
    ensures var freed := L.World(k.world.files, k.world.locks - {k.act}, k.world.caches[k.act := L.Cache(-1, -1)]);
      && Receive(cfg, k, Msg("EXIT.")) == (k.(stage := Gone, world := freed), None)
      && Receive(cfg, k, Eof) == (k.(stage := Gone, world := freed), None)
    ensures Receive(cfg, k, Idle) == (k.(stage := Gone), None)
  {
    LedgerLaws.UnlockActOutcome(k.world, k.act, k.pin);
  }

  // ---------- Who is served has gone through all of it ----------

  /** The message that is the `j`th of a handshake and login. */
  predicate IsNth(cfg: Setup, j: nat, input: Input, act: string, pin: int) {
    input.Msg? &&
    match j
    case 0 => input.text == "PUBKEY"
    case 1 => true
    case 2 => Mac.Accepts(cfg.hmac, cfg.trusted, input.text)
    case 3 => input.text == "OK."
    case _ => LoginOf(input.text) == (act, pin)
  }

  /** With the first `done` messages of a handshake received, the inputs are the others, and then only requests. */
  predicate Completes(cfg: Setup, done: nat, inputs: seq<Input>, act: string, pin: int) {
    && done <= 5 <= done + |inputs|
    && (forall j | 0 <= j < 5 - done :: IsNth(cfg, done + j, inputs[j], act, pin))
    && (forall j | 5 - done <= j < |inputs| :: inputs[j].Msg? && inputs[j].text != "EXIT.")
  }

  function Received(stage: Stage): nat {
    match stage
    case AwaitHello => 0
    case AwaitKey => 1
    case AwaitMac => 2
    case AwaitOk => 3
    case AwaitLogin => 4
    case _ => 5
  }

  /** The handshake goes one message further, or starts over, or there will be no service. */
  lemma OneFurther(cfg: Setup, k: Conn, input: Input)
    requires !k.stage.Gone?
    ensures var k1 := Receive(cfg, k, input).0; var n := Received(k.stage);
      || k1.stage.Gone?
      || k1.stage.AwaitHello?
      || (n < 5 && Received(k1.stage) == n + 1 && IsNth(cfg, n, input, k1.act, k1.pin))
      || (n == 5 && k1.stage.Serving? && k1.act == k.act && k1.pin == k.pin && input.Msg? && input.text != "EXIT.")
    ensures !k.stage.AwaitLogin? ==> Receive(cfg, k, input).0.act == k.act && Receive(cfg, k, input).0.pin == k.pin
  {
  }

  lemma CompletesBefore(cfg: Setup, done: nat, inputs: seq<Input>, act: string, pin: int)
    requires inputs != [] && done <= 5
    requires if done < 5 then Completes(cfg, done + 1, inputs[1..], act, pin) && IsNth(cfg, done, inputs[0], act, pin)
             else Completes(cfg, 5, inputs[1..], act, pin) && inputs[0].Msg? && inputs[0].text != "EXIT."
    ensures Completes(cfg, done, inputs, act, pin)
  {
    forall j | 0 < j < 5 - done ensures IsNth(cfg, done + j, inputs[j], act, pin) {
      assert inputs[1..][j - 1] == inputs[j];
    }
    forall j | 5 - done <= j < |inputs| && j > 0 ensures inputs[j].Msg? && inputs[j].text != "EXIT." {
      assert inputs[1..][j - 1] == inputs[j];
    }
  }

  /**
   Whatever arrives: a connection that is being served has received, one right after the other, the greeting, a key, a
   keyed message it trusts, the OK and the login it is served under, and since then nothing but messages that do not
   end it.
   */
  lemma {:induction false} ServedAfterHandshake(cfg: Setup, k: Conn, inputs: seq<Input>) returns (from: nat)
    requires !k.stage.Gone? && Converse(cfg, k, inputs).0.stage.Serving?
    ensures var k' := Converse(cfg, k, inputs).0;
      && from <= |inputs|
      && (Completes(cfg, 0, inputs[from..], k'.act, k'.pin)
          || (from == 0 && Completes(cfg, Received(k.stage), inputs, k'.act, k'.pin)
              && (k.stage.Serving? ==> k'.act == k.act && k'.pin == k.pin)))
    decreases |inputs|
  {
    from := 0;
    if inputs != [] {
      var k1 := Receive(cfg, k, inputs[0]).0;
      var k' := Converse(cfg, k, inputs).0;
      OneFurther(cfg, k, inputs[0]);
      if k1.stage.Gone? {
        GoneStays(cfg, k1, inputs[1..]);
        assert false;
      } else {
        var later := ServedAfterHandshake(cfg, k1, inputs[1..]);
        if Completes(cfg, 0, inputs[1..][later..], k'.act, k'.pin) {
          from := later + 1;
          assert inputs[from..] == inputs[1..][later..];
        } else {
          CompletesBefore(cfg, Received(k.stage), inputs, k'.act, k'.pin);
        }
      }
    }
  }

  /** A login that cannot be read fails, whatever the PIN is taken to be, as no account is without a name. */
  lemma MalformedLoginFails(k: Conn, text: string, pin: int)
    requires DecodeLogin(text).None? && "" !in k.world.caches
    ensures LoginOf(text).0 == ""
    ensures ReceiveLogin(k, "", pin) == (k.(act := "", pin := pin, stage := Gone), Some("FAILURE."))
  {
    LedgerLaws.LockActOutcome(k.world, "", pin);
  }

  // ---------- The answer is the account's ----------

  lemma ReportIsBalance(w: L.World, act: string, pin: int)
    requires L.Lookup(w, act, pin) && act in w.files
    ensures var (w', r) := Report(w, act, pin);
      r == Returned(Answer(true, w.files[act].balance)) && w'.files == w.files && w'.locks == w.locks
  {
    assert w.files[act := w.files[act]] == w.files;
    assert w.locks + {act} == w.locks;
  }

  /** What the bank call of a request returned. */
  function CallReturned(w: L.World, act: string, pin: int, c: Command): Outcome<bool> {
    match c
    case Withdraw(amount) => L.BankWithdraw(w, act, pin, Atoi(amount)).1
    case Deposit(amount) => L.BankDeposit(w, act, pin, Atoi(amount)).1
    case Transfer(amount, recipient) => L.Transfer(w, act, pin, recipient, Atoi(amount)).1
    case _ =>
      var r := L.BalanceInq(w, act, pin).1;
      if r.Exited? then Exited else Returned(r.value != -1)
  }

  lemma TransferLeavesSender(w: L.World, act: string, pin: int, t: string, amount: int)
    requires L.Transfer(w, act, pin, t, amount).1 == Returned(true)
    ensures var w' := L.Transfer(w, act, pin, t, amount).0; L.Lookup(w', act, pin) && act in w'.files
  {
    LedgerLaws.TransferOutcome(w, act, pin, t, amount);
  }

  /**
   For every request and every state of the accounts: the answer says done exactly if the bank call
   returned true, and then the reported balance is the one in the account's file after the call.
   */
  lemma AnswerIsTrue(w: L.World, act: string, pin: int, c: Command)
    requires !c.Exit?
    ensures var (w', r) := Serve(w, act, pin, c);
      && (r.Exited? <==> CallReturned(w, act, pin, c).Exited?)
      && (r.Returned? ==> (r.value.done <==> CallReturned(w, act, pin, c).value))
      && (r.Returned? && r.value.done ==> act in w'.files && r.value.balance == w'.files[act].balance)
  {
    match c {
      case Withdraw(amount) =>
        var (w1, r) := L.BankWithdraw(w, act, pin, Atoi(amount));
        if r == Returned(true) { ReportIsBalance(w1, act, pin); }
      case Deposit(amount) =>
        var (w1, r) := L.BankDeposit(w, act, pin, Atoi(amount));
        if r == Returned(true) { ReportIsBalance(w1, act, pin); }
      case Transfer(amount, recipient) =>
        var (w1, r) := L.Transfer(w, act, pin, recipient, Atoi(amount));
        if r == Returned(true) {
          TransferLeavesSender(w, act, pin, recipient, Atoi(amount));
          ReportIsBalance(w1, act, pin);
        }
      case Balance =>
        if L.Lookup(w, act, pin) && act in w.files { ReportIsBalance(w, act, pin); }
    }
  }
}
