/** The client's side of one connection, from the greeting to the end of the session. */
module Client {
  import opened Wrappers
  import opened Sequences
  import opened Commands
  import Mac

  /**
   Where the client is. It waits for the server everywhere but at the prompt and after the end; it is over
   with the connection closed, or adrift with the connection left open.
   */
  datatype Stage =
    | AwaitKey
    | AwaitMacRequest
    | AwaitMac
    | AwaitOk
    | AwaitLogin
    | Prompt
    | AwaitReply(request: Command)
    | Over
    | Adrift

  /** What the customer is shown for a request: success or not, and the balance text if so. */
  datatype Shown = Shown(request: Command, success: bool, balance: string)

  datatype Setup = Setup(pubKey: string, mac: string, hmac: Mac.Hmac, trusted: string, act: string, pin: string)

  datatype State = State(stage: Stage, log: seq<Shown>)

  /** What moves the client: a message, the server's end of the connection, or a line typed. */
  datatype Input = Received(text: string) | Closed | Typed(line: string)

  const START := State(AwaitKey, [])
  const HELLO := "PUBKEY"

  predicate Ended(st: State) {
    st.stage.Over? || st.stage.Adrift?
  }

  /** The client is in a receive. */
  predicate Waits(st: State) {
    !st.stage.Prompt? && !Ended(st)
  }

  // ---------- One input ----------

  function TypedLine(st: State, line: string): (State, Option<string>) {
    match ParseLine(line)
    case None => (st, None)
    case Some(Exit) => (st.(stage := Over), Some(Encode(Exit)))
    case Some(c) => (st.(stage := AwaitReply(c)), Some(Encode(c)))
  }

  /** How a reply is shown. */
  function ShowReply(c: Command, text: string): Shown {
    if text != "FAILURE." then Shown(c, true, text) else Shown(c, false, "")
  }

  function ReceiveMacRequest(cfg: Setup, st: State, text: string): (State, Option<string>) {
    if text == "MAC." then (st.(stage := AwaitMac), Some(cfg.mac)) else (st.(stage := Over), None)
  }

  function ReceiveMac(cfg: Setup, st: State, text: string): (State, Option<string>) {
    if Mac.Accepts(cfg.hmac, cfg.trusted, text) then (st.(stage := AwaitOk), Some("OK."))
    else (st.(stage := Over), None)
  }

  function ReceiveOk(cfg: Setup, st: State, text: string): (State, Option<string>) {
    if text == "OK." then (st.(stage := AwaitLogin), Some(EncodeLogin(cfg.act, cfg.pin)))
    else (st.(stage := Adrift), None)
  }

  function ReceiveText(cfg: Setup, st: State, text: string): (State, Option<string>) {
    match st.stage
    case AwaitKey => (st.(stage := AwaitMacRequest), Some(cfg.pubKey))
    case AwaitMacRequest => ReceiveMacRequest(cfg, st, text)
    case AwaitMac => ReceiveMac(cfg, st, text)
    case AwaitOk => ReceiveOk(cfg, st, text)
    case AwaitLogin => (st.(stage := if text != "FAILURE." then Prompt else Adrift), None)
    case AwaitReply(c) => (State(Prompt, st.log + [ShowReply(c, text)]), None)
    case _ => (st, None)
  }

  function Step(cfg: Setup, st: State, input: Input): (State, Option<string>) {
    match input
    case Received(text) => ReceiveText(cfg, st, text)
    case Closed => (if Waits(st) then st.(stage := Over) else st, None)
    case Typed(line) => if st.stage.Prompt? then TypedLine(st, line) else (st, None)
  }

  /** A whole session from `st`: the final state, and everything sent. */
  function Session(cfg: Setup, st: State, inputs: seq<Input>): (State, seq<string>)
    decreases |inputs|
  {
    if inputs == [] then (st, [])
    else
      var (st1, out) := Step(cfg, st, inputs[0]);
      var (st2, outs) := Session(cfg, st1, inputs[1..]);
      (st2, Post(out) + outs)
  }

  // ---------- The loops ----------

  method TakeLine(st: State, line: string) returns (st': State, out: Option<string>)
    ensures (st', out) == TypedLine(st, line)
  {
    var action := ParseLine(line);
    if action.None? {
      return st, None;
    }
    if action == Some(Exit) {
      return st.(stage := Over), Some("EXIT.");
    }
    return st.(stage := AwaitReply(action.value)), Some(Encode(action.value));
  }

  method TakeMacRequest(cfg: Setup, st: State, text: string) returns (st': State, out: Option<string>)
    ensures (st', out) == ReceiveMacRequest(cfg, st, text)
  {
    if text != "MAC." {
      return st.(stage := Over), None;
    }
    return st.(stage := AwaitMac), Some(cfg.mac);
  }

  method TakeMac(cfg: Setup, st: State, text: string) returns (st': State, out: Option<string>)
    ensures (st', out) == ReceiveMac(cfg, st, text)
  {
    var macCheck := Mac.CheckMac(cfg.hmac, cfg.trusted, text);
    if !macCheck {
      return st.(stage := Over), None;
    }
    return st.(stage := AwaitOk), Some("OK.");
  }

  method TakeOk(cfg: Setup, st: State, text: string) returns (st': State, out: Option<string>)
    ensures (st', out) == ReceiveOk(cfg, st, text)
  {
    if text == "OK." {
      return st.(stage := AwaitLogin), Some(cfg.act + [':'] + cfg.pin);
    }
    return st.(stage := Adrift), None;
  }

  method TakeText(cfg: Setup, st: State, text: string) returns (st': State, out: Option<string>)
    ensures (st', out) == ReceiveText(cfg, st, text)
  {
    match st.stage {
      case AwaitKey => st', out := st.(stage := AwaitMacRequest), Some(cfg.pubKey);
      case AwaitMacRequest => st', out := TakeMacRequest(cfg, st, text);
      case AwaitMac => st', out := TakeMac(cfg, st, text);
      case AwaitOk => st', out := TakeOk(cfg, st, text);
      case AwaitLogin => st', out := st.(stage := if text != "FAILURE." then Prompt else Adrift), None;
      case AwaitReply(c) => st', out := State(Prompt, st.log + [ShowReply(c, text)]), None;
      case _ => st', out := st, None;
    }
  }

  /** One turn of the session. */
  method Move(cfg: Setup, st: State, input: Input) returns (st': State, out: Option<string>)
    ensures (st', out) == Step(cfg, st, input)
  {
    st', out := st, None;
    match input {
      case Received(text) => st', out := TakeText(cfg, st, text);
      case Closed =>
        if Waits(st) {
          st' := st.(stage := Over);
        }
      case Typed(line) =>
        if st.stage == Prompt {
          st', out := TakeLine(st, line);
        }
    }
  }

  /** The session loops, over everything that will be received and typed. */
  method StartSession(cfg: Setup, inputs: seq<Input>) returns (st: State, outputs: seq<string>)
    ensures var (final, sent) := Session(cfg, START, inputs); st == final && outputs == ["PUBKEY"] + sent
  {
    st := START;
    outputs := [HELLO];
    var i := 0;
    assert inputs[0..] == inputs;
    while i < |inputs|
      invariant 0 <= i <= |inputs|
      invariant Session(cfg, START, inputs).0 == Session(cfg, st, inputs[i..]).0
      invariant [HELLO] + Session(cfg, START, inputs).1 == outputs + Session(cfg, st, inputs[i..]).1
    {
      assert inputs[i..][0] == inputs[i] && inputs[i..][1..] == inputs[i + 1..];
      var out;
      st, out := Move(cfg, st, inputs[i]);
      Regroup(outputs, Post(out), Session(cfg, st, inputs[i + 1..]).1);
      outputs := outputs + Post(out);
      i := i + 1;
    }
    assert outputs + [] == outputs;
  }

  // ---------- What is typed is what is sent ----------

  /** Each command typed at the prompt, and what goes out for it. */
  lemma TypedLines(cfg: Setup, st: State, line: string, amount: string, recipient: string)
    requires st.stage.Prompt?
    ensures Lower(line) == "withdraw " + amount && IsAmount(amount) ==>
              Step(cfg, st, Typed(line)) == (st.(stage := AwaitReply(Withdraw(amount))), Some("W:" + amount))
    ensures Lower(line) == "deposit " + amount && IsAmount(amount) ==>
              Step(cfg, st, Typed(line)) == (st.(stage := AwaitReply(Deposit(amount))), Some("D:" + amount))
    ensures Lower(line) == "transfer " + (amount + (" " + recipient)) && IsAmount(amount) && IsName(recipient) ==>
              Step(cfg, st, Typed(line))
              == (st.(stage := AwaitReply(Transfer(amount, recipient))), Some("T:" + (amount + (":" + recipient))))
    ensures Lower(line) == "balance" ==> Step(cfg, st, Typed(line)) == (st.(stage := AwaitReply(Balance)), Some("B:"))
    ensures Lower(line) == "exit" ==> Step(cfg, st, Typed(line)) == (st.(stage := Over), Some("EXIT."))
  {
    LineSyntax(line, Withdraw(amount));
    LineSyntax(line, Deposit(amount));
    LineSyntax(line, Transfer(amount, recipient));
    LineSyntax(line, Balance);
    LineSyntax(line, Exit);
    assert amount + [':'] + recipient == amount + (":" + recipient);
  }

  /**
   A line typed at the prompt sends a message exactly if it asks for some command, and the server reads that command
   from the message; any other line sends nothing and leaves the client as it is.
   */
  lemma TypedIsSent(cfg: Setup, st: State, line: string, c: Command)
    requires st.stage.Prompt?
    ensures var (st', out) := Step(cfg, st, Typed(line));
      && (Lower(line) == LineFor(c) && Wellformed(c) <==> out.Some? && Decode(out.value) == Some(c))
      && (out.Some? ==> Decode(out.value).Some?)
      && st' == (if out.None? then st
                 else if Decode(out.value) == Some(Exit) then st.(stage := Over)
                 else st.(stage := AwaitReply(Decode(out.value).value)))
  {
    LineGrammar(line, c);
    CommandRoundTrip(line);
  }

  /** When the client ends: with its connection closed, or with the connection left open. */
  lemma EndsOnlyIf(cfg: Setup, st: State, input: Input)
    requires !Ended(st)
    ensures var after := Step(cfg, st, input).0;
      && (after.stage.Adrift? <==>
            && input.Received?
            && ((st.stage.AwaitOk? && input.text != "OK.") || (st.stage.AwaitLogin? && input.text == "FAILURE.")))
      && (after.stage.Over? <==>
            || (input.Closed? && !st.stage.Prompt?)
            || (input.Received? && st.stage.AwaitMacRequest? && input.text != "MAC.")
            || (input.Received? && st.stage.AwaitMac? && !Mac.Accepts(cfg.hmac, cfg.trusted, input.text))
            || (input.Typed? && st.stage.Prompt? && Lower(input.line) == "exit"))
      && after.log == (if input.Received? && st.stage.AwaitReply?
                       then st.log + [if input.text == "FAILURE." then Shown(st.stage.request, false, "")
                                      else Shown(st.stage.request, true, input.text)]
                       else st.log)
  {
    if input.Typed? {
      LineSyntax(input.line, Exit);
    }
  }

  // ---------- The PIN is not sent to a stranger ----------

  /** What the client sends of its own accord before it has decided whether it trusts the server. */
  function Introduction(cfg: Setup, st: State): seq<string> {
    match st.stage
    case AwaitKey => [cfg.pubKey, cfg.mac]
    case AwaitMacRequest => [cfg.mac]
    case _ => []
  }

  predicate Undecided(st: State) {
    st.stage.AwaitKey? || st.stage.AwaitMacRequest? || st.stage.AwaitMac?
  }

  predicate TrustedMac(cfg: Setup, input: Input) {
    input.Received? && Mac.Accepts(cfg.hmac, cfg.trusted, input.text)
  }

  lemma {:induction false} SilentWhenOver(cfg: Setup, st: State, inputs: seq<Input>)
    requires Ended(st)
    ensures Session(cfg, st, inputs) == (st, [])
    decreases |inputs|
  {
    if inputs != [] {
      SilentWhenOver(cfg, st, inputs[1..]);
      assert Post<string>(None) + [] == [];
    }
  }

  /** One step before the decision. */
  lemma UndecidedStep(cfg: Setup, st: State, input: Input)
    requires Undecided(st)
    ensures var (st1, out) := Step(cfg, st, input);
      || (st1 == st && out.None?)
      || (st1.stage.Over? && out.None?)
      || (Undecided(st1) && Introduction(cfg, st) == Post(out) + Introduction(cfg, st1))
      || (st1.stage.AwaitOk? && st.stage.AwaitMac? && out == Some("OK.") && TrustedMac(cfg, input))
  {
  }

  /**
   Whatever is received and typed: a client that has received no keyed message it trusts has sent its key and
   its own keyed message at most, in this order; so no OK, no name, no PIN and no request.
   */
  lemma {:induction false} StrangersLearnNothing(cfg: Setup, st: State, inputs: seq<Input>)
    requires Undecided(st) && forall i | 0 <= i < |inputs| :: !TrustedMac(cfg, inputs[i])
    ensures Session(cfg, st, inputs).1 <= Introduction(cfg, st)
    decreases |inputs|
  {
    if inputs != [] {
      UndecidedStep(cfg, st, inputs[0]);
      var (st1, out) := Step(cfg, st, inputs[0]);
      if st1.stage.Over? {
        SilentWhenOver(cfg, st1, inputs[1..]);
      } else {
        StrangersLearnNothing(cfg, st1, inputs[1..]);
        Extends(Post(out), Session(cfg, st1, inputs[1..]).1, Introduction(cfg, st1));
      }
    }
  }

  lemma Extends(a: seq<string>, b: seq<string>, c: seq<string>)
    requires b <= c
    ensures a + b <= a + c
    ensures [] + b == b && [] + c == c
  {
  }

  lemma {:induction false} LoginIsNext(cfg: Setup, st: State, inputs: seq<Input>)
    requires st.stage.AwaitOk?
    ensures var sent := Session(cfg, st, inputs).1; sent != [] ==> sent[0] == EncodeLogin(cfg.act, cfg.pin)
    decreases |inputs|
  {
    if inputs != [] {
      var (st1, out) := Step(cfg, st, inputs[0]);
      if Ended(st1) {
        SilentWhenOver(cfg, st1, inputs[1..]);
      } else if st1.stage.AwaitOk? {
        LoginIsNext(cfg, st1, inputs[1..]);
        Extends([], Session(cfg, st1, inputs[1..]).1, Session(cfg, st1, inputs[1..]).1);
      }
    }
  }

  /** As far as both go, the two are the same. */
  predicate Alike(s: seq<string>, t: seq<string>) {
    forall i | 0 <= i < |s| && i < |t| :: s[i] == t[i]
  }

  lemma AlikeAfter(a: seq<string>, s: seq<string>, t: seq<string>)
    requires Alike(s, t)
    ensures Alike(a + s, a + t)
  {
  }

  /** The first messages of a session, if it gets that far. */
  function Opening(cfg: Setup, st: State): seq<string> {
    Introduction(cfg, st) + ["OK.", EncodeLogin(cfg.act, cfg.pin)]
  }

  /**
   Whatever is received and typed: the first messages of a session are the key, the keyed message, the OK and
   the login message, each only after the one before; and a session that sends more than the first two has
   received a keyed message the client trusts.
   */
  lemma PinOnlyAfterTrust(cfg: Setup, st: State, inputs: seq<Input>)
    requires Undecided(st)
    ensures Alike(Session(cfg, st, inputs).1, Opening(cfg, st))
    ensures |Session(cfg, st, inputs).1| > |Introduction(cfg, st)| ==>
              exists i | 0 <= i < |inputs| :: TrustedMac(cfg, inputs[i])
  {
    OpeningIsSent(cfg, st, inputs);
    if forall i | 0 <= i < |inputs| :: !TrustedMac(cfg, inputs[i]) {
      StrangersLearnNothing(cfg, st, inputs);
    }
  }

  lemma {:induction false} OpeningIsSent(cfg: Setup, st: State, inputs: seq<Input>)
    requires Undecided(st)
    ensures Alike(Session(cfg, st, inputs).1, Opening(cfg, st))
    decreases |inputs|
  {
    if inputs != [] {
      UndecidedStep(cfg, st, inputs[0]);
      var (st1, out) := Step(cfg, st, inputs[0]);
      var sent := Session(cfg, st1, inputs[1..]).1;
      if st1.stage.Over? {
        SilentWhenOver(cfg, st1, inputs[1..]);
      } else if st1.stage.AwaitOk? {
        LoginIsNext(cfg, st1, inputs[1..]);
        AlikeAfter(Post(out), sent, [EncodeLogin(cfg.act, cfg.pin)]);
        assert Opening(cfg, st) == Post(out) + [EncodeLogin(cfg.act, cfg.pin)];
      } else {
        OpeningIsSent(cfg, st1, inputs[1..]);
        AlikeAfter(Post(out), sent, Opening(cfg, st1));
        if st1 == st && out.None? {
          assert Post(out) + Opening(cfg, st1) == Opening(cfg, st);
        } else {
          Regroup(Post(out), Introduction(cfg, st1), ["OK.", EncodeLogin(cfg.act, cfg.pin)]);
        }
      }
    }
  }
}
