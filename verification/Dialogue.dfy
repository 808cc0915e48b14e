/**
 A client and the server process of its connection, joined by a channel that loses and changes nothing,
 while other processes change the shared files as they like.
 */
module Dialogue {
  import opened Wrappers
  import opened Sequences
  import opened Text
  import opened Commands
  import L = Ledger
  import Lockout
  import C = Client
  import S = Server

  datatype Parties = Parties(client: C.Setup, server: S.Setup)

  /** `truth` records, for every bank call that returned, what the customer ought to be shown for it. */
  datatype Config = Config(
    client: C.State,
    server: S.Conn,
    toServer: seq<string>,
    toClient: seq<string>,
    truth: seq<C.Shown>)

  datatype Event =
    | TypeLine(line: string)
    | ClientHears
    | ClientSeesClose
    | ServerHears
    | ServerSeesEof
    | ServerIdles
    | HangUp
    | Others(files: map<string, L.File>, locks: set<string>, lockout: seq<Lockout.Entry>)

  predicate Enabled(k: Config, e: Event) {
    match e
    case TypeLine(_) => k.client.stage.Prompt?
    case ClientHears => C.Waits(k.client) && k.toClient != []
    case ClientSeesClose => C.Waits(k.client) && k.toClient == [] && k.server.stage.Gone?
    case ServerHears => !k.server.stage.Gone? && k.toServer != []
    case ServerSeesEof => !k.server.stage.Gone? && k.toServer == [] && k.client.stage.Over?
    case ServerIdles => !k.server.stage.Gone?
    case HangUp => !k.client.stage.Over?
    case Others(_, _, _) => true
  }

  /** What ought to be shown for a request: what the bank call returned, and the balance in the file then. */
  function TruthOf(before: S.Conn, after: L.World, c: Command): seq<C.Shown> {
    match S.CallReturned(before.world, before.act, before.pin, c)
    case Exited => []
    case Returned(false) => [C.Shown(c, false, "")]
    case Returned(true) =>
      [C.Shown(c, true, if before.act in after.files then ToString(after.files[before.act].balance) else "")]
  }

  /** The same for a message that reaches the server. */
  function Truth(before: S.Conn, after: L.World, text: string): seq<C.Shown> {
    if before.stage.Serving? && Decode(text).Some? && Decode(text) != Some(Exit)
    then TruthOf(before, after, Decode(text).value) else []
  }

  function Apply(p: Parties, k: Config, e: Event): Config
    requires Enabled(k, e)
  {
    match e
    case TypeLine(line) =>
      var (client, out) := C.Step(p.client, k.client, C.Typed(line));
      k.(client := client, toServer := k.toServer + Post(out))
    case ClientHears =>
      var (client, out) := C.Step(p.client, k.client, C.Received(k.toClient[0]));
      k.(client := client, toClient := k.toClient[1..], toServer := k.toServer + Post(out))
    case ClientSeesClose => k.(client := C.Step(p.client, k.client, C.Closed).0)
    case ServerHears =>
      var (server, out) := S.Receive(p.server, k.server, S.Msg(k.toServer[0]));
      k.(server := server, toServer := k.toServer[1..], toClient := k.toClient + Post(out),
         truth := k.truth + Truth(k.server, server.world, k.toServer[0]))
    case ServerSeesEof => k.(server := S.Receive(p.server, k.server, S.Eof).0)
    case ServerIdles => k.(server := S.Receive(p.server, k.server, S.Idle).0)
    case HangUp => k.(client := k.client.(stage := C.Over))
    case Others(files, locks, lockout) =>
      k.(server := k.server.(world := k.server.world.(files := files, locks := locks), lockout := lockout))
  }

  predicate AllEnabled(p: Parties, k: Config, es: seq<Event>)
    decreases |es|
  {
    es == [] || (Enabled(k, es[0]) && AllEnabled(p, Apply(p, k, es[0]), es[1..]))
  }

  function Run(p: Parties, k: Config, es: seq<Event>): Config
    requires AllEnabled(p, k, es)
    decreases |es|
  {
    if es == [] then k else Run(p, Apply(p, k, es[0]), es[1..])
  }

  /** The client has connected and sent its greeting. */
  function Opening(world: L.World, lockout: seq<Lockout.Entry>): Config {
    Config(C.START, S.Conn(S.AwaitHello, "", 0, world, lockout, []), [C.HELLO], [], [])
  }

  // ---------- How the two control states match ----------

  /** The request is on its way to a server that waits for it in `before`, or answered from `after`. */
  predicate Turn(k: Config, before: S.Stage, request: string, after: S.Stage, reply: string) {
    || (k.server.stage == before && k.toServer == [request] && k.toClient == [])
    || (k.server.stage == after && k.toServer == [] && k.toClient == [reply])
  }

  predicate TurnWithAnyReply(k: Config, request: string) {
    && k.server.stage == S.Serving
    && ((k.toServer == [request] && k.toClient == []) || (k.toServer == [] && |k.toClient| == 1))
  }

  /** The stages of two live parties, and the one message between them. */
  predicate InStep(p: Parties, k: Config) {
    match k.client.stage
    case AwaitKey => Turn(k, S.AwaitHello, C.HELLO, S.AwaitKey, p.server.pubKey)
    case AwaitMacRequest => Turn(k, S.AwaitKey, p.client.pubKey, S.AwaitMac, "MAC.")
    case AwaitMac => Turn(k, S.AwaitMac, p.client.mac, S.AwaitOk, p.server.mac)
    case AwaitOk => Turn(k, S.AwaitOk, "OK.", S.AwaitLogin, "OK.")
    case AwaitLogin => Turn(k, S.AwaitLogin, EncodeLogin(p.client.act, p.client.pin), S.Serving, "SUCCESS.")
    case Prompt => k.server.stage == S.Serving && k.toServer == [] && k.toClient == []
    case AwaitReply(c) => TurnWithAnyReply(k, Encode(c))
    case Over => true
    case Adrift => false
  }

  predicate Matched(p: Parties, k: Config) {
    && |k.toServer| + |k.toClient| <= 1
    && (k.server.stage.AwaitOk? && k.toServer != [] ==> k.toServer == ["OK."])
    && (k.client.stage.AwaitReply? ==> Wellformed(k.client.stage.request) && !k.client.stage.request.Exit?)
    && (k.client.stage.Prompt? ==> k.toServer == [] && k.toClient == [])
    && (k.client.stage.Adrift? ==> k.toServer == [] && k.toClient == [])
    && (!k.server.stage.Gone? ==> InStep(p, k))
  }

  /** The customer has been shown exactly the truth, up to a reply that is still on its way or never read. */
  predicate Agrees(k: Config) {
    match k.client.stage
    case AwaitReply(c) => k.truth == k.client.log + (if k.toClient != [] then [C.ShowReply(c, k.toClient[0])] else [])
    case Over => k.client.log <= k.truth && |k.truth| <= |k.client.log| + (if k.toServer == [] then 1 else 0)
    case _ => k.truth == k.client.log
  }

  // ---------- One message at the server ----------

  lemma NumberIsNotFailure(n: int)
    ensures ToString(n) != "FAILURE."
  {
    ToStringIsToken(n);
    assert ToString(n)[0] == '-' || IsDigit(ToString(n)[0]);
  }

  predicate Shows(c: Command, after: S.Stage, out: Option<string>, truth: seq<C.Shown>) {
    && (out.None? ==> after.Gone? && truth == [])
    && (out.Some? ==> after.Serving? && truth == [C.ShowReply(c, out.value)])
  }

  /** What the server does with a request, seen from outside: its reply shows the truth, or it is gone. */
  lemma RequestAnswered(cfg: S.Setup, k: S.Conn, c: Command)
    requires k.stage.Serving? && Wellformed(c) && !c.Exit?
    ensures var (k', out) := S.Receive(cfg, k, S.Msg(Encode(c)));
      Shows(c, k'.stage, out, Truth(k, k'.world, Encode(c)))
  {
    MessageGrammar(Encode(c), c);
    S.AnswerIsTrue(k.world, k.act, k.pin, c);
    var (w, r) := S.Serve(k.world, k.act, k.pin, c);
    if r.Returned? {
      NumberIsNotFailure(r.value.balance);
    }
  }

  /** What may come of a handshake or login message, seen from outside. */
  predicate Fits(cfg: S.Setup, stage: S.Stage, text: string, after: S.Stage, out: Option<string>) {
    && (stage.AwaitHello? && text == C.HELLO ==> after.AwaitKey? && out == Some(cfg.pubKey))
    && (stage.AwaitKey? ==> after.AwaitMac? && out == Some("MAC."))
    && (stage.AwaitMac? ==> (after.AwaitOk? && out == Some(cfg.mac)) || (after.Gone? && out.None?))
    && (stage.AwaitOk? && text == "OK." ==> after.AwaitLogin? && out == Some("OK."))
    && (stage.AwaitLogin? ==>
          || (after.Serving? && out == Some("SUCCESS."))
          || (after.Gone? && (out.None? || out == Some("FAILURE."))))
  }

  lemma HandshakeAnswered(cfg: S.Setup, k: S.Conn, text: string)
    requires !k.stage.Gone? && !k.stage.Serving?
    ensures var (k', out) := S.Receive(cfg, k, S.Msg(text)); Fits(cfg, k.stage, text, k'.stage, out)
  {
  }

  /** A message is never left unanswered by a server that stays, unless it is a stray one for the OK. */
  lemma AnsweredOrGone(cfg: S.Setup, k: S.Conn, text: string)
    requires !k.stage.Gone? && (k.stage.AwaitOk? ==> text == "OK.")
    ensures var (k', out) := S.Receive(cfg, k, S.Msg(text)); out.Some? || k'.stage.Gone?
    ensures k.stage.Serving? ==> S.Receive(cfg, k, S.Msg(text)).0.stage in {S.Serving, S.Gone}
  {
  }

  // ---------- Every step keeps the match and the agreement ----------

  predicate Rel(p: Parties, k: Config) {
    Matched(p, k) && Agrees(k)
  }

  lemma TypeLineKeeps(p: Parties, k: Config, line: string)
    requires Rel(p, k) && Enabled(k, TypeLine(line))
    ensures Rel(p, Apply(p, k, TypeLine(line)))
  {
    CommandRoundTrip(line);
  }

  /** A reply heard. */
  lemma ReplyKeeps(p: Parties, k: Config, client: C.State, out: Option<string>)
    requires Rel(p, k) && k.toServer == [] && |k.toClient| == 1 && C.Waits(k.client)
    requires C.Step(p.client, k.client, C.Received(k.toClient[0])) == (client, out)
    ensures Rel(p, Config(client, k.server, Post(out), [], k.truth))
  {
    assert k.toClient == [k.toClient[0]];
    assert "SUCCESS."[0] != "FAILURE."[0];
  }

  lemma ClientHearsKeeps(p: Parties, k: Config)
    requires Rel(p, k) && Enabled(k, ClientHears)
    ensures Rel(p, Apply(p, k, ClientHears))
  {
    var (client, out) := C.Step(p.client, k.client, C.Received(k.toClient[0]));
    ReplyKeeps(p, k, client, out);
    assert [] + Post(out) == Post(out) && k.toClient[1..] == [] && k.toServer == [];
  }

  /** A handshake or login message heard, and its answer on the way back. */
  lemma HandshakeKeeps(p: Parties, k: Config, server: S.Conn, out: Option<string>)
    requires Rel(p, k) && |k.toServer| == 1 && k.toClient == []
    requires !k.server.stage.Serving? && !k.server.stage.Gone?
    requires Fits(p.server, k.server.stage, k.toServer[0], server.stage, out)
    ensures Rel(p, Config(k.client, server, [], Post(out), k.truth))
  {
    assert k.toServer == [k.toServer[0]];
  }

  /** A request heard. */
  lemma RequestKeeps(p: Parties, k: Config, server: S.Conn, out: Option<string>, truth: seq<C.Shown>)
    requires Rel(p, k) && |k.toServer| == 1 && k.toClient == [] && k.server.stage.Serving?
    requires server.stage.Serving? || server.stage.Gone?
    requires |truth| <= 1
    requires k.client.stage.AwaitReply? ==> Shows(k.client.stage.request, server.stage, out, truth)
    ensures Rel(p, Config(k.client, server, [], Post(out), k.truth + truth))
  {
    assert k.toServer == [k.toServer[0]];
  }

  lemma ServerHearsKeeps(p: Parties, k: Config)
    requires Rel(p, k) && Enabled(k, ServerHears)
    ensures Rel(p, Apply(p, k, ServerHears))
  {
    var text := k.toServer[0];
    var (server, out) := S.Receive(p.server, k.server, S.Msg(text));
    var truth := Truth(k.server, server.world, text);
    assert k.toServer == [text] && k.toClient == [];
    assert [] + Post(out) == Post(out);
    AnsweredOrGone(p.server, k.server, text);
    if k.server.stage.Serving? {
      if k.client.stage.AwaitReply? {
        RequestAnswered(p.server, k.server, k.client.stage.request);
      }
      RequestKeeps(p, k, server, out, truth);
    } else {
      HandshakeAnswered(p.server, k.server, text);
      HandshakeKeeps(p, k, server, out);
      assert k.truth + [] == k.truth;
    }
  }

  lemma StepKeeps(p: Parties, k: Config, e: Event)
    requires Rel(p, k) && Enabled(k, e)
    ensures Rel(p, Apply(p, k, e))
  {
    match e {
      case TypeLine(line) => TypeLineKeeps(p, k, line);
      case ClientHears => ClientHearsKeeps(p, k);
      case ServerHears => ServerHearsKeeps(p, k);
      case _ =>
    }
  }

  lemma {:induction false} RunKeeps(p: Parties, k: Config, es: seq<Event>)
    requires Rel(p, k) && AllEnabled(p, k, es)
    ensures Rel(p, Run(p, k, es))
    decreases |es|
  {
    if es != [] {
      StepKeeps(p, k, es[0]);
      RunKeeps(p, Apply(p, k, es[0]), es[1..]);
    }
  }

  // ---------- Main results ----------

  /** In every state of every dialogue at most one message is in flight, and the two stages match. */
  lemma Alternates(p: Parties, world: L.World, lockout: seq<Lockout.Entry>, es: seq<Event>)
    requires AllEnabled(p, Opening(world, lockout), es)
    ensures var k := Run(p, Opening(world, lockout), es);
      |k.toServer| + |k.toClient| <= 1 && (!k.server.stage.Gone? ==> InStep(p, k))
  {
    RunKeeps(p, Opening(world, lockout), es);
  }

  /**
   Whatever is typed, whoever else moves money, whenever the server times out: what the customer has been
   shown is, request by request, what the bank calls returned and the balance in the file after each.
   At the prompt nothing is missing; otherwise at most the last reply is.
   */
  lemma ShownIsTrue(p: Parties, world: L.World, lockout: seq<Lockout.Entry>, es: seq<Event>)
    requires AllEnabled(p, Opening(world, lockout), es)
    ensures var k := Run(p, Opening(world, lockout), es);
      && k.client.log <= k.truth && |k.truth| <= |k.client.log| + 1
      && (k.client.stage.Prompt? ==> k.client.log == k.truth)
  {
    RunKeeps(p, Opening(world, lockout), es);
  }

  // ---------- What is typed is what is done ----------

  /** The request that a message makes, if it makes one that is answered. */
  function RequestIn(text: string): seq<Command> {
    if Decode(text).Some? && Decode(text) != Some(Exit) then [Decode(text).value] else []
  }

  /** The commands that are typed in the course of the events, the last one to leave aside. */
  function Asked(es: seq<Event>): seq<Command> {
    if es == [] then []
    else
      (if es[0].TypeLine? && ParseLine(es[0].line).Some? && ParseLine(es[0].line) != Some(Exit)
       then [ParseLine(es[0].line).value] else [])
      + Asked(es[1..])
  }

  function Requests(shown: seq<C.Shown>): seq<Command> {
    seq(|shown|, i requires 0 <= i < |shown| => shown[i].request)
  }

  /** What has been asked for and is not done. */
  predicate Pending(k: Config, pending: seq<Command>) {
    match k.client.stage
    case AwaitReply(c) => pending == if k.toClient == [] then [c] else []
    case Over =>
      |pending| <= 1 && (k.server.stage.Serving? && k.toServer != [] ==> pending == RequestIn(k.toServer[0]))
    case _ => pending == []
  }

  lemma RequestsJoin(a: seq<C.Shown>, b: seq<C.Shown>)
    ensures Requests(a + b) == Requests(a) + Requests(b)
  {
  }

  lemma AskedOne(e: Event, es: seq<Event>)
    ensures Asked([e] + es) == Asked([e]) + Asked(es)
  {
    assert ([e] + es)[1..] == es && [e][1..] == [];
  }

  /** The truth that a message adds is about the request in it. */
  lemma TruthIsAsked(before: S.Conn, after: L.World, text: string)
    ensures var truth := Truth(before, after, text);
      truth == [] || (Requests(truth) == RequestIn(text) && |RequestIn(text)| == 1)
    ensures !before.stage.Serving? ==> Truth(before, after, text) == []
  {
  }

  lemma TypingServes(p: Parties, k: Config, line: string)
    requires Rel(p, k) && Enabled(k, TypeLine(line)) && Pending(k, [])
    ensures Pending(Apply(p, k, TypeLine(line)), Asked([TypeLine(line)]))
  {
    CommandRoundTrip(line);
    assert [TypeLine(line)][1..] == [];
  }

  lemma HearingServes(p: Parties, k: Config, pending: seq<Command>) returns (pending': seq<Command>)
    requires Rel(p, k) && Enabled(k, ServerHears) && Pending(k, pending)
    ensures var k' := Apply(p, k, ServerHears);
      Pending(k', pending') && Requests(k'.truth) + pending' == Requests(k.truth) + pending
  {
    var text := k.toServer[0];
    var (server, out) := S.Receive(p.server, k.server, S.Msg(text));
    var truth := Truth(k.server, server.world, text);
    assert k.toServer == [text];
    RequestsJoin(k.truth, truth);
    TruthIsAsked(k.server, server.world, text);
    assert k.truth + [] == k.truth;
    if k.client.stage.AwaitReply? && k.server.stage.Serving? {
      MessageGrammar(text, k.client.stage.request);
      RequestAnswered(p.server, k.server, k.client.stage.request);
    }
    pending' := if truth == [] then pending else [];
  }

  lemma ReplyServes(p: Parties, k: Config, pending: seq<Command>)
    requires Rel(p, k) && Enabled(k, ClientHears) && Pending(k, pending)
    ensures Pending(Apply(p, k, ClientHears), pending) && Apply(p, k, ClientHears).truth == k.truth
  {
    assert k.toClient == [k.toClient[0]] && k.toServer == [];
  }

  /** Nobody types and no message is received. */
  lemma OthersServe(p: Parties, k: Config, e: Event, pending: seq<Command>)
    requires Rel(p, k) && Enabled(k, e) && Pending(k, pending) && !e.TypeLine? && !e.ServerHears? && !e.ClientHears?
    ensures Pending(Apply(p, k, e), pending) && Apply(p, k, e).truth == k.truth
  {
    if e.HangUp? && k.client.stage.AwaitReply? && k.toServer != [] {
      MessageGrammar(Encode(k.client.stage.request), k.client.stage.request);
    }
  }

  lemma StepServes(p: Parties, k: Config, e: Event, pending: seq<Command>) returns (pending': seq<Command>)
    requires Rel(p, k) && Enabled(k, e) && Pending(k, pending)
    ensures var k' := Apply(p, k, e);
      Pending(k', pending') && Requests(k'.truth) + pending' == Requests(k.truth) + pending + Asked([e])
  {
    assert [e][1..] == [];
    match e {
      case TypeLine(line) =>
        TypingServes(p, k, line);
        pending' := Asked([e]);
      case ServerHears => pending' := HearingServes(p, k, pending);
      case ClientHears =>
        ReplyServes(p, k, pending);
        pending' := pending;
      case _ =>
        OthersServe(p, k, e, pending);
        pending' := pending;
    }
    if !e.TypeLine? {
      assert Asked([e]) == [];
      assert Requests(k.truth) + pending + [] == Requests(k.truth) + pending;
    } else {
      assert Requests(k.truth) + [] == Requests(k.truth);
    }
  }

  lemma {:induction false} RunServes(p: Parties, k: Config, es: seq<Event>, pending: seq<Command>)
    returns (pending': seq<Command>)
    requires Rel(p, k) && AllEnabled(p, k, es) && Pending(k, pending)
    ensures var k' := Run(p, k, es);
      Pending(k', pending') && Requests(k'.truth) + pending' == Requests(k.truth) + pending + Asked(es)
    decreases |es|
  {
    if es == [] {
      pending' := pending;
    } else {
      var k1 := Apply(p, k, es[0]);
      var pending1 := StepServes(p, k, es[0], pending);
      StepKeeps(p, k, es[0]);
      pending' := RunServes(p, k1, es[1..], pending1);
      AskedOne(es[0], es[1..]);
      assert [es[0]] + es[1..] == es;
      Regroup(Requests(k.truth) + pending, Asked([es[0]]), Asked(es[1..]));
    }
  }

  /**
   Whatever is typed and whatever happens: the requests that the bank has carried out or refused are, in order, the
   commands typed, but for the last one at most; at the prompt all of them, and the customer has been shown an
   answer to each.
   */
  lemma AskedIsDone(p: Parties, world: L.World, lockout: seq<Lockout.Entry>, es: seq<Event>)
    requires AllEnabled(p, Opening(world, lockout), es)
    ensures var k := Run(p, Opening(world, lockout), es);
      && Requests(k.truth) <= Asked(es) && |Asked(es)| <= |k.truth| + 1
      && (k.client.stage.Prompt? ==> Requests(k.client.log) == Asked(es))
  {
    var pending := RunServes(p, Opening(world, lockout), es, []);
    ShownIsTrue(p, world, lockout, es);
    UpToPending(Requests(Run(p, Opening(world, lockout), es).truth), pending, Asked(es));
  }

  lemma UpToPending(done: seq<Command>, pending: seq<Command>, asked: seq<Command>)
    requires done + pending == Requests([]) + [] + asked
    ensures done <= asked && |asked| == |done| + |pending|
    ensures pending == [] ==> done == asked
  {
    assert Requests([]) + [] + asked == asked;
    assert pending == [] ==> done + pending == done;
  }

  // ---------- Nobody waits for nothing ----------

  predicate Receives(e: Event) {
    e.ClientHears? || e.ClientSeesClose? || e.ServerHears? || e.ServerSeesEof?
  }

  /** Nobody has anything to receive. */
  predicate Quiet(k: Config) {
    !Enabled(k, ClientHears) && !Enabled(k, ClientSeesClose) && !Enabled(k, ServerHears) && !Enabled(k, ServerSeesEof)
  }

  /** When nobody has anything to receive, the client is at its prompt or both sides have ended. */
  lemma NoDeadlock(p: Parties, world: L.World, lockout: seq<Lockout.Entry>, es: seq<Event>)
    requires AllEnabled(p, Opening(world, lockout), es)
    ensures var k := Run(p, Opening(world, lockout), es);
      Quiet(k) ==> k.client.stage.Prompt? || (C.Ended(k.client) && k.server.stage.Gone?)
  {
    RunKeeps(p, Opening(world, lockout), es);
  }

  function ClientRank(st: C.State): nat {
    match st.stage
    case AwaitKey => 6
    case AwaitMacRequest => 5
    case AwaitMac => 4
    case AwaitOk => 3
    case AwaitLogin => 2
    case AwaitReply(_) => 2
    case Prompt => 1
    case Over => 0
    case Adrift => 0
  }

  /** How many receives can at most still happen before somebody types again. */
  function Measure(k: Config): nat {
    3 * ClientRank(k.client) + 2 * |k.toServer| + |k.toClient| + (if k.server.stage.Gone? then 0 else 1)
  }

  lemma ReceiveDescends(p: Parties, k: Config, e: Event)
    requires Enabled(k, e) && Receives(e)
    ensures Measure(Apply(p, k, e)) < Measure(k)
  {
  }

  /** Left to themselves the two sides come to rest: a run of receives is never longer than the measure. */
  lemma {:induction false} ReceivesEnd(p: Parties, k: Config, es: seq<Event>)
    requires AllEnabled(p, k, es) && forall e | e in es :: Receives(e)
    ensures |es| <= Measure(k)
    decreases |es|
  {
    if es != [] {
      ReceiveDescends(p, k, es[0]);
      ReceivesEnd(p, Apply(p, k, es[0]), es[1..]);
    }
  }
}
