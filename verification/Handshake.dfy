/** What it takes to get from the greeting to the client's prompt. */
module Handshake {
  import opened Wrappers
  import opened Sequences
  import opened Text
  import opened Commands
  import opened Dialogue
  import L = Ledger
  import Lockout
  import Mac
  import C = Client
  import S = Server

  predicate ServerTrusted(p: Parties) {
    Mac.Accepts(p.client.hmac, p.client.trusted, p.server.mac)
  }

  predicate ClientTrusted(p: Parties) {
    Mac.Accepts(p.server.hmac, p.server.trusted, p.client.mac)
  }

  /** The name and PIN the customer typed have the form the server looks for. */
  predicate LoginWellformed(p: Parties) {
    IsName(p.client.act) && IsPin(p.client.pin)
  }

  /** The name and PIN the server reads out of the client's login message. */
  function LoginSent(p: Parties): (string, int) {
    S.LoginOf(EncodeLogin(p.client.act, p.client.pin))
  }

  /** Who trusts whom, and the note a server makes when it lets the client in. */
  datatype Basis = Basis(serverTrusted: bool, clientTrusted: bool, login: S.Note)

  function BasisOf(p: Parties): Basis {
    Basis(ServerTrusted(p), ClientTrusted(p), S.LetIn(LoginSent(p).0, LoginSent(p).1))
  }

  /** The customer is in, or is about to be told so. */
  predicate Inside(k: Config) {
    || k.client.stage.Prompt?
    || k.client.stage.AwaitReply?
    || (k.client.stage.AwaitLogin? && k.toClient == ["SUCCESS."])
    || (k.server.stage.Serving? && !k.client.stage.Over?)
  }

  predicate PastMac(st: C.State) {
    st.stage.AwaitOk? || st.stage.AwaitLogin? || st.stage.Prompt? || st.stage.AwaitReply?
  }

  /** What each stage says about who has trusted whom. */
  predicate Founded(p: Parties, basis: Basis, k: Config) {
    && (k.client.stage.AwaitMac? && k.toClient != [] ==> k.toClient == [p.server.mac])
    && (k.client.stage.AwaitLogin? && k.toClient != [] ==> k.toClient == ["SUCCESS."] || k.toClient == ["FAILURE."])
    && (PastMac(k.client) ==> basis.serverTrusted)
    && (k.server.stage.AwaitOk? || k.server.stage.AwaitLogin? ==> k.client.stage.Over? || basis.clientTrusted)
    && (Inside(k) ==> basis.clientTrusted && basis.login in k.server.log)
  }

  lemma LoginAnswered(p: Parties, k: S.Conn)
    requires k.stage.AwaitLogin?
    ensures var k' := S.Receive(p.server, k, S.Msg(EncodeLogin(p.client.act, p.client.pin))).0;
      k'.stage.Serving? ==> S.LetIn(LoginSent(p).0, LoginSent(p).1) in k'.log
  {
    var note := S.LetIn(LoginSent(p).0, LoginSent(p).1);
    assert (k.log + [note])[|k.log|] == note;
  }

  lemma LogGrows(cfg: S.Setup, k: S.Conn, input: S.Input)
    ensures k.log <= S.Receive(cfg, k, input).0.log
  {
  }

  lemma MacDecides(cfg: S.Setup, k: S.Conn, text: string)
    ensures k.stage.AwaitMac? ==>
              (S.Receive(cfg, k, S.Msg(text)).0.stage.AwaitOk? <==> Mac.Accepts(cfg.hmac, cfg.trusted, text))
  {
  }

  /** One message on its way to a server that is there. */
  predicate Underway(p: Parties, basis: Basis, k: Config) {
    Matched(p, k) && Founded(p, basis, k) && !k.server.stage.Gone? && |k.toServer| == 1 && k.toClient == []
  }

  /** A request heard. */
  lemma RequestFounds(p: Parties, basis: Basis, k: Config, server: S.Conn, reply: seq<string>, truth: seq<C.Shown>)
    requires Underway(p, basis, k) && k.server.stage.Serving?
    requires server.stage.Serving? || server.stage.Gone?
    requires k.server.log <= server.log
    ensures Founded(p, basis, Config(k.client, server, [], reply, truth))
  {
  }

  /** A login message heard. */
  lemma LoginFounds(p: Parties, basis: Basis, k: Config, server: S.Conn, out: Option<string>, truth: seq<C.Shown>)
    requires Underway(p, basis, k) && k.server.stage.AwaitLogin?
    requires Fits(p.server, S.AwaitLogin, k.toServer[0], server.stage, out)
    requires k.toServer[0] == EncodeLogin(p.client.act, p.client.pin) && server.stage.Serving? ==>
               basis.login in server.log
    ensures Founded(p, basis, Config(k.client, server, [], Post(out), truth))
  {
    assert "SUCCESS."[0] != "FAILURE."[0];
    assert k.toServer == [k.toServer[0]];
  }

  /** A message of the handshake heard. */
  lemma EarlyFounds(p: Parties, basis: Basis, k: Config, server: S.Conn, out: Option<string>, truth: seq<C.Shown>)
    requires Underway(p, basis, k) && !k.server.stage.Serving? && !k.server.stage.AwaitLogin?
    requires Fits(p.server, k.server.stage, k.toServer[0], server.stage, out)
    requires k.server.stage.AwaitMac? && server.stage.AwaitOk? && k.toServer[0] == p.client.mac ==> basis.clientTrusted
    ensures Founded(p, basis, Config(k.client, server, [], Post(out), truth))
  {
    assert k.toServer == [k.toServer[0]];
  }

  lemma ServerHearsFounds(p: Parties, basis: Basis, k: Config)
    requires basis == BasisOf(p) && Matched(p, k) && Founded(p, basis, k) && Enabled(k, ServerHears)
    ensures Founded(p, basis, Apply(p, k, ServerHears))
  {
    var text := k.toServer[0];
    var (server, out) := S.Receive(p.server, k.server, S.Msg(text));
    var truth := k.truth + Truth(k.server, server.world, text);
    assert k.toServer[1..] == [] && k.toClient == [] && [] + Post(out) == Post(out);
    LogGrows(p.server, k.server, S.Msg(text));
    if k.server.stage.Serving? {
      AnsweredOrGone(p.server, k.server, text);
      RequestFounds(p, basis, k, server, Post(out), truth);
    } else {
      HandshakeAnswered(p.server, k.server, text);
      if k.server.stage.AwaitLogin? {
        LoginAnswered(p, k.server);
        LoginFounds(p, basis, k, server, out, truth);
      } else {
        MacDecides(p.server, k.server, text);
        EarlyFounds(p, basis, k, server, out, truth);
      }
    }
  }

  /** Where a message takes a waiting client. */
  predicate Advances(p: Parties, serverTrusted: bool, stage: C.Stage, text: string, after: C.Stage) {
    match stage
    case AwaitKey => after.AwaitMacRequest?
    case AwaitMacRequest => after.AwaitMac? || after.Over?
    case AwaitMac => after.Over? || (after.AwaitOk? && (text == p.server.mac ==> serverTrusted))
    case AwaitOk => after.AwaitLogin? || after.Adrift?
    case AwaitLogin => after.Adrift? || (after.Prompt? && text != "FAILURE.")
    case AwaitReply(_) => after.Prompt?
    case _ => false
  }

  lemma ClientAdvances(p: Parties, st: C.State, text: string)
    requires C.Waits(st)
    ensures Advances(p, ServerTrusted(p), st.stage, text, C.Step(p.client, st, C.Received(text)).0.stage)
  {
  }

  /** A reply heard. */
  lemma ReplyFounds(p: Parties, basis: Basis, k: Config, client: C.State, requests: seq<string>)
    requires Matched(p, k) && Founded(p, basis, k) && k.toServer == [] && |k.toClient| == 1 && C.Waits(k.client)
    requires Advances(p, basis.serverTrusted, k.client.stage, k.toClient[0], client.stage)
    ensures Founded(p, basis, Config(client, k.server, requests, [], k.truth))
  {
    assert k.toClient == [k.toClient[0]];
    assert "SUCCESS."[0] != "FAILURE."[0];
  }

  lemma ClientHearsFounds(p: Parties, basis: Basis, k: Config)
    requires basis == BasisOf(p) && Matched(p, k) && Founded(p, basis, k) && Enabled(k, ClientHears)
    ensures Founded(p, basis, Apply(p, k, ClientHears))
  {
    var (client, out) := C.Step(p.client, k.client, C.Received(k.toClient[0]));
    ClientAdvances(p, k.client, k.toClient[0]);
    ReplyFounds(p, basis, k, client, Post(out));
    assert [] + Post(out) == Post(out) && k.toClient[1..] == [] && k.toServer == [];
  }

  lemma TypeLineFounds(p: Parties, basis: Basis, k: Config, line: string)
    requires Matched(p, k) && Founded(p, basis, k) && Enabled(k, TypeLine(line))
    ensures Founded(p, basis, Apply(p, k, TypeLine(line)))
  {
  }

  lemma ServerEndsFounds(p: Parties, basis: Basis, k: Config, e: Event)
    requires Matched(p, k) && Founded(p, basis, k) && Enabled(k, e) && (e.ServerSeesEof? || e.ServerIdles?)
    ensures Founded(p, basis, Apply(p, k, e))
  {
    LogGrows(p.server, k.server, if e.ServerSeesEof? then S.Eof else S.Idle);
  }

  lemma StepFounds(p: Parties, basis: Basis, k: Config, e: Event)
    requires basis == BasisOf(p) && Matched(p, k) && Founded(p, basis, k) && Enabled(k, e)
    ensures Founded(p, basis, Apply(p, k, e))
  {
    match e {
      case ServerHears => ServerHearsFounds(p, basis, k);
      case ClientHears => ClientHearsFounds(p, basis, k);
      case TypeLine(line) => TypeLineFounds(p, basis, k, line);
      case ServerSeesEof => ServerEndsFounds(p, basis, k, e);
      case ServerIdles => ServerEndsFounds(p, basis, k, e);
      case _ =>
    }
  }

  lemma {:induction false} RunFounds(p: Parties, basis: Basis, k: Config, es: seq<Event>)
    requires basis == BasisOf(p) && Rel(p, k) && Founded(p, basis, k) && AllEnabled(p, k, es)
    ensures Founded(p, basis, Run(p, k, es))
    decreases |es|
  {
    if es != [] {
      StepKeeps(p, k, es[0]);
      StepFounds(p, basis, k, es[0]);
      RunFounds(p, basis, Apply(p, k, es[0]), es[1..]);
    }
  }

  /**
   In every dialogue: a client at its prompt or waiting for a reply trusts the server, the server has trusted
   the client and has let in just the name and PIN that were typed; the login message is on its way only when
   each side has accepted the other's keyed message.
   */
  lemma PromptIsEarned(p: Parties, world: L.World, lockout: seq<Lockout.Entry>, es: seq<Event>)
    requires AllEnabled(p, Opening(world, lockout), es)
    ensures var k := Run(p, Opening(world, lockout), es);
      && (k.client.stage.Prompt? || k.client.stage.AwaitReply? ==>
            ServerTrusted(p) && ClientTrusted(p) && S.LetIn(LoginSent(p).0, LoginSent(p).1) in k.server.log)
      && (k.client.stage.AwaitLogin? && k.server.stage.AwaitLogin? ==> ServerTrusted(p) && ClientTrusted(p))
      && (LoginWellformed(p) ==> LoginSent(p) == (p.client.act, Atoi(p.client.pin)))
  {
    RunFounds(p, BasisOf(p), Opening(world, lockout), es);
    LoginGrammar(EncodeLogin(p.client.act, p.client.pin), p.client.act, p.client.pin);
  }

  // ---------- And it is enough ----------

  /** A request heard and its reply heard. */
  function Round(p: Parties, k: Config): (r: Option<Config>) {
    if !Enabled(k, ServerHears) then None
    else
      var k1 := Apply(p, k, ServerHears);
      if !Enabled(k1, ClientHears) then None else Some(Apply(p, k1, ClientHears))
  }

  function Rounds(n: nat): seq<Event> {
    if n == 0 then [] else [ServerHears, ClientHears] + Rounds(n - 1)
  }

  lemma RoundRuns(p: Parties, k: Config, n: nat)
    requires n > 0 && Round(p, k).Some? && AllEnabled(p, Round(p, k).value, Rounds(n - 1))
    ensures AllEnabled(p, k, Rounds(n)) && Run(p, k, Rounds(n)) == Run(p, Round(p, k).value, Rounds(n - 1))
  {
    var es := Rounds(n);
    assert es[0] == ServerHears && es[1..][0] == ClientHears && es[1..][1..] == Rounds(n - 1);
    assert AllEnabled(p, Apply(p, k, ServerHears), es[1..]);
  }

  function Between(client: C.Stage, server: S.Conn, request: string): Config {
    Config(C.State(client, []), server, [request], [], [])
  }

  lemma ServerTurn(p: Parties, st: C.State, s: S.Conn, request: string, s': S.Conn, reply: string)
    requires !s.stage.Gone? && !s.stage.Serving?
    requires S.Receive(p.server, s, S.Msg(request)) == (s', Some(reply))
    ensures Apply(p, Config(st, s, [request], [], []), ServerHears) == Config(st, s', [], [reply], [])
  {
    assert [] + [reply] == [reply];
  }

  lemma ClientTurn(p: Parties, st: C.State, s: S.Conn, reply: string, st': C.State, next: Option<string>)
    requires C.Waits(st)
    requires C.Step(p.client, st, C.Received(reply)) == (st', next)
    ensures Apply(p, Config(st, s, [], [reply], []), ClientHears) == Config(st', s, Post(next), [], [])
  {
    assert [] + Post(next) == Post(next);
  }

  /** The client in a stage of the handshake, when it has shown nothing yet. */
  function At(stage: C.Stage): C.State {
    C.State(stage, [])
  }

  lemma OneRound(p: Parties, st: C.State, s: S.Conn, request: string,
                 reply: string, st': C.State, s': S.Conn, next: Option<string>)
    requires !s.stage.Gone? && !s.stage.Serving? && C.Waits(st)
    requires S.Receive(p.server, s, S.Msg(request)) == (s', Some(reply))
    requires C.Step(p.client, st, C.Received(reply)) == (st', next)
    ensures Round(p, Config(st, s, [request], [], [])) == Some(Config(st', s', Post(next), [], []))
  {
    ServerTurn(p, st, s, request, s', reply);
    ClientTurn(p, st, s', reply, st', next);
  }

  /** Everything that has to be so for the login to be granted. */
  predicate Welcome(p: Parties, world: L.World, lockout: seq<Lockout.Entry>) {
    && LoginWellformed(p) && ServerTrusted(p) && ClientTrusted(p)
    && Lockout.Login(lockout, p.client.act).1
    && L.LockAct(world, p.client.act, Atoi(p.client.pin)).1
  }

  /** Client and server after a login that succeeded. */
  function Admitted(p: Parties, world: L.World, lockout: seq<Lockout.Entry>, log: seq<S.Note>): Config {
    var act, pin := p.client.act, Atoi(p.client.pin);
    var server := S.Conn(S.Serving, act, pin, L.LockAct(world, act, pin).0, Lockout.Login(lockout, act).0,
                         log + [S.LetIn(act, pin)]);
    Config(C.State(C.Prompt, []), server, [], [], [])
  }

  lemma ServerAdmits(p: Parties, k: S.Conn)
    requires Welcome(p, k.world, k.lockout) && k.stage.AwaitLogin?
    ensures S.Receive(p.server, k, S.Msg(EncodeLogin(p.client.act, p.client.pin)))
            == (Admitted(p, k.world, k.lockout, k.log).server, Some("SUCCESS."))
  {
    LoginGrammar(EncodeLogin(p.client.act, p.client.pin), p.client.act, p.client.pin);
  }

  lemma ClientEnters(p: Parties)
    ensures C.Step(p.client, C.State(C.AwaitLogin, []), C.Received("SUCCESS.")) == (C.State(C.Prompt, []), None)
  {
    assert "SUCCESS."[0] != "FAILURE."[0];
  }

  lemma LoginRound(p: Parties, s: S.Conn)
    requires Welcome(p, s.world, s.lockout) && s.stage.AwaitLogin?
    ensures Round(p, Between(C.AwaitLogin, s, EncodeLogin(p.client.act, p.client.pin)))
            == Some(Admitted(p, s.world, s.lockout, s.log))
  {
    ServerAdmits(p, s);
    ClientEnters(p);
    OneRound(p, At(C.AwaitLogin), s, EncodeLogin(p.client.act, p.client.pin), "SUCCESS.",
             At(C.Prompt), Admitted(p, s.world, s.lockout, s.log).server, None);
  }

  lemma ServerTakesMac(p: Parties, k: S.Conn)
    requires ClientTrusted(p) && k.stage.AwaitMac?
    ensures S.Receive(p.server, k, S.Msg(p.client.mac))
            == (k.(stage := S.AwaitOk, log := k.log + [S.MacAccepted(p.client.mac)]), Some(p.server.mac))
  {
  }

  lemma ClientTakesMac(p: Parties)
    requires ServerTrusted(p)
    ensures C.Step(p.client, At(C.AwaitMac), C.Received(p.server.mac)) == (At(C.AwaitOk), Some("OK."))
  {
  }

  lemma GreetingRounds(p: Parties, s: S.Conn)
    requires s.stage.AwaitHello?
    ensures var k1 := Between(C.AwaitMacRequest, s.(stage := S.AwaitKey), p.client.pubKey);
      && Round(p, Between(C.AwaitKey, s, C.HELLO)) == Some(k1)
      && Round(p, k1) == Some(Between(C.AwaitMac, s.(stage := S.AwaitMac), p.client.mac))
  {
    var s1, s2 := s.(stage := S.AwaitKey), s.(stage := S.AwaitMac);
    OneRound(p, At(C.AwaitKey), s, C.HELLO, p.server.pubKey, At(C.AwaitMacRequest), s1, Some(p.client.pubKey));
    OneRound(p, At(C.AwaitMacRequest), s1, p.client.pubKey, "MAC.", At(C.AwaitMac), s2, Some(p.client.mac));
  }

  lemma MacRound(p: Parties, s: S.Conn)
    requires ServerTrusted(p) && ClientTrusted(p) && s.stage.AwaitMac?
    ensures var s' := s.(stage := S.AwaitOk, log := s.log + [S.MacAccepted(p.client.mac)]);
      Round(p, Between(C.AwaitMac, s, p.client.mac)) == Some(Between(C.AwaitOk, s', "OK."))
  {
    ServerTakesMac(p, s);
    ClientTakesMac(p);
    var s' := s.(stage := S.AwaitOk, log := s.log + [S.MacAccepted(p.client.mac)]);
    OneRound(p, At(C.AwaitMac), s, p.client.mac, p.server.mac, At(C.AwaitOk), s', Some("OK."));
  }

  lemma OkRound(p: Parties, s: S.Conn)
    requires s.stage.AwaitOk?
    ensures Round(p, Between(C.AwaitOk, s, "OK.")) ==
            Some(Between(C.AwaitLogin, s.(stage := S.AwaitLogin), EncodeLogin(p.client.act, p.client.pin)))
  {
    var login := EncodeLogin(p.client.act, p.client.pin);
    OneRound(p, At(C.AwaitOk), s, "OK.", "OK.", At(C.AwaitLogin), s.(stage := S.AwaitLogin), Some(login));
  }

  /** `n` rounds lead from `k` to the prompt. */
  predicate LeadsIn(p: Parties, k: Config, n: nat, s: S.Conn, log: seq<S.Note>) {
    AllEnabled(p, k, Rounds(n)) && Run(p, k, Rounds(n)) == Admitted(p, s.world, s.lockout, log)
  }

  lemma FromLogin(p: Parties, s: S.Conn)
    requires Welcome(p, s.world, s.lockout) && s.stage.AwaitLogin?
    ensures LeadsIn(p, Between(C.AwaitLogin, s, EncodeLogin(p.client.act, p.client.pin)), 1, s, s.log)
  {
    LoginRound(p, s);
    RoundRuns(p, Between(C.AwaitLogin, s, EncodeLogin(p.client.act, p.client.pin)), 1);
  }

  lemma FromOk(p: Parties, s: S.Conn)
    requires Welcome(p, s.world, s.lockout) && s.stage.AwaitOk?
    ensures LeadsIn(p, Between(C.AwaitOk, s, "OK."), 2, s, s.log)
  {
    OkRound(p, s);
    FromLogin(p, s.(stage := S.AwaitLogin));
    RoundRuns(p, Between(C.AwaitOk, s, "OK."), 2);
  }

  lemma FromMac(p: Parties, s: S.Conn)
    requires Welcome(p, s.world, s.lockout) && s.stage.AwaitMac?
    ensures LeadsIn(p, Between(C.AwaitMac, s, p.client.mac), 3, s, s.log + [S.MacAccepted(p.client.mac)])
  {
    MacRound(p, s);
    FromOk(p, s.(stage := S.AwaitOk, log := s.log + [S.MacAccepted(p.client.mac)]));
    RoundRuns(p, Between(C.AwaitMac, s, p.client.mac), 3);
  }

  lemma FromHello(p: Parties, s: S.Conn)
    requires Welcome(p, s.world, s.lockout) && s.stage.AwaitHello?
    ensures LeadsIn(p, Between(C.AwaitKey, s, C.HELLO), 5, s, s.log + [S.MacAccepted(p.client.mac)])
  {
    GreetingRounds(p, s);
    FromMac(p, s.(stage := S.AwaitMac));
    RoundRuns(p, Between(C.AwaitMacRequest, s.(stage := S.AwaitKey), p.client.pubKey), 4);
    RoundRuns(p, Between(C.AwaitKey, s, C.HELLO), 5);
  }

  /** Two sides that trust each other get to the prompt in five rounds if the counter and the bank let them. */
  lemma HandshakeSucceeds(p: Parties, world: L.World, lockout: seq<Lockout.Entry>)
    requires Welcome(p, world, lockout)
    ensures AllEnabled(p, Opening(world, lockout), Rounds(5))
    ensures Run(p, Opening(world, lockout), Rounds(5)) == Admitted(p, world, lockout, [S.MacAccepted(p.client.mac)])
  {
    FromHello(p, Opening(world, lockout).server);
    assert [] + [S.MacAccepted(p.client.mac)] == [S.MacAccepted(p.client.mac)];
  }
}
