/**
 The proxy between client and server. It relays in lockstep: one message from the client to the server, then
 one from the server to the client. Every relayed run is a direct dialogue as seen by the two ends, and every
 direct dialogue can be relayed.
 */
module Relay {
  import opened Wrappers
  import opened Sequences
  import opened Dialogue
  import L = Ledger
  import Lockout
  import C = Client
  import S = Server

  // ---------- The loop ----------

  /** One end as the proxy sees it: what it sends next after all it has received, or that it has closed. */
  type Peer = seq<string> -> Option<string>

  /**
   What has been passed on so far is what the two ends have sent, unchanged and in order: each request after the
   reply to the one before, and each reply after its request.
   */
  predicate Lockstep(client: Peer, server: Peer, toServer: seq<string>, toClient: seq<string>) {
    && |toClient| <= |toServer| <= |toClient| + 1
    && (forall i | 0 <= i < |toServer| :: client(toClient[..i]) == Some(toServer[i]))
    && (forall i | 0 <= i < |toClient| :: server(toServer[..i + 1]) == Some(toClient[i]))
  }

  /** What the relay loop promises of its result: it has stopped early only because an end has closed. */
  predicate RanUntil(client: Peer, server: Peer, turns: nat, toServer: seq<string>, toClient: seq<string>) {
    && Lockstep(client, server, toServer, toClient) && |toClient| <= turns
    && (|toClient| < turns ==>
          if |toServer| == |toClient| then client(toClient).None? else server(toServer).None?)
  }

  lemma Asked(client: Peer, server: Peer, toServer: seq<string>, toClient: seq<string>, request: string)
    requires Lockstep(client, server, toServer, toClient) && |toServer| == |toClient|
    requires client(toClient) == Some(request)
    ensures Lockstep(client, server, toServer + [request], toClient)
  {
    var longer := toServer + [request];
    assert toClient[..|toClient|] == toClient;
    forall i | 0 <= i < |toClient| ensures server(longer[..i + 1]) == Some(toClient[i]) {
      assert longer[..i + 1] == toServer[..i + 1];
    }
  }

  lemma Answered(client: Peer, server: Peer, toServer: seq<string>, toClient: seq<string>, reply: string)
    requires Lockstep(client, server, toServer, toClient) && |toServer| == |toClient| + 1
    requires server(toServer) == Some(reply)
    ensures Lockstep(client, server, toServer, toClient + [reply])
  {
    var longer := toClient + [reply];
    assert toServer[..|toClient| + 1] == toServer;
    forall i | 0 <= i < |toServer| ensures client(longer[..i]) == Some(toServer[i]) {
      assert longer[..i] == toClient[..i];
    }
  }

  /** The relay loop, up to any number of turns. It ends before only if the end it waits for has closed. */
  method ProcessConnection(client: Peer, server: Peer, turns: nat)
    returns (toServer: seq<string>, toClient: seq<string>)
    ensures RanUntil(client, server, turns, toServer, toClient)
  {
    toServer, toClient := [], [];
    while |toClient| < turns
      invariant Lockstep(client, server, toServer, toClient) && |toServer| == |toClient| <= turns
      decreases turns - |toClient|
    {
      var request := client(toClient);
      if request.None? {
        break;
      }
      Asked(client, server, toServer, toClient, request.value);
      toServer := toServer + [request.value];
      var reply := server(toServer);
      if reply.None? {
        break;
      }
      Answered(client, server, toServer, toClient, reply.value);
      toClient := toClient + [reply.value];
    }
  }

  /** The two ends determine all that is passed on: of two relays between them one goes on where the other ends. */
  lemma {:induction false} LockstepDetermined(client: Peer, server: Peer, requests: seq<string>, replies: seq<string>,
                                              toServer: seq<string>, toClient: seq<string>, n: nat)
    requires Lockstep(client, server, requests, replies) && Lockstep(client, server, toServer, toClient)
    requires n <= |requests| <= |toServer| && |replies| <= |toClient|
    ensures requests[..n] == toServer[..n]
    ensures n <= |replies| ==> replies[..n] == toClient[..n]
  {
    if n > 0 {
      LockstepDetermined(client, server, requests, replies, toServer, toClient, n - 1);
      assert requests[..n] == requests[..n - 1] + [requests[n - 1]];
      assert toServer[..n] == toServer[..n - 1] + [toServer[n - 1]];
      if n <= |replies| {
        assert replies[..n] == replies[..n - 1] + [replies[n - 1]];
        assert toClient[..n] == toClient[..n - 1] + [toClient[n - 1]];
      }
    }
  }

  // ---------- The loop between the two ends ----------

  /** Which receive the proxy is in. */
  datatype Stage = AtClient | AtServer | Closed

  datatype Relayed = Relayed(
    client: C.State,
    server: S.Conn,
    truth: seq<C.Shown>,
    stage: Stage,
    c2p: seq<string>,
    p2s: seq<string>,
    s2p: seq<string>,
    p2c: seq<string>)

  datatype Move = End(event: Event) | FromClient | ClientEnded | FromServer | ServerEnded

  predicate CanMove(r: Relayed, m: Move) {
    match m
    case FromClient => r.stage.AtClient? && r.c2p != []
    case ClientEnded => r.stage.AtClient? && r.c2p == [] && r.client.stage.Over?
    case FromServer => r.stage.AtServer? && r.s2p != []
    case ServerEnded => r.stage.AtServer? && r.s2p == [] && r.server.stage.Gone?
    case End(e) =>
      match e
      case TypeLine(_) => r.client.stage.Prompt?
      case ClientHears => C.Waits(r.client) && r.p2c != []
      case ClientSeesClose => C.Waits(r.client) && r.p2c == [] && r.stage.Closed?
      case ServerHears => !r.server.stage.Gone? && r.p2s != []
      case ServerSeesEof => !r.server.stage.Gone? && r.p2s == [] && r.stage.Closed?
      case ServerIdles => !r.server.stage.Gone?
      case HangUp => !r.client.stage.Over?
      case Others(_, _, _) => true
  }

  function AtEnd(p: Parties, r: Relayed, e: Event): Relayed
    requires CanMove(r, End(e))
  {
    match e
    case TypeLine(line) =>
      var (client, out) := C.Step(p.client, r.client, C.Typed(line));
      r.(client := client, c2p := r.c2p + Post(out))
    case ClientHears =>
      var (client, out) := C.Step(p.client, r.client, C.Received(r.p2c[0]));
      r.(client := client, p2c := r.p2c[1..], c2p := r.c2p + Post(out))
    case ClientSeesClose => r.(client := C.Step(p.client, r.client, C.Closed).0)
    case ServerHears =>
      var (server, out) := S.Receive(p.server, r.server, S.Msg(r.p2s[0]));
      r.(server := server, p2s := r.p2s[1..], s2p := r.s2p + Post(out),
         truth := r.truth + Truth(r.server, server.world, r.p2s[0]))
    case ServerSeesEof => r.(server := S.Receive(p.server, r.server, S.Eof).0)
    case ServerIdles => r.(server := S.Receive(p.server, r.server, S.Idle).0)
    case HangUp => r.(client := r.client.(stage := C.Over))
    case Others(files, locks, lockout) =>
      r.(server := r.server.(world := r.server.world.(files := files, locks := locks), lockout := lockout))
  }

  function Make(p: Parties, r: Relayed, m: Move): Relayed
    requires CanMove(r, m)
  {
    match m
    case End(e) => AtEnd(p, r, e)
    case FromClient => r.(stage := AtServer, c2p := r.c2p[1..], p2s := r.p2s + [r.c2p[0]])
    case FromServer => r.(stage := AtClient, s2p := r.s2p[1..], p2c := r.p2c + [r.s2p[0]])
    case _ => r.(stage := Closed)
  }

  predicate CanRun(p: Parties, r: Relayed, ms: seq<Move>)
    decreases |ms|
  {
    ms == [] || (CanMove(r, ms[0]) && CanRun(p, Make(p, r, ms[0]), ms[1..]))
  }

  function RunAll(p: Parties, r: Relayed, ms: seq<Move>): Relayed
    requires CanRun(p, r, ms)
    decreases |ms|
  {
    if ms == [] then r else RunAll(p, Make(p, r, ms[0]), ms[1..])
  }

  function RelayedOpening(world: L.World, lockout: seq<Lockout.Entry>): Relayed {
    var k := Opening(world, lockout);
    Relayed(k.client, k.server, [], AtClient, k.toServer, [], [], [])
  }

  // ---------- What the ends see ----------

  /** The proxy and its four channels taken for a direct connection. */
  function Direct(r: Relayed): Config {
    Config(r.client, r.server, r.p2s + r.c2p, r.p2c + r.s2p, r.truth)
  }

  /** What the ends do in a relayed run. */
  function Events(ms: seq<Move>): seq<Event> {
    if ms == [] then [] else (if ms[0].End? then [ms[0].event] else []) + Events(ms[1..])
  }

  /** Where the one message can be, by what the proxy is waiting for. */
  predicate Placed(r: Relayed) {
    match r.stage
    case AtClient => r.p2s == [] && r.s2p == [] && (C.Waits(r.client) ==> r.c2p != [] || r.p2c != [])
    case AtServer =>
      && r.c2p == [] && r.p2c == [] && !r.client.stage.Prompt? && !r.client.stage.Adrift?
      && (r.p2s == [] && r.s2p == [] ==> r.server.stage.Gone?)
    case Closed =>
      && r.c2p == [] && r.s2p == [] && !r.client.stage.Prompt? && !r.client.stage.Adrift?
      && (r.server.stage.Gone? || (r.client.stage.Over? && r.p2s == []))
      && (C.Waits(r.client) ==> r.p2c == [])
  }

  predicate Sound(p: Parties, r: Relayed) {
    Rel(p, Direct(r)) && Placed(r)
  }

  lemma OpeningIsDirect(p: Parties, world: L.World, lockout: seq<Lockout.Entry>)
    ensures Direct(RelayedOpening(world, lockout)) == Opening(world, lockout)
    ensures Sound(p, RelayedOpening(world, lockout))
  {
    assert Direct(RelayedOpening(world, lockout)) == Opening(world, lockout);
  }

  /** A move of the proxy cannot be told from nothing by the two ends. */
  lemma ProxyMoveIsNothing(p: Parties, r: Relayed, m: Move)
    requires Sound(p, r) && CanMove(r, m) && !m.End?
    ensures Direct(Make(p, r, m)) == Direct(r) && Placed(Make(p, r, m))
  {
    assert |r.p2s + r.c2p| + |r.p2c + r.s2p| <= 1;
    if m.FromClient? {
      assert r.c2p == [r.c2p[0]];
    }
    if m.FromServer? {
      assert r.s2p == [r.s2p[0]];
    }
  }

  /** What stands in the channels: at most one message, so a concatenation is one of its parts. */
  lemma OneMessage(r: Relayed)
    requires |Direct(r).toServer| + |Direct(r).toClient| <= 1
    ensures |r.c2p| + |r.p2s| + |r.s2p| + |r.p2c| <= 1
    ensures r.p2s == [] ==> Direct(r).toServer == r.c2p
    ensures r.c2p == [] ==> Direct(r).toServer == r.p2s
    ensures r.s2p == [] ==> Direct(r).toClient == r.p2c
    ensures r.p2c == [] ==> Direct(r).toClient == r.s2p
  {
  }

  predicate Simulates(p: Parties, r: Relayed, e: Event)
    requires CanMove(r, End(e))
  {
    Enabled(Direct(r), e) && Direct(AtEnd(p, r, e)) == Apply(p, Direct(r), e) && Placed(AtEnd(p, r, e))
  }

  lemma TypeLineIsDirect(p: Parties, r: Relayed, line: string)
    requires Sound(p, r) && CanMove(r, End(TypeLine(line)))
    ensures Simulates(p, r, TypeLine(line))
  {
    OneMessage(r);
    OneMessage(AtEnd(p, r, TypeLine(line)));
  }

  lemma ClientHearsIsDirect(p: Parties, r: Relayed)
    requires Sound(p, r) && CanMove(r, End(ClientHears))
    ensures Simulates(p, r, ClientHears)
  {
    OneMessage(r);
    assert r.p2c == [r.p2c[0]];
    OneMessage(AtEnd(p, r, ClientHears));
  }

  lemma ServerHearsIsDirect(p: Parties, r: Relayed)
    requires Sound(p, r) && CanMove(r, End(ServerHears))
    ensures Simulates(p, r, ServerHears)
  {
    OneMessage(r);
    assert r.p2s == [r.p2s[0]];
    AnsweredOrGone(p.server, r.server, r.p2s[0]);
    OneMessage(AtEnd(p, r, ServerHears));
  }

  lemma OtherIsDirect(p: Parties, r: Relayed, e: Event)
    requires Sound(p, r) && CanMove(r, End(e)) && !e.TypeLine? && !e.ClientHears? && !e.ServerHears?
    ensures Simulates(p, r, e)
  {
    OneMessage(r);
  }

  /** A move of an end is the same step of the direct dialogue. */
  lemma EndMoveIsDirect(p: Parties, r: Relayed, e: Event)
    requires Sound(p, r) && CanMove(r, End(e))
    ensures Simulates(p, r, e)
  {
    match e {
      case TypeLine(line) => TypeLineIsDirect(p, r, line);
      case ClientHears => ClientHearsIsDirect(p, r);
      case ServerHears => ServerHearsIsDirect(p, r);
      case _ => OtherIsDirect(p, r, e);
    }
  }

  lemma MoveIsSound(p: Parties, r: Relayed, m: Move)
    requires Sound(p, r) && CanMove(r, m)
    ensures Sound(p, Make(p, r, m))
  {
    if m.End? {
      EndMoveIsDirect(p, r, m.event);
      StepKeeps(p, Direct(r), m.event);
    } else {
      ProxyMoveIsNothing(p, r, m);
    }
  }

  // ---------- Relayed runs are direct runs ----------

  /** Whatever a relayed run does, its two ends do in a direct dialogue, and end up in the same states. */
  lemma {:induction false} RelayedIsDirect(p: Parties, r: Relayed, ms: seq<Move>)
    requires Sound(p, r) && CanRun(p, r, ms)
    ensures AllEnabled(p, Direct(r), Events(ms))
    ensures Direct(RunAll(p, r, ms)) == Run(p, Direct(r), Events(ms)) && Sound(p, RunAll(p, r, ms))
    decreases |ms|
  {
    if ms != [] {
      MoveIsSound(p, r, ms[0]);
      var r1 := Make(p, r, ms[0]);
      RelayedIsDirect(p, r1, ms[1..]);
      if ms[0].End? {
        EndMoveIsDirect(p, r, ms[0].event);
        assert Events(ms)[0] == ms[0].event && Events(ms)[1..] == Events(ms[1..]);
      } else {
        ProxyMoveIsNothing(p, r, ms[0]);
        assert Events(ms) == Events(ms[1..]);
      }
    }
  }

  /** Through the proxy, too, the customer is shown the truth, up to one reply that is on its way or lost. */
  lemma RelayedShownIsTrue(p: Parties, world: L.World, lockout: seq<Lockout.Entry>, ms: seq<Move>)
    requires CanRun(p, RelayedOpening(world, lockout), ms)
    ensures var r := RunAll(p, RelayedOpening(world, lockout), ms);
      && r.client.log <= r.truth && |r.truth| <= |r.client.log| + 1
      && (r.client.stage.Prompt? ==> r.client.log == r.truth)
  {
    OpeningIsDirect(p, world, lockout);
    RelayedIsDirect(p, RelayedOpening(world, lockout), ms);
  }

  // ---------- Direct runs can be relayed ----------

  /** The moves of the proxy that have to come before `e` can happen at an end. */
  function Before(r: Relayed, e: Event): seq<Move> {
    match e
    case ClientHears => if r.p2c != [] then [] else [FromServer]
    case ServerHears => if r.p2s != [] then [] else [FromClient]
    case ClientSeesClose =>
      (match r.stage case AtClient => [FromClient, ServerEnded] case AtServer => [ServerEnded] case Closed => [])
    case ServerSeesEof =>
      (match r.stage case AtClient => [ClientEnded] case AtServer => [FromServer, ClientEnded] case Closed => [])
    case _ => []
  }

  lemma OneMove(p: Parties, r: Relayed, m: Move)
    requires Sound(p, r) && CanMove(r, m)
    ensures CanRun(p, r, [m]) && RunAll(p, r, [m]) == Make(p, r, m)
  {
    assert [m][1..] == [];
  }

  lemma TwoMoves(p: Parties, r: Relayed, m: Move, m': Move)
    requires Sound(p, r) && CanMove(r, m) && CanMove(Make(p, r, m), m')
    ensures CanRun(p, r, [m, m']) && RunAll(p, r, [m, m']) == Make(p, Make(p, r, m), m')
  {
    MoveIsSound(p, r, m);
    OneMove(p, Make(p, r, m), m');
    assert [m, m'][1..] == [m'];
  }

  /** The proxy can always get out of the way of a step of the direct dialogue. */
  lemma ProxyMakesWay(p: Parties, r: Relayed, e: Event)
    requires Sound(p, r) && Enabled(Direct(r), e)
    ensures CanRun(p, r, Before(r, e)) && CanMove(RunAll(p, r, Before(r, e)), End(e))
    ensures forall m | m in Before(r, e) :: !m.End?
  {
    OneMessage(r);
    var ms := Before(r, e);
    if |ms| == 1 {
      OneMove(p, r, ms[0]);
    } else if |ms| == 2 {
      TwoMoves(p, r, ms[0], ms[1]);
    }
  }

  lemma {:induction false} EventsJoin(ms: seq<Move>, ns: seq<Move>)
    ensures Events(ms + ns) == Events(ms) + Events(ns)
  {
    if ms == [] {
      assert ms + ns == ns;
    } else {
      Shorter(ms, ns);
      EventsJoin(ms[1..], ns);
      Regroup(if ms[0].End? then [ms[0].event] else [], Events(ms[1..]), Events(ns));
    }
  }

  lemma {:induction false} RunsJoin(p: Parties, r: Relayed, ms: seq<Move>, ns: seq<Move>)
    requires CanRun(p, r, ms) && CanRun(p, RunAll(p, r, ms), ns)
    ensures CanRun(p, r, ms + ns) && RunAll(p, r, ms + ns) == RunAll(p, RunAll(p, r, ms), ns)
    decreases |ms|
  {
    if ms == [] {
      assert ms + ns == ns;
    } else {
      Shorter(ms, ns);
      RunsJoin(p, Make(p, r, ms[0]), ms[1..], ns);
    }
  }

  lemma Shorter(ms: seq<Move>, ns: seq<Move>)
    requires ms != []
    ensures (ms + ns)[0] == ms[0] && (ms + ns)[1..] == ms[1..] + ns
  {
  }

  lemma {:induction false} NoEvents(ms: seq<Move>)
    requires forall m | m in ms :: !m.End?
    ensures Events(ms) == []
  {
    if ms != [] {
      assert !ms[0].End?;
      NoEvents(ms[1..]);
    }
  }

  /** One step of the direct dialogue, relayed. */
  lemma StepIsRelayed(p: Parties, r: Relayed, e: Event) returns (ms: seq<Move>)
    requires Sound(p, r) && Enabled(Direct(r), e)
    ensures CanRun(p, r, ms) && Events(ms) == [e]
    ensures Direct(RunAll(p, r, ms)) == Apply(p, Direct(r), e) && Sound(p, RunAll(p, r, ms))
  {
    var before := Before(r, e);
    ms := before + [End(e)];
    ProxyMakesWay(p, r, e);
    NoEvents(before);
    RelayedIsDirect(p, r, before);
    OneMove(p, RunAll(p, r, before), End(e));
    RunsJoin(p, r, before, [End(e)]);
    EventsJoin(before, [End(e)]);
    assert Events([End(e)]) == [e] by { assert [End(e)][1..] == []; }
    assert [] + [e] == [e];
    EndMoveIsDirect(p, RunAll(p, r, before), e);
    MoveIsSound(p, RunAll(p, r, before), End(e));
  }

  /** Whatever happens in a direct dialogue can happen with the proxy in between, with the same end states. */
  lemma {:induction false} DirectIsRelayed(p: Parties, r: Relayed, es: seq<Event>) returns (ms: seq<Move>)
    requires Sound(p, r) && AllEnabled(p, Direct(r), es)
    ensures CanRun(p, r, ms) && Events(ms) == es
    ensures Direct(RunAll(p, r, ms)) == Run(p, Direct(r), es)
    decreases |es|
  {
    if es == [] {
      ms := [];
    } else {
      var first := StepIsRelayed(p, r, es[0]);
      var rest := DirectIsRelayed(p, RunAll(p, r, first), es[1..]);
      ms := first + rest;
      RunsJoin(p, r, first, rest);
      EventsJoin(first, rest);
    }
  }

  // ---------- The proxy adds no deadlock ----------

  predicate Proceeds(m: Move) {
    m.End? ==> Receives(m.event)
  }

  /** Neither end has anything to receive, and neither has the proxy. */
  predicate Still(r: Relayed) {
    && !CanMove(r, FromClient) && !CanMove(r, ClientEnded) && !CanMove(r, FromServer) && !CanMove(r, ServerEnded)
    && !CanMove(r, End(ClientHears)) && !CanMove(r, End(ClientSeesClose))
    && !CanMove(r, End(ServerHears)) && !CanMove(r, End(ServerSeesEof))
  }

  /**
   With the proxy in between, too, all is still only when the client is at its prompt or both ends are done. It
   is only behind a client that has left its connection open that the proxy itself is not done.
   */
  lemma StillIsAtRest(p: Parties, world: L.World, lockout: seq<Lockout.Entry>, ms: seq<Move>)
    requires CanRun(p, RelayedOpening(world, lockout), ms)
    ensures var r := RunAll(p, RelayedOpening(world, lockout), ms);
      && (Still(r) ==> r.client.stage.Prompt? || (C.Ended(r.client) && r.server.stage.Gone?))
      && (Still(r) && C.Ended(r.client) ==> (r.stage.Closed? <==> r.client.stage.Over?))
  {
    OpeningIsDirect(p, world, lockout);
    RelayedIsDirect(p, RelayedOpening(world, lockout), ms);
    var r := RunAll(p, RelayedOpening(world, lockout), ms);
    if Still(r) {
      SoundAtRest(p, r);
    }
  }

  lemma SoundAtRest(p: Parties, r: Relayed)
    requires Sound(p, r) && Still(r)
    ensures r.client.stage.Prompt? || (C.Ended(r.client) && r.server.stage.Gone?)
    ensures C.Ended(r.client) ==> (r.stage.Closed? <==> r.client.stage.Over?)
  {
    OneMessage(r);
  }

  /** How many receives, the proxy's included, can at most still happen before somebody types again. */
  function RelayMeasure(r: Relayed): nat {
    4 * ClientRank(r.client) + 4 * |r.c2p| + 3 * |r.p2s| + 2 * |r.s2p| + |r.p2c|
    + (if r.server.stage.Gone? then 0 else 1) + (if r.stage.Closed? then 0 else 1)
  }

  lemma ProceedingDescends(p: Parties, r: Relayed, m: Move)
    requires CanMove(r, m) && Proceeds(m)
    ensures RelayMeasure(Make(p, r, m)) < RelayMeasure(r)
  {
  }

  /** And the three come to rest: a run of receives is never longer than the measure. */
  lemma {:induction false} ProceedingEnds(p: Parties, r: Relayed, ms: seq<Move>)
    requires CanRun(p, r, ms) && forall m | m in ms :: Proceeds(m)
    ensures |ms| <= RelayMeasure(r)
    decreases |ms|
  {
    if ms != [] {
      assert Proceeds(ms[0]);
      ProceedingDescends(p, r, ms[0]);
      ProceedingEnds(p, Make(p, r, ms[0]), ms[1..]);
    }
  }

  // ---------- The loop is what happens in between ----------

  /** What the proxy receives from the client in a run. */
  function Requests(p: Parties, r: Relayed, ms: seq<Move>): seq<string>
    requires CanRun(p, r, ms)
    decreases |ms|
  {
    if ms == [] then []
    else (if ms[0].FromClient? then [r.c2p[0]] else []) + Requests(p, Make(p, r, ms[0]), ms[1..])
  }

  /** What it receives from the server. */
  function Replies(p: Parties, r: Relayed, ms: seq<Move>): seq<string>
    requires CanRun(p, r, ms)
    decreases |ms|
  {
    if ms == [] then []
    else (if ms[0].FromServer? then [r.s2p[0]] else []) + Replies(p, Make(p, r, ms[0]), ms[1..])
  }

  lemma {:induction false} InLockstep(p: Parties, r: Relayed, ms: seq<Move>)
    requires CanRun(p, r, ms)
    ensures var requests, replies := |Requests(p, r, ms)|, |Replies(p, r, ms)|;
      match r.stage
      case AtClient => replies <= requests <= replies + 1
      case AtServer => requests <= replies <= requests + 1
      case Closed => requests == 0 && replies == 0
    decreases |ms|
  {
    if ms != [] {
      InLockstep(p, Make(p, r, ms[0]), ms[1..]);
    }
  }

  /** The two ends are such as to send what they send in a run. */
  predicate Sends(client: Peer, server: Peer, requests: seq<string>, replies: seq<string>) {
    && (forall i | 0 <= i < |requests| && i <= |replies| :: client(replies[..i]) == Some(requests[i]))
    && (forall i | 0 <= i < |replies| && i < |requests| :: server(requests[..i + 1]) == Some(replies[i]))
  }

  /** Where one relay stands, the end it waits for goes on to send what a longer one has passed on. */
  lemma OtherGoesOn(client: Peer, server: Peer, toServer: seq<string>, toClient: seq<string>,
                    requests: seq<string>, replies: seq<string>)
    requires Lockstep(client, server, toServer, toClient) && Lockstep(client, server, requests, replies)
    requires |toServer| <= |requests| && |toClient| <= |replies|
    ensures |toServer| == |toClient| < |requests| ==> client(toClient) == Some(requests[|toClient|])
    ensures |toServer| == |toClient| + 1 && |toClient| < |replies| ==> server(toServer) == Some(replies[|toClient|])
  {
    LockstepDetermined(client, server, toServer, toClient, requests, replies, |toServer|);
    LockstepDetermined(client, server, toServer, toClient, requests, replies, |toClient|);
    assert toServer[..|toServer|] == toServer && toClient[..|toClient|] == toClient;
  }

  /** A relay that has made enough turns has passed on no less than another between the same ends. */
  lemma EnoughIsPassedOn(client: Peer, server: Peer, turns: nat, requests: seq<string>, replies: seq<string>,
                         toServer: seq<string>, toClient: seq<string>)
    requires Lockstep(client, server, requests, replies) && |requests| <= turns
    requires RanUntil(client, server, turns, toServer, toClient)
    ensures |replies| <= |toClient| && |requests| <= |toServer|
  {
    if |toServer| <= |requests| && |toClient| <= |replies| {
      OtherGoesOn(client, server, toServer, toClient, requests, replies);
    }
  }

  /**
   What the proxy receives in a relayed run it receives in lockstep; so the relay loop between ends that send
   this passes on all of it, in as many turns as there are requests.
   */
  lemma LoopPassesAllOn(p: Parties, world: L.World, lockout: seq<Lockout.Entry>, ms: seq<Move>,
                        client: Peer, server: Peer, turns: nat, toServer: seq<string>, toClient: seq<string>)
    requires CanRun(p, RelayedOpening(world, lockout), ms)
    requires var start := RelayedOpening(world, lockout);
      var requests, replies := Requests(p, start, ms), Replies(p, start, ms);
      Sends(client, server, requests, replies) && |requests| <= turns
    requires RanUntil(client, server, turns, toServer, toClient)
    ensures Requests(p, RelayedOpening(world, lockout), ms) <= toServer
    ensures Replies(p, RelayedOpening(world, lockout), ms) <= toClient
  {
    var start := RelayedOpening(world, lockout);
    var requests, replies := Requests(p, start, ms), Replies(p, start, ms);
    InLockstep(p, start, ms);
    GoesAsFar(client, server, turns, requests, replies, toServer, toClient);
  }

  lemma GoesAsFar(client: Peer, server: Peer, turns: nat, requests: seq<string>, replies: seq<string>,
                  toServer: seq<string>, toClient: seq<string>)
    requires Sends(client, server, requests, replies) && |replies| <= |requests| <= |replies| + 1
    requires RanUntil(client, server, turns, toServer, toClient) && |requests| <= turns
    ensures requests <= toServer && replies <= toClient
  {
    EnoughIsPassedOn(client, server, turns, requests, replies, toServer, toClient);
    LockstepDetermined(client, server, requests, replies, toServer, toClient, |requests|);
    LockstepDetermined(client, server, requests, replies, toServer, toClient, |replies|);
    assert requests[..|requests|] == requests && replies[..|replies|] == replies;
  }
}
