/** Client, server and the network between them: every interleaving of single event deliveries.

    A step is one handler call of one side, except that the client's connect and cookie loops advance one
    stream per step and its send loop one write per step, so that the server can run in between. */
module World {
  import opened Wire
  import opened Stats
  import opened Session
  import opened Endpoints

  /** What travels on a stream. On a byte stream a data packet is a single byte, so that a
      read may end anywhere; on UDP it is a datagram with its number. */
  datatype Packet = Cookie | Data(size: nat, number: nat)

  /** `toServer` and `toClient` hold what is unread on the control connection, the logs everything ever written to it.
      `pipes[i]` holds what is unread on the client's stream `i`, `backlog` the connections not yet accepted,
      and `budget` bounds the writes still to come. */
  datatype World = World(
    c: ClientView, s: ServerView,
    toServer: seq<Message>, toClient: seq<Message>, clientLog: seq<Message>, serverLog: seq<Message>,
    clientWake: bool, serverWake: bool,
    backlog: seq<nat>, pipes: seq<seq<Packet>>, budget: nat)

  function Init(settings: Settings, local: Settings, budget: nat): World
  {
    World(NewClient(settings), NewServer(local), [], [], [], [], false, false, [], [], budget)
  }

  datatype Action =
    | ClientControl(readable: bool, writable: bool, wake: bool, closing: nat -> Closing, now: nat)
    | ClientTurn(now: nat)
    | ClientSend(i: nat, a: Attempt)
    | ClientFinish(closing: nat -> Closing, now: nat)
    | ServerControl(readable: bool, wake: bool, closing: nat -> Closing, now: nat)
    | ServerListener(now: nat)
    | ServerStream(token: nat, count: nat, number: nat, now: nat, sample: Sample)
    | Lose(i: nat, k: nat)

  const COOKIE_SIZE := 32

  function PacketSize(p: Packet): nat {
    match p
    case Cookie => COOKIE_SIZE
    case Data(size, _) => size
  }

  function SizeOf(ps: seq<Packet>): nat {
    if ps == [] then 0 else SizeOf(ps[..|ps| - 1]) + PacketSize(ps[|ps| - 1])
  }

  /** The packets of one successful write of `n` bytes. */
  function Packets(conn: Conn, n: nat, number: nat): seq<Packet> {
    if conn.UDP? then [Data(n, number)] else seq(n, _ => Data(1, 0))
  }

  function ListenerToken(conn: Conn): nat {
    match conn
    case TCP => TCP_LISTENER
    case UDP => UDP_LISTENER
    case QUIC => QUIC_LISTENER
    case TLS => TLS_LISTENER
  }

  function ServerEventOf(token: nat, readable: bool, inbox: seq<Message>, incoming: Option<nat>,
                         received: seq<Receipt>, closing: nat -> Closing, now: nat): ServerEvent {
    ServerEvent(token, readable, Got(inbox), incoming, CookieRead, received, closing, now)
  }

  const NO_CLOSING: nat -> Closing := _ => Closing(Sample(0, 0, 0), 0, 0)

  // ----- steps

  function ClientControls(w: World, readable: bool, writable: bool, wake: bool, closing: nat -> Closing,
                          now: nat): World
  {
    var r := ClientStep(w.c, Control(readable, writable, Got(w.toClient), closing, now));
    w.(c := r.side, toServer := w.toServer + r.sent, clientLog := w.clientLog + r.sent,
       toClient := if r.drained then [] else w.toClient,
       clientWake := (w.clientWake && !wake) || r.woke)
  }

  /** A connect adds a connection to the backlog and a pipe; a cookie goes into the pipe of its stream. */
  function ClientTurns(w: World, now: nat): World
  {
    var c := ClientStep(w.c, LoopTurn(now)).side;
    if w.c.test.state.CreateStreams? then
      w.(c := c, backlog := w.backlog + [|w.c.test.streams|], pipes := w.pipes + [[]])
    else if w.c.pos < |w.pipes| then
      w.(c := c, pipes := w.pipes[w.c.pos := w.pipes[w.c.pos] + [Cookie]])
    else w.(c := c)
  }

  function ClientSends(w: World, i: nat, a: Attempt): World
    requires i < |w.pipes| && i < |w.c.test.streams| && a.res.Wrote? && w.budget > 0
  {
    var sent := Packets(w.c.test.settings.conn, a.res.n, w.c.test.streams[i].data.blks + 1);
    w.(c := ClientStep(w.c, Send(i, a)).side, pipes := w.pipes[i := w.pipes[i] + sent], budget := w.budget - 1)
  }

  function ClientFinishes(w: World, closing: nat -> Closing, now: nat): World
  {
    var r := ClientStep(w.c, Conclude(closing, now));
    w.(c := r.side, toServer := w.toServer + r.sent, clientLog := w.clientLog + r.sent)
  }

  function ServerReacts(w: World, r: Reaction<ServerView>): World
  {
    w.(s := r.side, toClient := w.toClient + r.sent, serverLog := w.serverLog + r.sent,
       toServer := if r.drained then [] else w.toServer,
       serverWake := w.serverWake || r.woke)
  }

  function ServerControls(w: World, readable: bool, wake: bool, closing: nat -> Closing, now: nat): World
  {
    var e := ServerEventOf(CONTROL, readable, w.toServer, None, [], closing, now);
    ServerReacts(w.(serverWake := w.serverWake && !wake), ServerStep(w.s, e))
  }

  function ServerListens(w: World, now: nat): World
    requires w.backlog != []
  {
    var e := ServerEventOf(ListenerToken(w.s.test.settings.conn), true, w.toServer, Some(w.backlog[0]), [],
                           NO_CLOSING, now);
    ServerReacts(w.(backlog := w.backlog[1..]), ServerStep(w.s, e))
  }

  /** The number a receipt reads from the front of `taken`; on a byte stream it is arbitrary. */
  function NumberRead(conn: Conn, taken: seq<Packet>, number: nat): nat
  {
    if conn.UDP? && |taken| > 0 && taken[0].Data? then taken[0].number else number
  }

  /** A stream event. A cookie is drained with everything else that is there; a read takes `count` packets. */
  function ServerReads(w: World, token: nat, count: nat, number: nat, now: nat, sample: Sample): World
    requires token < |w.s.peers| && w.s.peers[token] < |w.pipes|
    requires count <= |w.pipes[w.s.peers[token]]|
  {
    var p := w.s.peers[token];
    var running := w.s.test.state.TestRunning?;
    var taken := w.pipes[p][..count];
    var first := NumberRead(w.s.test.settings.conn, taken, number);
    var rs := if running then [Receipt(SizeOf(taken), first, now, sample)] else [];
    var e := ServerEventOf(token, true, w.toServer, None, rs, NO_CLOSING, now);
    ServerReacts(w.(pipes := w.pipes[p := if running then w.pipes[p][count..] else []]), ServerStep(w.s, e))
  }

  function Loses(w: World, i: nat, k: nat): World
    requires i < |w.pipes| && k < |w.pipes[i]|
  {
    w.(pipes := w.pipes[i := w.pipes[i][..k] + w.pipes[i][k + 1..]])
  }

  /** When an action can happen. The first case carries the assumption on the client's control connection: in the states
      where the handler does not look at the event, it comes with a message. Events that change nothing are left out. */
  predicate Enabled(w: World, a: Action)
  {
    match a
    case ClientControl(readable, writable, wake, closing, now) =>
      && w.c.status.Live? && !w.c.busy
      && (wake ==> w.clientWake)
      && (readable && !wake ==> w.toClient != [])
      && (w.c.test.state.Start? ==> writable)
      && (w.c.test.state.End? ==> readable || writable)
      && (!w.c.test.state.Start? && !w.c.test.state.End? ==> readable && w.toClient != [])
    case ClientTurn(now) =>
      w.c.status.Live? && w.c.busy
    case ClientSend(i, a) =>
      && w.c.status.Live? && Sending(w.c)
      && i < |w.pipes| && i < |w.c.test.streams| && w.budget > 0
      && TurnOf(w.c.test, i, a).Sent? && a.res.n <= w.c.test.settings.length
    case ClientFinish(closing, now) =>
      w.c.status.Live? && Sending(w.c) && Over(w.c.test, Since(now, w.c.test.start))
    case ServerControl(readable, wake, closing, now) =>
      && w.s.status.Live?
      && (wake ==> w.serverWake && readable)
      && (readable && !wake ==> w.toServer != [])
      && (!readable ==> w.s.test.state in {TestEnd, ExchangeResults, End})
      && !w.s.test.state.CreateStreams? && !w.s.test.state.TestStart?
    case ServerListener(now) =>
      w.s.status.Live? && w.backlog != []
    case ServerStream(token, count, number, now, sample) =>
      && w.s.status.Live? && token in w.s.test.tokens
      && token < |w.s.peers| && w.s.peers[token] < |w.pipes|
      && !Before(TestRunning, w.s.test.state)
      && 0 < count <= |w.pipes[w.s.peers[token]]|
      && (w.s.test.settings.conn.UDP? ==> count == 1)
    case Lose(i, k) =>
      && w.c.test.settings.conn.UDP?
      && i < |w.pipes| && k < |w.pipes[i]| && w.pipes[i][k].Data?
  }

  function Step(w: World, a: Action): World
    requires Enabled(w, a)
  {
    match a
    case ClientControl(readable, writable, wake, closing, now) =>
      ClientControls(w, readable, writable, wake, closing, now)
    case ClientTurn(now) => ClientTurns(w, now)
    case ClientSend(i, a) => ClientSends(w, i, a)
    case ClientFinish(closing, now) => ClientFinishes(w, closing, now)
    case ServerControl(readable, wake, closing, now) => ServerControls(w, readable, wake, closing, now)
    case ServerListener(now) => ServerListens(w, now)
    case ServerStream(token, count, number, now, sample) => ServerReads(w, token, count, number, now, sample)
    case Lose(i, k) => Loses(w, i, k)
  }

  function Next(w: World, a: Action): World
  {
    if Enabled(w, a) then Step(w, a) else w
  }

  function Exec(w: World, run: seq<Action>): World
  {
    if run == [] then w else Next(Exec(w, run[..|run| - 1]), run[|run| - 1])
  }

  /** Every action of the run can happen when its turn comes. */
  ghost predicate Valid(w: World, run: seq<Action>)
  {
    forall k :: 0 <= k < |run| ==> Enabled(Exec(w, run[..k]), run[k])
  }
}
