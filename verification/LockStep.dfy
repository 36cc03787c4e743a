/** The invariant that the control protocol rests on and nowhere states: client and server
    move in lock step, so that the state bytes the client drains unread are the ones it assumes. */
module LockStep {
  import opened Wire
  import opened Stats
  import opened Session
  import opened Endpoints
  import opened World

  function N(w: World): nat {
    w.c.test.settings.numStreams
  }

  ghost predicate AllEmpty(pipes: seq<seq<Packet>>) {
    forall i :: 0 <= i < |pipes| ==> pipes[i] == []
  }

  /** Each of the first `limit` pipes holds one cookie or nothing, the others nothing. */
  ghost predicate CookiesOnly(pipes: seq<seq<Packet>>, limit: nat) {
    forall i :: 0 <= i < |pipes| ==> pipes[i] == [] || (i < limit && pipes[i] == [Cookie])
  }

  ghost predicate NoCookie(pipe: seq<Packet>) {
    forall k :: 0 <= k < |pipe| ==> pipe[k].Data?
  }

  ghost predicate DataOnly(pipes: seq<seq<Packet>>) {
    forall i :: 0 <= i < |pipes| ==> NoCookie(pipes[i])
  }

  /** How many pipes hold something. */
  function Unread(pipes: seq<seq<Packet>>): nat {
    if pipes == [] then 0 else Unread(pipes[..|pipes| - 1]) + (if pipes[|pipes| - 1] == [] then 0 else 1)
  }

  lemma {:induction false} UnreadUpdate(pipes: seq<seq<Packet>>, i: nat, p: seq<Packet>)
    requires i < |pipes|
    ensures Unread(pipes[i := p]) + (if pipes[i] == [] then 0 else 1) == Unread(pipes) + (if p == [] then 0 else 1)
  {
    var n := |pipes| - 1;
    if i == n {
      assert pipes[i := p][..n] == pipes[..n];
    } else {
      assert pipes[i := p][..n] == pipes[..n][i := p];
      UnreadUpdate(pipes[..n], i, p);
    }
  }

  lemma {:induction false} UnreadZeroIff(pipes: seq<seq<Packet>>)
    ensures Unread(pipes) == 0 <==> AllEmpty(pipes)
  {
    if pipes != [] {
      UnreadZeroIff(pipes[..|pipes| - 1]);
    }
  }

  /** Stream tables: tokens count up from zero, stream `i` of the server is connection `i` of the client,
      and the backlog holds the connections in between. */
  ghost predicate Tables(w: World)
  {
    var c, s := w.c.test, w.s.test;
    && |w.pipes| == |c.streams| <= N(w)
    && |s.tokens| == |s.streams| == |w.s.peers|
    && (forall i :: 0 <= i < |s.tokens| ==> s.tokens[i] == i && w.s.peers[i] == i)
    && |s.streams| + |w.backlog| == |c.streams|
    && (forall k :: 0 <= k < |w.backlog| ==> w.backlog[k] == |s.streams| + k)
    && (forall i :: 0 <= i < |c.streams| ==> c.streams[i].conn == c.settings.conn)
    && (forall i :: 0 <= i < |s.streams| ==> s.streams[i].conn == c.settings.conn)
  }

  /** What each joint state allows on the control connection, in the loops and in the pipes. */
  ghost predicate Phase(w: World)
  {
    var c, s, n := w.c.test, w.s.test, N(w);
    match s.state
    case Start =>
      && |c.streams| == |s.streams| == 0 && !w.c.busy && w.toClient == []
      && ((c.state.Start? && w.toServer == []) || (c.state.ParamExchange? && w.toServer == [CookieMsg]))
    case ParamExchange =>
      && |c.streams| == |s.streams| == 0 && !w.c.busy
      && ((c.state.ParamExchange? && w.toServer == [] && w.toClient == [Announce(ParamExchange)])
          || (c.state.CreateStreams? && w.toServer == [SettingsMsg(c.settings)] && w.toClient == []))
    case CreateStreams =>
      && w.toServer == [] && AllEmpty(w.pipes) && |s.streams| < n && s.cookieCount == 0
      && ((c.state.CreateStreams? && !w.c.busy && w.toClient == [Announce(CreateStreams)] && |c.streams| == 0)
          || (c.state.CreateStreams? && w.c.busy && w.toClient == [] && |c.streams| == w.c.pos < n)
          || (c.state.TestStart? && !w.c.busy && w.toClient == [] && |c.streams| == n))
    case TestStart =>
      && w.toServer == [] && |c.streams| == |s.streams| == n && s.cookieCount < n
      && ((c.state.TestStart? && !w.c.busy && w.toClient == [Announce(TestStart)]
              && AllEmpty(w.pipes) && s.cookieCount == 0)
          || (c.state.TestStart? && w.c.busy && w.toClient == [] && w.c.pos < n
              && CookiesOnly(w.pipes, w.c.pos) && s.cookieCount + Unread(w.pipes) == w.c.pos)
          || (c.state.TestRunning? && !w.c.busy && !w.c.running && w.toClient == []
              && CookiesOnly(w.pipes, n) && s.cookieCount + Unread(w.pipes) == n))
    case TestRunning =>
      && |c.streams| == |s.streams| == n && !w.c.busy
      && ((c.state.TestRunning? && !w.c.running && w.toServer == [] && w.toClient == [Announce(TestRunning)]
              && AllEmpty(w.pipes))
          || (c.state.TestRunning? && w.c.running && w.toServer == [] && w.toClient == [])
          || (c.state.ExchangeResults? && w.toServer == [Announce(TestEnd)] && w.toClient == []))
    case TestEnd =>
      && |c.streams| == |s.streams| == n && !w.c.busy
      && c.state.ExchangeResults? && w.toServer == [] && w.toClient == [] && w.serverWake
    case ExchangeResults =>
      && |c.streams| == |s.streams| == n && !w.c.busy
      && c.state.ExchangeResults? && w.toServer == [] && w.toClient == [] && w.serverWake
    case End =>
      && |c.streams| == |s.streams| == n && !w.c.busy
      && ((c.state.ExchangeResults? && w.toServer == [] && w.toClient == [ResultsMsg(ResultsOf(s))])
          || (c.state.End? && w.toServer == [Announce(End)] && w.toClient == [] && (w.c.status.Live? ==> w.clientWake)))
    case Wait => false
  }

  /** The facts that depend on one endpoint's state alone. */
  ghost predicate Sides(w: World)
  {
    var c, s := w.c, w.s;
    && c.status != Panicked && s.status != Panicked
    && (c.status.Returned? ==> c.test.state.End?)
    && (s.status.Returned? ==> s.test.state.End?)
    && (c.running ==> c.test.state in {TestRunning, ExchangeResults, End})
    && (c.test.state in {ExchangeResults, End} ==> c.running)
    && (w.serverWake ==> s.test.state in {TestEnd, ExchangeResults, End})
    && (w.clientWake ==> c.test.state.End?)
    && (Before(ParamExchange, s.test.state) ==> s.test.settings == c.test.settings)
    && s.udp == (s.test.state.CreateStreams? && c.test.settings.conn.UDP?)
    && s.quic == (s.test.state.CreateStreams? && c.test.settings.conn.QUIC?)
    && (Before(s.test.state, CreateStreams) ==> s.test.cookieCount == 0)
    && s.ends == (if s.test.state in {ExchangeResults, End} then 1 else 0)
    && c.ends == (if c.test.state in {ExchangeResults, End} then 1 else 0)
    && (Before(TestStart, s.test.state) ==> DataOnly(w.pipes))
  }

  ghost predicate Inv(w: World)
  {
    1 <= N(w) <= 255 && Tables(w) && Phase(w) && Sides(w)
  }

  // ----- every action keeps the invariant

  lemma ClientControlKeepsInv(w: World, readable: bool, writable: bool, wake: bool, closing: nat -> Closing, now: nat)
    requires Inv(w) && Enabled(w, ClientControl(readable, writable, wake, closing, now))
    ensures Inv(ClientControls(w, readable, writable, wake, closing, now))
  {
    if w.s.test.state.TestStart? {
      UnreadZeroIff(w.pipes);
    }
  }

  lemma ClientTurnKeepsInv(w: World, now: nat)
    requires Inv(w) && Enabled(w, ClientTurn(now))
    ensures Inv(ClientTurns(w, now))
  {
    if w.c.test.state.TestStart? {
      UnreadUpdate(w.pipes, w.c.pos, w.pipes[w.c.pos] + [Cookie]);
    }
  }

  lemma ClientSendKeepsInv(w: World, i: nat, a: Attempt)
    requires Inv(w) && Enabled(w, ClientSend(i, a))
    ensures Inv(ClientSends(w, i, a))
  {
  }

  lemma ClientFinishKeepsInv(w: World, closing: nat -> Closing, now: nat)
    requires Inv(w) && Enabled(w, ClientFinish(closing, now))
    ensures Inv(ClientFinishes(w, closing, now))
  {
  }

  lemma ServerSetupKeepsInv(w: World, readable: bool, wake: bool, closing: nat -> Closing, now: nat)
    requires Inv(w) && Enabled(w, ServerControl(readable, wake, closing, now)) && Before(w.s.test.state, CreateStreams)
    ensures Inv(ServerControls(w, readable, wake, closing, now))
  {
    var w' := ServerControls(w, readable, wake, closing, now);
    if w.s.test.state.Start? {
      assert w'.toClient == [Announce(ParamExchange)] && w'.toServer == [];
    } else {
      assert w'.toClient == [Announce(CreateStreams)] && w'.toServer == [];
    }
  }

  lemma ServerToldKeepsInv(w: World, readable: bool, wake: bool, closing: nat -> Closing, now: nat)
    requires Inv(w) && Enabled(w, ServerControl(readable, wake, closing, now)) && w.s.test.state.TestRunning?
    ensures Inv(ServerControls(w, readable, wake, closing, now))
  {
    StateCodes(Code(TestEnd), TestEnd);
  }

  lemma ServerFinishKeepsInv(w: World, readable: bool, wake: bool, closing: nat -> Closing, now: nat)
    requires Inv(w) && Enabled(w, ServerControl(readable, wake, closing, now)) && w.s.test.state.TestEnd?
    ensures Inv(ServerControls(w, readable, wake, closing, now))
  {
    hide CloseAll, Totalled;
  }

  lemma ServerAnswerKeepsInv(w: World, readable: bool, wake: bool, closing: nat -> Closing, now: nat)
    requires Inv(w) && Enabled(w, ServerControl(readable, wake, closing, now)) && w.s.test.state.ExchangeResults?
    ensures Inv(ServerControls(w, readable, wake, closing, now))
  {
    var w' := ServerControls(w, readable, wake, closing, now);
    assert w'.toClient == [ResultsMsg(ResultsOf(w'.s.test))];
  }

  lemma ServerReturnKeepsInv(w: World, readable: bool, wake: bool, closing: nat -> Closing, now: nat)
    requires Inv(w) && Enabled(w, ServerControl(readable, wake, closing, now)) && w.s.test.state.End?
    ensures Inv(ServerControls(w, readable, wake, closing, now))
  {
  }

  lemma ServerControlKeepsInv(w: World, readable: bool, wake: bool, closing: nat -> Closing, now: nat)
    requires Inv(w) && Enabled(w, ServerControl(readable, wake, closing, now))
    ensures Inv(ServerControls(w, readable, wake, closing, now))
  {
    if Before(w.s.test.state, CreateStreams) {
      ServerSetupKeepsInv(w, readable, wake, closing, now);
    } else if w.s.test.state.TestRunning? {
      ServerToldKeepsInv(w, readable, wake, closing, now);
    } else if w.s.test.state.TestEnd? {
      ServerFinishKeepsInv(w, readable, wake, closing, now);
    } else if w.s.test.state.ExchangeResults? {
      ServerAnswerKeepsInv(w, readable, wake, closing, now);
    } else {
      ServerReturnKeepsInv(w, readable, wake, closing, now);
    }
  }

  /** The world once the first connection of the backlog has become a stream. */
  function StreamAccepted(w: World, now: nat): World
    requires w.backlog != []
  {
    var t := w.s.test.(tokens := w.s.test.tokens + [|w.s.test.tokens|],
                       streams := w.s.test.streams + [NewStream(w.s.test.settings.conn, now)]);
    var more := |t.streams| < t.settings.numStreams;
    var s := w.s.(test := if more then t else t.(state := TestStart), peers := w.s.peers + [w.backlog[0]],
                  udp := w.s.udp && more, quic := w.s.quic && more);
    var sent := if more then [] else [Announce(TestStart)];
    w.(s := s, backlog := w.backlog[1..], toClient := w.toClient + sent, serverLog := w.serverLog + sent)
  }

  lemma ListenerEffect(w: World, now: nat)
    requires Inv(w) && Enabled(w, ServerListener(now))
    ensures w.s.test.state.CreateStreams? && w.s.test.settings == w.c.test.settings
    ensures |w.s.test.streams| < |w.c.test.streams| && AllEmpty(w.pipes) && w.s.ends == 0
    ensures ServerListens(w, now) == StreamAccepted(w, now)
  {
  }

  lemma AcceptKeepsInv(w: World, now: nat)
    requires Inv(w) && w.s.test.state.CreateStreams? && w.backlog != []
    ensures Inv(StreamAccepted(w, now))
  {
    UnreadZeroIff(w.pipes);
  }

  lemma ServerListenerKeepsInv(w: World, now: nat)
    requires Inv(w) && Enabled(w, ServerListener(now))
    ensures Inv(ServerListens(w, now))
  {
    ListenerEffect(w, now);
    AcceptKeepsInv(w, now);
  }

  /** The world once the cookie on stream `i` has been drained. */
  function CookieTaken(w: World, i: nat, now: nat): World
    requires i < |w.pipes|
  {
    var t := w.s.test.(cookieCount := w.s.test.cookieCount + 1);
    var drained := w.(pipes := w.pipes[i := []]);
    if t.cookieCount == t.settings.numStreams then
      drained.(s := w.s.(test := StartAll(t.(state := TestRunning), now)),
               toClient := w.toClient + [Announce(TestRunning)], serverLog := w.serverLog + [Announce(TestRunning)])
    else drained.(s := w.s.(test := t))
  }

  lemma DrainsCookie(w: World, i: nat, count: nat, number: nat, now: nat, sample: Sample)
    requires w.s.test.state.TestStart? && w.s.status.Live? && i < |w.s.peers| && w.s.peers[i] == i < |w.pipes|
    requires i < |w.s.test.streams| <= 255 && w.s.test.cookieCount < 255 && count <= |w.pipes[i]|
    ensures ServerReads(w, i, count, number, now, sample) == CookieTaken(w, i, now)
  {
    assert w.toClient + [] == w.toClient && w.serverLog + [] == w.serverLog;
  }

  lemma CookieEffect(w: World, token: nat, count: nat, number: nat, now: nat, sample: Sample)
    requires Inv(w) && Enabled(w, ServerStream(token, count, number, now, sample)) && w.s.test.state.TestStart?
    ensures w.s.peers[token] == token < |w.pipes| == |w.s.test.streams| && w.s.test.settings == w.c.test.settings
    ensures ServerReads(w, token, count, number, now, sample) == CookieTaken(w, token, now)
  {
    DrainsCookie(w, token, count, number, now, sample);
  }

  lemma CookieKeepsInv(w: World, i: nat, now: nat)
    requires Inv(w) && w.s.test.state.TestStart? && w.s.status.Live?
    requires i < |w.pipes| && w.pipes[i] != []
    ensures Inv(CookieTaken(w, i, now))
  {
    UnreadUpdate(w.pipes, i, []);
    UnreadZeroIff(w.pipes[i := []]);
    UnreadZeroIff(w.pipes);
  }

  /** The world once `count` packets of pipe `i` have been read. */
  function Taken(w: World, i: nat, count: nat, r: Receipt): World
    requires i < |w.pipes| && i < |w.s.test.streams| && count <= |w.pipes[i]|
  {
    w.(pipes := w.pipes[i := w.pipes[i][count..]], s := w.s.(test := ReadOne(w.s.test, i, r)))
  }

  function ReceiptOf(w: World, i: nat, count: nat, number: nat, now: nat, sample: Sample): Receipt
    requires i < |w.pipes| && count <= |w.pipes[i]|
  {
    var taken := w.pipes[i][..count];
    Receipt(SizeOf(taken), NumberRead(w.s.test.settings.conn, taken, number), now, sample)
  }

  lemma ReadEffect(w: World, token: nat, count: nat, number: nat, now: nat, sample: Sample)
    requires Inv(w) && Enabled(w, ServerStream(token, count, number, now, sample)) && w.s.test.state.TestRunning?
    ensures w.s.peers[token] == token < |w.s.test.streams| == |w.pipes| && w.s.test.settings == w.c.test.settings
    ensures ServerReads(w, token, count, number, now, sample)
            == Taken(w, token, count, ReceiptOf(w, token, count, number, now, sample))
  {
    OneRead(w.s.test, token, ReceiptOf(w, token, count, number, now, sample));
    assert w.toClient + [] == w.toClient && w.serverLog + [] == w.serverLog;
  }

  lemma TakenKeepsInv(w: World, i: nat, count: nat, r: Receipt)
    requires Inv(w) && w.s.test.state.TestRunning? && i < |w.pipes| && 0 < count <= |w.pipes[i]|
    ensures Inv(Taken(w, i, count, r))
  {
  }

  lemma ServerStreamKeepsInv(w: World, token: nat, count: nat, number: nat, now: nat, sample: Sample)
    requires Inv(w) && Enabled(w, ServerStream(token, count, number, now, sample))
    ensures Inv(ServerReads(w, token, count, number, now, sample))
  {
    if w.s.test.state.TestStart? {
      CookieEffect(w, token, count, number, now, sample);
      CookieKeepsInv(w, token, now);
    } else {
      ReadEffect(w, token, count, number, now, sample);
      TakenKeepsInv(w, token, count, ReceiptOf(w, token, count, number, now, sample));
    }
  }

  lemma LoseKeepsInv(w: World, i: nat, k: nat)
    requires Inv(w) && Enabled(w, Lose(i, k))
    ensures Inv(Loses(w, i, k))
  {
  }

  lemma StepKeepsInv(w: World, a: Action)
    requires Inv(w)
    ensures Inv(Next(w, a))
  {
    if Enabled(w, a) {
      match a
      case ClientControl(readable, writable, wake, closing, now) =>
        ClientControlKeepsInv(w, readable, writable, wake, closing, now);
      case ClientTurn(now) => ClientTurnKeepsInv(w, now);
      case ClientSend(i, b) => ClientSendKeepsInv(w, i, b);
      case ClientFinish(closing, now) => ClientFinishKeepsInv(w, closing, now);
      case ServerControl(readable, wake, closing, now) => ServerControlKeepsInv(w, readable, wake, closing, now);
      case ServerListener(now) => ServerListenerKeepsInv(w, now);
      case ServerStream(token, count, number, now, sample) =>
        ServerStreamKeepsInv(w, token, count, number, now, sample);
      case Lose(i, k) => LoseKeepsInv(w, i, k);
    }
  }

  lemma {:induction false} ReachableInv(settings: Settings, local: Settings, budget: nat, run: seq<Action>)
    requires 1 <= settings.numStreams <= 255
    ensures Inv(Exec(Init(settings, local, budget), run))
  {
    if run != [] {
      ReachableInv(settings, local, budget, run[..|run| - 1]);
      StepKeepsInv(Exec(Init(settings, local, budget), run[..|run| - 1]), run[|run| - 1]);
    }
  }

  // ----- what the invariant gives
  //
  // Where a theorem about all runs follows from `ReachableInv`, `{:induction false}` says that no
  // induction over the run is meant.

  /** Lock step: a state byte the client is about to drain unread is its own state, no side ever has two messages
      to read at once, until the end of the test the client is where the server is or one state ahead,
      and it loops over its streams only with the server in the same state and nothing left unread. */
  ghost predicate InStep(w: World)
  {
    var c, s := w.c.test.state, w.s.test.state;
    && (w.toClient != [] && c in {ParamExchange, CreateStreams, TestStart, TestRunning} ==> w.toClient == [Announce(c)])
    && |w.toClient| <= 1 && |w.toServer| <= 1
    && (Code(c) <= Code(TestRunning) ==> Code(s) <= Code(c) <= Code(s) + 1)
    && (w.c.busy ==> s == c && w.toClient == [])
  }

  /** Every run in which the client's handlers fire only when a message is there stays in lock step. */
  lemma AlwaysInStep(settings: Settings, local: Settings, budget: nat, run: seq<Action>)
    requires 1 <= settings.numStreams <= 255
    ensures InStep(Exec(Init(settings, local, budget), run))
  {
    ReachableInv(settings, local, budget, run);
  }

  /** The assumption is needed at every point of the handshake. The three handlers that do not look at the
      event answer a writable-only one as well, and that breaks lock step in every reachable state. */
  lemma HandlerNeedsMessageIff(w: World, readable: bool, writable: bool, closing: nat -> Closing, now: nat)
    requires Inv(w) && w.c.status.Live? && !w.c.busy
    requires w.c.test.state in {ParamExchange, CreateStreams, TestStart}
    requires readable ==> w.toClient != []
    ensures InStep(ClientControls(w, readable, writable, false, closing, now)) <==> readable
  {
    if readable {
      ClientControlKeepsInv(w, readable, writable, false, closing, now);
    }
  }

  /** Such a run: the client's first event is writable, as a new connection is, and so is its second, which the
      handler for `ParamExchange` answers although the server has not said anything yet. */
  lemma WritableOnlyBreaks(settings: Settings, local: Settings, budget: nat)
    ensures var w := Exec(Init(settings, local, budget), [ClientControl(false, true, false, NO_CLOSING, 0)]);
            && w.c.test.state.ParamExchange? && w.toClient == [] && InStep(w)
            && !InStep(ClientControls(w, false, true, false, NO_CLOSING, 0))
  {
    var first := [ClientControl(false, true, false, NO_CLOSING, 0)];
    assert first[..0] == [] && Exec(Init(settings, local, budget), first[..0]) == Init(settings, local, budget);
    var w := Exec(Init(settings, local, budget), first);
    assert w.toServer == [CookieMsg];
    assert ClientControls(w, false, true, false, NO_CLOSING, 0).toServer == [CookieMsg, SettingsMsg(settings)];
  }

  /** No run makes an endpoint panic: no settings fail to parse, no state byte is unknown, no listener or
      connection to be unwrapped is missing, no stream index is out of range, and there are never too many streams. */
  lemma NoPanic(settings: Settings, local: Settings, budget: nat, run: seq<Action>)
    requires 1 <= settings.numStreams <= 255
    ensures var w := Exec(Init(settings, local, budget), run);
            !w.c.status.Panicked? && !w.s.status.Panicked?
  {
    ReachableInv(settings, local, budget, run);
  }

  /** Stream tables are sound: the server's streams, tokens and connections are numbered alike, no token
      is taken for the control connection or a listener, and stream `i` is the client's stream `i`. */
  lemma {:induction false} TablesSound(settings: Settings, local: Settings, budget: nat, run: seq<Action>)
    requires 1 <= settings.numStreams <= 255
    ensures var s := Exec(Init(settings, local, budget), run).s;
            && |s.test.tokens| == |s.test.streams| == |s.peers| <= settings.numStreams
            && forall i :: 0 <= i < |s.test.tokens| ==> s.test.tokens[i] == s.peers[i] == i < CONTROL
  {
    ReachableInv(settings, local, budget, run);
    RunKeepsSettings(settings, local, budget, run);
  }

  /** A UDP or QUIC listener is pending exactly while the server is creating streams and some are missing. */
  lemma ListenerHandedOver(settings: Settings, local: Settings, budget: nat, run: seq<Action>)
    requires 1 <= settings.numStreams <= 255
    ensures var s := Exec(Init(settings, local, budget), run).s;
            && (s.udp <==> settings.conn.UDP? && s.test.state.CreateStreams?)
            && (s.quic <==> settings.conn.QUIC? && s.test.state.CreateStreams?)
            && (s.test.state.CreateStreams? ==> |s.test.streams| < settings.numStreams)
            && (Before(CreateStreams, s.test.state) ==> |s.test.streams| == settings.numStreams)
  {
    ReachableInv(settings, local, budget, run);
    RunKeepsSettings(settings, local, budget, run);
  }

  /** Handshake and measured data never mix: while cookies are drained there is no data to lose,
      and while data is counted there is no cookie left. */
  lemma {:induction false} CookiesAndDataApart(settings: Settings, local: Settings, budget: nat, run: seq<Action>)
    requires 1 <= settings.numStreams <= 255
    ensures var w := Exec(Init(settings, local, budget), run);
            && (w.s.test.state.CreateStreams? ==> AllEmpty(w.pipes))
            && (w.s.test.state.TestStart? ==> CookiesOnly(w.pipes, |w.pipes|))
            && (Before(TestStart, w.s.test.state) ==> DataOnly(w.pipes))
  {
    ReachableInv(settings, local, budget, run);
  }

  /** The client never meets a control message while it is running, so it leaves only through
      its last state; the states `TestEnd` and `Wait` stay unused where the code has them unused. */
  lemma {:induction false} RunningMeetsNoMessage(settings: Settings, local: Settings, budget: nat, run: seq<Action>)
    requires 1 <= settings.numStreams <= 255
    ensures var w := Exec(Init(settings, local, budget), run);
            && (w.c.test.state.TestRunning? && w.c.running ==> w.toClient == [])
            && (w.c.status.Returned? ==> w.c.test.state.End?) && (w.s.status.Returned? ==> w.s.test.state.End?)
            && !w.c.test.state.TestEnd? && !w.c.test.state.Wait? && !w.s.test.state.Wait?
  {
    ReachableInv(settings, local, budget, run);
  }

  lemma ServerControlGrows(w: World, readable: bool, wake: bool, closing: nat -> Closing, now: nat)
    requires Inv(w) && Enabled(w, ServerControl(readable, wake, closing, now))
    ensures Code(w.s.test.state) <= Code(ServerControls(w, readable, wake, closing, now).s.test.state)
  {
    StateCodes(Code(TestEnd), TestEnd);
  }

  lemma ServerStreamGrows(w: World, token: nat, count: nat, number: nat, now: nat, sample: Sample)
    requires Inv(w) && Enabled(w, ServerStream(token, count, number, now, sample))
    ensures Code(w.s.test.state) <= Code(ServerReads(w, token, count, number, now, sample).s.test.state)
  {
    if w.s.test.state.TestStart? {
      CookieEffect(w, token, count, number, now, sample);
    }
  }

  lemma ClientStepGrows(w: World, a: Action)
    requires Inv(w) && Enabled(w, a)
    ensures Code(w.c.test.state) <= Code(Step(w, a).c.test.state)
  {
    assert ClientOk(w.c);
    match a
    case ClientControl(readable, writable, wake, closing, now) =>
      ClientStepForward(w.c, Control(readable, writable, Got(w.toClient), closing, now));
    case ClientTurn(now) => ClientStepForward(w.c, LoopTurn(now));
    case ClientSend(i, b) => ClientStepForward(w.c, Send(i, b));
    case ClientFinish(closing, now) => ClientStepForward(w.c, Conclude(closing, now));
    case _ =>
  }

  lemma ServerStepGrows(w: World, a: Action)
    requires Inv(w) && Enabled(w, a)
    ensures Code(w.s.test.state) <= Code(Step(w, a).s.test.state)
  {
    match a
    case ServerControl(readable, wake, closing, now) => ServerControlGrows(w, readable, wake, closing, now);
    case ServerListener(now) => ListenerEffect(w, now);
    case ServerStream(token, count, number, now, sample) => ServerStreamGrows(w, token, count, number, now, sample);
    case _ =>
  }

  /** Neither side's state in `w'` is before the one in `w`. */
  predicate Forward(w: World, w': World)
  {
    Code(w.c.test.state) <= Code(w'.c.test.state) && Code(w.s.test.state) <= Code(w'.s.test.state)
  }

  lemma StepForward(w: World, a: Action)
    requires Inv(w)
    ensures Forward(w, Next(w, a))
  {
    if Enabled(w, a) {
      ClientStepGrows(w, a);
      ServerStepGrows(w, a);
    }
  }

  /** Neither side's state ever goes back: from any point of a run on, states only grow. */
  lemma {:induction false} StatesOnlyGrow(settings: Settings, local: Settings, budget: nat, run: seq<Action>, k: nat)
    requires 1 <= settings.numStreams <= 255 && k <= |run|
    ensures Forward(Exec(Init(settings, local, budget), run[..k]), Exec(Init(settings, local, budget), run))
    decreases |run|
  {
    if k == |run| {
      assert run[..k] == run;
    } else {
      var init := run[..|run| - 1];
      assert init[..k] == run[..k];
      StatesOnlyGrow(settings, local, budget, init, k);
      ReachableInv(settings, local, budget, init);
      StepForward(Exec(Init(settings, local, budget), init), run[|run| - 1]);
    }
  }

  lemma StepKeepsSettings(w: World, a: Action)
    ensures Next(w, a).c.test.settings == w.c.test.settings
  {
    match a
    case ClientControl(readable, writable, wake, closing, now) =>
      ClientStepKeepsSettings(w.c, Control(readable, writable, Got(w.toClient), closing, now));
    case ClientTurn(now) => ClientStepKeepsSettings(w.c, LoopTurn(now));
    case ClientSend(i, b) => ClientStepKeepsSettings(w.c, Send(i, b));
    case ClientFinish(closing, now) => ClientStepKeepsSettings(w.c, Conclude(closing, now));
    case _ =>
  }

  lemma {:induction false} RunKeepsSettings(settings: Settings, local: Settings, budget: nat, run: seq<Action>)
    ensures Exec(Init(settings, local, budget), run).c.test.settings == settings
  {
    if run != [] {
      RunKeepsSettings(settings, local, budget, run[..|run| - 1]);
      StepKeepsSettings(Exec(Init(settings, local, budget), run[..|run| - 1]), run[|run| - 1]);
    }
  }
}
