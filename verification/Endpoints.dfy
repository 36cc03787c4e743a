/** How each endpoint answers one event (`ServerImpl::run` in src/server.rs, `ClientImpl::run` in
    src/client.rs), as functions, and what holds of an endpoint whatever its peer does. */
module Endpoints {
  import opened Wire
  import opened Stats
  import opened Session

  /** The payloads the two sides write on the control connection. Only a state is one byte long. */
  datatype Message = CookieMsg | SettingsMsg(settings: Settings) | StateMsg(code: byte) | ResultsMsg(results: Results)

  function Announce(s: TestState): Message {
    StateMsg(Code(s))
  }

  /** What `drain_message` gives on the control connection: an error, everything unread,
      or a panic on bytes that are not UTF-8. */
  datatype Inbox = Lost | Got(msgs: seq<Message>) | Unreadable

  /** How reading a cookie goes on a stream. */
  datatype CookieOutcome = CookieRead | CookieFailed | CookieUnreadable

  datatype Status = Live | Returned | Panicked

  /** The endpoint after an event, what it wrote on the control connection,
      whether it emptied its side of it, and whether it woke itself. */
  datatype Reaction<T> = Reaction(side: T, sent: seq<Message>, drained: bool, woke: bool)

  function Quiet<T>(side: T): Reaction<T> {
    Reaction(side, [], false, false)
  }

  predicate Before(s: TestState, t: TestState) {
    Code(s) < Code(t)
  }

  // ----- server

  const CONTROL := 1024
  const TCP_LISTENER := 1025
  const UDP_LISTENER := 1026
  const QUIC_LISTENER := 1027
  const TLS_LISTENER := 1028

  /** `udp` and `quic`: a pending listener is there to be taken. `peers[i]` is the connection behind
      stream `i`, and `ends` counts the calls of `Test::end`; both are kept for the record only. */
  datatype ServerView = ServerView(
    test: TestView, udp: bool, quic: bool, peers: seq<nat>, status: Status, ends: nat)

  function NewServer(settings: Settings): ServerView {
    ServerView(NewTest(settings), false, false, [], Live, 0)
  }

  /** One event of the server's poll, with what the sockets would give if it is handled:
      the control inbox, a waiting connection, a cookie, and the successful reads. */
  datatype ServerEvent = ServerEvent(
    token: nat, readable: bool, inbox: Inbox, incoming: Option<nat>, cookie: CookieOutcome, received: seq<Receipt>,
    closing: nat -> Closing, now: nat)

  function Panics(s: ServerView): Reaction<ServerView> {
    Quiet(s.(status := Panicked))
  }

  function InState(s: ServerView, state: TestState): ServerView {
    s.(test := s.test.(state := state))
  }

  function ServerEnds(s: ServerView, closing: nat -> Closing, now: nat): ServerView {
    s.(test := EndAll(s.test, closing, now), ends := s.ends + 1)
  }

  function OnControl(s: ServerView, e: ServerEvent): Reaction<ServerView>
  {
    match s.test.state
    case Start =>
      if !e.readable then Quiet(s)
      else if e.inbox.Unreadable? then Panics(s)
      else if e.inbox.Lost? then Quiet(s.(status := Returned))
      else Reaction(InState(s, ParamExchange), [Announce(ParamExchange)], true, false)
    case ParamExchange =>
      if !e.readable then Quiet(s)
      else if e.inbox.Unreadable? then Panics(s)
      else if e.inbox.Lost? then Quiet(s.(status := Returned))
      else if |e.inbox.msgs| == 1 && e.inbox.msgs[0].SettingsMsg? then
        var st := e.inbox.msgs[0].settings;
        var told := s.(test := s.test.(settings := st, state := CreateStreams),
                       udp := st.conn.UDP? || s.udp, quic := st.conn.QUIC? || s.quic);
        Reaction(told, [Announce(CreateStreams)], true, false)
      else Reaction(s.(status := Panicked), [], true, false)
    case CreateStreams => Quiet(s)
    case TestStart => Quiet(s)
    case TestRunning =>
      if !e.readable then Quiet(s)
      else if e.inbox.Unreadable? then Panics(s)
      else if e.inbox.Lost? then Reaction(InState(ServerEnds(s, e.closing, e.now), End), [], false, true)
      else if |e.inbox.msgs| == 1 && e.inbox.msgs[0].StateMsg? then
        match FromCode(e.inbox.msgs[0].code)
        case Some(state) => Reaction(InState(s, state), [], true, true)
        case None => Reaction(s.(status := Panicked), [], true, false)
      else Reaction(InState(ServerEnds(s, e.closing, e.now), End), [], true, true)
    case TestEnd => Reaction(InState(ServerEnds(s, e.closing, e.now), ExchangeResults), [], false, true)
    case Wait => Quiet(s)
    case ExchangeResults => Reaction(InState(s, End), [ResultsMsg(ResultsOf(s.test))], false, false)
    case End => Quiet(s.(status := Returned))
  }

  /** The tail shared by the listener arms once a stream has been pushed. */
  function Accepted(s: ServerView): Reaction<ServerView>
  {
    if |s.test.streams| > s.test.settings.numStreams then Panics(s)
    else if |s.test.streams| == s.test.settings.numStreams then
      Reaction(InState(s, TestStart), [Announce(TestStart)], false, false)
    else Quiet(s)
  }

  /** The server with one more stream, whose token is its place in the table. */
  function Joined(s: ServerView, e: ServerEvent, conn: Conn): ServerView
    requires e.incoming.Some?
  {
    s.(test := s.test.(tokens := s.test.tokens + [|s.test.tokens|],
                       streams := s.test.streams + [NewStream(conn, e.now)]),
       peers := s.peers + [e.incoming.value])
  }

  /** A listener event; `conn` says which listener. UDP and QUIC take the pending listener to be the
      new stream and put a fresh one in its place while streams are still missing. */
  function OnListener(s: ServerView, e: ServerEvent, conn: Conn): Reaction<ServerView>
  {
    var consumes := conn.UDP? || conn.QUIC?;
    if !s.test.state.CreateStreams? || (consumes && !e.readable) then Quiet(s)
    else if e.incoming.None? || (conn.UDP? && !s.udp) || (conn.QUIC? && !s.quic) then Panics(s)
    else
      var joined := Joined(s, e, conn);
      var again := |joined.test.streams| < s.test.settings.numStreams;
      Accepted(joined.(udp := if conn.UDP? then again else s.udp, quic := if conn.QUIC? then again else s.quic))
  }

  function OnStream(s: ServerView, e: ServerEvent): Reaction<ServerView>
  {
    match s.test.state
    case TestRunning =>
      if !e.readable then Quiet(s)
      else if e.token >= |s.test.streams| then Panics(s)
      else Quiet(s.(test := ReadAll(s.test, e.token, e.received)))
    case TestStart =>
      if !e.readable then Quiet(s)
      else if e.token >= |s.test.streams| then Panics(s)
      else if e.cookie.CookieUnreadable? || (e.cookie.CookieFailed? && s.test.settings.conn.QUIC?) then Panics(s)
      else if e.cookie.CookieFailed? then Quiet(s.(status := Returned))
      else
        var counted := s.(test := s.test.(cookieCount := (s.test.cookieCount + 1) % 256));
        if counted.test.cookieCount == s.test.settings.numStreams then
          Reaction(counted.(test := StartAll(counted.test.(state := TestRunning), e.now)),
                   [Announce(TestRunning)], false, false)
        else Quiet(counted)
    case Start => Quiet(s)
    case ParamExchange => Quiet(s)
    case CreateStreams => Quiet(s)
    case TestEnd => Quiet(s)
    case Wait => Quiet(s)
    case ExchangeResults => Quiet(s)
    case End => Quiet(s)
  }

  function ServerStep(s: ServerView, e: ServerEvent): Reaction<ServerView>
  {
    if !s.status.Live? then Quiet(s)
    else if e.token == CONTROL then OnControl(s, e)
    else if e.token == TCP_LISTENER then OnListener(s, e, TCP)
    else if e.token == UDP_LISTENER then OnListener(s, e, UDP)
    else if e.token == QUIC_LISTENER then OnListener(s, e, QUIC)
    else if e.token == TLS_LISTENER then OnListener(s, e, TLS)
    else OnStream(s, e)
  }

  function ServerRun(s: ServerView, es: seq<ServerEvent>): ServerView
  {
    if es == [] then s else ServerStep(ServerRun(s, es[..|es| - 1]), es[|es| - 1]).side
  }

  /** What the server keeps whatever the client sends. */
  predicate ServerOk(s: ServerView) {
    s.ends == 0 || (s.ends == 1 && s.test.state in {ExchangeResults, End})
  }

  lemma ServerStepKeepsOk(s: ServerView, e: ServerEvent)
    requires ServerOk(s)
    ensures ServerOk(ServerStep(s, e).side)
  {
    hide EndAll, StartAll, ReadAll, ResultsOf;
  }

  lemma {:induction false} ServerRunKeepsOk(s: ServerView, es: seq<ServerEvent>)
    requires ServerOk(s)
    ensures ServerOk(ServerRun(s, es))
  {
    hide ServerStep;
    if es != [] {
      ServerRunKeepsOk(s, es[..|es| - 1]);
      ServerStepKeepsOk(ServerRun(s, es[..|es| - 1]), es[|es| - 1]);
    }
  }

  /** Whatever arrives on the control connection and in whatever order events come, the server
      finalises its test at most once, and once it has, it only answers and leaves. */
  lemma ServerFinalisesOnce(settings: Settings, es: seq<ServerEvent>)
    ensures ServerOk(ServerRun(NewServer(settings), es))
  {
    ServerRunKeepsOk(NewServer(settings), es);
  }

  // ----- client

  /** `busy` and `pos`: the client is inside one of its loops over the streams, at turn `pos`. */
  datatype ClientView = ClientView(
    test: TestView, running: bool, busy: bool, pos: nat, status: Status, ends: nat)

  function NewClient(settings: Settings): ClientView {
    ClientView(NewTest(settings), false, false, 0, Live, 0)
  }

  datatype ClientEvent =
    | Control(readable: bool, writable: bool, inbox: Inbox, closing: nat -> Closing, now: nat)
    | LoopTurn(now: nat)
    | Send(i: nat, a: Attempt)
    | Conclude(closing: nat -> Closing, now: nat)

  function Go(c: ClientView, state: TestState): ClientView {
    c.(test := c.test.(state := state))
  }

  function ClientEnds(c: ClientView, closing: nat -> Closing, now: nat): ClientView {
    c.(test := EndAll(c.test, closing, now), ends := c.ends + 1)
  }

  /** Enters a loop of `turns` turns, at the end of which the client moves on to `next`. */
  function Loop(c: ClientView, turns: nat, next: TestState): ClientView {
    if turns == 0 then Go(c, next) else c.(busy := true, pos := 0)
  }

  /** A drain that gives nothing: an error is returned, and what is not UTF-8 panics. */
  function Dropped(c: ClientView, inbox: Inbox): Reaction<ClientView> {
    Quiet(c.(status := if inbox.Lost? then Returned else Panicked))
  }

  function OnClientControl(c: ClientView, readable: bool, writable: bool, inbox: Inbox, closing: nat -> Closing,
                           now: nat)
    : Reaction<ClientView>
  {
    match c.test.state
    case Start =>
      if writable then Reaction(Go(c, ParamExchange), [CookieMsg], false, false) else Quiet(c)
    case ParamExchange =>
      if readable && !inbox.Got? then Dropped(c, inbox)
      else Reaction(Go(c, CreateStreams), [SettingsMsg(c.test.settings)], readable, false)
    case CreateStreams =>
      if readable && !inbox.Got? then Dropped(c, inbox)
      else Reaction(Loop(c, c.test.settings.numStreams, TestStart), [], readable, false)
    case TestStart =>
      if readable && !inbox.Got? then Dropped(c, inbox)
      else Reaction(Loop(c, |c.test.streams|, TestRunning), [], readable, false)
    case TestRunning =>
      if !readable then Quiet(c)
      else if c.running then Quiet(ClientEnds(c, closing, now).(status := Returned))
      else if !inbox.Got? then Dropped(c, inbox)
      else Reaction(c.(running := true, test := StartAll(c.test, now)), [], true, false)
    case ExchangeResults =>
      if !readable || inbox.Lost? then Quiet(c)
      else if inbox.Unreadable? then Dropped(c, inbox)
      else
        var decodes := |inbox.msgs| == 1 && inbox.msgs[0].ResultsMsg?;
        var read := if decodes then c.(test := Adopt(c.test, inbox.msgs[0].results)) else c;
        Reaction(Go(read, End), [Announce(End)], true, true)
    case End => Quiet(c.(status := Returned))
    case TestEnd => OnUnexpected(c, readable, inbox)
    case Wait => OnUnexpected(c, readable, inbox)
  }

  function OnUnexpected(c: ClientView, readable: bool, inbox: Inbox): Reaction<ClientView>
  {
    if !readable then Quiet(c)
    else if !inbox.Got? then Dropped(c, inbox)
    else if inbox.msgs != [] && inbox.msgs[0].StateMsg? && FromCode(inbox.msgs[0].code).Some? then
      Reaction(Go(c, FromCode(inbox.msgs[0].code).value), [], true, false)
    else Reaction(c.(status := Panicked), [], true, false)
  }

  /** One turn of the connect loop or of the cookie loop. */
  function OnTurn(c: ClientView, now: nat): ClientView
  {
    var next := c.(pos := c.pos + 1);
    if c.test.state.CreateStreams? then
      var connected := next.(test := c.test.(streams := c.test.streams + [NewStream(c.test.settings.conn, now)]));
      if next.pos >= c.test.settings.numStreams then Go(connected, TestStart).(busy := false) else connected
    else
      if next.pos >= |c.test.streams| then Go(next, TestRunning).(busy := false) else next
  }

  /** The client handles one event at a time: nothing is delivered inside a loop, and stream
      events only come once the streams are registered, which is when `running` is set. */
  function ClientStep(c: ClientView, e: ClientEvent): Reaction<ClientView>
  {
    if !c.status.Live? then Quiet(c)
    else
      match e
      case Control(readable, writable, inbox, closing, now) =>
        if c.busy then Quiet(c) else OnClientControl(c, readable, writable, inbox, closing, now)
      case LoopTurn(now) =>
        if c.busy then Quiet(OnTurn(c, now)) else Quiet(c)
      case Send(i, a) =>
        if Sending(c) && i < |c.test.streams| then Quiet(c.(test := WriteOne(c.test, i, a))) else Quiet(c)
      case Conclude(closing, now) =>
        if Sending(c) then Reaction(Go(ClientEnds(c, closing, now), ExchangeResults), [Announce(TestEnd)], false, false)
        else Quiet(c)
  }

  predicate Sending(c: ClientView) {
    !c.busy && c.test.state.TestRunning? && c.running
  }

  function ClientRun(c: ClientView, es: seq<ClientEvent>): ClientView
  {
    if es == [] then c else ClientStep(ClientRun(c, es[..|es| - 1]), es[|es| - 1]).side
  }

  lemma ClientStepKeepsSettings(c: ClientView, e: ClientEvent)
    ensures ClientStep(c, e).side.test.settings == c.test.settings
  {
  }

  /** What the client keeps whatever the server sends. */
  predicate ClientOk(c: ClientView)
  {
    && (c.ends == 0 || (c.ends == 1 && (c.status.Returned? || c.test.state in {ExchangeResults, End})))
    && !c.test.state.TestEnd? && !c.test.state.Wait?
    && (c.busy ==> c.test.state in {CreateStreams, TestStart})
  }

  lemma ClientStepKeepsOk(c: ClientView, e: ClientEvent)
    requires ClientOk(c)
    ensures ClientOk(ClientStep(c, e).side)
  {
    hide CloseAll, Totalled, Restarted, TurnOf;
  }

  lemma {:induction false} ClientRunKeepsOk(c: ClientView, es: seq<ClientEvent>)
    requires ClientOk(c)
    ensures ClientOk(ClientRun(c, es))
  {
    if es != [] {
      ClientRunKeepsOk(c, es[..|es| - 1]);
      ClientStepKeepsOk(ClientRun(c, es[..|es| - 1]), es[|es| - 1]);
    }
  }

  /** Whatever the server sends, the client finalises at most once, after which it only waits for results
      or has returned; it never enters `TestEnd` or `Wait` and loops only where the code does. */
  lemma ClientFinalisesOnce(settings: Settings, es: seq<ClientEvent>)
    ensures ClientOk(ClientRun(NewClient(settings), es))
  {
    ClientRunKeepsOk(NewClient(settings), es);
  }

  /** The client drains what is not UTF-8. */
  predicate Garbles(c: ClientView, e: ClientEvent)
  {
    && c.status.Live? && !c.busy && e.Control? && e.readable && e.inbox.Unreadable?
    && !c.test.state.Start? && !c.test.state.End? && !(c.test.state.TestRunning? && c.running)
  }

  lemma ClientStepPanicsIff(c: ClientView, e: ClientEvent)
    requires ClientOk(c)
    ensures ClientStep(c, e).side.status.Panicked? <==> c.status.Panicked? || Garbles(c, e)
  {
  }

  ghost predicate EverGarbles(c: ClientView, es: seq<ClientEvent>)
  {
    exists k :: 0 <= k < |es| && Garbles(ClientRun(c, es[..k]), es[k])
  }

  lemma OneMoreGarbles(c: ClientView, es: seq<ClientEvent>, e: ClientEvent)
    ensures EverGarbles(c, es + [e]) <==> EverGarbles(c, es) || Garbles(ClientRun(c, es), e)
  {
    hide Garbles, ClientStep, ClientRun;
    var more := es + [e];
    assert forall k :: 0 <= k < |es| ==> more[..k] == es[..k] && more[k] == es[k];
    assert more[..|es|] == es && more[|es|] == e;
    if EverGarbles(c, es) {
      var k :| 0 <= k < |es| && Garbles(ClientRun(c, es[..k]), es[k]);
      assert Garbles(ClientRun(c, more[..k]), more[k]);
    }
    if Garbles(ClientRun(c, es), e) {
      assert Garbles(ClientRun(c, more[..|es|]), more[|es|]);
    }
  }

  /** Nothing the server sends makes the client's handlers panic, except bytes that are
      not UTF-8 where the client drains them. */
  lemma {:induction false} ClientPanicsIff(settings: Settings, es: seq<ClientEvent>)
    ensures ClientRun(NewClient(settings), es).status.Panicked? <==> EverGarbles(NewClient(settings), es)
  {
    hide ClientStep, Garbles, ClientOk;
    if es != [] {
      var c, init := NewClient(settings), es[..|es| - 1];
      ClientPanicsIff(settings, init);
      ClientFinalisesOnce(settings, init);
      ClientStepPanicsIff(ClientRun(c, init), es[|init|]);
      assert es == init + [es[|init|]];
      OneMoreGarbles(c, init, es[|init|]);
    }
  }

  lemma ClientStepForward(c: ClientView, e: ClientEvent)
    requires ClientOk(c)
    ensures Code(c.test.state) <= Code(ClientStep(c, e).side.test.state)
  {
  }

  /** The client's state only moves forward, whatever the server sends. */
  lemma ClientMovesForward(settings: Settings, es: seq<ClientEvent>, e: ClientEvent)
    ensures var c := ClientRun(NewClient(settings), es);
            Code(c.test.state) <= Code(ClientStep(c, e).side.test.state)
  {
    ClientFinalisesOnce(settings, es);
    ClientStepForward(ClientRun(NewClient(settings), es), e);
  }

  // ----- bursts and loops as runs

  /** The events of a burst, going round `n` streams. */
  function Sends(n: nat, script: seq<Attempt>): seq<ClientEvent>
    requires n > 0
  {
    if script == [] then []
    else
      var k := |script| - 1;
      Sends(n, script[..k]) + [Send(Position(k, n), script[k])]
  }

  /** Everything the client writes on the control connection in a run. */
  function ClientWrites(c: ClientView, es: seq<ClientEvent>): seq<Message>
  {
    if es == [] then []
    else ClientWrites(c, es[..|es| - 1]) + ClientStep(ClientRun(c, es[..|es| - 1]), es[|es| - 1]).sent
  }

  lemma OneMoreEvent(c: ClientView, es: seq<ClientEvent>, e: ClientEvent)
    ensures ClientRun(c, es + [e]) == ClientStep(ClientRun(c, es), e).side
    ensures ClientWrites(c, es + [e]) == ClientWrites(c, es) + ClientStep(ClientRun(c, es), e).sent
  {
    hide ClientStep;
    assert (es + [e])[..|es|] == es;
  }

  lemma {:induction false} ClientRunsJoin(c: ClientView, a: seq<ClientEvent>, b: seq<ClientEvent>)
    ensures ClientRun(c, a + b) == ClientRun(ClientRun(c, a), b)
    ensures ClientWrites(c, a + b) == ClientWrites(c, a) + ClientWrites(ClientRun(c, a), b)
    decreases |b|
  {
    hide ClientStep;
    if b == [] {
      assert a + b == a;
    } else {
      var init := b[..|b| - 1];
      ClientRunsJoin(c, a, init);
      OneMoreEvent(c, a + init, b[|init|]);
      assert a + b == a + init + [b[|init|]];
    }
  }

  /** A burst of the send loop is the run of its single writes, which writes nothing on the control connection. */
  lemma {:induction false} SendsAreWriteAll(c: ClientView, script: seq<Attempt>)
    requires Sending(c) && c.status.Live? && c.test.streams != []
    ensures ClientRun(c, Sends(|c.test.streams|, script)) == c.(test := WriteAll(c.test, script))
    ensures ClientWrites(c, Sends(|c.test.streams|, script)) == []
  {
    if script != [] {
      var k, n := |script| - 1, |c.test.streams|;
      SendsAreWriteAll(c, script[..k]);
      SendKeepsState(WriteAll(c.test, script[..k]), Position(k, n), script[k]);
      OneMoreEvent(c, Sends(n, script[..k]), Send(Position(k, n), script[k]));
    }
  }

  lemma SendKeepsState(t: TestView, i: nat, a: Attempt)
    requires i < |t.streams|
    ensures var r := WriteOne(t, i, a); r == t.(streams := r.streams, data := r.data) && |r.streams| == |t.streams|
  {
  }

  /** The client gets from `c` to `c'` by single events and writes `sent` on its way. */
  ghost predicate ClientGets(c: ClientView, sent: seq<Message>, c': ClientView)
  {
    exists es :: ClientRun(c, es) == c' && ClientWrites(c, es) == sent
  }

  lemma OneEvent(c: ClientView, e: ClientEvent)
    ensures ClientGets(c, ClientStep(c, e).sent, ClientStep(c, e).side)
  {
    hide ClientStep;
    OneMoreEvent(c, [], e);
    assert ClientRun(c, [] + [e]) == ClientStep(c, e).side;
    assert ClientWrites(c, [] + [e]) == [] + ClientStep(c, e).sent == ClientStep(c, e).sent;
  }

  lemma NoEvent(c: ClientView)
    ensures ClientGets(c, [], c)
  {
    assert ClientRun(c, []) == c && ClientWrites(c, []) == [];
  }

  lemma Chained(c: ClientView, sent: seq<Message>, c': ClientView, sent': seq<Message>, c'': ClientView)
    requires ClientGets(c, sent, c') && ClientGets(c', sent', c'')
    ensures ClientGets(c, sent + sent', c'')
  {
    hide ClientStep, ClientRun, ClientWrites;
    var a :| ClientRun(c, a) == c' && ClientWrites(c, a) == sent;
    var b :| ClientRun(c', b) == c'' && ClientWrites(c', b) == sent';
    ClientRunsJoin(c, a, b);
    assert ClientRun(c, a + b) == c'';
  }

  /** The burst of reads of one stream event, one event for each. */
  function Singles(e: ServerEvent, rs: seq<Receipt>): seq<ServerEvent>
  {
    if rs == [] then [] else Singles(e, rs[..|rs| - 1]) + [e.(received := [rs[|rs| - 1]])]
  }

  lemma OneRead(t: TestView, i: nat, r: Receipt)
    requires i < |t.streams|
    ensures ReadAll(t, i, [r]) == ReadOne(t, i, r)
  {
    assert [r][..0] == [];
    assert ReadAll(t, i, []) == t;
  }

  /** Everything the server writes on the control connection in a run. */
  function ServerWrites(s: ServerView, es: seq<ServerEvent>): seq<Message>
  {
    if es == [] then []
    else ServerWrites(s, es[..|es| - 1]) + ServerStep(ServerRun(s, es[..|es| - 1]), es[|es| - 1]).sent
  }

  lemma OneMoreServed(s: ServerView, es: seq<ServerEvent>, e: ServerEvent)
    ensures ServerRun(s, es + [e]) == ServerStep(ServerRun(s, es), e).side
    ensures ServerWrites(s, es + [e]) == ServerWrites(s, es) + ServerStep(ServerRun(s, es), e).sent
  {
    hide ServerStep;
    assert (es + [e])[..|es|] == es;
  }

  lemma ReadStep(s: ServerView, e: ServerEvent)
    requires s.status.Live? && s.test.state.TestRunning? && e.readable && e.token < |s.test.streams|
    requires e.token < CONTROL
    ensures ServerStep(s, e).side == s.(test := ReadAll(s.test, e.token, e.received))
  {
  }

  /** A burst of the receive loop is the run of events with a single read each. */
  lemma {:induction false} SinglesAreReadAll(s: ServerView, e: ServerEvent, rs: seq<Receipt>)
    requires s.status.Live? && s.test.state.TestRunning? && e.readable && e.token < |s.test.streams|
    requires e.token < CONTROL
    ensures ServerRun(s, Singles(e, rs)) == ServerStep(s, e.(received := rs)).side
  {
    hide ServerStep, ReadOne;
    ReadStep(s, e.(received := rs));
    if rs == [] {
      assert ReadAll(s.test, e.token, []) == s.test;
    } else {
      var init, r := rs[..|rs| - 1], rs[|rs| - 1];
      SinglesAreReadAll(s, e, init);
      ReadStep(s, e.(received := init));
      OneMoreServed(s, Singles(e, init), e.(received := [r]));
      ReadStep(s.(test := ReadAll(s.test, e.token, init)), e.(received := [r]));
      OneRead(ReadAll(s.test, e.token, init), e.token, r);
    }
  }

  // ----- batches of events

  /** An event met in this state makes the server drop the rest of its batch. */
  predicate Breaks(state: TestState, e: ServerEvent)
  {
    if e.token == CONTROL then state.Wait?
    else if e.token == QUIC_LISTENER then state.CreateStreams? && e.readable
    else if e.token == TCP_LISTENER || e.token == UDP_LISTENER || e.token == TLS_LISTENER then false
    else !state.TestRunning? && !state.TestStart? && !state.TestEnd?
  }

  /** How many events of the batch are handled, if the first `k` are: all of them, or those
      up to and including the first that breaks off. */
  function HandledFrom(s: ServerView, batch: seq<ServerEvent>, k: nat): (n: nat)
    requires k <= |batch|
    ensures k <= n <= |batch|
    decreases |batch| - k
  {
    if k == |batch| then k
    else if Breaks(ServerRun(s, batch[..k]).test.state, batch[k]) then k + 1
    else HandledFrom(s, batch, k + 1)
  }

  /** The last of the first `n` events is the first that breaks off, unless these are all. */
  lemma {:induction false} HandledUpToBreak(s: ServerView, batch: seq<ServerEvent>, k: nat)
    requires k <= |batch|
    ensures var n := HandledFrom(s, batch, k);
            && (n < |batch| ==> k < n && Breaks(ServerRun(s, batch[..n - 1]).test.state, batch[n - 1]))
            && forall j :: k <= j < n - 1 ==> !Breaks(ServerRun(s, batch[..j]).test.state, batch[j])
    decreases |batch| - k
  {
    hide ServerRun, Breaks;
    if k < |batch| && !Breaks(ServerRun(s, batch[..k]).test.state, batch[k]) {
      HandledUpToBreak(s, batch, k + 1);
    }
  }

  /** The events of the batch that are handled. */
  function Handled(s: ServerView, batch: seq<ServerEvent>): seq<ServerEvent>
  {
    batch[..HandledFrom(s, batch, 0)]
  }

  /** A poll that gives no event: the idle timeout, or the `unwrap` of a timeout that is not set. */
  function Idles(s: ServerView, timeout: bool): ServerView
  {
    if s.status.Live? then s.(status := if timeout then Returned else Panicked) else s
  }

  /** One turn of the event loop. */
  function AfterPoll(s: ServerView, batch: seq<ServerEvent>, timeout: bool): ServerView
  {
    if batch == [] then Idles(s, timeout) else ServerRun(s, Handled(s, batch))
  }

  /** The event loop over the polls. */
  function AfterPolls(s: ServerView, polls: seq<seq<ServerEvent>>, timeout: bool): ServerView
  {
    if polls == [] then s else AfterPoll(AfterPolls(s, polls[..|polls| - 1], timeout), polls[|polls| - 1], timeout)
  }

  /** What it writes on the control connection. */
  function PollsWrite(s: ServerView, polls: seq<seq<ServerEvent>>, timeout: bool): seq<Message>
  {
    if polls == [] then []
    else
      var init, batch := polls[..|polls| - 1], polls[|polls| - 1];
      var s' := AfterPolls(s, init, timeout);
      PollsWrite(s, init, timeout) + ServerWrites(s', Handled(s', batch))
  }

  lemma OneMorePoll(s: ServerView, polls: seq<seq<ServerEvent>>, batch: seq<ServerEvent>, timeout: bool)
    ensures var s' := AfterPolls(s, polls, timeout);
            && AfterPolls(s, polls + [batch], timeout) == AfterPoll(s', batch, timeout)
            && PollsWrite(s, polls + [batch], timeout)
               == PollsWrite(s, polls, timeout) + ServerWrites(s', Handled(s', batch))
  {
    hide ServerWrites, AfterPoll, Handled;
    assert (polls + [batch])[..|polls|] == polls;
  }

  lemma {:induction false} NothingOnceGone(s: ServerView, es: seq<ServerEvent>)
    requires !s.status.Live?
    ensures ServerRun(s, es) == s && ServerWrites(s, es) == []
  {
    if es != [] {
      NothingOnceGone(s, es[..|es| - 1]);
    }
  }

  /** A server that has returned has no more polls. */
  lemma {:induction false} NoPollOnceGone(s: ServerView, polls: seq<seq<ServerEvent>>, k: nat, timeout: bool)
    requires k <= |polls| && !AfterPolls(s, polls[..k], timeout).status.Live?
    ensures AfterPolls(s, polls, timeout) == AfterPolls(s, polls[..k], timeout)
    ensures PollsWrite(s, polls, timeout) == PollsWrite(s, polls[..k], timeout)
    decreases |polls|
  {
    hide ServerRun, ServerWrites, Handled;
    if k == |polls| {
      assert polls[..k] == polls;
    } else {
      var init, batch := polls[..|polls| - 1], polls[|polls| - 1];
      assert init[..k] == polls[..k];
      NoPollOnceGone(s, init, k, timeout);
      NothingOnceGone(AfterPolls(s, init, timeout), Handled(AfterPolls(s, init, timeout), batch));
    }
  }

  /** The server gets from `s` to `s'` by handling events one at a time, perhaps idling at the end,
      and writes `sent` on its way. */
  ghost predicate ServerGets(s: ServerView, sent: seq<Message>, s': ServerView, timeout: bool)
  {
    exists es: seq<ServerEvent> ::
      ServerWrites(s, es) == sent && (s' == ServerRun(s, es) || s' == Idles(ServerRun(s, es), timeout))
  }

  lemma {:induction false} ServerRunsJoin(s: ServerView, a: seq<ServerEvent>, b: seq<ServerEvent>)
    ensures ServerRun(s, a + b) == ServerRun(ServerRun(s, a), b)
    ensures ServerWrites(s, a + b) == ServerWrites(s, a) + ServerWrites(ServerRun(s, a), b)
    decreases |b|
  {
    hide ServerStep;
    if b == [] {
      assert a + b == a;
    } else {
      var init := b[..|b| - 1];
      ServerRunsJoin(s, a, init);
      OneMoreServed(s, a + init, b[|init|]);
      assert a + b == a + init + [b[|init|]];
    }
  }

  lemma PollGets(s: ServerView, sent: seq<Message>, s': ServerView, timeout: bool, batch: seq<ServerEvent>)
    requires ServerGets(s, sent, s', timeout)
    ensures ServerGets(s, sent + ServerWrites(s', Handled(s', batch)), AfterPoll(s', batch, timeout), timeout)
  {
    hide ServerStep, ServerRun, ServerWrites;
    var es :| ServerWrites(s, es) == sent && (s' == ServerRun(s, es) || s' == Idles(ServerRun(s, es), timeout));
    var more := Handled(s', batch);
    if s' == ServerRun(s, es) {
      ServerRunsJoin(s, es, more);
      NoneServed(s');
      assert ServerWrites(s, es + more) == sent + ServerWrites(s', more);
      assert sent + [] == sent;
    } else {
      NothingOnceGone(s', more);
      assert sent + [] == sent;
    }
  }

  lemma NoneServed(s: ServerView)
    ensures ServerRun(s, []) == s && ServerWrites(s, []) == []
  {
  }

  /** Whatever the polls bring, the server ends where single events take it. */
  lemma {:induction false} PollsAreRuns(s: ServerView, polls: seq<seq<ServerEvent>>, timeout: bool)
    ensures ServerGets(s, PollsWrite(s, polls, timeout), AfterPolls(s, polls, timeout), timeout)
  {
    hide ServerGets, ServerRun, ServerWrites, AfterPoll, Handled;
    if polls == [] {
      NothingGets(s, timeout);
    } else {
      var init, batch := polls[..|polls| - 1], polls[|polls| - 1];
      PollsAreRuns(s, init, timeout);
      PollGets(s, PollsWrite(s, init, timeout), AfterPolls(s, init, timeout), timeout, batch);
    }
  }

  lemma NothingGets(s: ServerView, timeout: bool)
    ensures ServerGets(s, [], s, timeout)
  {
    NoneServed(s);
  }

  /** The event loop finalises at most once, whatever its polls bring. */
  lemma {:induction false} PollsFinaliseOnce(s: ServerView, polls: seq<seq<ServerEvent>>, timeout: bool)
    requires ServerOk(s)
    ensures ServerOk(AfterPolls(s, polls, timeout))
  {
    hide ServerRun, Handled;
    if polls != [] {
      var init := polls[..|polls| - 1];
      PollsFinaliseOnce(s, init, timeout);
      var s' := AfterPolls(s, init, timeout);
      ServerRunKeepsOk(s', Handled(s', polls[|init|]));
    }
  }
}
