/** No run gets stuck before both sides have returned, and every run is finite. */
module Progress {
  import opened Wire
  import opened Stats
  import opened Session
  import opened Endpoints
  import opened World
  import opened LockStep

  predicate Done(w: World) {
    w.c.status.Returned? && w.s.status.Returned?
  }

  /** Some endpoint has an event to handle; losing a datagram is not progress. */
  ghost predicate CanMove(w: World) {
    exists a :: Enabled(w, a) && !a.Lose?
  }

  // ----- deadlock freedom

  const NO_SAMPLE := Sample(0, 0, 0)

  function ClientHears(): Action {
    ClientControl(true, true, false, NO_CLOSING, 0)
  }

  function ServerHears(): Action {
    ServerControl(true, false, NO_CLOSING, 0)
  }

  lemma {:induction false} SomeUnread(pipes: seq<seq<Packet>>) returns (i: nat)
    requires Unread(pipes) > 0
    ensures i < |pipes| && pipes[i] != []
  {
    i := |pipes| - 1;
    if pipes[i] == [] {
      i := SomeUnread(pipes[..i]);
    }
  }

  lemma HandshakeMoves(w: World)
    requires Inv(w) && Before(w.s.test.state, TestRunning)
    ensures CanMove(w)
  {
    if w.c.busy {
      assert Enabled(w, ClientTurn(0));
    } else if w.toServer != [] {
      assert Enabled(w, ServerHears());
    } else if w.toClient != [] || w.c.test.state.Start? {
      assert Enabled(w, ClientControl(w.toClient != [], true, false, NO_CLOSING, 0));
    } else if w.s.test.state.CreateStreams? {
      assert Enabled(w, ServerListener(0));
    } else {
      var i := SomeUnread(w.pipes);
      assert w.s.test.tokens[i] == i;
      assert Enabled(w, ServerStream(i, 1, 0, 0, NO_SAMPLE));
    }
  }

  lemma TestMoves(w: World)
    requires Inv(w) && !Done(w) && !Before(w.s.test.state, TestRunning)
    ensures CanMove(w)
  {
    if Sending(w.c) {
      assert Enabled(w, ClientFinish(NO_CLOSING, w.c.test.start + w.c.test.settings.time + 1));
    } else if w.c.status.Live? && w.toClient != [] {
      assert Enabled(w, ClientHears());
    } else if w.c.status.Live? && w.c.test.state.End? {
      assert Enabled(w, ClientControl(true, false, true, NO_CLOSING, 0));
    } else if w.toServer != [] && w.s.status.Live? {
      assert Enabled(w, ServerHears());
    } else {
      assert Enabled(w, ServerControl(true, true, NO_CLOSING, 0));
    }
  }

  lemma MovesUnlessDone(w: World)
    requires Inv(w)
    ensures CanMove(w) <==> !Done(w)
  {
    if !Done(w) {
      if Before(w.s.test.state, TestRunning) {
        HandshakeMoves(w);
      } else {
        TestMoves(w);
      }
    }
  }

  ghost predicate NeverStuck(settings: Settings, local: Settings, budget: nat) {
    forall run :: var w := Exec(Init(settings, local, budget), run); CanMove(w) || Done(w)
  }

  lemma ExecAppend(w: World, run: seq<Action>, a: Action)
    ensures Exec(w, run + [a]) == Next(Exec(w, run), a)
  {
    assert (run + [a])[..|run|] == run;
  }

  lemma ExecThree(w: World, run: seq<Action>, a: Action, b: Action, c: Action)
    ensures Exec(w, run + [a] + [b] + [c]) == Next(Next(Next(Exec(w, run), a), b), c)
  {
    ExecAppend(w, run, a);
    ExecAppend(w, run + [a], b);
    ExecAppend(w, run + [a] + [b], c);
  }

  /** Each side waits for the other. */
  predicate Waiting(w: World) {
    && w.c.test.state.TestStart? && !w.c.busy && w.s.test.state.CreateStreams? && w.c.status.Live?
    && w.toClient == [] && w.backlog == [] && w.s.test.tokens == []
  }

  lemma WaitingIsStuck(w: World)
    requires Waiting(w)
    ensures !CanMove(w) && !Done(w)
  {
  }

  /** The first two events: the cookie goes over and the server asks for the parameters. */
  function Asked(settings: Settings, local: Settings, budget: nat): World {
    var w := Init(settings, local, budget);
    w.(c := Go(w.c, ParamExchange), s := InState(w.s, ParamExchange), toClient := [Announce(ParamExchange)],
       clientLog := [CookieMsg], serverLog := [Announce(ParamExchange)])
  }

  lemma ParamsAsked(settings: Settings, local: Settings, budget: nat)
    ensures var first := ClientControl(false, true, false, NO_CLOSING, 0);
            Next(Next(Init(settings, local, budget), first), ServerHears()) == Asked(settings, local, budget)
  {
    var w := Next(Init(settings, local, budget), ClientControl(false, true, false, NO_CLOSING, 0));
    assert w.toServer == [CookieMsg] && w.clientLog == [CookieMsg];
  }

  /** The next three: without streams the client is through its loop at once. */
  lemma ParamsTold(settings: Settings, local: Settings, budget: nat)
    requires settings.numStreams == 0
    ensures Waiting(Next(Next(Next(Asked(settings, local, budget), ClientHears()), ServerHears()), ClientHears()))
  {
    var w := Next(Asked(settings, local, budget), ClientHears());
    assert w.toServer == [SettingsMsg(settings)] && w.toClient == [] && w.c.test.state.CreateStreams?;
    var v := Next(w, ServerHears());
    assert v.toClient == [Announce(CreateStreams)] && v.c == w.c && v.s.test.state.CreateStreams?;
  }

  /** With no streams to create the client asks for the test and waits for an
      announcement that only an accepted stream would trigger. */
  lemma NoStreamsDeadlock(settings: Settings, local: Settings, budget: nat)
    requires settings.numStreams == 0
    ensures !NeverStuck(settings, local, budget)
  {
    var w0 := Init(settings, local, budget);
    var first := ClientControl(false, true, false, NO_CLOSING, 0);
    var asked := [] + [first] + [ServerHears()];
    var run := asked + [ClientHears()] + [ServerHears()] + [ClientHears()];
    ExecAppend(w0, [], first);
    ExecAppend(w0, [first], ServerHears());
    ParamsAsked(settings, local, budget);
    ExecThree(w0, asked, ClientHears(), ServerHears(), ClientHears());
    ParamsTold(settings, local, budget);
    WaitingIsStuck(Exec(w0, run));
  }

  /** No run gets stuck before both sides have returned, exactly when the client asks for at least one stream. */
  lemma NeverStuckIff(settings: Settings, local: Settings, budget: nat)
    requires settings.numStreams <= 255
    ensures NeverStuck(settings, local, budget) <==> settings.numStreams >= 1
  {
    if settings.numStreams == 0 {
      NoStreamsDeadlock(settings, local, budget);
    } else {
      forall run
        ensures var w := Exec(Init(settings, local, budget), run); CanMove(w) || Done(w)
      {
        ReachableInv(settings, local, budget, run);
        MovesUnlessDone(Exec(Init(settings, local, budget), run));
      }
    }
  }

  // ----- termination

  /** Packets under way. */
  function Flight(pipes: seq<seq<Packet>>): nat {
    if pipes == [] then 0 else Flight(pipes[..|pipes| - 1]) + |pipes[|pipes| - 1]|
  }

  lemma {:induction false} FlightUpdate(pipes: seq<seq<Packet>>, i: nat, p: seq<Packet>)
    requires i < |pipes|
    ensures Flight(pipes[i := p]) + |pipes[i]| == Flight(pipes) + |p|
  {
    var n := |pipes| - 1;
    if i == n {
      assert pipes[i := p][..n] == pipes[..n];
    } else {
      assert pipes[i := p][..n] == pipes[..n][i := p];
      FlightUpdate(pipes[..n], i, p);
    }
  }

  /** Handler calls the client still has before it, a cookie counting twice for the packet it adds. */
  function ClientWork(c: ClientView, n: nat): int {
    match c.test.state
    case Start => 3 * n + 8
    case ParamExchange => 3 * n + 7
    case CreateStreams => if c.busy then 3 * n + 5 - c.pos else 3 * n + 6
    case TestStart => if c.busy then 2 * n + 4 - 2 * c.pos else 2 * n + 5
    case TestRunning => if c.running then 3 else 4
    case TestEnd => 0
    case Wait => 0
    case ExchangeResults => 2
    case End => if c.status.Live? then 1 else 0
  }

  function ServerWork(s: ServerView, n: nat): int {
    match s.test.state
    case Start => 2 * n + 6
    case ParamExchange => 2 * n + 5
    case CreateStreams => 2 * n + 4 - |s.test.streams|
    case TestStart => n + 4 - s.test.cookieCount
    case TestRunning => 4
    case TestEnd => 3
    case Wait => 0
    case ExchangeResults => 2
    case End => if s.status.Live? then 1 else 0
  }

  /** What `writes` writes cost, at `price` each: one for the write and one for each byte it may add to a pipe. */
  function Cost(writes: nat, price: nat): nat {
    if writes == 0 then 0 else price + Cost(writes - 1, price)
  }

  lemma {:induction false} CostIsProduct(writes: nat, price: nat)
    ensures Cost(writes, price) == writes * price
  {
    if writes > 0 {
      CostIsProduct(writes - 1, price);
      assert writes * price == (writes - 1) * price + price;
    }
  }

  function Rank(w: World): int {
    ClientWork(w.c, N(w)) + ServerWork(w.s, N(w)) + Cost(w.budget, w.c.test.settings.length + 1) + Flight(w.pipes)
  }

  lemma ClientControlRanks(w: World, readable: bool, writable: bool, wake: bool, closing: nat -> Closing, now: nat)
    requires Inv(w) && Enabled(w, ClientControl(readable, writable, wake, closing, now))
    ensures Rank(ClientControls(w, readable, writable, wake, closing, now)) < Rank(w)
  {
  }

  lemma ClientTurnRanks(w: World, now: nat)
    requires Enabled(w, ClientTurn(now)) && w.c.test.state in {CreateStreams, TestStart}
    requires w.c.test.state.TestStart? ==> w.c.pos < |w.pipes| == |w.c.test.streams| == N(w)
    requires w.c.pos < N(w)
    ensures Rank(ClientTurns(w, now)) < Rank(w)
  {
    if w.c.test.state.CreateStreams? {
      assert (w.pipes + [[]])[..|w.pipes|] == w.pipes;
    } else {
      FlightUpdate(w.pipes, w.c.pos, w.pipes[w.c.pos] + [Cookie]);
    }
  }

  lemma ClientSendRanks(w: World, i: nat, a: Attempt)
    requires Inv(w) && Enabled(w, ClientSend(i, a))
    ensures Rank(ClientSends(w, i, a)) < Rank(w)
  {
    var sent := Packets(w.c.test.settings.conn, a.res.n, w.c.test.streams[i].data.blks + 1);
    FlightUpdate(w.pipes, i, w.pipes[i] + sent);
  }

  lemma ServerControlRanks(w: World, readable: bool, wake: bool, closing: nat -> Closing, now: nat)
    requires Inv(w) && Enabled(w, ServerControl(readable, wake, closing, now))
    ensures Rank(ServerControls(w, readable, wake, closing, now)) < Rank(w)
  {
    StateCodes(Code(TestEnd), TestEnd);
  }

  lemma ServerListenerRanks(w: World, now: nat)
    requires Inv(w) && Enabled(w, ServerListener(now))
    ensures Rank(ServerListens(w, now)) < Rank(w)
  {
    ListenerEffect(w, now);
  }

  lemma CookieRanks(w: World, i: nat, now: nat)
    requires w.s.test.state.TestStart? && i < |w.pipes| && w.s.test.settings == w.c.test.settings
    ensures Rank(CookieTaken(w, i, now)) < Rank(w)
  {
    FlightUpdate(w.pipes, i, []);
  }

  lemma ServerStreamRanks(w: World, token: nat, count: nat, number: nat, now: nat, sample: Sample)
    requires Inv(w) && Enabled(w, ServerStream(token, count, number, now, sample))
    ensures Rank(ServerReads(w, token, count, number, now, sample)) < Rank(w)
  {
    if w.s.test.state.TestStart? {
      CookieEffect(w, token, count, number, now, sample);
      CookieRanks(w, token, now);
    } else {
      ReadEffect(w, token, count, number, now, sample);
      FlightUpdate(w.pipes, token, w.pipes[token][count..]);
    }
  }

  lemma LoseRanks(w: World, i: nat, k: nat)
    requires Inv(w) && Enabled(w, Lose(i, k))
    ensures Rank(Loses(w, i, k)) < Rank(w)
  {
    FlightUpdate(w.pipes, i, w.pipes[i][..k] + w.pipes[i][k + 1..]);
  }

  lemma StepRanks(w: World, a: Action)
    requires Inv(w) && Enabled(w, a)
    ensures Rank(Step(w, a)) < Rank(w)
  {
    match a
    case ClientControl(readable, writable, wake, closing, now) =>
      ClientControlRanks(w, readable, writable, wake, closing, now);
    case ClientTurn(now) => ClientTurnRanks(w, now);
    case ClientSend(i, b) => ClientSendRanks(w, i, b);
    case ClientFinish(closing, now) =>
    case ServerControl(readable, wake, closing, now) => ServerControlRanks(w, readable, wake, closing, now);
    case ServerListener(now) => ServerListenerRanks(w, now);
    case ServerStream(token, count, number, now, sample) => ServerStreamRanks(w, token, count, number, now, sample);
    case Lose(i, k) => LoseRanks(w, i, k);
  }

  lemma RankNotNegative(w: World)
    requires Inv(w)
    ensures Rank(w) >= 0
  {
  }

  lemma {:induction false} RunRanks(settings: Settings, local: Settings, budget: nat, run: seq<Action>)
    requires 1 <= settings.numStreams <= 255 && Valid(Init(settings, local, budget), run)
    ensures |run| + Rank(Exec(Init(settings, local, budget), run)) <= Rank(Init(settings, local, budget))
  {
    if run != [] {
      var init := run[..|run| - 1];
      assert forall k :: 0 <= k < |init| ==> init[..k] == run[..k];
      RunRanks(settings, local, budget, init);
      ReachableInv(settings, local, budget, init);
      StepRanks(Exec(Init(settings, local, budget), init), run[|run| - 1]);
    }
  }

  lemma InitialRank(settings: Settings, local: Settings, budget: nat)
    ensures Rank(Init(settings, local, budget)) == 5 * settings.numStreams + 14 + budget * (settings.length + 1)
  {
    CostIsProduct(budget, settings.length + 1);
  }

  /** Termination. A run with at most `budget` writes has a number of steps bounded in advance. */
  lemma RunsAreBounded(settings: Settings, local: Settings, budget: nat, run: seq<Action>)
    requires 1 <= settings.numStreams <= 255 && Valid(Init(settings, local, budget), run)
    ensures |run| <= 5 * settings.numStreams + 14 + budget * (settings.length + 1)
  {
    RunRanks(settings, local, budget, run);
    ReachableInv(settings, local, budget, run);
    RankNotNegative(Exec(Init(settings, local, budget), run));
    InitialRank(settings, local, budget);
  }

  lemma DoneAtEnd(w: World)
    requires Inv(w)
    ensures !CanMove(w) ==> Done(w) && w.c.test.state.End? && w.s.test.state.End?
  {
    MovesUnlessDone(w);
  }

  /** A run that can go no further has ended well: both sides have returned from their last state. */
  lemma {:induction false} RunsEndDone(settings: Settings, local: Settings, budget: nat, run: seq<Action>)
    requires 1 <= settings.numStreams <= 255
    ensures var w := Exec(Init(settings, local, budget), run);
            !CanMove(w) ==> Done(w) && w.c.test.state.End? && w.s.test.state.End?
  {
    ReachableInv(settings, local, budget, run);
    DoneAtEnd(Exec(Init(settings, local, budget), run));
  }
}
