/** The end of a run: the whole control transcript, the results
    message, and what the client may conclude from it. */
module Outcome {
  import opened Wire
  import opened Stats
  import opened Session
  import opened Endpoints
  import opened World
  import opened LockStep
  import opened Delivery

  /** Everything a server in this state has written on the control connection. */
  function ServerTranscript(t: TestView): seq<Message>
  {
    var params := [Announce(ParamExchange)];
    var streams := params + [Announce(CreateStreams)];
    var start := streams + [Announce(TestStart)];
    var running := start + [Announce(TestRunning)];
    match t.state
    case Start => []
    case ParamExchange => params
    case CreateStreams => streams
    case TestStart => start
    case TestRunning => running
    case TestEnd => running
    case Wait => running
    case ExchangeResults => running
    case End => running + [ResultsMsg(ResultsOf(t))]
  }

  /** Everything a client in this state has written there. */
  function ClientTranscript(t: TestView): seq<Message>
  {
    var cookie := [CookieMsg];
    var settings := cookie + [SettingsMsg(t.settings)];
    var ended := settings + [Announce(TestEnd)];
    match t.state
    case Start => []
    case ParamExchange => cookie
    case CreateStreams => settings
    case TestStart => settings
    case TestRunning => settings
    case TestEnd => settings
    case Wait => settings
    case ExchangeResults => ended
    case End => ended + [Announce(End)]
  }

  ghost predicate Adopted(t: TestView, r: Results)
  {
    && t.peerStreams == r.streams && t.peerElapsed == r.elapsed
    && t.peer.bytes == r.data.bytes && t.peer.blks == r.data.blks && t.peer.lost == r.data.lost
  }

  /** Each stream's elapsed time is the time from its creation to its end. */
  ghost predicate AllTimed(streams: seq<StreamView>)
  {
    forall k :: 0 <= k < |streams| ==> streams[k].elapsed == Since(streams[k].end, streams[k].created)
  }

  ghost predicate Record(w: World)
  {
    && w.serverLog == ServerTranscript(w.s.test)
    && w.clientLog == ClientTranscript(w.c.test)
    && (w.c.test.state.End? ==> Adopted(w.c.test, ResultsOf(w.s.test)))
    && (w.s.ends > 0 && w.s.test.settings.conn.UDP? ==> w.s.test.data.lost == SumStreams(w.s.test.streams).lost % U64)
    && (w.s.ends > 0 ==> AllTimed(w.s.test.streams))
  }

  lemma ClientControlKeepsRecord(w: World, readable: bool, writable: bool, wake: bool, closing: nat -> Closing,
                                 now: nat)
    requires Inv(w) && Record(w) && Enabled(w, ClientControl(readable, writable, wake, closing, now))
    ensures Record(ClientControls(w, readable, writable, wake, closing, now))
  {
    assert w.clientLog + [] == w.clientLog;
  }

  lemma EndIsTimed(t: TestView, closing: nat -> Closing, now: nat)
    ensures AllTimed(EndAll(t, closing, now).streams)
  {
    forall k | 0 <= k < |t.streams|
      ensures var s := EndAll(t, closing, now).streams[k]; s.elapsed == Since(s.end, s.created)
    {
      var c := closing(k);
      assert EndAll(t, closing, now).streams[k] == Close(t.streams[k], t.settings.conn, c);
    }
  }

  lemma EndEffect(w: World, readable: bool, wake: bool, closing: nat -> Closing, now: nat)
    requires Inv(w) && Enabled(w, ServerControl(readable, wake, closing, now)) && w.s.test.state.TestEnd?
    ensures var w' := ServerControls(w, readable, wake, closing, now);
            && w'.c == w.c && w'.clientLog == w.clientLog && w'.serverLog == w.serverLog
            && w'.s.test == EndAll(w.s.test, closing, now).(state := ExchangeResults)
            && !w.c.test.state.End?
  {
    hide EndAll, Tables, Sides;
    assert w.serverLog + [] == w.serverLog;
  }

  lemma ServerEndKeepsRecord(w: World, readable: bool, wake: bool, closing: nat -> Closing, now: nat)
    requires Inv(w) && Record(w) && Enabled(w, ServerControl(readable, wake, closing, now))
    requires w.s.test.state.TestEnd?
    ensures Record(ServerControls(w, readable, wake, closing, now))
  {
    hide Inv, ServerControls, CloseAll, AllTimed, ResultsOf;
    EndEffect(w, readable, wake, closing, now);
    EndIsTimed(w.s.test, closing, now);
  }

  lemma ServerReportKeepsRecord(w: World, readable: bool, wake: bool, closing: nat -> Closing, now: nat)
    requires Inv(w) && Record(w) && Enabled(w, ServerControl(readable, wake, closing, now))
    requires w.s.test.state in {ExchangeResults, End}
    ensures Record(ServerControls(w, readable, wake, closing, now))
  {
    hide AllTimed, Tables;
    assert w.serverLog + [] == w.serverLog;
  }

  lemma ServerControlKeepsRecord(w: World, readable: bool, wake: bool, closing: nat -> Closing, now: nat)
    requires Inv(w) && Record(w) && Enabled(w, ServerControl(readable, wake, closing, now))
    ensures Record(ServerControls(w, readable, wake, closing, now))
  {
    hide EndAll, AllTimed, Tables;
    if w.s.test.state.TestEnd? {
      ServerEndKeepsRecord(w, readable, wake, closing, now);
    } else if w.s.test.state in {ExchangeResults, End} {
      ServerReportKeepsRecord(w, readable, wake, closing, now);
    } else {
      StateCodes(Code(TestEnd), TestEnd);
      assert w.serverLog + [] == w.serverLog;
    }
  }

  lemma ServerListenerKeepsRecord(w: World, now: nat)
    requires Inv(w) && Record(w) && Enabled(w, ServerListener(now))
    ensures Record(ServerListens(w, now))
  {
    ListenerEffect(w, now);
    assert w.serverLog + [] == w.serverLog;
  }

  lemma ServerStreamKeepsRecord(w: World, token: nat, count: nat, number: nat, now: nat, sample: Sample)
    requires Inv(w) && Record(w) && Enabled(w, ServerStream(token, count, number, now, sample))
    ensures Record(ServerReads(w, token, count, number, now, sample))
  {
    if w.s.test.state.TestStart? {
      CookieEffect(w, token, count, number, now, sample);
    } else {
      ReadEffect(w, token, count, number, now, sample);
    }
  }

  lemma ClientTurnKeepsRecord(w: World, now: nat)
    requires Inv(w) && Record(w) && Enabled(w, ClientTurn(now))
    ensures Record(ClientTurns(w, now))
  {
  }

  lemma ClientFinishKeepsRecord(w: World, closing: nat -> Closing, now: nat)
    requires Inv(w) && Record(w) && Enabled(w, ClientFinish(closing, now))
    ensures Record(ClientFinishes(w, closing, now))
  {
  }

  lemma ClientStepKeepsAccount(w: World, a: Action)
    requires Inv(w) && Account(w) && Enabled(w, a)
    requires a.ClientControl? || a.ClientTurn? || a.ClientSend? || a.ClientFinish?
    ensures Account(Step(w, a))
  {
    match a
    case ClientControl(readable, writable, wake, closing, now) =>
      ClientControlKeepsAccount(w, readable, writable, wake, closing, now);
    case ClientTurn(now) => ClientTurnKeepsAccount(w, now);
    case ClientSend(i, b) => ClientSendKeepsAccount(w, i, b);
    case ClientFinish(closing, now) => ClientFinishKeepsAccount(w, closing, now);
  }

  lemma ServerStepKeepsAccount(w: World, a: Action)
    requires Inv(w) && Account(w) && Enabled(w, a)
    requires a.ServerControl? || a.ServerListener? || a.ServerStream?
    ensures Account(Step(w, a))
  {
    match a
    case ServerControl(readable, wake, closing, now) => ServerControlKeepsAccount(w, readable, wake, closing, now);
    case ServerListener(now) => ServerListenerKeepsAccount(w, now);
    case ServerStream(token, count, number, now, sample) =>
      ServerStreamKeepsAccount(w, token, count, number, now, sample);
  }

  lemma StepKeepsAccount(w: World, a: Action)
    requires Inv(w) && Account(w) && Enabled(w, a)
    ensures Account(Step(w, a))
  {
    if a.Lose? {
      LoseKeepsAccount(w, a.i, a.k);
    } else if a.ServerControl? || a.ServerListener? || a.ServerStream? {
      ServerStepKeepsAccount(w, a);
    } else {
      ClientStepKeepsAccount(w, a);
    }
  }

  lemma StepKeepsRecord(w: World, a: Action)
    requires Inv(w) && Record(w) && Enabled(w, a)
    ensures Record(Step(w, a))
  {
    match a
    case ClientControl(readable, writable, wake, closing, now) =>
      ClientControlKeepsRecord(w, readable, writable, wake, closing, now);
    case ClientTurn(now) => ClientTurnKeepsRecord(w, now);
    case ClientSend(i, b) =>
    case ClientFinish(closing, now) => ClientFinishKeepsRecord(w, closing, now);
    case ServerControl(readable, wake, closing, now) => ServerControlKeepsRecord(w, readable, wake, closing, now);
    case ServerListener(now) => ServerListenerKeepsRecord(w, now);
    case ServerStream(token, count, number, now, sample) =>
      ServerStreamKeepsRecord(w, token, count, number, now, sample);
    case Lose(i, k) =>
  }

  /** What holds of every reachable world once the counters of both sides are looked at as well. */
  ghost predicate Full(w: World)
  {
    Inv(w) && Account(w) && Record(w)
  }

  lemma StepKeepsFull(w: World, a: Action)
    requires Full(w)
    ensures Full(Next(w, a))
  {
    StepKeepsInv(w, a);
    if Enabled(w, a) {
      StepKeepsAccount(w, a);
      StepKeepsRecord(w, a);
    }
  }

  lemma {:induction false} ReachableFull(settings: Settings, local: Settings, budget: nat, run: seq<Action>)
    requires 1 <= settings.numStreams <= 255 && budget < U64
    ensures Full(Exec(Init(settings, local, budget), run))
  {
    if run != [] {
      ReachableFull(settings, local, budget, run[..|run| - 1]);
      StepKeepsFull(Exec(Init(settings, local, budget), run[..|run| - 1]), run[|run| - 1]);
    }
  }

  /** Conservation from end to end, at every moment of every run: on a reliable transport the bytes sent on a stream are
      those received plus those under way; on UDP what was received, lost or not was sent, and at both
      ends the three levels of counters agree. */
  lemma {:induction false} BytesConserved(settings: Settings, local: Settings, budget: nat, run: seq<Action>, i: nat)
    requires 1 <= settings.numStreams <= 255 && budget < U64
    requires i < |Exec(Init(settings, local, budget), run).s.test.streams|
    ensures var w := Exec(Init(settings, local, budget), run);
            && ThreeLevels(w.c.test) && ThreeLevels(w.s.test)
            && i < |w.c.test.streams| && i < |w.pipes|
            && var sent, got := w.c.test.streams[i].data, w.s.test.streams[i].data;
            && (!settings.conn.UDP? ==> got.bytes + DataSize(w.pipes[i]) == sent.bytes)
            && (settings.conn.UDP? ==> got.bytes + DataSize(w.pipes[i]) <= sent.bytes)
            && (settings.conn.UDP? && w.s.ends > 0 ==> got.blks + got.lost == w.s.test.streams[i].last <= sent.blks)
  {
    ReachableFull(settings, local, budget, run);
    RunKeepsSettings(settings, local, budget, run);
    var w := Exec(Init(settings, local, budget), run);
    assert PairAt(w.c.test.streams, w.s.test.streams, w.pipes, w.s.ends > 0, i);
  }

  /** Both control transcripts are determined by the two states, so each message is written exactly once. */
  lemma TranscriptsDetermined(settings: Settings, local: Settings, budget: nat, run: seq<Action>)
    requires 1 <= settings.numStreams <= 255 && budget < U64
    ensures var w := Exec(Init(settings, local, budget), run);
            w.serverLog == ServerTranscript(w.s.test) && w.clientLog == ClientTranscript(w.c.test)
  {
    ReachableFull(settings, local, budget, run);
  }

  lemma FinishedServerKeepsResults(w: World, a: Action)
    requires w.s.test.state in {ExchangeResults, End} && w.backlog == []
    ensures ResultsOf(Next(w, a).s.test) == ResultsOf(w.s.test) && Next(w, a).s.ends == w.s.ends
  {
    assert Enabled(w, a) ==> !a.ServerListener? && !a.ServerStream?;
  }

  /** Once the server has finalised, nothing that follows changes what it will report. */
  lemma {:induction false} ResultsFrozen(settings: Settings, local: Settings, budget: nat, run: seq<Action>, k: nat)
    requires 1 <= settings.numStreams <= 255 && k <= |run|
    requires Exec(Init(settings, local, budget), run[..k]).s.ends > 0
    ensures Exec(Init(settings, local, budget), run).s.ends == 1
    ensures ResultsOf(Exec(Init(settings, local, budget), run).s.test)
            == ResultsOf(Exec(Init(settings, local, budget), run[..k]).s.test)
    decreases |run|
  {
    ReachableInv(settings, local, budget, run);
    if k == |run| {
      assert run[..k] == run;
    } else {
      var init := run[..|run| - 1];
      assert init[..k] == run[..k];
      ResultsFrozen(settings, local, budget, init, k);
      ReachableInv(settings, local, budget, init);
      FinishedServerKeepsResults(Exec(Init(settings, local, budget), init), run[|run| - 1]);
    }
  }

  lemma {:induction false} SumsOrdered(a: seq<StreamView>, b: seq<StreamView>)
    requires |a| == |b|
    requires forall k :: 0 <= k < |a| ==>
               a[k].data.bytes <= b[k].data.bytes && a[k].data.blks + a[k].data.lost <= b[k].data.blks
    ensures SumStreams(a).bytes <= SumStreams(b).bytes
    ensures SumStreams(a).blks + SumStreams(a).lost <= SumStreams(b).blks
  {
    if a != [] {
      SumsOrdered(a[..|a| - 1], b[..|b| - 1]);
    }
  }

  /** What the client's peer figures mean: the server's final totals, which are the sums over the peer streams. */
  ghost predicate PeerIsServer(w: World)
  {
    var c, r := w.c.test, ResultsOf(w.s.test);
    && w.serverLog == [Announce(ParamExchange), Announce(CreateStreams), Announce(TestStart), Announce(TestRunning),
                       ResultsMsg(r)]
    && c.peerStreams == r.streams && |c.peerStreams| == |c.streams| == N(w)
    && c.peerElapsed == w.s.test.elapsed && |w.s.test.streams| == N(w)
    && (forall i :: 0 <= i < N(w) ==>
          && c.peerStreams[i].conn == c.settings.conn
          && c.peerStreams[i].elapsed == Since(w.s.test.streams[i].end, w.s.test.streams[i].created))
    && c.peer.bytes == r.data.bytes == SumResults(c.peerStreams).bytes
    && c.peer.blks == r.data.blks == SumResults(c.peerStreams).blks
    && (c.settings.conn.UDP? ==> c.peer.lost == r.data.lost == SumResults(c.peerStreams).lost)
  }

  /** And how they compare with what the client sent. */
  ghost predicate PeerWithinSent(w: World)
  {
    var c := w.c.test;
    && |c.peerStreams| == |c.streams|
    && (forall i :: 0 <= i < |c.streams| ==> c.peerStreams[i].data.bytes <= c.streams[i].data.bytes)
    && c.peer.bytes <= c.data.bytes
    && (c.settings.conn.UDP? ==>
          && (forall i :: 0 <= i < |c.streams| ==>
                c.peerStreams[i].data.blks + c.peerStreams[i].data.lost <= c.streams[i].data.blks)
          && c.peer.blks + c.peer.lost <= c.data.blks)
  }

  lemma FinalPairs(w: World)
    requires Full(w) && w.c.test.state.End?
    ensures |w.s.test.streams| == |w.c.test.streams|
    ensures forall i :: 0 <= i < |w.s.test.streams| ==>
              && w.s.test.streams[i].data.bytes <= w.c.test.streams[i].data.bytes
              && (w.c.test.settings.conn.UDP? ==>
                    w.s.test.streams[i].data.blks + w.s.test.streams[i].data.lost <= w.c.test.streams[i].data.blks)
  {
    forall i | 0 <= i < |w.s.test.streams|
      ensures w.s.test.streams[i].data.bytes <= w.c.test.streams[i].data.bytes
      ensures w.c.test.settings.conn.UDP? ==>
                w.s.test.streams[i].data.blks + w.s.test.streams[i].data.lost <= w.c.test.streams[i].data.blks
    {
      assert PairAt(w.c.test.streams, w.s.test.streams, w.pipes, true, i);
    }
  }

  lemma {:induction false} BytesOrdered(a: seq<StreamView>, b: seq<StreamView>)
    requires |a| == |b| && forall k :: 0 <= k < |a| ==> a[k].data.bytes <= b[k].data.bytes
    ensures SumStreams(a).bytes <= SumStreams(b).bytes
  {
    if a != [] {
      BytesOrdered(a[..|a| - 1], b[..|b| - 1]);
    }
  }

  lemma FinalLost(w: World)
    requires Full(w) && w.c.test.state.End? && w.c.test.settings.conn.UDP?
    ensures w.s.test.data.lost == SumStreams(w.s.test.streams).lost
  {
    FinalPairs(w);
    SumsOrdered(w.s.test.streams, w.c.test.streams);
  }

  lemma FinalResults(w: World)
    requires Full(w) && w.c.test.state.End?
    ensures PeerIsServer(w)
  {
    SumOfResults(w.s.test.streams);
    if w.c.test.settings.conn.UDP? {
      FinalLost(w);
    }
  }

  lemma FinalWithinSent(w: World)
    requires Full(w) && w.c.test.state.End? && PeerIsServer(w)
    ensures PeerWithinSent(w)
  {
    SumOfResults(w.s.test.streams);
    FinalPairs(w);
    BytesOrdered(w.s.test.streams, w.c.test.streams);
    assert forall i :: 0 <= i < |w.s.test.streams| ==> w.c.test.peerStreams[i] == ResultOf(w.s.test.streams[i]);
    if w.c.test.settings.conn.UDP? {
      SumsOrdered(w.s.test.streams, w.c.test.streams);
    }
  }

  /** Result agreement: a client that reaches its last state has the server's final results, sent exactly once, and they
      never exceed what it sent; on UDP what the server received and what it lost were all sent. */
  lemma ResultsAgree(settings: Settings, local: Settings, budget: nat, run: seq<Action>)
    requires 1 <= settings.numStreams <= 255 && budget < U64
    ensures var w := Exec(Init(settings, local, budget), run);
            w.c.test.state.End? ==> PeerIsServer(w) && PeerWithinSent(w)
  {
    ReachableFull(settings, local, budget, run);
    if Exec(Init(settings, local, budget), run).c.test.state.End? {
      FinalResults(Exec(Init(settings, local, budget), run));
      FinalWithinSent(Exec(Init(settings, local, budget), run));
    }
  }

  // ----- elapsed times

  /** Event `i` of the run starts the server's test: it drains the last cookie. */
  ghost predicate ServerStarts(w: World, run: seq<Action>, i: nat)
  {
    && i < |run| && run[i].ServerStream?
    && Exec(w, run[..i]).s.test.state.TestStart? && Exec(w, run[..i + 1]).s.test.state.TestRunning?
  }

  /** Event `j` finalises it. */
  ghost predicate ServerEnds(w: World, run: seq<Action>, j: nat)
  {
    && j < |run| && run[j].ServerControl?
    && Exec(w, run[..j]).s.ends == 0 && Exec(w, run[..j + 1]).s.ends == 1
  }

  ghost predicate ServerTime(w: World, run: seq<Action>, elapsed: nat)
  {
    exists i, j :: 0 <= i < j < |run| && ServerStarts(w, run, i) && ServerEnds(w, run, j)
                   && elapsed == Since(run[j].now, run[i].now)
  }

  ghost predicate ServerBegun(w: World, run: seq<Action>, start: nat)
  {
    exists i :: 0 <= i < |run| && ServerStarts(w, run, i) && start == run[i].now
  }

  ghost predicate Accepts(run: seq<Action>, i: nat, created: nat)
  {
    i < |run| && run[i].ServerListener? && run[i].now == created
  }

  ghost predicate AcceptedAt(run: seq<Action>, created: nat)
  {
    exists i :: Accepts(run, i, created)
  }

  /** What the server's clock readings have become. */
  ghost predicate ServerClock(w: World, run: seq<Action>)
  {
    var s := Exec(w, run).s;
    && (s.test.state in {TestRunning, TestEnd} ==> ServerBegun(w, run, s.test.start))
    && (s.ends > 0 ==> ServerTime(w, run, s.test.elapsed))
    && forall k :: 0 <= k < |s.test.streams| ==> AcceptedAt(run, s.test.streams[k].created)
  }

  /** How one step moves the readings. */
  ghost predicate ClockMoves(s: ServerView, a: Action, s': ServerView)
  {
    && (s'.test.state.TestRunning? && !s.test.state.TestRunning? ==>
          a.ServerStream? && s.test.state.TestStart? && s'.test.start == a.now)
    && (s'.test.state in {TestRunning, TestEnd} && s.test.state in {TestRunning, TestEnd} ==>
          s'.test.start == s.test.start)
    && (s'.test.state.TestEnd? ==> s.test.state in {TestRunning, TestEnd})
    && (s.ends == 0 && s'.ends > 0 ==>
          && a.ServerControl? && s.test.state.TestEnd? && s'.ends == 1
          && s'.test.elapsed == Since(a.now, s.test.start))
    && (s.ends > 0 ==> s'.ends > 0 && s'.test.elapsed == s.test.elapsed)
    && |s.test.streams| <= |s'.test.streams|
    && (forall k :: 0 <= k < |s.test.streams| ==> s'.test.streams[k].created == s.test.streams[k].created)
    && (forall k :: |s.test.streams| <= k < |s'.test.streams| ==>
          a.ServerListener? && s'.test.streams[k].created == a.now)
  }

  lemma ControlMoves(w: World, readable: bool, wake: bool, closing: nat -> Closing, now: nat)
    requires Inv(w) && Enabled(w, ServerControl(readable, wake, closing, now))
    ensures ClockMoves(w.s, ServerControl(readable, wake, closing, now),
                       ServerControls(w, readable, wake, closing, now).s)
  {
    StateCodes(Code(TestEnd), TestEnd);
  }

  lemma StreamMoves(w: World, token: nat, count: nat, number: nat, now: nat, sample: Sample)
    requires Inv(w) && Enabled(w, ServerStream(token, count, number, now, sample))
    ensures ClockMoves(w.s, ServerStream(token, count, number, now, sample),
                       ServerReads(w, token, count, number, now, sample).s)
  {
    if w.s.test.state.TestStart? {
      CookieEffect(w, token, count, number, now, sample);
    } else {
      ReadEffect(w, token, count, number, now, sample);
    }
  }

  lemma ListenerMoves(w: World, now: nat)
    requires Inv(w) && Enabled(w, ServerListener(now))
    ensures ClockMoves(w.s, ServerListener(now), ServerListens(w, now).s)
  {
    ListenerEffect(w, now);
  }

  lemma StepMoves(w: World, a: Action)
    requires Inv(w) && Enabled(w, a)
    ensures ClockMoves(w.s, a, Step(w, a).s)
  {
    match a
    case ServerControl(readable, wake, closing, now) => ControlMoves(w, readable, wake, closing, now);
    case ServerListener(now) => ListenerMoves(w, now);
    case ServerStream(token, count, number, now, sample) => StreamMoves(w, token, count, number, now, sample);
    case _ =>
  }

  lemma BegunStays(w: World, run: seq<Action>, a: Action, start: nat)
    requires ServerBegun(w, run, start)
    ensures ServerBegun(w, run + [a], start)
  {
    hide Exec;
    var i :| 0 <= i < |run| && ServerStarts(w, run, i) && start == run[i].now;
    var more := run + [a];
    assert more[..i] == run[..i] && more[..i + 1] == run[..i + 1];
    assert ServerStarts(w, more, i);
  }

  lemma TimeStays(w: World, run: seq<Action>, a: Action, elapsed: nat)
    requires ServerTime(w, run, elapsed)
    ensures ServerTime(w, run + [a], elapsed)
  {
    hide Exec;
    var i, j :| 0 <= i < j < |run| && ServerStarts(w, run, i) && ServerEnds(w, run, j)
                && elapsed == Since(run[j].now, run[i].now);
    var more := run + [a];
    assert more[..i] == run[..i] && more[..i + 1] == run[..i + 1];
    assert more[..j] == run[..j] && more[..j + 1] == run[..j + 1];
    assert ServerStarts(w, more, i) && ServerEnds(w, more, j);
  }

  lemma AcceptStays(run: seq<Action>, a: Action, created: nat)
    requires AcceptedAt(run, created)
    ensures AcceptedAt(run + [a], created)
  {
    var i :| Accepts(run, i, created);
    assert Accepts(run + [a], i, created);
  }

  /** The event that finalises ends the time that the event that started has begun. */
  lemma TimeEnds(w: World, run: seq<Action>, a: Action, start: nat)
    requires ServerBegun(w, run, start) && a.ServerControl?
    requires Exec(w, run).s.ends == 0 && Exec(w, run + [a]).s.ends == 1
    ensures ServerTime(w, run + [a], Since(a.now, start))
  {
    hide Exec;
    var i :| 0 <= i < |run| && ServerStarts(w, run, i) && start == run[i].now;
    var more := run + [a];
    assert more[..i] == run[..i] && more[..i + 1] == run[..i + 1];
    assert more[..|run|] == run && more[..|run| + 1] == more;
    assert ServerStarts(w, more, i) && ServerEnds(w, more, |run|);
  }

  lemma ClockGoesOn(w: World, run: seq<Action>, a: Action)
    requires ServerClock(w, run) && ClockMoves(Exec(w, run).s, a, Exec(w, run + [a]).s)
    ensures ServerClock(w, run + [a])
  {
    hide Exec, ServerBegun, ServerTime, AcceptedAt;
    var more, s, s' := run + [a], Exec(w, run).s, Exec(w, run + [a]).s;
    if s'.test.state in {TestRunning, TestEnd} {
      if s.test.state in {TestRunning, TestEnd} {
        BegunStays(w, run, a, s.test.start);
      } else {
        TimeBegins(w, run, a);
      }
    }
    if s.ends > 0 {
      TimeStays(w, run, a, s.test.elapsed);
    } else if s'.ends > 0 {
      TimeEnds(w, run, a, s.test.start);
    }
    forall k | 0 <= k < |s'.test.streams|
      ensures AcceptedAt(more, s'.test.streams[k].created)
    {
      if k < |s.test.streams| {
        AcceptStays(run, a, s.test.streams[k].created);
      } else {
        assert s'.test.streams[k].created == a.now;
        LastAccepts(run, a);
      }
    }
  }

  lemma TimeBegins(w: World, run: seq<Action>, a: Action)
    requires a.ServerStream? && Exec(w, run).s.test.state.TestStart? && Exec(w, run + [a]).s.test.state.TestRunning?
    ensures ServerBegun(w, run + [a], a.now)
  {
    hide Exec;
    var more := run + [a];
    assert more[..|run|] == run && more[..|run| + 1] == more;
    assert ServerStarts(w, more, |run|);
  }

  lemma LastAccepts(run: seq<Action>, a: Action)
    requires a.ServerListener?
    ensures AcceptedAt(run + [a], a.now)
  {
    assert Accepts(run + [a], |run|, a.now);
  }

  lemma NextMoves(w: World, run: seq<Action>, a: Action)
    requires Inv(Exec(w, run))
    ensures ClockMoves(Exec(w, run).s, a, Exec(w, run + [a]).s)
  {
    hide Inv, Step;
    assert (run + [a])[..|run|] == run;
    if Enabled(Exec(w, run), a) {
      StepMoves(Exec(w, run), a);
    }
  }

  /** The server's times are those of the events that accepted its streams, drained its
      last cookie and finalised its test. */
  lemma {:induction false} ServerKeepsTime(settings: Settings, local: Settings, budget: nat, run: seq<Action>)
    requires 1 <= settings.numStreams <= 255
    ensures ServerClock(Init(settings, local, budget), run)
  {
    hide ServerBegun, ServerTime, AcceptedAt;
    if run != [] {
      var w0, init, a := Init(settings, local, budget), run[..|run| - 1], run[|run| - 1];
      ServerKeepsTime(settings, local, budget, init);
      ReachableInv(settings, local, budget, init);
      assert run == init + [a];
      NextMoves(w0, init, a);
      ClockGoesOn(w0, init, a);
    }
  }

  /** What a client in its last state has been told of the server's times: the test has taken from the event that
      drained the last cookie to the one that finalised it, and each stream from the event that accepted it to its
      own end. */
  lemma {:induction false} PeerTimes(settings: Settings, local: Settings, budget: nat, run: seq<Action>, k: nat)
    requires 1 <= settings.numStreams <= 255 && budget < U64
    requires Exec(Init(settings, local, budget), run).c.test.state.End? && k < settings.numStreams
    ensures var w0 := Init(settings, local, budget);
            var c, s := Exec(w0, run).c.test, Exec(w0, run).s.test;
            && ServerTime(w0, run, c.peerElapsed)
            && k < |c.peerStreams| && k < |s.streams| && AcceptedAt(run, s.streams[k].created)
            && c.peerStreams[k].elapsed == Since(s.streams[k].end, s.streams[k].created)
  {
    hide ServerTime, AcceptedAt;
    var w := Exec(Init(settings, local, budget), run);
    ReachableFull(settings, local, budget, run);
    RunKeepsSettings(settings, local, budget, run);
    FinalResults(w);
    ServerKeepsTime(settings, local, budget, run);
  }
}
