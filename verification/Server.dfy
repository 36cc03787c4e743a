/** `ServerImpl` as an object: its event loop, handler by handler (src/server.rs),
    proved to be the event function that the protocol is reasoned about with. */
module Server {
  import opened Wire
  import opened Stats
  import opened Session
  import opened Endpoints
  import opened Recorder

  lemma NextHandled(s: ServerView, batch: seq<ServerEvent>, k: nat)
    requires k < |batch|
    ensures HandledFrom(s, batch, k)
            == if Breaks(ServerRun(s, batch[..k]).test.state, batch[k]) then k + 1 else HandledFrom(s, batch, k + 1)
    ensures ServerRun(s, batch[..k + 1]) == ServerStep(ServerRun(s, batch[..k]), batch[k]).side
    ensures ServerWrites(s, batch[..k + 1])
            == ServerWrites(s, batch[..k]) + ServerStep(ServerRun(s, batch[..k]), batch[k]).sent
  {
    hide ServerStep, ServerRun, ServerWrites, Breaks;
    OneMoreServed(s, batch[..k], batch[k]);
    assert batch[..k + 1] == batch[..k] + [batch[k]];
  }

  lemma NoneLeft(s: ServerView, batch: seq<ServerEvent>)
    ensures HandledFrom(s, batch, |batch|) == |batch|
  {
  }

  lemma AllHandled(s: ServerView, batch: seq<ServerEvent>, k: nat)
    requires k <= |batch| && HandledFrom(s, batch, 0) == k
    ensures Handled(s, batch) == batch[..k]
  {
  }

  lemma PollIs(s: ServerView, batch: seq<ServerEvent>, timeout: bool)
    ensures AfterPoll(s, batch, timeout) == if batch == [] then Idles(s, timeout) else ServerRun(s, Handled(s, batch))
    ensures batch == [] ==> ServerWrites(s, Handled(s, batch)) == []
  {
  }

  class ServerImpl {
    const test: Test
    var udp: bool
    var quic: bool
    var status: Status
    ghost var peers: seq<nat>

    ghost predicate Valid()
      reads this, test
    {
      test.Valid()
    }

    ghost function View(): ServerView
      reads this, test, test.streams
    {
      ServerView(test.View(), udp, quic, peers, status, test.ends)
    }

    constructor (settings: Settings)
      ensures Valid() && fresh(test) && test.streams == [] && View() == NewServer(settings)
    {
      test := new Test(settings);
      udp, quic, status := false, false, Live;
      peers := [];
    }

    method Control(e: ServerEvent) returns (sent: seq<Message>, drained: bool, woke: bool)
      requires Valid()
      modifies this, test, test.streams
      ensures Valid() && test.streams == old(test.streams)
      ensures Reaction(View(), sent, drained, woke) == OnControl(old(View()), e)
    {
      hide EndAll, ResultsOf;
      sent, drained, woke := [], false, false;
      match test.state {
        case Start =>
          if e.readable {
            if !e.inbox.Got? {
              status := if e.inbox.Lost? then Returned else Panicked;
            } else {
              drained := true;
              test.Transition(ParamExchange);
              sent := [Announce(ParamExchange)];
            }
          }
        case ParamExchange =>
          if e.readable {
            sent, drained := Parameters(e);
          }
        case CreateStreams =>
        case TestStart =>
        case TestRunning =>
          if e.readable {
            drained, woke := Told(e);
          }
        case TestEnd =>
          test.Finish(e.closing, e.now);
          test.Transition(ExchangeResults);
          woke := true;
        case ExchangeResults =>
          var reported := Report();
          sent := [ResultsMsg(reported)];
          test.Transition(End);
        case End =>
          status := Returned;
        case Wait =>
      }
    }

    /** `ParamExchange`: the settings, the listener for their transport, and the next state. */
    method Parameters(e: ServerEvent) returns (sent: seq<Message>, drained: bool)
      requires Valid() && test.state.ParamExchange? && e.readable
      modifies this, test
      ensures Valid() && test.streams == old(test.streams)
      ensures Reaction(View(), sent, drained, false) == OnControl(old(View()), e)
    {
      sent, drained := [], false;
      if !e.inbox.Got? {
        status := if e.inbox.Lost? then Returned else Panicked;
      } else {
        drained := true;
        if |e.inbox.msgs| == 1 && e.inbox.msgs[0].SettingsMsg? {
          test.settings := e.inbox.msgs[0].settings;
          match test.settings.conn {
            case TCP =>
            case TLS =>
            case UDP => udp := true;
            case QUIC => quic := true;
          }
          test.Transition(CreateStreams);
          sent := [Announce(CreateStreams)];
        } else {
          status := Panicked;
        }
      }
      assert test.Views() == old(test.Views());
    }

    /** `TestRunning`: the client's state byte, or the end if there is none to be had. */
    method Told(e: ServerEvent) returns (drained: bool, woke: bool)
      requires Valid() && test.state.TestRunning? && e.readable
      modifies this, test, test.streams
      ensures Valid() && test.streams == old(test.streams)
      ensures Reaction(View(), [], drained, woke) == OnControl(old(View()), e)
    {
      hide EndAll;
      drained, woke := e.inbox.Got?, !e.inbox.Unreadable?;
      if e.inbox.Unreadable? {
        status := Panicked;
      } else if e.inbox.Got? && |e.inbox.msgs| == 1 && e.inbox.msgs[0].StateMsg? {
        match FromCode(e.inbox.msgs[0].code) {
          case Some(state) =>
            test.Transition(state);
          case None =>
            status := Panicked;
            woke := false;
        }
      } else {
        test.Finish(e.closing, e.now);
        test.Transition(End);
      }
    }

    method Report() returns (r: Results)
      ensures r == ResultsOf(test.View())
    {
      var streams: seq<StreamResult> := [];
      for k := 0 to |test.streams|
        invariant |streams| == k && forall j :: 0 <= j < k ==> streams[j] == ResultOf(test.Views()[j])
      {
        var s := test.streams[k];
        streams := streams + [StreamResult(s.conn, s.elapsed, s.data)];
      }
      r := Results(streams, test.elapsed, test.data);
      assert streams == StreamResults(test.Views());
    }

    /** One of the four listener arms and its `create_*_stream`. */
    method Listener(e: ServerEvent, conn: Conn) returns (sent: seq<Message>)
      requires Valid()
      modifies this, test
      ensures Valid()
      ensures forall i :: 0 <= i < |test.streams| ==> test.streams[i] in old(test.streams) || fresh(test.streams[i])
      ensures Reaction(View(), sent, false, false) == OnListener(old(View()), e, conn)
    {
      sent := [];
      var consumes := conn.UDP? || conn.QUIC?;
      if !test.state.CreateStreams? || (consumes && !e.readable) {
        return;
      }
      if e.incoming.None? || (conn.UDP? && !udp) || (conn.QUIC? && !quic) {
        status := Panicked;
        return;
      }
      sent := Accept(e, conn);
    }

    /** The new stream, its token and its peer. */
    method Join(e: ServerEvent, conn: Conn)
      requires Valid() && e.incoming.Some?
      modifies this`peers, test
      ensures Valid()
      ensures forall i :: 0 <= i < |test.streams| ==> test.streams[i] in old(test.streams) || fresh(test.streams[i])
      ensures View() == old(Joined(View(), e, conn))
    {
      hide NewStream;
      test.AddStream(conn, e.now);
      ghost var streams := test.Views();
      test.tokens := test.tokens + [|test.tokens|];
      peers := peers + [e.incoming.value];
      assert test.Views() == streams;
    }

    /** The pending listener becomes the stream and is replaced while streams are missing;
        the last stream starts the test. */
    method Accept(e: ServerEvent, conn: Conn) returns (sent: seq<Message>)
      requires Valid() && test.state.CreateStreams? && e.incoming.Some?
      requires (conn.UDP? ==> udp && e.readable) && (conn.QUIC? ==> quic && e.readable)
      modifies this, test
      ensures Valid()
      ensures forall i :: 0 <= i < |test.streams| ==> test.streams[i] in old(test.streams) || fresh(test.streams[i])
      ensures Reaction(View(), sent, false, false) == OnListener(old(View()), e, conn)
    {
      hide NewStream;
      sent := [];
      Join(e, conn);
      ghost var streams := test.Views();
      if conn.UDP? {
        udp := |test.streams| < test.settings.numStreams;
      } else if conn.QUIC? {
        quic := |test.streams| < test.settings.numStreams;
      }
      if |test.streams| > test.settings.numStreams {
        status := Panicked;
      } else if |test.streams| == test.settings.numStreams {
        test.state := TestStart;
        sent := [Announce(TestStart)];
      }
      assert test.Views() == streams;
    }

    method Stream(e: ServerEvent) returns (sent: seq<Message>)
      requires Valid()
      modifies this, test, test.streams
      ensures Valid() && test.streams == old(test.streams)
      ensures Reaction(View(), sent, false, false) == OnStream(old(View()), e)
    {
      hide StartAll, ReadAll;
      sent := [];
      if test.state.TestRunning? && e.readable {
        if e.token >= |test.streams| {
          status := Panicked;
        } else {
          test.ReceiveBurst(e.token, e.received);
        }
      } else if test.state.TestStart? && e.readable {
        if e.token >= |test.streams| {
          status := Panicked;
        } else if !e.cookie.CookieRead? {
          status := if e.cookie.CookieFailed? && !test.settings.conn.QUIC? then Returned else Panicked;
        } else {
          ghost var was := test.Views();
          test.cookieCount := (test.cookieCount + 1) % 256;
          assert test.Views() == was;
          if test.settings.numStreams == test.cookieCount {
            test.Transition(TestRunning);
            sent := [Announce(TestRunning)];
            test.Begin(e.now);
          }
        }
      }
    }

    method HandleEvent(e: ServerEvent) returns (sent: seq<Message>, drained: bool, woke: bool)
      requires Valid()
      modifies this, test, test.streams
      ensures Valid()
      ensures forall i :: 0 <= i < |test.streams| ==> test.streams[i] in old(test.streams) || fresh(test.streams[i])
      ensures Reaction(View(), sent, drained, woke) == ServerStep(old(View()), e)
    {
      sent, drained, woke := [], false, false;
      if !status.Live? {
        return;
      }
      if e.token == CONTROL {
        sent, drained, woke := Control(e);
      } else if e.token == TCP_LISTENER {
        sent := Listener(e, TCP);
      } else if e.token == UDP_LISTENER {
        sent := Listener(e, UDP);
      } else if e.token == QUIC_LISTENER {
        sent := Listener(e, QUIC);
      } else if e.token == TLS_LISTENER {
        sent := Listener(e, TLS);
      } else {
        sent := Stream(e);
      }
    }

    /** The events of one poll, in turn, until one of them breaks off. */
    method HandleBatch(batch: seq<ServerEvent>) returns (sent: seq<Message>)
      requires Valid()
      modifies this, test, test.streams
      ensures Valid()
      ensures forall i :: 0 <= i < |test.streams| ==> test.streams[i] in old(test.streams) || fresh(test.streams[i])
      ensures var handled := Handled(old(View()), batch);
              View() == ServerRun(old(View()), handled) && sent == ServerWrites(old(View()), handled)
    {
      hide ServerRun, ServerWrites, ServerStep, Breaks, HandledFrom, Handled;
      ghost var s := View();
      var k, broken := 0, false;
      sent := [];
      NoneServed(s);
      while k < |batch| && !broken
        invariant Valid() && k <= |batch|
        invariant View() == ServerRun(s, batch[..k]) && sent == ServerWrites(s, batch[..k])
        invariant HandledFrom(s, batch, 0) == if broken then k else HandledFrom(s, batch, k)
        invariant forall i :: 0 <= i < |test.streams| ==> test.streams[i] in old(test.streams) || fresh(test.streams[i])
      {
        var state := test.state;
        var more, drained, woke := HandleEvent(batch[k]);
        broken := Breaks(state, batch[k]);
        NextHandled(s, batch, k);
        sent, k := sent + more, k + 1;
      }
      if !broken {
        NoneLeft(s, batch);
      }
      AllHandled(s, batch, k);
    }

    /** The event loop: one poll after another until the server has returned. */
    method Run(polls: seq<seq<ServerEvent>>, timeout: bool) returns (sent: seq<Message>)
      requires Valid()
      modifies this, test, test.streams
      ensures Valid() && View() == AfterPolls(old(View()), polls, timeout)
      ensures sent == PollsWrite(old(View()), polls, timeout)
      ensures old(ServerOk(View())) ==> ServerOk(View())
    {
      hide AfterPoll, Handled, ServerWrites, ServerOk;
      ghost var s := View();
      sent := [];
      if ServerOk(s) {
        PollsFinaliseOnce(s, polls, timeout);
      }
      for k := 0 to |polls|
        invariant Valid() && View() == AfterPolls(s, polls[..k], timeout) && sent == PollsWrite(s, polls[..k], timeout)
        invariant forall i :: 0 <= i < |test.streams| ==> test.streams[i] in old(test.streams) || fresh(test.streams[i])
      {
        if !status.Live? {
          NoPollOnceGone(s, polls, k, timeout);
          return;
        }
        assert polls[..k + 1] == polls[..k] + [polls[k]];
        OneMorePoll(s, polls[..k], polls[k], timeout);
        ghost var before := View();
        PollIs(before, polls[k], timeout);
        if polls[k] == [] {
          status := if timeout then Returned else Panicked;
          assert test.View() == before.test;
          assert sent + [] == sent;
        } else {
          var more := HandleBatch(polls[k]);
          sent := sent + more;
        }
      }
      assert polls[..|polls|] == polls;
    }
  }
}
