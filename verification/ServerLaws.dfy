/** What the server's event loop promises beyond the runs of both sides: which events of a batch count, when a
    test is finalised, and what becomes of lost connections, silence and events out of turn (src/server.rs). */
module ServerLaws {
  import opened Wire
  import opened Stats
  import opened Session
  import opened Endpoints

  // ----- batches

  predicate ForStream(e: ServerEvent)
  {
    e.token !in {CONTROL, TCP_LISTENER, UDP_LISTENER, QUIC_LISTENER, TLS_LISTENER}
  }

  /** Events after which the batch goes on. */
  predicate Ordinary(state: TestState, e: ServerEvent)
  {
    || (e.token == CONTROL && state != Wait)
    || e.token in {TCP_LISTENER, UDP_LISTENER, TLS_LISTENER}
    || (e.token == QUIC_LISTENER && (state != CreateStreams || !e.readable))
    || (ForStream(e) && state in {TestStart, TestRunning, TestEnd})
  }

  /** Events after which it does not: one accepted QUIC connection, a stream event when no
      stream should have one, and a control event in the unused state. */
  predicate Dropping(state: TestState, e: ServerEvent)
  {
    || (e.token == CONTROL && state == Wait)
    || (e.token == QUIC_LISTENER && state == CreateStreams && e.readable)
    || (ForStream(e) && state in {Start, ParamExchange, CreateStreams, Wait, ExchangeResults, End})
  }

  lemma OrdinaryOrDropping(state: TestState, e: ServerEvent)
    ensures Ordinary(state, e) <==> !Dropping(state, e)
    ensures Breaks(state, e) <==> Dropping(state, e)
  {
  }

  ghost predicate AllOrdinary(s: ServerView, batch: seq<ServerEvent>)
  {
    forall k :: 0 <= k < |batch| ==> Ordinary(ServerRun(s, batch[..k]).test.state, batch[k])
  }

  lemma {:induction false} HandledPast(s: ServerView, pre: seq<ServerEvent>, rest: seq<ServerEvent>, k: nat)
    requires k <= |pre| && AllOrdinary(s, pre)
    ensures HandledFrom(s, pre + rest, k) == HandledFrom(s, pre + rest, |pre|)
    decreases |pre| - k
  {
    hide ServerRun, Ordinary, Breaks;
    if k < |pre| {
      assert (pre + rest)[..k] == pre[..k] && (pre + rest)[k] == pre[k];
      OrdinaryOrDropping(ServerRun(s, pre[..k]).test.state, pre[k]);
      HandledPast(s, pre, rest, k + 1);
    }
  }

  /** A batch of ordinary events is handled whole, one event after another. */
  lemma WholeBatch(s: ServerView, batch: seq<ServerEvent>, timeout: bool)
    requires batch != [] && AllOrdinary(s, batch)
    ensures AfterPoll(s, batch, timeout) == ServerRun(s, batch)
    ensures PollsWrite(s, [batch], timeout) == ServerWrites(s, batch)
  {
    hide ServerRun, ServerWrites, AllOrdinary;
    HandledPast(s, batch, [], 0);
    assert batch + [] == batch && batch[..|batch|] == batch;
    assert [batch][..0] == [] && AfterPolls(s, [], timeout) == s;
    var none: seq<Message> := [];
    assert none + ServerWrites(s, batch) == ServerWrites(s, batch);
  }

  /** After the first dropping event the rest of the batch changes nothing. */
  lemma DroppedRest(s: ServerView, pre: seq<ServerEvent>, e: ServerEvent, rest: seq<ServerEvent>, timeout: bool)
    requires AllOrdinary(s, pre) && Dropping(ServerRun(s, pre).test.state, e)
    ensures AfterPoll(s, pre + [e] + rest, timeout) == ServerStep(ServerRun(s, pre), e).side
    ensures PollsWrite(s, [pre + [e] + rest], timeout) == ServerWrites(s, pre) + ServerStep(ServerRun(s, pre), e).sent
  {
    hide ServerRun, ServerStep, ServerWrites, AllOrdinary, Dropping, Breaks;
    var batch := pre + [e] + rest;
    assert batch == pre + ([e] + rest);
    HandledPast(s, pre, [e] + rest, 0);
    assert batch[..|pre|] == pre && batch[..|pre| + 1] == pre + [e];
    OrdinaryOrDropping(ServerRun(s, pre).test.state, e);
    OneMoreServed(s, pre, e);
    assert [batch][..0] == [] && AfterPolls(s, [], timeout) == s;
    var none: seq<Message> := [];
    assert none + ServerWrites(s, pre + [e]) == ServerWrites(s, pre + [e]);
  }

  /** A readable event of a stream does not keep the end of the test from being handled in the same batch. */
  lemma LateDataKeepsControl(s: ServerView, data: ServerEvent, control: ServerEvent, timeout: bool)
    requires s.status.Live? && s.test.state.TestEnd? && s.ends == 0
    requires ForStream(data) && data.readable && control.token == CONTROL
    ensures var s' := AfterPoll(s, [data, control], timeout);
            && s'.test.state == ExchangeResults && s'.ends == 1
            && s'.test == EndAll(s.test, control.closing, control.now).(state := ExchangeResults)
  {
    var batch := [data, control];
    assert batch[..0] == [] && batch[..1] == [data];
    assert ServerRun(s, [data]) == s;
    WholeBatch(s, batch, timeout);
  }

  // ----- finalising

  /** The client has told the server, in place of the end of the test, to skip it. */
  predicate SkipsEnd(s: ServerView, e: ServerEvent)
  {
    && s.status.Live? && s.test.state.TestRunning? && e.token == CONTROL && e.readable && e.inbox.Got?
    && |e.inbox.msgs| == 1 && e.inbox.msgs[0].StateMsg? && e.inbox.msgs[0].code in {7, 8}
  }

  ghost predicate EverSkips(s: ServerView, es: seq<ServerEvent>)
  {
    exists k :: 0 <= k < |es| && SkipsEnd(ServerRun(s, es[..k]), es[k])
  }

  /** A server in one of its last two states has finalised, with nothing left in an open interval. */
  ghost predicate Finalised(s: ServerView)
  {
    s.test.state in {ExchangeResults, End} ==> s.ends == 1 && NothingOpen(s.test)
  }

  ghost predicate NothingOpen(t: TestView)
  {
    forall k :: 0 <= k < |t.streams| ==> t.streams[k].temp.bytes == 0
  }

  lemma EndsOpen(t: TestView, closing: nat -> Closing, now: nat)
    ensures NothingOpen(EndAll(t, closing, now))
  {
    forall k | 0 <= k < |t.streams|
      ensures EndAll(t, closing, now).streams[k].temp.bytes == 0
    {
      var c := closing(k);
      assert EndAll(t, closing, now).streams[k] == Close(t.streams[k], t.settings.conn, c);
    }
  }

  lemma ControlFinalises(s: ServerView, e: ServerEvent)
    requires Finalised(s) && ServerOk(s) && s.status.Live? && e.token == CONTROL
    ensures Finalised(OnControl(s, e).side) <==> !SkipsEnd(s, e)
  {
    hide CloseAll, Totalled, ResultsOf;
    EndsOpen(s.test, e.closing, e.now);
  }

  /** Listeners and streams do nothing in the last two states, and do not lead there. */
  lemma OthersFinaliseNothing(s: ServerView, e: ServerEvent)
    requires e.token != CONTROL
    ensures var s' := ServerStep(s, e).side;
            if s.test.state in {ExchangeResults, End} then s'.test == s.test && s'.ends == s.ends
            else s'.test.state !in {ExchangeResults, End}
  {
    hide ReadOne;
  }

  lemma StepFinalises(s: ServerView, e: ServerEvent)
    requires Finalised(s) && ServerOk(s)
    ensures Finalised(ServerStep(s, e).side) <==> !SkipsEnd(s, e)
  {
    hide NothingOpen, OnControl, OnListener, OnStream;
    if s.status.Live? && e.token == CONTROL {
      ControlFinalises(s, e);
    } else if e.token != CONTROL {
      OthersFinaliseNothing(s, e);
    }
  }

  lemma SkippedStays(s: ServerView, e: ServerEvent)
    requires !Finalised(s) && ServerOk(s) && s.ends == 0
    ensures !Finalised(ServerStep(s, e).side) && ServerStep(s, e).side.ends == 0
  {
  }

  /** At least once: over every sequence of events, whatever is lost or malformed, a server that gets to one of its last
      two states has finalised its test, unless it has drained their byte while the test was running. */
  lemma {:induction false} ServerFinalisesIff(settings: Settings, es: seq<ServerEvent>)
    ensures Finalised(ServerRun(NewServer(settings), es)) <==> !EverSkips(NewServer(settings), es)
    ensures EverSkips(NewServer(settings), es) ==> ServerRun(NewServer(settings), es).ends == 0
  {
    hide ServerStep, SkipsEnd, Finalised, ServerOk;
    if es == [] {
      NewIsFinalised(settings);
    } else {
      var s, init, e := NewServer(settings), es[..|es| - 1], es[|es| - 1];
      ServerFinalisesIff(settings, init);
      ServerFinalisesOnce(settings, init);
      OneMoreSkips(s, init, e);
      assert es == init + [e];
      if Finalised(ServerRun(s, init)) {
        StepFinalises(ServerRun(s, init), e);
        if SkipsEnd(ServerRun(s, init), e) {
          SkipEndsNothing(ServerRun(s, init), e);
        }
      } else {
        SkippedStays(ServerRun(s, init), e);
      }
    }
  }

  lemma NewIsFinalised(settings: Settings)
    ensures Finalised(NewServer(settings))
  {
  }

  lemma SkipEndsNothing(s: ServerView, e: ServerEvent)
    requires SkipsEnd(s, e) && ServerOk(s)
    ensures ServerStep(s, e).side.ends == 0
  {
  }

  lemma OneMoreSkips(s: ServerView, es: seq<ServerEvent>, e: ServerEvent)
    ensures EverSkips(s, es + [e]) <==> EverSkips(s, es) || SkipsEnd(ServerRun(s, es), e)
  {
    hide SkipsEnd, ServerRun;
    var more := es + [e];
    assert forall k :: 0 <= k < |es| ==> more[..k] == es[..k] && more[k] == es[k];
    assert more[..|es|] == es && more[|es|] == e;
    if EverSkips(s, es) {
      var k :| 0 <= k < |es| && SkipsEnd(ServerRun(s, es[..k]), es[k]);
      assert SkipsEnd(ServerRun(s, more[..k]), more[k]);
    }
    if SkipsEnd(ServerRun(s, es), e) {
      assert SkipsEnd(ServerRun(s, more[..|es|]), more[|es|]);
    }
  }

  // ----- a client that is gone

  predicate Hears(e: ServerEvent, inbox: Inbox)
  {
    e.token == CONTROL && e.readable && e.inbox == inbox
  }

  /** A lost connection makes the server return, with the test finalised first if it was running. While streams are
      being created and cookies drained it goes unnoticed. */
  lemma LostClient(s: ServerView, lost: ServerEvent, next: ServerEvent)
    requires s.status.Live? && ServerOk(s) && Hears(lost, Lost) && next.token == CONTROL
    ensures var r, then_ := ServerStep(s, lost), ServerRun(s, [lost] + [next]);
            match s.test.state
            case Start => r == Quiet(s.(status := Returned))
            case ParamExchange => r == Quiet(s.(status := Returned))
            case CreateStreams => r == Quiet(s)
            case TestStart => r == Quiet(s)
            case TestRunning =>
              && r.side.test == EndAll(s.test, lost.closing, lost.now).(state := End) && r.side.ends == 1
              && NothingOpen(r.side.test) && r.woke && r.sent == [] && then_.status == Returned
            case TestEnd => r.side.test.state == ExchangeResults && r.woke
            case Wait => r == Quiet(s)
            case ExchangeResults => r.side.test.state == End
            case End => r.side.status == Returned
  {
    EndsOpen(s.test, lost.closing, lost.now);
    assert ([lost] + [next])[..1] == [lost] && [lost][..0] == [];
    assert ServerRun(s, [lost]) == ServerStep(s, lost).side;
  }

  /** Anything but a single byte ends a running test as well; a byte that is no state is a panic,
      and so are settings that do not parse. */
  lemma MalformedMessage(s: ServerView, e: ServerEvent)
    requires s.status.Live? && ServerOk(s) && e.token == CONTROL && e.readable && e.inbox.Got?
    ensures var r := ServerStep(s, e);
            && (s.test.state.TestRunning? && (|e.inbox.msgs| != 1 || !e.inbox.msgs[0].StateMsg?) ==>
                  r.side.test == EndAll(s.test, e.closing, e.now).(state := End) && r.side.ends == 1)
            && (s.test.state.TestRunning? && |e.inbox.msgs| == 1 && e.inbox.msgs[0].StateMsg? ==>
                  if e.inbox.msgs[0].code > 8 then r.side.status == Panicked && r.side.test == s.test
                  else Code(r.side.test.state) == e.inbox.msgs[0].code && r.side.ends == s.ends)
            && (s.test.state.ParamExchange? && (|e.inbox.msgs| != 1 || !e.inbox.msgs[0].SettingsMsg?) ==>
                  r.side.status == Panicked && r.sent == [])
  {
    hide EndAll;
  }

  /** A poll without an event makes the server return after its idle timeout,
      and panic if it has none; nothing else is touched. */
  lemma IdleReturns(s: ServerView, polls: seq<seq<ServerEvent>>, timeout: bool)
    requires AfterPolls(s, polls, timeout).status.Live?
    ensures var idle := AfterPolls(s, polls + [[]], timeout);
            && idle == AfterPolls(s, polls, timeout).(status := if timeout then Returned else Panicked)
            && PollsWrite(s, polls + [[]], timeout) == PollsWrite(s, polls, timeout)
  {
    OneMorePoll(s, polls, [], timeout);
    assert Handled(AfterPolls(s, polls, timeout), []) == [];
    assert PollsWrite(s, polls, timeout) + [] == PollsWrite(s, polls, timeout);
  }

  // ----- events out of turn

  /** What the listeners do with an event: nothing outside `CreateStreams`, nothing without a datagram or a handshake to
      read; TCP and TLS accept whatever kind of event it is. A connection that is not there is a panic. */
  lemma ListenerEvent(s: ServerView, e: ServerEvent)
    requires s.status.Live? && e.token in {TCP_LISTENER, TLS_LISTENER, UDP_LISTENER, QUIC_LISTENER}
    ensures var r := ServerStep(s, e);
            var needsData := e.token in {UDP_LISTENER, QUIC_LISTENER};
            && (s.test.state != CreateStreams || (needsData && !e.readable) ==> r == Quiet(s))
            && (s.test.state == CreateStreams && !(needsData && !e.readable) ==>
                  if e.incoming.None? || (e.token == UDP_LISTENER && !s.udp) || (e.token == QUIC_LISTENER && !s.quic)
                  then r == Quiet(s.(status := Panicked))
                  else |r.side.test.streams| == |s.test.streams| + 1
                       && (r.side.status.Panicked? <==> |s.test.streams| >= s.test.settings.numStreams))
  {
  }

  /** What streams do with an event: nothing unless it is readable and the server is draining cookies or data. */
  lemma StreamEvent(s: ServerView, e: ServerEvent)
    requires s.status.Live? && ForStream(e)
    ensures var r := ServerStep(s, e);
            && (!e.readable || s.test.state !in {TestStart, TestRunning} ==> r == Quiet(s))
            && (e.readable && s.test.state in {TestStart, TestRunning} && e.token >= |s.test.streams| ==>
                  r == Quiet(s.(status := Panicked)))
            && (e.readable && s.test.state == TestRunning && e.token < |s.test.streams| ==>
                  r.side.test.streams == s.test.streams[e.token := ReceiveAll(s.test.streams[e.token], e.received)])
            && (e.readable && s.test.state == TestStart && e.token < |s.test.streams| && e.cookie != CookieRead ==>
                  && r.side.test == s.test && r.sent == []
                  && r.side.status == if e.cookie == CookieFailed && s.test.settings.conn != QUIC then Returned
                                      else Panicked)
  {
    if s.test.state.TestRunning? && e.readable && e.token < |s.test.streams| {
      ReadAllIsReceiveAll(s.test, e.token, e.received);
    }
  }

  /** Control events that cannot be read change nothing before the end of the test; from then on any three of them, of
      whatever kind, finalise it, report it once and make the server return. */
  lemma AnyControlEvent(s: ServerView, a: ServerEvent, b: ServerEvent, c: ServerEvent)
    requires s.status.Live? && a.token == b.token == c.token == CONTROL && !a.readable
    ensures !(s.test.state in {TestEnd, ExchangeResults, End}) ==> ServerStep(s, a) == Quiet(s)
    ensures s.test.state == TestEnd ==>
              var ended := EndAll(s.test, a.closing, a.now).(state := End);
              && ServerRun(s, [a] + [b] + [c]) == s.(test := ended, ends := s.ends + 1, status := Returned)
              && ServerWrites(s, [a] + [b] + [c]) == [ResultsMsg(ResultsOf(ended))]
  {
    hide EndAll;
    var none: seq<ServerEvent> := [];
    OneMoreServed(s, none, a);
    assert none + [a] == [a];
    OneMoreServed(s, [a], b);
    OneMoreServed(s, [a] + [b], c);
  }
}
