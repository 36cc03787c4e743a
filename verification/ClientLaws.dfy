/** What the client's event loop promises beyond the runs of both sides: which events it answers, how far a burst goes,
    when it ends the test, and what becomes of a lost connection (src/client.rs). */
module ClientLaws {
  import opened Arithmetic
  import opened Wire
  import opened Stats
  import opened Session
  import opened Endpoints
  import opened Client
  import opened ServerLaws

  predicate CanSend(c: ClientView)
  {
    c.status.Live? && c.test.state.TestRunning? && c.running && c.test.streams != []
  }

  lemma OneMorePolled(c: ClientView, es: seq<PollEvent>, e: PollEvent)
    ensures ClientAfter(c, es + [e]) == OnPoll(ClientAfter(c, es), e).side
    ensures ClientSays(c, es + [e]) == ClientSays(c, es) + OnPoll(ClientAfter(c, es), e).sent
  {
    hide OnPoll;
    assert (es + [e])[..|es|] == es;
  }

  // ----- events that are not answered

  /** A stream event that is not writable changes nothing and writes nothing, and
      so does any stream event while the client is not sending. */
  lemma StreamEventIgnored(c: ClientView, es: seq<PollEvent>, e: PollEvent)
    requires e.StreamEvent? && (!e.writable || !CanSend(ClientAfter(c, es)))
    ensures ClientAfter(c, es + [e]) == ClientAfter(c, es) && ClientSays(c, es + [e]) == ClientSays(c, es)
  {
    hide OnClientControl, LoopThrough, WriteAll, FirstStop, Turns, ElapsedAfter, Over, ClientStep;
    OneMorePolled(c, es, e);
    assert ClientSays(c, es) + [] == ClientSays(c, es);
  }

  /** A client that has yet to send its cookie waits until it can write; one that is running or waits for results
      answers nothing but a message; in its last state anything makes it return. */
  lemma ControlEventIgnored(c: ClientView, e: PollEvent)
    requires e.ControlEvent? && c.status.Live? && !c.busy
    ensures var r := OnPoll(c, e);
            && (c.test.state == Start && !e.writable ==> r == Quiet(c))
            && (c.test.state in {TestRunning, TestEnd, Wait, ExchangeResults} && !e.readable ==> r == Quiet(c))
            && (c.test.state == End ==> r == Quiet(c.(status := Returned)))
  {
  }

  // ----- what a burst writes

  function SentTurns(turns: seq<Turn>): nat
  {
    if turns == [] then 0 else SentTurns(turns[..|turns| - 1]) + (if turns[|turns| - 1].Sent? then 1 else 0)
  }

  function SentBytes(turns: seq<Turn>, script: seq<Attempt>): nat
    requires |turns| <= |script|
  {
    if turns == [] then 0
    else
      var k := |turns| - 1;
      SentBytes(turns[..k], script) + (if turns[k].Sent? && script[k].res.Wrote? then script[k].res.n else 0)
  }

  lemma {:induction false} TurnsPrefix(t: TestView, script: seq<Attempt>, k: nat)
    requires t.streams != [] && k <= |script|
    ensures Turns(t, script[..k]) == Turns(t, script)[..k]
    decreases |script|
  {
    if k == |script| {
      assert script[..k] == script;
    } else {
      var init := script[..|script| - 1];
      assert init[..k] == script[..k];
      TurnsPrefix(t, init, k);
    }
  }

  lemma {:induction false} BytesPrefix(turns: seq<Turn>, script: seq<Attempt>, k: nat)
    requires |turns| <= k <= |script|
    ensures SentBytes(turns, script[..k]) == SentBytes(turns, script)
  {
    if turns != [] {
      BytesPrefix(turns[..|turns| - 1], script, k);
    }
  }

  lemma {:induction false} WriteAllCounts(t: TestView, script: seq<Attempt>)
    requires t.streams != []
    ensures var data, turns := WriteAll(t, script).data, Turns(t, script);
            data.blks == t.data.blks + SentTurns(turns) && data.bytes == t.data.bytes + SentBytes(turns, script)
  {
    if script != [] {
      var k := |script| - 1;
      WriteAllCounts(t, script[..k]);
      assert Turns(t, script)[..k] == Turns(t, script[..k]);
      BytesPrefix(Turns(t, script[..k]), script, k);
    }
  }

  /** How many attempts of the script a burst makes. */
  function Length(c: ClientView, script: seq<Attempt>): (k: nat)
    requires c.test.streams != []
    ensures k <= |script| && (script != [] ==> k > 0)
  {
    FirstStop(c.test, Turns(c.test, script), script, 0)
  }

  /** The client's counts after a stream event: one block, and its bytes, for each attempt that went through. */
  lemma BurstCounts(c: ClientView, e: PollEvent)
    requires CanSend(c) && e.StreamEvent? && e.writable
    ensures var data, turns := OnPoll(c, e).side.test.data, Turns(c.test, e.script)[..Length(c, e.script)];
            && data.blks == c.test.data.blks + SentTurns(turns)
            && data.bytes == c.test.data.bytes + SentBytes(turns, e.script)
  {
    hide WriteAll, Turns, FirstStop, CloseAll;
    var k := Length(c, e.script);
    WriteAllCounts(c.test, e.script[..k]);
    TurnsPrefix(c.test, e.script, k);
    BytesPrefix(Turns(c.test, e.script)[..k], e.script, k);
  }

  lemma {:induction false} FirstSent(turns: seq<Turn>, script: seq<Attempt>)
    requires 0 < |turns| <= |script| && turns[0].Sent? && script[0].res.Wrote?
    ensures SentTurns(turns) >= 1 && SentBytes(turns, script) >= script[0].res.n
  {
    if |turns| > 1 {
      FirstSent(turns[..|turns| - 1], script);
    } else {
      assert turns[..0] == [];
    }
  }

  /** A writable stream event whose first attempt the pacer and the socket let through sends at least that. */
  lemma WritableWrites(c: ClientView, es: seq<PollEvent>, e: PollEvent)
    requires e.StreamEvent? && e.writable && CanSend(ClientAfter(c, es)) && e.script != []
    requires TurnOf(ClientAfter(c, es).test, 0, e.script[0]).Sent?
    ensures var before, after := ClientAfter(c, es).test.data, ClientAfter(c, es + [e]).test.data;
            after.blks >= before.blks + 1 && after.bytes >= before.bytes + e.script[0].res.n && e.script[0].res.n > 0
  {
    hide OnPoll, Turns;
    var before := ClientAfter(c, es);
    var k := Length(before, e.script);
    OneMorePolled(c, es, e);
    BurstCounts(before, e);
    TurnsAt(before.test, e.script, 0);
    assert WriteAll(before.test, e.script[..0]) == before.test;
    FirstSent(Turns(before.test, e.script)[..k], e.script);
  }

  // ----- how far a burst goes

  /** Attempt `j` pushed an interval, and its reading of the clock is past the test's time. */
  predicate ReadLate(t: TestView, turns: seq<Turn>, script: seq<Attempt>, j: nat)
    requires j < |script| == |turns|
  {
    turns[j] == Sent(true) && script[j].checked > t.start + t.settings.time
  }

  lemma {:induction false} AnyLateIff(t: TestView, turns: seq<Turn>, script: seq<Attempt>, lo: nat, hi: nat)
    requires hi <= |script| == |turns|
    ensures AnyLate(t, turns, script, lo, hi) <==> exists j :: lo <= j < hi && ReadLate(t, turns, script, j)
  {
    if lo < hi {
      AnyLateIff(t, turns, script, lo, hi - 1);
      assert LateAt(t, turns, script, hi - 1) <==> ReadLate(t, turns, script, hi - 1);
    }
  }

  lemma {:induction false} NoStopBefore(t: TestView, turns: seq<Turn>, script: seq<Attempt>, k: nat, j: nat)
    requires t.streams != [] && k <= |script| == |turns| && k <= j < FirstStop(t, turns, script, k)
    ensures !StopsAt(t, turns, script, j)
    decreases |script| - k
  {
    if k < j {
      NoStopBefore(t, turns, script, k + 1, j);
    }
  }

  lemma {:induction false} StopsOrEnds(t: TestView, turns: seq<Turn>, script: seq<Attempt>, k: nat)
    requires t.streams != [] && k <= |script| == |turns|
    ensures var m := FirstStop(t, turns, script, k); m == |script| || StopsAt(t, turns, script, m)
    decreases |script| - k
  {
    if k < |script| && !StopsAt(t, turns, script, k) {
      StopsOrEnds(t, turns, script, k + 1);
    }
  }

  /** The end of the round that attempt `j` is in. */
  lemma RoundOf(j: nat, n: nat)
    requires n > 0
    ensures j % n <= j && (j - j % n + n) % n == 0 && j < j - j % n + n
  {
    RemainderIsUnique(j - j % n + n, n, j / n + 1, 0);
  }

  /** No attempt follows a blocked one, and none follows the round in which the time was read to be over; nothing
      else makes a burst leave off. */
  lemma BurstShape(c: ClientView, script: seq<Attempt>)
    requires c.test.streams != []
    ensures var turns, n, k := Turns(c.test, script), |c.test.streams|, Length(c, script);
            && (forall j :: 0 <= j < k - 1 ==> !turns[j].Blocked?)
            && (forall j :: 0 <= j < k && ReadLate(c.test, turns, script, j) ==> k <= j - j % n + n)
            && (k < |script| ==>
                  || turns[k - 1].Blocked?
                  || (k % n == 0 && exists j :: 0 <= j < k && k <= j + n && ReadLate(c.test, turns, script, j)))
  {
    hide Turns, FirstStop, StopsAt, AnyLate;
    var turns, n, k := Turns(c.test, script), |c.test.streams|, Length(c, script);
    forall j | 0 <= j < k - 1
      ensures !turns[j].Blocked?
    {
      if turns[j].Blocked? {
        NotStopped(c, script, j + 1);
        BlockedStops(c.test, turns, script, j + 1);
      }
    }
    forall j | 0 <= j < k && ReadLate(c.test, turns, script, j)
      ensures k <= j - j % n + n
    {
      var m := j - j % n + n;
      RoundOf(j, n);
      if m < k {
        NotStopped(c, script, m);
        LateStops(c.test, turns, script, m, j);
      }
    }
    FirstStopIs(c, script);
    if k < |script| {
      StopMeans(c.test, turns, script, k);
    }
  }

  lemma FirstStopIs(c: ClientView, script: seq<Attempt>)
    requires c.test.streams != []
    ensures var k := Length(c, script); k == |script| || StopsAt(c.test, Turns(c.test, script), script, k)
  {
    hide Turns, StopsAt;
    StopsOrEnds(c.test, Turns(c.test, script), script, 0);
  }

  lemma NotStopped(c: ClientView, script: seq<Attempt>, j: nat)
    requires c.test.streams != [] && j < Length(c, script)
    ensures !StopsAt(c.test, Turns(c.test, script), script, j)
  {
    hide Turns, StopsAt;
    NoStopBefore(c.test, Turns(c.test, script), script, 0, j);
  }

  lemma BlockedStops(t: TestView, turns: seq<Turn>, script: seq<Attempt>, k: nat)
    requires t.streams != [] && 0 < k <= |script| == |turns| && turns[k - 1].Blocked?
    ensures StopsAt(t, turns, script, k)
  {
  }

  lemma LateStops(t: TestView, turns: seq<Turn>, script: seq<Attempt>, m: nat, j: nat)
    requires t.streams != [] && m <= |script| == |turns| && m % |t.streams| == 0
    requires j < m <= j + |t.streams| && |t.streams| <= m && ReadLate(t, turns, script, j)
    ensures StopsAt(t, turns, script, m)
  {
    PositionIsRemainder(m, |t.streams|);
    AnyLateIff(t, turns, script, m - |t.streams|, m);
  }

  lemma StopMeans(t: TestView, turns: seq<Turn>, script: seq<Attempt>, k: nat)
    requires t.streams != [] && k <= |script| == |turns| && StopsAt(t, turns, script, k)
    ensures var n := |t.streams|;
            && k > 0
            && (turns[k - 1].Blocked?
                || (k % n == 0 && exists j :: 0 <= j < k && k <= j + n && ReadLate(t, turns, script, j)))
  {
    PositionIsRemainder(k, |t.streams|);
    if |t.streams| <= k {
      AnyLateIff(t, turns, script, k - |t.streams|, k);
    }
  }

  // ----- the end of the test

  predicate Pushed(turns: seq<Turn>, j: nat)
    requires j < |turns|
  {
    turns[j] == Sent(true)
  }

  /** `x` is the last elapsed time read in the burst: when the last interval was pushed, or else at its beginning. */
  ghost predicate LastReading(c: ClientView, e: PollEvent, x: nat)
    requires c.test.streams != [] && e.StreamEvent?
  {
    var turns, k := Turns(c.test, e.script), Length(c, e.script);
    || (x == e.elapsed && forall j :: 0 <= j < k ==> !Pushed(turns, j))
    || (exists j :: 0 <= j < k && Pushed(turns, j) && x == Since(e.script[j].checked, c.test.start)
                    && forall i :: j < i < k ==> !Pushed(turns, i))
  }

  lemma {:induction false} ElapsedIsLast(t: TestView, turns: seq<Turn>, script: seq<Attempt>, k: nat, before: nat)
    requires k <= |script| == |turns|
    ensures var x := ElapsedAfter(t, turns, script, k, before);
            || (x == before && forall j :: 0 <= j < k ==> !Pushed(turns, j))
            || (exists j :: 0 <= j < k && Pushed(turns, j) && x == Since(script[j].checked, t.start)
                            && forall i :: j < i < k ==> !Pushed(turns, i))
  {
    if k > 0 {
      if !Pushed(turns, k - 1) {
        ElapsedIsLast(t, turns, script, k - 1, before);
      }
    }
  }

  lemma OneLastReading(c: ClientView, e: PollEvent, x: nat, y: nat)
    requires c.test.streams != [] && e.StreamEvent? && LastReading(c, e, x) && LastReading(c, e, y)
    ensures x == y
  {
    hide Turns, Length;
  }

  lemma ElapsedIsReading(c: ClientView, e: PollEvent)
    requires c.test.streams != [] && e.StreamEvent?
    ensures LastReading(c, e, ElapsedAfter(c.test, Turns(c.test, e.script), e.script, Length(c, e.script), e.elapsed))
  {
    hide Turns, FirstStop, ElapsedAfter;
    ElapsedIsLast(c.test, Turns(c.test, e.script), e.script, Length(c, e.script), e.elapsed);
  }

  /** A block or byte limit is set, and the counts have reached it. */
  predicate CountsReach(st: Settings, data: StreamData)
  {
    (st.blks > 0 && data.blks >= st.blks) || (st.bytes > 0 && data.bytes >= st.bytes)
  }

  /** The byte on the wire that ends a test. */
  const END_OF_TEST := StateMsg(5)

  /** A burst ends the test exactly when its counts have reached a limit or the last
      elapsed time read in it is more than the test's. */
  lemma BurstEndsIff(c: ClientView, e: PollEvent, x: nat)
    requires CanSend(c) && !c.busy && e.StreamEvent? && e.writable && LastReading(c, e, x)
    ensures var r := OnPoll(c, e);
            if CountsReach(c.test.settings, r.side.test.data) || x > c.test.settings.time
            then r.sent == [END_OF_TEST] && r.side.test.state == ExchangeResults && r.side.ends == c.ends + 1
            else r.sent == [] && CanSend(r.side) && r.side.ends == c.ends
  {
    hide WriteAll, Turns, Length, LastReading, ElapsedAfter, OnPoll;
    var elapsed := ElapsedAfter(c.test, Turns(c.test, e.script), e.script, Length(c, e.script), e.elapsed);
    ElapsedIsReading(c, e);
    OneLastReading(c, e, x, elapsed);
    BurstReaction(c, e);
    ConcludeReaction(c.(test := WriteAll(c.test, e.script[..Length(c, e.script)])), e.closing, e.now);
  }

  lemma BurstReaction(c: ClientView, e: PollEvent)
    requires CanSend(c) && e.StreamEvent? && e.writable
    ensures var k := Length(c, e.script);
            var sent := c.(test := WriteAll(c.test, e.script[..k]));
            OnPoll(c, e) == if Over(sent.test, ElapsedAfter(c.test, Turns(c.test, e.script), e.script, k, e.elapsed))
                            then ClientStep(sent, Conclude(e.closing, e.now)) else Quiet(sent)
  {
    hide WriteAll, Turns, FirstStop, ElapsedAfter, ClientStep, Over;
  }

  lemma ConcludeReaction(c: ClientView, closing: nat -> Closing, now: nat)
    requires CanSend(c) && !c.busy
    ensures var r := ClientStep(c, Conclude(closing, now));
            && r.sent == [END_OF_TEST] && r.side.test.state == ExchangeResults && r.side.ends == c.ends + 1
            && r.side.test.data.bytes == c.test.data.bytes && r.side.test.data.blks == c.test.data.blks
  {
    hide CloseAll;
  }

  /** What makes event `e` end the test of client `c`, which it leaves as `c'`: a limit, the elapsed time read
      when it came, or a reading after a pushed interval. */
  ghost predicate EndsTest(c: ClientView, e: PollEvent, c': ClientView, start: nat)
  {
    var st := c.test.settings;
    && CanSend(c) && e.StreamEvent? && e.writable
    && (|| CountsReach(st, c'.test.data)
        || e.elapsed > st.time
        || exists j :: 0 <= j < |e.script| && Pushed(Turns(c.test, e.script), j)
                       && e.script[j].checked > start + st.time)
  }

  /** Event `m` of the polls makes the client run. */
  ghost predicate MakesRun(c: ClientView, es: seq<PollEvent>, m: nat)
  {
    m < |es| && es[m].ControlEvent? && !ClientAfter(c, es[..m]).running && ClientAfter(c, es[..m + 1]).running
  }

  ghost predicate RunsSince(c: ClientView, es: seq<PollEvent>, start: nat)
  {
    exists m: nat :: MakesRun(c, es, m) && es[m].now == start
  }

  lemma {:induction false} LoopKeepsRunning(c: ClientView, now: nat)
    ensures var r := LoopThrough(c, now);
            && r.running == c.running && r.test.start == c.test.start && r.test.settings == c.test.settings
            && r.status == c.status && r.ends == c.ends
    decreases c.busy, if c.pos < LoopLength(c) then LoopLength(c) - c.pos else 0
  {
    if c.busy {
      LoopKeepsRunning(OnTurn(c, now), now);
    }
  }

  lemma PollKeepsStart(c: ClientView, e: PollEvent)
    ensures var c' := OnPoll(c, e).side;
            && c'.test.settings == c.test.settings
            && (c.running ==> c'.running && c'.test.start == c.test.start)
            && (!c.running && c'.running ==> e.ControlEvent? && c'.test.start == e.now)
  {
    hide LoopThrough, WriteAll, FirstStop, Turns, CloseAll, Totalled, Over, ElapsedAfter;
    if e.ControlEvent? && c.status.Live? {
      LoopKeepsRunning(OnClientControl(c, e.readable, e.writable, e.inbox, e.closing, e.now).side, e.now);
    }
  }

  lemma RunsStay(c: ClientView, es: seq<PollEvent>, e: PollEvent, start: nat)
    requires RunsSince(c, es, start)
    ensures RunsSince(c, es + [e], start)
  {
    hide ClientAfter;
    var m: nat :| MakesRun(c, es, m) && es[m].now == start;
    var more := es + [e];
    assert more[..m] == es[..m] && more[..m + 1] == es[..m + 1];
    assert MakesRun(c, more, m);
  }

  lemma {:induction false} RunningSince(settings: Settings, es: seq<PollEvent>)
    ensures var c := ClientAfter(NewClient(settings), es);
            c.test.settings == settings && (c.running ==> RunsSince(NewClient(settings), es, c.test.start))
  {
    hide OnPoll, RunsSince;
    if es != [] {
      var c, init, e := NewClient(settings), es[..|es| - 1], es[|es| - 1];
      RunningSince(settings, init);
      PollKeepsStart(ClientAfter(c, init), e);
      assert es == init + [e];
      if ClientAfter(c, init).running {
        RunsStay(c, init, e, ClientAfter(c, init).test.start);
      } else if ClientAfter(c, es).running {
        StartsRun(c, init, e);
      }
    }
  }

  lemma StartsRun(c: ClientView, es: seq<PollEvent>, e: PollEvent)
    requires e.ControlEvent? && !ClientAfter(c, es).running && ClientAfter(c, es + [e]).running
    ensures RunsSince(c, es + [e], e.now)
  {
    hide ClientAfter;
    var more := es + [e];
    assert more[..|es|] == es && more[..|es| + 1] == more;
    assert MakesRun(c, more, |es|);
  }

  /** Among all that the client can write, only a burst that ends the test writes its byte. */
  lemma SaysEnd(c: ClientView, e: PollEvent)
    requires END_OF_TEST in OnPoll(c, e).sent && !c.busy
    ensures EndsTest(c, e, OnPoll(c, e).side, c.test.start)
  {
    hide WriteAll, Turns, FirstStop, ElapsedAfter, CloseAll, Totalled, LoopThrough;
    if e.StreamEvent? && e.writable && CanSend(c) {
      var x := ElapsedAfter(c.test, Turns(c.test, e.script), e.script, Length(c, e.script), e.elapsed);
      ElapsedIsReading(c, e);
      BurstEndsIff(c, e, x);
    }
  }

  ghost predicate EverEnds(settings: Settings, es: seq<PollEvent>)
  {
    exists k: nat, start: nat :: EndsAt(settings, es, k, start)
  }

  ghost predicate EndsAt(settings: Settings, es: seq<PollEvent>, k: nat, start: nat)
  {
    var c := NewClient(settings);
    && k < |es| && RunsSince(c, es[..k], start)
    && EndsTest(ClientAfter(c, es[..k]), es[k], ClientAfter(c, es[..k + 1]), start)
  }

  /** A client announces the end of its test only when a limit has been reached in its counts, or after a reading
      of the clock more than the test's time after the event that made it run. */
  lemma {:induction false} EndsOnlyWhenOver(settings: Settings, es: seq<PollEvent>)
    ensures END_OF_TEST in ClientSays(NewClient(settings), es) ==> EverEnds(settings, es)
  {
    hide OnPoll, EndsTest, RunsSince, EverEnds;
    if es != [] && END_OF_TEST in ClientSays(NewClient(settings), es) {
      var c, init, e := NewClient(settings), es[..|es| - 1], es[|es| - 1];
      assert es == init + [e];
      if END_OF_TEST in ClientSays(c, init) {
        EndsOnlyWhenOver(settings, init);
        EndsStay(settings, init, e);
      } else {
        EventsAreRuns(c, init);
        SaysEnd(ClientAfter(c, init), e);
        EndsNow(settings, init, e);
      }
    }
  }

  lemma EndsStay(settings: Settings, es: seq<PollEvent>, e: PollEvent)
    requires EverEnds(settings, es)
    ensures EverEnds(settings, es + [e])
  {
    hide EndsTest, RunsSince, ClientAfter;
    var more := es + [e];
    var k: nat, start: nat :| EndsAt(settings, es, k, start);
    assert more[..k] == es[..k] && more[..k + 1] == es[..k + 1] && more[k] == es[k];
    assert EndsAt(settings, more, k, start);
  }

  lemma EndsNow(settings: Settings, es: seq<PollEvent>, e: PollEvent)
    requires var c := ClientAfter(NewClient(settings), es); EndsTest(c, e, OnPoll(c, e).side, c.test.start)
    ensures EverEnds(settings, es + [e])
  {
    hide OnPoll, EndsTest, RunsSince;
    var c, more := ClientAfter(NewClient(settings), es), es + [e];
    EndsWhileRunning(c, e);
    RunningSince(settings, es);
    OneMorePolled(NewClient(settings), es, e);
    assert more[..|es|] == es && more[..|es| + 1] == more && more[|es|] == e;
    assert EndsAt(settings, more, |es|, c.test.start);
  }

  lemma EndsWhileRunning(c: ClientView, e: PollEvent)
    requires EndsTest(c, e, OnPoll(c, e).side, c.test.start)
    ensures c.running
  {
  }

  // ----- finalising

  /** A client that waits for results or is past that has finalised its test, and
      so has one that returned while running. */
  ghost predicate ClientFinal(c: ClientView)
  {
    && (c.test.state in {ExchangeResults, End} || (c.running && c.status.Returned?) ==>
          c.ends == 1 && NothingOpen(c.test))
    && (c.running ==> c.test.state in {TestRunning, ExchangeResults, End})
  }

  lemma StepKeepsFinal(c: ClientView, e: ClientEvent)
    requires ClientOk(c) && ClientFinal(c)
    ensures ClientFinal(ClientStep(c, e).side)
  {
    hide CloseAll, Totalled, TurnOf, Restarted;
    match e
    case Control(readable, writable, inbox, closing, now) => EndsOpen(c.test, closing, now);
    case Conclude(closing, now) => EndsOpen(c.test, closing, now);
    case _ =>
  }

  /** At least once: whatever the server sends and loses, a client that gets past its test has finalised
      it, with nothing left in an open interval. */
  lemma {:induction false} ClientFinalises(settings: Settings, es: seq<ClientEvent>)
    ensures ClientFinal(ClientRun(NewClient(settings), es))
  {
    hide ClientStep, ClientOk, ClientFinal;
    if es == [] {
      NewIsFinal(settings);
    } else {
      ClientFinalises(settings, es[..|es| - 1]);
      ClientFinalisesOnce(settings, es[..|es| - 1]);
      StepKeepsFinal(ClientRun(NewClient(settings), es[..|es| - 1]), es[|es| - 1]);
    }
  }

  lemma NewIsFinal(settings: Settings)
    ensures ClientFinal(NewClient(settings))
  {
  }

  // ----- a server that is gone

  /** A client whose drain fails returns with its test as it was, except that one which waits for results goes on
      waiting; a running one finalises on whatever it hears, drains nothing, and returns. */
  lemma LostServer(c: ClientView, e: PollEvent)
    requires e.ControlEvent? && c.status.Live? && !c.busy && e.readable && e.inbox.Lost?
    ensures var r := OnPoll(c, e);
            && (c.test.state in {ParamExchange, CreateStreams, TestStart, TestEnd, Wait} ==>
                  r == Quiet(c.(status := Returned)))
            && (c.test.state == TestRunning && !c.running ==> r == Quiet(c.(status := Returned)))
            && (c.test.state == ExchangeResults ==> r == Quiet(c))
  {
  }

  lemma HeardWhileRunning(c: ClientView, e: PollEvent)
    requires e.ControlEvent? && CanSend(c) && !c.busy && e.readable
    ensures OnPoll(c, e) == Quiet(c.(test := EndAll(c.test, e.closing, e.now), ends := c.ends + 1, status := Returned))
    ensures NothingOpen(OnPoll(c, e).side.test)
  {
    EndsOpen(c.test, e.closing, e.now);
  }

  /** A client that waits for results from a server that is gone waits for ever. */
  lemma {:induction false} LostResults(c: ClientView, es: seq<PollEvent>)
    requires c.status.Live? && !c.busy && c.test.state.ExchangeResults?
    requires forall k :: 0 <= k < |es| ==> es[k].StreamEvent? || !es[k].readable || es[k].inbox.Lost?
    ensures ClientAfter(c, es) == c && ClientSays(c, es) == []
  {
    if es != [] {
      LostResults(c, es[..|es| - 1]);
    }
  }

  // ----- the handshake

  lemma {:induction false} ConnectsAll(c: ClientView, now: nat)
    requires c.test.state.CreateStreams? && c.busy && c.pos < c.test.settings.numStreams
    ensures var r, more := LoopThrough(c, now), c.test.settings.numStreams - c.pos;
            && r.test.state == TestStart && !r.busy && r.running == c.running && r.status == c.status
            && r.test.settings == c.test.settings
            && |r.test.streams| == |c.test.streams| + more && r.test.streams[..|c.test.streams|] == c.test.streams
            && forall k :: |c.test.streams| <= k < |r.test.streams| ==>
                 r.test.streams[k] == NewStream(c.test.settings.conn, now)
    decreases c.test.settings.numStreams - c.pos
  {
    hide NewStream;
    if c.pos + 1 < c.test.settings.numStreams {
      ConnectsAll(OnTurn(c, now), now);
    }
  }

  lemma {:induction false} SendsAllCookies(c: ClientView, now: nat)
    requires c.test.state.TestStart? && c.busy && c.pos < |c.test.streams|
    ensures LoopThrough(c, now) == c.(busy := false, pos := |c.test.streams|, test := c.test.(state := TestRunning))
    decreases |c.test.streams| - c.pos
  {
    if c.pos + 1 < |c.test.streams| {
      SendsAllCookies(OnTurn(c, now), now);
    }
  }

  predicate Heard(e: PollEvent)
  {
    e.ControlEvent? && e.readable && e.inbox.Got?
  }

  /** One event each takes a new client through the handshake: its cookie when it can write, then its settings, all its
      connections, all their cookies and the start of the test when it hears from the server. */
  lemma Handshake(settings: Settings, first: PollEvent, params: PollEvent, create: PollEvent, start: PollEvent,
                  run: PollEvent)
    requires settings.numStreams > 0 && first.ControlEvent? && first.writable
    requires Heard(params) && Heard(create) && Heard(start) && Heard(run)
    ensures var es := [first] + [params] + [create] + [start] + [run];
            var c := ClientAfter(NewClient(settings), es);
            && c.status.Live? && !c.busy && c.running && c.test.state == TestRunning && c.ends == 0
            && |c.test.streams| == settings.numStreams && c.test.start == run.now
            && (forall k :: 0 <= k < |c.test.streams| ==>
                  c.test.streams[k] == NewStream(settings.conn, create.now).(curr := run.now))
            && ClientSays(NewClient(settings), es) == [CookieMsg, SettingsMsg(settings)]
  {
    var c0 := NewClient(settings);
    OneMorePolled(c0, [], first);
    var c1 := ClientAfter(c0, [first]);
    assert [] + [first] == [first] && c1.test.state == ParamExchange && ClientSays(c0, [first]) == [CookieMsg];
    OneMorePolled(c0, [first], params);
    var c2 := ClientAfter(c0, [first] + [params]);
    assert c2 == c1.(test := c1.test.(state := CreateStreams));
    assert ClientSays(c0, [first] + [params]) == [CookieMsg, SettingsMsg(settings)];
    OneMorePolled(c0, [first] + [params], create);
    Connected(c2, create);
    var c3 := ClientAfter(c0, [first] + [params] + [create]);
    OneMorePolled(c0, [first] + [params] + [create], start);
    CookiesSent(c3, start);
    var c4 := ClientAfter(c0, [first] + [params] + [create] + [start]);
    OneMorePolled(c0, [first] + [params] + [create] + [start], run);
    Running(c4, run);
  }

  lemma Connected(c: ClientView, e: PollEvent)
    requires c.status.Live? && !c.busy && c.test.state.CreateStreams? && Heard(e) && c.test.settings.numStreams > 0
    ensures var r := OnPoll(c, e);
            && r.sent == [] && r.side.status.Live? && !r.side.busy && r.side.running == c.running
            && r.side.test.state == TestStart && r.side.test.settings == c.test.settings && r.side.ends == c.ends
            && |r.side.test.streams| == |c.test.streams| + c.test.settings.numStreams
            && forall k :: |c.test.streams| <= k < |r.side.test.streams| ==>
                 r.side.test.streams[k] == NewStream(c.test.settings.conn, e.now)
  {
    hide LoopThrough, NewStream;
    ConnectsAll(Loop(c, c.test.settings.numStreams, TestStart), e.now);
    LoopKeepsRunning(Loop(c, c.test.settings.numStreams, TestStart), e.now);
  }

  lemma CookiesSent(c: ClientView, e: PollEvent)
    requires c.status.Live? && !c.busy && c.test.state.TestStart? && Heard(e) && c.test.streams != []
    ensures var r := OnPoll(c, e);
            r.sent == [] && r.side == c.(pos := |c.test.streams|, test := c.test.(state := TestRunning))
  {
    hide LoopThrough;
    SendsAllCookies(Loop(c, |c.test.streams|, TestRunning), e.now);
  }

  lemma Running(c: ClientView, e: PollEvent)
    requires c.status.Live? && !c.busy && c.test.state.TestRunning? && !c.running && Heard(e)
    ensures OnPoll(c, e) == Reaction(c.(running := true, test := StartAll(c.test, e.now)), [], true, false)
  {
  }

  // ----- single attempts and messages

  /** An attempt that goes through pushes its interval exactly when the counts, its own block included, have
      reached a limit, or when the interval is more than a second old. */
  lemma PushedIff(t: TestView, i: nat, a: Attempt)
    requires i < |t.streams| && TurnOf(t, i, a).Sent?
    ensures var r := WriteOne(t, i, a);
            && r.data == t.data.Counted(a.res.n)
            && (TurnOf(t, i, a) == Sent(true) <==>
                  CountsReach(t.settings, r.data) || a.now > t.streams[i].curr + 1_000_000_000)
            && |r.streams[i].stats| == |t.streams[i].stats| + (if TurnOf(t, i, a) == Sent(true) then 1 else 0)
  {
  }

  /** An attempt that does not go through changes nothing: it is held back exactly when the
      pacer does not let it through, and blocked when the socket takes nothing. */
  lemma NotSentIff(t: TestView, i: nat, a: Attempt)
    requires i < |t.streams|
    ensures TurnOf(t, i, a) == Skipped <==> !Allowed(t.settings.bitrate, t.streams[i], a.now)
    ensures TurnOf(t, i, a) == Blocked <==>
              Allowed(t.settings.bitrate, t.streams[i], a.now) && (a.res == Refused || a.res == Wrote(0))
    ensures !TurnOf(t, i, a).Sent? ==> WriteOne(t, i, a) == t
  {
  }

  /** Results end the test whether or not they decode; what the client knows of its peer changes only if they do. */
  lemma AnyResults(c: ClientView, e: PollEvent)
    requires c.status.Live? && !c.busy && c.test.state.ExchangeResults? && Heard(e)
    ensures var r := OnPoll(c, e);
            && r.sent == [StateMsg(8)] && r.side.test.state == End && r.woke && r.side.status.Live?
            && (|e.inbox.msgs| == 1 && e.inbox.msgs[0].ResultsMsg? ==>
                  && r.side.test.peerStreams == e.inbox.msgs[0].results.streams
                  && r.side.test.peerElapsed == e.inbox.msgs[0].results.elapsed)
            && (|e.inbox.msgs| != 1 || !e.inbox.msgs[0].ResultsMsg? ==>
                  r.side.test == c.test.(state := End))
  {
  }

  /** In the two states that it never enters the client would follow any state byte that comes first. */
  lemma UnusedStates(c: ClientView, e: PollEvent)
    requires c.status.Live? && !c.busy && c.test.state in {TestEnd, Wait} && Heard(e)
    ensures var r := OnPoll(c, e);
            if e.inbox.msgs != [] && e.inbox.msgs[0].StateMsg? && e.inbox.msgs[0].code <= 8
            then Code(r.side.test.state) == e.inbox.msgs[0].code && r.side.status.Live?
            else r.side == c.(status := Panicked)
  {
  }
}
