/** A test as one endpoint keeps it (`Settings` and `Test` in src/test.rs) and what the
    send loop (src/client.rs) and the receive loop (src/server.rs) do to it. */
module Session {
  import opened Arithmetic
  import opened Stats
  import opened Wire

  /** `time` is in nanoseconds; zero `bitrate`, `bytes` and `blks` mean no limit. */
  datatype Settings = Settings(conn: Conn, numStreams: nat, bitrate: nat, time: nat, bytes: nat, blks: nat, length: nat)

  /** The part of a stream that `results` serialises. */
  datatype StreamResult = StreamResult(conn: Conn, elapsed: nat, data: StreamData)

  datatype Results = Results(streams: seq<StreamResult>, elapsed: nat, data: StreamData)

  /** A `Test`. `start` is its `timers.start`. */
  datatype TestView = TestView(
    state: TestState, settings: Settings, cookieCount: nat, streams: seq<StreamView>, tokens: seq<nat>,
    start: nat, elapsed: nat, data: StreamData, peer: StreamData, peerElapsed: nat, peerStreams: seq<StreamResult>)

  /** `Test::new` on a side that was given `settings`. */
  function NewTest(settings: Settings): TestView
  {
    TestView(Start, settings, 0, [], [], 0, 0, ZERO, ZERO, 0, [])
  }

  /** The limits that end a test early. */
  predicate LimitHit(st: Settings, data: StreamData)
  {
    (st.blks != 0 && data.blks >= st.blks) || (st.bytes != 0 && data.bytes >= st.bytes)
  }

  /** The test is over once a limit is reached or the time has passed. */
  predicate Over(t: TestView, elapsed: nat)
  {
    LimitHit(t.settings, t.data) || elapsed > t.settings.time
  }

  // ----- sending

  datatype WriteResult = Wrote(n: nat) | Refused

  /** What one turn of the send loop reads from outside: the clock, the outcome of the write,
      and, when the interval is pushed, its sample and the clock again. */
  datatype Attempt = Attempt(now: nat, res: WriteResult, sample: Sample, checked: nat)

  /** The current rate of the open interval in whole bits per second. A zero duration
      gives infinity, or nothing at all for no bytes; the cast to `u64` saturates. */
  function CurrentRate(bytes: nat, t: nat): (r: nat)
  {
    if t == 0 then (if bytes == 0 then 0 else U64 - 1)
    else
      var rate := Floor(bytes * 8 * ONE_SEC, t);
      if rate < U64 then rate else U64 - 1
  }

  /** The pacer lets a stream write. */
  predicate Allowed(bitrate: nat, s: StreamView, now: nat)
  {
    bitrate == 0 || CurrentRate(s.temp.bytes, Since(now, s.curr)) <= bitrate
  }

  datatype Turn = Skipped | Blocked | Sent(pushed: bool)

  function TurnOf(t: TestView, i: nat, a: Attempt): Turn
    requires i < |t.streams|
  {
    var s := t.streams[i];
    if !Allowed(t.settings.bitrate, s, a.now) then Skipped
    else if a.res.Refused? || a.res.n == 0 then Blocked
    else Sent(LimitHit(t.settings, t.data.Counted(a.res.n)) || Since(a.now, s.curr) > ONE_SEC)
  }

  /** One turn of the client's send loop, on stream `i`. */
  function WriteOne(t: TestView, i: nat, a: Attempt): TestView
    requires i < |t.streams|
  {
    match TurnOf(t, i, a)
    case Skipped => t
    case Blocked => t
    case Sent(pushed) =>
      var counted := Count(t.streams[i], a.res.n);
      t.(streams := t.streams[i := if pushed then Push(counted, a.sample) else counted],
         data := t.data.Counted(a.res.n))
  }

  /** The stream whose turn attempt `k` is, going round `n` streams. */
  function Position(k: nat, n: nat): (i: nat)
    requires n > 0
    ensures i < n
  {
    if k == 0 then 0
    else if Position(k - 1, n) + 1 < n then Position(k - 1, n) + 1
    else 0
  }

  lemma {:induction false} PositionIsRemainder(k: nat, n: nat)
    requires n > 0
    ensures Position(k, n) == k % n
  {
    if k > 0 {
      PositionIsRemainder(k - 1, n);
      NextInRound(k - 1, n, Position(k - 1, n));
    }
  }

  /** The send loop goes round the streams, one attempt each. */
  function WriteAll(t: TestView, script: seq<Attempt>): (r: TestView)
    requires t.streams != []
    ensures |r.streams| == |t.streams| && r.settings == t.settings && r.start == t.start
    ensures r == t.(streams := r.streams, data := r.data)
  {
    if script == [] then t
    else
      var k := |script| - 1;
      WriteOne(WriteAll(t, script[..k]), Position(k, |t.streams|), script[k])
  }

  // ----- receiving

  /** One turn of the server's receive loop, on stream `i`. */
  function ReadOne(t: TestView, i: nat, r: Receipt): TestView
    requires i < |t.streams|
  {
    t.(streams := t.streams[i := Receive(t.streams[i], r)], data := t.data.Counted(r.n))
  }

  function ReadAll(t: TestView, i: nat, rs: seq<Receipt>): (r: TestView)
    requires i < |t.streams|
    ensures |r.streams| == |t.streams|
    ensures r == t.(streams := r.streams, data := r.data)
  {
    if rs == [] then t else ReadOne(ReadAll(t, i, rs[..|rs| - 1]), i, rs[|rs| - 1])
  }

  /** A burst of reads is the per-stream history of src/test.rs and touches no other stream. */
  lemma {:induction false} ReadAllIsReceiveAll(t: TestView, i: nat, rs: seq<Receipt>)
    requires i < |t.streams|
    ensures ReadAll(t, i, rs).streams == t.streams[i := ReceiveAll(t.streams[i], rs)]
  {
    if rs != [] {
      ReadAllIsReceiveAll(t, i, rs[..|rs| - 1]);
    }
  }

  // ----- start and end

  /** `Test::start`, with one reading standing for its readings of the clock. */
  function StartAll(t: TestView, now: nat): TestView
  {
    t.(streams := Restarted(t.streams, now), start := now)
  }

  function Restarted(streams: seq<StreamView>, now: nat): (r: seq<StreamView>)
    ensures |r| == |streams| && forall k :: 0 <= k < |r| ==> r[k] == streams[k].(curr := now)
  {
    seq(|streams|, k requires 0 <= k < |streams| => streams[k].(curr := now))
  }

  function CloseAll(streams: seq<StreamView>, conn: Conn, closing: nat -> Closing): (r: seq<StreamView>)
    ensures |r| == |streams|
    ensures forall k :: 0 <= k < |r| ==> r[k] == Close(streams[k], conn, closing(k))
  {
    seq(|streams|, k requires 0 <= k < |streams| => Close(streams[k], conn, closing(k)))
  }

  /** The test's own totals at the end. */
  function Totalled(data: StreamData, conn: Conn, streams: seq<StreamView>): StreamData
  {
    if conn.UDP? then data.(lost := SumStreams(streams).lost % U64)
    else if conn.HasTcpInfo() then data.(retr := SumStreams(streams).retr % U32)
    else data
  }

  /** `Test::end`. */
  function EndAll(t: TestView, closing: nat -> Closing, now: nat): TestView
  {
    var streams := CloseAll(t.streams, t.settings.conn, closing);
    t.(streams := streams, data := Totalled(t.data, t.settings.conn, streams), elapsed := Since(now, t.start))
  }

  function ResultOf(s: StreamView): StreamResult
  {
    StreamResult(s.conn, s.elapsed, s.data)
  }

  function StreamResults(streams: seq<StreamView>): (r: seq<StreamResult>)
    ensures |r| == |streams| && forall k :: 0 <= k < |r| ==> r[k] == ResultOf(streams[k])
  {
    seq(|streams|, k requires 0 <= k < |streams| => ResultOf(streams[k]))
  }

  function ResultsOf(t: TestView): Results
  {
    Results(StreamResults(t.streams), t.elapsed, t.data)
  }

  /** `from_serde` on a message that decodes. */
  function Adopt(t: TestView, r: Results): TestView
  {
    t.(peerStreams := r.streams, peerElapsed := r.elapsed,
       peer := t.peer.(bytes := r.data.bytes, blks := r.data.blks, lost := r.data.lost))
  }

  // ----- sums over streams

  function SumStreams(streams: seq<StreamView>): StreamData
  {
    if streams == [] then ZERO else SumStreams(streams[..|streams| - 1]).Plus(streams[|streams| - 1].data)
  }

  function SumResults(rs: seq<StreamResult>): StreamData
  {
    if rs == [] then ZERO else SumResults(rs[..|rs| - 1]).Plus(rs[|rs| - 1].data)
  }

  lemma SumStreamsAppend(streams: seq<StreamView>, s: StreamView)
    ensures SumStreams(streams + [s]) == SumStreams(streams).Plus(s.data)
  {
    assert (streams + [s])[..|streams|] == streams;
  }

  lemma {:induction false} SumStreamsUpdate(streams: seq<StreamView>, i: nat, s: StreamView)
    requires i < |streams|
    ensures SumStreams(streams[i := s]).Plus(streams[i].data) == SumStreams(streams).Plus(s.data)
  {
    var n := |streams| - 1;
    if i == n {
      assert streams[i := s][..n] == streams[..n];
    } else {
      assert streams[i := s][..n] == streams[..n][i := s];
      SumStreamsUpdate(streams[..n], i, s);
    }
  }

  lemma {:induction false} SumStreamsSame(a: seq<StreamView>, b: seq<StreamView>)
    requires |a| == |b|
    requires forall k :: 0 <= k < |a| ==> a[k].data.bytes == b[k].data.bytes && a[k].data.blks == b[k].data.blks
    ensures SumStreams(a).bytes == SumStreams(b).bytes && SumStreams(a).blks == SumStreams(b).blks
  {
    if a != [] {
      SumStreamsSame(a[..|a| - 1], b[..|b| - 1]);
    }
  }

  lemma {:induction false} SumOfResults(streams: seq<StreamView>)
    ensures SumResults(StreamResults(streams)) == SumStreams(streams)
  {
    if streams != [] {
      var init := streams[..|streams| - 1];
      assert StreamResults(streams)[..|init|] == StreamResults(init);
      SumOfResults(init);
    }
  }

  // ----- conservation at all three levels

  /** The test's totals are its streams' totals, and each stream's are its intervals'. */
  ghost predicate ThreeLevels(t: TestView)
  {
    && t.data.bytes == SumStreams(t.streams).bytes
    && t.data.blks == SumStreams(t.streams).blks
    && forall k :: 0 <= k < |t.streams| ==> Conserved(t.streams[k])
  }

  /** A stream update that adds one block of `n` bytes, at both upper levels. */
  lemma CountedThreeLevels(t: TestView, i: nat, s: StreamView, n: nat)
    requires ThreeLevels(t) && i < |t.streams| && Conserved(s)
    requires s.data.bytes == t.streams[i].data.bytes + n && s.data.blks == t.streams[i].data.blks + 1
    ensures ThreeLevels(t.(streams := t.streams[i := s], data := t.data.Counted(n)))
  {
    SumStreamsUpdate(t.streams, i, s);
  }

  lemma WriteKeepsThreeLevels(t: TestView, i: nat, a: Attempt)
    requires ThreeLevels(t) && i < |t.streams|
    ensures ThreeLevels(WriteOne(t, i, a))
  {
    var turn := TurnOf(t, i, a);
    if turn.Sent? {
      var counted := Count(t.streams[i], a.res.n);
      CountConserves(t.streams[i], a.res.n);
      PushConserves(counted, a.sample);
      CountedThreeLevels(t, i, if turn.pushed then Push(counted, a.sample) else counted, a.res.n);
    }
  }

  lemma ReceiveConserves(s: StreamView, r: Receipt)
    requires Conserved(s) && r.n > 0
    ensures Conserved(Receive(s, r))
    ensures Receive(s, r).data == s.data.Counted(r.n)
  {
    CountConserves(s, r.n);
    PushConserves(Count(s, r.n).(last := r.number), r.sample);
  }

  lemma ReadKeepsThreeLevels(t: TestView, i: nat, r: Receipt)
    requires ThreeLevels(t) && i < |t.streams| && r.n > 0
    ensures ThreeLevels(ReadOne(t, i, r))
  {
    ReceiveConserves(t.streams[i], r);
    CountedThreeLevels(t, i, Receive(t.streams[i], r), r.n);
  }

  lemma StartKeepsThreeLevels(t: TestView, now: nat)
    requires ThreeLevels(t)
    ensures ThreeLevels(StartAll(t, now))
  {
    SumStreamsSame(StartAll(t, now).streams, t.streams);
  }

  /** `end` changes no byte or block count and leaves every open interval empty. */
  lemma EndKeepsThreeLevels(t: TestView, closing: nat -> Closing, now: nat)
    requires ThreeLevels(t)
    ensures var e := EndAll(t, closing, now);
            && ThreeLevels(e)
            && e.data.bytes == t.data.bytes && e.data.blks == t.data.blks
            && forall k :: 0 <= k < |e.streams| ==>
                 && e.streams[k].temp.bytes == 0 && e.streams[k].temp.blks == 0
                 && e.streams[k].data.bytes == t.streams[k].data.bytes
                 && e.streams[k].data.blks == t.streams[k].data.blks
  {
    var e := EndAll(t, closing, now);
    forall k | 0 <= k < |t.streams|
      ensures e.streams[k].data.bytes == t.streams[k].data.bytes && e.streams[k].data.blks == t.streams[k].data.blks
      ensures Conserved(e.streams[k]) && e.streams[k].temp.bytes == 0 && e.streams[k].temp.blks == 0
    {
      CloseConserves(t.streams[k], t.settings.conn, closing(k));
    }
    SumStreamsSame(e.streams, t.streams);
  }

  // ----- whole runs of one endpoint

  /** Everything that can happen to an endpoint's counters. */
  datatype Event =
    | Write(i: nat, a: Attempt)
    | Read(i: nat, r: Receipt)
    | Begin(now: nat)
    | Finish(closing: nat -> Closing, now: nat)

  /** A loop turn names a stream of the test, and a successful read is not empty. */
  predicate Possible(t: TestView, e: Event)
  {
    match e
    case Write(i, a) => i < |t.streams|
    case Read(i, r) => i < |t.streams| && r.n > 0
    case Begin(now) => true
    case Finish(closing, now) => true
  }

  /** Events that are not possible do not happen. */
  function After(t: TestView, e: Event): (r: TestView)
    ensures |r.streams| == |t.streams|
  {
    if !Possible(t, e) then t
    else
      match e
      case Write(i, a) => WriteOne(t, i, a)
      case Read(i, r) => ReadOne(t, i, r)
      case Begin(now) => StartAll(t, now)
      case Finish(closing, now) => EndAll(t, closing, now)
  }

  function AfterAll(t: TestView, es: seq<Event>): TestView
  {
    if es == [] then t else After(AfterAll(t, es[..|es| - 1]), es[|es| - 1])
  }

  /** The events of a burst of attempts, going round `n` streams. */
  function Writes(n: nat, script: seq<Attempt>): (es: seq<Event>)
    requires n > 0
    ensures |es| == |script|
  {
    if script == [] then []
    else
      var k := |script| - 1;
      Writes(n, script[..k]) + [Write(Position(k, n), script[k])]
  }

  /** The send loop makes the events that runs are made of. */
  lemma {:induction false} WriteAllIsAfterAll(t: TestView, script: seq<Attempt>)
    requires t.streams != []
    ensures AfterAll(t, Writes(|t.streams|, script)) == WriteAll(t, script)
  {
    if script != [] {
      var k := |script| - 1;
      var es := Writes(|t.streams|, script);
      assert es[..k] == Writes(|t.streams|, script[..k]);
      WriteAllIsAfterAll(t, script[..k]);
    }
  }

  function Reads(i: nat, rs: seq<Receipt>): (es: seq<Event>)
    ensures |es| == |rs|
  {
    if rs == [] then [] else Reads(i, rs[..|rs| - 1]) + [Read(i, rs[|rs| - 1])]
  }

  /** So does the receive loop. */
  lemma {:induction false} ReadAllIsAfterAll(t: TestView, i: nat, rs: seq<Receipt>)
    requires i < |t.streams| && forall k :: 0 <= k < |rs| ==> rs[k].n > 0
    ensures AfterAll(t, Reads(i, rs)) == ReadAll(t, i, rs)
  {
    if rs != [] {
      var k := |rs| - 1;
      assert Reads(i, rs)[..k] == Reads(i, rs[..k]);
      ReadAllIsAfterAll(t, i, rs[..k]);
    }
  }

  predicate UnusedStream(s: StreamView)
  {
    s.data == s.temp == ZERO && s.stats == [] && s.iter == 0 && s.first == s.last == 0
  }

  ghost predicate Unused(t: TestView)
  {
    t.data == ZERO && forall k :: 0 <= k < |t.streams| ==> UnusedStream(t.streams[k])
  }

  lemma {:induction false} SumOfUnused(streams: seq<StreamView>)
    requires forall k :: 0 <= k < |streams| ==> UnusedStream(streams[k])
    ensures SumStreams(streams) == ZERO
  {
    if streams != [] {
      SumOfUnused(streams[..|streams| - 1]);
      assert UnusedStream(streams[|streams| - 1]);
    }
  }

  lemma UnusedThreeLevels(t: TestView)
    requires Unused(t)
    ensures ThreeLevels(t)
  {
    SumOfUnused(t.streams);
    forall k | 0 <= k < |t.streams|
      ensures Conserved(t.streams[k])
    {
      assert UnusedStream(t.streams[k]);
    }
  }

  lemma EventKeepsThreeLevels(t: TestView, e: Event)
    requires ThreeLevels(t)
    ensures ThreeLevels(After(t, e))
  {
    if Possible(t, e) {
      match e
      case Write(i, a) => WriteKeepsThreeLevels(t, i, a);
      case Read(i, r) => ReadKeepsThreeLevels(t, i, r);
      case Begin(now) => StartKeepsThreeLevels(t, now);
      case Finish(closing, now) => EndKeepsThreeLevels(t, closing, now);
    }
  }

  /** Conservation over whole runs: whatever is written, read, started and ended, in any order,
      the three levels of counters of an endpoint agree after every event. */
  lemma {:induction false} RunKeepsThreeLevels(t: TestView, es: seq<Event>)
    requires Unused(t)
    ensures ThreeLevels(AfterAll(t, es))
  {
    if es == [] {
      UnusedThreeLevels(t);
    } else {
      RunKeepsThreeLevels(t, es[..|es| - 1]);
      EventKeepsThreeLevels(AfterAll(t, es[..|es| - 1]), es[|es| - 1]);
    }
  }

  // ----- interval logs over whole runs

  ghost predicate StreamLogOk(s: StreamView)
  {
    LogOk(s) && RetransOk(s)
  }

  /** Outside readings for one stream: the clock is not before the open interval
      and the kernel counter has not gone down. */
  predicate SteadySample(s: StreamView, sample: Sample)
  {
    Monotone(s, sample) && Risen(s, sample.retrans)
  }

  ghost predicate Steady(t: TestView, e: Event)
  {
    Possible(t, e) ==>
      match e
      case Write(i, a) => SteadySample(t.streams[i], a.sample)
      case Read(i, r) => SteadySample(t.streams[i], r.sample)
      case Begin(now) => forall k :: 0 <= k < |t.streams| ==> t.streams[k].curr <= now
      case Finish(closing, now) => forall k :: 0 <= k < |t.streams| ==> SteadySample(t.streams[k], closing(k).sample)
  }

  ghost predicate SteadyRun(t: TestView, es: seq<Event>)
  {
    forall k :: 0 <= k < |es| ==> Steady(AfterAll(t, es[..k]), es[k])
  }

  ghost predicate LogsOk(t: TestView)
  {
    forall k :: 0 <= k < |t.streams| ==> StreamLogOk(t.streams[k])
  }

  lemma PushKeepsStreamLog(s: StreamView, sample: Sample)
    requires StreamLogOk(s) && Conserved(s) && s.temp.blks > 0 && SteadySample(s, sample)
    ensures StreamLogOk(Push(s, sample))
  {
    PushKeepsLog(s, sample);
    PushKeepsRetrans(s, sample);
  }

  lemma CountKeepsStreamLog(s: StreamView, n: nat, last: nat, sample: Sample)
    requires StreamLogOk(s) && Conserved(s) && n > 0 && SteadySample(s, sample)
    ensures StreamLogOk(Count(s, n).(last := last)) && StreamLogOk(Push(Count(s, n).(last := last), sample))
  {
    CountConserves(s, n);
    PushKeepsStreamLog(Count(s, n).(last := last), sample);
  }

  lemma CloseKeepsStreamLog(s: StreamView, conn: Conn, c: Closing)
    requires StreamLogOk(s) && Conserved(s) && SteadySample(s, c.sample)
    ensures StreamLogOk(Close(s, conn, c))
  {
    if s.temp.bytes > 0 {
      PushKeepsStreamLog(s, c.sample);
    }
  }

  lemma EventKeepsLogs(t: TestView, e: Event)
    requires LogsOk(t) && ThreeLevels(t) && Steady(t, e)
    ensures LogsOk(After(t, e))
  {
    if Possible(t, e) {
      match e
      case Write(i, a) =>
        if TurnOf(t, i, a).Sent? {
          assert Count(t.streams[i], a.res.n).(last := t.streams[i].last) == Count(t.streams[i], a.res.n);
          CountKeepsStreamLog(t.streams[i], a.res.n, t.streams[i].last, a.sample);
        }
      case Read(i, r) =>
        CountKeepsStreamLog(t.streams[i], r.n, r.number, r.sample);
      case Begin(now) =>
      case Finish(closing, now) =>
        forall k | 0 <= k < |t.streams| {
          CloseKeepsStreamLog(t.streams[k], t.settings.conn, closing(k));
        }
    }
  }

  /** The interval logs of a run with a monotone clock and monotone kernel counters are numbered,
      ordered, never empty, and their retransmits add up to the last sampled total. */
  lemma {:induction false} RunKeepsLogs(t: TestView, es: seq<Event>)
    requires Unused(t) && SteadyRun(t, es)
    ensures LogsOk(AfterAll(t, es))
  {
    if es == [] {
      forall k | 0 <= k < |t.streams|
        ensures StreamLogOk(t.streams[k])
      {
        assert UnusedStream(t.streams[k]);
      }
    } else {
      var init := es[..|es| - 1];
      assert forall k :: 0 <= k < |init| ==> init[..k] == es[..k];
      RunKeepsLogs(t, init);
      RunKeepsThreeLevels(t, init);
      EventKeepsLogs(AfterAll(t, init), es[|es| - 1]);
    }
  }

  /** What a closing reads of the kernel counter, last and at the very end. */
  predicate ClosingRisen(s: StreamView, c: Closing)
  {
    Risen(s, c.sample.retrans) && c.sample.retrans <= c.retrans < U32
  }

  ghost predicate RetransCovered(s: StreamView, retrans: nat)
  {
    SumStats(s.stats).retr == s.temp.retr <= s.data.retr == retrans
  }

  /** After `end` a TCP or TLS test reports the sum of its streams' final kernel totals, and no
      stream reports less than its intervals did. */
  lemma EndTotalsRetrans(t: TestView, closing: nat -> Closing, now: nat)
    requires t.settings.conn in {TCP, TLS}
    requires forall k :: 0 <= k < |t.streams| ==>
               t.streams[k].conn == t.settings.conn && RetransOk(t.streams[k]) && ClosingRisen(t.streams[k], closing(k))
    ensures var e := EndAll(t, closing, now);
            && (SumStreams(e.streams).retr < U32 ==> e.data.retr == SumStreams(e.streams).retr)
            && forall k :: 0 <= k < |e.streams| ==> RetransCovered(e.streams[k], closing(k).retrans)
  {
    hide SumStats, Close;
    forall k | 0 <= k < |t.streams|
      ensures RetransCovered(EndAll(t, closing, now).streams[k], closing(k).retrans)
    {
      CloseCoversRetrans(t.streams[k], t.settings.conn, closing(k));
    }
  }

  /** On QUIC there is neither loss nor a retransmit counter to settle. */
  lemma EndOfQuic(t: TestView, closing: nat -> Closing, now: nat)
    requires t.settings.conn == QUIC
    ensures var e := EndAll(t, closing, now);
            && e.data == t.data
            && forall k :: 0 <= k < |t.streams| ==> |e.streams| == |t.streams| && e.streams[k].data == t.streams[k].data
  {
  }
}
