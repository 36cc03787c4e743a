/** `ClientImpl` as an object: its control handlers, its loops over the streams
    and its send loop (src/client.rs), proved against functions on values. */
module Client {
  import opened Wire
  import opened Stats
  import opened Session
  import opened Endpoints
  import opened Recorder
  import Limits
  import Pacing

  // ----- the send loop, as a function of what it reads from outside

  /** How each attempt of a burst goes, on the stream whose turn it is. */
  function Turns(t: TestView, script: seq<Attempt>): (turns: seq<Turn>)
    requires t.streams != []
    ensures |turns| == |script|
  {
    if script == [] then []
    else
      var k := |script| - 1;
      Turns(t, script[..k]) + [TurnOf(WriteAll(t, script[..k]), Position(k, |t.streams|), script[k])]
  }

  lemma {:induction false} TurnsAt(t: TestView, script: seq<Attempt>, k: nat)
    requires t.streams != [] && k < |script|
    ensures Turns(t, script)[k] == TurnOf(WriteAll(t, script[..k]), Position(k, |t.streams|), script[k])
  {
    var last := |script| - 1;
    if k < last {
      TurnsAt(t, script[..last], k);
      assert script[..last][..k] == script[..k];
    }
  }

  lemma WriteAllNext(t: TestView, script: seq<Attempt>, k: nat)
    requires t.streams != [] && k < |script|
    ensures WriteAll(t, script[..k + 1]) == WriteOne(WriteAll(t, script[..k]), Position(k, |t.streams|), script[k])
  {
    assert script[..k + 1][..k] == script[..k];
  }

  /** Attempt `k` pushed an interval and found the test's time to be over. */
  predicate LateAt(t: TestView, turns: seq<Turn>, script: seq<Attempt>, k: nat)
    requires k < |script| == |turns|
  {
    turns[k] == Sent(true) && Since(script[k].checked, t.start) > t.settings.time
  }

  /** Some attempt from `lo` up to `hi` was late. */
  predicate AnyLate(t: TestView, turns: seq<Turn>, script: seq<Attempt>, lo: nat, hi: nat)
    requires hi <= |script| == |turns|
  {
    lo < hi && (LateAt(t, turns, script, hi - 1) || AnyLate(t, turns, script, lo, hi - 1))
  }

  /** The loop leaves off after `k` attempts: the last one was blocked, or a round over
      all streams is complete in which the time was found to be over. */
  predicate StopsAt(t: TestView, turns: seq<Turn>, script: seq<Attempt>, k: nat)
    requires t.streams != [] && |script| == |turns|
  {
    var n := |t.streams|;
    0 < k <= |script| &&
    (turns[k - 1].Blocked? || (Position(k, n) == 0 && n <= k && AnyLate(t, turns, script, k - n, k)))
  }

  /** The loop does not leave off after any number of attempts below `k`. */
  predicate Unstopped(t: TestView, turns: seq<Turn>, script: seq<Attempt>, k: nat)
    requires t.streams != [] && |script| == |turns|
  {
    k == 0 || (!StopsAt(t, turns, script, k - 1) && Unstopped(t, turns, script, k - 1))
  }

  /** The elapsed time the loop has in hand after `k` attempts: it is only read when an interval is pushed. */
  function ElapsedAfter(t: TestView, turns: seq<Turn>, script: seq<Attempt>, k: nat, before: nat): nat
    requires k <= |script| == |turns|
  {
    if k == 0 then before
    else if turns[k - 1] == Sent(true) then Since(script[k - 1].checked, t.start)
    else ElapsedAfter(t, turns, script, k - 1, before)
  }

  /** What the inner loop keeps at attempt `k`, `i` streams into the round that began at `round`. */
  predicate InRound(t: TestView, turns: seq<Turn>, script: seq<Attempt>, begun: nat,
                    round: nat, k: nat, i: nat, elapsed: nat, blocked: bool, tryLater: bool)
  {
    && t.streams != [] && |script| == |turns| && i <= |t.streams| && k == round + i <= |script|
    && elapsed == ElapsedAfter(t, turns, script, k, begun)
    && Unstopped(t, turns, script, if i == 0 then k + 1 else k)
    && Position(k, |t.streams|) == (if i < |t.streams| then i else 0)
    && (if i == 0 then !blocked && !tryLater else blocked == turns[k - 1].Blocked?)
    && tryLater == (blocked || AnyLate(t, turns, script, round, k))
  }

  lemma NextTurn(t: TestView, turns: seq<Turn>, script: seq<Attempt>, begun: nat, round: nat, k: nat, i: nat,
                 elapsed: nat, tryLater: bool)
    requires InRound(t, turns, script, begun, round, k, i, elapsed, false, tryLater) && i < |t.streams| && k < |script|
    ensures var blocked := turns[k].Blocked?;
            InRound(t, turns, script, begun, round, k + 1, i + 1, ElapsedAfter(t, turns, script, k + 1, begun), blocked,
                    tryLater || blocked || LateAt(t, turns, script, k))
  {
  }

  /** At the end of a round the loop stops exactly if it was blocked or the time was found to be over. */
  lemma RoundEnd(t: TestView, turns: seq<Turn>, script: seq<Attempt>, begun: nat, round: nat, k: nat,
                 elapsed: nat, blocked: bool, tryLater: bool)
    requires round < k && InRound(t, turns, script, begun, round, k, k - round, elapsed, blocked, tryLater)
    requires blocked || k == round + |t.streams| || k == |script|
    ensures tryLater ==> k == |script| || StopsAt(t, turns, script, k)
    ensures !tryLater && k < |script| ==> InRound(t, turns, script, begun, k, k, 0, elapsed, false, false)
  {
  }

  /** Attempt `k` of a burst after `es` reads a clock that has gone on, and writes at most `length` bytes. */
  ghost predicate Timed(t: TestView, es: seq<Event>, script: seq<Attempt>, k: nat, length: nat, horizon: nat)
    requires t.streams != [] && k < |script|
  {
    var a := script[k];
    && Pacing.Attempted(WriteAll(t, script[..k]), Write(Position(k, |t.streams|), a), length, horizon)
    && Limits.Sized(t.settings, a, length)
    && a.sample.later <= a.checked <= horizon
    && (if k > 0 then script[k - 1].checked <= a.now
        else es != [] ==> es[|es| - 1].Write? && es[|es| - 1].a.checked <= a.now)
  }

  /** A burst, as far as the send loop gets with it, continues the runs that the bitrate bound is about; unless
      it stops there, the loop is before the next stream of its round. */
  lemma {:induction false} BurstGoesOn(t: TestView, es: seq<Event>, script: seq<Attempt>, k: nat, length: nat,
                                       horizon: nat)
    requires Limits.CodeRun(t, es, length, horizon) && Limits.PlaceAfter(t, es) == Limits.At(0, false)
    requires AfterAll(t, es).streams != [] && k <= |script|
    requires var now := AfterAll(t, es);
             && Unstopped(now, Turns(now, script), script, k)
             && forall j :: 0 <= j < k ==> Timed(now, es, script, j, length, horizon)
    ensures var now := AfterAll(t, es);
            var more, p := es + Writes(|now.streams|, script[..k]), Position(k, |now.streams|);
            && Limits.CodeRun(t, more, length, horizon) && AfterAll(t, more) == WriteAll(now, script[..k]) && p <= k
            && (!StopsAt(now, Turns(now, script), script, k) ==>
                  Limits.PlaceAfter(t, more) == Limits.At(p, AnyLate(now, Turns(now, script), script, k - p, k)))
  {
    hide Limits.NextPlace, AnyLate, StopsAt, WriteOne, Timed, Limits.PlaceAfter, AfterAll, Turns, Position, WriteAll;
    if k == 0 {
      BurstBegins(t, es, script);
    } else {
      var now := AfterAll(t, es);
      var n, i := |now.streams|, Position(k - 1, |now.streams|);
      var before, e := es + Writes(n, script[..k - 1]), Write(i, script[k - 1]);
      assert Unstopped(now, Turns(now, script), script, k - 1) && !StopsAt(now, Turns(now, script), script, k - 1);
      BurstGoesOn(t, es, script, k - 1, length, horizon);
      Limits.CodeRunKeeps(t, es, length, horizon);
      NextIsTimed(t, es, script, k - 1, length, horizon);
      Limits.OneMoreGoes(t, before, e, length, horizon);
      WritesNext(n, script, k - 1);
      WriteAllNext(now, script, k - 1);
      assert es + Writes(n, script[..k]) == before + [e];
      NextInBurst(now, script, k);
    }
  }

  lemma BurstBegins(t: TestView, es: seq<Event>, script: seq<Attempt>)
    requires AfterAll(t, es).streams != []
    ensures var now := AfterAll(t, es);
            && es + Writes(|now.streams|, script[..0]) == es && WriteAll(now, script[..0]) == now
            && Position(0, |now.streams|) == 0 && !AnyLate(now, Turns(now, script), script, 0, 0)
  {
  }

  lemma WritesNext(n: nat, script: seq<Attempt>, k: nat)
    requires n > 0 && k < |script|
    ensures Writes(n, script[..k + 1]) == Writes(n, script[..k]) + [Write(Position(k, n), script[k])]
  {
    assert script[..k + 1][..k] == script[..k];
  }

  /** The attempt that is timed is the one the loop makes next. */
  lemma NextIsTimed(t: TestView, es: seq<Event>, script: seq<Attempt>, k: nat, length: nat, horizon: nat)
    requires AfterAll(t, es).settings == t.settings
    requires AfterAll(t, es).streams != [] && k < |script| && Timed(AfterAll(t, es), es, script, k, length, horizon)
    requires var now := AfterAll(t, es);
             var before := es + Writes(|now.streams|, script[..k]);
             && AfterAll(t, before) == WriteAll(now, script[..k])
             && Limits.PlaceAfter(t, before).At? && Limits.PlaceAfter(t, before).i == Position(k, |now.streams|)
    ensures var n := |AfterAll(t, es).streams|;
            Limits.Goes(t, es + Writes(n, script[..k]), Write(Position(k, n), script[k]), length, horizon)
  {
    hide AfterAll, WriteAll, Limits.PlaceAfter, Position;
    LastOfBurst(es, |AfterAll(t, es).streams|, script, k);
  }

  /** The loop goes round as the places of a run do, unless it stops. */
  lemma NextInBurst(now: TestView, script: seq<Attempt>, k: nat)
    requires now.streams != [] && 0 < k <= |script| && Position(k - 1, |now.streams|) <= k - 1
    ensures var n, turns := |now.streams|, Turns(now, script);
            var i, p := Position(k - 1, n), Position(k, n);
            && p <= k
            && (!StopsAt(now, turns, script, k) ==>
                  Limits.NextPlace(WriteAll(now, script[..k - 1]), i, AnyLate(now, turns, script, k - 1 - i, k - 1),
                                   script[k - 1])
                  == Limits.At(p, AnyLate(now, turns, script, k - p, k)))
  {
    hide WriteAll, Turns, TurnOf;
    TurnsAt(now, script, k - 1);
  }

  lemma LastOfBurst(es: seq<Event>, n: nat, script: seq<Attempt>, k: nat)
    requires n > 0 && k <= |script|
    ensures var more := es + Writes(n, script[..k]);
            && (k > 0 ==> more[|more| - 1] == Write(Position(k - 1, n), script[k - 1]))
            && (k == 0 ==> more == es)
  {
  }

  predicate ClockGoesOn(script: seq<Attempt>, k: nat)
    requires k <= |script|
  {
    forall j :: 0 < j < k ==> script[j - 1].checked <= script[j].checked
  }

  lemma TimedClock(t: TestView, es: seq<Event>, script: seq<Attempt>, k: nat, length: nat, horizon: nat)
    requires t.streams != [] && k <= |script|
    requires forall j :: 0 <= j < k ==> Timed(t, es, script, j, length, horizon)
    ensures ClockGoesOn(script, k)
  {
    forall j | 0 < j < k
      ensures script[j - 1].checked <= script[j].checked
    {
      assert Timed(t, es, script, j, length, horizon);
    }
  }

  lemma {:induction false} LateClock(t: TestView, turns: seq<Turn>, script: seq<Attempt>, lo: nat, k: nat)
    requires k <= |script| == |turns| && AnyLate(t, turns, script, lo, k) && ClockGoesOn(script, k)
    ensures Since(script[k - 1].checked, t.start) > t.settings.time
  {
    if !LateAt(t, turns, script, k - 1) {
      LateClock(t, turns, script, lo, k - 1);
    }
  }

  /** Once the time was found to be over in a round, it is over for the rest of it. */
  lemma {:induction false} LateStays(t: TestView, turns: seq<Turn>, script: seq<Attempt>, lo: nat, k: nat, before: nat)
    requires k <= |script| == |turns| && AnyLate(t, turns, script, lo, k) && ClockGoesOn(script, k)
    ensures ElapsedAfter(t, turns, script, k, before) > t.settings.time
  {
    LateClock(t, turns, script, lo, k);
    if turns[k - 1] != Sent(true) {
      LateStays(t, turns, script, lo, k - 1, before);
    }
  }

  /** Where a burst stops, the run is before another burst, or done; and it is done only if the client ends the test. */
  lemma BurstEnds(t: TestView, es: seq<Event>, script: seq<Attempt>, k: nat, before: nat, length: nat, horizon: nat)
    requires Limits.CodeRun(t, es, length, horizon) && Limits.PlaceAfter(t, es) == Limits.At(0, false)
    requires AfterAll(t, es).streams != [] && 0 < k <= |script|
    requires var now := AfterAll(t, es);
             && Unstopped(now, Turns(now, script), script, k) && StopsAt(now, Turns(now, script), script, k)
             && forall j :: 0 <= j < k ==> Timed(now, es, script, j, length, horizon)
    ensures var now := AfterAll(t, es);
            var more := es + Writes(|now.streams|, script[..k]);
            var over := Over(WriteAll(now, script[..k]), ElapsedAfter(now, Turns(now, script), script, k, before));
            && Limits.CodeRun(t, more, length, horizon) && AfterAll(t, more) == WriteAll(now, script[..k])
            && Limits.PlaceAfter(t, more) in {Limits.At(0, false), Limits.Done}
            && (Limits.PlaceAfter(t, more) == Limits.Done ==> over)
  {
    hide Limits.NextPlace, AnyLate, WriteOne, Limits.PlaceAfter, AfterAll, Turns, Position, WriteAll, StopsAt, Timed,
         ClockGoesOn, Over, ElapsedAfter, Limits.CodeRun, Limits.Goes;
    var now := AfterAll(t, es);
    var n, i := |now.streams|, Position(k - 1, |now.streams|);
    TimedClock(now, es, script, k, length, horizon);
    BurstGoesOn(t, es, script, k, length, horizon);
    BurstGoesOn(t, es, script, k - 1, length, horizon);
    Limits.CodeRunKeeps(t, es, length, horizon);
    NextIsTimed(t, es, script, k - 1, length, horizon);
    Limits.OneMoreGoes(t, es + Writes(n, script[..k - 1]), Write(i, script[k - 1]), length, horizon);
    WritesNext(n, script, k - 1);
    assert es + Writes(n, script[..k]) == es + Writes(n, script[..k - 1]) + [Write(i, script[k - 1])];
    StopIsOver(now, script, k, before);
  }

  lemma StopIsOver(now: TestView, script: seq<Attempt>, k: nat, before: nat)
    requires now.streams != [] && 0 < k <= |script| && Position(k - 1, |now.streams|) <= k - 1 && ClockGoesOn(script, k)
    requires StopsAt(now, Turns(now, script), script, k)
    ensures var n, turns := |now.streams|, Turns(now, script);
            var i := Position(k - 1, n);
            var late := AnyLate(now, turns, script, k - 1 - i, k - 1);
            var place := Limits.NextPlace(WriteAll(now, script[..k - 1]), i, late, script[k - 1]);
            && place in {Limits.At(0, false), Limits.Done}
            && (place == Limits.Done ==> Over(WriteAll(now, script[..k]), ElapsedAfter(now, turns, script, k, before)))
  {
    hide Turns, TurnOf;
    var n, turns := |now.streams|, Turns(now, script);
    var i := Position(k - 1, n);
    TurnsAt(now, script, k - 1);
    WriteAllNext(now, script, k - 1);
    if AnyLate(now, turns, script, k - 1 - i, k) {
      LateStays(now, turns, script, k - 1 - i, k, before);
    }
  }

  // ----- the loops over the streams

  function LoopLength(c: ClientView): nat {
    if c.test.state.CreateStreams? then c.test.settings.numStreams else |c.test.streams|
  }

  /** The client at the end of the loop it is in. */
  function LoopThrough(c: ClientView, now: nat): (r: ClientView)
    ensures !r.busy
    decreases c.busy, if c.pos < LoopLength(c) then LoopLength(c) - c.pos else 0
  {
    if c.busy then LoopThrough(OnTurn(c, now), now) else c
  }

  lemma ConnectLoop(c: ClientView, now: nat)
    requires c.test.state.CreateStreams? && !c.busy && c.test.settings.numStreams == 0
    ensures LoopThrough(Loop(c, 0, TestStart), now) == Go(c, TestStart)
  {
  }

  /** One turn of the connect loop, from `c` to `next`. */
  lemma ConnectTurn(c: ClientView, next: ClientView, now: nat)
    requires c.test.state.CreateStreams? && c.busy
    requires var streams := c.test.streams + [NewStream(c.test.settings.conn, now)];
             next == c.(pos := c.pos + 1, test := c.test.(streams := streams))
    ensures LoopThrough(c, now)
            == if next.pos < c.test.settings.numStreams then LoopThrough(next, now)
               else Go(next, TestStart).(busy := false)
  {
    hide NewStream;
  }

  /** That is where the turns of the loop take it, one event each. */
  lemma {:induction false} LoopThroughIsRun(c: ClientView, now: nat)
    requires c.status.Live?
    ensures ClientGets(c, [], LoopThrough(c, now))
    decreases c.busy, if c.pos < LoopLength(c) then LoopLength(c) - c.pos else 0
  {
    hide ClientGets;
    if c.busy {
      OneEvent(c, LoopTurn(now));
      LoopThroughIsRun(OnTurn(c, now), now);
      var none: seq<Message> := [];
      Chained(c, none, OnTurn(c, now), none, LoopThrough(c, now));
      assert none + none == none;
    } else {
      NoEvent(c);
    }
  }

  // ----- what a poll brings

  datatype PollEvent =
    | ControlEvent(readable: bool, writable: bool, inbox: Inbox, closing: nat -> Closing, now: nat)
    | StreamEvent(writable: bool, script: seq<Attempt>, elapsed: nat, closing: nat -> Closing, now: nat)

  /** A handled control event and the loop it enters are a run of single events. */
  lemma ControlIsRun(c: ClientView, readable: bool, writable: bool, inbox: Inbox, closing: nat -> Closing, now: nat)
    requires c.status.Live? && !c.busy
    ensures var r := OnClientControl(c, readable, writable, inbox, closing, now);
            ClientGets(c, r.sent, LoopThrough(r.side, now))
  {
    hide ClientGets, LoopThrough;
    var r := OnClientControl(c, readable, writable, inbox, closing, now);
    OneEvent(c, Control(readable, writable, inbox, closing, now));
    if r.side.status.Live? {
      LoopThroughIsRun(r.side, now);
    } else {
      NotLooping(c, readable, writable, inbox, closing, now);
      NoEvent(r.side);
    }
    Chained(c, r.sent, r.side, [], LoopThrough(r.side, now));
    assert r.sent + [] == r.sent;
  }

  lemma NotLooping(c: ClientView, readable: bool, writable: bool, inbox: Inbox, closing: nat -> Closing, now: nat)
    requires !c.busy && c.status.Live?
    ensures var r := OnClientControl(c, readable, writable, inbox, closing, now).side;
            !r.status.Live? ==> LoopThrough(r, now) == r
  {
  }

  /** So are a burst and the end of the test after it. */
  lemma BurstIsRun(c: ClientView, script: seq<Attempt>, over: bool, closing: nat -> Closing, now: nat)
    requires Sending(c) && c.status.Live? && c.test.streams != []
    ensures var sent := c.(test := WriteAll(c.test, script));
            var r := if over then ClientStep(sent, Conclude(closing, now)) else Quiet(sent);
            ClientGets(c, r.sent, r.side)
  {
    hide ClientStep;
    var sent := c.(test := WriteAll(c.test, script));
    SendsAreWriteAll(c, script);
    assert ClientGets(c, [], sent);
    if over {
      var r := ClientStep(sent, Conclude(closing, now));
      OneEvent(sent, Conclude(closing, now));
      Chained(c, [], sent, r.sent, r.side);
      assert [] + r.sent == r.sent;
    }
  }

  /** Where the send loop leaves off, if not before `k`. */
  function FirstStop(t: TestView, turns: seq<Turn>, script: seq<Attempt>, k: nat): (n: nat)
    requires t.streams != [] && k <= |script| == |turns|
    ensures k <= n <= |script|
    decreases |script| - k
  {
    if k == |script| || StopsAt(t, turns, script, k) then k else FirstStop(t, turns, script, k + 1)
  }

  lemma {:induction false} FirstStopFrom(t: TestView, turns: seq<Turn>, script: seq<Attempt>, k: nat)
    requires t.streams != [] && k <= |script| == |turns| && Unstopped(t, turns, script, k)
    ensures FirstStop(t, turns, script, 0) == FirstStop(t, turns, script, k)
  {
    if k > 0 {
      FirstStopFrom(t, turns, script, k - 1);
    }
  }

  /** There is only one place where the loop can leave off. */
  lemma StopIsFirst(t: TestView, turns: seq<Turn>, script: seq<Attempt>, k: nat)
    requires t.streams != [] && k <= |script| == |turns| && Unstopped(t, turns, script, k)
    requires k == |script| || StopsAt(t, turns, script, k)
    ensures k == FirstStop(t, turns, script, 0)
  {
    FirstStopFrom(t, turns, script, k);
  }

  /** What the client does on one event of a poll. Stream events come from registered
      streams only, so not before the client is running. */
  function OnPoll(c: ClientView, e: PollEvent): Reaction<ClientView>
  {
    if !c.status.Live? then Quiet(c)
    else
      match e
      case ControlEvent(readable, writable, inbox, closing, now) =>
        var r := OnClientControl(c, readable, writable, inbox, closing, now);
        r.(side := LoopThrough(r.side, now))
      case StreamEvent(writable, script, elapsed, closing, now) =>
        if c.test.state.TestRunning? && c.running && writable && c.test.streams != [] then
          var turns := Turns(c.test, script);
          var k := FirstStop(c.test, turns, script, 0);
          var sent := c.(test := WriteAll(c.test, script[..k]));
          if Over(sent.test, ElapsedAfter(c.test, turns, script, k, elapsed))
          then ClientStep(sent, Conclude(closing, now))
          else Quiet(sent)
        else Quiet(c)
  }

  /** The event loop. */
  function ClientAfter(c: ClientView, es: seq<PollEvent>): ClientView
  {
    if es == [] then c else OnPoll(ClientAfter(c, es[..|es| - 1]), es[|es| - 1]).side
  }

  /** What it writes on the control connection. */
  function ClientSays(c: ClientView, es: seq<PollEvent>): seq<Message>
  {
    if es == [] then []
    else ClientSays(c, es[..|es| - 1]) + OnPoll(ClientAfter(c, es[..|es| - 1]), es[|es| - 1]).sent
  }

  /** A handled event leaves the client outside its loops, where single events have taken it. */
  lemma PollIsRun(c: ClientView, e: PollEvent)
    requires !c.busy
    ensures ClientGets(c, OnPoll(c, e).sent, OnPoll(c, e).side) && !OnPoll(c, e).side.busy
  {
    hide ClientGets, OnClientControl, LoopThrough, Over, WriteAll;
    NoEvent(c);
    if c.status.Live? {
      match e
      case ControlEvent(readable, writable, inbox, closing, now) =>
        ControlIsRun(c, readable, writable, inbox, closing, now);
      case StreamEvent(writable, script, elapsed, closing, now) =>
        if c.test.state.TestRunning? && c.running && writable && c.test.streams != [] {
          var turns := Turns(c.test, script);
          var k := FirstStop(c.test, turns, script, 0);
          var over := Over(WriteAll(c.test, script[..k]), ElapsedAfter(c.test, turns, script, k, elapsed));
          BurstIsRun(c, script[..k], over, closing, now);
        }
    }
  }

  /** Whatever its polls bring, the client ends where single events take it and has written what they write. */
  lemma {:induction false} EventsAreRuns(c: ClientView, es: seq<PollEvent>)
    requires !c.busy
    ensures ClientGets(c, ClientSays(c, es), ClientAfter(c, es)) && !ClientAfter(c, es).busy
  {
    hide ClientGets, OnPoll;
    if es == [] {
      NoEvent(c);
    } else {
      var init, e := es[..|es| - 1], es[|es| - 1];
      EventsAreRuns(c, init);
      PollIsRun(ClientAfter(c, init), e);
      Chained(c, ClientSays(c, init), ClientAfter(c, init), OnPoll(ClientAfter(c, init), e).sent, ClientAfter(c, es));
    }
  }

  lemma EventsFinaliseOnce(c: ClientView, es: seq<PollEvent>)
    requires ClientOk(c) && !c.busy
    ensures ClientOk(ClientAfter(c, es))
  {
    hide ClientOk, ClientAfter, ClientSays;
    EventsAreRuns(c, es);
    var run :| ClientRun(c, run) == ClientAfter(c, es) && ClientWrites(c, run) == ClientSays(c, es);
    ClientRunKeepsOk(c, run);
  }

  class ClientImpl {
    const test: Test
    var running: bool
    var status: Status
    ghost var busy: bool
    ghost var pos: nat

    ghost predicate Valid()
      reads this, test
    {
      test.Valid()
    }

    ghost function View(): ClientView
      reads this, test, test.streams
    {
      ClientView(test.View(), running, busy, pos, status, test.ends)
    }

    constructor (settings: Settings)
      ensures Valid() && fresh(test) && test.streams == [] && View() == NewClient(settings)
    {
      test := new Test(settings);
      running, status := false, Live;
      busy, pos := false, 0;
    }

    method ConnectOne(now: nat)
      requires Valid()
      modifies this`pos, test
      ensures Valid() && |test.streams| == |old(test.streams)| + 1
      ensures test.streams[..|old(test.streams)|] == old(test.streams)
      ensures fresh(test.streams[|old(test.streams)|])
      ensures var streams := old(test.Views()) + [NewStream(old(test.settings.conn), now)];
              View() == old(View()).(pos := old(pos) + 1, test := old(test.View()).(streams := streams))
    {
      pos := pos + 1;
      assert test.View() == old(test.View());
      test.AddStream(test.settings.conn, now);
    }

    /** `CreateStreams`: one connection per stream, then the next state. */
    method Connect(now: nat)
      requires Valid() && test.state.CreateStreams? && !busy
      modifies this`busy, this`pos, test
      ensures Valid()
      ensures forall i :: 0 <= i < |test.streams| ==> test.streams[i] in old(test.streams) || fresh(test.streams[i])
      ensures View() == LoopThrough(Loop(old(View()), old(test.settings.numStreams), TestStart), now)
    {
      hide NewStream, LoopThrough;
      ghost var goal := LoopThrough(Loop(View(), test.settings.numStreams, TestStart), now);
      var n := test.settings.numStreams;
      busy := n > 0;
      pos := if n > 0 then 0 else pos;
      assert test.Views() == old(test.Views());
      if n == 0 {
        ConnectLoop(old(View()), now);
      }
      for k := 0 to n
        invariant Valid() && test.state.CreateStreams? && test.settings.numStreams == n
        invariant forall i :: 0 <= i < |test.streams| ==> test.streams[i] in old(test.streams) || fresh(test.streams[i])
        invariant k < n ==> busy && pos == k && LoopThrough(View(), now) == goal
        invariant k == n ==> Go(View(), TestStart).(busy := false) == goal
      {
        ghost var before := View();
        ConnectOne(now);
        ConnectTurn(before, View(), now);
      }
      label connected:
      busy := false;
      assert test.View() == old@connected(test.View());
      test.Transition(TestStart);
    }

    /** `TestStart`: a cookie on every stream, then the next state. A cookie that fails to go out is only reported. */
    method SendCookies(now: nat)
      requires Valid() && test.state.TestStart? && !busy
      modifies this`busy, this`pos, test`state
      ensures Valid()
      ensures View() == LoopThrough(Loop(old(View()), |old(test.streams)|, TestRunning), now)
    {
      ghost var goal := LoopThrough(Loop(View(), |test.streams|, TestRunning), now);
      var n := |test.streams|;
      busy := n > 0;
      pos := if n > 0 then 0 else pos;
      assert test.Views() == old(test.Views());
      for k := 0 to n
        invariant test.state.TestStart? && test.Views() == old(test.Views())
        invariant k < n ==> busy && pos == k && LoopThrough(View(), now) == goal
        invariant k == n ==> Go(View(), TestRunning).(busy := false) == goal
      {
        pos := pos + 1;
        assert test.Views() == old(test.Views());
      }
      busy := false;
      assert test.Views() == old(test.Views());
      test.Transition(TestRunning);
    }

    method Drop(inbox: Inbox)
      requires !inbox.Got?
      modifies this`status
      ensures Quiet(View()) == Dropped(old(View()), inbox)
    {
      status := if inbox.Lost? then Returned else Panicked;
      assert test.View() == old(test.View());
    }

    method Running(writable: bool, inbox: Inbox, closing: nat -> Closing, now: nat) returns (drained: bool)
      requires Valid() && test.state.TestRunning?
      modifies this, test, test.streams
      ensures Valid() && test.streams == old(test.streams)
      ensures Reaction(View(), [], drained, false) == OnClientControl(old(View()), true, writable, inbox, closing, now)
    {
      hide EndAll, StartAll, Adopt, OnTurn;
      drained := false;
      if running {
        test.Finish(closing, now);
        ghost var views := test.Views();
        status := Returned;
        assert test.Views() == views;
      } else if !inbox.Got? {
        Drop(inbox);
      } else {
        drained := true;
        running := true;
        assert test.View() == old(test.View());
        test.Begin(now);
      }
    }

    method TakeResults(writable: bool, inbox: Inbox, closing: nat -> Closing, now: nat)
      returns (sent: seq<Message>, drained: bool, woke: bool)
      requires Valid() && test.state.ExchangeResults?
      modifies this`status, test
      ensures Valid() && test.streams == old(test.streams)
      ensures Reaction(View(), sent, drained, woke) == OnClientControl(old(View()), true, writable, inbox, closing, now)
    {
      sent, drained, woke := [], false, false;
      if inbox.Got? {
        if |inbox.msgs| == 1 && inbox.msgs[0].ResultsMsg? {
          test.FromSerde(inbox.msgs[0].results);
        }
        test.Transition(End);
        sent, drained, woke := [Announce(End)], true, true;
      } else if inbox.Unreadable? {
        Drop(inbox);
      }
    }

    method Unexpected(inbox: Inbox) returns (drained: bool)
      requires Valid()
      modifies this`status, test`state
      ensures Valid() && Reaction(View(), [], drained, false) == OnUnexpected(old(View()), true, inbox)
    {
      drained := inbox.Got?;
      if !inbox.Got? {
        Drop(inbox);
      } else if inbox.msgs != [] && inbox.msgs[0].StateMsg? && FromCode(inbox.msgs[0].code).Some? {
        test.Transition(FromCode(inbox.msgs[0].code).value);
      } else {
        status := Panicked;
      }
    }

    /** The three states in which a message is drained, if the event says there is one, and not looked at. */
    method Handshake(readable: bool, writable: bool, inbox: Inbox, closing: nat -> Closing, now: nat)
      returns (sent: seq<Message>, drained: bool)
      requires Valid() && !busy && test.state in {ParamExchange, CreateStreams, TestStart}
      modifies this, test
      ensures Valid()
      ensures forall i :: 0 <= i < |test.streams| ==> test.streams[i] in old(test.streams) || fresh(test.streams[i])
      ensures var r := OnClientControl(old(View()), readable, writable, inbox, closing, now);
              Reaction(View(), sent, drained, false) == r.(side := LoopThrough(r.side, now))
    {
      hide OnTurn;
      sent, drained := [], false;
      if readable && !inbox.Got? {
        Drop(inbox);
        return;
      }
      drained := readable;
      if test.state.ParamExchange? {
        sent := [SettingsMsg(test.settings)];
        test.Transition(CreateStreams);
      } else if test.state.CreateStreams? {
        Connect(now);
      } else {
        SendCookies(now);
      }
    }

    /** A control event. The handler is what the protocol calls one event followed by the turns of its loop. */
    method Control(readable: bool, writable: bool, inbox: Inbox, closing: nat -> Closing, now: nat)
      returns (sent: seq<Message>, drained: bool, woke: bool)
      requires Valid() && !busy
      modifies this, test, test.streams
      ensures Valid()
      ensures forall i :: 0 <= i < |test.streams| ==> test.streams[i] in old(test.streams) || fresh(test.streams[i])
      ensures var r := OnClientControl(old(View()), readable, writable, inbox, closing, now);
              Reaction(View(), sent, drained, woke) == r.(side := LoopThrough(r.side, now))
    {
      hide EndAll, StartAll, Adopt, OnTurn;
      sent, drained, woke := [], false, false;
      match test.state {
        case Start =>
          if writable {
            sent := [CookieMsg];
            test.Transition(ParamExchange);
          }
        case ParamExchange =>
          sent, drained := Handshake(readable, writable, inbox, closing, now);
        case CreateStreams =>
          sent, drained := Handshake(readable, writable, inbox, closing, now);
        case TestStart =>
          sent, drained := Handshake(readable, writable, inbox, closing, now);
        case TestRunning =>
          if readable {
            drained := Running(writable, inbox, closing, now);
          }
        case ExchangeResults =>
          if readable {
            sent, drained, woke := TakeResults(writable, inbox, closing, now);
          }
        case End =>
          status := Returned;
        case TestEnd =>
          if readable {
            drained := Unexpected(inbox);
          }
        case Wait =>
          if readable {
            drained := Unexpected(inbox);
          }
      }
    }

    /** One turn of the send loop on stream `i`. */
    method AttemptOne(i: nat, a: Attempt) returns (turn: Turn)
      requires Valid() && i < |test.streams|
      modifies test`data, test.streams[i]
      ensures turn == TurnOf(old(test.View()), i, a)
      ensures test.View() == WriteOne(old(test.View()), i, a)
    {
      var s := test.streams[i];
      var t := Since(a.now, s.curr);
      if test.settings.bitrate != 0 && CurrentRate(s.temp.bytes, t) > test.settings.bitrate {
        return Skipped;
      }
      if a.res.Refused? || a.res.n == 0 {
        return Blocked;
      }
      ghost var views := test.Views();
      s.Tally(a.res.n);
      test.data := test.data.(bytes := test.data.bytes + a.res.n);
      test.data := test.data.(blks := test.data.blks + 1);
      var push := LimitHit(test.settings, test.data) || t > ONE_SEC;
      if push {
        s.PushStat(a.sample);
      }
      turn := Sent(push);
      assert test.Views() == views[i := s.View()];
    }

    /** Attempt `k` of a burst that began in `t`, on the stream whose turn it is. */
    method SendOne(script: seq<Attempt>, k: nat, i: nat, before: nat, ghost t: TestView, ghost turns: seq<Turn>,
                   ghost begun: nat)
      returns (elapsed: nat, blocked: bool, late: bool)
      requires Valid() && test.streams != [] && |t.streams| == |test.streams| && turns == Turns(t, script)
      requires k < |script| && i < |test.streams| && Position(k, |test.streams|) == i
      requires test.View() == WriteAll(t, script[..k]) && before == ElapsedAfter(t, turns, script, k, begun)
      modifies test`data, test.streams
      ensures Valid() && test.View() == WriteAll(t, script[..k + 1])
      ensures elapsed == ElapsedAfter(t, turns, script, k + 1, begun)
      ensures blocked == turns[k].Blocked? && late == LateAt(t, turns, script, k)
    {
      var turn := AttemptOne(i, script[k]);
      WriteAllNext(t, script, k);
      TurnsAt(t, script, k);
      elapsed, blocked, late := before, turn.Blocked?, false;
      if turn == Sent(true) {
        elapsed := Since(script[k].checked, test.start);
        late := elapsed > test.settings.time;
      }
    }

    /** One turn of the inner loop. */
    method RoundTurn(script: seq<Attempt>, k: nat, i: nat, before: nat, tryLater: bool,
                     ghost t: TestView, ghost turns: seq<Turn>, ghost begun: nat, ghost round: nat)
      returns (elapsed: nat, blocked: bool, later: bool)
      requires Valid() && t.streams != [] && |t.streams| == |test.streams| && turns == Turns(t, script)
      requires i < |test.streams| && k < |script|
      requires InRound(t, turns, script, begun, round, k, i, before, false, tryLater)
      requires test.View() == WriteAll(t, script[..k])
      modifies test`data, test.streams
      ensures Valid() && InRound(t, turns, script, begun, round, k + 1, i + 1, elapsed, blocked, later)
      ensures test.View() == WriteAll(t, script[..k + 1])
    {
      NextTurn(t, turns, script, begun, round, k, i, before, tryLater);
      var late;
      elapsed, blocked, late := SendOne(script, k, i, before, t, turns, begun);
      later := tryLater || blocked || late;
    }

    /** One round of the send loop over all streams. */
    method SendRound(script: seq<Attempt>, round: nat, before: nat, ghost t: TestView, ghost turns: seq<Turn>,
                     ghost begun: nat)
      returns (k: nat, elapsed: nat, blocked: bool, tryLater: bool)
      requires Valid() && test.streams != [] && |t.streams| == |test.streams| && turns == Turns(t, script)
      requires round < |script|
      requires InRound(t, turns, script, begun, round, round, 0, before, false, false)
      requires test.View() == WriteAll(t, script[..round])
      modifies test`data, test.streams
      ensures Valid() && round < k <= |script| && (blocked || k == round + |test.streams| || k == |script|)
      ensures InRound(t, turns, script, begun, round, k, k - round, elapsed, blocked, tryLater)
      ensures test.View() == WriteAll(t, script[..k])
    {
      hide WriteAll, Turns, ElapsedAfter, AnyLate;
      var i := 0;
      k, elapsed, blocked, tryLater := round, before, false, false;
      while i < |test.streams| && !blocked && k < |script|
        invariant Valid() && k == round + i <= |script| && i <= |test.streams|
        invariant InRound(t, turns, script, begun, round, k, i, elapsed, blocked, tryLater)
        invariant test.View() == WriteAll(t, script[..k])
      {
        elapsed, blocked, tryLater := RoundTurn(script, k, i, elapsed, tryLater, t, turns, begun, round);
        k, i := k + 1, i + 1;
      }
    }

    /** The send loop. It stops at the first point where the code stops, or where the script ends. */
    method SendBurst(script: seq<Attempt>, before: nat) returns (k: nat, elapsed: nat)
      requires Valid() && test.streams != []
      modifies test`data, test.streams
      ensures Valid() && k <= |script| && test.View() == WriteAll(old(test.View()), script[..k])
      ensures var t, turns := old(test.View()), Turns(old(test.View()), script);
              && Unstopped(t, turns, script, k) && (k == |script| || StopsAt(t, turns, script, k))
              && elapsed == ElapsedAfter(t, turns, script, k, before)
    {
      ghost var t := test.View();
      ghost var turns := Turns(t, script);
      var tryLater := false;
      k, elapsed := 0, before;
      while !tryLater && k < |script|
        invariant Valid() && k <= |script| && |t.streams| == |test.streams| && test.View() == WriteAll(t, script[..k])
        invariant Unstopped(t, turns, script, k) && elapsed == ElapsedAfter(t, turns, script, k, before)
        invariant tryLater ==> k == |script| || StopsAt(t, turns, script, k)
        invariant !tryLater && k < |script| ==> InRound(t, turns, script, before, k, k, 0, elapsed, false, false)
        decreases |script| - k
      {
        ghost var round := k;
        var blocked;
        k, elapsed, blocked, tryLater := SendRound(script, k, elapsed, t, turns, before);
        RoundEnd(t, turns, script, before, round, k, elapsed, blocked, tryLater);
      }
    }

    method ConcludeTest(closing: nat -> Closing, now: nat) returns (sent: seq<Message>)
      requires Valid() && Sending(View()) && status.Live?
      modifies test, test.streams
      ensures Valid() && test.streams == old(test.streams)
      ensures Reaction(View(), sent, false, false) == ClientStep(old(View()), Conclude(closing, now))
    {
      hide EndAll;
      test.Finish(closing, now);
      test.Transition(ExchangeResults);
      sent := [Announce(TestEnd)];
    }

    /** A stream event: a burst, and if that finds the test to be over, the end of it. */
    method Stream(script: seq<Attempt>, elapsed0: nat, closing: nat -> Closing, now: nat)
      returns (k: nat, sent: seq<Message>)
      requires Valid() && test.streams != [] && Sending(View()) && status.Live?
      modifies test, test.streams
      ensures Valid() && k <= |script| && test.streams == old(test.streams)
      ensures var t, turns := old(test.View()), Turns(old(test.View()), script);
              var c := old(View()).(test := WriteAll(t, script[..k]));
              && Unstopped(t, turns, script, k) && (k == |script| || StopsAt(t, turns, script, k))
              && Reaction(View(), sent, false, false)
                 == if Over(c.test, ElapsedAfter(t, turns, script, k, elapsed0))
                    then ClientStep(c, Conclude(closing, now)) else Quiet(c)
    {
      sent := [];
      var elapsed;
      k, elapsed := SendBurst(script, elapsed0);
      if LimitHit(test.settings, test.data) || elapsed > test.settings.time {
        sent := ConcludeTest(closing, now);
      }
    }

    /** One event of a poll. */
    method HandleEvent(e: PollEvent) returns (sent: seq<Message>, drained: bool, woke: bool)
      requires Valid() && !busy
      modifies this, test, test.streams
      ensures Valid() && !busy
      ensures forall i :: 0 <= i < |test.streams| ==> test.streams[i] in old(test.streams) || fresh(test.streams[i])
      ensures Reaction(View(), sent, drained, woke) == OnPoll(old(View()), e)
    {
      hide OnClientControl, LoopThrough, ClientStep, WriteAll, ElapsedAfter, Unstopped, StopsAt, Over, FirstStop;
      sent, drained, woke := [], false, false;
      if !status.Live? {
        return;
      }
      match e {
        case ControlEvent(readable, writable, inbox, closing, now) =>
          sent, drained, woke := Control(readable, writable, inbox, closing, now);
        case StreamEvent(writable, script, elapsed, closing, now) =>
          if test.state.TestRunning? && running && writable && test.streams != [] {
            ghost var t := test.View();
            var k;
            k, sent := Stream(script, elapsed, closing, now);
            StopIsFirst(t, Turns(t, script), script, k);
          }
      }
    }

    /** The event loop, over the events that its polls bring. */
    method Run(es: seq<PollEvent>) returns (sent: seq<Message>)
      requires Valid() && !busy
      modifies this, test, test.streams
      ensures Valid() && !busy && View() == ClientAfter(old(View()), es) && sent == ClientSays(old(View()), es)
      ensures old(ClientOk(View())) ==> ClientOk(View())
    {
      hide ClientOk, OnPoll;
      ghost var c := View();
      sent := [];
      for k := 0 to |es|
        invariant Valid() && !busy && View() == ClientAfter(c, es[..k]) && sent == ClientSays(c, es[..k])
        invariant forall i :: 0 <= i < |test.streams| ==> test.streams[i] in old(test.streams) || fresh(test.streams[i])
      {
        assert es[..k + 1][..k] == es[..k];
        var more, drained, woke := HandleEvent(es[k]);
        sent := sent + more;
      }
      assert es[..|es|] == es;
      if ClientOk(c) {
        EventsFinaliseOnce(c, es);
      }
    }
  }
}
