/** What the clock readings add up to: elapsed times in `Test::end`, intervals that adjoin,
    and how long an interval of the receiver lasts (src/test.rs, src/server.rs). */
module Timing {
  import opened Stats
  import opened Session

  // ----- elapsed times

  /** The clock reading of the last `start` in a run. */
  function LastBegin(t: TestView, es: seq<Event>): nat
  {
    if es == [] then t.start
    else if es[|es| - 1].Begin? then es[|es| - 1].now
    else LastBegin(t, es[..|es| - 1])
  }

  /** The stream was created before everything in its log. */
  ghost predicate Spans(s: StreamView, created: nat)
  {
    s.created == created <= s.curr && forall k :: 0 <= k < |s.stats| ==> created <= s.stats[k].start
  }

  ghost predicate AllSpan(t: TestView, was: seq<StreamView>)
  {
    |t.streams| == |was| && forall k :: 0 <= k < |was| ==> Spans(t.streams[k], was[k].created)
  }

  lemma CloseSpans(s: StreamView, conn: Conn, c: Closing, created: nat)
    requires Spans(s, created) && SteadySample(s, c.sample)
    ensures Spans(Close(s, conn, c), created)
  {
  }

  lemma EventSpans(t: TestView, e: Event, was: seq<StreamView>)
    requires AllSpan(t, was) && Steady(t, e)
    ensures AllSpan(After(t, e), was)
  {
    if e.Finish? {
      forall k | 0 <= k < |was|
        ensures Spans(After(t, e).streams[k], was[k].created)
      {
        CloseSpans(t.streams[k], t.settings.conn, e.closing(k), was[k].created);
      }
    }
  }

  lemma {:induction false} RunSpans(t: TestView, es: seq<Event>)
    requires SteadyRun(t, es) && forall k :: 0 <= k < |t.streams| ==> Spans(t.streams[k], t.streams[k].created)
    ensures AllSpan(AfterAll(t, es), t.streams) && AfterAll(t, es).start == LastBegin(t, es)
  {
    if es != [] {
      var init := es[..|es| - 1];
      assert forall k :: 0 <= k < |init| ==> init[..k] == es[..k];
      RunSpans(t, init);
      EventSpans(AfterAll(t, init), es[|init|], t.streams);
    }
  }

  /** The clock goes on from the last sample of a stream to its end. */
  predicate EndsLater(s: StreamView, c: Closing)
  {
    SteadySample(s, c.sample) && c.sample.later <= c.end
  }

  /** The elapsed time of a closed stream runs from its creation to its end, and covers its whole log. */
  ghost predicate ElapsedCovers(s: StreamView, created: nat, end: nat)
  {
    && s.created == created <= end == s.end && s.elapsed == end - created
    && forall k :: 0 <= k < |s.stats| ==> created <= s.stats[k].start <= s.stats[k].end <= created + s.elapsed
  }

  lemma CloseCovers(s: StreamView, conn: Conn, c: Closing, created: nat)
    requires Spans(s, created) && StreamLogOk(s) && Conserved(s) && EndsLater(s, c)
    ensures ElapsedCovers(Close(s, conn, c), created, c.end)
  {
    CloseSpans(s, conn, c, created);
    CloseKeepsStreamLog(s, conn, c);
    var e := Close(s, conn, c);
    forall k | 0 <= k < |e.stats|
      ensures created <= e.stats[k].start <= e.stats[k].end <= c.end
    {
      assert RecordOk(e.stats[k], k);
    }
  }

  /** After any run with a steady clock, `end` gives each stream the time from its creation to its own end, which
      covers its interval log, and the test the time since it was last started. */
  lemma EndTimes(t: TestView, es: seq<Event>, closing: nat -> Closing, now: nat)
    requires Unused(t) && SteadyRun(t, es)
    requires forall k :: 0 <= k < |t.streams| ==> t.streams[k].created <= t.streams[k].curr
    requires forall k :: 0 <= k < |AfterAll(t, es).streams| ==> EndsLater(AfterAll(t, es).streams[k], closing(k))
    ensures var e := EndAll(AfterAll(t, es), closing, now);
            && |e.streams| == |t.streams| && e.elapsed == Since(now, LastBegin(t, es))
            && forall k :: 0 <= k < |t.streams| ==> ElapsedCovers(e.streams[k], t.streams[k].created, closing(k).end)
  {
    assert forall k :: 0 <= k < |t.streams| ==> UnusedStream(t.streams[k]);
    RunSpans(t, es);
    RunKeepsLogs(t, es);
    RunKeepsThreeLevels(t, es);
    var r := AfterAll(t, es);
    forall k | 0 <= k < |t.streams|
      ensures ElapsedCovers(EndAll(r, closing, now).streams[k], t.streams[k].created, closing(k).end)
    {
      CloseCovers(r.streams[k], r.settings.conn, closing(k), t.streams[k].created);
    }
  }

  // ----- adjoining intervals

  /** One interval begins where the one before it ends, the first at `begun`. */
  ghost predicate Adjoining(s: StreamView, begun: nat)
  {
    && s.curr == (if s.stats == [] then begun else s.stats[|s.stats| - 1].end)
    && (s.stats != [] ==> s.stats[0].start == begun)
    && forall k :: 0 < k < |s.stats| ==> s.stats[k].start == s.stats[k - 1].end
  }

  lemma PushAdjoins(s: StreamView, sample: Sample, begun: nat)
    requires Adjoining(s, begun) && sample.later == sample.now
    ensures Adjoining(Push(s, sample), begun)
  {
  }

  /** No `start`, and no time between the two readings of a `push_stat`. */
  ghost predicate AtOnce(e: Event)
  {
    match e
    case Write(i, a) => a.sample.later == a.sample.now
    case Read(i, r) => r.sample.later == r.sample.now
    case Begin(now) => false
    case Finish(closing, now) => forall k: nat :: closing(k).sample.later == closing(k).sample.now
  }

  ghost predicate AllAdjoin(t: TestView, begun: nat)
  {
    forall k :: 0 <= k < |t.streams| ==> Adjoining(t.streams[k], begun)
  }

  lemma EventAdjoins(t: TestView, e: Event, begun: nat)
    requires AtOnce(e) && AllAdjoin(t, begun)
    ensures AllAdjoin(After(t, e), begun)
  {
    hide Adjoining;
    forall k | 0 <= k < |t.streams|
      ensures Adjoining(After(t, e).streams[k], begun)
    {
      StreamAdjoins(t, e, k, begun);
    }
  }

  lemma StreamAdjoins(t: TestView, e: Event, k: nat, begun: nat)
    requires AtOnce(e) && k < |t.streams| && Adjoining(t.streams[k], begun)
    ensures Adjoining(After(t, e).streams[k], begun)
  {
    var s := t.streams[k];
    match e
    case Write(i, a) =>
      if i == k && a.res.Wrote? {
        PushAdjoins(Count(s, a.res.n), a.sample, begun);
      }
    case Read(i, r) =>
      PushAdjoins(Count(s, r.n).(last := r.number), r.sample, begun);
    case Finish(closing, now) =>
      PushAdjoins(s, closing(k).sample, begun);
  }

  /** From `start` on, the intervals of a stream leave no time out: they adjoin from the start of the test to the
      start of the open one, if no time passes between the two readings that end one and begin the next. */
  lemma {:induction false} IntervalsAdjoin(t: TestView, es: seq<Event>, begun: nat)
    requires Unused(t) && forall k :: 0 <= k < |es| ==> AtOnce(es[k])
    ensures AllAdjoin(AfterAll(StartAll(t, begun), es), begun)
  {
    hide After;
    if es == [] {
      assert forall k :: 0 <= k < |t.streams| ==> UnusedStream(t.streams[k]);
    } else {
      IntervalsAdjoin(t, es[..|es| - 1], begun);
      EventAdjoins(AfterAll(StartAll(t, begun), es[..|es| - 1]), es[|es| - 1], begun);
    }
  }

  // ----- how long an interval of the receiver lasts

  /** The readings of a receive turn are those of a clock that does not go back. */
  predicate SteadyReceipt(s: StreamView, r: Receipt)
  {
    s.curr <= r.now <= r.sample.now <= r.sample.later
  }

  ghost predicate SteadyReceipts(s: StreamView, rs: seq<Receipt>)
  {
    forall k :: 0 <= k < |rs| ==> SteadyReceipt(ReceiveAll(s, rs[..k]), rs[k])
  }

  ghost predicate LongRecords(s: StreamView)
  {
    forall k :: 0 <= k < |s.stats| ==> s.stats[k].end - s.stats[k].start > 1_000_000_000
  }

  /** The open interval after a receipt: begun within a second of it, or by it. */
  predicate OpenAfter(s: StreamView, r: Receipt)
  {
    if s.temp.blks > 0 then r.now - s.curr <= 1_000_000_000 else s.stats != [] && s.curr == r.sample.later
  }

  lemma ReceivedInterval(s: StreamView, r: Receipt)
    requires LongRecords(s) && SteadyReceipt(s, r)
    ensures LongRecords(Receive(s, r)) && OpenAfter(Receive(s, r), r)
  {
  }

  /** Every interval that the receive loop closes has lasted for more than a second, and what it leaves
      open was last read within a second of its start. */
  lemma {:induction false} ReceivedIntervals(s: StreamView, rs: seq<Receipt>)
    requires s.stats == [] && SteadyReceipts(s, rs)
    ensures LongRecords(ReceiveAll(s, rs)) && (rs != [] ==> OpenAfter(ReceiveAll(s, rs), rs[|rs| - 1]))
  {
    hide Receive;
    if rs != [] {
      var init := rs[..|rs| - 1];
      assert forall k :: 0 <= k < |init| ==> init[..k] == rs[..k];
      ReceivedIntervals(s, init);
      assert SteadyReceipt(ReceiveAll(s, rs[..|init|]), rs[|init|]);
      ReceivedInterval(ReceiveAll(s, init), rs[|init|]);
    }
  }
}
