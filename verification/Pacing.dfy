/** The client's bitrate pacer: a write is skipped while the open interval's
    truncated rate is above the target (src/client.rs). */
module Pacing {
  import opened Arithmetic
  import opened Stats
  import opened Session

  /** The pacer can hold a stream back exactly when the target is neither zero (no target)
      nor the largest `u64`, at which the saturating cast can no longer exceed it. */
  lemma PacerActsIff(bitrate: nat)
    requires bitrate < U64
    ensures (exists s, now :: !Allowed(bitrate, s, now)) <==> 0 < bitrate < U64 - 1
  {
    if 0 < bitrate < U64 - 1 {
      var s := Count(NewStream(UDP, 0), 1);
      assert !Allowed(bitrate, s, 0);
    }
  }

  /** What an allowed write of `n` bytes can bring the open interval to. */
  lemma AllowedBound(bitrate: nat, s: StreamView, now: nat, n: nat, length: nat)
    requires 0 < bitrate < U64 - 1 && n <= length && s.curr <= now
    requires Allowed(bitrate, s, now)
    ensures 8 * ONE_SEC * (s.temp.bytes + n) <= (bitrate + 1) * (now - s.curr) + 8 * ONE_SEC * length
  {
    var t, bits := now - s.curr, s.temp.bytes * 8 * ONE_SEC;
    if t == 0 {
      assert s.temp.bytes == 0;
    } else {
      FloorBound(bits, t, bitrate);
    }
  }

  /** The bound on a stream between two events, seen from a later time `horizon`:
      its closed intervals, each longer than a second, and its open one. */
  ghost predicate Paced(s: StreamView, bitrate: nat, length: nat, begun: nat, horizon: nat)
  {
    && begun <= s.curr <= horizon
    && |s.stats| * ONE_SEC <= s.curr - begun
    && 8 * ONE_SEC * SumStats(s.stats).bytes <= (bitrate + 1) * (s.curr - begun) + 8 * ONE_SEC * length * |s.stats|
    && 8 * ONE_SEC * s.temp.bytes <= (bitrate + 1) * (horizon - s.curr) + 8 * ONE_SEC * length
  }

  lemma Stretch(rate: nat, a: nat, b: nat)
    requires a <= b
    ensures 0 <= rate * a <= rate * b
  {
  }

  /** Two adjoining bounded spans, the first of `k` intervals and the second of one, make one of `k + 1`. */
  lemma Joined(rate: nat, unit: nat, k: nat, a: nat, b: nat, c: nat, x: nat, y: nat)
    requires x <= rate * a + unit * k && y <= rate * b + unit && a + b <= c
    ensures x + y <= rate * c + unit * (k + 1)
  {
    assert rate * a + rate * b == rate * (a + b);
    Stretch(rate, a + b, c);
    assert unit * k + unit == unit * (k + 1);
  }

  /** A write that does not end its interval. */
  lemma CountKeepsPaced(s: StreamView, a: Attempt, bitrate: nat, length: nat, begun: nat, horizon: nat)
    requires Paced(s, bitrate, length, begun, horizon) && 0 < bitrate < U64 - 1
    requires Allowed(bitrate, s, a.now) && a.res.Wrote? && a.res.n <= length && s.curr <= a.now <= horizon
    ensures Paced(Count(s, a.res.n), bitrate, length, begun, horizon)
  {
    AllowedBound(bitrate, s, a.now, a.res.n, length);
    Stretch(bitrate + 1, a.now - s.curr, horizon - s.curr);
  }

  /** A write after which an interval of more than a second is pushed. */
  lemma PushKeepsPaced(s: StreamView, a: Attempt, bitrate: nat, length: nat, begun: nat, horizon: nat)
    requires Paced(s, bitrate, length, begun, horizon) && 0 < bitrate < U64 - 1
    requires Allowed(bitrate, s, a.now) && a.res.Wrote? && a.res.n <= length
    requires s.curr <= a.now <= a.sample.now <= a.sample.later <= horizon
    requires Since(a.now, s.curr) > ONE_SEC
    ensures Paced(Push(Count(s, a.res.n), a.sample), bitrate, length, begun, horizon)
  {
    var counted := Count(s, a.res.n);
    var p := Push(counted, a.sample);
    var rate, unit := bitrate + 1, 8 * ONE_SEC * length;
    SumStatsAppend(s.stats, p.stats[|s.stats|]);
    AllowedBound(bitrate, s, a.now, a.res.n, length);
    Joined(rate, unit, |s.stats|, s.curr - begun, a.now - s.curr, p.curr - begun,
           8 * ONE_SEC * SumStats(s.stats).bytes, 8 * ONE_SEC * counted.temp.bytes);
    Stretch(rate, 0, horizon - p.curr);
    Stretch(unit, 0, 1);
  }

  lemma PacedTotal(s: StreamView, bitrate: nat, length: nat, begun: nat, horizon: nat)
    requires Paced(s, bitrate, length, begun, horizon) && Conserved(s)
    ensures WithinPace(s.data.bytes, bitrate, length, horizon - begun)
  {
    Joined(bitrate + 1, 8 * ONE_SEC * length, |s.stats|, s.curr - begun, horizon - s.curr, horizon - begun,
           8 * ONE_SEC * SumStats(s.stats).bytes, 8 * ONE_SEC * s.temp.bytes);
    Regroup(length, |s.stats| + 1);
    Stretch(8 * length, (|s.stats| + 1) * ONE_SEC, horizon - begun + ONE_SEC);
  }

  lemma Regroup(length: nat, k: nat)
    ensures 8 * ONE_SEC * length * k == 8 * length * (k * ONE_SEC)
  {
  }

  lemma UnusedIsPaced(s: StreamView, bitrate: nat, length: nat, begun: nat, horizon: nat)
    requires s.stats == [] && s.temp == ZERO && s.curr == begun <= horizon
    ensures Paced(s, bitrate, length, begun, horizon)
  {
    Stretch(bitrate + 1, 0, horizon - begun);
    Stretch(8 * ONE_SEC * length, 0, 1);
  }

  /** The send loop's events before `horizon`: attempts that write at most `length` bytes, with
      readings of a monotone clock. */
  ghost predicate Attempted(t: TestView, e: Event, length: nat, horizon: nat)
  {
    && e.Write? && e.i < |t.streams|
    && t.streams[e.i].curr <= e.a.now <= e.a.sample.now <= e.a.sample.later <= horizon
    && (e.a.res.Wrote? ==> e.a.res.n <= length)
  }

  ghost predicate AllPaced(t: TestView, length: nat, begun: nat, horizon: nat)
  {
    forall k :: 0 <= k < |t.streams| ==> Paced(t.streams[k], t.settings.bitrate, length, begun, horizon)
  }

  lemma AttemptKeepsPaced(t: TestView, e: Event, length: nat, begun: nat, horizon: nat)
    requires AllPaced(t, length, begun, horizon) && 0 < t.settings.bitrate < U64 - 1
    requires Attempted(t, e, length, horizon) && !LimitHit(t.settings, After(t, e).data)
    ensures AllPaced(After(t, e), length, begun, horizon)
  {
    var turn := TurnOf(t, e.i, e.a);
    if turn.Sent? {
      assert After(t, e).data == t.data.Counted(e.a.res.n);
      if turn.pushed {
        PushKeepsPaced(t.streams[e.i], e.a, t.settings.bitrate, length, begun, horizon);
      } else {
        CountKeepsPaced(t.streams[e.i], e.a, t.settings.bitrate, length, begun, horizon);
      }
    }
  }

  ghost predicate AttemptedRun(t: TestView, es: seq<Event>, length: nat, horizon: nat)
  {
    forall k :: 0 <= k < |es| ==> Attempted(AfterAll(t, es[..k]), es[k], length, horizon)
  }

  /** A limit that is not reached after an event was not reached before it. */
  lemma LimitStays(t: TestView, e: Event)
    requires e.Write? && !LimitHit(t.settings, After(t, e).data)
    ensures After(t, e).settings == t.settings && !LimitHit(t.settings, t.data)
  {
  }

  lemma {:induction false} RunKeepsPaced(t: TestView, es: seq<Event>, length: nat, begun: nat, horizon: nat)
    requires AllPaced(t, length, begun, horizon) && 0 < t.settings.bitrate < U64 - 1
    requires AttemptedRun(t, es, length, horizon) && !LimitHit(AfterAll(t, es).settings, AfterAll(t, es).data)
    ensures AllPaced(AfterAll(t, es), length, begun, horizon)
    ensures AfterAll(t, es).settings == t.settings
  {
    if es != [] {
      var init := es[..|es| - 1];
      assert forall k :: 0 <= k < |init| ==> init[..k] == es[..k];
      LimitStays(AfterAll(t, init), es[|es| - 1]);
      RunKeepsPaced(t, init, length, begun, horizon);
      AttemptKeepsPaced(AfterAll(t, init), es[|es| - 1], length, begun, horizon);
    }
  }

  lemma PacedTest(t: TestView, length: nat, begun: nat, horizon: nat)
    requires AllPaced(t, length, begun, horizon) && ThreeLevels(t) && begun <= horizon
    ensures KeepsPace(t, t.settings.bitrate, length, horizon - begun)
  {
    forall i | 0 <= i < |t.streams|
      ensures WithinPace(t.streams[i].data.bytes, t.settings.bitrate, length, horizon - begun)
    {
      PacedTotal(t.streams[i], t.settings.bitrate, length, begun, horizon);
    }
  }

  lemma StartedIsPaced(t: TestView, length: nat, begun: nat, horizon: nat)
    requires Unused(t) && begun <= horizon
    ensures Unused(StartAll(t, begun)) && AllPaced(StartAll(t, begun), length, begun, horizon)
  {
    var s0 := StartAll(t, begun);
    forall k | 0 <= k < |s0.streams|
      ensures UnusedStream(s0.streams[k]) && Paced(s0.streams[k], t.settings.bitrate, length, begun, horizon)
    {
      assert UnusedStream(t.streams[k]);
      UnusedIsPaced(s0.streams[k], t.settings.bitrate, length, begun, horizon);
    }
  }

  /** The bound over a run from a started test. */
  lemma StartedRunIsPaced(t: TestView, es: seq<Event>, length: nat, begun: nat, horizon: nat)
    requires Unused(t) && AllPaced(t, length, begun, horizon) && 0 < t.settings.bitrate < U64 - 1
    requires AttemptedRun(t, es, length, horizon) && !LimitHit(AfterAll(t, es).settings, AfterAll(t, es).data)
    ensures AllPaced(AfterAll(t, es), length, begun, horizon)
    ensures ThreeLevels(AfterAll(t, es)) && AfterAll(t, es).settings == t.settings
  {
    RunKeepsPaced(t, es, length, begun, horizon);
    RunKeepsThreeLevels(t, es);
  }

  /** The bits a stream may have sent: what a rate of one more than the target gives over
      `elapsed` nanoseconds, and one block for every second begun. */
  ghost predicate WithinPace(sent: nat, bitrate: nat, length: nat, elapsed: nat)
  {
    8 * ONE_SEC * sent <= (bitrate + 1) * elapsed + 8 * length * (elapsed + ONE_SEC)
  }

  ghost predicate KeepsPace(t: TestView, bitrate: nat, length: nat, elapsed: nat)
  {
    forall i :: 0 <= i < |t.streams| ==> WithinPace(t.streams[i].data.bytes, bitrate, length, elapsed)
  }

  /** Pacing over a whole run. From `start` at time `begun` until any time `elapsed` later, however many streams
      there are and however their writes go, every stream has kept within its pace,
      as long as no block or byte limit has been reached. */
  lemma {:induction false} PacingBound(t: TestView, es: seq<Event>, length: nat, begun: nat, elapsed: nat)
    requires Unused(t) && 0 < t.settings.bitrate < U64 - 1
    requires AttemptedRun(StartAll(t, begun), es, length, begun + elapsed)
    requires var end := AfterAll(StartAll(t, begun), es); !LimitHit(end.settings, end.data)
    ensures KeepsPace(AfterAll(StartAll(t, begun), es), t.settings.bitrate, length, elapsed)
  {
    hide AttemptedRun, KeepsPace, LimitHit;
    StartedIsPaced(t, length, begun, begun + elapsed);
    StartedRunIsPaced(StartAll(t, begun), es, length, begun, begun + elapsed);
    PacedTest(AfterAll(StartAll(t, begun), es), length, begun, begun + elapsed);
  }

  // ----- what the pacer does not hold back

  /** The pacer never holds a stream back: there is no target, or it is the largest rate the cast can give. */
  predicate Inert(bitrate: nat) {
    bitrate == 0 || bitrate >= U64 - 1
  }

  lemma UnheldIsAllowed(bitrate: nat, s: StreamView, now: nat)
    requires s.temp.bytes == 0 || Inert(bitrate)
    ensures Allowed(bitrate, s, now)
  {
    var d := Since(now, s.curr);
    if s.temp.bytes == 0 && d > 0 {
      assert Floor(0, d) == 0;
    }
  }

  /** So many single bytes are too many. */
  function TooMany(bitrate: nat, length: nat, elapsed: nat): (k: nat)
    ensures !WithinPace(k, bitrate, length, elapsed)
  {
    var p, q := (bitrate + 1) * elapsed, length * (elapsed + ONE_SEC);
    assert 8 * length * (elapsed + ONE_SEC) == 8 * q;
    p + q + 1
  }

  /** Once a block or byte limit is reached every write pushes its interval,
      so that the pacer never holds the stream back again. */
  lemma LimitUnpaces(t: TestView, i: nat, a: Attempt, now: nat)
    requires i < |t.streams| && LimitHit(t.settings, t.data) && TurnOf(t, i, a).Sent?
    ensures Allowed(t.settings.bitrate, WriteOne(t, i, a).streams[i], now)
  {
    assert LimitHit(t.settings, t.data.Counted(a.res.n));
    UnheldIsAllowed(t.settings.bitrate, WriteOne(t, i, a).streams[i], now);
  }
}
