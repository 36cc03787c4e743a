/** Exactly when the bitrate bound is kept by every run of the client's send loop (src/client.rs): when no block
    or byte limit can be reached before the time is over. */
module Limits {
  import opened Arithmetic
  import opened Stats
  import opened Session
  import opened Pacing

  // ----- the runs of the send loop

  /** Before the attempt on stream `i`, perhaps in a round in which the time was found
      to be over, or done with sending. */
  datatype Place = At(i: nat, late: bool) | Done

  /** Where attempt `a` on stream `i` leads: to the next stream of the round, to another round, to another burst after a
      blocked attempt, or to the end of the test. (A burst may also end the test because the time was over when it
      began and an attempt is blocked; runs are not cut off for that.) */
  function NextPlace(t: TestView, i: nat, late: bool, a: Attempt): Place
    requires i < |t.streams|
  {
    var turn := TurnOf(t, i, a);
    var late' := late || (turn == Sent(true) && Since(a.checked, t.start) > t.settings.time);
    if turn.Blocked? then (if late || LimitHit(t.settings, t.data) then Done else At(0, false))
    else if i + 1 < |t.streams| then At(i + 1, late')
    else if late' then Done
    else At(0, false)
  }

  function PlaceAfter(t: TestView, es: seq<Event>): Place
  {
    if es == [] then At(0, false)
    else
      var init, e := es[..|es| - 1], es[|es| - 1];
      var place, now := PlaceAfter(t, init), AfterAll(t, init);
      if place.At? && e.Write? && e.i == place.i < |now.streams| then NextPlace(now, e.i, place.late, e.a) else Done
  }

  /** A datagram goes out whole, while a byte stream may take a part of the block. */
  predicate Sized(st: Settings, a: Attempt, length: nat)
  {
    st.conn.UDP? && a.res.Wrote? && a.res.n > 0 ==> a.res.n == length
  }

  /** The loop can make attempt `e` after `es`: it is at that stream, and its clock has gone on. */
  ghost predicate Goes(t: TestView, es: seq<Event>, e: Event, length: nat, horizon: nat)
  {
    && Attempted(AfterAll(t, es), e, length, horizon)
    && Sized(t.settings, e.a, length)
    && e.a.sample.later <= e.a.checked <= horizon
    && (es != [] ==> es[|es| - 1].Write? && es[|es| - 1].a.checked <= e.a.now)
    && PlaceAfter(t, es).At? && PlaceAfter(t, es).i == e.i
  }

  /** The attempts of the send loop, burst after burst, up to `horizon`. */
  ghost predicate CodeRun(t: TestView, es: seq<Event>, length: nat, horizon: nat)
  {
    es == [] ||
    (CodeRun(t, es[..|es| - 1], length, horizon) && Goes(t, es[..|es| - 1], es[|es| - 1], length, horizon))
  }

  lemma OneMoreGoes(t: TestView, es: seq<Event>, e: Event, length: nat, horizon: nat)
    requires CodeRun(t, es, length, horizon) && Goes(t, es, e, length, horizon)
    ensures CodeRun(t, es + [e], length, horizon) && AfterAll(t, es + [e]) == WriteOne(AfterAll(t, es), e.i, e.a)
    ensures PlaceAfter(t, es + [e]) == NextPlace(AfterAll(t, es), e.i, PlaceAfter(t, es).late, e.a)
  {
    hide WriteOne, NextPlace;
    assert (es + [e])[..|es|] == es;
  }

  lemma {:induction false} CodeRunKeeps(t: TestView, es: seq<Event>, length: nat, horizon: nat)
    requires CodeRun(t, es, length, horizon)
    ensures var r := AfterAll(t, es);
            r.settings == t.settings && r.start == t.start && |r.streams| == |t.streams|
  {
    if es != [] {
      CodeRunKeeps(t, es[..|es| - 1], length, horizon);
    }
  }

  /** The clock tells the whole run. */
  lemma {:induction false} CodeRunUntil(t: TestView, es: seq<Event>, length: nat, horizon: nat, until: nat)
    requires CodeRun(t, es, length, horizon) && es != [] && es[|es| - 1].a.checked <= until
    ensures CodeRun(t, es, length, until)
  {
    hide AfterAll, PlaceAfter;
    var init := es[..|es| - 1];
    if init != [] {
      CodeRunUntil(t, init, length, horizon, until);
    }
  }

  // ----- what the pacer lets through

  /** The most bytes that an interval may hold `t` nanoseconds after it began for another write to be allowed. */
  function Cap(bitrate: nat, t: nat): (c: nat)
    ensures t == 0 ==> c == 0
    ensures t > 0 ==> 8 * ONE_SEC * c < (bitrate + 1) * t <= 8 * ONE_SEC * (c + 1)
  {
    if t == 0 then 0
    else
      assert (bitrate + 1) * t >= 1;
      ((bitrate + 1) * t - 1) / (8 * ONE_SEC)
  }

  lemma CapGrows(bitrate: nat, a: nat, b: nat)
    requires a <= b
    ensures Cap(bitrate, a) <= Cap(bitrate, b)
  {
    Stretch(bitrate + 1, a, b);
  }

  lemma AllowedIff(bitrate: nat, s: StreamView, now: nat)
    requires !Inert(bitrate) && s.curr <= now
    ensures Allowed(bitrate, s, now) <==> s.temp.bytes <= Cap(bitrate, now - s.curr)
  {
    var t, x := now - s.curr, s.temp.bytes * 8 * ONE_SEC;
    if t > 0 {
      FloorIsWholePart(x, t);
      if Floor(x, t) <= bitrate {
        Stretch(t, Floor(x, t) + 1, bitrate + 1);
      } else {
        Stretch(t, bitrate + 1, Floor(x, t));
      }
    }
  }

  // ----- what a stream can send at most

  type pos = x: nat | x > 0 witness 1

  /** The most pieces of `grain` bytes that the interval may hold then. */
  function Pieces(bitrate: nat, grain: pos, t: nat): nat
  {
    Floor(Cap(bitrate, t), grain)
  }

  lemma PiecesIff(bitrate: nat, grain: pos, t: nat, m: nat)
    ensures m <= Pieces(bitrate, grain, t) <==> m * grain <= Cap(bitrate, t)
  {
    hide Cap;
    var most := Pieces(bitrate, grain, t);
    FloorIsWholePart(Cap(bitrate, t), grain);
    if m <= most {
      Stretch(grain, m, most);
    } else {
      Stretch(grain, most + 1, m);
    }
  }

  lemma PiecesGrow(bitrate: nat, grain: pos, a: nat, b: nat)
    requires a <= b
    ensures Pieces(bitrate, grain, a) <= Pieces(bitrate, grain, b)
  {
    hide Cap;
    CapGrows(bitrate, a, b);
    PiecesIff(bitrate, grain, a, Pieces(bitrate, grain, a));
    PiecesIff(bitrate, grain, b, Pieces(bitrate, grain, a));
  }

  /** Lengths of intervals that the pacer's clock can close. */
  predicate Intervals(ds: seq<nat>)
  {
    forall k :: 0 <= k < |ds| ==> ds[k] > ONE_SEC
  }

  function Span(ds: seq<nat>): nat
  {
    if ds == [] then 0 else Span(ds[..|ds| - 1]) + ds[|ds| - 1]
  }

  /** What an interval can hold after `t` nanoseconds, in pieces, writes of at most `unit` of them
      and all before the one that closes it. */
  function Open(bitrate: nat, grain: pos, unit: nat, t: nat): nat
  {
    Pieces(bitrate, grain, Min(t, ONE_SEC)) + unit
  }

  /** What it can hold when it is closed after `d` nanoseconds. */
  function Gain(bitrate: nat, grain: pos, unit: nat, d: nat): nat
  {
    Min(Pieces(bitrate, grain, d), Open(bitrate, grain, unit, ONE_SEC)) + unit
  }

  function Pushed(bitrate: nat, grain: pos, unit: nat, ds: seq<nat>): nat
  {
    if ds == [] then 0 else Pushed(bitrate, grain, unit, ds[..|ds| - 1]) + Gain(bitrate, grain, unit, ds[|ds| - 1])
  }

  /** What a stream can send in `time` with intervals `ds` and an open one after them. */
  function Room(bitrate: nat, grain: pos, unit: nat, ds: seq<nat>, time: nat): nat
    requires Span(ds) <= time
  {
    Pushed(bitrate, grain, unit, ds) + Open(bitrate, grain, unit, time - Span(ds))
  }

  /** Some way of cutting `time` into intervals lets `n` streams send `limit` bytes in it. */
  ghost predicate InTime(bitrate: nat, grain: pos, unit: nat, time: nat, n: nat, limit: nat)
  {
    exists ds: seq<nat> ::
      Intervals(ds) && Span(ds) <= time && limit <= n * (grain * Room(bitrate, grain, unit, ds, time))
  }

  /** What a single write is made of: a whole datagram, or one byte and more. */
  function Grain(st: Settings, length: nat): pos
  {
    if st.conn.UDP? && length > 0 then length else 1
  }

  /** The largest write, in pieces. */
  function Unit(st: Settings, length: nat): nat
  {
    if st.conn.UDP? then 1 else length
  }

  /** A limit is set that can be reached before the time is over: by writes of up to `length` bytes if
      it is one of bytes, by the smallest writes there are if it is one of blocks. */
  ghost predicate InReach(st: Settings, n: nat, length: nat)
  {
    var grain := Grain(st, length);
    || (st.bytes != 0 && InTime(st.bitrate, grain, Unit(st, length), st.time, n, st.bytes))
    || (st.blks != 0 && InTime(st.bitrate, grain, 1, st.time, n, grain * st.blks))
  }

  /** Intervals that add up to `span` and leave room for what a stream has pushed and for what it has open. */
  ghost predicate Fitting(ds: seq<nat>, closed: nat, open: nat, bitrate: nat, grain: pos, unit: nat, span: nat,
                          left: nat)
  {
    && Intervals(ds) && Span(ds) == span
    && closed <= Pushed(bitrate, grain, unit, ds) && open <= Open(bitrate, grain, unit, left)
  }

  ghost predicate Fits(closed: nat, open: nat, bitrate: nat, grain: pos, unit: nat, span: nat, left: nat)
  {
    exists ds: seq<nat> :: Fitting(ds, closed, open, bitrate, grain, unit, span, left)
  }

  /** A write of `n` pieces within its interval, `t` after it began. */
  lemma CountFits(closed: nat, open: nat, bitrate: nat, grain: pos, unit: nat, span: nat, left: nat, t: nat, n: nat)
    requires Fits(closed, open, bitrate, grain, unit, span, left)
    requires t <= left && t <= ONE_SEC && open <= Pieces(bitrate, grain, t) && n <= unit
    ensures Fits(closed, open + n, bitrate, grain, unit, span, left)
  {
    hide Pieces;
    var ds: seq<nat> :| Fitting(ds, closed, open, bitrate, grain, unit, span, left);
    PiecesGrow(bitrate, grain, t, Min(left, ONE_SEC));
    assert Fitting(ds, closed, open + n, bitrate, grain, unit, span, left);
  }

  /** A write of `n` pieces that closes its interval, which ends `d` after it began. */
  lemma PushFits(closed: nat, open: nat, bitrate: nat, grain: pos, unit: nat, span: nat, left: nat, t: nat, n: nat,
                 d: nat)
    requires Fits(closed, open, bitrate, grain, unit, span, left)
    requires ONE_SEC < t <= d <= left && open <= Pieces(bitrate, grain, t) && n <= unit
    ensures Fits(closed + (open + n), 0, bitrate, grain, unit, span + d, left - d)
  {
    hide Pieces;
    var ds: seq<nat> :| Fitting(ds, closed, open, bitrate, grain, unit, span, left);
    PiecesGrow(bitrate, grain, t, d);
    var more := ds + [d];
    assert more[..|ds|] == ds;
    assert Fitting(more, closed + (open + n), 0, bitrate, grain, unit, span + d, left - d);
  }

  /** A stream has sent no more bytes, and no more blocks, than some intervals have room for;
      on UDP the two are the same but for the size of a datagram. */
  ghost predicate FitsStream(s: StreamView, st: Settings, length: nat, begun: nat, horizon: nat)
  {
    var grain, sum := Grain(st, length), SumStats(s.stats);
    && begun <= s.curr <= horizon
    && s.temp.blks * grain <= s.temp.bytes
    && (st.conn.UDP? ==> s.data.bytes == s.data.blks * grain)
    && (!st.conn.UDP? ==>
          Fits(sum.bytes, s.temp.bytes, st.bitrate, grain, length, s.curr - begun, horizon - s.curr))
    && Fits(sum.blks, s.temp.blks, st.bitrate, grain, 1, s.curr - begun, horizon - s.curr)
  }

  /** The stream after a write, its interval pushed if it has lasted for more than a second. */
  function Written(s: StreamView, a: Attempt): StreamView
    requires a.res.Wrote?
  {
    var counted := Count(s, a.res.n);
    if Since(a.now, s.curr) > ONE_SEC then Push(counted, a.sample) else counted
  }

  lemma WrittenFits(s: StreamView, a: Attempt, st: Settings, length: nat, begun: nat, horizon: nat)
    requires FitsStream(s, st, length, begun, horizon) && Conserved(s) && !Inert(st.bitrate)
    requires Allowed(st.bitrate, s, a.now) && a.res.Wrote? && 0 < a.res.n <= length && Sized(st, a, length)
    requires s.curr <= a.now <= a.sample.now <= a.sample.later <= horizon
    ensures FitsStream(Written(s, a), st, length, begun, horizon)
  {
    hide Fits, Allowed, Cap, Pieces;
    var t, d, span, left := a.now - s.curr, a.sample.later - s.curr, s.curr - begun, horizon - s.curr;
    var sum, grain, n := SumStats(s.stats), Grain(st, length), a.res.n;
    AllowedIff(st.bitrate, s, a.now);
    PiecesIff(st.bitrate, grain, t, s.temp.blks);
    PiecesIff(st.bitrate, grain, t, s.temp.bytes);
    OneMoreShare(s.temp.blks, grain);
    OneMoreShare(s.data.blks, grain);
    if t > ONE_SEC {
      SumStatsAppend(s.stats, Written(s, a).stats[|s.stats|]);
      if !st.conn.UDP? {
        PushFits(sum.bytes, s.temp.bytes, st.bitrate, grain, length, span, left, t, n, d);
      }
      PushFits(sum.blks, s.temp.blks, st.bitrate, grain, 1, span, left, t, 1, d);
    } else {
      if !st.conn.UDP? {
        CountFits(sum.bytes, s.temp.bytes, st.bitrate, grain, length, span, left, t, n);
      }
      CountFits(sum.blks, s.temp.blks, st.bitrate, grain, 1, span, left, t, 1);
    }
  }

  ghost predicate AllFit(streams: seq<StreamView>, st: Settings, length: nat, begun: nat, horizon: nat)
  {
    forall k :: 0 <= k < |streams| ==> FitsStream(streams[k], st, length, begun, horizon)
  }

  /** Some stream has at least its share. */
  lemma {:induction false} GreatestShare(streams: seq<StreamView>) returns (b: nat, k: nat)
    requires streams != []
    ensures b < |streams| && SumStreams(streams).bytes <= |streams| * streams[b].data.bytes
    ensures k < |streams| && SumStreams(streams).blks <= |streams| * streams[k].data.blks
  {
    var n := |streams| - 1;
    if n == 0 {
      b, k := 0, 0;
      assert streams[..0] == [] && SumStreams(streams[..0]) == ZERO;
    } else {
      b, k := GreatestShare(streams[..n]);
      var b', k' := streams[b].data.bytes, streams[k].data.blks;
      if streams[n].data.bytes > b' {
        b := n;
        Stretch(n, b', streams[n].data.bytes);
      }
      if streams[n].data.blks > k' {
        k := n;
        Stretch(n, k', streams[n].data.blks);
      }
      OneMoreShare(n, streams[b].data.bytes);
      OneMoreShare(n, streams[k].data.blks);
    }
  }

  lemma OneMoreShare(n: nat, x: nat)
    ensures (n + 1) * x == n * x + x
  {
  }

  lemma FitsInTime(closed: nat, open: nat, bitrate: nat, grain: pos, unit: nat, span: nat, left: nat, n: nat,
                   limit: nat)
    requires Fits(closed, open, bitrate, grain, unit, span, left) && limit <= n * (grain * (closed + open))
    ensures InTime(bitrate, grain, unit, span + left, n, limit)
  {
    hide Pushed, Open;
    var ds: seq<nat> :| Fitting(ds, closed, open, bitrate, grain, unit, span, left);
    var room := Room(bitrate, grain, unit, ds, span + left);
    Stretch(grain, closed + open, room);
    Stretch(n, grain * (closed + open), grain * room);
  }

  /** Streams that fit and have reached a limit between them show that it is in reach. */
  lemma HitIsInReach(t: TestView, length: nat, begun: nat)
    requires AllFit(t.streams, t.settings, length, begun, begun + t.settings.time) && ThreeLevels(t)
    requires LimitHit(t.settings, t.data) && t.streams != [] && length >= 1
    ensures InReach(t.settings, |t.streams|, length)
  {
    hide Fits, InTime, FitsStream;
    var st, n := t.settings, |t.streams|;
    var b, k := GreatestShare(t.streams);
    if st.bytes != 0 && t.data.bytes >= st.bytes {
      BytesInTime(t.streams[b], st, length, begun, n);
    } else {
      BlocksInTime(t.streams[k], st, length, begun, n);
    }
  }

  lemma BytesInTime(s: StreamView, st: Settings, length: nat, begun: nat, n: nat)
    requires FitsStream(s, st, length, begun, begun + st.time) && Conserved(s) && length >= 1
    requires st.bytes <= n * s.data.bytes
    ensures InTime(st.bitrate, Grain(st, length), Unit(st, length), st.time, n, st.bytes)
  {
    hide Fits, InTime;
    var sum, grain, span := SumStats(s.stats), Grain(st, length), s.curr - begun;
    var left := st.time - span;
    if st.conn.UDP? {
      FitsInTime(sum.blks, s.temp.blks, st.bitrate, grain, 1, span, left, n, st.bytes);
    } else {
      FitsInTime(sum.bytes, s.temp.bytes, st.bitrate, grain, length, span, left, n, st.bytes);
    }
  }

  lemma BlocksShare(grain: pos, blks: nat, n: nat, share: nat)
    requires blks <= n * share
    ensures grain * blks <= n * (grain * share)
  {
    Stretch(grain, blks, n * share);
    assert grain * (n * share) == n * (grain * share);
  }

  lemma BlocksInTime(s: StreamView, st: Settings, length: nat, begun: nat, n: nat)
    requires FitsStream(s, st, length, begun, begun + st.time) && Conserved(s)
    requires st.blks <= n * s.data.blks
    ensures InTime(st.bitrate, Grain(st, length), 1, st.time, n, Grain(st, length) * st.blks)
  {
    hide Fits, InTime;
    var sum, grain, span := SumStats(s.stats), Grain(st, length), s.curr - begun;
    BlocksShare(grain, st.blks, n, sum.blks + s.temp.blks);
    FitsInTime(sum.blks, s.temp.blks, st.bitrate, grain, 1, span, st.time - span, n, grain * st.blks);
  }

  /** The test after a write, its interval pushed only if it has lasted for more than a second. */
  function WrittenTest(t: TestView, e: Event): TestView
    requires e.Write? && e.i < |t.streams| && e.a.res.Wrote?
  {
    t.(streams := t.streams[e.i := Written(t.streams[e.i], e.a)], data := t.data.Counted(e.a.res.n))
  }

  lemma WriteFits(t: TestView, e: Event, length: nat, begun: nat, horizon: nat)
    requires AllFit(t.streams, t.settings, length, begun, horizon) && ThreeLevels(t) && !Inert(t.settings.bitrate)
    requires Attempted(t, e, length, horizon) && Sized(t.settings, e.a, length) && TurnOf(t, e.i, e.a).Sent?
    ensures var w := WrittenTest(t, e);
            && AllFit(w.streams, t.settings, length, begun, horizon) && ThreeLevels(w)
            && After(t, e).data == w.data
            && (!LimitHit(t.settings, w.data) ==> After(t, e) == w)
  {
    hide FitsStream, Allowed, Conserved;
    var s, n := t.streams[e.i], e.a.res.n;
    WrittenFits(s, e.a, t.settings, length, begun, horizon);
    CountConserves(s, n);
    PushConserves(Count(s, n), e.a.sample);
    CountedThreeLevels(t, e.i, Written(s, e.a), n);
  }

  /** A run within the test's time that reaches a limit shows that it is in reach. */
  lemma {:induction false} RunFits(t: TestView, es: seq<Event>, length: nat, begun: nat)
    requires Unused(t) && !Inert(t.settings.bitrate)
    requires AllFit(t.streams, t.settings, length, begun, begun + t.settings.time)
    requires CodeRun(t, es, length, begun + t.settings.time)
    ensures var r := AfterAll(t, es);
            if LimitHit(t.settings, r.data) then InReach(t.settings, |t.streams|, length)
            else AllFit(r.streams, t.settings, length, begun, begun + t.settings.time)
  {
    hide AllFit, InReach, ThreeLevels, After;
    if es != [] {
      var init, e := es[..|es| - 1], es[|es| - 1];
      var before := AfterAll(t, init);
      CodeRunKeeps(t, init, length, begun + t.settings.time);
      RunFits(t, init, length, begun);
      RunKeepsThreeLevels(t, init);
      NotSent(before, e);
      if LimitHit(t.settings, before.data) {
        DataGrows(before, e);
      } else if TurnOf(before, e.i, e.a).Sent? {
        WriteFits(before, e, length, begun, begun + t.settings.time);
        if LimitHit(t.settings, WrittenTest(before, e).data) {
          HitIsInReach(WrittenTest(before, e), length, begun);
        }
      }
    }
  }

  lemma NotSent(t: TestView, e: Event)
    requires e.Write? && e.i < |t.streams|
    ensures !TurnOf(t, e.i, e.a).Sent? ==> After(t, e) == t
  {
  }

  lemma DataGrows(t: TestView, e: Event)
    requires e.Write? && e.i < |t.streams|
    ensures LimitHit(t.settings, t.data) ==> LimitHit(t.settings, After(t, e).data)
  {
  }

  // ----- while no limit is in reach

  /** Every stream keeps its pace. Once a limit has been reached the time is over,
      and the rest of the round finds its streams as they were. */
  ghost predicate OnPace(t: TestView, place: Place, length: nat, begun: nat, horizon: nat)
    requires begun <= horizon
  {
    && (forall k :: 0 <= k < |t.streams| ==>
          WithinPace(t.streams[k].data.bytes, t.settings.bitrate, length, horizon - begun))
    && if !LimitHit(t.settings, t.data) then AllPaced(t, length, begun, horizon)
       else place.At? ==>
         && place.late
         && forall k :: place.i <= k < |t.streams| ==> Paced(t.streams[k], t.settings.bitrate, length, begun, horizon)
  }

  /** A write keeps its stream within its pace, whether or not its interval is pushed. */
  lemma WriteWithinPace(t: TestView, e: Event, length: nat, begun: nat, horizon: nat)
    requires begun <= horizon && Attempted(t, e, length, horizon) && !Inert(t.settings.bitrate)
    requires TurnOf(t, e.i, e.a).Sent?
    requires Paced(t.streams[e.i], t.settings.bitrate, length, begun, horizon) && Conserved(t.streams[e.i])
    ensures WithinPace(After(t, e).streams[e.i].data.bytes, t.settings.bitrate, length, horizon - begun)
  {
    hide Paced, WithinPace, Allowed, Conserved;
    var s := t.streams[e.i];
    assert Allowed(t.settings.bitrate, s, e.a.now);
    CountKeepsPaced(s, e.a, t.settings.bitrate, length, begun, horizon);
    CountConserves(s, e.a.res.n);
    PacedTotal(Count(s, e.a.res.n), t.settings.bitrate, length, begun, horizon);
  }

  lemma PaceGoesOn(t: TestView, late: bool, e: Event, length: nat, begun: nat, horizon: nat)
    requires begun <= horizon && Attempted(t, e, length, horizon) && !Inert(t.settings.bitrate) && ThreeLevels(t)
    requires OnPace(t, At(e.i, late), length, begun, horizon)
    requires LimitHit(t.settings, After(t, e).data) && !LimitHit(t.settings, t.data) ==>
               Since(e.a.checked, t.start) > t.settings.time
    ensures OnPace(After(t, e), NextPlace(t, e.i, late, e.a), length, begun, horizon)
  {
    hide WithinPace, Paced, Allowed, Conserved;
    NotSent(t, e);
    if TurnOf(t, e.i, e.a).Sent? {
      WriteWithinPace(t, e, length, begun, horizon);
      if !LimitHit(t.settings, After(t, e).data) {
        DataGrows(t, e);
        AttemptKeepsPaced(t, e, length, begun, horizon);
      }
    }
  }

  /** A test that has just been started: nothing has been sent and every clock stands at `begun`. */
  ghost predicate Fresh(t: TestView, begun: nat)
  {
    Unused(t) && t.start == begun && forall k :: 0 <= k < |t.streams| ==> t.streams[k].curr == begun
  }

  lemma FreshFits(t: TestView, length: nat, begun: nat, horizon: nat)
    requires Fresh(t, begun) && begun <= horizon
    ensures AllFit(t.streams, t.settings, length, begun, horizon)
    ensures AllPaced(t, length, begun, horizon) && KeepsPace(t, t.settings.bitrate, length, horizon - begun)
  {
    forall k | 0 <= k < |t.streams|
      ensures FitsStream(t.streams[k], t.settings, length, begun, horizon)
      ensures Paced(t.streams[k], t.settings.bitrate, length, begun, horizon)
    {
      assert UnusedStream(t.streams[k]);
      assert Fitting([], 0, 0, t.settings.bitrate, Grain(t.settings, length), length, 0, horizon - begun);
      assert Fitting([], 0, 0, t.settings.bitrate, Grain(t.settings, length), 1, 0, horizon - begun);
      UnusedIsPaced(t.streams[k], t.settings.bitrate, length, begun, horizon);
    }
    UnusedThreeLevels(t);
    PacedTest(t, length, begun, horizon);
  }

  lemma {:induction false} RunOnPace(t: TestView, es: seq<Event>, length: nat, begun: nat, horizon: nat)
    requires Fresh(t, begun) && begun <= horizon && !Inert(t.settings.bitrate)
    requires !InReach(t.settings, |t.streams|, length) && CodeRun(t, es, length, horizon)
    ensures OnPace(AfterAll(t, es), PlaceAfter(t, es), length, begun, horizon)
  {
    hide InReach, After, Fits, NextPlace, AllFit;
    FreshFits(t, length, begun, horizon);
    if es != [] {
      var init, e := es[..|es| - 1], es[|es| - 1];
      CodeRunKeeps(t, init, length, horizon);
      RunOnPace(t, init, length, begun, horizon);
      RunKeepsThreeLevels(t, init);
      if LimitHit(t.settings, AfterAll(t, es).data) && e.a.checked <= begun + t.settings.time {
        CodeRunUntil(t, es, length, horizon, begun + t.settings.time);
        FreshFits(t, length, begun, begun + t.settings.time);
        RunFits(t, es, length, begun);
      }
      PaceGoesOn(AfterAll(t, init), PlaceAfter(t, init).late, e, length, begun, horizon);
    }
  }

  // ----- reaching a limit

  /** A write of `n` bytes at `now`, read and read again at the same moment. */
  function Tap(now: nat, n: nat): Attempt {
    Attempt(now, Wrote(n), Sample(now, now, 0), now)
  }

  /** What streams that are all treated alike have in common, in pieces of `grain` bytes: what they have
      sent, what is in the open interval, and when that began. */
  datatype Level = Level(total: nat, open: nat, at: nat)

  /** After a write of `n` pieces. */
  function Tapped(lv: Level, now: nat, n: nat): Level
  {
    if Since(now, lv.at) > ONE_SEC then Level(lv.total + n, 0, now) else Level(lv.total + n, lv.open + n, lv.at)
  }

  /** `single`: the stream has only ever written single pieces. */
  predicate IsAt(s: StreamView, lv: Level, grain: pos, single: bool)
  {
    && s.data.bytes == grain * lv.total && s.temp.bytes == grain * lv.open && s.curr == lv.at
    && (single ==> s.data.blks == lv.total)
  }

  lemma WriteMoves(s: StreamView, lv: Level, grain: pos, single: bool, now: nat, n: nat)
    requires IsAt(s, lv, grain, single) && lv.at <= now && (single ==> n == 1)
    ensures IsAt(Written(s, Tap(now, grain * n)), Tapped(lv, now, n), grain, single)
  {
    assert grain * (lv.total + n) == grain * lv.total + grain * n;
    assert grain * (lv.open + n) == grain * lv.open + grain * n;
  }

  /** A run within the test's time, whose clock stands at `now` or before. */
  ghost predicate Underway(t: TestView, es: seq<Event>, length: nat, horizon: nat, now: nat)
  {
    && CodeRun(t, es, length, horizon) && PlaceAfter(t, es).At? && !PlaceAfter(t, es).late
    && (es != [] ==> es[|es| - 1].Write? && es[|es| - 1].a.checked <= now) && now <= horizon
    && forall k :: 0 <= k < |AfterAll(t, es).streams| ==> AfterAll(t, es).streams[k].curr <= now
  }

  /** Stream `j` cannot be held back any more. */
  predicate Unheld(t: TestView, j: nat)
  {
    j < |t.streams| && (Inert(t.settings.bitrate) || (LimitHit(t.settings, t.data) && t.streams[j].temp.bytes == 0))
  }

  ghost predicate Flooding(t: TestView, es: seq<Event>, length: nat, horizon: nat, j: nat)
  {
    Underway(t, es, length, horizon, horizon) && Unheld(AfterAll(t, es), j)
  }

  /** After `i` attempts of a round the first `i` streams are at `to`, the others still at `from`. */
  ghost predicate InRound(t: TestView, es: seq<Event>, i: nat, from: Level, to: Level, grain: pos, single: bool)
  {
    var r := AfterAll(t, es);
    && i <= |r.streams| && !LimitHit(t.settings, r.data)
    && PlaceAfter(t, es) == At(if i < |r.streams| then i else 0, false)
    && (forall k :: 0 <= k < i ==> IsAt(r.streams[k], to, grain, single))
    && (forall k :: i <= k < |r.streams| ==> IsAt(r.streams[k], from, grain, single))
  }

  /** What the lemmas below ask of the test, its time and the largest write, which is `n` pieces. */
  ghost predicate Tappable(t: TestView, n: nat, grain: pos, single: bool, length: nat, horizon: nat)
  {
    && t.streams != [] && !Inert(t.settings.bitrate) && horizon <= t.start + t.settings.time
    && length >= 1 && grain == Grain(t.settings, length)
    && 1 <= n && grain * n <= length && (single || t.settings.conn.UDP? ==> n == 1)
  }

  lemma FewerPieces(t: TestView, unit: nat, n: nat, grain: pos, single: bool, length: nat, horizon: nat)
    requires Tappable(t, unit, grain, single, length, horizon) && 1 <= n <= unit
    ensures Tappable(t, n, grain, single, length, horizon)
  {
    Stretch(grain, n, unit);
  }

  /** The pacer allows a write at this level. */
  lemma LevelAllows(s: StreamView, lv: Level, bitrate: nat, grain: pos, single: bool, now: nat)
    requires IsAt(s, lv, grain, single) && !Inert(bitrate) && lv.at <= now
    requires lv.open <= Pieces(bitrate, grain, now - lv.at)
    ensures Allowed(bitrate, s, now)
  {
    hide Pieces, Cap, Allowed;
    PiecesIff(bitrate, grain, now - lv.at, lv.open);
    AllowedIff(bitrate, s, now);
  }

  /** One allowed attempt within the time either reaches a limit or takes its stream on. */
  lemma TapGoesOn(t: TestView, es: seq<Event>, i: nat, from: Level, now: nat, n: nat, grain: pos, single: bool,
                  length: nat, horizon: nat)
    requires Underway(t, es, length, horizon, now) && Tappable(t, n, grain, single, length, horizon)
    requires InRound(t, es, i, from, Tapped(from, now, n), grain, single) && i < |AfterAll(t, es).streams|
    requires from.at <= now && from.open <= Pieces(t.settings.bitrate, grain, now - from.at)
    ensures var more := es + [Write(i, Tap(now, grain * n))];
            && Underway(t, more, length, horizon, now)
            && (Flooding(t, more, length, horizon, i)
                || InRound(t, more, i + 1, from, Tapped(from, now, n), grain, single))
  {
    hide Pieces, Cap, Allowed, AfterAll, PlaceAfter, CodeRun, IsAt, Tapped;
    var before, e := AfterAll(t, es), Write(i, Tap(now, grain * n));
    CodeRunKeeps(t, es, length, horizon);
    LevelAllows(before.streams[i], from, t.settings.bitrate, grain, single, now);
    WriteMoves(before.streams[i], from, grain, single, now, n);
    Stretch(grain, 1, n);
    assert Goes(t, es, e, length, horizon);
    OneMoreGoes(t, es, e, length, horizon);
    assert TurnOf(before, i, e.a).Sent?;
  }

  /** Between two rounds, with all streams at one level. */
  ghost predicate Levelled(t: TestView, es: seq<Event>, lv: Level, grain: pos, single: bool, now: nat, length: nat,
                           horizon: nat)
  {
    Underway(t, es, length, horizon, now) && InRound(t, es, 0, lv, lv, grain, single)
  }

  lemma RoundGoesOn(t: TestView, es: seq<Event>, lv: Level, now: nat, n: nat, grain: pos, single: bool,
                    length: nat, horizon: nat)
    returns (more: seq<Event>, j: nat)
    requires Levelled(t, es, lv, grain, single, now, length, horizon)
    requires Tappable(t, n, grain, single, length, horizon)
    requires lv.at <= now && lv.open <= Pieces(t.settings.bitrate, grain, now - lv.at)
    ensures || Flooding(t, more, length, horizon, j)
            || Levelled(t, more, Tapped(lv, now, n), grain, single, now, length, horizon)
  {
    hide Underway, Flooding, Pieces, AfterAll, PlaceAfter, Tapped, IsAt, Tappable;
    var i := 0;
    more, j := es, 0;
    SameStreams(t, es, length, horizon, now);
    while i < |t.streams|
      invariant i <= |t.streams| == |AfterAll(t, more).streams|
      invariant Underway(t, more, length, horizon, now)
      invariant InRound(t, more, i, lv, Tapped(lv, now, n), grain, single)
    {
      TapGoesOn(t, more, i, lv, now, n, grain, single, length, horizon);
      more := more + [Write(i, Tap(now, grain * n))];
      if Flooding(t, more, length, horizon, i) {
        j := i;
        return;
      }
      SameStreams(t, more, length, horizon, now);
      i := i + 1;
    }
  }

  lemma SameStreams(t: TestView, es: seq<Event>, length: nat, horizon: nat, now: nat)
    requires Underway(t, es, length, horizon, now)
    ensures |AfterAll(t, es).streams| == |t.streams|
  {
    CodeRunKeeps(t, es, length, horizon);
  }

  lemma Later(t: TestView, es: seq<Event>, lv: Level, grain: pos, single: bool, now: nat, then_: nat, length: nat,
              horizon: nat)
    requires Levelled(t, es, lv, grain, single, now, length, horizon) && now <= then_ <= horizon
    ensures Levelled(t, es, lv, grain, single, then_, length, horizon)
  {
  }

  /** Fresh intervals can be filled up to `x` pieces at one moment, one at a time while that
      is as far as the pacer goes, and with one last write beyond it. */
  lemma FillGoesOn(t: TestView, es: seq<Event>, lv: Level, x: nat, was: nat, now: nat, unit: nat, grain: pos,
                   single: bool, length: nat, horizon: nat)
    returns (more: seq<Event>, j: nat)
    requires Levelled(t, es, lv, grain, single, was, length, horizon)
    requires Tappable(t, unit, grain, single, length, horizon)
    requires lv.open == 0 && lv.at <= was <= now <= horizon && now - lv.at <= ONE_SEC
    requires x <= Pieces(t.settings.bitrate, grain, now - lv.at) + unit
    ensures || Flooding(t, more, length, horizon, j)
            || Levelled(t, more, Level(lv.total + x, x, lv.at), grain, single, now, length, horizon)
  {
    hide Levelled, Flooding, Pieces, Tappable;
    var most := Pieces(t.settings.bitrate, grain, now - lv.at);
    var b := 0;
    Later(t, es, lv, grain, single, was, now, length, horizon);
    more, j := es, 0;
    while b < x
      invariant b <= x && (b <= most || b == x)
      invariant Levelled(t, more, Level(lv.total + b, b, lv.at), grain, single, now, length, horizon)
    {
      var n := if b < most then 1 else x - b;
      AtLeastOne(t, unit, grain, single, length, horizon);
      FewerPieces(t, unit, n, grain, single, length, horizon);
      more, j := RoundGoesOn(t, more, Level(lv.total + b, b, lv.at), now, n, grain, single, length, horizon);
      if Flooding(t, more, length, horizon, j) {
        return;
      }
      b := b + n;
    }
  }

  lemma AtLeastOne(t: TestView, unit: nat, grain: pos, single: bool, length: nat, horizon: nat)
    requires Tappable(t, unit, grain, single, length, horizon)
    ensures unit >= 1
  {
  }

  /** One interval of `d` nanoseconds: filled a second after its start, and closed at its end. */
  lemma IntervalGoesOn(t: TestView, es: seq<Event>, lv: Level, d: nat, unit: nat, grain: pos, single: bool,
                       length: nat, horizon: nat)
    returns (more: seq<Event>, j: nat)
    requires Levelled(t, es, lv, grain, single, lv.at, length, horizon)
    requires Tappable(t, unit, grain, single, length, horizon)
    requires lv.open == 0 && d > ONE_SEC && lv.at + d <= horizon
    ensures var total := lv.total + Gain(t.settings.bitrate, grain, unit, d);
            || Flooding(t, more, length, horizon, j)
            || Levelled(t, more, Level(total, 0, lv.at + d), grain, single, lv.at + d, length, horizon)
  {
    hide Levelled, Flooding, Pieces, Tappable;
    var x := Min(Pieces(t.settings.bitrate, grain, d), Open(t.settings.bitrate, grain, unit, ONE_SEC));
    var full := Level(lv.total + x, x, lv.at);
    more, j := FillGoesOn(t, es, lv, x, lv.at, lv.at + ONE_SEC, unit, grain, single, length, horizon);
    if !Flooding(t, more, length, horizon, j) {
      Later(t, more, full, grain, single, lv.at + ONE_SEC, lv.at + d, length, horizon);
      more, j := RoundGoesOn(t, more, full, lv.at + d, unit, grain, single, length, horizon);
    }
  }

  lemma FreshIsLevelled(t: TestView, begun: nat, grain: pos, single: bool, length: nat, horizon: nat)
    requires Fresh(t, begun) && begun <= horizon
    ensures Levelled(t, [], Level(0, 0, begun), grain, single, begun, length, horizon)
  {
    assert forall k :: 0 <= k < |t.streams| ==> UnusedStream(t.streams[k]);
  }

  /** The level of the streams after intervals `ds`. */
  function LevelAfter(t: TestView, ds: seq<nat>, begun: nat, grain: pos, unit: nat): Level
  {
    Level(Pushed(t.settings.bitrate, grain, unit, ds), 0, begun + Span(ds))
  }

  lemma {:induction false} IntervalsGoOn(t: TestView, ds: seq<nat>, begun: nat, unit: nat, grain: pos, single: bool,
                                         length: nat, horizon: nat)
    returns (es: seq<Event>, j: nat)
    requires Fresh(t, begun) && Tappable(t, unit, grain, single, length, horizon)
    requires Intervals(ds) && begun + Span(ds) <= horizon
    ensures || Flooding(t, es, length, horizon, j)
            || Levelled(t, es, LevelAfter(t, ds, begun, grain, unit), grain, single, begun + Span(ds), length, horizon)
  {
    hide Flooding, Gain, Levelled, Fresh, Tappable;
    if ds == [] {
      es, j := [], 0;
      FreshIsLevelled(t, begun, grain, single, length, horizon);
    } else {
      var init, d := ds[..|ds| - 1], ds[|ds| - 1];
      es, j := IntervalsGoOn(t, init, begun, unit, grain, single, length, horizon);
      if !Flooding(t, es, length, horizon, j) {
        es, j := IntervalGoesOn(t, es, LevelAfter(t, init, begun, grain, unit), d, unit, grain, single,
                                length, horizon);
      }
    }
  }

  lemma {:induction false} LevelSums(streams: seq<StreamView>, lv: Level, grain: pos, single: bool)
    requires forall k :: 0 <= k < |streams| ==> IsAt(streams[k], lv, grain, single)
    ensures SumStreams(streams).bytes == |streams| * (grain * lv.total)
    ensures single ==> SumStreams(streams).blks == |streams| * lv.total
  {
    if streams != [] {
      var n := |streams| - 1;
      LevelSums(streams[..n], lv, grain, single);
      OneMoreShare(n, grain * lv.total);
      OneMoreShare(n, lv.total);
    }
  }

  /** What the test has sent if each of its streams has sent `total` pieces, none of which has reached a limit. */
  ghost predicate Totals(t: TestView, data: StreamData, total: nat, grain: pos, single: bool)
  {
    && !LimitHit(t.settings, data) && data.bytes == |t.streams| * (grain * total)
    && (single ==> data.blks == |t.streams| * total)
  }

  lemma LevelTotals(t: TestView, es: seq<Event>, lv: Level, grain: pos, single: bool, now: nat, length: nat,
                    horizon: nat)
    requires Unused(t) && Levelled(t, es, lv, grain, single, now, length, horizon)
    ensures Totals(t, AfterAll(t, es).data, lv.total, grain, single)
  {
    hide IsAt;
    CodeRunKeeps(t, es, length, horizon);
    RunKeepsThreeLevels(t, es);
    LevelSums(AfterAll(t, es).streams, lv, grain, single);
  }

  /** All streams have sent what intervals `ds` and the open one have room for,
      unless a limit has been reached before. */
  lemma RoomIsFilled(t: TestView, ds: seq<nat>, begun: nat, unit: nat, grain: pos, single: bool, length: nat, time: nat)
    returns (es: seq<Event>, j: nat)
    requires Fresh(t, begun) && Tappable(t, unit, grain, single, length, begun + time)
    requires Intervals(ds) && Span(ds) <= time
    ensures || Flooding(t, es, length, begun + time, j)
            || Totals(t, AfterAll(t, es).data, Room(t.settings.bitrate, grain, unit, ds, time), grain, single)
  {
    hide Flooding, Levelled, Intervals, Pieces, Tappable, Totals;
    var horizon, at := begun + time, begun + Span(ds);
    var lv := LevelAfter(t, ds, begun, grain, unit);
    var left := Min(time - Span(ds), ONE_SEC);
    var x := Open(t.settings.bitrate, grain, unit, time - Span(ds));
    es, j := IntervalsGoOn(t, ds, begun, unit, grain, single, length, horizon);
    if !Flooding(t, es, length, horizon, j) {
      es, j := FillGoesOn(t, es, lv, x, at, at + left, unit, grain, single, length, horizon);
      if !Flooding(t, es, length, horizon, j) {
        LevelTotals(t, es, Level(lv.total + x, x, at), grain, single, at + left, length, horizon);
      }
    }
  }

  /** A limit in reach is reached within the test's time by some run. */
  lemma LimitIsReached(t: TestView, length: nat, begun: nat) returns (es: seq<Event>, j: nat)
    requires Fresh(t, begun) && !Inert(t.settings.bitrate) && t.streams != [] && length >= 1
    requires InReach(t.settings, |t.streams|, length)
    ensures Flooding(t, es, length, begun + t.settings.time, j)
  {
    hide Flooding, Room, Intervals, Fresh;
    var st, n, grain := t.settings, |t.streams|, Grain(t.settings, length);
    if st.bytes != 0 && InTime(st.bitrate, grain, Unit(st, length), st.time, n, st.bytes) {
      var unit := Unit(st, length);
      var ds: seq<nat> :| Intervals(ds) && Span(ds) <= st.time
                          && st.bytes <= n * (grain * Room(st.bitrate, grain, unit, ds, st.time));
      IsTappable(t, unit, false, length, begun);
      es, j := RoomIsFilled(t, ds, begun, unit, grain, false, length, st.time);
    } else {
      var ds: seq<nat> :| Intervals(ds) && Span(ds) <= st.time
                          && grain * st.blks <= n * (grain * Room(st.bitrate, grain, 1, ds, st.time));
      IsTappable(t, 1, true, length, begun);
      Reduce(grain, st.blks, n, Room(st.bitrate, grain, 1, ds, st.time));
      es, j := RoomIsFilled(t, ds, begun, 1, grain, true, length, st.time);
    }
  }

  lemma IsTappable(t: TestView, unit: nat, single: bool, length: nat, begun: nat)
    requires Fresh(t, begun) && !Inert(t.settings.bitrate) && t.streams != [] && length >= 1
    requires unit == Unit(t.settings, length) || unit == 1
    requires single ==> unit == 1
    ensures Tappable(t, unit, Grain(t.settings, length), single, length, begun + t.settings.time)
  {
  }

  lemma Reduce(grain: pos, blks: nat, n: nat, room: nat)
    requires grain * blks <= n * (grain * room)
    ensures blks <= n * room
  {
    assert n * (grain * room) == grain * (n * room);
    if blks > n * room {
      Stretch(grain, n * room + 1, blks);
    }
  }

  // ----- above the bound

  /** From there on the loop can go round at one moment, and every attempt on stream `j` writes. */
  lemma FloodStep(t: TestView, es: seq<Event>, length: nat, horizon: nat, j: nat) returns (more: seq<Event>)
    requires Flooding(t, es, length, horizon, j) && length >= 1 && horizon <= t.start + t.settings.time
    requires PlaceAfter(t, es).i < |AfterAll(t, es).streams|
    ensures Flooding(t, more, length, horizon, j)
    ensures var i, n := PlaceAfter(t, es).i, |AfterAll(t, es).streams|;
            && |AfterAll(t, more).streams| == n && PlaceAfter(t, more).i == (if i + 1 < n then i + 1 else 0)
            && AfterAll(t, more).streams[j].data.bytes
               == AfterAll(t, es).streams[j].data.bytes + (if i == j then Grain(t.settings, length) else 0)
  {
    hide Allowed, AfterAll, PlaceAfter, CodeRun;
    var before, i := AfterAll(t, es), PlaceAfter(t, es).i;
    var e := Write(i, Tap(horizon, Grain(t.settings, length)));
    CodeRunKeeps(t, es, length, horizon);
    assert Goes(t, es, e, length, horizon);
    OneMoreGoes(t, es, e, length, horizon);
    UnheldIsAllowed(t.settings.bitrate, before.streams[j], horizon);
    more := es + [e];
  }

  lemma FloodGoesOn(t: TestView, es: seq<Event>, length: nat, horizon: nat, j: nat, k: nat) returns (more: seq<Event>)
    requires Flooding(t, es, length, horizon, j) && length >= 1 && horizon <= t.start + t.settings.time
    requires PlaceAfter(t, es).i < |AfterAll(t, es).streams|
    ensures Flooding(t, more, length, horizon, j) && AfterAll(t, more).streams[j].data.bytes >= k
  {
    hide AfterAll, PlaceAfter, CodeRun;
    more := es;
    while AfterAll(t, more).streams[j].data.bytes < k
      invariant Flooding(t, more, length, horizon, j) && PlaceAfter(t, more).At?
      invariant PlaceAfter(t, more).i < |AfterAll(t, more).streams|
      decreases k - AfterAll(t, more).streams[j].data.bytes,
                if PlaceAfter(t, more).i <= j then j - PlaceAfter(t, more).i
                else |AfterAll(t, more).streams| - PlaceAfter(t, more).i + j
    {
      more := FloodStep(t, more, length, horizon, j);
    }
  }

  lemma PlaceIsStream(t: TestView, es: seq<Event>, length: nat, horizon: nat)
    requires CodeRun(t, es, length, horizon) && PlaceAfter(t, es).At? && t.streams != []
    ensures PlaceAfter(t, es).i < |AfterAll(t, es).streams|
  {
    CodeRunKeeps(t, es, length, horizon);
  }

  /** Whatever the send loop does from `start` at `begun`, at any time until `elapsed` later
      every stream has kept its pace. */
  ghost predicate Holds(t: TestView, es: seq<Event>, length: nat, begun: nat, elapsed: nat)
  {
    CodeRun(StartAll(t, begun), es, length, begun + elapsed)
    ==> KeepsPace(AfterAll(StartAll(t, begun), es), t.settings.bitrate, length, elapsed)
  }

  lemma StartIsFresh(t: TestView, begun: nat)
    requires Unused(t)
    ensures Fresh(StartAll(t, begun), begun)
  {
    assert forall k :: 0 <= k < |t.streams| ==> UnusedStream(t.streams[k]);
  }

  lemma AboveTooMany(k: nat, bitrate: nat, length: nat, elapsed: nat)
    requires k >= TooMany(bitrate, length, elapsed)
    ensures !WithinPace(k, bitrate, length, elapsed)
  {
    hide TooMany;
    assert !WithinPace(TooMany(bitrate, length, elapsed), bitrate, length, elapsed);
  }

  /** With an inert pacer, or a limit in reach, the send loop has a run within the test's time that does not
      keep its pace: once the limit is reached every write pushes its interval, and the pacer never holds the
      stream back again. */
  lemma FloodBreaksPace(t: TestView, length: nat, begun: nat) returns (es: seq<Event>, elapsed: nat)
    requires Unused(t) && t.streams != [] && length >= 1
    requires Inert(t.settings.bitrate) || InReach(t.settings, |t.streams|, length)
    ensures elapsed <= t.settings.time && !Holds(t, es, length, begun, elapsed)
  {
    hide InReach, TooMany, WithinPace, AfterAll, PlaceAfter;
    var started, time := StartAll(t, begun), t.settings.time;
    var j;
    elapsed := time;
    StartIsFresh(t, begun);
    if Inert(t.settings.bitrate) {
      es, j := [], 0;
      NothingWritten(started);
    } else {
      es, j := LimitIsReached(started, length, begun);
    }
    PlaceIsStream(started, es, length, begun + time);
    es := FloodGoesOn(started, es, length, begun + time, j, TooMany(t.settings.bitrate, length, time));
    AboveTooMany(AfterAll(started, es).streams[j].data.bytes, t.settings.bitrate, length, time);
  }

  lemma NothingWritten(t: TestView)
    ensures AfterAll(t, []) == t && PlaceAfter(t, []) == At(0, false)
  {
  }

  /** Nothing can be written without a stream or without a block to write. */
  lemma {:induction false} NothingToWrite(t: TestView, es: seq<Event>, length: nat, horizon: nat)
    requires CodeRun(t, es, length, horizon) && (t.streams == [] || length == 0)
    ensures AfterAll(t, es) == t
  {
    if es != [] {
      NothingToWrite(t, es[..|es| - 1], length, horizon);
    }
  }

  lemma IdleHolds(t: TestView, es: seq<Event>, length: nat, begun: nat, elapsed: nat)
    requires Unused(t) && (t.streams == [] || length == 0)
    ensures Holds(t, es, length, begun, elapsed)
  {
    var started := StartAll(t, begun);
    if CodeRun(started, es, length, begun + elapsed) {
      NothingToWrite(started, es, length, begun + elapsed);
      StartIsFresh(t, begun);
      FreshFits(started, length, begun, begun + elapsed);
    }
  }

  lemma OutOfReachHolds(t: TestView, es: seq<Event>, length: nat, begun: nat, elapsed: nat)
    requires Unused(t) && !Inert(t.settings.bitrate) && !InReach(t.settings, |t.streams|, length)
    ensures Holds(t, es, length, begun, elapsed)
  {
    hide InReach, WithinPace;
    var started := StartAll(t, begun);
    if CodeRun(started, es, length, begun + elapsed) {
      StartIsFresh(t, begun);
      CodeRunKeeps(started, es, length, begun + elapsed);
      RunOnPace(started, es, length, begun, begun + elapsed);
    }
  }

  /** The bound is a promise about every run of the send loop exactly when the pacer acts
      and no limit is in reach of the test's time (or there is nothing to write at all). */
  lemma PacingBoundIff(t: TestView, length: nat, begun: nat)
    requires Unused(t)
    ensures (forall es, elapsed :: Holds(t, es, length, begun, elapsed))
            <==> || t.streams == [] || length == 0
                 || (!Inert(t.settings.bitrate) && !InReach(t.settings, |t.streams|, length))
  {
    hide Holds, InReach;
    if t.streams == [] || length == 0 {
      forall es, elapsed
        ensures Holds(t, es, length, begun, elapsed)
      {
        IdleHolds(t, es, length, begun, elapsed);
      }
    } else if !Inert(t.settings.bitrate) && !InReach(t.settings, |t.streams|, length) {
      forall es, elapsed
        ensures Holds(t, es, length, begun, elapsed)
      {
        OutOfReachHolds(t, es, length, begun, elapsed);
      }
    } else {
      var es, elapsed := FloodBreaksPace(t, length, begun);
    }
  }

  // ----- what is in reach, roughly

  lemma PiecesAreBounded(bitrate: nat, grain: pos, t: nat)
    ensures 8 * ONE_SEC * (grain * Pieces(bitrate, grain, t)) <= (bitrate + 1) * t
  {
    hide Pieces;
    PiecesIff(bitrate, grain, t, Pieces(bitrate, grain, t));
    Stretch(bitrate + 1, 0, t);
  }

  lemma OpenIsBounded(bitrate: nat, grain: pos, unit: nat, t: nat)
    ensures 8 * ONE_SEC * (grain * Open(bitrate, grain, unit, t)) <= (bitrate + 1) * t + 8 * ONE_SEC * (grain * unit)
  {
    hide Pieces;
    var held := Pieces(bitrate, grain, Min(t, ONE_SEC));
    PiecesAreBounded(bitrate, grain, Min(t, ONE_SEC));
    Stretch(bitrate + 1, Min(t, ONE_SEC), t);
    assert grain * (held + unit) == grain * held + grain * unit;
  }

  lemma GainIsBounded(bitrate: nat, grain: pos, unit: nat, d: nat)
    ensures 8 * ONE_SEC * (grain * Gain(bitrate, grain, unit, d)) <= (bitrate + 1) * d + 8 * ONE_SEC * (grain * unit)
  {
    hide Pieces, Open;
    var held := Min(Pieces(bitrate, grain, d), Open(bitrate, grain, unit, ONE_SEC));
    PiecesAreBounded(bitrate, grain, d);
    Stretch(grain, held, Pieces(bitrate, grain, d));
    assert grain * (held + unit) == grain * held + grain * unit;
  }

  /** The intervals of a second and more that fit into a time, and the rate over it, bound what it has room for. */
  lemma {:induction false} PushedIsBounded(bitrate: nat, grain: pos, unit: nat, ds: seq<nat>)
    requires Intervals(ds)
    ensures |ds| * ONE_SEC <= Span(ds)
    ensures 8 * ONE_SEC * (grain * Pushed(bitrate, grain, unit, ds))
            <= (bitrate + 1) * Span(ds) + 8 * ONE_SEC * (grain * unit) * |ds|
  {
    hide Gain;
    if ds != [] {
      var init, d := ds[..|ds| - 1], ds[|ds| - 1];
      var pushed, gain := Pushed(bitrate, grain, unit, init), Gain(bitrate, grain, unit, d);
      PushedIsBounded(bitrate, grain, unit, init);
      GainIsBounded(bitrate, grain, unit, d);
      Joined(bitrate + 1, 8 * ONE_SEC * (grain * unit), |init|, Span(init), d, Span(ds),
             8 * ONE_SEC * (grain * pushed), 8 * ONE_SEC * (grain * gain));
      assert grain * (pushed + gain) == grain * pushed + grain * gain;
    }
  }

  lemma RoomIsBounded(bitrate: nat, grain: pos, unit: nat, ds: seq<nat>, time: nat)
    requires Intervals(ds) && Span(ds) <= time
    ensures WithinPace(grain * Room(bitrate, grain, unit, ds, time), bitrate, grain * unit, time)
  {
    hide Pushed, Open, Span, Intervals;
    var left := time - Span(ds);
    var pushed, open := Pushed(bitrate, grain, unit, ds), Open(bitrate, grain, unit, left);
    PushedIsBounded(bitrate, grain, unit, ds);
    OpenIsBounded(bitrate, grain, unit, left);
    Joined(bitrate + 1, 8 * ONE_SEC * (grain * unit), |ds|, Span(ds), left, time,
           8 * ONE_SEC * (grain * pushed), 8 * ONE_SEC * (grain * open));
    assert grain * (pushed + open) == grain * pushed + grain * open;
    Regroup(grain * unit, |ds| + 1);
    Stretch(8 * (grain * unit), (|ds| + 1) * ONE_SEC, time + ONE_SEC);
  }

  lemma Scaled(n: nat, limit: nat, room: nat, most: nat)
    requires limit <= n * room && 8 * ONE_SEC * room <= most
    ensures 8 * ONE_SEC * limit <= n * most
  {
    Stretch(n, 8 * ONE_SEC * room, most);
    assert n * (8 * ONE_SEC * room) == 8 * ONE_SEC * (n * room);
  }

  /** A limit in reach is within what the bound itself lets `n` streams send; one beyond that is out of reach. */
  lemma ReachIsBounded(bitrate: nat, grain: pos, unit: nat, time: nat, n: nat, limit: nat)
    requires InTime(bitrate, grain, unit, time, n, limit)
    ensures 8 * ONE_SEC * limit <= n * ((bitrate + 1) * time + 8 * (grain * unit) * (time + ONE_SEC))
  {
    hide Room, Intervals;
    var ds: seq<nat> :| Intervals(ds) && Span(ds) <= time
                        && limit <= n * (grain * Room(bitrate, grain, unit, ds, time));
    RoomIsBounded(bitrate, grain, unit, ds, time);
    Scaled(n, limit, grain * Room(bitrate, grain, unit, ds, time),
           (bitrate + 1) * time + 8 * (grain * unit) * (time + ONE_SEC));
  }

  function Even(k: nat): (ds: seq<nat>)
    ensures |ds| == k && Intervals(ds)
  {
    if k == 0 then [] else Even(k - 1) + [ONE_SEC + 1]
  }

  lemma ShortestGain(bitrate: nat, grain: pos, unit: nat)
    ensures Gain(bitrate, grain, unit, ONE_SEC + 1) >= Pieces(bitrate, grain, ONE_SEC) + unit
  {
    hide Pieces;
    PiecesGrow(bitrate, grain, ONE_SEC, ONE_SEC + 1);
  }

  lemma {:induction false} EvenSpan(k: nat)
    ensures Span(Even(k)) == k * (ONE_SEC + 1)
  {
    if k > 0 {
      EvenSpan(k - 1);
      assert Even(k)[..k - 1] == Even(k - 1);
    }
  }

  lemma {:induction false} EvenPushed(bitrate: nat, grain: pos, unit: nat, k: nat, gain: nat)
    requires gain <= Gain(bitrate, grain, unit, ONE_SEC + 1)
    ensures Pushed(bitrate, grain, unit, Even(k)) >= k * gain
  {
    hide Gain;
    if k > 0 {
      EvenPushed(bitrate, grain, unit, k - 1, gain);
      assert Even(k)[..k - 1] == Even(k - 1);
      OneMoreShare(k - 1, gain);
    }
  }

  /** A limit is in reach if `k` intervals of just over a second have room for it. */
  lemma ReachIsAtLeast(bitrate: nat, grain: pos, unit: nat, time: nat, n: nat, limit: nat, k: nat)
    requires k * (ONE_SEC + 1) <= time
    requires limit <= n * (grain * (k * (Pieces(bitrate, grain, ONE_SEC) + unit)))
    ensures InTime(bitrate, grain, unit, time, n, limit)
  {
    hide Pushed, Open, Pieces, Gain;
    var pushed := k * (Pieces(bitrate, grain, ONE_SEC) + unit);
    EvenSpan(k);
    ShortestGain(bitrate, grain, unit);
    EvenPushed(bitrate, grain, unit, k, Pieces(bitrate, grain, ONE_SEC) + unit);
    Stretch(grain, pushed, Room(bitrate, grain, unit, Even(k), time));
    Stretch(n, grain * pushed, grain * Room(bitrate, grain, unit, Even(k), time));
  }

  /** No limit is set that the bound itself would let `n` streams reach. */
  predicate FarOff(st: Settings, n: nat, length: nat)
  {
    var grain := Grain(st, length);
    && (st.bytes != 0 ==>
          n * ((st.bitrate + 1) * st.time + 8 * length * (st.time + ONE_SEC)) < 8 * ONE_SEC * st.bytes)
    && (st.blks != 0 ==>
          n * ((st.bitrate + 1) * st.time + 8 * grain * (st.time + ONE_SEC)) < 8 * ONE_SEC * (grain * st.blks))
  }

  lemma FarOffIsOutOfReach(st: Settings, n: nat, length: nat)
    requires length >= 1 && FarOff(st, n, length)
    ensures !InReach(st, n, length)
  {
    hide InTime;
    var grain, unit := Grain(st, length), Unit(st, length);
    assert grain * unit == length && grain * 1 == grain;
    if st.bytes != 0 && InTime(st.bitrate, grain, unit, st.time, n, st.bytes) {
      ReachIsBounded(st.bitrate, grain, unit, st.time, n, st.bytes);
    }
    if st.blks != 0 && InTime(st.bitrate, grain, 1, st.time, n, grain * st.blks) {
      ReachIsBounded(st.bitrate, grain, 1, st.time, n, grain * st.blks);
    }
  }

  /** So a test whose limits are far off keeps its pace. */
  lemma FarOffHolds(t: TestView, es: seq<Event>, length: nat, begun: nat, elapsed: nat)
    requires Unused(t) && !Inert(t.settings.bitrate) && FarOff(t.settings, |t.streams|, length)
    ensures Holds(t, es, length, begun, elapsed)
  {
    hide Holds, InReach, FarOff;
    if t.streams == [] || length == 0 {
      IdleHolds(t, es, length, begun, elapsed);
    } else {
      FarOffIsOutOfReach(t.settings, |t.streams|, length);
      OutOfReachHolds(t, es, length, begun, elapsed);
    }
  }
}
