/** Per-stream measurement (`StreamData`, `IntervalStats`, `PerfStream` in src/test.rs), as values.
    Times are nanoseconds. Subtractions wrap as in a release build. */
module Stats {
  const ONE_SEC: nat := 1_000_000_000
  const U32: nat := 0x1_0000_0000
  const U64: nat := 0x1_0000_0000_0000_0000

  datatype Conn = TCP | UDP | QUIC | TLS
  {
    /** The kernel keeps TCP_INFO, hence a retransmit counter, for these. */
    predicate HasTcpInfo() {
      TCP? || TLS?
    }
  }

  datatype StreamData = StreamData(bytes: nat, blks: nat, lost: nat, retr: nat)
  {
    /** One successful read or write of `n` bytes. */
    function Counted(n: nat): StreamData {
      this.(bytes := bytes + n, blks := blks + 1)
    }

    function Plus(d: StreamData): StreamData {
      StreamData(bytes + d.bytes, blks + d.blks, lost + d.lost, retr + d.retr)
    }
  }

  const ZERO := StreamData(0, 0, 0, 0)

  datatype Interval = Interval(iter: nat, start: nat, end: nat, data: StreamData)

  /** What `push_stat` reads from outside: the clock twice and the kernel's retransmit total. */
  datatype Sample = Sample(now: nat, later: nat, retrans: nat)

  /** What `Test::end` reads for one stream. */
  datatype Closing = Closing(sample: Sample, end: nat, retrans: nat)

  /** A `PerfStream`. `created` is its `timers.start` and `curr` the start of the open interval. */
  datatype StreamView = StreamView(
    conn: Conn, created: nat, curr: nat, end: nat, elapsed: nat, data: StreamData,
    first: nat, last: nat, stats: seq<Interval>, iter: nat, temp: StreamData)

  /** `Instant` differences saturate at zero. */
  function Since(now: nat, then_: nat): nat
  {
    if now >= then_ then now - then_ else 0
  }

  function NewStream(conn: Conn, now: nat): StreamView
  {
    StreamView(conn, now, now, now, 0, ZERO, 0, 0, [], 0, ZERO)
  }

  function Count(s: StreamView, n: nat): StreamView
  {
    s.(data := s.data.Counted(n), temp := s.temp.Counted(n))
  }

  /** `last - first - blks` on `u64`. */
  function LostBetween(first: nat, last: nat, blks: nat): (lost: nat)
  {
    (last - first - blks) % U64
  }

  function Push(s: StreamView, sample: Sample): StreamView
  {
    var lost := if s.conn.UDP? then LostBetween(s.first, s.last, s.temp.blks) else 0;
    var retr := if s.conn.HasTcpInfo() then (sample.retrans - s.temp.retr) % U32 else 0;
    s.(stats := s.stats + [Interval(s.iter, s.curr, sample.now, StreamData(s.temp.bytes, s.temp.blks, lost, retr))],
       iter := s.iter + 1,
       curr := sample.later,
       first := if s.conn.UDP? then s.last else s.first,
       temp := s.temp.(bytes := 0, blks := 0, retr := if s.conn.HasTcpInfo() then sample.retrans else s.temp.retr))
  }

  /** The first loop of `Test::end`: flush the open interval and stop the stream's clock. */
  function Flush(s: StreamView, c: Closing): StreamView
  {
    var flushed := if s.temp.bytes > 0 then Push(s, c.sample) else s;
    flushed.(end := c.end, elapsed := Since(c.end, s.created))
  }

  /** The second loop of `Test::end`, which goes by the test's connection type. */
  function Settle(s: StreamView, conn: Conn, c: Closing): StreamView
  {
    if conn.UDP? then s.(data := s.data.(lost := SumStats(s.stats).lost % U64))
    else if conn.HasTcpInfo() then s.(data := s.data.(retr := c.retrans))
    else s
  }

  function Close(s: StreamView, conn: Conn, c: Closing): StreamView
  {
    Settle(Flush(s, c), conn, c)
  }

  /** A successful read: its size, the number in its first eight bytes, the clock
      reading that decides whether the interval is over, and the sample if it is. */
  datatype Receipt = Receipt(n: nat, number: nat, now: nat, sample: Sample)

  /** One turn of the server's receive loop on a stream. */
  function Receive(s: StreamView, r: Receipt): StreamView
  {
    var counted := Count(s, r.n).(last := r.number);
    if Since(r.now, s.curr) > ONE_SEC then Push(counted, r.sample) else counted
  }

  function ReceiveAll(s: StreamView, rs: seq<Receipt>): StreamView
  {
    if rs == [] then s else Receive(ReceiveAll(s, rs[..|rs| - 1]), rs[|rs| - 1])
  }

  function SumStats(stats: seq<Interval>): StreamData
  {
    if stats == [] then ZERO else SumStats(stats[..|stats| - 1]).Plus(stats[|stats| - 1].data)
  }

  lemma SumStatsAppend(stats: seq<Interval>, i: Interval)
    ensures SumStats(stats + [i]) == SumStats(stats).Plus(i.data)
  {
    assert (stats + [i])[..|stats|] == stats;
  }

  // ----- what every stream keeps

  /** The stream's totals are those of its closed intervals plus the open one. */
  ghost predicate Conserved(s: StreamView)
  {
    && s.data.bytes == SumStats(s.stats).bytes + s.temp.bytes
    && s.data.blks == SumStats(s.stats).blks + s.temp.blks
    && s.temp.blks <= s.temp.bytes
    && (s.temp.bytes > 0 ==> s.temp.blks > 0)
  }

  lemma CountConserves(s: StreamView, n: nat)
    requires Conserved(s) && n > 0
    ensures Conserved(Count(s, n)) && Count(s, n).temp.blks > 0
  {
  }

  lemma PushConserves(s: StreamView, sample: Sample)
    requires Conserved(s)
    ensures Conserved(Push(s, sample)) && Push(s, sample).temp.blks == 0
    ensures SumStats(Push(s, sample).stats) == SumStats(s.stats).Plus(Push(s, sample).stats[|s.stats|].data)
  {
    SumStatsAppend(s.stats, Push(s, sample).stats[|s.stats|]);
  }

  /** After `end` nothing is left in the open interval: the records alone add up to the totals. */
  lemma CloseConserves(s: StreamView, conn: Conn, c: Closing)
    requires Conserved(s)
    ensures var e := Close(s, conn, c);
            && Conserved(e) && e.temp.bytes == 0 && e.temp.blks == 0
            && e.data.bytes == s.data.bytes == SumStats(e.stats).bytes
            && e.data.blks == s.data.blks == SumStats(e.stats).blks
  {
    if s.temp.bytes > 0 {
      PushConserves(s, c.sample);
    }
  }

  /** The interval log: numbered in order, ordered in time without overlap,
      and no record without a block, so that a loss percentage is always defined. */
  ghost predicate LogOk(s: StreamView)
  {
    && s.iter == |s.stats|
    && (forall k :: 0 <= k < |s.stats| ==> RecordOk(s.stats[k], k) && s.stats[k].end <= s.curr)
    && (forall j, k :: 0 <= j < k < |s.stats| ==> s.stats[j].end <= s.stats[k].start)
  }

  predicate RecordOk(r: Interval, k: nat)
  {
    r.iter == k && r.start <= r.end && 1 <= r.data.blks <= r.data.bytes
  }

  /** Clock readings of one `push_stat`, taken from a monotone clock. */
  predicate Monotone(s: StreamView, sample: Sample)
  {
    s.curr <= sample.now <= sample.later
  }

  lemma PushKeepsLog(s: StreamView, sample: Sample)
    requires LogOk(s) && Conserved(s) && s.temp.blks > 0 && Monotone(s, sample)
    ensures LogOk(Push(s, sample))
  {
  }

  // ----- retransmits

  /** The closed intervals' retransmits add up to the last sampled kernel total. */
  ghost predicate RetransOk(s: StreamView)
  {
    && s.temp.retr < U32
    && SumStats(s.stats).retr == if s.conn in {TCP, TLS} then s.temp.retr else 0
  }

  /** The kernel counter has not gone down since it was last sampled. */
  predicate Risen(s: StreamView, retrans: nat)
  {
    s.temp.retr <= retrans < U32
  }

  lemma PushKeepsRetrans(s: StreamView, sample: Sample)
    requires RetransOk(s) && Risen(s, sample.retrans)
    ensures RetransOk(Push(s, sample))
    ensures s.conn in {TCP, TLS} ==> Push(s, sample).stats[|s.stats|].data.retr == sample.retrans - s.temp.retr
  {
    SumStatsAppend(s.stats, Push(s, sample).stats[|s.stats|]);
  }

  /** After `end` the stream's total covers everything its intervals reported. */
  lemma CloseCoversRetrans(s: StreamView, conn: Conn, c: Closing)
    requires RetransOk(s) && Risen(s, c.sample.retrans) && c.sample.retrans <= c.retrans < U32
    requires conn == s.conn && conn in {TCP, TLS}
    ensures var e := Close(s, conn, c);
            RetransOk(e) && SumStats(e.stats).retr == e.temp.retr <= e.data.retr == c.retrans
  {
    if s.temp.bytes > 0 {
      PushKeepsRetrans(s, c.sample);
    }
  }
}
