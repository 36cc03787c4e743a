/** UDP loss on the receiver: the telescoping subtraction in `push_stat` and the sum in
    `Test::end` (src/test.rs) against the set of datagram numbers that never arrived. */
module Loss {
  import opened Stats
  import opened Session

  function Numbers(rs: seq<Receipt>): (nums: seq<nat>)
    ensures |nums| == |rs|
  {
    if rs == [] then [] else Numbers(rs[..|rs| - 1]) + [rs[|rs| - 1].number]
  }

  function LastOr(first: nat, w: seq<nat>): nat
  {
    if w == [] then first else w[|w| - 1]
  }

  /** Reference meaning of loss: the numbers in (first, last] that are not in `w`. */
  ghost function Missing(first: nat, last: nat, w: seq<nat>): set<nat>
  {
    set x: nat | first < x <= last && x !in w
  }

  /** The numbers are pairwise different and lie in (first, last], `last` being the final one. */
  ghost predicate Exact(first: nat, w: seq<nat>)
  {
    && (forall i, j :: 0 <= i < j < |w| ==> w[i] != w[j])
    && (forall x :: x in w ==> first < x <= LastOr(first, w))
  }

  ghost predicate Rising(first: nat, w: seq<nat>)
  {
    && (forall i, j :: 0 <= i < j < |w| ==> w[i] < w[j])
    && (forall x :: x in w ==> first < x)
  }

  // ----- one interval

  ghost function Range(first: nat, last: nat): (r: set<nat>)
    ensures forall x :: x in r <==> first < x <= last
    ensures |r| == if first <= last then last - first else 0
    decreases last
  {
    if first < last then Range(first, last - 1) + {last} else {}
  }

  ghost function Members(w: seq<nat>): set<nat>
  {
    set x | x in w
  }

  lemma {:induction false} MembersSize(w: seq<nat>)
    ensures |Members(w)| <= |w|
    ensures |Members(w)| == |w| <==> forall i, j :: 0 <= i < j < |w| ==> w[i] != w[j]
  {
    if w == [] {
      assert Members(w) == {};
    } else {
      var init, x := w[..|w| - 1], w[|w| - 1];
      MembersSize(init);
      assert w == init + [x];
      assert Members(w) == Members(init) + {x};
      if x in init {
        var i :| 0 <= i < |init| && init[i] == x;
        assert w[i] == w[|w| - 1];
        assert Members(w) == Members(init);
      }
    }
  }

  lemma SubsetSize(a: set<nat>, b: set<nat>)
    requires a <= b
    ensures |a| <= |b| && (|a| == |b| <==> a == b)
  {
    assert b == a + (b - a);
  }

  lemma MissingSize(first: nat, last: nat, w: seq<nat>)
    ensures |Missing(first, last, w)| == |Range(first, last)| - |Range(first, last) * Members(w)|
  {
    var r, m := Range(first, last), Members(w);
    assert Missing(first, last, w) == r - m;
    assert r == (r - m) + (r * m);
  }

  lemma HitsAreAllIff(first: nat, w: seq<nat>)
    ensures var hits := Range(first, LastOr(first, w)) * Members(w);
            |hits| <= |w| && (|hits| == |w| <==> Exact(first, w))
  {
    var hits := Range(first, LastOr(first, w)) * Members(w);
    MembersSize(w);
    SubsetSize(hits, Members(w));
    if Exact(first, w) {
      assert hits == Members(w);
    } else if |hits| == |w| {
      assert forall x :: x in w ==> x in Members(w);
    }
  }

  /** The wrapped difference is `size - hits` only if every block is a hit. */
  lemma WrapsUnlessAllHit(first: nat, last: nat, blks: nat, size: nat, hits: nat)
    requires first + blks < U64 && last < U64 && hits <= blks && hits <= size
    requires size == if first <= last then last - first else 0
    requires last < first ==> blks > 0
    ensures LostBetween(first, last, blks) == size - hits <==> hits == blks
  {
    var d := last - first - blks;
    assert d % U64 == if d < 0 then d + U64 else d;
  }

  /** What `push_stat` reports for an interval is the number of datagrams missing from it
      exactly when those that arrived were all different and all numbered within it:
      reordering inside the interval is harmless as long as the highest arrives last,
      a duplicate or a straggler from an earlier interval is not. */
  lemma LostIsMissingIff(first: nat, w: seq<nat>)
    requires first + |w| < U64 && LastOr(first, w) < U64
    ensures LostBetween(first, LastOr(first, w), |w|) == |Missing(first, LastOr(first, w), w)| <==> Exact(first, w)
  {
    var last := LastOr(first, w);
    MissingSize(first, last, w);
    HitsAreAllIff(first, w);
    SubsetSize(Range(first, last) * Members(w), Range(first, last));
    WrapsUnlessAllHit(first, last, |w|, |Range(first, last)|, |Range(first, last) * Members(w)|);
  }

  // ----- a stream's whole life

  /** Record `k` covers the receipts that the blocks counted up to it and through it delimit. */
  ghost predicate WindowOk(stats: seq<Interval>, k: nat, nums: seq<nat>)
    requires k < |stats|
  {
    var lo, hi := SumStats(stats[..k]).blks, SumStats(stats[..k + 1]).blks;
    && lo <= hi <= |nums|
    && hi - lo == stats[k].data.blks
    && stats[k].data.lost == LostBetween(LastOr(0, nums[..lo]), LastOr(0, nums[..hi]), hi - lo)
  }

  ghost predicate Windows(s: StreamView, nums: seq<nat>)
  {
    && s.conn.UDP?
    && Conserved(s)
    && |nums| == s.data.blks
    && s.last == LastOr(0, nums)
    && s.first == LastOr(0, nums[..SumStats(s.stats).blks])
    && forall k :: 0 <= k < |s.stats| ==> WindowOk(s.stats, k, nums)
  }

  lemma CountKeepsWindows(s: StreamView, nums: seq<nat>, n: nat, number: nat)
    requires Windows(s, nums) && n > 0
    ensures Windows(Count(s, n).(last := number), nums + [number])
  {
    var more := nums + [number];
    var c := Count(s, n).(last := number);
    assert more[..SumStats(s.stats).blks] == nums[..SumStats(s.stats).blks];
    forall k | 0 <= k < |s.stats|
      ensures WindowOk(c.stats, k, more)
    {
      assert WindowOk(s.stats, k, nums);
      var hi := SumStats(s.stats[..k + 1]).blks;
      assert more[..hi] == nums[..hi];
      var lo := SumStats(s.stats[..k]).blks;
      assert more[..lo] == nums[..lo];
    }
  }

  lemma PushedWindow(s: StreamView, nums: seq<nat>, sample: Sample)
    requires Windows(s, nums)
    ensures WindowOk(Push(s, sample).stats, |s.stats|, nums)
  {
    var p, n := Push(s, sample), |s.stats|;
    PushConserves(s, sample);
    assert p.stats[..n] == s.stats && p.stats[..n + 1] == p.stats;
    assert nums[..|nums|] == nums;
  }

  lemma WindowOfPrefix(stats: seq<Interval>, i: Interval, k: nat, nums: seq<nat>)
    requires k < |stats| && WindowOk(stats, k, nums)
    ensures WindowOk(stats + [i], k, nums)
  {
    assert (stats + [i])[..k] == stats[..k] && (stats + [i])[..k + 1] == stats[..k + 1];
  }

  lemma PushKeepsWindows(s: StreamView, nums: seq<nat>, sample: Sample)
    requires Windows(s, nums)
    ensures Windows(Push(s, sample), nums)
  {
    var p, n := Push(s, sample), |s.stats|;
    PushConserves(s, sample);
    PushedWindow(s, nums, sample);
    assert nums[..|nums|] == nums;
    forall k | 0 <= k < n
      ensures WindowOk(p.stats, k, nums)
    {
      WindowOfPrefix(s.stats, p.stats[n], k, nums);
    }
  }

  lemma {:induction false} ReceivedWindows(s: StreamView, rs: seq<Receipt>)
    requires s.conn.UDP? && s.data == s.temp == ZERO && s.stats == [] && s.first == s.last == 0
    requires forall k :: 0 <= k < |rs| ==> rs[k].n > 0
    ensures Windows(ReceiveAll(s, rs), Numbers(rs))
  {
    if rs != [] {
      var init, r := rs[..|rs| - 1], rs[|rs| - 1];
      var before := ReceiveAll(s, init);
      ReceivedWindows(s, init);
      CountKeepsWindows(before, Numbers(init), r.n, r.number);
      PushKeepsWindows(Count(before, r.n).(last := r.number), Numbers(rs), r.sample);
    }
  }

  lemma CloseKeepsWindows(s: StreamView, nums: seq<nat>, c: Closing)
    requires Windows(s, nums)
    ensures Windows(Close(s, UDP, c), nums)
  {
    if s.temp.bytes > 0 {
      PushKeepsWindows(s, nums, c.sample);
    }
  }

  /** While numbers rise, `lost` never underflows and the sum of what the closed
      intervals lost telescopes to the start of the open one. */
  ghost predicate Tally(s: StreamView)
  {
    && s.conn.UDP?
    && s.first + s.temp.blks <= s.last < U64
    && (s.temp.blks == 0 ==> s.first == s.last)
    && SumStats(s.stats).lost + SumStats(s.stats).blks == s.first
  }

  lemma NewStreamTallies(now: nat)
    ensures Tally(NewStream(UDP, now))
  {
    assert SumStats(NewStream(UDP, now).stats) == ZERO;
  }

  lemma PushKeepsTally(s: StreamView, sample: Sample)
    requires Tally(s)
    ensures Tally(Push(s, sample))
    ensures Push(s, sample).stats[|s.stats|].data.lost == s.last - s.first - s.temp.blks
  {
    SumStatsAppend(s.stats, Push(s, sample).stats[|s.stats|]);
  }

  lemma ReceiveKeepsTally(s: StreamView, r: Receipt)
    requires Tally(s) && s.last < r.number < U64
    ensures Tally(Receive(s, r)) && Receive(s, r).last == r.number
  {
    var counted := Count(s, r.n).(last := r.number);
    assert Tally(counted);
    PushKeepsTally(counted, r.sample);
  }

  lemma CloseSettlesTally(s: StreamView, c: Closing)
    requires Tally(s) && Conserved(s)
    ensures var e := Close(s, UDP, c); Tally(e) && e.last == s.last && e.data.lost + e.data.blks == e.last
  {
    if s.temp.bytes > 0 {
      PushKeepsTally(s, c.sample);
      PushConserves(s, c.sample);
    }
  }

  lemma {:induction false} RisingTally(s: StreamView, rs: seq<Receipt>)
    requires Tally(s) && s.last == 0
    requires Rising(0, Numbers(rs)) && LastOr(0, Numbers(rs)) < U64
    ensures Tally(ReceiveAll(s, rs)) && ReceiveAll(s, rs).last == LastOr(0, Numbers(rs))
  {
    if rs != [] {
      var init, nums := rs[..|rs| - 1], Numbers(rs);
      assert nums[..|init|] == Numbers(init);
      assert forall x :: x in Numbers(init) ==> x in nums;
      assert nums[|init|] in nums;
      RisingTally(s, init);
      ReceiveKeepsTally(ReceiveAll(s, init), rs[|init|]);
    }
  }

  lemma SliceRises(nums: seq<nat>, lo: nat, hi: nat)
    requires Rising(0, nums) && lo <= hi <= |nums|
    ensures var w := nums[lo..hi];
            && LastOr(LastOr(0, nums[..lo]), w) == LastOr(0, nums[..hi])
            && Exact(LastOr(0, nums[..lo]), w)
            && LastOr(0, nums[..lo]) + |w| <= LastOr(0, nums[..hi])
  {
    var w, first := nums[lo..hi], LastOr(0, nums[..lo]);
    forall x | x in w
      ensures first < x <= LastOr(first, w)
    {
      var i :| 0 <= i < |w| && w[i] == x;
      assert w[i] == nums[lo + i] && nums[lo + i] in nums;
    }
    RisesByOne(nums, lo, hi);
  }

  lemma {:induction false} RisesByOne(nums: seq<nat>, lo: nat, hi: nat)
    requires Rising(0, nums) && lo <= hi <= |nums|
    ensures LastOr(0, nums[..lo]) + (hi - lo) <= LastOr(0, nums[..hi])
    decreases hi
  {
    if lo < hi {
      RisesByOne(nums, lo, hi - 1);
      assert nums[hi - 1] in nums;
    }
  }

  /** Record `k` reports the numbers missing from its window of the received ones. */
  ghost predicate IntervalExact(stats: seq<Interval>, k: nat, nums: seq<nat>)
    requires k < |stats|
  {
    var lo, hi := SumStats(stats[..k]).blks, SumStats(stats[..k + 1]).blks;
    && lo <= hi <= |nums|
    && stats[k].data.lost == |Missing(LastOr(0, nums[..lo]), LastOr(0, nums[..hi]), nums[lo..hi])|
  }

  lemma WindowIsExact(stats: seq<Interval>, k: nat, nums: seq<nat>)
    requires k < |stats| && WindowOk(stats, k, nums)
    requires Rising(0, nums) && LastOr(0, nums) < U64
    ensures IntervalExact(stats, k, nums)
  {
    var lo, hi := SumStats(stats[..k]).blks, SumStats(stats[..k + 1]).blks;
    var first, w := LastOr(0, nums[..lo]), nums[lo..hi];
    SliceRises(nums, lo, hi);
    RisesByOne(nums, hi, |nums|);
    assert nums[..|nums|] == nums;
    if LastOr(first, w) == U64 - 1 {
      assert first + |w| < U64;
    }
    LostIsMissingIff(first, w);
  }

  lemma TotalIsExact(nums: seq<nat>)
    requires Rising(0, nums) && LastOr(0, nums) < U64
    ensures |Missing(0, LastOr(0, nums), nums)| == LastOr(0, nums) - |nums|
  {
    SliceRises(nums, 0, |nums|);
    assert nums[0..|nums|] == nums == nums[..|nums|];
    LostIsMissingIff(0, nums);
  }

  /** The receiver's loss is exact. A stream that receives rising datagram numbers, with interval
      boundaries anywhere, reports for every interval the numbers missing from it, and
      after `end` the numbers from 1 to the last one that never arrived. */
  lemma ReceiverLossIsExact(s: StreamView, rs: seq<Receipt>, c: Closing)
    requires s.conn.UDP? && s.data == s.temp == ZERO && s.stats == [] && s.first == s.last == 0
    requires forall k :: 0 <= k < |rs| ==> rs[k].n > 0
    requires Rising(0, Numbers(rs)) && LastOr(0, Numbers(rs)) < U64
    ensures var e, nums := Close(ReceiveAll(s, rs), UDP, c), Numbers(rs);
            && e.data.lost == |Missing(0, LastOr(0, nums), nums)|
            && e.data.blks == |nums|
            && forall k :: 0 <= k < |e.stats| ==> IntervalExact(e.stats, k, nums)
  {
    var all, nums := ReceiveAll(s, rs), Numbers(rs);
    var e := Close(all, UDP, c);
    ReceivedWindows(s, rs);
    CloseKeepsWindows(all, nums, c);
    RisingTally(s, rs);
    CloseSettlesTally(all, c);
    TotalIsExact(nums);
    forall k | 0 <= k < |e.stats|
      ensures IntervalExact(e.stats, k, nums)
    {
      WindowIsExact(e.stats, k, nums);
    }
  }

  // ----- exactly when loss is exact

  /** The wrapped differences telescope, whatever the numbers and the boundaries. */
  ghost predicate Telescoped(s: StreamView)
  {
    s.conn.UDP? && (SumStats(s.stats).lost + SumStats(s.stats).blks - s.first) % U64 == 0
  }

  lemma PushTelescopes(s: StreamView, sample: Sample)
    requires Telescoped(s)
    ensures Telescoped(Push(s, sample))
  {
    SumStatsAppend(s.stats, Push(s, sample).stats[|s.stats|]);
  }

  lemma {:induction false} ReceivedTelescopes(s: StreamView, rs: seq<Receipt>)
    requires Telescoped(s)
    ensures Telescoped(ReceiveAll(s, rs))
  {
    if rs != [] {
      var before, r := ReceiveAll(s, rs[..|rs| - 1]), rs[|rs| - 1];
      ReceivedTelescopes(s, rs[..|rs| - 1]);
      PushTelescopes(Count(before, r.n).(last := r.number), r.sample);
    }
  }

  lemma Reduced(lost: nat, last: nat, blks: nat)
    requires (lost + blks - last) % U64 == 0
    ensures lost % U64 == LostBetween(0, last, blks)
  {
  }

  /** So the total is the one difference between the last number and the number of blocks. */
  lemma CloseTelescopes(s: StreamView, nums: seq<nat>, c: Closing)
    requires Telescoped(s) && Windows(s, nums)
    ensures Close(s, UDP, c).data.lost == LostBetween(0, LastOr(0, nums), |nums|)
  {
    if s.temp.bytes > 0 {
      PushTelescopes(s, c.sample);
    }
    CloseKeepsWindows(s, nums, c);
    CloseConserves(s, UDP, c);
    assert nums[..|nums|] == nums;
    Reduced(SumStats(Close(s, UDP, c).stats).lost, LastOr(0, nums), |nums|);
  }

  /** Record `k` is right exactly when the numbers in its window are all different and lie between its two marks. */
  ghost predicate IntervalExactIff(stats: seq<Interval>, k: nat, nums: seq<nat>)
    requires k < |stats|
  {
    var lo, hi := SumStats(stats[..k]).blks, SumStats(stats[..k + 1]).blks;
    && lo <= hi <= |nums|
    && var first, last := LastOr(0, nums[..lo]), LastOr(0, nums[..hi]);
    first + (hi - lo) < U64 && last < U64 ==>
      (stats[k].data.lost == |Missing(first, last, nums[lo..hi])| <==> Exact(first, nums[lo..hi]))
  }

  lemma WindowIsExactIff(stats: seq<Interval>, k: nat, nums: seq<nat>)
    requires k < |stats| && WindowOk(stats, k, nums)
    ensures IntervalExactIff(stats, k, nums)
  {
    var lo, hi := SumStats(stats[..k]).blks, SumStats(stats[..k + 1]).blks;
    var first, w := LastOr(0, nums[..lo]), nums[lo..hi];
    assert LastOr(first, w) == LastOr(0, nums[..hi]);
    if first + |w| < U64 && LastOr(first, w) < U64 {
      LostIsMissingIff(first, w);
    }
  }

  function Highest(nums: seq<nat>): (h: nat)
    ensures forall x :: x in nums ==> x <= h
    ensures h == 0 || h in nums
  {
    if nums == [] then 0
    else
      var h := Highest(nums[..|nums| - 1]);
      assert nums == nums[..|nums| - 1] + [nums[|nums| - 1]];
      if nums[|nums| - 1] > h then nums[|nums| - 1] else h
  }

  /** Which numbers are missing up to the highest, and how the one wrapped difference compares. */
  lemma HighestMissingIff(nums: seq<nat>)
    requires Highest(nums) + |nums| < U64
    ensures LostBetween(0, LastOr(0, nums), |nums|) == |Missing(0, Highest(nums), nums)| <==> Exact(0, nums)
  {
    var h, last := Highest(nums), LastOr(0, nums);
    assert nums != [] ==> nums[|nums| - 1] in nums;
    var hits := Range(0, h) * Members(nums);
    MissingSize(0, h, nums);
    MembersSize(nums);
    SubsetSize(hits, Members(nums));
    if Exact(0, nums) {
      assert h == last;
      LostIsMissingIff(0, nums);
    } else if last == h {
      LostIsMissingIff(0, nums);
    } else {
      WrappedLast(last, h, |nums|, |hits|);
    }
  }

  lemma WrappedLast(last: nat, h: nat, blks: nat, hits: nat)
    requires last < h && h + blks < U64 && hits <= blks && hits <= h
    ensures LostBetween(0, last, blks) != h - hits
  {
    assert (last - blks) % U64 == if last < blks then last - blks + U64 else last - blks;
  }

  /** Without the room above the highest number the wrapped total can be right by accident: these
      four datagrams are not `Exact`, and as many as it says are missing. */
  lemma HighestNeedsRoom()
    ensures var nums := [U64 - 1, 1, 1, 1];
            && !Exact(0, nums) && Highest(nums) == U64 - 1
            && LostBetween(0, LastOr(0, nums), |nums|) == |Missing(0, Highest(nums), nums)| == U64 - 3
  {
    var nums := [U64 - 1, 1, 1, 1];
    assert nums[1] == nums[2];
    assert U64 - 1 in nums;
    MissingSize(0, U64 - 1, nums);
    assert Range(0, U64 - 1) * Members(nums) == {1, U64 - 1};
    assert (0 - 3) % U64 == U64 - 3;
  }

  /** The receiver's loss, for every sequence of datagram numbers and interval boundaries anywhere. The stream's
      total, which is what the peer is told, is the number of datagrams that never arrived up to the highest number
      seen exactly when those that did arrive were all different and the highest came last, whatever becomes of the
      records. Each record is right exactly when the same holds of its own window. */
  lemma ReceiverLossIff(s: StreamView, rs: seq<Receipt>, c: Closing)
    requires s.conn.UDP? && s.data == s.temp == ZERO && s.stats == [] && s.first == s.last == 0
    requires forall k :: 0 <= k < |rs| ==> rs[k].n > 0
    requires |rs| < U64 && LastOr(0, Numbers(rs)) < U64
    ensures var e, nums := Close(ReceiveAll(s, rs), UDP, c), Numbers(rs);
            && e.data.blks == |nums|
            && (e.data.lost == |Missing(0, LastOr(0, nums), nums)| <==> Exact(0, nums))
            && (Highest(nums) + |nums| < U64 ==>
                  (e.data.lost == |Missing(0, Highest(nums), nums)| <==> Exact(0, nums)))
            && forall k :: 0 <= k < |e.stats| ==> IntervalExactIff(e.stats, k, nums)
  {
    var all, nums := ReceiveAll(s, rs), Numbers(rs);
    var e := Close(all, UDP, c);
    ReceivedWindows(s, rs);
    ReceivedTelescopes(s, rs);
    CloseTelescopes(all, nums, c);
    CloseKeepsWindows(all, nums, c);
    LostIsMissingIff(0, nums);
    if Highest(nums) + |nums| < U64 {
      HighestMissingIff(nums);
    }
    forall k | 0 <= k < |e.stats|
      ensures IntervalExactIff(e.stats, k, nums)
    {
      WindowIsExactIff(e.stats, k, nums);
    }
  }

  // ----- the sending side

  /** A record that reports its blocks, negated and wrapped, as lost. */
  predicate Wrapped(r: Interval, n: nat) {
    0 < r.data.blks <= n && r.data.lost == U64 - r.data.blks
  }

  /** Nothing moves the marks of a stream that only sends; `n` bounds its blocks. */
  ghost predicate SendingOnly(s: StreamView, n: nat)
  {
    && s.first == s.last == 0 && s.temp.blks <= n
    && (s.conn.UDP? ==> forall k :: 0 <= k < |s.stats| ==> Wrapped(s.stats[k], n))
  }

  lemma PushWraps(s: StreamView, n: nat, sample: Sample)
    requires SendingOnly(s, n) && 0 < s.temp.blks && n < U64
    ensures SendingOnly(Push(s, sample), n)
  {
    assert (0 - s.temp.blks) % U64 == U64 - s.temp.blks;
  }

  ghost predicate AllSendingOnly(t: TestView, n: nat)
  {
    forall i :: 0 <= i < |t.streams| ==> SendingOnly(t.streams[i], n)
  }

  lemma EventWraps(t: TestView, e: Event, n: nat)
    requires AllSendingOnly(t, n) && ThreeLevels(t) && !e.Read? && n + 1 < U64
    ensures AllSendingOnly(After(t, e), n + 1)
  {
    if e.Write? && e.i < |t.streams| && TurnOf(t, e.i, e.a).Sent? {
      PushWraps(Count(t.streams[e.i], e.a.res.n), n + 1, e.a.sample);
    } else if e.Finish? {
      forall i | 0 <= i < |t.streams|
        ensures SendingOnly(After(t, e).streams[i], n + 1)
      {
        if t.streams[i].temp.bytes > 0 {
          PushWraps(t.streams[i], n, e.closing(i).sample);
        }
      }
    }
  }

  /** The same subtraction runs on the sending side, where both marks stay at zero: through any run of writes, starts
      and ends, every interval of a UDP stream reports 2^64 less its blocks. */
  lemma {:induction false} SenderLossWraps(t: TestView, es: seq<Event>)
    requires Unused(t) && |es| < U64 && forall k :: 0 <= k < |es| ==> !es[k].Read?
    ensures AllSendingOnly(AfterAll(t, es), |es|)
  {
    if es == [] {
      forall i | 0 <= i < |t.streams|
        ensures SendingOnly(t.streams[i], 0)
      {
        assert UnusedStream(t.streams[i]);
      }
    } else {
      var init := es[..|es| - 1];
      SenderLossWraps(t, init);
      RunKeepsThreeLevels(t, init);
      EventWraps(AfterAll(t, init), es[|init|], |init|);
    }
  }
}
