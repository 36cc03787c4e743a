/** `PerfStream` and `Test` as the objects they are in src/test.rs, updated in place. Each method
    is proved against the function of the same purpose on values. */
module Recorder {
  import opened Wire
  import opened Stats
  import opened Session

  class PerfStream {
    const conn: Conn
    const created: nat
    var curr: nat
    var end: nat
    var elapsed: nat
    var data: StreamData
    var first: nat
    var last: nat
    var stats: seq<Interval>
    var iter: nat
    var temp: StreamData

    ghost function View(): StreamView
      reads this
    {
      StreamView(conn, created, curr, end, elapsed, data, first, last, stats, iter, temp)
    }

    constructor (conn: Conn, now: nat)
      ensures View() == NewStream(conn, now)
    {
      this.conn := conn;
      created, curr, end, elapsed := now, now, now, 0;
      data, temp := ZERO, ZERO;
      first, last := 0, 0;
      stats, iter := [], 0;
    }

    /** The counters of one successful read or write. */
    method Tally(n: nat)
      modifies this`data, this`temp
      ensures View() == Count(old(View()), n)
    {
      data := data.(bytes := data.bytes + n);
      temp := temp.(bytes := temp.bytes + n);
      data := data.(blks := data.blks + 1);
      temp := temp.(blks := temp.blks + 1);
    }

    method PushStat(sample: Sample)
      modifies this
      ensures View() == Push(old(View()), sample)
    {
      var stat := Interval(iter, 0, sample.now, StreamData(temp.bytes, temp.blks, 0, 0));
      if conn.UDP? {
        stat := stat.(data := stat.data.(lost := LostBetween(first, last, temp.blks)));
        first := last;
      } else if conn.HasTcpInfo() {
        stat := stat.(data := stat.data.(retr := (sample.retrans - temp.retr) % U32));
        temp := temp.(retr := sample.retrans);
      }
      stat := stat.(start := curr);
      stats := stats + [stat];
      iter := iter + 1;
      curr := sample.later;
      temp := temp.(bytes := 0);
      temp := temp.(blks := 0);
    }

    /** A turn of the receive loop after a successful read. */
    method Received(r: Receipt)
      modifies this
      ensures View() == Receive(old(View()), r)
    {
      Tally(r.n);
      last := r.number;
      if Since(r.now, curr) > ONE_SEC {
        PushStat(r.sample);
      }
    }
  }

  class Test {
    var state: TestState
    var settings: Settings
    var cookieCount: nat
    var streams: seq<PerfStream>
    var tokens: seq<nat>
    var start: nat
    var elapsed: nat
    var data: StreamData
    var peer: StreamData
    var peerElapsed: nat
    var peerStreams: seq<StreamResult>
    ghost var ends: nat  // how often `end` has been called

    /** No two streams are the same object. */
    ghost predicate Valid()
      reads this
    {
      forall i, j :: 0 <= i < j < |streams| ==> streams[i] != streams[j]
    }

    ghost function Views(): (v: seq<StreamView>)
      reads this, streams
      ensures |v| == |streams| && forall i :: 0 <= i < |v| ==> v[i] == streams[i].View()
    {
      seq(|streams|, i requires 0 <= i < |streams| reads this, streams => streams[i].View())
    }

    ghost function View(): TestView
      reads this, streams
    {
      TestView(state, settings, cookieCount, Views(), tokens, start, elapsed, data, peer, peerElapsed, peerStreams)
    }

    constructor (settings: Settings)
      ensures Valid() && streams == [] && ends == 0 && View() == NewTest(settings)
    {
      state, this.settings, cookieCount := TestState.Start, settings, 0;
      streams, tokens := [], [];
      start, elapsed := 0, 0;
      data, peer, peerElapsed, peerStreams := ZERO, ZERO, 0, [];
      ends := 0;
    }

    method Transition(state: TestState)
      modifies this`state
      ensures View() == old(View()).(state := state)
    {
      this.state := state;
      assert Views() == old(Views());
    }

    method AddStream(conn: Conn, now: nat)
      requires Valid()
      modifies this`streams
      ensures Valid() && |streams| == |old(streams)| + 1 && streams[..|old(streams)|] == old(streams)
      ensures fresh(streams[|old(streams)|])
      ensures View() == old(View()).(streams := old(Views()) + [NewStream(conn, now)])
    {
      var stream := new PerfStream(conn, now);
      streams := streams + [stream];
      assert Views() == old(Views()) + [NewStream(conn, now)];
    }

    method Begin(now: nat)
      requires Valid()
      modifies this`start, streams
      ensures View() == StartAll(old(View()), now)
    {
      for k := 0 to |streams|
        invariant streams == old(streams) && start == old(start)
        invariant forall j :: 0 <= j < |streams| ==>
                    streams[j].View() == if j < k then old(streams[j].View()).(curr := now) else old(streams[j].View())
      {
        streams[k].curr := now;
      }
      start := now;
      assert Views() == Restarted(old(Views()), now);
    }

    /** The first loop of `end`. */
    method FlushAll(closing: nat -> Closing)
      requires Valid()
      modifies streams
      ensures forall j :: 0 <= j < |streams| ==> streams[j].View() == Flush(old(streams[j].View()), closing(j))
    {
      for k := 0 to |streams|
        invariant forall j :: 0 <= j < |streams| ==>
                    streams[j].View() == if j < k then Flush(old(streams[j].View()), closing(j))
                                         else old(streams[j].View())
      {
        var s := streams[k];
        if s.temp.bytes > 0 {
          s.PushStat(closing(k).sample);
        }
        s.end := closing(k).end;
        s.elapsed := Since(closing(k).end, s.created);
      }
    }

    /** The second loop of `end`, over the streams alone. */
    method SettleAll(closing: nat -> Closing)
      requires Valid()
      modifies streams
      ensures forall j :: 0 <= j < |streams| ==>
          streams[j].View() == Settle(old(streams[j].View()), settings.conn, closing(j))
    {
      for k := 0 to |streams|
        invariant forall j :: 0 <= j < |streams| ==>
                    streams[j].View() == if j < k then Settle(old(streams[j].View()), settings.conn, closing(j))
                                         else old(streams[j].View())
      {
        var s := streams[k];
        if settings.conn.UDP? {
          s.data := s.data.(lost := SumStats(s.stats).lost % U64);
        } else if settings.conn.HasTcpInfo() {
          s.data := s.data.(retr := closing(k).retrans);
        }
      }
    }

    method Sums() returns (lost: nat, retr: nat)
      ensures lost == SumStreams(Views()).lost && retr == SumStreams(Views()).retr
    {
      lost, retr := 0, 0;
      for k := 0 to |streams|
        invariant lost == SumStreams(Views()[..k]).lost && retr == SumStreams(Views()[..k]).retr
      {
        lost, retr := lost + streams[k].data.lost, retr + streams[k].data.retr;
        assert Views()[..k + 1] == Views()[..k] + [Views()[k]];
        SumStreamsAppend(Views()[..k], Views()[k]);
      }
      assert Views()[..|streams|] == Views();
    }

    method CloseStreams(closing: nat -> Closing)
      requires Valid()
      modifies streams
      ensures Views() == CloseAll(old(Views()), settings.conn, closing)
    {
      FlushAll(closing);
      label flushed:
      SettleAll(closing);
      forall j | 0 <= j < |streams|
        ensures Views()[j] == Close(old(Views())[j], settings.conn, closing(j))
      {
        assert Views()[j] == Settle(old@flushed(streams[j].View()), settings.conn, closing(j));
      }
    }

    method Total()
      modifies this`data
      ensures Views() == old(Views()) && data == Totalled(old(data), settings.conn, Views())
    {
      var lost, retr := Sums();
      if settings.conn.UDP? {
        data := data.(lost := lost % U64);
      } else if settings.conn.HasTcpInfo() {
        data := data.(retr := retr % U32);
      }
      assert Views() == old(Views());
    }

    method Finish(closing: nat -> Closing, now: nat)
      requires Valid()
      modifies this`data, this`elapsed, this`ends, streams
      ensures Valid() && ends == old(ends) + 1 && View() == EndAll(old(View()), closing, now)
    {
      hide CloseAll, Totalled;
      ends := ends + 1;
      elapsed := Since(now, start);
      assert Views() == old(Views());
      CloseStreams(closing);
      Total();
    }

    method FromSerde(r: Results)
      modifies this`peer, this`peerElapsed, this`peerStreams
      ensures View() == Adopt(old(View()), r)
    {
      peerStreams := r.streams;
      peerElapsed := r.elapsed;
      peer := peer.(bytes := r.data.bytes);
      peer := peer.(blks := r.data.blks);
      peer := peer.(lost := r.data.lost);
      assert Views() == old(Views());
    }

    /** The receive loop on stream `i`, up to the read that ends it. */
    method ReceiveBurst(i: nat, rs: seq<Receipt>)
      requires Valid() && i < |streams|
      modifies this`data, streams[i]
      ensures View() == ReadAll(old(View()), i, rs)
    {
      var s := streams[i];
      assert rs[..|rs|] == rs;
      for k := 0 to |rs|
        invariant View() == ReadAll(old(View()), i, rs[..k])
      {
        assert rs[..k + 1][..k] == rs[..k];
        ghost var before := Views();
        data := data.(bytes := data.bytes + rs[k].n);
        data := data.(blks := data.blks + 1);
        s.Received(rs[k]);
        assert Views() == before[i := Receive(before[i], rs[k])];
      }
    }
  }
}
