/** What arrives: byte and datagram conservation between the two endpoints, stream by stream. */
module Delivery {
  import opened Wire
  import opened Stats
  import opened Loss
  import opened Session
  import opened Endpoints
  import opened World
  import opened LockStep

  /** The measured bytes among some packets. */
  function DataSize(ps: seq<Packet>): nat {
    if ps == [] then 0
    else DataSize(ps[..|ps| - 1]) + (if ps[|ps| - 1].Data? then ps[|ps| - 1].size else 0)
  }

  lemma {:induction false} DataSizeJoin(a: seq<Packet>, b: seq<Packet>)
    ensures DataSize(a + b) == DataSize(a) + DataSize(b)
  {
    if b == [] {
      assert a + b == a;
    } else {
      assert (a + b)[..|a + b| - 1] == a + b[..|b| - 1];
      DataSizeJoin(a, b[..|b| - 1]);
    }
  }

  lemma {:induction false} DataSizeIsSize(ps: seq<Packet>)
    requires NoCookie(ps)
    ensures DataSize(ps) == SizeOf(ps)
  {
    if ps != [] {
      DataSizeIsSize(ps[..|ps| - 1]);
    }
  }

  lemma {:induction false} UnitPackets(n: nat)
    ensures DataSize(seq(n, _ => Data(1, 0))) == n
  {
    if n > 0 {
      assert seq(n, _ => Data(1, 0))[..n - 1] == seq(n - 1, _ => Data(1, 0));
      UnitPackets(n - 1);
    }
  }

  lemma PacketsSize(conn: Conn, n: nat, number: nat)
    ensures DataSize(Packets(conn, n, number)) == n && NoCookie(Packets(conn, n, number))
  {
    UnitPackets(n);
    assert [Data(n, number)][..0] == [];
  }

  /** The datagrams under way are numbered in order, after `low` and up to `high`. */
  ghost predicate InOrder(pipe: seq<Packet>, low: nat, high: nat)
  {
    && (forall k :: 0 <= k < |pipe| && pipe[k].Data? ==> low < pipe[k].number <= high)
    && (forall j, k :: 0 <= j < k < |pipe| && pipe[j].Data? && pipe[k].Data? ==> pipe[j].number < pipe[k].number)
  }

  ghost predicate NoneEmpty(ps: seq<Packet>) {
    forall k :: 0 <= k < |ps| ==> PacketSize(ps[k]) > 0
  }

  lemma SizePositive(ps: seq<Packet>)
    requires NoneEmpty(ps) && ps != []
    ensures SizeOf(ps) > 0
  {
    assert PacketSize(ps[|ps| - 1]) > 0;
  }

  /** One stream from end to end: the bytes sent are those received and those under way, except for
      what UDP lost, and the receiver's loss account covers exactly the numbers it has passed. */
  ghost predicate Pair(sender: StreamData, s: StreamView, pipe: seq<Packet>, ended: bool)
  {
    && NoneEmpty(pipe)
    && if s.conn.UDP? then
         && s.data.bytes + DataSize(pipe) <= sender.bytes
         && InOrder(pipe, s.last, sender.blks)
         && s.last <= sender.blks
         && (if ended then s.data.lost + s.data.blks == s.last else Tally(s))
       else
         s.data.bytes + DataSize(pipe) == sender.bytes
  }

  /** A connection the server has not accepted yet has not been used. */
  predicate Idle(sender: StreamData, pipe: seq<Packet>)
  {
    sender.bytes == 0 && sender.blks == 0 && pipe == []
  }

  ghost predicate PairAt(cs: seq<StreamView>, ss: seq<StreamView>, pipes: seq<seq<Packet>>, ended: bool, i: nat)
    requires i < |cs| == |pipes|
  {
    if i < |ss| then Pair(cs[i].data, ss[i], pipes[i], ended) else Idle(cs[i].data, pipes[i])
  }

  ghost predicate Pairs(cs: seq<StreamView>, ss: seq<StreamView>, pipes: seq<seq<Packet>>, ended: bool)
  {
    |pipes| == |cs| && forall i :: 0 <= i < |pipes| ==> PairAt(cs, ss, pipes, ended, i)
  }

  ghost predicate Account(w: World)
  {
    && ThreeLevels(w.c.test) && ThreeLevels(w.s.test)
    && Pairs(w.c.test.streams, w.s.test.streams, w.pipes, w.s.ends > 0)
    && w.c.test.data.blks + w.budget < U64
  }

  // ----- effects on one pair

  lemma SendKeepsPair(conn: Conn, sender: StreamData, s: StreamView, pipe: seq<Packet>, ended: bool, n: nat)
    requires Pair(sender, s, pipe, ended) && s.conn == conn && n > 0
    ensures Pair(sender.Counted(n), s, pipe + Packets(conn, n, sender.blks + 1), ended)
  {
    DataSizeJoin(pipe, Packets(conn, n, sender.blks + 1));
    PacketsSize(conn, n, sender.blks + 1);
  }

  lemma CookieKeepsPair(sender: StreamData, s: StreamView, pipe: seq<Packet>, ended: bool)
    requires Pair(sender, s, pipe, ended)
    ensures Pair(sender, s, pipe + [Cookie], ended)
    ensures pipe == [Cookie] ==> Pair(sender, s, [], ended)
  {
    DataSizeJoin(pipe, [Cookie]);
    assert [Cookie][..0] == [];
    assert DataSize([Cookie]) == 0;
  }

  lemma DataSizeWithout(pipe: seq<Packet>, k: nat)
    requires k < |pipe|
    ensures DataSize(pipe[..k] + pipe[k + 1..]) <= DataSize(pipe)
  {
    DataSizeJoin(pipe[..k], pipe[k + 1..]);
    DataSizeJoin(pipe[..k], [pipe[k]] + pipe[k + 1..]);
    DataSizeJoin([pipe[k]], pipe[k + 1..]);
    assert pipe == pipe[..k] + ([pipe[k]] + pipe[k + 1..]);
  }

  lemma LossKeepsPair(sender: StreamData, s: StreamView, pipe: seq<Packet>, ended: bool, k: nat)
    requires Pair(sender, s, pipe, ended) && s.conn.UDP? && k < |pipe|
    ensures Pair(sender, s, pipe[..k] + pipe[k + 1..], ended)
  {
    DataSizeWithout(pipe, k);
    var rest := pipe[..k] + pipe[k + 1..];
    assert forall j :: 0 <= j < |rest| ==> rest[j] == pipe[if j < k then j else j + 1];
  }

  lemma ReadKeepsPair(sender: StreamData, s: StreamView, pipe: seq<Packet>, count: nat, r: Receipt)
    requires Pair(sender, s, pipe, false) && NoCookie(pipe) && sender.blks < U64
    requires 0 < count <= |pipe| && (s.conn.UDP? ==> count == 1)
    requires r.n == SizeOf(pipe[..count]) && (s.conn.UDP? ==> r.number == pipe[0].number)
    ensures Pair(sender, Receive(s, r), pipe[count..], false)
  {
    assert pipe == pipe[..count] + pipe[count..];
    DataSizeJoin(pipe[..count], pipe[count..]);
    DataSizeIsSize(pipe[..count]);
    if s.conn.UDP? {
      ReceiveKeepsTally(s, r);
    }
  }

  lemma CloseKeepsPair(sender: StreamData, s: StreamView, pipe: seq<Packet>, conn: Conn, c: Closing)
    requires Pair(sender, s, pipe, false) && s.conn == conn && Conserved(s)
    ensures Pair(sender, Close(s, conn, c), pipe, true)
  {
    CloseConserves(s, conn, c);
    if s.conn.UDP? {
      CloseSettlesTally(s, c);
    }
  }

  // ----- effects on all pairs

  /** Only the sender's byte and block counts matter. */
  lemma SameSenders(cs: seq<StreamView>, cs': seq<StreamView>, ss: seq<StreamView>, pipes: seq<seq<Packet>>,
                    ended: bool)
    requires Pairs(cs, ss, pipes, ended) && |cs'| == |cs|
    requires forall i :: 0 <= i < |cs| ==> cs'[i].data.bytes == cs[i].data.bytes && cs'[i].data.blks == cs[i].data.blks
    ensures Pairs(cs', ss, pipes, ended)
  {
    forall i | 0 <= i < |pipes|
      ensures PairAt(cs', ss, pipes, ended, i)
    {
      assert PairAt(cs, ss, pipes, ended, i);
    }
  }

  /** A change at one place only. */
  lemma OtherPairs(cs: seq<StreamView>, cs': seq<StreamView>, ss: seq<StreamView>, ss': seq<StreamView>,
                   pipes: seq<seq<Packet>>, pipes': seq<seq<Packet>>, ended: bool, i: nat)
    requires Pairs(cs, ss, pipes, ended) && i < |pipes|
    requires |cs'| == |cs| && |ss'| == |ss| && |pipes'| == |pipes| && PairAt(cs', ss', pipes', ended, i)
    requires forall k :: 0 <= k < |cs| && k != i ==> cs'[k] == cs[k] && pipes'[k] == pipes[k]
    requires forall k :: 0 <= k < |ss| && k != i ==> ss'[k] == ss[k]
    ensures Pairs(cs', ss', pipes', ended)
  {
    forall k | 0 <= k < |pipes|
      ensures PairAt(cs', ss', pipes', ended, k)
    {
      assert PairAt(cs, ss, pipes, ended, k);
    }
  }

  lemma RestartedReceivers(cs: seq<StreamView>, ss: seq<StreamView>, pipes: seq<seq<Packet>>, now: nat)
    requires Pairs(cs, ss, pipes, false)
    ensures Pairs(cs, Restarted(ss, now), pipes, false)
  {
    forall i | 0 <= i < |pipes|
      ensures PairAt(cs, Restarted(ss, now), pipes, false, i)
    {
      assert PairAt(cs, ss, pipes, false, i);
    }
  }

  lemma NewPair(cs: seq<StreamView>, ss: seq<StreamView>, pipes: seq<seq<Packet>>, ended: bool, s: StreamView)
    requires Pairs(cs, ss, pipes, ended) && |ss| <= |cs| && s.data.bytes == s.data.blks == 0
    ensures Pairs(cs + [s], ss, pipes + [[]], ended)
  {
    forall i | 0 <= i < |pipes| + 1
      ensures PairAt(cs + [s], ss, pipes + [[]], ended, i)
    {
      assert i < |pipes| ==> PairAt(cs, ss, pipes, ended, i);
    }
  }

  lemma FreshPair(sender: StreamData, conn: Conn, now: nat)
    requires sender.bytes == sender.blks == 0
    ensures Pair(sender, NewStream(conn, now), [], false)
  {
    if conn.UDP? {
      NewStreamTallies(now);
    }
  }

  lemma NewReceiver(cs: seq<StreamView>, ss: seq<StreamView>, pipes: seq<seq<Packet>>, conn: Conn, now: nat)
    requires Pairs(cs, ss, pipes, false) && |ss| < |cs|
    ensures Pairs(cs, ss + [NewStream(conn, now)], pipes, false)
  {
    forall i | 0 <= i < |pipes|
      ensures PairAt(cs, ss + [NewStream(conn, now)], pipes, false, i)
    {
      assert PairAt(cs, ss, pipes, false, i);
      if i == |ss| {
        FreshPair(cs[i].data, conn, now);
      }
    }
  }

  lemma ClosedReceivers(cs: seq<StreamView>, ss: seq<StreamView>, pipes: seq<seq<Packet>>, conn: Conn,
                        closing: nat -> Closing)
    requires Pairs(cs, ss, pipes, false) && |ss| == |cs|
    requires forall i :: 0 <= i < |ss| ==> ss[i].conn == conn && Conserved(ss[i])
    ensures Pairs(cs, CloseAll(ss, conn, closing), pipes, true)
  {
    forall i | 0 <= i < |pipes|
      ensures PairAt(cs, CloseAll(ss, conn, closing), pipes, true, i)
    {
      assert PairAt(cs, ss, pipes, false, i);
      CloseKeepsPair(cs[i].data, ss[i], pipes[i], conn, closing(i));
    }
  }

  // ----- every action keeps the account

  /** The account looks at nothing but the counters, the pipes and the budget. */
  lemma SameAccount(w: World, w': World)
    requires Account(w)
    requires w'.c.test.streams == w.c.test.streams && w'.c.test.data == w.c.test.data
    requires w'.s.test.streams == w.s.test.streams && w'.s.test.data == w.s.test.data
    requires w'.pipes == w.pipes && w'.budget == w.budget && (w'.s.ends > 0 <==> w.s.ends > 0)
    ensures Account(w')
  {
  }

  lemma ClientControlKeepsAccount(w: World, readable: bool, writable: bool, wake: bool, closing: nat -> Closing,
                                  now: nat)
    requires Inv(w) && Account(w) && Enabled(w, ClientControl(readable, writable, wake, closing, now))
    ensures Account(ClientControls(w, readable, writable, wake, closing, now))
  {
    var w' := ClientControls(w, readable, writable, wake, closing, now);
    if w.c.test.state.TestRunning? {
      var started := w.(c := w.c.(test := StartAll(w.c.test, now)));
      StartKeepsThreeLevels(w.c.test, now);
      SameSenders(w.c.test.streams, started.c.test.streams, w.s.test.streams, w.pipes, w.s.ends > 0);
      SameAccount(started, w');
    } else {
      SameAccount(w, w');
    }
  }

  lemma NewStreamKeepsThreeLevels(t: TestView, conn: Conn, now: nat)
    requires ThreeLevels(t)
    ensures ThreeLevels(t.(streams := t.streams + [NewStream(conn, now)]))
  {
    SumStreamsAppend(t.streams, NewStream(conn, now));
  }

  lemma ConnectKeepsAccount(w: World, now: nat)
    requires Account(w) && |w.s.test.streams| <= |w.c.test.streams|
    ensures var streams := w.c.test.streams + [NewStream(w.c.test.settings.conn, now)];
            Account(w.(c := w.c.(test := w.c.test.(streams := streams)), pipes := w.pipes + [[]]))
  {
    NewStreamKeepsThreeLevels(w.c.test, w.c.test.settings.conn, now);
    NewPair(w.c.test.streams, w.s.test.streams, w.pipes, w.s.ends > 0, NewStream(w.c.test.settings.conn, now));
  }

  lemma CookieSentKeepsAccount(w: World, i: nat)
    requires Account(w) && i < |w.pipes| && i < |w.s.test.streams|
    ensures Account(w.(pipes := w.pipes[i := w.pipes[i] + [Cookie]]))
  {
    var cs, ss := w.c.test.streams, w.s.test.streams;
    assert PairAt(cs, ss, w.pipes, w.s.ends > 0, i);
    CookieKeepsPair(cs[i].data, ss[i], w.pipes[i], w.s.ends > 0);
    OtherPairs(cs, cs, ss, ss, w.pipes, w.pipes[i := w.pipes[i] + [Cookie]], w.s.ends > 0, i);
  }

  lemma ClientTurnKeepsAccount(w: World, now: nat)
    requires Inv(w) && Account(w) && Enabled(w, ClientTurn(now))
    ensures Account(ClientTurns(w, now))
  {
    if w.c.test.state.CreateStreams? {
      ConnectKeepsAccount(w, now);
      var streams := w.c.test.streams + [NewStream(w.c.test.settings.conn, now)];
      SameAccount(w.(c := w.c.(test := w.c.test.(streams := streams)), pipes := w.pipes + [[]]), ClientTurns(w, now));
    } else {
      CookieSentKeepsAccount(w, w.c.pos);
      SameAccount(w.(pipes := w.pipes[w.c.pos := w.pipes[w.c.pos] + [Cookie]]), ClientTurns(w, now));
    }
  }

  /** The world once stream `i` has written `n` bytes and become `sender`. */
  function SentOn(w: World, i: nat, sender: StreamView, n: nat): World
    requires i < |w.pipes| && i < |w.c.test.streams| && w.budget > 0
  {
    var t := w.c.test.(streams := w.c.test.streams[i := sender], data := w.c.test.data.Counted(n));
    var sent := Packets(t.settings.conn, n, w.c.test.streams[i].data.blks + 1);
    w.(c := w.c.(test := t), pipes := w.pipes[i := w.pipes[i] + sent], budget := w.budget - 1)
  }

  lemma SentKeepsLevels(w: World, i: nat, sender: StreamView, n: nat)
    requires Account(w) && i < |w.pipes| && w.budget > 0
    requires sender.data == w.c.test.streams[i].data.Counted(n) && Conserved(sender)
    ensures ThreeLevels(SentOn(w, i, sender, n).c.test)
  {
    CountedThreeLevels(w.c.test, i, sender, n);
  }

  lemma SentKeepsPairs(w: World, i: nat, sender: StreamView, n: nat)
    requires Account(w) && i < |w.pipes| && i < |w.s.test.streams| && w.budget > 0 && n > 0
    requires sender.data == w.c.test.streams[i].data.Counted(n)
    requires w.s.test.streams[i].conn == w.c.test.settings.conn
    ensures var w' := SentOn(w, i, sender, n); Pairs(w'.c.test.streams, w.s.test.streams, w'.pipes, w.s.ends > 0)
  {
    var cs, ss, w' := w.c.test.streams, w.s.test.streams, SentOn(w, i, sender, n);
    assert PairAt(cs, ss, w.pipes, w.s.ends > 0, i);
    SendKeepsPair(w.c.test.settings.conn, cs[i].data, ss[i], w.pipes[i], w.s.ends > 0, n);
    OtherPairs(cs, w'.c.test.streams, ss, ss, w.pipes, w'.pipes, w.s.ends > 0, i);
  }

  lemma SendEffect(w: World, i: nat, a: Attempt)
    requires Account(w) && Enabled(w, ClientSend(i, a))
    ensures a.res.Wrote? && a.res.n > 0
    ensures var sender := WriteOne(w.c.test, i, a).streams[i];
            && sender.data == w.c.test.streams[i].data.Counted(a.res.n) && Conserved(sender)
            && ClientSends(w, i, a) == SentOn(w, i, sender, a.res.n)
  {
    WriteKeepsThreeLevels(w.c.test, i, a);
  }

  lemma ClientSendKeepsAccount(w: World, i: nat, a: Attempt)
    requires Inv(w) && Account(w) && Enabled(w, ClientSend(i, a))
    ensures Account(ClientSends(w, i, a))
  {
    SendEffect(w, i, a);
    SentKeepsLevels(w, i, WriteOne(w.c.test, i, a).streams[i], a.res.n);
    SentKeepsPairs(w, i, WriteOne(w.c.test, i, a).streams[i], a.res.n);
  }

  lemma ClientFinishKeepsAccount(w: World, closing: nat -> Closing, now: nat)
    requires Inv(w) && Account(w) && Enabled(w, ClientFinish(closing, now))
    ensures Account(ClientFinishes(w, closing, now))
  {
    EndKeepsThreeLevels(w.c.test, closing, now);
    SameSenders(w.c.test.streams, EndAll(w.c.test, closing, now).streams, w.s.test.streams, w.pipes, w.s.ends > 0);
  }

  lemma ServerEndKeepsAccount(w: World, closing: nat -> Closing, now: nat)
    requires Account(w) && w.s.ends == 0 && |w.s.test.streams| == |w.c.test.streams|
    requires forall i :: 0 <= i < |w.s.test.streams| ==> w.s.test.streams[i].conn == w.s.test.settings.conn
    ensures Account(w.(s := w.s.(test := EndAll(w.s.test, closing, now), ends := 1)))
  {
    EndKeepsThreeLevels(w.s.test, closing, now);
    ClosedReceivers(w.c.test.streams, w.s.test.streams, w.pipes, w.s.test.settings.conn, closing);
  }

  lemma ServerControlKeepsAccount(w: World, readable: bool, wake: bool, closing: nat -> Closing, now: nat)
    requires Inv(w) && Account(w) && Enabled(w, ServerControl(readable, wake, closing, now))
    ensures Account(ServerControls(w, readable, wake, closing, now))
  {
    var w' := ServerControls(w, readable, wake, closing, now);
    StateCodes(Code(TestEnd), TestEnd);
    if w.s.test.state.TestEnd? {
      ServerEndKeepsAccount(w, closing, now);
      SameAccount(w.(s := w.s.(test := EndAll(w.s.test, closing, now), ends := 1)), w');
    } else {
      SameAccount(w, w');
    }
  }

  lemma ServerListenerKeepsAccount(w: World, now: nat)
    requires Inv(w) && Account(w) && Enabled(w, ServerListener(now))
    ensures Account(ServerListens(w, now))
  {
    ListenerEffect(w, now);
    var t, conn := w.s.test, w.s.test.settings.conn;
    NewStreamKeepsThreeLevels(t, conn, now);
    NewReceiver(w.c.test.streams, t.streams, w.pipes, conn, now);
    SameAccount(w.(s := w.s.(test := t.(streams := t.streams + [NewStream(conn, now)]))), StreamAccepted(w, now));
  }

  lemma CookieKeepsPairs(w: World, i: nat)
    requires Account(w) && w.s.ends == 0 && i < |w.pipes| && i < |w.s.test.streams|
    requires w.pipes[i] == [] || w.pipes[i] == [Cookie]
    ensures Pairs(w.c.test.streams, w.s.test.streams, w.pipes[i := []], false)
  {
    var cs, ss := w.c.test.streams, w.s.test.streams;
    assert PairAt(cs, ss, w.pipes, false, i);
    CookieKeepsPair(cs[i].data, ss[i], w.pipes[i], false);
    OtherPairs(cs, cs, ss, ss, w.pipes, w.pipes[i := []], false, i);
  }

  lemma CookieKeepsAccount(w: World, i: nat, now: nat)
    requires Account(w) && w.s.ends == 0 && i < |w.pipes| && i < |w.s.test.streams|
    requires w.pipes[i] == [] || w.pipes[i] == [Cookie]
    ensures Account(CookieTaken(w, i, now))
  {
    CookieKeepsPairs(w, i);
    StartKeepsThreeLevels(w.s.test.(cookieCount := w.s.test.cookieCount + 1, state := TestRunning), now);
    RestartedReceivers(w.c.test.streams, w.s.test.streams, w.pipes[i := []], now);
  }

  lemma {:induction false} SumCovers(streams: seq<StreamView>, i: nat)
    requires i < |streams|
    ensures streams[i].data.blks <= SumStreams(streams).blks
  {
    if i < |streams| - 1 {
      SumCovers(streams[..|streams| - 1], i);
    }
  }

  lemma TakenKeepsAccount(w: World, i: nat, count: nat, r: Receipt)
    requires Account(w) && i < |w.pipes| == |w.s.test.streams| && w.s.ends == 0 && NoCookie(w.pipes[i])
    requires 0 < count <= |w.pipes[i]| && (w.s.test.streams[i].conn.UDP? ==>
        count == 1 && r.number == w.pipes[i][0].number)
    requires r.n == SizeOf(w.pipes[i][..count])
    ensures Account(Taken(w, i, count, r))
  {
    var cs, ss := w.c.test.streams, w.s.test.streams;
    assert PairAt(cs, ss, w.pipes, false, i);
    SizePositive(w.pipes[i][..count]);
    ReadKeepsThreeLevels(w.s.test, i, r);
    SumCovers(cs, i);
    ReadKeepsPair(cs[i].data, ss[i], w.pipes[i], count, r);
    OtherPairs(cs, cs, ss, ss[i := Receive(ss[i], r)], w.pipes, w.pipes[i := w.pipes[i][count..]], false, i);
  }

  lemma ServerStreamKeepsAccount(w: World, token: nat, count: nat, number: nat, now: nat, sample: Sample)
    requires Inv(w) && Account(w) && Enabled(w, ServerStream(token, count, number, now, sample))
    ensures Account(ServerReads(w, token, count, number, now, sample))
  {
    if w.s.test.state.TestStart? {
      CookieEffect(w, token, count, number, now, sample);
      CookieKeepsAccount(w, token, now);
    } else {
      ReadEffect(w, token, count, number, now, sample);
      TakenKeepsAccount(w, token, count, ReceiptOf(w, token, count, number, now, sample));
    }
  }

  lemma LossKeepsAccount(w: World, i: nat, k: nat)
    requires Account(w) && i < |w.pipes| && k < |w.pipes[i]|
    requires forall j :: 0 <= j < |w.s.test.streams| ==> w.s.test.streams[j].conn.UDP?
    ensures Account(Loses(w, i, k))
  {
    var cs, ss := w.c.test.streams, w.s.test.streams;
    assert PairAt(cs, ss, w.pipes, w.s.ends > 0, i);
    LossKeepsPair(cs[i].data, ss[i], w.pipes[i], w.s.ends > 0, k);
    OtherPairs(cs, cs, ss, ss, w.pipes, Loses(w, i, k).pipes, w.s.ends > 0, i);
  }

  lemma LoseKeepsAccount(w: World, i: nat, k: nat)
    requires Inv(w) && Account(w) && Enabled(w, Lose(i, k))
    ensures Account(Loses(w, i, k))
  {
    LossKeepsAccount(w, i, k);
  }
}
