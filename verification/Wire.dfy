/** The control connection: one-byte state announcements and the unframed
    `drain_message` that every handler reads with (src/net.rs, `TestState` in src/test.rs). */
module Wire {
  type byte = b: int | 0 <= b < 256

  datatype Option<+T> = None | Some(value: T)

  datatype TestState =
    | Start
    | ParamExchange
    | CreateStreams
    | TestStart
    | TestRunning
    | TestEnd
    | Wait
    | ExchangeResults
    | End

  /** The byte `send_state` writes for a state. */
  function Code(s: TestState): (b: byte)
  {
    match s
    case Start => 0
    case ParamExchange => 1
    case CreateStreams => 2
    case TestStart => 3
    case TestRunning => 4
    case TestEnd => 5
    case Wait => 6
    case ExchangeResults => 7
    case End => 8
  }

  /** `TestState::from_i8`; `None` is the panic on an unknown value. */
  function FromCode(b: byte): (s: Option<TestState>)
  {
    match b
    case 0 => Some(Start)
    case 1 => Some(ParamExchange)
    case 2 => Some(CreateStreams)
    case 3 => Some(TestStart)
    case 4 => Some(TestRunning)
    case 5 => Some(TestEnd)
    case 6 => Some(Wait)
    case 7 => Some(ExchangeResults)
    case 8 => Some(End)
    case _ => None
  }

  /** Reading a state byte inverts writing it, and nothing else reads as that state. */
  lemma StateCodes(b: byte, s: TestState)
    ensures FromCode(b) == Some(s) <==> Code(s) == b
  {
    match s
    case Start =>
    case ParamExchange =>
    case CreateStreams =>
    case TestStart =>
    case TestRunning =>
    case TestEnd =>
    case Wait =>
    case ExchangeResults =>
    case End =>
  }

  /** The states in the order in which a test goes through them. */
  const ORDER := [Start, ParamExchange, CreateStreams, TestStart, TestRunning, TestEnd, Wait, ExchangeResults, End]

  /** A state's byte is its place in that order. */
  lemma CodesInOrder(k: nat)
    ensures k < |ORDER| ==> Code(ORDER[k]) == k
    ensures k < 256 ==> (FromCode(k).Some? <==> k < |ORDER|)
  {
  }

  /** What one non-blocking `read` can return. An empty chunk is `Ok(0)`: the peer has closed. */
  datatype ReadOutcome = Chunk(data: seq<byte>) | Interrupted | WouldBlock | Broken

  /** A socket seen through the outcomes its next reads will have.
      Once they are used up there is nothing more to read. */
  class Source {
    var script: seq<ReadOutcome>

    constructor (script: seq<ReadOutcome>)
      ensures this.script == script
    {
      this.script := script;
    }

    method Read() returns (r: ReadOutcome)
      modifies this
      ensures old(script) == [] ==> r == WouldBlock && script == []
      ensures old(script) != [] ==> r == old(script)[0] && script == old(script)[1..]
    {
      if script == [] {
        r := WouldBlock;
      } else {
        r := script[0];
        script := script[1..];
      }
    }
  }

  predicate Continues(b: byte) {
    0x80 <= b <= 0xBF
  }

  /** Well-formed UTF-8 (table 3-7 of the Unicode Standard), which `String::from_utf8` insists on. */
  predicate Utf8(s: seq<byte>)
  {
    if s == [] then true
    else if s[0] < 0x80 then Utf8(s[1..])
    else if 0xC2 <= s[0] <= 0xDF then |s| >= 2 && Continues(s[1]) && Utf8(s[2..])
    else if 0xE0 <= s[0] <= 0xEF then
      && |s| >= 3 && Continues(s[1]) && Continues(s[2])
      && (s[0] == 0xE0 ==> s[1] >= 0xA0) && (s[0] == 0xED ==> s[1] <= 0x9F)
      && Utf8(s[3..])
    else if 0xF0 <= s[0] <= 0xF4 then
      && |s| >= 4 && Continues(s[1]) && Continues(s[2]) && Continues(s[3])
      && (s[0] == 0xF0 ==> s[1] >= 0x90) && (s[0] == 0xF4 ==> s[1] <= 0x8F)
      && Utf8(s[4..])
    else false
  }

  /** What draining returns: everything there, an error, or a panic on a chunk that is not UTF-8. */
  datatype Drained = Text(data: seq<byte>) | Failed | Garbled

  /** The outcome of a drain and the read outcomes it leaves for later. */
  function Drain(script: seq<ReadOutcome>, buf: seq<byte>): (Drained, seq<ReadOutcome>)
    decreases |script|
  {
    if script == [] then (Text(buf), [])
    else
      match script[0]
      case Chunk(data) =>
        if data == [] then (Failed, script[1..])
        else if !Utf8(data) then (Garbled, script[1..])
        else Drain(script[1..], buf + data)
      case Interrupted => Drain(script[1..], buf)
      case WouldBlock => (Text(buf), script[1..])
      case Broken => (Failed, script[1..])
  }

  method DrainMessage(stream: Source) returns (res: Drained)
    modifies stream
    ensures (res, stream.script) == Drain(old(stream.script), [])
  {
    var buf: seq<byte> := [];
    var more := true;
    res := Failed;
    while more
      invariant more ==> Drain(stream.script, buf) == Drain(old(stream.script), [])
      invariant !more ==> (res, stream.script) == Drain(old(stream.script), [])
      decreases more, |stream.script|
    {
      var outcome := stream.Read();
      match outcome {
        case Chunk(data) =>
          if data == [] {
            res, more := Failed, false;
          } else if !Utf8(data) {
            res, more := Garbled, false;
          } else {
            buf := buf + data;
          }
        case Interrupted =>
        case WouldBlock =>
          res, more := Text(buf), false;
        case Broken =>
          res, more := Failed, false;
      }
    }
  }

  /** Outcomes that deliver bytes without ending the stream: non-empty chunks and interrupted reads. */
  predicate Delivers(pre: seq<ReadOutcome>)
  {
    forall k :: 0 <= k < |pre| ==> pre[k].Interrupted? || (pre[k].Chunk? && pre[k].data != [])
  }

  predicate Readable(pre: seq<ReadOutcome>)
  {
    forall k :: 0 <= k < |pre| && pre[k].Chunk? ==> Utf8(pre[k].data)
  }

  function Payload(pre: seq<ReadOutcome>): seq<byte>
  {
    if pre == [] then [] else (if pre[0].Chunk? then pre[0].data else []) + Payload(pre[1..])
  }

  /** A drain returns every byte that is there, however the kernel cut it into chunks, and stops there. */
  lemma {:induction false} DrainTakesEverything(pre: seq<ReadOutcome>, post: seq<ReadOutcome>, buf: seq<byte>)
    requires Delivers(pre) && Readable(pre)
    ensures Drain(pre + [WouldBlock] + post, buf) == (Text(buf + Payload(pre)), post)
    decreases |pre|
  {
    var script := pre + [WouldBlock] + post;
    if pre == [] {
      assert script[1..] == post;
    } else {
      assert script[0] == pre[0] && script[1..] == pre[1..] + [WouldBlock] + post;
      var head := if pre[0].Chunk? then pre[0].data else [];
      DrainTakesEverything(pre[1..], post, buf + head);
      assert buf + head + Payload(pre[1..]) == buf + Payload(pre);
      assert buf + [] == buf;
    }
  }

  /** It panics exactly when some chunk is not UTF-8 by itself. */
  lemma {:induction false} DrainGarblesIff(pre: seq<ReadOutcome>, post: seq<ReadOutcome>, buf: seq<byte>)
    requires Delivers(pre)
    ensures Drain(pre + [WouldBlock] + post, buf).0 == Garbled <==> !Readable(pre)
    decreases |pre|
  {
    var script := pre + [WouldBlock] + post;
    if Readable(pre) {
      DrainTakesEverything(pre, post, buf);
    } else {
      assert script[0] == pre[0] && script[1..] == pre[1..] + [WouldBlock] + post;
      if !pre[0].Chunk? || Utf8(pre[0].data) {
        assert !Readable(pre[1..]);
        DrainGarblesIff(pre[1..], post, if pre[0].Chunk? then buf + pre[0].data else buf);
      }
    }
  }

  /** A read of nothing, which is the peer closing, and a read error make it fail, whatever
      was read before, and leave what comes after. */
  lemma {:induction false} DrainFails(pre: seq<ReadOutcome>, end: ReadOutcome, post: seq<ReadOutcome>, buf: seq<byte>)
    requires Delivers(pre) && Readable(pre) && (end == Chunk([]) || end == Broken)
    ensures Drain(pre + [end] + post, buf) == (Failed, post)
    decreases |pre|
  {
    var script := pre + [end] + post;
    if pre == [] {
      assert script[0] == end && script[1..] == post;
    } else {
      assert script[0] == pre[0] && script[1..] == pre[1..] + [end] + post;
      DrainFails(pre[1..], end, post, if pre[0].Chunk? then buf + pre[0].data else buf);
    }
  }

  predicate Ascii(s: seq<byte>)
  {
    forall b :: b in s ==> b < 0x80
  }

  lemma {:induction false} AsciiIsUtf8(s: seq<byte>)
    requires Ascii(s)
    ensures Utf8(s)
    decreases |s|
  {
    if s != [] {
      assert s[0] in s && forall b :: b in s[1..] ==> b in s;
      AsciiIsUtf8(s[1..]);
    }
  }

  lemma {:induction false} ChunkInPayload(pre: seq<ReadOutcome>, k: nat)
    requires k < |pre| && pre[k].Chunk?
    ensures forall b :: b in pre[k].data ==> b in Payload(pre)
    decreases k
  {
    if k > 0 {
      ChunkInPayload(pre[1..], k - 1);
    }
  }

  function SingleBytes(msg: seq<byte>): (pre: seq<ReadOutcome>)
    ensures |pre| == |msg| && forall k :: 0 <= k < |msg| ==> pre[k] == Chunk([msg[k]])
    ensures Payload(pre) == msg
  {
    if msg == [] then [] else [Chunk([msg[0]])] + SingleBytes(msg[1..])
  }

  ghost predicate ReadsHowever(msg: seq<byte>) {
    forall pre :: Delivers(pre) && Payload(pre) == msg ==> Drain(pre + [WouldBlock] + [], []).0 == Text(msg)
  }

  lemma AsciiReads(msg: seq<byte>, pre: seq<ReadOutcome>)
    requires Ascii(msg) && Delivers(pre) && Payload(pre) == msg
    ensures Drain(pre + [WouldBlock] + [], []).0 == Text(msg)
  {
    forall k | 0 <= k < |pre| && pre[k].Chunk?
      ensures Utf8(pre[k].data)
    {
      ChunkInPayload(pre, k);
      AsciiIsUtf8(pre[k].data);
    }
    DrainTakesEverything(pre, [], []);
    assert [] + msg == msg;
  }

  lemma CutCharacterGarbles(msg: seq<byte>, b: byte)
    requires b in msg && b >= 0x80
    ensures Delivers(SingleBytes(msg)) && Drain(SingleBytes(msg) + [WouldBlock] + [], []).0 == Garbled
  {
    var pre := SingleBytes(msg);
    var k :| 0 <= k < |msg| && msg[k] == b;
    assert pre[k] == Chunk([b]) && !Utf8([b]);
    DrainGarblesIff(pre, [], []);
  }

  /** A message survives every way of cutting it into chunks exactly when it is plain ASCII:
      a longer character may be cut in two, and then no part of it is UTF-8. */
  lemma ReadsHoweverIff(msg: seq<byte>)
    ensures ReadsHowever(msg) <==> Ascii(msg)
  {
    if Ascii(msg) {
      forall pre | Delivers(pre) && Payload(pre) == msg
        ensures Drain(pre + [WouldBlock] + [], []).0 == Text(msg)
      {
        AsciiReads(msg, pre);
      }
    } else {
      var b :| b in msg && b >= 0x80;
      CutCharacterGarbles(msg, b);
    }
  }

  function Concat(msgs: seq<seq<byte>>): seq<byte>
  {
    if msgs == [] then [] else msgs[0] + Concat(msgs[1..])
  }

  lemma ConcatIsFirstIff(msgs: seq<seq<byte>>)
    requires msgs != [] && forall k :: 0 <= k < |msgs| ==> msgs[k] != []
    ensures Concat(msgs) == msgs[0] <==> |msgs| == 1
  {
    if |msgs| > 1 {
      assert msgs[1..][0] == msgs[1];
      assert |Concat(msgs)| > |msgs[0]|;
    } else {
      assert Concat(msgs) == msgs[0] + [] == msgs[0];
    }
  }

  /** The channel has no framing: with `msgs` unread (none of them empty), a drain hands the handler exactly
      the oldest message if and only if it was the only one and every chunk of it can be read. */
  lemma DrainIsOneMessageIff(pre: seq<ReadOutcome>, post: seq<ReadOutcome>, msgs: seq<seq<byte>>)
    requires msgs != [] && forall k :: 0 <= k < |msgs| ==> msgs[k] != []
    requires Delivers(pre) && Payload(pre) == Concat(msgs)
    ensures Drain(pre + [WouldBlock] + post, []).0 == Text(msgs[0]) <==> |msgs| == 1 && Readable(pre)
  {
    hide Drain, Readable, Delivers, Payload;
    DrainGarblesIff(pre, post, []);
    if Readable(pre) {
      DrainTakesEverything(pre, post, []);
      assert [] + Payload(pre) == Concat(msgs);
      ConcatIsFirstIff(msgs);
    }
  }
}
