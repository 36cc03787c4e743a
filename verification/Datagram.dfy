/** The sequence number at the head of a UDP datagram: `to_be_bytes` into the send buffer
    (src/client.rs) and `from_be_bytes` out of the receive buffer (src/server.rs). */
module Datagram {
  import opened Arithmetic
  import opened Wire

  function Pow256(k: nat): (p: nat)
    ensures p >= 1
  {
    if k == 0 then 1 else 256 * Pow256(k - 1)
  }

  /** `value` as `width` big-endian bytes; digits above the width are dropped. */
  function BigEndian(value: nat, width: nat): (bytes: seq<byte>)
    ensures |bytes| == width
  {
    if width == 0 then [] else BigEndian(value / 256, width - 1) + [value % 256]
  }

  function FromBigEndian(bytes: seq<byte>): nat
  {
    if bytes == [] then 0 else FromBigEndian(bytes[..|bytes| - 1]) * 256 + bytes[|bytes| - 1]
  }

  /** The payload of datagram number `number`: the first `length` bytes of a buffer
      of ones whose first eight bytes hold the number. */
  function DatagramOf(number: nat, length: nat): (bytes: seq<byte>)
    ensures |bytes| == length
  {
    (BigEndian(number, 8) + seq(length, _ => 1))[..length]
  }

  /** What the receiver makes of it: the payload overwrites the front of a buffer
      of zeros, and the first eight bytes of that buffer are the number. */
  function NumberOf(payload: seq<byte>): nat
  {
    FromBigEndian((payload + [0, 0, 0, 0, 0, 0, 0, 0])[..8])
  }

  lemma {:induction false} BigEndianRoundTrip(value: nat, width: nat)
    requires value < Pow256(width)
    ensures FromBigEndian(BigEndian(value, width)) == value
  {
    if width > 0 {
      var bytes := BigEndian(value, width);
      assert bytes[..width - 1] == BigEndian(value / 256, width - 1);
      BigEndianRoundTrip(value / 256, width - 1);
    }
  }

  /** Dropping the low bytes of a number and reading zeros in their place loses the number
      unless the dropped bytes were zero. */
  lemma {:induction false} TruncatedIsExactIff(value: nat, width: nat, kept: nat)
    requires kept <= width && value < Pow256(width)
    ensures var read := FromBigEndian(BigEndian(value, width)[..kept] + seq(width - kept, _ => 0));
            read == value <==> value % Pow256(width - kept) == 0
    decreases width
  {
    var bytes := BigEndian(value, width);
    var read := bytes[..kept] + seq(width - kept, _ => 0);
    if kept == width {
      assert read == bytes;
      BigEndianRoundTrip(value, width);
    } else {
      var init := BigEndian(value / 256, width - 1);
      assert read[..width - 1] == init[..kept] + seq(width - 1 - kept, _ => 0);
      TruncatedIsExactIff(value / 256, width - 1, kept);
      DigitDivides(value, Pow256(width - 1 - kept));
    }
  }

  lemma DigitDivides(value: nat, p: nat)
    requires p >= 1
    ensures value % (256 * p) == 0 <==> value % 256 == 0 && (value / 256) % p == 0
  {
    var q, r := value / 256, value % 256;
    var a, b := q / p, q % p;
    assert value == 256 * (p * a + b) + r;
    assert 256 * (p * a + b) + r == (256 * p) * a + (256 * b + r);
    assert 0 <= 256 * b + r < 256 * p;
    RemainderIsUnique(value, 256 * p, a, 256 * b + r);
  }

  /** A datagram carries its number intact exactly when it is at least eight bytes long
      or the bytes that were cut off are zero. */
  lemma NumberSurvivesIff(number: nat, length: nat)
    requires number < Pow256(8)
    ensures NumberOf(DatagramOf(number, length)) == number <==> length >= 8 || number % Pow256(8 - length) == 0
  {
    var kept := if length < 8 then length else 8;
    var head := BigEndian(number, 8);
    assert (DatagramOf(number, length) + [0, 0, 0, 0, 0, 0, 0, 0])[..8] == head[..kept] + seq(8 - kept, _ => 0);
    TruncatedIsExactIff(number, 8, kept);
    if length >= 8 {
      assert Pow256(0) == 1 && number % 1 == 0;
    }
  }
}
