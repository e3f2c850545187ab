/**
 * The WebSocket framing the chat server implements by hand: single
 * unfragmented text frames, sent unmasked, received masked
 * (sections 5.2 and 5.3 of RFC 6455).
 */
module FrameCodec {
  import opened Wrappers
  import opened Bytes

  /** FIN set and opcode 1 (text): the first byte of every frame sent. */
  const FinText: byte := 0x81

  lemma Pow256Values()
    ensures Pow256(1) == 256 && Pow256(2) == 65536
    ensures Pow256(8) == 18446744073709551616
  {
    assert Pow256(1) == 256;
    assert Pow256(2) == 65536;
    assert Pow256(3) == 16777216;
    assert Pow256(4) == 4294967296;
    assert Pow256(5) == 1099511627776;
    assert Pow256(6) == 281474976710656;
    assert Pow256(7) == 72057594037927936;
  }

  /** Header size of an unmasked frame carrying `n` payload bytes. */
  function HeaderSize(n: nat): nat {
    if n <= 125 then 2 else if n <= 65535 then 4 else 10
  }

  /**
   * `send_websocket_frame`: the byte 0x81, the payload length in 7 bits,
   * or 126 and 16 big-endian bits, or 127 and 64 big-endian bits, then the
   * payload itself. A payload of 2^64 bytes or more makes
   * `struct.pack('>Q')` raise, which the sender swallows: nothing is sent.
   */
  function EncodeTextFrame(message: seq<byte>): (frame: Option<seq<byte>>)
    ensures frame.Some? <==> |message| < Pow256(8)
    ensures frame.Some? ==>
      var f := frame.value;
      var n := |message|;
      var h := HeaderSize(n);
      && |f| == h + n
      && f[0] == FinText
      && f[h..] == message
      && (n <= 125 ==> f[1] as nat == n)
      && (125 < n <= 65535 ==> f[1] == 126 && FromBigEndian(f[2..4]) == n)
      && (65535 < n ==> f[1] == 127 && FromBigEndian(f[2..10]) == n)
  {
    Pow256Values();
    var n := |message|;
    if n >= Pow256(8) then None
    else if n <= 125 then
      var f := [FinText, n as byte] + message;
      assert f[1] as nat == n && f[2..] == message;
      Some(f)
    else if n <= 65535 then
      var f := [FinText, 126] + ToBigEndian(n, 2) + message;
      assert f[2..4] == ToBigEndian(n, 2);
      Some(f)
    else
      var f := [FinText, 127] + ToBigEndian(n, 8) + message;
      assert f[2..10] == ToBigEndian(n, 8);
      Some(f)
  }

  /**
   * The frame assembly of `send_websocket_frame`, appending the pieces in
   * the source's order; None where `struct.pack('>Q')` raises.
   */
  method BuildTextFrame(message: seq<byte>) returns (frame: Option<seq<byte>>)
    ensures frame == EncodeTextFrame(message)
  {
    Pow256Values();
    var length := |message|;
    var f: seq<byte> := [FinText];
    if length <= 125 {
      f := f + [length as byte];
      f := f + message;
      assert f == [FinText, length as byte] + message;
    } else if length <= 65535 {
      f := f + [126];
      f := f + ToBigEndian(length, 2);
      f := f + message;
      assert f == [FinText, 126] + ToBigEndian(length, 2) + message;
    } else {
      if length >= Pow256(8) {
        return None;
      }
      f := f + [127];
      f := f + ToBigEndian(length, 8);
      f := f + message;
      assert f == [FinText, 127] + ToBigEndian(length, 8) + message;
    }
    frame := Some(f);
  }

  /** Byte `i` of `data` XOR-ed with `key[i % 4]`. */
  function Unmask(data: seq<byte>, key: seq<byte>): seq<byte>
    requires |key| == 4 || data == []
  {
    seq(|data|, i requires 0 <= i < |data| => Xor(data[i], key[i % 4]))
  }

  /** Masking twice with the same key gives the data back. */
  lemma UnmaskTwice(data: seq<byte>, key: seq<byte>)
    requires |key| == 4
    ensures Unmask(Unmask(data, key), key) == data
  {
    var once := Unmask(data, key);
    forall i | 0 <= i < |data|
      ensures Unmask(once, key)[i] == data[i]
    {
      XorTwice(data[i], key[i % 4]);
    }
  }

  /** How many extended-length bytes the 7-bit length field announces. */
  function ExtendedLengthSize(len7: nat): nat {
    if len7 == 126 then 2 else if len7 == 127 then 8 else 0
  }

  /** What one call of `receive_websocket_frame` returns and leaves unread. */
  datatype FrameRead = FrameRead(payload: Option<seq<byte>>, rest: seq<byte>)

  /**
   * The two header bytes and the extended length: the declared payload
   * length and the input after the length field, or None when the stream
   * ends first. The first byte and the MASK bit are not inspected.
   */
  function DecodeLength(input: seq<byte>): (r: Option<(nat, seq<byte>)>)
    ensures r.Some? ==> |r.value.1| + 2 <= |input| && r.value.1 == input[|input| - |r.value.1|..]
    ensures |input| < 2 ==> r.None?
  {
    if |input| < 2 then None
    else
      var len7 := Low7(input[1]);
      var ext := ExtendedLengthSize(len7);
      if |input| < 2 + ext then None
      else Some((if ext == 0 then len7 else FromBigEndian(input[2..2 + ext]), input[2 + ext..]))
  }

  /**
   * The four mask-key bytes and `length` payload bytes, unmasked; a stream
   * that ends early gives what arrived.
   */
  function DecodePayload(s: seq<byte>, length: nat): (r: FrameRead)
    ensures r.payload.Some? && |r.payload.value| == Min(length, if |s| < 4 then 0 else |s| - 4)
    ensures |r.rest| <= |s| && r.rest == s[|s| - |r.rest|..]
  {
    var keyEnd := Min(4, |s|);
    var payloadEnd := Min(keyEnd + length, |s|);
    FrameRead(Some(Unmask(s[keyEnd..payloadEnd], s[..keyEnd])), s[payloadEnd..])
  }

  /**
   * `receive_websocket_frame` on the remaining input `input`, with the
   * UTF-8 decoding left to the caller: a short header or extended length
   * gives None; a stream that ends inside the payload gives the bytes
   * received so far.
   */
  function DecodeFrame(input: seq<byte>): (r: FrameRead)
    ensures |r.rest| <= |input| && r.rest == input[|input| - |r.rest|..]
    ensures input != [] ==> |r.rest| < |input|
    ensures r.payload.Some? <==> DecodeLength(input).Some?
  {
    match DecodeLength(input)
    case None => FrameRead(None, [])
    case Some((length, afterLength)) => DecodePayload(afterLength, length)
  }

  /**
   * The reading loop of `receive_websocket_frame`: header, extended
   * length, mask key, then payload reads until the declared length is
   * reached or the peer closes, then the unmasking loop.
   */
  method ReceiveFrame(input: seq<byte>) returns (payload: Option<seq<byte>>, rest: seq<byte>)
    ensures FrameRead(payload, rest) == DecodeFrame(input)
  {
    var length;
    length, rest := ReadLength(input);
    if length.None? {
      return None, rest;
    }
    payload, rest := ReadMaskedPayload(rest, length.value);
  }

  /** The header read and the 16- or 64-bit extended length. */
  method ReadLength(input: seq<byte>) returns (length: Option<nat>, rest: seq<byte>)
    ensures length.None? ==> DecodeLength(input).None? && rest == []
    ensures length.Some? ==> DecodeLength(input) == Some((length.value, rest))
  {
    var header := Recv(input, 2).0;
    rest := Recv(input, 2).1;
    if |header| < 2 {
      return None, rest;
    }
    assert header == input[..2] && rest == input[2..];
    var len7 := Low7(header[1]);
    if len7 == 126 {
      var extended := Recv(rest, 2).0;
      rest := Recv(rest, 2).1;
      if |extended| < 2 {
        // struct.unpack raises on a short buffer; the receiver returns None
        return None, rest;
      }
      assert extended == input[2..4] && rest == input[4..];
      return Some(FromBigEndian(extended)), rest;
    } else if len7 == 127 {
      var extended := Recv(rest, 8).0;
      rest := Recv(rest, 8).1;
      if |extended| < 8 {
        return None, rest;
      }
      assert extended == input[2..10] && rest == input[10..];
      return Some(FromBigEndian(extended)), rest;
    }
    return Some(len7), rest;
  }

  /** The mask-key read, the payload loop and the unmasking loop. */
  method ReadMaskedPayload(stream: seq<byte>, length: nat) returns (payload: Option<seq<byte>>, rest: seq<byte>)
    ensures FrameRead(payload, rest) == DecodePayload(stream, length)
  {
    var key;
    key, rest := ReadKey(stream);
    ghost var keyEnd := |key|;
    var received;
    received, rest := ReadPayload(rest, length);
    PayloadSlices(stream, keyEnd, length);
    var unmasked := UnmaskPayload(received, key);
    payload := Some(unmasked);
  }

  /** The mask-key read: up to four bytes. */
  method ReadKey(stream: seq<byte>) returns (key: seq<byte>, rest: seq<byte>)
    ensures |key| == Min(4, |stream|)
    ensures key == stream[..|key|] && rest == stream[|key|..]
  {
    key := Recv(stream, 4).0;
    rest := Recv(stream, 4).1;
  }

  lemma PayloadSlices(stream: seq<byte>, keyEnd: nat, length: nat)
    requires keyEnd <= |stream|
    ensures var k := Min(length, |stream| - keyEnd);
            && stream[keyEnd..][..k] == stream[keyEnd..Min(keyEnd + length, |stream|)]
            && stream[keyEnd..][k..] == stream[Min(keyEnd + length, |stream|)..]
  {
  }

  /**
   * The payload loop: read until `length` bytes have arrived or the peer
   * closes; partial reads are collected.
   */
  method ReadPayload(stream: seq<byte>, length: nat) returns (received: seq<byte>, rest: seq<byte>)
    ensures received == stream[..Min(length, |stream|)]
    ensures rest == stream[Min(length, |stream|)..]
  {
    received, rest := [], stream;
    while |received| < length
      invariant |received| <= length && |received| <= |stream|
      invariant received == stream[..|received|] && rest == stream[|received|..]
      invariant |received| < length && received != [] ==> rest == []
      decreases length - |received|
    {
      var want := length - |received|;
      var chunk := Recv(rest, want).0;
      ghost var k := Min(want, |rest|);
      assert chunk == stream[|received|..|received| + k];
      rest := Recv(rest, want).1;
      if chunk == [] {
        break;
      }
      received := received + chunk;
    }
  }

  /** The unmasking loop: byte `i` XOR-ed with `key[i % 4]`. */
  method UnmaskPayload(received: seq<byte>, key: seq<byte>) returns (unmasked: seq<byte>)
    requires |key| == 4 || received == []
    ensures unmasked == Unmask(received, key)
  {
    unmasked := [];
    for i := 0 to |received|
      invariant unmasked == Unmask(received[..i], key)
    {
      unmasked := unmasked + [Xor(received[i], key[i % 4])];
    }
    assert received[..|received|] == received;
  }

  /**
   * The header a client puts before the mask key for `message`: the
   * server's header for it with the MASK bit set.
   */
  function ClientHeader(message: seq<byte>): seq<byte>
    requires |message| < Pow256(8)
  {
    var f := EncodeTextFrame(message).value;
    [f[0], SetHigh(f[1])] + f[2..HeaderSize(|message|)]
  }

  /**
   * What a client sends for `message` under mask `key`: the client header,
   * the key, and the payload masked.
   */
  function ClientFrame(message: seq<byte>, key: seq<byte>): seq<byte>
    requires |message| < Pow256(8) && |key| == 4
  {
    ClientHeader(message) + key + Unmask(message, key)
  }

  /** The length field of a client header announces the message length; the key follows it. */
  lemma {:induction false} DecodeLengthAfterClientHeader(message: seq<byte>, rest: seq<byte>)
    requires |message| < Pow256(8)
    ensures DecodeLength(ClientHeader(message) + rest) == Some((|message|, rest))
  {
    Pow256Values();
    var f := EncodeTextFrame(message).value;
    var n := |message|;
    var h := HeaderSize(n);
    var input := ClientHeader(message) + rest;
    assert input[1] == SetHigh(f[1]);
    assert input[2..h] == f[2..h];
    assert input[h..] == rest;
    if n <= 125 {
      assert Low7(input[1]) == n;
    } else if n <= 65535 {
      assert input[2..4] == f[2..4];
    } else {
      assert input[2..10] == f[2..10];
    }
  }

  /**
   * After a client header announcing `|message|` bytes and a mask key, the
   * decoder takes as many of the following bytes as are announced, or all
   * of them when fewer arrive, and unmasks them.
   */
  lemma DecodeAfterClientHeader(message: seq<byte>, key: seq<byte>, tail: seq<byte>)
    requires |message| < Pow256(8) && |key| == 4
    ensures var k := Min(|message|, |tail|);
            DecodeFrame(ClientHeader(message) + key + tail)
            == FrameRead(Some(Unmask(tail[..k], key)), tail[k..])
  {
    assert ClientHeader(message) + key + tail == ClientHeader(message) + (key + tail);
    DecodeLengthAfterClientHeader(message, key + tail);
    DecodePayloadAfterKey(key, tail, |message|);
  }

  lemma DecodePayloadAfterKey(key: seq<byte>, tail: seq<byte>, length: nat)
    requires |key| == 4
    ensures var k := Min(length, |tail|);
            DecodePayload(key + tail, length) == FrameRead(Some(Unmask(tail[..k], key)), tail[k..])
  {
    var s := key + tail;
    var k := Min(length, |tail|);
    assert s[..4] == key;
    assert s[4..4 + k] == tail[..k];
    assert s[4 + k..] == tail[k..];
  }

  /**
   * Round trip: decoding a masked client frame for `message` gives
   * `message` back and leaves whatever follows the frame unread.
   */
  lemma {:induction false} DecodeClientFrame(message: seq<byte>, key: seq<byte>, more: seq<byte>)
    requires |message| < Pow256(8) && |key| == 4
    ensures DecodeFrame(ClientFrame(message, key) + more) == FrameRead(Some(message), more)
  {
    var masked := Unmask(message, key);
    var tail := masked + more;
    assert ClientFrame(message, key) + more == ClientHeader(message) + key + tail;
    DecodeAfterClientHeader(message, key, tail);
    assert tail[..|message|] == masked;
    assert tail[|message|..] == more;
    UnmaskTwice(message, key);
  }

  /** Unmasking commutes with taking a prefix. */
  lemma UnmaskPrefix(data: seq<byte>, key: seq<byte>, k: nat)
    requires |key| == 4 && k <= |data|
    ensures Unmask(data[..k], key) == Unmask(data, key)[..k]
  {
  }

  lemma PrefixOfConcat(a: seq<byte>, b: seq<byte>, k: nat)
    requires k <= |b|
    ensures (a + b)[..|a| + k] == a + b[..k]
  {
  }

  /**
   * A client frame cut off inside its payload decodes to the payload bytes
   * that did arrive, unmasked, and leaves nothing unread.
   */
  lemma DecodeTruncatedClientFrame(message: seq<byte>, key: seq<byte>, got: nat)
    requires |message| < Pow256(8) && |key| == 4
    requires got <= |message|
    ensures var frame := ClientFrame(message, key);
            DecodeFrame(frame[..|frame| - |message| + got]) == FrameRead(Some(message[..got]), [])
  {
    var masked := Unmask(message, key);
    var head := ClientHeader(message) + key;
    assert ClientFrame(message, key) == head + masked;
    var frame := ClientFrame(message, key);
    var tail := masked[..got];
    assert |frame| - |message| + got == |head| + got;
    PrefixOfConcat(head, masked, got);
    DecodeAfterClientHeader(message, key, tail);
    assert tail[..Min(|message|, got)] == tail && tail[got..] == [];
    UnmaskPrefix(masked, key, got);
    UnmaskTwice(message, key);
  }
}
