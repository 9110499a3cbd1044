/**
  Stream and message buffers (stream_buffer.c) used by one task at a time: a ring
  of bytes, and the length-prefixed framing of messages on top of it.
  StreamInterleaving.dfy treats a writer and a reader that run concurrently.
 */
module StreamBuffers {
  import opened Rings

  type Byte = b: nat | b < 256

  // size_t is 32 bits wide; sizeof( configMESSAGE_BUFFER_LENGTH_TYPE ) is that of size_t.
  const SIZES: nat := 0x1_0000_0000
  const LENGTH_BYTES: nat := 4

  /** The value of a 32-bit sum or difference. */
  function U32(x: int): (r: nat)
    requires -0x1_0000_0000 <= x < 2 * 0x1_0000_0000
    ensures r < SIZES
  {
    if x < 0 then x + 0x1_0000_0000 else if x >= 0x1_0000_0000 then x - 0x1_0000_0000 else x
  }

  type Size = n: nat | n < 0x1_0000_0000

  /** xStreamBufferSpacesAvailable, in 32-bit arithmetic */
  function SpacesAvailable(length: Size, head: Size, tail: Size): nat {
    var space := U32(U32(U32(length + tail) - head) - 1);
    if space >= length then U32(space - length) else space
  }

  /** prvBytesInBuffer */
  function BytesInBuffer(length: Size, head: Size, tail: Size): nat {
    var count := U32(U32(length + head) - tail);
    if count >= length then U32(count - length) else count
  }

  /** Up to 2^31 neither count wraps: they are the distances round the ring, and never sum to more than length - 1. */
  lemma CountsAreDistances(length: nat, head: nat, tail: nat)
    requires head < length <= 0x8000_0000 && tail < length
    ensures BytesInBuffer(length, head, tail) < length
    ensures head == Slot(tail + BytesInBuffer(length, head, tail), length)
    ensures BytesInBuffer(length, head, tail) + SpacesAvailable(length, head, tail) == length - 1
  {
  }

  /** How far head is ahead of tail, round the ring. */
  function Distance(length: nat, head: nat, tail: nat): nat
    requires head < length && tail < length
  {
    if head >= tail then head - tail else length + head - tail
  }

  /** The 32-bit count is that distance unless the sum it starts from does not fit. */
  lemma CountIsDistanceIff(length: Size, head: Size, tail: Size)
    requires head < length && tail < length
    ensures BytesInBuffer(length, head, tail) == Distance(length, head, tail) <==> length + head - tail < SIZES
  {
  }

  ghost predicate CountsRight(length: Size) {
    forall head: Size, tail: Size :: head < length && tail < length ==>
      BytesInBuffer(length, head, tail) == Distance(length, head, tail)
  }

  /** So it is right for every fill of a buffer if and only if the buffer is at most 2^31 bytes long. */
  lemma CountsRightIff(length: Size)
    requires length > 0
    ensures CountsRight(length) <==> length <= 0x8000_0000
  {
    if length > 0x8000_0000 {
      CountIsDistanceIff(length, length - 1, 0);
    } else {
      forall head: Size, tail: Size | head < length && tail < length
        ensures BytesInBuffer(length, head, tail) == Distance(length, head, tail)
      {
        CountIsDistanceIff(length, head, tail);
      }
    }
  }

  lemma HeadMoves(length: nat, head: nat, tail: nat, c: nat)
    requires head < length <= 0x8000_0000 && tail < length && c <= SpacesAvailable(length, head, tail)
    ensures head + c < 2 * length
    ensures BytesInBuffer(length, Slot(head + c, length), tail) == BytesInBuffer(length, head, tail) + c
  {
  }

  lemma TailMoves(length: nat, head: nat, tail: nat, c: nat)
    requires head < length <= 0x8000_0000 && tail < length && c <= BytesInBuffer(length, head, tail)
    ensures tail + c < 2 * length
    ensures BytesInBuffer(length, head, Slot(tail + c, length)) == BytesInBuffer(length, head, tail) - c
  {
  }

  // ----- framing ------------------------------------------------------------------------------

  /** The bytes of a 32-bit length in memory, least significant first. */
  function LengthBytes(n: nat): (s: seq<Byte>)
    ensures |s| == LENGTH_BYTES
  {
    [n % 256, n / 256 % 256, n / 256 / 256 % 256, n / 256 / 256 / 256 % 256]
  }

  function LengthOf(s: seq<Byte>): nat
    requires |s| == LENGTH_BYTES
  {
    var a: nat, b: nat, c: nat, d: nat := s[0], s[1], s[2], s[3];
    a + 256 * (b + 256 * (c + 256 * d))
  }

  lemma LengthRoundTrip(n: nat)
    requires n < 0x1_0000_0000
    ensures LengthOf(LengthBytes(n)) == n
  {
    var a := n / 256;
    var b := a / 256;
    var c := b / 256;
    assert n == 256 * a + n % 256 && a == 256 * b + a % 256 && b == 256 * c + b % 256;
  }

  function Record(m: seq<Byte>): seq<Byte> {
    LengthBytes(|m|) + m
  }

  /** What a message buffer holds: each message with its length in front, oldest first. */
  function Records(ms: seq<seq<Byte>>): seq<Byte> {
    if |ms| == 0 then [] else Record(ms[0]) + Records(ms[1..])
  }

  lemma {:induction false} RecordsAppend(ms: seq<seq<Byte>>, m: seq<Byte>)
    ensures Records(ms + [m]) == Records(ms) + Record(m)
  {
    if |ms| == 0 {
      assert ms + [m] == [m];
      assert Records([m]) == Record(m) + Records([]);
    } else {
      RecordsAppend(ms[1..], m);
      assert (ms + [m])[1..] == ms[1..] + [m];
      assert Record(ms[0]) + (Records(ms[1..]) + Record(m)) == Record(ms[0]) + Records(ms[1..]) + Record(m);
    }
  }

  /** The first record can be read off the bytes, wherever they lie. */
  lemma FirstRecord(ms: seq<seq<Byte>>)
    requires |ms| > 0 && |ms[0]| < 0x1_0000_0000
    ensures var s := Records(ms); var n := |ms[0]|;
      && LENGTH_BYTES + n <= |s| && LengthOf(s[..LENGTH_BYTES]) == n
      && s[LENGTH_BYTES..][..n] == ms[0] && s[LENGTH_BYTES..][n..] == Records(ms[1..])
  {
    var s := Records(ms);
    LengthRoundTrip(|ms[0]|);
    assert s[..LENGTH_BYTES] == LengthBytes(|ms[0]|);
    assert s[LENGTH_BYTES..] == ms[0] + Records(ms[1..]);
  }

  /**
    The receiver's test, more bytes than one length, finds every message there
    is with one exception: a lone empty message, whose sender was also told that
    nothing was written.
   */
  lemma MoreThanALength(ms: seq<seq<Byte>>)
    ensures |Records(ms)| > LENGTH_BYTES <==> |ms| > 0 && ms != [[]]
  {
    if |ms| == 1 && ms[0] == [] {
      assert ms == [[]];
    } else if |ms| > 1 {
      assert |Records(ms[1..])| >= LENGTH_BYTES;
    }
  }

  // ----- the buffer ---------------------------------------------------------------------------

  class StreamBuffer {
    const length: Size
    const buffer: array<Byte>
    const isMessageBuffer: bool
    var head: nat
    var tail: nat
    ghost var messages: seq<seq<Byte>>    // what a message buffer holds

    ghost predicate Ring()
      reads this
    {
      0 < length <= 0x8000_0000 && buffer.Length == length && head < length && tail < length
    }

    ghost function Contents(): seq<Byte>
      reads this, buffer
      requires Ring()
    {
      CountsAreDistances(length, head, tail);
      Round(buffer[..], tail, BytesInBuffer(length, head, tail))
    }

    ghost predicate Valid()
      reads this, buffer
    {
      && Ring()
      && (isMessageBuffer ==> Contents() == Records(messages) && forall i :: 0 <= i < |messages| ==> |messages[i]| < 0x1_0000_0000)
    }

    /** xStreamBufferGenericCreate: one byte more than asked for, so that all of it can be used */
    constructor (size: nat, isMessageBuffer: bool)
      requires 0 < size <= 0x7FFF_FFFF
      ensures Valid() && fresh(buffer) && Contents() == [] && messages == []
      ensures length == size + 1 && this.isMessageBuffer == isMessageBuffer
    {
      length := size + 1;
      buffer := new Byte[size + 1](_ => 0);
      this.isMessageBuffer := isMessageBuffer;
      head, tail, messages := 0, 0, [];
    }

    /** memcpy to &pucBuffer[ at ] */
    method CopyIn(at: nat, d: seq<Byte>)
      requires at + |d| <= buffer.Length
      modifies buffer
      ensures buffer[..] == Spliced(old(buffer[..]), at, d)
    {
      for i := 0 to |d|
        invariant forall j :: 0 <= j < buffer.Length ==> buffer[j] == if at <= j < at + i then d[j - at] else old(buffer[j])
      {
        buffer[at + i] := d[i];
      }
    }

    /** prvWriteBytesToBuffer */
    method WriteBytes(d: seq<Byte>)
      requires Ring() && |d| <= SpacesAvailable(length, head, tail)
      modifies this`head, buffer
      ensures Ring() && Contents() == old(Contents()) + d
    {
      hide Round, BytesInBuffer, SpacesAvailable, Spliced;
      CountsAreDistances(length, head, tail);
      HeadMoves(length, head, tail, |d|);
      WrittenInTwo(buffer[..], tail, BytesInBuffer(length, head, tail), d);
      var nextHead := head;
      var firstLength := if length - nextHead < |d| then length - nextHead else |d|;
      CopyIn(nextHead, d[..firstLength]);
      if |d| > firstLength {
        CopyIn(0, d[firstLength..]);
      } else {
        assert d[firstLength..] == [];
      }
      nextHead := nextHead + |d|;
      if nextHead >= length {
        nextHead := nextHead - length;
      }
      head := nextHead;
    }

    /** The two memcpy of prvReadBytesFromBuffer */
    method CopyOut(count: nat) returns (d: seq<Byte>)
      requires Ring() && count <= BytesInBuffer(length, head, tail)
      ensures count <= |Contents()| && d == Contents()[..count]
    {
      hide BytesInBuffer;
      CountsAreDistances(length, head, tail);
      ReadInTwo(buffer[..], tail, BytesInBuffer(length, head, tail), count);
      hide Round;
      var firstLength := if length - tail < count then length - tail else count;
      d := buffer[tail..tail + firstLength];
      if count > firstLength {
        d := d + buffer[..count - firstLength];
      }
    }

    method MoveTail(count: nat)
      requires Ring() && count <= BytesInBuffer(length, head, tail)
      modifies this`tail
      ensures Ring() && count <= |old(Contents())| && Contents() == old(Contents())[count..]
    {
      hide Round, BytesInBuffer;
      CountsAreDistances(length, head, tail);
      StartedLater(buffer[..], tail, BytesInBuffer(length, head, tail), count);
      TailMoves(length, head, tail, count);
      tail := tail + count;
      if tail >= length {
        tail := tail - length;
      }
    }

    /** prvReadBytesFromBuffer */
    method ReadBytes(maxCount: nat, bytesAvailable: nat) returns (d: seq<Byte>)
      requires Ring() && bytesAvailable <= BytesInBuffer(length, head, tail)
      modifies this`tail
      ensures Ring()
      ensures |d| == if bytesAvailable < maxCount then bytesAvailable else maxCount
      ensures d == old(Contents())[..|d|] && Contents() == old(Contents())[|d|..]
    {
      hide Contents, BytesInBuffer;
      var count := if bytesAvailable < maxCount then bytesAvailable else maxCount;
      if count > 0 {
        d := CopyOut(count);
        MoveTail(count);
      } else {
        d := [];
      }
    }

    /** prvWriteMessageToBuffer, given the space found and the space required */
    method WriteMessage(m: seq<Byte>, space: nat, requiredSpace: nat) returns (written: nat)
      requires Valid() && space == SpacesAvailable(length, head, tail) && |m| + LENGTH_BYTES < 0x1_0000_0000
      requires isMessageBuffer ==> requiredSpace == |m| + LENGTH_BYTES
      modifies this`head, this`messages, buffer
      ensures Valid()
      ensures if isMessageBuffer then
                (if |m| + LENGTH_BYTES <= space then written == |m| && messages == old(messages) + [m]
                 else written == 0 && messages == old(messages))
              else
                written == (if |m| < space then |m| else space)
                && Contents() == old(Contents()) + m[..written] && messages == old(messages)
    {
      hide Round, SpacesAvailable, BytesInBuffer;
      var shouldWrite, d := false, m;
      CountsAreDistances(length, head, tail);
      if space == 0 {
        shouldWrite := false;
      } else if !isMessageBuffer {
        shouldWrite := true;
        d := if |m| < space then m else m[..space];
      } else if space >= requiredSpace {
        shouldWrite := true;
        WriteBytes(LengthBytes(|m|));
        CountsAreDistances(length, head, tail);
      }
      if shouldWrite {
        WriteBytes(d);
        written := |d|;
        if isMessageBuffer {
          RecordsAppend(messages, m);
          messages := messages + [m];
          assert old(Contents()) + LengthBytes(|m|) + m == old(Contents()) + Record(m);
        }
      } else {
        written := 0;
      }
    }

    /** xStreamBufferSend with nothing left to wait for */
    method Send(m: seq<Byte>) returns (written: nat)
      requires Valid() && |m| + LENGTH_BYTES < 0x1_0000_0000
      modifies this`head, this`messages, buffer
      ensures Valid()
      ensures var space := length - 1 - |old(Contents())|;
        if isMessageBuffer then
          (if |m| + LENGTH_BYTES <= space then written == |m| && messages == old(messages) + [m]
           else written == 0 && messages == old(messages))
        else
          written == (if |m| < space then |m| else space)
          && Contents() == old(Contents()) + m[..written] && messages == old(messages)
    {
      CountsAreDistances(length, head, tail);
      var requiredSpace := |m|;
      if isMessageBuffer {
        requiredSpace := requiredSpace + LENGTH_BYTES;
      } else if requiredSpace > length - 1 {
        requiredSpace := length - 1;
      }
      var space := SpacesAvailable(length, head, tail);
      written := WriteMessage(m, space, requiredSpace);
    }

    /** The length at the front of a message buffer, and the bytes after it */
    method ReadLength(bytesAvailable: nat) returns (n: nat)
      requires Valid() && isMessageBuffer && bytesAvailable == |Contents()| && bytesAvailable > LENGTH_BYTES
      modifies this`tail
      ensures Ring() && |messages| > 0 && n == |messages[0]|
      ensures Contents() == old(Contents())[LENGTH_BYTES..] && |Contents()| == bytesAvailable - LENGTH_BYTES
      ensures n <= |Contents()| && Contents()[..n] == messages[0] && Contents()[n..] == Records(messages[1..])
    {
      hide Round, BytesInBuffer;
      FirstRecord(messages);
      var d := ReadBytes(LENGTH_BYTES, bytesAvailable);
      n := LengthOf(d);
    }

    /** prvReadMessageFromBuffer */
    method ReadMessage(bufferLength: nat, available: nat, bytesToStoreMessageLength: nat) returns (d: seq<Byte>)
      requires Valid() && available == |Contents()|
      requires bytesToStoreMessageLength == if isMessageBuffer then LENGTH_BYTES else 0
      requires available > bytesToStoreMessageLength
      modifies this`tail, this`messages
      ensures Valid()
      ensures isMessageBuffer ==>
        |old(messages)| > 0
        && if |old(messages)[0]| <= bufferLength then d == old(messages)[0] && messages == old(messages)[1..]
           else d == [] && messages == old(messages) && Contents() == old(Contents())
      ensures !isMessageBuffer ==>
        |d| == (if available < bufferLength then available else bufferLength)
        && d == old(Contents())[..|d|] && Contents() == old(Contents())[|d|..]
    {
      hide Round, BytesInBuffer;
      var bytesAvailable := available;
      var nextMessageLength := bufferLength;
      if bytesToStoreMessageLength != 0 {
        var originalTail := tail;
        nextMessageLength := ReadLength(bytesAvailable);
        bytesAvailable := bytesAvailable - bytesToStoreMessageLength;
        if nextMessageLength > bufferLength {
          tail := originalTail;
          nextMessageLength := 0;
        } else {
          messages := messages[1..];
        }
      }
      d := ReadBytes(nextMessageLength, bytesAvailable);
    }

    /** xStreamBufferReceive with nothing left to wait for */
    method Receive(bufferLength: nat) returns (d: seq<Byte>)
      requires Valid()
      modifies this`tail, this`messages
      ensures Valid()
      ensures isMessageBuffer ==>
        if |old(Contents())| > LENGTH_BYTES && |old(messages)[0]| <= bufferLength then d == old(messages)[0] && messages == old(messages)[1..]
        else d == [] && messages == old(messages) && Contents() == old(Contents())
      ensures !isMessageBuffer ==>
        |d| == (if |old(Contents())| < bufferLength then |old(Contents())| else bufferLength)
        && d == old(Contents())[..|d|] && Contents() == old(Contents())[|d|..]
    {
      var bytesToStoreMessageLength := if isMessageBuffer then LENGTH_BYTES else 0;
      CountsAreDistances(length, head, tail);
      var bytesAvailable := BytesInBuffer(length, head, tail);
      if bytesAvailable > bytesToStoreMessageLength {
        d := ReadMessage(bufferLength, bytesAvailable, bytesToStoreMessageLength);
      } else {
        d := [];
      }
    }

    /** xStreamBufferNextMessageLengthBytes: the tail is put back */
    method NextMessageLength() returns (n: nat)
      requires Valid()
      modifies this`tail
      ensures Valid() && tail == old(tail)
      ensures n == if isMessageBuffer && |Contents()| > LENGTH_BYTES then |messages[0]| else 0
    {
      if isMessageBuffer {
        CountsAreDistances(length, head, tail);
        var bytesAvailable := BytesInBuffer(length, head, tail);
        if bytesAvailable > LENGTH_BYTES {
          var originalTail := tail;
          n := ReadLength(bytesAvailable);
          tail := originalTail;
        } else {
          n := 0;
        }
      } else {
        n := 0;
      }
    }
  }
}
