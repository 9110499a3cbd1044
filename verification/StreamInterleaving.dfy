/**
  A stream buffer with one writer and one reader that run concurrently without a
  lock (stream_buffer.c, stream mode): interleaved at every read of the other
  side's index, every byte copied, in whatever order memcpy copies them, and
  every index published.
 */
module StreamInterleaving {
  import opened Rings
  import opened StreamBuffers

  datatype Writer =
    | WriterIdle
    | SawTail(m: seq<Byte>, tailSeen: Size)             // xStreamBufferSpacesAvailable has read xTail
    | Writing(d: seq<Byte>, copied: set<nat>)           // prvWriteBytesToBuffer, before xHead is published

  datatype Reader =
    | ReaderIdle
    | SawHead(wanted: nat, headSeen: Size)              // prvBytesInBuffer has read xHead
    | Reading(count: nat, out: map<nat, Byte>)          // prvReadBytesFromBuffer, before xTail is published

  datatype System = System(
    length: Size,
    buffer: seq<Byte>,
    head: Size,
    tail: Size,
    writer: Writer,
    reader: Reader,
    published: seq<Byte>,     // every byte the writer has published
    received: seq<Byte>       // every byte the reader has taken and published
  )

  datatype Event =
    | WriterReadsTail(m: seq<Byte>)
    | WriterStarts
    | WriterCopies(i: nat)
    | WriterPublishes
    | ReaderReadsHead(wanted: nat)
    | ReaderStarts
    | ReaderCopies(i: nat)
    | ReaderPublishes

  ghost predicate Ring(s: System) {
    0 < s.length <= 0x8000_0000 && |s.buffer| == s.length && s.head < s.length && s.tail < s.length
  }

  function Used(s: System): nat {
    BytesInBuffer(s.length, s.head, s.tail)
  }

  function Free(s: System): nat {
    SpacesAvailable(s.length, s.head, s.tail)
  }

  /** The bytes published and not yet received. */
  ghost function Unread(s: System): seq<Byte>
    requires Ring(s)
  {
    CountsAreDistances(s.length, s.head, s.tail);
    Round(s.buffer, s.tail, Used(s))
  }

  function Min(a: nat, b: nat): nat {
    if a < b then a else b
  }

  function Advanced(k: nat, n: nat, length: nat): nat {
    if k + n >= length then k + n - length else k + n
  }

  /** The caller's buffer, once every byte has been copied. */
  function Copied(out: map<nat, Byte>, n: nat): (d: seq<Byte>)
    requires forall i: nat :: i < n ==> i in out
    ensures |d| == n && forall i: nat :: i < n ==> d[i] == out[i]
  {
    seq(n, i requires 0 <= i < n => out[i])
  }

  predicate Enabled(s: System, e: Event) {
    match e
    case WriterReadsTail(_) => s.writer.WriterIdle?
    case WriterStarts => s.writer.SawTail?
    case WriterCopies(i) => s.writer.Writing? && i < |s.writer.d|
    case WriterPublishes => s.writer.Writing? && forall i :: 0 <= i < |s.writer.d| ==> i in s.writer.copied
    case ReaderReadsHead(_) => s.reader.ReaderIdle?
    case ReaderStarts => s.reader.SawHead?
    case ReaderCopies(i) => s.reader.Reading? && i < s.reader.count
    case ReaderPublishes => s.reader.Reading? && forall i: nat :: i < s.reader.count ==> i in s.reader.out
  }

  ghost predicate SafeWriter(s: System)
    requires Ring(s)
  {
    match s.writer
    case WriterIdle => true
    case SawTail(_, seen) => seen < s.length && SpacesAvailable(s.length, s.head, seen) <= Free(s)
    case Writing(d, copied) =>
      |d| <= Free(s) && forall i: nat :: i in copied ==> i < |d| && s.buffer[Advanced(s.head, i, s.length)] == d[i]
  }

  ghost predicate SafeReader(s: System)
    requires Ring(s)
  {
    match s.reader
    case ReaderIdle => true
    case SawHead(_, seen) => seen < s.length && BytesInBuffer(s.length, seen, s.tail) <= Used(s)
    case Reading(count, out) =>
      count <= Used(s) && forall i: nat :: i in out ==> i < count && out[i] == s.buffer[Advanced(s.tail, i, s.length)]
  }

  /** Nothing lost, repeated or reordered: what was published is what was received and what is in the ring. */
  ghost predicate Inv(s: System) {
    Ring(s) && s.published == s.received + Unread(s) && SafeWriter(s) && SafeReader(s)
  }

  function Step(s: System, e: Event): System
    requires Ring(s) && SafeWriter(s) && SafeReader(s) && Enabled(s, e)
  {
    match e
    case WriterReadsTail(m) => s.(writer := SawTail(m, s.tail))
    case WriterStarts =>
      var m := s.writer.m;
      var n := Min(|m|, SpacesAvailable(s.length, s.head, s.writer.tailSeen));
      if n == 0 then s.(writer := WriterIdle) else s.(writer := Writing(m[..n], {}))
    case WriterCopies(i) =>
      s.(buffer := s.buffer[Advanced(s.head, i, s.length) := s.writer.d[i]], writer := Writing(s.writer.d, s.writer.copied + {i}))
    case WriterPublishes =>
      s.(head := Advanced(s.head, |s.writer.d|, s.length), writer := WriterIdle, published := s.published + s.writer.d)
    case ReaderReadsHead(wanted) => s.(reader := SawHead(wanted, s.head))
    case ReaderStarts =>
      var n := Min(s.reader.wanted, BytesInBuffer(s.length, s.reader.headSeen, s.tail));
      if n == 0 then s.(reader := ReaderIdle) else s.(reader := Reading(n, map[]))
    case ReaderCopies(i) =>
      s.(reader := Reading(s.reader.count, s.reader.out[i := s.buffer[Advanced(s.tail, i, s.length)]]))
    case ReaderPublishes =>
      s.(tail := Advanced(s.tail, s.reader.count, s.length), reader := ReaderIdle,
         received := s.received + Copied(s.reader.out, s.reader.count))
  }

  // ----- each step keeps it ---------------------------------------------------------------------

  /** The writer never touches a byte that has not been received, nor the same slot for two of its own. */
  lemma NeverOverwrites(s: System, i: nat, j: nat, k: nat)
    requires Ring(s) && SafeWriter(s) && s.writer.Writing? && i < |s.writer.d|
    ensures Advanced(s.head, i, s.length) < s.length
    ensures j < Used(s) ==> Advanced(s.head, i, s.length) != Slot(s.tail + j, s.length)
    ensures k < |s.writer.d| && k != i ==> Advanced(s.head, i, s.length) != Advanced(s.head, k, s.length)
  {
    CountsAreDistances(s.length, s.head, s.tail);
  }

  lemma UnreadUntouched(s: System, i: nat, x: Byte)
    requires Ring(s) && SafeWriter(s) && s.writer.Writing? && i < |s.writer.d|
    ensures var a := Advanced(s.head, i, s.length); a < s.length && Unread(s.(buffer := s.buffer[a := x])) == Unread(s)
  {
    NeverOverwrites(s, i, 0, 0);
    var r := s.(buffer := s.buffer[Advanced(s.head, i, s.length) := x]);
    CountsAreDistances(s.length, s.head, s.tail);
    hide BytesInBuffer, SpacesAvailable, Advanced;
    forall j | 0 <= j < Used(s) ensures Unread(r)[j] == Unread(s)[j] {
      NeverOverwrites(s, i, j, 0);
    }
  }

  lemma CopyKeeps(s: System, i: nat)
    requires Inv(s) && Enabled(s, WriterCopies(i))
    ensures Inv(Step(s, WriterCopies(i)))
  {
    hide BytesInBuffer, SpacesAvailable;
    var r := Step(s, WriterCopies(i));
    UnreadUntouched(s, i, s.writer.d[i]);
    forall k: nat | k in r.writer.copied
      ensures k < |s.writer.d| && Advanced(s.head, k, s.length) < s.length
      ensures r.buffer[Advanced(s.head, k, s.length)] == s.writer.d[k]
    {
      NeverOverwrites(s, k, 0, i);
    }
    if s.reader.Reading? {
      CountsAreDistances(s.length, s.head, s.tail);
      forall j: nat | j in s.reader.out ensures s.reader.out[j] == r.buffer[Advanced(s.tail, j, s.length)] {
        NeverOverwrites(s, i, j, 0);
        assert Advanced(s.tail, j, s.length) == Slot(s.tail + j, s.length);
      }
    }
  }

  lemma PublishedIsUnread(s: System, r: System)
    requires Ring(s) && SafeWriter(s) && Enabled(s, WriterPublishes)
    requires r.head == Advanced(s.head, |s.writer.d|, s.length)
    requires r.length == s.length && r.tail == s.tail && r.buffer == s.buffer
    ensures Ring(r) && Used(r) == Used(s) + |s.writer.d| && Unread(r) == Unread(s) + s.writer.d
  {
    hide BytesInBuffer, SpacesAvailable;
    var d := s.writer.d;
    CountsAreDistances(s.length, s.head, s.tail);
    HeadMoves(s.length, s.head, s.tail, |d|);
    assert r.head == Slot(s.head + |d|, s.length);
    CountsAreDistances(r.length, r.head, r.tail);
    forall i | 0 <= i < Used(s) + |d| ensures Unread(r)[i] == (Unread(s) + d)[i] {
      if i >= Used(s) {
        assert i - Used(s) in s.writer.copied;
        assert Slot(s.tail + i, s.length) == Advanced(s.head, i - Used(s), s.length);
      }
    }
  }

  lemma PublishKeeps(s: System)
    requires Inv(s) && Enabled(s, WriterPublishes)
    ensures Inv(Step(s, WriterPublishes))
  {
    var r := Step(s, WriterPublishes);
    PublishedIsUnread(s, r);
    assert s.received + Unread(s) + s.writer.d == s.received + (Unread(s) + s.writer.d);
    CountsAreDistances(s.length, s.head, s.tail);
    if s.reader.SawHead? { CountsAreDistances(s.length, s.reader.headSeen, s.tail); }
    hide BytesInBuffer, SpacesAvailable;
  }

  lemma TakenIsFront(s: System, got: seq<Byte>)
    requires Ring(s) && SafeReader(s) && s.reader.Reading? && |got| == s.reader.count
    requires forall i: nat :: i < |got| ==> i in s.reader.out && got[i] == s.reader.out[i]
    ensures |got| <= Used(s) == |Unread(s)| && got == Unread(s)[..|got|]
  {
    CountsAreDistances(s.length, s.head, s.tail);
    hide BytesInBuffer, SpacesAvailable;
    forall i | 0 <= i < |got| ensures got[i] == Unread(s)[i] {
      assert Slot(s.tail + i, s.length) == Advanced(s.tail, i, s.length);
    }
  }

  lemma TakenIsGone(s: System, r: System, n: nat)
    requires Ring(s) && n <= Used(s) && r.tail == Advanced(s.tail, n, s.length)
    requires r.length == s.length && r.head == s.head && r.buffer == s.buffer
    ensures Ring(r) && Used(r) == Used(s) - n && Free(r) == Free(s) + n && Unread(r) == Unread(s)[n..]
  {
    hide Round, BytesInBuffer, SpacesAvailable;
    CountsAreDistances(s.length, s.head, s.tail);
    TailMoves(s.length, s.head, s.tail, n);
    assert r.tail == Slot(s.tail + n, s.length);
    CountsAreDistances(r.length, r.head, r.tail);
    StartedLater(s.buffer, s.tail, Used(s), n);
  }

  lemma TakeKeeps(s: System)
    requires Inv(s) && Enabled(s, ReaderPublishes)
    ensures Inv(Step(s, ReaderPublishes))
  {
    hide Unread, BytesInBuffer, SpacesAvailable, Advanced;
    var r, n := Step(s, ReaderPublishes), s.reader.count;
    var got := Copied(s.reader.out, n);
    TakenIsFront(s, got);
    TakenIsGone(s, r, n);
    assert Unread(s) == Unread(s)[..n] + Unread(s)[n..];
    assert s.received + (got + Unread(r)) == s.received + got + Unread(r);
  }

  lemma SameUnread(s: System, r: System)
    requires Ring(s) && r.length == s.length && r.buffer == s.buffer && r.head == s.head && r.tail == s.tail
    ensures Unread(r) == Unread(s)
  {
  }

  /** A step that only moves the writer, or only the reader, along. */
  lemma WriterMoves(s: System, r: System)
    requires Inv(s) && r == s.(writer := r.writer) && SafeWriter(r)
    ensures Inv(r)
  {
    hide Unread, BytesInBuffer, SpacesAvailable, Advanced;
    SameUnread(s, r);
  }

  lemma ReaderMoves(s: System, r: System)
    requires Inv(s) && r == s.(reader := r.reader) && SafeReader(r)
    ensures Inv(r)
  {
    hide Unread, BytesInBuffer, SpacesAvailable, Advanced;
    SameUnread(s, r);
  }

  lemma LooksAreSafe(s: System, e: Event)
    requires Inv(s) && Enabled(s, e)
    ensures e.WriterReadsTail? || e.WriterStarts? ==> SafeWriter(Step(s, e))
    ensures e.ReaderReadsHead? || e.ReaderStarts? || e.ReaderCopies? ==> SafeReader(Step(s, e))
  {
    hide Unread, Advanced, BytesInBuffer, SpacesAvailable;
  }

  lemma StepKeepsInv(s: System, e: Event)
    requires Inv(s) && Enabled(s, e)
    ensures Inv(Step(s, e))
  {
    LooksAreSafe(s, e);
    hide Unread, BytesInBuffer, SpacesAvailable, Advanced, SafeWriter, SafeReader, Enabled;
    match e
    case WriterReadsTail(_) => WriterMoves(s, Step(s, e));
    case WriterStarts => WriterMoves(s, Step(s, e));
    case WriterCopies(i) => CopyKeeps(s, i);
    case WriterPublishes => PublishKeeps(s);
    case ReaderReadsHead(_) => ReaderMoves(s, Step(s, e));
    case ReaderStarts => ReaderMoves(s, Step(s, e));
    case ReaderCopies(i) => ReaderMoves(s, Step(s, e));
    case ReaderPublishes => TakeKeeps(s);
  }

  /** Step is defined where the invariant holds, which RunKeepsInv shows is everywhere. */
  ghost predicate Run(tr: seq<System>, es: seq<Event>) {
    && |tr| == |es| + 1
    && Inv(tr[0])
    && forall i {:trigger es[i]} :: 0 <= i < |es| ==>
         Enabled(tr[i], es[i]) && (Inv(tr[i]) ==> tr[i + 1] == Step(tr[i], es[i]))
  }

  lemma {:induction false} RunKeepsInv(tr: seq<System>, es: seq<Event>, i: nat)
    requires Run(tr, es) && i < |tr|
    ensures Inv(tr[i])
    decreases i
  {
    hide Step, Enabled;
    if i > 0 {
      RunKeepsInv(tr, es, i - 1);
      StepKeepsInv(tr[i - 1], es[i - 1]);
    }
  }

  function New(length: Size): System
    requires 0 < length <= 0x8000_0000
  {
    System(length, seq(length, _ => 0), 0, 0, WriterIdle, ReaderIdle, [], [])
  }

  /**
    Over every interleaving from an empty buffer, the bytes published are the
    bytes received followed by the bytes in the ring, in order; and what either
    side computes from a stale copy of the other's index is never more than the
    true count.
   */
  lemma NothingLostOrReordered(tr: seq<System>, es: seq<Event>, length: Size, i: nat)
    requires 0 < length <= 0x8000_0000 && Run(tr, es) && tr[0] == New(length) && i < |tr|
    ensures var s := tr[i];
      && Ring(s) && s.published == s.received + Unread(s)
      && (s.writer.SawTail? ==> SpacesAvailable(s.length, s.head, s.writer.tailSeen) <= Free(s))
      && (s.reader.SawHead? ==> BytesInBuffer(s.length, s.reader.headSeen, s.tail) <= Used(s))
  {
    hide Step, Enabled;
    RunKeepsInv(tr, es, i);
  }
}
