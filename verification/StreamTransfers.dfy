/**
  What one send and one receive on a stream buffer transfer (stream_buffer.c, stream
  mode), the other side running concurrently: the front of the caller's bytes, as many
  as there was space for when the writer looked; the oldest bytes, as many as were there
  when the reader looked.
 */
module StreamTransfers {
  import opened Rings
  import opened StreamBuffers
  import opened StreamInterleaving

  // ----- sending -----------------------------------------------------------------------------

  /** A send of m is under way that began with `free` bytes of space and `sent` published before. */
  ghost predicate Sending(s: System, m: seq<Byte>, head: Size, free: nat, sent: seq<Byte>) {
    && s.head == head && s.published == sent
    && match s.writer
       case WriterIdle => Min(|m|, free) == 0
       case SawTail(n, seen) => n == m && SpacesAvailable(s.length, head, seen) == free
       case Writing(d, _) => d == m[..Min(|m|, free)]
  }

  /** Nothing else the writer or the reader does before the send is published disturbs it. */
  lemma SendingGoesOn(s: System, e: Event, m: seq<Byte>, head: Size, free: nat, sent: seq<Byte>)
    requires Inv(s) && Enabled(s, e) && !e.WriterReadsTail? && !e.WriterPublishes? && Sending(s, m, head, free, sent)
    ensures Sending(Step(s, e), m, head, free, sent)
  {
    hide Unread, Advanced, SpacesAvailable, BytesInBuffer;
  }

  lemma {:induction false} StaysSending(tr: seq<System>, es: seq<Event>, k: nat, j: nat, m: seq<Byte>)
    requires Run(tr, es) && k < j < |tr| && es[k] == WriterReadsTail(m)
    requires forall i {:trigger es[i]} :: k < i < j ==> !es[i].WriterReadsTail? && !es[i].WriterPublishes?
    ensures Sending(tr[j], m, tr[k].head, Free(tr[k]), tr[k].published)
    decreases j
  {
    hide Step, Enabled, Inv, Sending;
    RunKeepsInv(tr, es, j - 1);
    if j == k + 1 {
      SendBegins(tr[k], m);
    } else {
      StaysSending(tr, es, k, j - 1, m);
      SendingGoesOn(tr[j - 1], es[j - 1], m, tr[k].head, Free(tr[k]), tr[k].published);
    }
  }

  lemma SendBegins(s: System, m: seq<Byte>)
    requires Inv(s) && Enabled(s, WriterReadsTail(m))
    ensures Sending(Step(s, WriterReadsTail(m)), m, s.head, Free(s), s.published)
  {
    hide Unread, SpacesAvailable, BytesInBuffer;
  }

  lemma SendEnds(s: System, m: seq<Byte>, head: Size, free: nat, sent: seq<Byte>)
    requires Inv(s) && Enabled(s, WriterPublishes) && Sending(s, m, head, free, sent)
    ensures Step(s, WriterPublishes).published == sent + m[..Min(|m|, free)]
  {
    hide Unread, Advanced, SpacesAvailable, BytesInBuffer;
  }

  /**
    A send that looks for space at step k and publishes at step j publishes the front of
    its bytes, as many as there was space for at step k, whatever the reader does meanwhile.
   */
  lemma SendsWhatFitted(tr: seq<System>, es: seq<Event>, k: nat, j: nat, m: seq<Byte>)
    requires Run(tr, es) && k < j < |es| && es[k] == WriterReadsTail(m) && es[j].WriterPublishes?
    requires forall i {:trigger es[i]} :: k < i < j ==> !es[i].WriterReadsTail? && !es[i].WriterPublishes?
    ensures tr[j + 1].published == tr[k].published + m[..Min(|m|, Free(tr[k]))]
  {
    hide Step, Enabled, Inv, Sending;
    StaysSending(tr, es, k, j, m);
    RunKeepsInv(tr, es, j);
    SendEnds(tr[j], m, tr[k].head, Free(tr[k]), tr[k].published);
  }

  // ----- receiving ------------------------------------------------------------------------------

  /** A receive of up to `wanted` bytes is under way that began with `front` unread and `got` received before. */
  ghost predicate Receiving(s: System, wanted: nat, tail: Size, front: seq<Byte>, got: seq<Byte>) {
    && s.tail == tail && s.received == got && got + front <= s.published
    && match s.reader
       case ReaderIdle => Min(wanted, |front|) == 0
       case SawHead(n, seen) => n == wanted && BytesInBuffer(s.length, seen, tail) == |front|
       case Reading(count, _) => count == Min(wanted, |front|)
  }

  lemma ReceivingGoesOn(s: System, e: Event, wanted: nat, tail: Size, front: seq<Byte>, got: seq<Byte>)
    requires Inv(s) && Enabled(s, e) && !e.ReaderReadsHead? && !e.ReaderPublishes? && Receiving(s, wanted, tail, front, got)
    ensures Receiving(Step(s, e), wanted, tail, front, got)
  {
    hide Unread, Advanced, SpacesAvailable, BytesInBuffer;
  }

  lemma UnreadIsUsed(s: System)
    requires Ring(s)
    ensures |Unread(s)| == Used(s)
  {
  }

  lemma ReceiveBegins(s: System, wanted: nat)
    requires Inv(s) && Enabled(s, ReaderReadsHead(wanted))
    ensures Receiving(Step(s, ReaderReadsHead(wanted)), wanted, s.tail, Unread(s), s.received)
  {
    hide Unread, SpacesAvailable, BytesInBuffer;
    UnreadIsUsed(s);
  }

  lemma {:induction false} StaysReceiving(tr: seq<System>, es: seq<Event>, k: nat, j: nat, wanted: nat)
    requires Run(tr, es) && k < j < |tr| && es[k] == ReaderReadsHead(wanted)
    requires forall i {:trigger es[i]} :: k < i < j ==> !es[i].ReaderReadsHead? && !es[i].ReaderPublishes?
    ensures Ring(tr[k]) && Receiving(tr[j], wanted, tr[k].tail, Unread(tr[k]), tr[k].received)
    decreases j
  {
    hide Step, Enabled, Unread, SafeReader, SafeWriter, Receiving;
    RunKeepsInv(tr, es, k);
    RunKeepsInv(tr, es, j - 1);
    if j == k + 1 {
      ReceiveBegins(tr[k], wanted);
    } else {
      StaysReceiving(tr, es, k, j - 1, wanted);
      ReceivingGoesOn(tr[j - 1], es[j - 1], wanted, tr[k].tail, Unread(tr[k]), tr[k].received);
    }
  }

  lemma ReceiveEnds(s: System, wanted: nat, tail: Size, front: seq<Byte>, got: seq<Byte>)
    requires Inv(s) && Enabled(s, ReaderPublishes) && Receiving(s, wanted, tail, front, got)
    ensures Step(s, ReaderPublishes).received == got + front[..Min(wanted, |front|)]
  {
    hide Unread, Advanced, SpacesAvailable, BytesInBuffer;
    var n := s.reader.count;
    var d := Copied(s.reader.out, n);
    TakenIsFront(s, d);
    assert s.published == got + Unread(s);
    assert (got + front)[|got|..] == front && s.published[|got|..] == Unread(s);
    assert front[..n] == s.published[|got|..|got| + n] == Unread(s)[..n];
  }

  /**
    A receive that looks for bytes at step k and publishes at step j takes the oldest
    bytes, as many as were there at step k and it has room for, whatever the writer does.
   */
  lemma ReceivesWhatWasThere(tr: seq<System>, es: seq<Event>, k: nat, j: nat, wanted: nat)
    requires Run(tr, es) && k < j < |es| && es[k] == ReaderReadsHead(wanted) && es[j].ReaderPublishes?
    requires forall i {:trigger es[i]} :: k < i < j ==> !es[i].ReaderReadsHead? && !es[i].ReaderPublishes?
    ensures Ring(tr[k]) && tr[j + 1].received == tr[k].received + Unread(tr[k])[..Min(wanted, |Unread(tr[k])|)]
  {
    hide Step, Enabled, Unread, SafeReader, SafeWriter, Receiving;
    StaysReceiving(tr, es, k, j, wanted);
    RunKeepsInv(tr, es, j);
    ReceiveEnds(tr[j], wanted, tr[k].tail, Unread(tr[k]), tr[k].received);
  }
}
