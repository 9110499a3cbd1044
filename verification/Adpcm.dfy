/**
  The encoder and the decoder of adpcm.c, loop by loop, proved to compute the
  functions of AdpcmModel.dfy.  Shifts and masks are written as divisions; a word
  of the packet is an unsigned 16-bit number.
 */
module Adpcm {
  import opened AdpcmModel

  // ----- how the loops build the sequences ------------------------------------------------

  lemma {:induction false} CodesAt(s: State, xs: seq<Sample>, i: nat)
    requires i < |xs|
    ensures Codes(s, xs)[i] == CodeFor(EncodedAll(s, xs[..i]), xs[i])
    ensures EncodedAll(s, xs[..i + 1]) == Encoded(EncodedAll(s, xs[..i]), xs[i])
    decreases i
  {
    hide CodeFor, Encoded;
    if i > 0 {
      CodesAt(Encoded(s, xs[0]), xs[1..], i - 1);
      assert xs[..i][1..] == xs[1..][..i - 1] && xs[..i + 1][1..] == xs[1..][..i];
    } else {
      assert xs[..1][1..] == [];
    }
  }

  lemma {:induction false} PackAppend(cs: seq<Code>, ds: seq<Code>)
    requires |cs| % 4 == 0
    ensures Pack(cs + ds) == Pack(cs) + Pack(ds)
  {
    hide Word;
    if |cs| == 0 {
      assert cs + ds == ds;
    } else {
      var all := cs + ds;
      assert all[0] == cs[0] && all[1] == cs[1] && all[2] == cs[2] && all[3] == cs[3];
      assert all[4..] == cs[4..] + ds;
      PackAppend(cs[4..], ds);
    }
  }

  lemma {:induction false} CodesConcat(s: State, xs: seq<Sample>, ys: seq<Sample>)
    ensures Codes(s, xs + ys) == Codes(s, xs) + Codes(EncodedAll(s, xs), ys)
    ensures EncodedAll(s, xs + ys) == EncodedAll(EncodedAll(s, xs), ys)
    decreases |xs|
  {
    hide CodeFor, Encoded;
    if |xs| == 0 {
      assert xs + ys == ys;
    } else {
      CodesConcat(Encoded(s, xs[0]), xs[1..], ys);
      assert (xs + ys)[1..] == xs[1..] + ys;
    }
  }

  /** A packet filled in two calls is the packet of all the samples. */
  lemma SplitPacket(s: State, xs: seq<Sample>, ys: seq<Sample>)
    requires |xs| % 4 == 0
    ensures Packet(s, xs) + Pack(Codes(EncodedAll(s, xs), ys)) == Packet(s, xs + ys)
  {
    CodesConcat(s, xs, ys);
    PackAppend(Codes(s, xs), Codes(EncodedAll(s, xs), ys));
  }

  /** The last i % 4 codes, as they stand in the upper part of code16. */
  predicate Gathered(code16: nat, cs: seq<Code>, i: nat)
    requires i <= |cs|
  {
    match i % 4
    case 0 => true
    case 1 => code16 / 4096 == cs[i - 1]
    case 2 => code16 / 256 == Byte(cs[i - 2], cs[i - 1])
    case _ => code16 / 16 == Twelve(cs[i - 3], cs[i - 2], cs[i - 1])
  }

  function Twelve(a: Code, b: Code, c: Code): nat {
    var l: nat, h: nat := Byte(a, b), c;
    l + 256 * h
  }

  /** code16 >> 4 | code << 12 */
  function Shifted(code16: Half, c: Code): Half {
    var low: nat, high: nat := code16 / 16, c;
    low + 4096 * high
  }

  lemma GatherOne(code16: Half, cs: seq<Code>, i: nat)
    requires i < |cs| && Gathered(code16, cs, i)
    ensures Gathered(Shifted(code16, cs[i]), cs, i + 1)
    ensures i % 4 == 3 ==> Shifted(code16, cs[i]) == Word(cs[i - 3], cs[i - 2], cs[i - 1], cs[i])
  {
  }

  // ----- the encoder --------------------------------------------------------------------------

  class MicEncoder {
    var predict: Sample
    var predictIdx: Index
    var buffer: array<Half>      // where pd points into
    var pd: nat

    constructor (buffer: array<Half>)
      ensures View() == State(0, 0) && this.buffer == buffer && pd == 0
    {
      predict, predictIdx, this.buffer, pd := 0, 0, buffer, 0;
    }

    function View(): State
      reads this
    {
      State(predict, predictIdx)
    }

    /** The inner loop: j runs through 4, 2 and 1 */
    static method QuantiseSample(diff0: nat, step0: nat) returns (q: Quantum)
      ensures q == Quantise(diff0, step0)
    {
      var code, diff, step, diffq := 0, diff0, step0, step0 / 8;
      ghost var d2 := if diff0 >= step0 then diff0 - step0 else diff0;
      ghost var d1 := if d2 >= step0 / 2 then d2 - step0 / 2 else d2;
      var j := 4;
      while j > 0
        invariant j == 4 || j == 2 || j == 1 || j == 0
        invariant step == if j == 4 then step0 else if j == 2 then step0 / 2 else if j == 1 then step0 / 2 / 2 else step0 / 2 / 2 / 2
        invariant j > 0 ==> diff == if j == 4 then diff0 else if j == 2 then d2 else d1
        invariant code == (if j < 4 && diff0 >= step0 then 4 else 0) + (if j < 2 && d2 >= step0 / 2 then 2 else 0)
          + (if j < 1 && d1 >= step0 / 2 / 2 then 1 else 0)
        invariant diffq == step0 / 8 + (if j < 4 && diff0 >= step0 then step0 else 0)
          + (if j < 2 && d2 >= step0 / 2 then step0 / 2 else 0) + (if j < 1 && d1 >= step0 / 2 / 2 then step0 / 2 / 2 else 0)
      {
        if diff >= step {
          diff := diff - step;
          diffq := diffq + step;
          code := code + j;
        }
        step := step / 2;
        j := j / 2;
      }
      q := Quantum(code, diffq);
    }

    /** One pass of the sample loop, up to the packing */
    method EncodeSample(x: Sample) returns (code: Code)
      modifies this`predict, this`predictIdx
      ensures code == CodeFor(old(View()), x) && View() == Encoded(old(View()), x)
    {
      hide StepSize, Quantise;
      var diff: int := x - predict;
      var sign: nat;
      if diff >= 0 {
        sign := 0;
      } else {
        diff := -diff;
        sign := 8;
      }
      var q := QuantiseSample(diff, StepSize(predictIdx));
      code := q.code + sign;
      var next: int;
      if code >= 8 {
        next := predict - q.diffq;
      } else {
        next := predict + q.diffq;
      }
      predict := if next > 32767 then 32767 else if next < -32768 then -32768 else next;
      var nextIdx: int := predictIdx + INDEX_STEPS[code];
      predictIdx := if nextIdx < 0 then 0 else if nextIdx > 88 then 88 else nextIdx;
    }

    /** The header that opens a packet */
    method StartPacket(pds: array<Half>)
      requires pds.Length >= 2
      modifies this`buffer, this`pd, pds
      ensures buffer == pds && pd == 2 && pds[..2] == Header(View())
    {
      buffer := pds;
      pds[0] := Unsigned(predict);
      pds[1] := predictIdx + 256 * PAYLOAD;
      pd := 2;
    }

    /** *pd++ = code16 */
    method Emit(code16: Half)
      requires pd < buffer.Length
      modifies this`pd, buffer
      ensures pd == old(pd) + 1 && buffer[..pd] == old(buffer[..pd]) + [code16]
    {
      buffer[pd] := code16;
      pd := pd + 1;
    }

    /** After i samples: their codes packed behind what was there, up to three more gathered in code16. */
    ghost predicate Underway(s: State, ps: seq<Sample>, first: seq<Half>, i: nat, code16: Half)
      reads this, buffer
    {
      && i <= |ps| && View() == EncodedAll(s, ps[..i]) && |first| + |ps| / 4 <= buffer.Length && pd == |first| + i / 4
      && buffer[..pd] == first + Pack(Codes(s, ps)[..i - i % 4]) && Gathered(code16, Codes(s, ps), i)
    }

    /** One pass of the sample loop */
    method EncodeNext(ps: seq<Sample>, i: nat, code16: Half, ghost s: State, ghost first: seq<Half>) returns (next16: Half)
      requires i < |ps| && |ps| % 4 == 0 && Underway(s, ps, first, i, code16)
      modifies this`predict, this`predictIdx, this`pd, buffer
      ensures Underway(s, ps, first, i + 1, next16)
    {
      hide CodeFor, Encoded, Codes, Word, EncodedAll, Gathered, Shifted, Pack;
      ghost var cs := Codes(s, ps);
      CodesAt(s, ps, i);
      var code := EncodeSample(ps[i]);
      GatherOne(code16, cs, i);
      next16 := Shifted(code16, code);
      if i % 4 == 3 {
        PackOneMore(cs, i);
        Emit(next16);
      } else {
        assert i + 1 - (i + 1) % 4 == i - i % 4 && (i + 1) / 4 == i / 4;
      }
    }

    /** mic_to_adpcm_split: start opens a packet in pds, otherwise the last one is continued */
    method MicToAdpcmSplit(ps: seq<Sample>, pds: array<Half>, start: bool)
      requires |ps| % 4 == 0
      requires if start then 2 + |ps| / 4 <= pds.Length else buffer == pds && pd + |ps| / 4 <= pds.Length
      modifies this, pds
      ensures View() == EncodedAll(old(View()), ps) && buffer == pds && pd <= pds.Length
      ensures pds[..pd] == (if start then Header(old(View())) else old(pds[..pd])) + Pack(Codes(old(View()), ps))
    {
      hide CodeFor, Encoded, Codes, Header, Word, EncodedAll, Gathered, Pack;
      if start {
        StartPacket(pds);
      }
      ghost var s, first := View(), pds[..pd];
      var code16: Half := 0;
      NothingYet(s, ps, Codes(s, ps));
      for i := 0 to |ps|
        invariant buffer == pds && Underway(s, ps, first, i, code16)
      {
        code16 := EncodeNext(ps, i, code16, s, first);
      }
      Whole(ps);
      Whole(Codes(s, ps));
    }
  }

  lemma Whole<T>(s: seq<T>)
    ensures s[..|s|] == s
  {
  }

  lemma NothingYet(s: State, xs: seq<Sample>, cs: seq<Code>)
    ensures EncodedAll(s, xs[..0]) == s && Pack(cs[..0]) == [] && Gathered(0, cs, 0)
  {
  }

  lemma PackOneMore(cs: seq<Code>, i: nat)
    requires i < |cs| && i % 4 == 3
    ensures Pack(cs[..i + 1 - (i + 1) % 4]) == Pack(cs[..i - i % 4]) + [Word(cs[i - 3], cs[i - 2], cs[i - 1], cs[i])]
    ensures (i + 1) / 4 == i / 4 + 1
  {
    hide Word;
    PackAppend(cs[..i - 3], cs[i - 3..i + 1]);
    assert cs[..i + 1] == cs[..i - 3] + cs[i - 3..i + 1];
    assert cs[i - 3..i + 1][4..] == [];
  }

  // ----- the decoder --------------------------------------------------------------------------

  /** The low nibble's bits are the byte's low bits. */
  lemma LowBits(b: nat)
    requires b < 256
    ensures var c := b % 16; c / 4 % 2 == b / 4 % 2 && c / 2 % 2 == b / 2 % 2 && c % 2 == b % 2 && c / 8 % 2 == b / 8 % 2
  {
    var h, c := b / 16, b % 16;
    assert b == 16 * h + c;
    assert b / 2 == 8 * h + c / 2;
    assert b / 4 == 4 * h + c / 4;
    assert b / 8 == 2 * h + c / 8;
  }

  /** One pass of the decoder's loop, on the byte in hand */
  method DecodeSample(s: State, b: nat) returns (r: State)
    requires b < 256
    ensures r == Decoded(s, b % 16)
  {
    hide StepSize;
    LowBits(b);
    var step := StepSize(s.index);
    var diffq := step / 8;
    if b / 4 % 2 == 1 {
      diffq := diffq + step;
    }
    step := step / 2;
    if b / 2 % 2 == 1 {
      diffq := diffq + step;
    }
    step := step / 2;
    if b % 2 == 1 {
      diffq := diffq + step;
    }
    var predict: int := s.predict;
    if b / 8 % 2 == 1 {
      predict := predict - diffq;
    } else {
      predict := predict + diffq;
    }
    predict := if predict > 32767 then 32767 else if predict < -32768 then -32768 else predict;
    var index: int := s.index + INDEX_STEPS[b % 16];
    index := if index < 0 then 0 else if index > 88 then 88 else index;
    r := State(predict, index);
  }

  lemma {:induction false} PlayedAppend(s: State, cs: seq<Code>, c: Code)
    ensures Played(s, cs + [c]) == Played(s, cs) + [Decoded(DecodedAll(s, cs), c).predict]
    ensures DecodedAll(s, cs + [c]) == Decoded(DecodedAll(s, cs), c)
    decreases |cs|
  {
    hide Decoded;
    if |cs| > 0 {
      PlayedAppend(Decoded(s, cs[0]), cs[1..], c);
      assert (cs + [c])[1..] == cs[1..] + [c];
    } else {
      assert (cs + [c])[1..] == [];
    }
  }

  /**
    adpcm_to_pcm.  The next byte is fetched after every second sample, so one byte
    past the last code must be readable.
   */
  method AdpcmToPcm(ps: seq<Half>, len: nat) returns (pcm: seq<Sample>, ghost last: State)
    requires GoodHeader(ps) && 2 + len / 2 / 2 < |ps|
    ensures pcm == Played(HeaderState(ps), Unpack(ps, len))
    ensures last == DecodedAll(HeaderState(ps), Unpack(ps, len))
  {
    hide Decoded, Played, DecodedAll;
    ghost var s := HeaderState(ps);
    var state := State(Signed(ps[0]), ps[1] % 256);
    var pcode := 0;
    var code := PayloadByte(ps, pcode);
    pcode := pcode + 1;
    pcm := [];
    NothingPlayed(s);
    for i := 0 to len
      invariant pcode == i / 2 + 1
      invariant code == if i % 2 == 0 then PayloadByte(ps, i / 2) else PayloadByte(ps, i / 2) / 16
      invariant pcm == Played(s, Unpack(ps, i)) && state == DecodedAll(s, Unpack(ps, i))
    {
      PlayedAppend(s, Unpack(ps, i), CodeAt(ps, i));
      ByteBound(ps, i / 2);
      state := DecodeSample(state, code);
      if i % 2 == 1 {
        code := PayloadByte(ps, pcode);
        pcode := pcode + 1;
      } else {
        code := code / 16;
      }
      pcm := pcm + [state.predict];
    }
    last := state;
  }

  lemma ByteBound(ws: seq<Half>, k: nat)
    requires 2 + k / 2 < |ws|
    ensures PayloadByte(ws, k) < 256
  {
  }

  lemma NothingPlayed(s: State)
    ensures Played(s, []) == [] && DecodedAll(s, []) == s
  {
  }

  lemma {:induction false} UnpackPrefix(ws: seq<Half>, pad: seq<Half>, n: nat)
    requires n == 0 || 2 + (n - 1) / 4 < |ws|
    ensures Unpack(ws + pad, n) == Unpack(ws, n)
  {
    if n > 0 { UnpackPrefix(ws, pad, n - 1); }
  }

  /** What the decoder plays for the encoder's packet, whatever lies behind it in memory. */
  method DecodeEncoded(s: State, xs: seq<Sample>, pad: seq<Half>) returns (pcm: seq<Sample>, ghost last: State)
    requires |xs| % 4 == 0 && |pad| > 0
    ensures pcm == Predictions(s, xs) && last == EncodedAll(s, xs)
  {
    var ws := Packet(s, xs) + pad;
    PacketRoundTrip(s, xs);
    UnpackPrefix(Packet(s, xs), pad, |xs|);
    assert ws[..2] == Packet(s, xs)[..2] == Header(s);
    pcm, last := AdpcmToPcm(ws, |xs|);
  }
}
