/**
  IMA ADPCM as the remote control and the dongle run it (adpcm.c, the Telink GATT
  pair): 16-bit samples to 4-bit codes and back.  Proved here: the decoder stays
  in lock step with the encoder, and the quantisation error is bounded.
 */
module AdpcmModel {
  type Sample = s: int | -32768 <= s <= 32767
  type Index = i: nat | i <= 88
  type Code = c: nat | c < 16
  type Half = h: nat | h < 65536              // a 16-bit word of the packet

  /** steptbl, ten to a row */
  const STEPS: seq<seq<nat>> := [
    [7, 8, 9, 10, 11, 12, 13, 14, 16, 17],
    [19, 21, 23, 25, 28, 31, 34, 37, 41, 45],
    [50, 55, 60, 66, 73, 80, 88, 97, 107, 118],
    [130, 143, 157, 173, 190, 209, 230, 253, 279, 307],
    [337, 371, 408, 449, 494, 544, 598, 658, 724, 796],
    [876, 963, 1060, 1166, 1282, 1411, 1552, 1707, 1878, 2066],
    [2272, 2499, 2749, 3024, 3327, 3660, 4026, 4428, 4871, 5358],
    [5894, 6484, 7132, 7845, 8630, 9493, 10442, 11487, 12635, 13899],
    [15289, 16818, 18500, 20350, 22385, 24623, 27086, 29794, 32767]]

  const INDEX_STEPS: seq<int> := [-1, -1, -1, -1, 2, 4, 6, 8, -1, -1, -1, -1, 2, 4, 6, 8]

  datatype State = State(predict: Sample, index: Index)

  function StepSize(i: Index): nat {
    STEPS[i / 10][i % 10]
  }

  lemma StepBounds(i: Index)
    ensures 7 <= StepSize(i) <= 32767
    ensures i == 88 ==> StepSize(i) == 32767
  {
    var row, n := STEPS[i / 10], i % 10;
    assert 0 <= n < |row|;
  }

  function Abs(x: int): nat {
    if x < 0 then -x else x
  }

  function ClampSample(x: int): Sample {
    if x > 32767 then 32767 else if x < -32768 then -32768 else x
  }

  function ClampIndex(x: int): Index {
    if x < 0 then 0 else if x > 88 then 88 else x
  }

  // ----- one sample ---------------------------------------------------------------------------

  /** The encoder's comparisons with step, step/2 and step/4: the low bits of the code and the difference they stand for. */
  datatype Quantum = Quantum(code: nat, diffq: nat)

  function Quantise(diff: nat, step: nat): (q: Quantum)
    ensures q.code < 8
  {
    var d2 := if diff >= step then diff - step else diff;
    var d1 := if d2 >= step / 2 then d2 - step / 2 else d2;
    Quantum(
      (if diff >= step then 4 else 0) + (if d2 >= step / 2 then 2 else 0) + (if d1 >= step / 2 / 2 then 1 else 0),
      step / 8 + (if diff >= step then step else 0) + (if d2 >= step / 2 then step / 2 else 0)
      + (if d1 >= step / 2 / 2 then step / 2 / 2 else 0))
  }

  /** The code the encoder emits for a sample. */
  function CodeFor(s: State, x: Sample): Code {
    Quantise(Abs(x - s.predict), StepSize(s.index)).code + if x >= s.predict then 0 else 8
  }

  /** The encoder's state after a sample. */
  function Encoded(s: State, x: Sample): State {
    var q := Quantise(Abs(x - s.predict), StepSize(s.index)).diffq;
    State(ClampSample(if x >= s.predict then s.predict + q else s.predict - q), ClampIndex(s.index + INDEX_STEPS[CodeFor(s, x)]))
  }

  /** The decoder's reading of a code. */
  function Dequantised(c: Code, step: nat): nat {
    step / 8 + (if c / 4 % 2 == 1 then step else 0) + (if c / 2 % 2 == 1 then step / 2 else 0)
    + (if c % 2 == 1 then step / 2 / 2 else 0)
  }

  /** The decoder's state after a code. */
  function Decoded(s: State, c: Code): State {
    var d := Dequantised(c, StepSize(s.index));
    State(ClampSample(if c / 8 % 2 == 1 then s.predict - d else s.predict + d), ClampIndex(s.index + INDEX_STEPS[c]))
  }

  lemma CodeBits(four: bool, two: bool, one: bool, minus: bool)
    ensures var c := (if four then 4 else 0) + (if two then 2 else 0) + (if one then 1 else 0) + if minus then 8 else 0;
      (c / 4 % 2 == 1 <==> four) && (c / 2 % 2 == 1 <==> two) && (c % 2 == 1 <==> one) && (c / 8 % 2 == 1 <==> minus)
  {
  }

  /** The decoder reads off the code the difference that the encoder subtracted. */
  lemma DequantisedAgain(diff: nat, step: nat, minus: bool)
    ensures var q := Quantise(diff, step);
      var c: Code := q.code + if minus then 8 else 0;
      Dequantised(c, step) == q.diffq && (c / 8 % 2 == 1 <==> minus)
  {
    var d2 := if diff >= step then diff - step else diff;
    var d1 := if d2 >= step / 2 then d2 - step / 2 else d2;
    CodeBits(diff >= step, d2 >= step / 2, d1 >= step / 2 / 2, minus);
  }

  /** One sample leaves encoder and decoder in the same state. */
  lemma InStep(s: State, x: Sample)
    ensures Decoded(s, CodeFor(s, x)) == Encoded(s, x)
  {
    hide StepSize, ClampSample, ClampIndex, Quantise, Dequantised;
    DequantisedAgain(Abs(x - s.predict), StepSize(s.index), x < s.predict);
  }

  // ----- the error ---------------------------------------------------------------------------------

  /** The encoder cannot follow: the sample is two steps away or more. */
  predicate Overload(s: State, x: Sample) {
    Abs(x - s.predict) >= 2 * StepSize(s.index)
  }

  lemma QuantisationError(diff: nat, step: nat)
    requires diff < 2 * step
    ensures -2 - step / 8 <= diff - Quantise(diff, step).diffq <= step / 8 + 2
  {
  }

  /** Without overload the new prediction is within step/8 + 2 of the sample, clamping included. */
  lemma ErrorBound(s: State, x: Sample)
    requires !Overload(s, x)
    ensures Abs(x - Encoded(s, x).predict) <= StepSize(s.index) / 8 + 2
  {
    hide StepSize, Quantise, ClampIndex, CodeFor;
    QuantisationError(Abs(x - s.predict), StepSize(s.index));
  }

  /** Under overload the step index climbs by 8, to 88 at most. */
  lemma OverloadClimbs(s: State, x: Sample)
    requires Overload(s, x)
    ensures Encoded(s, x).index == ClampIndex(s.index + 8)
  {
    var step := StepSize(s.index);
    var d := Abs(x - s.predict);
    assert Quantise(d, step).code == 7;
  }

  /** The step adapts to the error: smaller than a step it shrinks, the more it exceeds one the more it grows. */
  lemma IndexFollows(s: State, x: Sample)
    ensures var d, step := Abs(x - s.predict), StepSize(s.index);
      Encoded(s, x).index == ClampIndex(s.index +
        if d < step then -1
        else if d - step < step / 2 / 2 then 2
        else if d - step < step / 2 then 4
        else if d - step - step / 2 < step / 2 / 2 then 6
        else 8)
  {
    hide StepSize, ClampSample, ClampIndex;
    var q := Quantise(Abs(x - s.predict), StepSize(s.index)).code;
    assert INDEX_STEPS[CodeFor(s, x)] == if q < 4 then -1 else 2 * (q - 3);
  }

  /** At the top index an overload leaves the prediction too central for another. */
  lemma NoSecondAtTop(s: State, x: Sample, y: Sample)
    requires s.index == 88 && Overload(s, x)
    ensures !Overload(Encoded(s, x), y)
  {
    StepBounds(88);
    OverloadClimbs(s, x);
    var q := Quantise(Abs(x - s.predict), 32767);
    assert q == Quantum(7, 61436);
  }

  /** The encoder's states before each sample. */
  function StateAt(s: State, xs: seq<Sample>, i: nat): State
    requires i <= |xs|
  {
    if i == 0 then s else Encoded(StateAt(s, xs, i - 1), xs[i - 1])
  }

  lemma {:induction false} ClimbsTo(s: State, xs: seq<Sample>, i: nat)
    requires i <= |xs| && forall j :: 0 <= j < i ==> Overload(StateAt(s, xs, j), xs[j])
    ensures StateAt(s, xs, i).index == ClampIndex(s.index + 8 * i)
  {
    hide Encoded, Overload;
    if i > 0 {
      ClimbsTo(s, xs, i - 1);
      OverloadClimbs(StateAt(s, xs, i - 1), xs[i - 1]);
    }
  }

  lemma FitsAfterTwelve(s: State, xs: seq<Sample>)
    requires |xs| == 13 && forall j :: 0 <= j < 12 ==> Overload(StateAt(s, xs, j), xs[j])
    ensures !Overload(StateAt(s, xs, 12), xs[12])
  {
    ClimbsTo(s, xs, 11);
    NoSecondAtTop(StateAt(s, xs, 11), xs[11], xs[12]);
  }

  lemma {:induction false} StateAtPrefix(s: State, xs: seq<Sample>, n: nat, i: nat)
    requires i <= n <= |xs|
    ensures StateAt(s, xs[..n], i) == StateAt(s, xs, i)
  {
    hide Encoded;
    if i > 0 { StateAtPrefix(s, xs, n, i - 1); }
  }

  /** Whatever the samples, of 13 in a row one at least is no overload. */
  lemma OverloadIsShort(s: State, xs: seq<Sample>) returns (i: nat)
    requires |xs| > 12
    ensures i <= 12 && !Overload(StateAt(s, xs, i), xs[i])
  {
    if j: nat :| j < 12 && !Overload(StateAt(s, xs, j), xs[j]) {
      i := j;
    } else {
      i := 12;
      forall j: nat | j < 13 ensures StateAt(s, xs[..13], j) == StateAt(s, xs, j) { StateAtPrefix(s, xs, 13, j); }
      FitsAfterTwelve(s, xs[..13]);
    }
  }

  // ----- sequences ------------------------------------------------------------------------------

  function Codes(s: State, xs: seq<Sample>): (cs: seq<Code>)
    ensures |cs| == |xs|
    decreases |xs|
  {
    if |xs| == 0 then [] else [CodeFor(s, xs[0])] + Codes(Encoded(s, xs[0]), xs[1..])
  }

  /** The encoder's prediction after each sample. */
  function Predictions(s: State, xs: seq<Sample>): (ps: seq<Sample>)
    ensures |ps| == |xs|
    decreases |xs|
  {
    if |xs| == 0 then [] else [Encoded(s, xs[0]).predict] + Predictions(Encoded(s, xs[0]), xs[1..])
  }

  /** The encoder's last state. */
  function EncodedAll(s: State, xs: seq<Sample>): State
    decreases |xs|
  {
    if |xs| == 0 then s else EncodedAll(Encoded(s, xs[0]), xs[1..])
  }

  /** What the decoder plays: its prediction after each code. */
  function Played(s: State, cs: seq<Code>): (ps: seq<Sample>)
    ensures |ps| == |cs|
    decreases |cs|
  {
    if |cs| == 0 then [] else [Decoded(s, cs[0]).predict] + Played(Decoded(s, cs[0]), cs[1..])
  }

  function DecodedAll(s: State, cs: seq<Code>): State
    decreases |cs|
  {
    if |cs| == 0 then s else DecodedAll(Decoded(s, cs[0]), cs[1..])
  }

  /** Over every sequence of samples the decoder stays in step with the encoder. */
  lemma {:induction false} LockStep(s: State, xs: seq<Sample>)
    ensures Played(s, Codes(s, xs)) == Predictions(s, xs)
    ensures DecodedAll(s, Codes(s, xs)) == EncodedAll(s, xs)
    decreases |xs|
  {
    if |xs| > 0 {
      InStep(s, xs[0]);
      LockStep(Encoded(s, xs[0]), xs[1..]);
      assert Codes(s, xs)[1..] == Codes(Encoded(s, xs[0]), xs[1..]);
    }
  }

  // ----- the packet --------------------------------------------------------------------------------

  function Unsigned(x: Sample): Half {
    if x < 0 then x + 65536 else x
  }

  function Signed(h: Half): Sample {
    if h >= 32768 then h - 65536 else h
  }

  const PAYLOAD: nat := 124       // ADPCM_PACKET_LEN - 4

  /** Predictor, then the index in the low byte and the payload length in the high byte. */
  function Header(s: State): seq<Half> {
    [Unsigned(s.predict), s.index + 256 * PAYLOAD]
  }

  /** Four codes to a word, the first in the lowest nibble. */
  function Pack(cs: seq<Code>): (ws: seq<Half>)
    ensures |ws| == |cs| / 4
    decreases |cs|
  {
    if |cs| < 4 then [] else [Word(cs[0], cs[1], cs[2], cs[3])] + Pack(cs[4..])
  }

  function Byte(low: Code, high: Code): (b: nat)
    ensures b < 256
  {
    var l: nat, h: nat := low, high;
    l + 16 * h
  }

  function Word(a: Code, b: Code, c: Code, d: Code): Half {
    var low: nat, high: nat := Byte(a, b), Byte(c, d);
    low + 256 * high
  }

  /** Byte k of the payload, as it lies in memory. */
  function PayloadByte(ws: seq<Half>, k: nat): nat
    requires 2 + k / 2 < |ws|
  {
    if k % 2 == 0 then ws[2 + k / 2] % 256 else ws[2 + k / 2] / 256
  }

  /** The code of sample i: even samples in the low nibble of a byte, odd ones in the high. */
  function CodeAt(ws: seq<Half>, i: nat): Code
    requires 2 + i / 4 < |ws|
  {
    var b := PayloadByte(ws, i / 2);
    if i % 2 == 0 then b % 16 else b / 16 % 16
  }

  /** The first n codes of a packet. */
  function Unpack(ws: seq<Half>, n: nat): (cs: seq<Code>)
    requires n == 0 || 2 + (n - 1) / 4 < |ws|
    ensures |cs| == n
  {
    if n == 0 then [] else Unpack(ws, n - 1) + [CodeAt(ws, n - 1)]
  }

  lemma ByteNibbles(low: Code, high: Code)
    ensures Byte(low, high) % 16 == low && Byte(low, high) / 16 % 16 == high
  {
  }

  lemma WordBytes(a: Code, b: Code, c: Code, d: Code)
    ensures Word(a, b, c, d) % 256 == Byte(a, b) && Word(a, b, c, d) / 256 == Byte(c, d)
  {
  }

  lemma {:induction false} PackedWord(cs: seq<Code>, k: nat)
    requires 4 * k + 3 < |cs|
    ensures Pack(cs)[k] == Word(cs[4 * k], cs[4 * k + 1], cs[4 * k + 2], cs[4 * k + 3])
  {
    if k > 0 { PackedWord(cs[4..], k - 1); }
  }

  /** The decoder finds each code where the encoder packed it. */
  lemma CodeFound(h: seq<Half>, cs: seq<Code>, k: nat)
    requires |h| == 2 && |cs| % 4 == 0 && 4 * k + 3 < |cs|
    ensures var ws := h + Pack(cs);
      && CodeAt(ws, 4 * k) == cs[4 * k] && CodeAt(ws, 4 * k + 1) == cs[4 * k + 1]
      && CodeAt(ws, 4 * k + 2) == cs[4 * k + 2] && CodeAt(ws, 4 * k + 3) == cs[4 * k + 3]
  {
    hide Pack, Byte, Word;
    var a, b, c, d := cs[4 * k], cs[4 * k + 1], cs[4 * k + 2], cs[4 * k + 3];
    PackedWord(cs, k);
    WordBytes(a, b, c, d);
    ByteNibbles(a, b);
    ByteNibbles(c, d);
    var ws := h + Pack(cs);
    assert ws[2 + k] == Word(a, b, c, d);
    assert PayloadByte(ws, 2 * k) == Byte(a, b) && PayloadByte(ws, 2 * k + 1) == Byte(c, d);
  }

  lemma {:induction false} UnpackPack(h: seq<Half>, cs: seq<Code>, n: nat)
    requires |h| == 2 && |cs| % 4 == 0 && n <= |cs|
    ensures Unpack(h + Pack(cs), n) == cs[..n]
  {
    hide CodeAt, Pack;
    if n > 0 {
      UnpackPack(h, cs, n - 1);
      CodeFound(h, cs, (n - 1) / 4);
      assert n - 1 == 4 * ((n - 1) / 4) + (n - 1) % 4;
    }
  }

  /** The packet for samples that start in state s. */
  function Packet(s: State, xs: seq<Sample>): seq<Half> {
    Header(s) + Pack(Codes(s, xs))
  }

  /** The state a packet's header stands for, if its index byte is one the encoder writes. */
  predicate GoodHeader(ws: seq<Half>) {
    |ws| >= 2 && ws[1] % 256 <= 88
  }

  function HeaderState(ws: seq<Half>): State
    requires GoodHeader(ws)
  {
    State(Signed(ws[0]), ws[1] % 256)
  }

  lemma HeaderKept(s: State, payload: seq<Half>)
    ensures GoodHeader(Header(s) + payload) && HeaderState(Header(s) + payload) == s
  {
  }

  /**
    Through header, packing and unpacking: decoding the packet plays the
    encoder's predictions and ends in the encoder's state.
   */
  lemma PacketRoundTrip(s: State, xs: seq<Sample>)
    requires |xs| % 4 == 0
    ensures var ws := Packet(s, xs);
      && GoodHeader(ws) && HeaderState(ws) == s
      && Played(HeaderState(ws), Unpack(ws, |xs|)) == Predictions(s, xs)
      && DecodedAll(HeaderState(ws), Unpack(ws, |xs|)) == EncodedAll(s, xs)
  {
    hide Unpack, Pack, Codes, Played, Predictions, DecodedAll, EncodedAll;
    HeaderKept(s, Pack(Codes(s, xs)));
    LockStep(s, xs);
    UnpackPack(Header(s), Codes(s, xs), |xs|);
    assert Codes(s, xs)[..|xs|] == Codes(s, xs);
  }

  /** Byte k of a packet in memory. */
  function MemoryByte(ws: seq<Half>, k: nat): nat
    requires k / 2 < |ws|
  {
    if k % 2 == 0 then ws[k / 2] % 256 else ws[k / 2] / 256
  }

  /** Where everything is: predictor, index, payload length, then two codes to a byte, the earlier in the low nibble. */
  lemma PacketLayout(s: State, xs: seq<Sample>, k: nat)
    requires |xs| % 4 == 0 && 2 * k + 1 < |xs|
    ensures var ws, early: nat, late: nat := Packet(s, xs), Codes(s, xs)[2 * k], Codes(s, xs)[2 * k + 1];
      && |ws| == 2 + |xs| / 4
      && (MemoryByte(ws, 0) + 256 * MemoryByte(ws, 1) - s.predict) % 65536 == 0
      && MemoryByte(ws, 2) == s.index && MemoryByte(ws, 3) == 124
      && MemoryByte(ws, 4 + k) == early + 16 * late
  {
    hide Codes, Pack, Word;
    var cs, j := Codes(s, xs), k / 2;
    PackedWord(cs, j);
    WordBytes(cs[4 * j], cs[4 * j + 1], cs[4 * j + 2], cs[4 * j + 3]);
    assert Packet(s, xs)[2 + j] == Pack(cs)[j];
    assert k == 2 * j + k % 2;
  }
}
