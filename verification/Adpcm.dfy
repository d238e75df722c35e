/** IMA-ADPCM: the encoder of firmware/apps/korvo-ble/adpcm_encoder.h against the decoder of
    firmware/components/agent_link/src/audio/adpcm.h.

    The two files hold separate code. Here the decoder gives the meaning of a code, and the encoder is
    proved to keep its predictor and step index where the decoder will put them, to track the input with
    a bounded error, and to converge on a constant input. */
module Adpcm {
  import opened Basics

  type StepIndex = i: int | 0 <= i <= 88
  type Code = c: int | 0 <= c < 16

  const BLOCK_BYTES := 256
  const SAMPLES_PER_BLOCK := 505

  /** `kStepTable`. */
  function Step(i: StepIndex): int {
    match i
    case 0 => 7 case 1 => 8 case 2 => 9 case 3 => 10 case 4 => 11
    case 5 => 12 case 6 => 13 case 7 => 14 case 8 => 16 case 9 => 17
    case 10 => 19 case 11 => 21 case 12 => 23 case 13 => 25 case 14 => 28
    case 15 => 31 case 16 => 34 case 17 => 37 case 18 => 41 case 19 => 45
    case 20 => 50 case 21 => 55 case 22 => 60 case 23 => 66 case 24 => 73
    case 25 => 80 case 26 => 88 case 27 => 97 case 28 => 107 case 29 => 118
    case 30 => 130 case 31 => 143 case 32 => 157 case 33 => 173 case 34 => 190
    case 35 => 209 case 36 => 230 case 37 => 253 case 38 => 279 case 39 => 307
    case 40 => 337 case 41 => 371 case 42 => 408 case 43 => 449 case 44 => 494
    case 45 => 544 case 46 => 598 case 47 => 658 case 48 => 724 case 49 => 796
    case 50 => 876 case 51 => 963 case 52 => 1060 case 53 => 1166 case 54 => 1282
    case 55 => 1411 case 56 => 1552 case 57 => 1707 case 58 => 1878 case 59 => 2066
    case 60 => 2272 case 61 => 2499 case 62 => 2749 case 63 => 3024 case 64 => 3327
    case 65 => 3660 case 66 => 4026 case 67 => 4428 case 68 => 4871 case 69 => 5358
    case 70 => 5894 case 71 => 6484 case 72 => 7132 case 73 => 7845 case 74 => 8630
    case 75 => 9493 case 76 => 10442 case 77 => 11487 case 78 => 12635 case 79 => 13899
    case 80 => 15289 case 81 => 16818 case 82 => 18500 case 83 => 20350 case 84 => 22385
    case 85 => 24623 case 86 => 27086 case 87 => 29794
    case _ => 32767
  }

  /** `kIndexTable`: the sign bit of a code plays no part. */
  function IndexStep(c: Code): int {
    match c % 8
    case 4 => 2
    case 5 => 4
    case 6 => 6
    case 7 => 8
    case _ => -1
  }

  /** What both sides carry from sample to sample. */
  datatype State = State(predictor: Sample, stepIndex: StepIndex)

  function Abs(x: int): nat { if x < 0 then -x else x }

  function ClampSample(x: int): Sample {
    if x > 32767 then 32767 else if x < -32768 then -32768 else x
  }

  function ClampIndex(x: int): StepIndex {
    if x < 0 then 0 else if x > 88 then 88 else x
  }

  function Bit(c: Code, weight: int): bool
    requires weight in {1, 2, 4, 8}
  {
    c / weight % 2 == 1
  }

  // ---------------------------------------------------------------- the decoder

  /** The step a code stands for, before its sign. */
  function Delta(c: Code, step: int): int {
    step / 8 + (if Bit(c, 4) then step else 0) + (if Bit(c, 2) then step / 2 else 0) + (if Bit(c, 1) then step / 4 else 0)
  }

  function DecodeSample(c: Code, st: State): State {
    var delta := Delta(c, Step(st.stepIndex));
    State(ClampSample(if Bit(c, 8) then st.predictor - delta else st.predictor + delta),
          ClampIndex(st.stepIndex + IndexStep(c)))
  }

  function Nibble(block: seq<Byte>, n: nat): Code
    requires |block| == BLOCK_BYTES && 1 <= n < SAMPLES_PER_BLOCK
  {
    var b := block[4 + (n - 1) / 2];
    if n % 2 == 1 then b % 16 else b / 16
  }

  function ReadHeader(block: seq<Byte>): State
    requires |block| == BLOCK_BYTES
  {
    var lo: int, hi: int := block[0], block[1];
    var u := lo + 256 * hi;
    var i: int := block[2];
    State(if u >= 32768 then u - 65536 else u, ClampIndex(if i >= 128 then i - 256 else i))
  }

  /** The decoder's state once it has produced `n` samples of the block. */
  function Decoded(block: seq<Byte>, n: nat): State
    requires |block| == BLOCK_BYTES && 1 <= n <= SAMPLES_PER_BLOCK
  {
    if n == 1 then ReadHeader(block) else DecodeSample(Nibble(block, n - 1), Decoded(block, n - 1))
  }

  // ---------------------------------------------------------------- the encoder's choice of code

  function Packed(negative: bool, b4: bool, b2: bool, b1: bool): Code {
    (if negative then 8 else 0) + (if b4 then 4 else 0) + (if b2 then 2 else 0) + (if b1 then 1 else 0)
  }

  lemma PackedBits(negative: bool, b4: bool, b2: bool, b1: bool)
    ensures var c := Packed(negative, b4, b2, b1);
      Bit(c, 8) == negative && Bit(c, 4) == b4 && Bit(c, 2) == b2 && Bit(c, 1) == b1
  {
  }

  /** Successive comparison of the error with the step, half the step and a quarter of it. */
  function Quantise(diff: int, step: int): Code {
    var d := Abs(diff);
    var d4 := if d >= step then d - step else d;
    var d2 := if d4 >= step / 2 then d4 - step / 2 else d4;
    Packed(diff < 0, d >= step, d4 >= step / 2, d2 >= step / 4)
  }

  function Encoded(sample: Sample, st: State): Code { Quantise(sample - st.predictor, Step(st.stepIndex)) }

  /** The state the decoder reaches on the code chosen for `sample`. */
  function Coded(sample: Sample, st: State): State { DecodeSample(Encoded(sample, st), st) }

  method EncodeSample(sample: Sample, predictor: Sample, stepIndex: StepIndex)
    returns (code: Code, predictor': Sample, stepIndex': StepIndex)
    ensures code == Encoded(sample, State(predictor, stepIndex))
    ensures State(predictor', stepIndex') == DecodeSample(code, State(predictor, stepIndex))
  {
    var step := Step(stepIndex);
    var pred;
    code, pred := QuantiseStep(sample - predictor, step, predictor);
    if pred > 32767 { pred := 32767; }
    if pred < -32768 { pred := -32768; }
    predictor' := pred;
    var idx := stepIndex + IndexStep(code);
    if idx < 0 { idx := 0; }
    if idx > 88 { idx := 88; }
    stepIndex' := idx;
  }

  /** The first half of `EncodeSample`: the code, and the predictor before clamping. `vpdiff` accumulates
      what the decoder will add back. */
  method QuantiseStep(error: int, step: int, predictor: int) returns (code: Code, pred: int)
    ensures code == Quantise(error, step)
    ensures pred == if Bit(code, 8) then predictor - Delta(code, step) else predictor + Delta(code, step)
  {
    var diff, bits := error, 0;
    if diff < 0 { bits := 8; diff := -diff; }
    var vpdiff := step / 8;
    ghost var b4 := diff >= step;
    if diff >= step { bits := bits + 4; diff := diff - step; vpdiff := vpdiff + step; }
    ghost var b2 := diff >= step / 2;
    if diff >= step / 2 { bits := bits + 2; diff := diff - step / 2; vpdiff := vpdiff + step / 2; }
    ghost var b1 := diff >= step / 4;
    if diff >= step / 4 { bits := bits + 1; vpdiff := vpdiff + step / 4; }
    code := bits;
    PackedBits(error < 0, b4, b2, b1);
    if Bit(code, 8) { pred := predictor - vpdiff; } else { pred := predictor + vpdiff; }
  }

  // ---------------------------------------------------------------- facts of the step table

  lemma StepBounds(i: StepIndex)
    ensures 7 <= Step(i) <= 32767
    ensures i == 0 ==> Step(i) == 7
    ensures i == 88 ==> Step(i) == 32767
  {
  }

  /** Neighbouring steps are close: one step down still covers an eighth of the larger one and more. */
  lemma StepNeighbours(i: StepIndex)
    requires i < 88
    ensures Step(i) < Step(i + 1)
    ensures Step(i + 1) / 8 + 2 < Step(i)
  {
    if i < 44 {
      if i < 11 {} else if i < 22 {} else if i < 33 {} else {}
    } else {
      if i < 55 {} else if i < 66 {} else if i < 77 {} else {}
    }
  }

  /** Each step is the one before and a tenth of it, to within one; the last is the largest sample. */
  lemma StepsGrowByATenth(i: StepIndex)
    requires i < 87
    ensures -8 <= 10 * Step(i + 1) - 11 * Step(i) <= 8
  {
    if i < 44 {
      if i < 11 {} else if i < 22 {} else if i < 33 {} else {}
    } else {
      if i < 55 {} else if i < 66 {} else if i < 77 {} else {}
    }
  }

  /** The index falls by one on the four small codes and rises by 2, 4, 6 or 8 on the large ones, whatever the sign. */
  lemma IndexSteps(c: Code)
    ensures IndexStep(c) == if c % 8 < 4 then -1 else 2 * (c % 8 - 3)
  {
  }

  lemma {:induction false} StepMonotone(i: StepIndex, j: StepIndex)
    requires i <= j
    ensures Step(i) <= Step(j)
    decreases j - i
  {
    if i < j {
      StepNeighbours(j - 1);
      StepMonotone(i, j - 1);
    }
  }

  // ---------------------------------------------------------------- tracking

  /** The three comparisons on plain numbers. */
  lemma QuantiseError(diff: int, step: int)
    requires 7 <= step <= 32767
    ensures var c := Quantise(diff, step);
      && Bit(c, 8) == (diff < 0)
      && (Abs(diff) < step ==> c % 8 < 4)
      && (step <= Abs(diff) ==> 4 <= c % 8)
      && (Abs(diff) < 2 * step ==> Abs(Abs(diff) - Delta(c, step)) <= step / 8 + 2)
      && (2 * step <= Abs(diff) ==> c % 8 == 7 && 0 < Delta(c, step) <= Abs(diff))
  {
    var d := Abs(diff);
    var d4 := if d >= step then d - step else d;
    var d2 := if d4 >= step / 2 then d4 - step / 2 else d4;
    PackedBits(diff < 0, d >= step, d4 >= step / 2, d2 >= step / 4);
  }

  function Error(sample: Sample, st: State): nat { Abs(sample - st.predictor) }

  /** One coded sample. Within twice the step the new error is an eighth of the step, give or take 2, and
      clamping the predictor never makes it worse. Further away the predictor closes in without passing
      the sample and the step index jumps by 8. */
  lemma Tracking(sample: Sample, st: State)
    ensures var step := Step(st.stepIndex);
      var next := Coded(sample, st);
      && (Error(sample, st) < 2 * step ==> Error(sample, next) <= step / 8 + 2)
      && (2 * step <= Error(sample, st) ==>
            && Error(sample, next) < Error(sample, st)
            && (st.predictor < sample ==> next.predictor <= sample)
            && (sample < st.predictor ==> sample <= next.predictor)
            && next.stepIndex == if st.stepIndex > 80 then 88 else st.stepIndex + 8)
      && (Error(sample, st) < step ==> next.stepIndex == if st.stepIndex == 0 then 0 else st.stepIndex - 1)
      && (step <= Error(sample, st) ==> st.stepIndex <= next.stepIndex)
  {
    hide Step, Quantise, Delta;
    StepBounds(st.stepIndex);
    QuantiseError(sample - st.predictor, Step(st.stepIndex));
  }

  /** The coder fed the same sample `n` times. */
  function Held(sample: Sample, st: State, n: nat): State
    decreases n
  {
    if n == 0 then st else Held(sample, Coded(sample, st), n - 1)
  }

  /** How many samples at most until the coder has settled on a held input. */
  function Budget(sample: Sample, st: State): nat {
    var e := Error(sample, st);
    var step := Step(st.stepIndex);
    if st.stepIndex == 0 && e <= 2 then 0
    else if e < step then st.stepIndex + 1
    else if e < 2 * step then 90
    else 90 + (95 - st.stepIndex) / 8
  }

  lemma BudgetDrops(sample: Sample, st: State)
    ensures var next := Coded(sample, st);
      if Budget(sample, st) == 0 then Budget(sample, next) == 0 else Budget(sample, next) < Budget(sample, st)
  {
    var next := Coded(sample, st);
    var e, step, i, j := Error(sample, st), Step(st.stepIndex), st.stepIndex, next.stepIndex;
    Tracking(sample, st);
    StepBounds(i);
    StepBounds(j);
    if e < step {
      if i > 0 { StepNeighbours(i - 1); }
    } else if e < 2 * step {
      StepMonotone(i, j);
    } else if i == 88 {
      FarAtLargestStep(sample, st);
    }
  }

  /** Only the two ends of the sample range are two largest steps apart; one code crosses most of it. */
  lemma FarAtLargestStep(sample: Sample, st: State)
    requires st.stepIndex == 88 && 2 * Step(88) <= Error(sample, st)
    ensures Error(sample, Coded(sample, st)) < Step(88)
  {
    QuantiseError(sample - st.predictor, 32767);
    var c := Encoded(sample, st);
    PackedBits(sample < st.predictor, true, true, true);
    assert c == Packed(sample < st.predictor, true, true, true);
    assert Delta(c, 32767) == 61436;
  }

  lemma {:induction false} HeldWithin(sample: Sample, st: State, n: nat)
    requires Budget(sample, st) <= n
    ensures Budget(sample, Held(sample, st, n)) == 0
    decreases n
  {
    if n > 0 {
      BudgetDrops(sample, st);
      HeldWithin(sample, Coded(sample, st), n - 1);
    }
  }

  /** On a constant input the reconstruction is within 2 of it after at most 101 samples, from any state,
      and it stays there. */
  lemma Converges(sample: Sample, st: State, n: nat)
    requires 101 <= n
    ensures Error(sample, Held(sample, st, n)) <= 2
    ensures Held(sample, st, n).stepIndex == 0
  {
    hide Held, Step, Coded;
    StepBounds(st.stepIndex);
    StepBounds(Held(sample, st, n).stepIndex);
    HeldWithin(sample, st, n);
  }

  // ---------------------------------------------------------------- blocks

  /** The coder's state after the first `n` samples of a block; the first one is taken verbatim. */
  function Tracked(pcm: seq<Sample>, stepIndex: StepIndex, n: nat): State
    requires 1 <= n <= |pcm|
  {
    if n == 1 then State(pcm[0], stepIndex) else Coded(pcm[n - 1], Tracked(pcm, stepIndex, n - 1))
  }

  function CodeAt(pcm: seq<Sample>, stepIndex: StepIndex, n: nat): Code
    requires 1 <= n < |pcm|
  {
    Encoded(pcm[n], Tracked(pcm, stepIndex, n))
  }

  function Header(first: Sample, stepIndex: StepIndex): seq<Byte> {
    var x: int := first;
    [x % 256, x / 256 % 256, stepIndex, 0]
  }

  function PackPair(lo: Code, hi: Code): Byte { 16 * (hi as int) + lo }

  /** Two codes to a byte, the earlier sample in the low nibble. */
  function CodePair(pcm: seq<Sample>, stepIndex: StepIndex, i: nat): Byte
    requires 2 * i + 2 < |pcm|
  {
    PackPair(CodeAt(pcm, stepIndex, 2 * i + 1), CodeAt(pcm, stepIndex, 2 * i + 2))
  }

  function BlockOf(pcm: seq<Sample>, stepIndex: StepIndex): (block: seq<Byte>)
    requires |pcm| == SAMPLES_PER_BLOCK
    ensures |block| == BLOCK_BYTES
  {
    Header(pcm[0], stepIndex) + seq(BLOCK_BYTES - 4, i requires 0 <= i < BLOCK_BYTES - 4 => CodePair(pcm, stepIndex, i))
  }

  lemma BlockFromParts(bytes: seq<Byte>, pcm: seq<Sample>, stepIndex: StepIndex)
    requires |pcm| == SAMPLES_PER_BLOCK && |bytes| == BLOCK_BYTES
    requires bytes[..4] == Header(pcm[0], stepIndex)
    requires forall i :: 0 <= i < BLOCK_BYTES - 4 ==> bytes[4 + i] == CodePair(pcm, stepIndex, i)
    ensures bytes == BlockOf(pcm, stepIndex)
  {
    hide CodePair, Header;
    forall i | 0 <= i < BLOCK_BYTES ensures bytes[i] == BlockOf(pcm, stepIndex)[i] {
      if i < 4 { assert bytes[..4][i] == bytes[i]; } else { assert bytes[4 + (i - 4)] == CodePair(pcm, stepIndex, i - 4); }
    }
  }

  /** The step index the encoder carries out of a block. */
  function IndexAfter(pcm: seq<Sample>, stepIndex: StepIndex): StepIndex
    requires |pcm| == SAMPLES_PER_BLOCK
  {
    Tracked(pcm, stepIndex, SAMPLES_PER_BLOCK).stepIndex
  }

  lemma HeaderRoundTrip(pcm: seq<Sample>, stepIndex: StepIndex)
    requires |pcm| == SAMPLES_PER_BLOCK
    ensures ReadHeader(BlockOf(pcm, stepIndex)) == State(pcm[0], stepIndex)
  {
    var x: int := pcm[0];
    assert x == 256 * (x / 256) + x % 256;
    assert x / 256 % 256 == if x < 0 then x / 256 + 256 else x / 256;
  }

  lemma NibblesOfByte(block: seq<Byte>, i: nat, lo: Code, hi: Code)
    requires |block| == BLOCK_BYTES && i < BLOCK_BYTES - 4 && block[4 + i] == PackPair(lo, hi)
    ensures Nibble(block, 2 * i + 1) == lo && Nibble(block, 2 * i + 2) == hi
  {
    assert (2 * i + 1 - 1) / 2 == i && (2 * i + 2 - 1) / 2 == i;
  }

  lemma NibbleRoundTrip(pcm: seq<Sample>, stepIndex: StepIndex, n: nat)
    requires |pcm| == SAMPLES_PER_BLOCK && 1 <= n < SAMPLES_PER_BLOCK
    ensures Nibble(BlockOf(pcm, stepIndex), n) == CodeAt(pcm, stepIndex, n)
  {
    hide CodeAt, Nibble;
    var i := (n - 1) / 2;
    var lo, hi := CodeAt(pcm, stepIndex, 2 * i + 1), CodeAt(pcm, stepIndex, 2 * i + 2);
    var block := BlockOf(pcm, stepIndex);
    assert block[4 + i] == CodePair(pcm, stepIndex, i);
    NibblesOfByte(block, i, lo, hi);
    assert n == 2 * i + 1 || n == 2 * i + 2;
  }

  /** Lockstep: after every sample of the block the decoder is in the encoder's own state. */
  lemma {:induction false} Lockstep(pcm: seq<Sample>, stepIndex: StepIndex, n: nat)
    requires |pcm| == SAMPLES_PER_BLOCK && 1 <= n <= SAMPLES_PER_BLOCK
    ensures Decoded(BlockOf(pcm, stepIndex), n) == Tracked(pcm, stepIndex, n)
  {
    if n == 1 {
      HeaderRoundTrip(pcm, stepIndex);
    } else {
      NibbleRoundTrip(pcm, stepIndex, n - 1);
      Lockstep(pcm, stepIndex, n - 1);
    }
  }
}
