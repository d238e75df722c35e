/** The streaming encoder of firmware/apps/korvo-ble/adpcm_encoder.h: samples in, 256-byte blocks out. */
module AdpcmEncoder {
  import opened Basics
  import opened Adpcm

  // ---------------------------------------------------------------- the stream as a value

  /** The samples of block `k`. */
  function Chunk(samples: seq<Sample>, k: nat): seq<Sample>
    requires SAMPLES_PER_BLOCK * (k + 1) <= |samples|
  {
    samples[SAMPLES_PER_BLOCK * k..SAMPLES_PER_BLOCK * (k + 1)]
  }

  /** The step index that enters block `k`: zero at the start, then whatever the block before left. */
  function IndexInto(samples: seq<Sample>, k: nat): StepIndex
    requires SAMPLES_PER_BLOCK * k <= |samples|
  {
    if k == 0 then 0 else IndexAfter(Chunk(samples, k - 1), IndexInto(samples, k - 1))
  }

  function BlockAt(samples: seq<Sample>, k: nat): (block: seq<Byte>)
    requires SAMPLES_PER_BLOCK * (k + 1) <= |samples|
    ensures |block| == BLOCK_BYTES
  {
    BlockOf(Chunk(samples, k), IndexInto(samples, k))
  }

  /** The first `n` blocks, one after the other. */
  function Blocks(samples: seq<Sample>, n: nat): (bytes: seq<Byte>)
    requires SAMPLES_PER_BLOCK * n <= |samples|
    ensures |bytes| == BLOCK_BYTES * n
  {
    if n == 0 then [] else Blocks(samples, n - 1) + BlockAt(samples, n - 1)
  }

  function BlockCount(n: nat): nat { (n + SAMPLES_PER_BLOCK - 1) / SAMPLES_PER_BLOCK }

  /** The last sample held to the end of its block. */
  function Padded(samples: seq<Sample>): (padded: seq<Sample>)
    ensures |padded| == SAMPLES_PER_BLOCK * BlockCount(|samples|)
    ensures samples <= padded
  {
    var missing := SAMPLES_PER_BLOCK * BlockCount(|samples|) - |samples|;
    if samples == [] then [] else samples + seq(missing, _ => samples[|samples| - 1])
  }

  lemma PaddedSize(samples: seq<Sample>, blocks: nat, rest: nat)
    requires |samples| == SAMPLES_PER_BLOCK * blocks + rest && rest < SAMPLES_PER_BLOCK
    ensures BlockCount(|samples|) == if rest == 0 then blocks else blocks + 1
    ensures rest == 0 ==> Padded(samples) == samples
  {
  }

  /** Everything Push and then Flush emit for a recording. */
  function EncodedStream(samples: seq<Sample>): seq<Byte> {
    Blocks(Padded(samples), BlockCount(|samples|))
  }

  lemma {:induction false} BlocksPrefix(samples: seq<Sample>, more: seq<Sample>, n: nat)
    requires SAMPLES_PER_BLOCK * n <= |samples| && samples <= more
    ensures Blocks(samples, n) == Blocks(more, n) && IndexInto(samples, n) == IndexInto(more, n)
  {
    hide BlockOf, IndexAfter;
    if n > 0 {
      BlocksPrefix(samples, more, n - 1);
      assert Chunk(samples, n - 1) == Chunk(more, n - 1);
    }
  }

  lemma {:induction false} BlockInStream(samples: seq<Sample>, n: nat, k: nat)
    requires SAMPLES_PER_BLOCK * n <= |samples| && k < n
    ensures Blocks(samples, n)[BLOCK_BYTES * k..BLOCK_BYTES * (k + 1)] == BlockAt(samples, k)
  {
    hide BlockOf, IndexAfter;
    if k < n - 1 {
      BlockInStream(samples, n - 1, k);
      assert Blocks(samples, n)[BLOCK_BYTES * k..BLOCK_BYTES * (k + 1)]
          == Blocks(samples, n - 1)[BLOCK_BYTES * k..BLOCK_BYTES * (k + 1)];
    }
  }

  lemma BlockLockstep(pcm: seq<Sample>, index: StepIndex, n: nat)
    requires |pcm| == SAMPLES_PER_BLOCK && 1 <= n <= SAMPLES_PER_BLOCK
    ensures var block := BlockOf(pcm, index);
      && ReadHeader(block) == State(pcm[0], index) && block[2] as int == index
      && Decoded(block, n) == Tracked(pcm, index, n) && Decoded(block, SAMPLES_PER_BLOCK).stepIndex == IndexAfter(pcm, index)
  {
    HeaderIndex(pcm, index);
    hide Decoded, Tracked, ReadHeader, BlockOf;
    HeaderRoundTrip(pcm, index);
    Lockstep(pcm, index, n);
    Lockstep(pcm, index, SAMPLES_PER_BLOCK);
  }

  lemma HeaderIndex(pcm: seq<Sample>, index: StepIndex)
    requires |pcm| == SAMPLES_PER_BLOCK
    ensures BlockOf(pcm, index)[2] as int == index
  {
  }

  /** The whole stream of any recording, read block by block with the decoder. */
  lemma StreamLockstep(samples: seq<Sample>, k: nat, n: nat)
    requires k < BlockCount(|samples|) && 1 <= n <= SAMPLES_PER_BLOCK
    ensures |EncodedStream(samples)| == BLOCK_BYTES * BlockCount(|samples|)
    ensures var block := EncodedStream(samples)[BLOCK_BYTES * k..BLOCK_BYTES * (k + 1)];
      var pcm := Chunk(Padded(samples), k);
      && ReadHeader(block) == State(samples[SAMPLES_PER_BLOCK * k], IndexInto(Padded(samples), k))
      && 0 <= block[2] <= 88 && block[2] as int == IndexInto(Padded(samples), k)
      && Decoded(block, n) == Tracked(pcm, IndexInto(Padded(samples), k), n)
      && Decoded(block, SAMPLES_PER_BLOCK).stepIndex == IndexInto(Padded(samples), k + 1)
  {
    hide Padded, BlockOf, Decoded, Tracked, ReadHeader, IndexAfter, Blocks;
    var padded := Padded(samples);
    BlockInStream(padded, BlockCount(|samples|), k);
    BlockLockstep(Chunk(padded, k), IndexInto(padded, k), n);
  }

  // ---------------------------------------------------------------- the end of a recording

  lemma {:induction false} HeldOnce(sample: Sample, st: State, n: nat)
    ensures Held(sample, st, n + 1) == Coded(sample, Held(sample, st, n))
    decreases n
  {
    hide Coded;
    if n > 0 { HeldOnce(sample, Coded(sample, st), n - 1); }
  }

  /** From sample `r` on a block that repeats one sample is a held input. */
  lemma {:induction false} TrackedHeld(pcm: seq<Sample>, index: StepIndex, r: nat, n: nat)
    requires 1 <= r <= n <= |pcm| && forall i :: r <= i < n ==> pcm[i] == pcm[r - 1]
    ensures Tracked(pcm, index, n) == Held(pcm[r - 1], Tracked(pcm, index, r), n - r)
  {
    hide Coded;
    if r < n {
      TrackedHeld(pcm, index, r, n - 1);
      HeldOnce(pcm[r - 1], Tracked(pcm, index, r), n - 1 - r);
    }
  }

  /** What fills the last block cannot be heard: the decoder stays at the last sample, within 2 from 101 samples
      after it on. */
  lemma PaddingSettles(samples: seq<Sample>, n: nat)
    requires samples != []
    requires var r := |samples| - SAMPLES_PER_BLOCK * (BlockCount(|samples|) - 1); r + 101 <= n <= SAMPLES_PER_BLOCK
    ensures var b := BlockCount(|samples|) - 1;
      && |EncodedStream(samples)| == BLOCK_BYTES * (b + 1)
      && Error(samples[|samples| - 1], Decoded(EncodedStream(samples)[BLOCK_BYTES * b..BLOCK_BYTES * (b + 1)], n)) <= 2
  {
    hide Decoded, Tracked, Held, EncodedStream, Padded, IndexInto, Error;
    var b := BlockCount(|samples|) - 1;
    var r := |samples| - SAMPLES_PER_BLOCK * b;
    var pcm, index := Chunk(Padded(samples), b), IndexInto(Padded(samples), b);
    StreamLockstep(samples, b, n);
    PaddingRepeats(samples);
    TrackedHeld(pcm, index, r, n);
    Converges(pcm[r - 1], Tracked(pcm, index, r), n - r);
  }

  /** Behind the samples the last one is repeated. */
  lemma PaddingRepeats(samples: seq<Sample>)
    ensures forall i :: |samples| <= i < |Padded(samples)| ==> Padded(samples)[i] == samples[|samples| - 1]
  {
  }

  // ---------------------------------------------------------------- the encoder object

  class Encoder {
    var pcm: array<Sample>
    var count: nat
    var stepIndex: StepIndex
    /** Every sample this encoder has coded or holds, padding included, and the blocks they filled. */
    ghost var fed: seq<Sample>
    ghost var blocks: nat

    ghost predicate Valid()
      reads this, pcm
    {
      && pcm.Length == SAMPLES_PER_BLOCK
      && count < SAMPLES_PER_BLOCK
      && |fed| == SAMPLES_PER_BLOCK * blocks + count
      && pcm[..count] == fed[SAMPLES_PER_BLOCK * blocks..]
      && stepIndex == IndexInto(fed, blocks)
    }

    constructor ()
      ensures Valid() && fresh(pcm) && fed == [] && blocks == 0
    {
      pcm := new Sample[SAMPLES_PER_BLOCK];
      count, stepIndex, fed, blocks := 0, 0, [], 0;
    }

    method Reset()
      requires Valid()
      modifies this
      ensures Valid() && pcm == old(pcm) && fed == [] && blocks == 0
    {
      count, stepIndex, fed, blocks := 0, 0, [], 0;
    }

    method Push(sample: Sample, block: array<Byte>) returns (full: bool)
      requires Valid() && block.Length >= BLOCK_BYTES && pcm as object != block
      modifies this, pcm, block
      ensures Valid() && pcm == old(pcm) && fed == old(fed) + [sample]
      ensures full == (count == 0) && blocks == old(blocks) + (if full then 1 else 0)
      ensures full ==> block[..BLOCK_BYTES] == BlockAt(fed, blocks - 1)
      ensures !full ==> block[..] == old(block[..])
    {
      hide BlockOf, IndexAfter;
      pcm[count] := sample;
      count := count + 1;
      BlocksPrefix(fed, fed + [sample], blocks);
      fed := fed + [sample];
      assert pcm[..count] == fed[SAMPLES_PER_BLOCK * blocks..];
      if count < SAMPLES_PER_BLOCK { return false; }
      EncodeFull(block);
      return true;
    }

    method Flush(block: array<Byte>) returns (bytes: nat)
      requires Valid() && block.Length >= BLOCK_BYTES && pcm as object != block
      modifies this, pcm, block
      ensures Valid() && pcm == old(pcm) && fed == Padded(old(fed)) && count == 0
      ensures bytes == if old(count) == 0 then 0 else BLOCK_BYTES
      ensures bytes == 0 ==> block[..] == old(block[..]) && blocks == old(blocks)
      ensures bytes > 0 ==> blocks == old(blocks) + 1 && block[..BLOCK_BYTES] == BlockAt(fed, blocks - 1)
    {
      hide BlockOf, IndexAfter;
      PaddedSize(fed, blocks, count);
      if count == 0 { return 0; }
      var hold := pcm[count - 1];
      while count < SAMPLES_PER_BLOCK
        invariant old(count) <= count <= pcm.Length == SAMPLES_PER_BLOCK
        invariant pcm == old(pcm) && fed == old(fed) && stepIndex == old(stepIndex) && blocks == old(blocks)
        invariant pcm[..old(count)] == old(pcm[..count])
        invariant forall i :: old(count) <= i < count ==> pcm[i] == hold
      {
        pcm[count] := hold;
        count := count + 1;
      }
      assert hold == fed[|fed| - 1];
      BlocksPrefix(fed, Padded(fed), blocks);
      fed := Padded(fed);
      assert pcm[..count] == fed[SAMPLES_PER_BLOCK * blocks..];
      EncodeFull(block);
      return BLOCK_BYTES;
    }

    /** The call of `EncodeBlock` and the reset of `count_` that Push and Flush share. */
    method EncodeFull(block: array<Byte>)
      requires pcm.Length == SAMPLES_PER_BLOCK == count && block.Length >= BLOCK_BYTES && pcm as object != block
      requires |fed| == SAMPLES_PER_BLOCK * (blocks + 1) && pcm[..] == fed[SAMPLES_PER_BLOCK * blocks..]
      requires stepIndex == IndexInto(fed, blocks)
      modifies this`count, this`stepIndex, this`blocks, block
      ensures Valid() && count == 0 && blocks == old(blocks) + 1
      ensures block[..BLOCK_BYTES] == BlockAt(fed, blocks - 1)
    {
      hide BlockOf, IndexAfter;
      assert pcm[..] == Chunk(fed, blocks);
      EncodeBlock(block);
      count, blocks := 0, blocks + 1;
    }

    method EncodeBlock(out: array<Byte>)
      requires pcm.Length == SAMPLES_PER_BLOCK && out.Length >= BLOCK_BYTES && pcm as object != out
      modifies this`stepIndex, out
      ensures out[..BLOCK_BYTES] == BlockOf(pcm[..], old(stepIndex))
      ensures stepIndex == IndexAfter(pcm[..], old(stepIndex))
    {
      hide Encoded, DecodeSample, BlockOf, PackPair;
      var predictor := pcm[0];
      var x: int := predictor;
      out[0] := x % 256;
      out[1] := x / 256 % 256;
      out[2] := stepIndex;
      out[3] := 0;
      ghost var samples, entered := pcm[..], stepIndex;
      assert out[..4] == Header(samples[0], entered);
      var n := 1;
      for i := 0 to BLOCK_BYTES - 4
        invariant n == 2 * i + 1
        invariant State(predictor, stepIndex) == Tracked(samples, entered, n)
        invariant out[..4] == Header(samples[0], entered)
        invariant forall j :: 0 <= j < i ==> out[4 + j] == CodePair(samples, entered, j)
      {
        var lo, hi;
        lo, predictor, stepIndex := EncodeSample(pcm[n], predictor, stepIndex);
        assert lo == CodeAt(samples, entered, n);
        n := n + 1;
        assert State(predictor, stepIndex) == Tracked(samples, entered, n);
        hi, predictor, stepIndex := EncodeSample(pcm[n], predictor, stepIndex);
        assert hi == CodeAt(samples, entered, n);
        n := n + 1;
        out[4 + i] := PackPair(lo, hi);
      }
      BlockFromParts(out[..BLOCK_BYTES], samples, entered);
    }
  }
}
