/** The music task of firmware/apps/paper-s31-wifi/paper_music.cc: a WAV file read chunk by chunk and brought to
    16 kHz mono by repeating or dropping frames. */
module Resampler {
  import opened Basics
  import opened WavFile
  import opened WavReader

  const RATE := 16000
  const INPUT_BYTES := 2048
  const OUTPUT_SAMPLES := 2048

  // ---------------------------------------------------------------- the output as a value

  /** Integer division by two as in C. */
  function Halved(x: int): int { if x >= 0 then x / 2 else -(-x / 2) }

  function FrameCount(pcm: seq<Byte>, channels: Channels): nat { |pcm| / (2 * channels) }

  /** A frame as one channel: the mean of the two, rounded toward zero. */
  function FrameValue(pcm: seq<Byte>, channels: Channels, j: nat): Sample
    requires j < FrameCount(pcm, channels)
  {
    if channels == 1 then SampleAt(pcm, j) else Halved(SampleAt(pcm, 2 * j) as int + SampleAt(pcm, 2 * j + 1) as int)
  }

  /** Of two channels that is their mean, but for the half it loses toward zero. */
  lemma MeanOfChannels(pcm: seq<Byte>, j: nat)
    requires j < FrameCount(pcm, 2)
    ensures var both, twice := SampleAt(pcm, 2 * j) as int + SampleAt(pcm, 2 * j + 1) as int, 2 * FrameValue(pcm, 2, j) as int;
      if both >= 0 then 0 <= both - twice <= 1 && twice >= 0 else 0 <= twice - both <= 1 && twice <= 0
  {
    hide SampleAt;
  }

  /** How many output samples the first `n` frames give. */
  function OutputCount(n: nat, rate: nat): nat
    requires rate > 0
  {
    n * RATE / rate
  }

  /** The frame that is heard at output sample `k`: the first whose end is not before the sample's. */
  function FrameOf(k: nat, rate: nat): nat
    requires rate > 0
  {
    ((k + 1) * rate - 1) / RATE
  }

  lemma FrameOfExact(k: nat, rate: nat, j: nat)
    requires rate > 0
    ensures j == FrameOf(k, rate) <==> j * RATE < (k + 1) * rate <= (j + 1) * RATE
  {
  }

  /** Output sample `k` exists while its frame does. */
  lemma FrameExists(k: nat, n: nat, rate: nat)
    requires rate > 0
    ensures k < OutputCount(n, rate) <==> FrameOf(k, rate) < n
  {
    var e := OutputCount(n, rate);
    assert e * rate <= n * RATE < (e + 1) * rate by { DivisionBounds(n * RATE, rate); }
    FrameOfExact(k, rate, FrameOf(k, rate));
    if k < e {
      assert (k + 1) * rate <= e * rate by { Monotone(k + 1, e, rate); }
    } else {
      assert (e + 1) * rate <= (k + 1) * rate by { Monotone(e + 1, k + 1, rate); }
    }
  }

  lemma DivisionBounds(a: nat, b: nat)
    requires b > 0
    ensures a / b * b <= a < (a / b + 1) * b
  {
  }

  lemma Monotone(a: nat, b: nat, c: nat)
    requires a <= b
    ensures a * c <= b * c
  {
  }

  /** The file at 16 kHz: sample `k` is the frame sounding at that time. */
  function Resampled(pcm: seq<Byte>, channels: Channels, rate: nat): (out: seq<Sample>)
    requires rate > 0
    ensures |out| == OutputCount(FrameCount(pcm, channels), rate)
  {
    seq(OutputCount(FrameCount(pcm, channels), rate), k requires 0 <= k < OutputCount(FrameCount(pcm, channels), rate) =>
      (FrameExists(k, FrameCount(pcm, channels), rate); FrameValue(pcm, channels, FrameOf(k, rate))))
  }

  // ---------------------------------------------------------------- the loops

  function Repeated(value: Sample, n: nat): seq<Sample> { seq(n, _ => value) }

  /** Repeats a frame while its time lasts: the inner loop. `before` output samples went to earlier chunks,
      and this is frame `j`. */
  method Emit(output: array<Sample>, start: nat, value: Sample, time: nat, rate: nat, ghost before: nat, ghost j: nat)
    returns (samples: nat, phase: nat)
    requires rate > 0 && start <= output.Length
    requires (before + start) * rate + time == (j + 1) * RATE && j * RATE < (before + start + 1) * rate
    requires start * rate + time < (output.Length + 1) * rate
    modifies output
    ensures start <= samples <= output.Length && phase < rate
    ensures (before + samples) * rate + phase == (j + 1) * RATE && samples * rate + phase == start * rate + time
    ensures output[..samples] == old(output[..start]) + Repeated(value, samples - start)
    ensures forall k :: before + start <= k < before + samples ==> FrameOf(k, rate) == j
  {
    hide FrameOf;
    samples, phase := start, time;
    while phase >= rate
      invariant start <= samples <= output.Length && samples * rate + phase == start * rate + time
      invariant (before + samples) * rate + phase == (j + 1) * RATE && j * RATE < (before + samples + 1) * rate
      invariant output[..samples] == old(output[..start]) + Repeated(value, samples - start)
      invariant forall k :: before + start <= k < before + samples ==> FrameOf(k, rate) == j
    {
      RoomForOne(samples, phase, rate, output.Length);
      OneMore(samples, rate);
      OneMore(before + samples, rate);
      OneMore(before + samples + 1, rate);
      FrameOfExact(before + samples, rate, j);
      output[samples] := value;
      samples, phase := samples + 1, phase - rate;
    }
  }

  lemma OneMore(n: nat, rate: nat)
    ensures (n + 1) * rate == n * rate + rate
  {
  }

  lemma RoomForOne(samples: nat, phase: nat, rate: nat, room: nat)
    requires 0 < rate <= phase && samples * rate + phase < (room + 1) * rate
    ensures samples < room
  {
    if samples >= room { Monotone(room, samples, rate); }
  }

  /** Never more than two samples a frame, so a chunk fits the output buffer. */
  lemma ChunkFits(phase: nat, frames: nat, rate: nat)
    requires 8000 <= rate && phase < rate && frames <= 1024
    ensures phase + frames * RATE < (OUTPUT_SAMPLES + 1) * rate
  {
    Monotone(8000, rate, 2 * frames);
    Monotone(2 * frames, OUTPUT_SAMPLES, rate);
  }

  lemma CountIs(t: nat, phase: nat, n: nat, rate: nat)
    requires phase < rate && t * rate + phase == n * RATE
    ensures t == OutputCount(n, rate)
  {
    DivisionBounds(n * RATE, rate);
    var q := OutputCount(n, rate);
    if t < q { Monotone(t + 1, q, rate); }
    if q < t { Monotone(q + 1, t, rate); }
  }

  lemma CountGrows(m: nat, n: nat, rate: nat)
    requires rate > 0 && m <= n
    ensures OutputCount(m, rate) <= OutputCount(n, rate)
  {
    DivisionBounds(m * RATE, rate);
    DivisionBounds(n * RATE, rate);
    if OutputCount(n, rate) < OutputCount(m, rate) { Monotone(OutputCount(n, rate) + 1, OutputCount(m, rate), rate); }
  }

  /** The samples of a chunk are frames of the file. */
  ghost predicate Holds(input: seq<Sample>, pcm: seq<Byte>, channels: Channels, first: nat) {
    && |input| % channels == 0 && 2 * (channels * first + |input|) <= |pcm|
    && forall i :: 0 <= i < |input| ==> input[i] == SampleAt(pcm, channels * first + i)
  }

  function ValueAt(input: seq<Sample>, channels: Channels, i: nat): Sample
    requires i + channels <= |input|
  {
    if channels == 1 then input[i] else Halved(input[i] as int + input[i + 1] as int)
  }

  lemma HoldsWhole(input: seq<Sample>, pcm: seq<Byte>, channels: Channels, first: nat)
    requires Holds(input, pcm, channels, first)
    ensures |input| % channels == 0 && first + |input| / channels <= FrameCount(pcm, channels)
  {
  }

  lemma HoldsFrame(input: seq<Sample>, pcm: seq<Byte>, channels: Channels, first: nat, j: nat)
    requires Holds(input, pcm, channels, first) && first <= j < first + |input| / channels
    ensures channels * (j - first) + channels <= |input| && j < FrameCount(pcm, channels)
    ensures ValueAt(input, channels, channels * (j - first)) == FrameValue(pcm, channels, j)
  {
    hide SampleAt;
  }

  /** Output samples that are the right ones of the first `last` frames. */
  ghost predicate Right(out: seq<Sample>, pcm: seq<Byte>, channels: Channels, rate: nat, before: nat, last: nat)
    requires rate > 0 && last <= FrameCount(pcm, channels)
  {
    forall k :: before <= k < before + |out| ==>
      FrameOf(k, rate) < last && out[k - before] == FrameValue(pcm, channels, FrameOf(k, rate))
  }

  lemma NothingRight(pcm: seq<Byte>, channels: Channels, rate: nat, before: nat, first: nat)
    requires rate > 0 && first <= FrameCount(pcm, channels)
    ensures Right([], pcm, channels, rate, before, first)
  {
  }

  lemma OneFrameMore(out: seq<Sample>, pcm: seq<Byte>, channels: Channels, rate: nat, before: nat, j: nat, n: nat)
    requires rate > 0 && j < FrameCount(pcm, channels) && Right(out, pcm, channels, rate, before, j)
    requires forall k :: before + |out| <= k < before + |out| + n ==> FrameOf(k, rate) == j
    ensures Right(out + Repeated(FrameValue(pcm, channels, j), n), pcm, channels, rate, before, j + 1)
  {
    hide FrameOf, FrameValue;
  }

  lemma StretchIs(out: seq<Sample>, pcm: seq<Byte>, channels: Channels, rate: nat, before: nat, last: nat)
    requires rate > 0 && last <= FrameCount(pcm, channels) && before + |out| == OutputCount(last, rate)
    requires Right(out, pcm, channels, rate, before, last)
    ensures before + |out| <= |Resampled(pcm, channels, rate)|
    ensures out == Resampled(pcm, channels, rate)[before..before + |out|]
  {
    hide OutputCount, FrameOf, FrameValue;
    CountGrows(last, FrameCount(pcm, channels), rate);
    forall i | 0 <= i < |out| ensures out[i] == Resampled(pcm, channels, rate)[before + i] {
      var k := before + i;
      assert FrameOf(k, rate) < last && out[k - before] == FrameValue(pcm, channels, FrameOf(k, rate));
    }
  }

  /** The next frame's time begins within the next output sample. */
  lemma NextStarts(t: nat, phase: nat, j: nat, rate: nat)
    requires phase < rate && t * rate + phase == j * RATE
    ensures j * RATE < (t + 1) * rate
  {
  }

  lemma Stepping(channels: Channels, frames: nat, size: nat)
    requires size % channels == 0 && frames <= size / channels
    ensures channels * (frames + 1) == channels * frames + channels && channels * frames <= size
    ensures channels * frames < size <==> frames < size / channels
  {
  }

  /** The loop over one chunk: with the frames before it already converted, the chunk's output is the next
      stretch of the file's, and it fits the buffer. */
  method Convert(input: seq<Sample>, wav: Wav, entered: nat, output: array<Sample>, ghost pcm: seq<Byte>, ghost first: nat)
    returns (samples: nat, phase: nat)
    requires 8000 <= wav.rate && output.Length == OUTPUT_SAMPLES
    requires |input| <= 1024 && Holds(input, pcm, wav.channels, first)
    requires entered < wav.rate && OutputCount(first, wav.rate) * wav.rate + entered == first * RATE
    modifies output
    ensures var last, before := first + |input| / wav.channels, OutputCount(first, wav.rate);
      && last <= FrameCount(pcm, wav.channels)
      && phase < wav.rate && OutputCount(last, wav.rate) * wav.rate + phase == last * RATE
      && samples <= OUTPUT_SAMPLES && before + samples == OutputCount(last, wav.rate) <= |Resampled(pcm, wav.channels, wav.rate)|
      && output[..samples] == Resampled(pcm, wav.channels, wav.rate)[before..before + samples]
  {
    hide OutputCount, FrameOf, FrameValue, Resampled, ValueAt, Holds, Right, Repeated;
    var rate, channels := wav.rate, wav.channels;
    ghost var before, frames, j := OutputCount(first, rate), |input| / channels, 0;
    HoldsWhole(input, pcm, channels, first);
    samples, phase := 0, entered;
    NothingRight(pcm, channels, rate, before, first);
    assert output[..0] == [];
    var i := 0;
    while i < |input|
      invariant 0 <= j <= frames && i == channels * j
      invariant phase < rate && samples <= OUTPUT_SAMPLES
      invariant (before + samples) * rate + phase == (first + j) * RATE
      invariant samples * rate + phase == entered + j * RATE
      invariant Right(output[..samples], pcm, channels, rate, before, first + j)
    {
      Stepping(channels, j, |input|);
      HoldsFrame(input, pcm, channels, first, first + j);
      var value := ValueAt(input, channels, i);
      NextStarts(before + samples, phase, first + j, rate);
      ChunkFits(entered, j + 1, rate);
      ghost var was := output[..samples];
      samples, phase := Emit(output, samples, value, phase + RATE, rate, before, first + j);
      OneFrameMore(was, pcm, channels, rate, before, first + j, samples - |was|);
      i, j := i + channels, j + 1;
    }
    Stepping(channels, j, |input|);
    CountIs(before + samples, phase, first + j, rate);
    StretchIs(output[..samples], pcm, channels, rate, before, first + j);
  }

  lemma ChunkHolds(pcm: seq<Byte>, channels: Channels, done: nat, count: nat)
    requires done + count <= |pcm| && done % (2 * channels) == 0 && count % (2 * channels) == 0
    ensures var input := SamplesOf(pcm[done..done + count]);
      && |input| == count / 2 && Holds(input, pcm, channels, done / (2 * channels))
      && done / (2 * channels) + |input| / channels == (done + count) / (2 * channels)
      && (done + count) % (2 * channels) == 0
  {
    if channels == 1 {
      assert done == 2 * (done / 2);
    } else {
      assert done == 4 * (done / 4);
    }
  }

  lemma WholeChunk(left: nat, channels: Channels)
    requires left % (2 * channels) == 0
    ensures Min(left, INPUT_BYTES) % (2 * channels) == 0 && (left - Min(left, INPUT_BYTES)) % (2 * channels) == 0
  {
    assert channels == 1 || channels == 2;
  }

  /** After `done` bytes: what was handed on is the output of the frames so far. */
  ghost predicate Midway(heard: seq<Sample>, phase: nat, pcm: seq<Byte>, channels: Channels, rate: nat, done: nat) {
    && rate > 0 && done % (2 * channels) == 0 && done <= |pcm| && phase < rate
    && var first := done / (2 * channels);
    && OutputCount(first, rate) * rate + phase == first * RATE
    && |heard| == OutputCount(first, rate) && heard <= Resampled(pcm, channels, rate)
  }

  lemma MidwayStarts(pcm: seq<Byte>, channels: Channels, rate: nat)
    requires rate > 0
    ensures Midway([], 0, pcm, channels, rate, 0)
  {
  }

  lemma MidwayIsBeginning(heard: seq<Sample>, phase: nat, pcm: seq<Byte>, channels: Channels, rate: nat, done: nat)
    requires rate > 0 && Midway(heard, phase, pcm, channels, rate, done)
    ensures heard <= Resampled(pcm, channels, rate)
    ensures done == |pcm| ==> heard == Resampled(pcm, channels, rate)
  {
    hide Resampled, OutputCount;
  }

  /** One chunk: from the bytes read to the samples handed on. */
  method PlayChunk(chunk: seq<Byte>, wav: Wav, entered: nat, output: array<Sample>,
                   ghost heard: seq<Sample>, ghost pcm: seq<Byte>, ghost done: nat)
    returns (samples: nat, phase: nat)
    requires 8000 <= wav.rate && output.Length == OUTPUT_SAMPLES && |chunk| <= INPUT_BYTES && |chunk| % (2 * wav.channels) == 0
    requires Midway(heard, entered, pcm, wav.channels, wav.rate, done)
    requires done + |chunk| <= |pcm| && chunk == pcm[done..done + |chunk|]
    modifies output
    ensures samples <= OUTPUT_SAMPLES
    ensures Midway(heard + output[..samples], phase, pcm, wav.channels, wav.rate, done + |chunk|)
  {
    hide OutputCount, Resampled, Holds, SamplesOf;
    ChunkHolds(pcm, wav.channels, done, |chunk|);
    samples, phase := Convert(SamplesOf(chunk), wav, entered, output, pcm, done / (2 * wav.channels));
    Joins(heard, output[..samples], Resampled(pcm, wav.channels, wav.rate));
  }

  lemma SliceOf(bytes: seq<Byte>, start: nat, size: nat, done: nat, count: nat)
    requires start + size <= |bytes| && done + count <= size
    ensures bytes[start..start + size][done..done + count] == bytes[start + done..start + done + count]
  {
    var whole, part := bytes[start..start + size], bytes[start + done..start + done + count];
    forall i | 0 <= i < count ensures whole[done..done + count][i] == part[i] {
      assert whole[done + i] == bytes[start + (done + i)];
    }
  }

  lemma Joins(a: seq<Sample>, b: seq<Sample>, all: seq<Sample>)
    requires a <= all && |a| + |b| <= |all| && b == all[|a|..|a| + |b|]
    ensures a + b <= all
  {
  }

  /** Reads the next chunk; a short one means that the card failed. */
  method ReadNext(file: File, wav: Wav, left: nat, ghost start: nat) returns (chunk: seq<Byte>, ok: bool)
    requires file.Valid() && 0 < left <= wav.bytes && left % (2 * wav.channels) == 0
    requires start + wav.bytes <= |file.bytes| && file.position == start + wav.bytes - left
    modifies file`position, file`faulty
    ensures file.Valid() && (old(file.faulty) ==> file.faulty)
    ensures if ok then
        && 0 < |chunk| <= left && |chunk| <= INPUT_BYTES
        && |chunk| % (2 * wav.channels) == 0 && (left - |chunk|) % (2 * wav.channels) == 0
        && file.position == old(file.position) + |chunk|
        && chunk == file.bytes[start..start + wav.bytes][wav.bytes - left..wav.bytes - left + |chunk|]
      else file.faulty
  {
    var count := Min(left, INPUT_BYTES);
    WholeChunk(left, wav.channels);
    chunk := file.Read(count);
    ok := |chunk| == count;
    if ok { SliceOf(file.bytes, start, wav.bytes, wav.bytes - left, count); }
  }

  /** Playing an accepted file: what is handed on is always a beginning of the resampled file, and all of it
      unless playback is stopped or the card fails. */
  method Play(file: File, wav: Wav) returns (heard: seq<Sample>, stopped: bool)
    requires file.Valid() && 8000 <= wav.rate <= 48000 && wav.bytes % (2 * wav.channels) == 0
    requires file.position + wav.bytes <= |file.bytes|
    modifies file`position, file`faulty
    ensures file.Valid() && (old(file.faulty) ==> file.faulty)
    ensures var pcm := file.bytes[old(file.position)..old(file.position) + wav.bytes];
      && heard <= Resampled(pcm, wav.channels, wav.rate)
      && (!stopped && !file.faulty ==> heard == Resampled(pcm, wav.channels, wav.rate))
  {
    hide OutputCount, Resampled, Midway;
    var output := new Sample[OUTPUT_SAMPLES];
    ghost var start := file.position;
    ghost var pcm := file.bytes[start..start + wav.bytes];
    var left: nat, phase: nat := wav.bytes, 0;
    var current: bool := *;
    heard, stopped := [], false;
    MidwayStarts(pcm, wav.channels, wav.rate);
    while left > 0 && current
      invariant file.Valid() && (old(file.faulty) ==> file.faulty)
      invariant left <= wav.bytes && file.position == start + wav.bytes - left && left % (2 * wav.channels) == 0
      invariant Midway(heard, phase, pcm, wav.channels, wav.rate, wav.bytes - left)
      decreases left
    {
      MidwayIsBeginning(heard, phase, pcm, wav.channels, wav.rate, wav.bytes - left);
      var chunk, ok := ReadNext(file, wav, left, start);
      if !ok { return heard, false; }
      var samples;
      samples, phase := PlayChunk(chunk, wav, phase, output, heard, pcm, wav.bytes - left);
      left := left - |chunk|;
      heard := heard + output[..samples];
      MidwayIsBeginning(heard, phase, pcm, wav.channels, wav.rate, wav.bytes - left);
      var taken: bool := *;
      if !taken { return heard, true; }
      current := *;
    }
    stopped := left > 0;
    MidwayIsBeginning(heard, phase, pcm, wav.channels, wav.rate, wav.bytes - left);
  }

  predicate Plays(heard: seq<Sample>, file: seq<Byte>, wav: Wav, at: nat, toTheEnd: bool) {
    && at + wav.bytes <= |file| && wav.rate > 0
    && var all := Resampled(file[at..at + wav.bytes], wav.channels, wav.rate);
    && heard <= all && (toTheEnd ==> heard == all)
  }

  /** Opening and playing. A file the reader refuses gives nothing. */
  method PlayFile(file: File) returns (heard: seq<Sample>, stopped: bool)
    requires file.Valid() && !file.faulty
    modifies file`position, file`faulty
    ensures match Parse(file.bytes)
      case None => heard == []
      case Some((wav, at)) => Plays(heard, file.bytes, wav, at, !stopped && !file.faulty)
  {
    hide Parse, Resampled;
    var ok, wav := ReadWav(file);
    if Parse(file.bytes).Some? { AcceptedIsPlayable(file.bytes); }
    if !ok { return [], false; }
    heard, stopped := Play(file, wav);
  }

  /** The output buffer is filled to its end by a whole chunk of 8 kHz mono. */
  lemma BoundIsTight(first: nat)
    ensures OutputCount(first + 1024, 8000) - OutputCount(first, 8000) == OUTPUT_SAMPLES
  {
    assert (first + 1024) * RATE == (2 * first + 2048) * 8000;
  }
}
