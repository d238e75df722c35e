/** firmware/apps/korvo-ble/wav_recorder.cc: a recording written as PCM16 or IMA-ADPCM, its header patched
    when it stops. Counts are kept in 32 bits, as there. */
module WavRecorder {
  import opened Adpcm
  import opened AdpcmEncoder
  import opened Basics
  import opened WavFile
  import opened WavReader

  const WORD := 0x1_0000_0000

  datatype Coding = Pcm16 | ImaAdpcm

  datatype Outcome = Ok | InvalidArg | InvalidState | Fail

  function HeaderBytes(format: Coding): nat { if format == ImaAdpcm then 60 else 44 }

  // ---------------------------------------------------------------- the file as a value

  /** Up to the sample rate, which both formats share. */
  function HeadFields(format: Coding, rate: nat, dataBytes: nat): (bytes: seq<Byte>)
    ensures |bytes| == 28
  {
    RIFF + Le32(HeaderBytes(format) - 8 + dataBytes) + WAVE
    + FMT + Le32(if format == ImaAdpcm then 20 else 16) + Le16(if format == ImaAdpcm then 0x0011 else 0x0001) + Le16(1) + Le32(rate)
  }

  /** The rest of the format, and for ADPCM the count of real samples. */
  function FormatFields(format: Coding, rate: nat, samples: nat): (bytes: seq<Byte>)
    ensures |bytes| == HeaderBytes(format) - 36
  {
    if format == ImaAdpcm then
      Le32(rate * BLOCK_BYTES / SAMPLES_PER_BLOCK) + Le16(BLOCK_BYTES) + Le16(4) + Le16(2) + Le16(SAMPLES_PER_BLOCK)
      + FACT + Le32(4) + Le32(samples)
    else
      Le32(2 * rate) + Le16(2) + Le16(16)
  }

  /** The header of a file with this many bytes of audio: the sizes count what follows them. */
  function RiffHeader(format: Coding, rate: nat, dataBytes: nat, samples: nat): (bytes: seq<Byte>)
    ensures |bytes| == HeaderBytes(format)
  {
    HeadFields(format, rate, dataBytes) + FormatFields(format, rate, samples) + (DATA + Le32(dataBytes))
  }

  /** The audio: what was written, or what the encoder makes of it. */
  function Audio(format: Coding, raw: seq<Byte>, samples: seq<Sample>): seq<Byte> {
    if format == ImaAdpcm then EncodedStream(samples) else raw
  }

  /** A finished recording. */
  function Recording(format: Coding, rate: nat, raw: seq<Byte>, samples: seq<Sample>): seq<Byte> {
    var audio := Audio(format, raw, samples);
    RiffHeader(format, rate, |audio|, |samples|) + audio
  }

  // ---------------------------------------------------------------- durations

  function DurationMs(samples: nat, rate: nat): nat { if rate == 0 then 0 else samples * 1000 / rate % WORD }

  /** What the listing shows for a file of this size. */
  function DurationMsFromSize(fileBytes: nat, rate: nat, format: Coding): nat {
    if rate == 0 || fileBytes <= HeaderBytes(format) then 0
    else
      var data := fileBytes - HeaderBytes(format);
      var samples := if format == ImaAdpcm then data / BLOCK_BYTES * SAMPLES_PER_BLOCK else data / 2;
      samples * 1000 / rate % WORD
  }

  // ---------------------------------------------------------------- 32-bit words

  lemma SameWord(v: nat, w: nat)
    requires v % WORD == w % WORD
    ensures Le32(v) == Le32(w)
  {
    hide Le32, U32;
    Word32(v);
    Word32(w);
    SameBytes(Le32(v), Le32(w));
  }

  /** A counter kept in 32 bits. */
  lemma WordSum(a: nat, b: nat)
    ensures (a % WORD + b) % WORD == (a + b) % WORD
  {
  }

  lemma HeaderWraps(format: Coding, rate: nat, dataBytes: nat, samples: nat)
    ensures RiffHeader(format, rate, dataBytes % WORD, samples % WORD) == RiffHeader(format, rate, dataBytes, samples)
  {
    hide Le16, Le32;
    var head := HeaderBytes(format) - 8;
    WordSum(dataBytes, head);
    SameWord(head + dataBytes % WORD, head + dataBytes);
    SameWord(dataBytes % WORD, dataBytes);
    SameWord(samples % WORD, samples);
  }

  /** What the patched file is once the audio is complete. */
  lemma Finished(format: Coding, rate: nat, before: seq<Byte>, raw: seq<Byte>, samples: seq<Sample>)
    requires var audio := Audio(format, raw, samples);
      |before| == HeaderBytes(format) + |audio| && before[HeaderBytes(format)..] == audio
    ensures var size := |Audio(format, raw, samples)|;
      Overwritten(before, 0, RiffHeader(format, rate, size % WORD, |samples| % WORD)) == Recording(format, rate, raw, samples)
  {
    hide RiffHeader, Audio;
    HeaderWraps(format, rate, |Audio(format, raw, samples)|, |samples|);
  }

  lemma AudioIs(raw: seq<Byte>, samples: seq<Sample>)
    ensures Audio(Pcm16, raw, samples) == raw
    ensures Audio(ImaAdpcm, raw, samples) == Blocks(Padded(samples), BlockCount(|samples|))
  {
    hide Blocks, Padded, BlockCount;
  }

  lemma CountOfPadded(samples: seq<Sample>, blocks: nat)
    requires |Padded(samples)| == SAMPLES_PER_BLOCK * blocks
    ensures BlockCount(|samples|) == blocks
  {
  }

  lemma BlocksGrow(samples: seq<Sample>, n: nat)
    requires 0 < n && SAMPLES_PER_BLOCK * n <= |samples|
    ensures Blocks(samples, n) == Blocks(samples, n - 1) + BlockAt(samples, n - 1)
  {
  }

  // ---------------------------------------------------------------- the recorder

  class Recorder {
    var file: File?
    var format: Coding
    var rate: nat
    var dataBytes: nat
    var samples: nat
    const enc: Encoder
    /** Everything Write was given since Start, as bytes and as samples. */
    ghost var raw: seq<Byte>
    ghost var fed: seq<Sample>

    /** The file is a header and what was written. */
    ghost predicate Plain(f: File)
      reads `raw, `dataBytes, f
    {
      f.position == |f.bytes| == 44 + |raw| && f.bytes[44..] == raw && dataBytes == |raw| % WORD
    }

    /** The file is a header and the encoder's full blocks. */
    ghost predicate Streamed(f: File)
      reads `dataBytes, enc, f
    {
      && SAMPLES_PER_BLOCK * enc.blocks <= |enc.fed|
      && f.position == |f.bytes| == 60 + BLOCK_BYTES * enc.blocks && f.bytes[60..] == Blocks(enc.fed, enc.blocks)
      && dataBytes == BLOCK_BYTES * enc.blocks % WORD
    }

    ghost predicate Intact(f: File)
      reads this, enc, f
    {
      && samples == |fed| % WORD
      && if format == ImaAdpcm then Streamed(f) && enc.fed == fed else Plain(f)
    }

    ghost predicate Valid()
      reads this, enc, enc.pcm, file
    {
      && enc.Valid() && dataBytes < WORD && samples < WORD && rate < WORD
      && (file != null ==> file.Valid() && (!file.faulty ==> Intact(file)))
    }

    constructor ()
      ensures Valid() && file == null && fresh(enc) && fresh(enc.pcm)
    {
      enc := new Encoder();
      file, format, rate, dataBytes, samples := null, ImaAdpcm, 16000, 0, 0;
      raw, fed := [], [];
    }

    method BuildHeader() returns (h: seq<Byte>)
      requires dataBytes < WORD && samples < WORD && rate < WORD
      ensures h == RiffHeader(format, rate, dataBytes, samples)
    {
      hide Le16, Le32;
      var adpcm, headerBytes := format == ImaAdpcm, HeaderBytes(format);
      SameWord((headerBytes - 8 + dataBytes) % WORD, headerBytes - 8 + dataBytes);
      SameWord(rate * 2 % WORD, 2 * rate);
      h := RIFF;
      h := h + Le32((headerBytes - 8 + dataBytes) % WORD);
      h := h + WAVE;
      h := h + FMT;
      h := h + Le32(if adpcm then 20 else 16);
      h := h + Le16(if adpcm then 0x0011 else 0x0001);
      h := h + Le16(1);
      h := h + Le32(rate);
      assert h == HeadFields(format, rate, dataBytes);
      ghost var head := h;
      if adpcm {
        h := h + Le32(rate * BLOCK_BYTES / SAMPLES_PER_BLOCK);
        h := h + Le16(BLOCK_BYTES);
        h := h + Le16(4);
        h := h + Le16(2);
        h := h + Le16(SAMPLES_PER_BLOCK);
        h := h + FACT;
        h := h + Le32(4);
        h := h + Le32(samples);
      } else {
        h := h + Le32(rate * 2 % WORD);
        h := h + Le16(2);
        h := h + Le16(16);
      }
      assert h == head + FormatFields(format, rate, samples);
      h := h + DATA;
      h := h + Le32(dataBytes);
    }

    method WriteHeader(f: File) returns (r: Outcome)
      requires f.Valid() && dataBytes < WORD && samples < WORD && rate < WORD
      modifies f
      ensures f.Valid() && (old(f.faulty) ==> f.faulty) && (r == Ok || r == Fail)
      ensures !f.faulty ==> r == Ok
      ensures r == Ok ==> f.faulty == old(f.faulty)
      ensures r == Ok ==> f.bytes == Overwritten(old(f.bytes), 0, RiffHeader(format, rate, dataBytes, samples))
      ensures r == Ok ==> f.position == HeaderBytes(format)
    {
      hide RiffHeader, Overwritten;
      var h := BuildHeader();
      if |h| != HeaderBytes(format) { return Fail; }
      var sought := f.Seek(0);
      if !sought { return Fail; }
      var written := f.Write(h);
      assert h[..|h|] == h;
      return if written == |h| then Ok else Fail;
    }

    method Write(pcm: seq<Byte>) returns (r: Outcome)
      requires Valid()
      modifies this, file, enc, enc.pcm
      ensures Valid() && file == old(file) && format == old(format) && rate == old(rate)
      ensures file == null ==> r == InvalidState
      ensures file != null ==> (r == Ok || r == Fail) && (old(file.faulty) ==> file.faulty) && (!file.faulty ==> r == Ok)
      ensures var ignored := old(file) == null || |pcm| < 2;
        && raw == (if ignored then old(raw) else old(raw) + pcm)
        && fed == (if ignored then old(fed) else old(fed) + SamplesOf(pcm))
    {
      hide Plain, Streamed, IndexInto;
      if file == null { return InvalidState; }
      if |pcm| < 2 { return Ok; }
      var n := |pcm| / 2;
      WordSum(|fed|, n);
      samples := (samples + n) % WORD;
      if format == Pcm16 {
        r := WritePcm(file, pcm);
      } else {
        r := WriteBlocks(file, pcm);
      }
    }

    method WritePcm(f: File, pcm: seq<Byte>) returns (r: Outcome)
      requires f == file && format == Pcm16 && |pcm| >= 2
      requires enc.Valid() && dataBytes < WORD && rate < WORD && f.Valid()
      requires !f.faulty ==> Plain(f)
      modifies this`raw, this`fed, this`dataBytes, f
      ensures f.Valid() && dataBytes < WORD && (old(f.faulty) ==> f.faulty)
      ensures (r == Ok || r == Fail) && (!f.faulty ==> r == Ok)
      ensures raw == old(raw) + pcm && fed == old(fed) + SamplesOf(pcm)
      ensures !f.faulty ==> Plain(f)
    {
      hide Overwritten, SamplesOf;
      ghost var before := f.bytes;
      var n := f.Write(pcm);
      WordSum(|raw|, |pcm|);
      raw, fed := raw + pcm, fed + SamplesOf(pcm);
      if n != |pcm| { return Fail; }
      assert pcm[..n] == pcm;
      if !f.faulty { Appended(before, pcm, 44); }
      dataBytes := (dataBytes + |pcm|) % WORD;
      return Ok;
    }

    method PutBlock(f: File, block: array<Byte>) returns (ok: bool)
      requires enc.Valid() && f.Valid() && enc.blocks > 0 && block.Length == BLOCK_BYTES && dataBytes < WORD
      requires block[..BLOCK_BYTES] == BlockAt(enc.fed, enc.blocks - 1)
      requires !f.faulty ==>
        && f.position == |f.bytes| == 60 + BLOCK_BYTES * (enc.blocks - 1)
        && f.bytes[60..] == Blocks(enc.fed, enc.blocks - 1) && dataBytes == BLOCK_BYTES * (enc.blocks - 1) % WORD
      modifies this`dataBytes, f
      ensures f.Valid() && dataBytes < WORD && (old(f.faulty) ==> f.faulty) && (!f.faulty ==> ok && Streamed(f))
    {
      hide Blocks, BlockAt, Overwritten;
      BlocksGrow(enc.fed, enc.blocks);
      ghost var before := f.bytes;
      var written := f.Write(block[..]);
      if written != BLOCK_BYTES { return false; }
      assert block[..][..written] == block[..BLOCK_BYTES];
      if !f.faulty { Appended(before, block[..BLOCK_BYTES], 60); }
      WordSum(BLOCK_BYTES * (enc.blocks - 1), BLOCK_BYTES);
      dataBytes := (dataBytes + BLOCK_BYTES) % WORD;
      return true;
    }

    method WriteBlocks(f: File, pcm: seq<Byte>) returns (r: Outcome)
      requires f == file && format == ImaAdpcm && |pcm| >= 2
      requires enc.Valid() && dataBytes < WORD && rate < WORD && f.Valid()
      requires !f.faulty ==> Streamed(f) && enc.fed == fed
      modifies this`raw, this`fed, this`dataBytes, f, enc, enc.pcm
      ensures enc.Valid() && enc.pcm == old(enc.pcm) && f.Valid() && dataBytes < WORD && (old(f.faulty) ==> f.faulty)
      ensures (r == Ok || r == Fail) && (!f.faulty ==> r == Ok)
      ensures raw == old(raw) + pcm && fed == old(fed) + SamplesOf(pcm)
      ensures !f.faulty ==> Streamed(f) && enc.fed == fed
    {
      hide BlockOf, IndexAfter, Blocks, BlockAt, IndexInto;
      var block := new Byte[BLOCK_BYTES];
      ghost var before, s := fed, SamplesOf(pcm);
      raw, fed := raw + pcm, fed + s;
      for i := 0 to |pcm| / 2
        invariant enc.Valid() && enc.pcm == old(enc.pcm) && f.Valid() && dataBytes < WORD && (old(f.faulty) ==> f.faulty)
        invariant raw == old(raw) + pcm && fed == before + s
        invariant !f.faulty ==> Streamed(f) && enc.fed == before + s[..i]
      {
        BlocksPrefix(enc.fed, enc.fed + [SampleAt(pcm, i)], enc.blocks);
        var full := enc.Push(SampleAt(pcm, i), block);
        assert before + s[..i] + [s[i]] == before + s[..i + 1];
        if !full { continue; }
        var ok := PutBlock(f, block);
        if !ok { return Fail; }
      }
      assert s[..|pcm| / 2] == s;
      return Ok;
    }

    /** The tail of the encoder, padded to a block. */
    method FlushTail(f: File)
      requires enc.Valid() && f.Valid() && dataBytes < WORD && (!f.faulty ==> Streamed(f))
      modifies this`dataBytes, f, enc, enc.pcm
      ensures enc.Valid() && enc.pcm == old(enc.pcm) && f.Valid() && dataBytes < WORD && (old(f.faulty) ==> f.faulty)
      ensures enc.fed == Padded(old(enc.fed)) && |enc.fed| == SAMPLES_PER_BLOCK * enc.blocks
      ensures !f.faulty ==> Streamed(f)
    {
      hide BlockOf, IndexAfter, Blocks, BlockAt, Padded, IndexInto, Overwritten, BlockCount, Chunk;
      BlocksPrefix(enc.fed, Padded(enc.fed), enc.blocks);
      var block := new Byte[BLOCK_BYTES];
      var tail := enc.Flush(block);
      if tail > 0 {
        var _ := PutBlock(f, block);
      }
    }

    /** The file holds the whole audio behind its header. */
    ghost predicate Complete(f: File)
      reads this, f
    {
      var audio := Audio(format, raw, fed);
      && |f.bytes| == HeaderBytes(format) + |audio| && f.bytes[HeaderBytes(format)..] == audio
      && dataBytes == |audio| % WORD && samples == |fed| % WORD
    }

    method CompleteAudio(f: File)
      requires f == file && Valid()
      modifies this`dataBytes, f, enc, enc.pcm
      ensures enc.Valid() && enc.pcm == old(enc.pcm) && f.Valid() && dataBytes < WORD && (old(f.faulty) ==> f.faulty)
      ensures !f.faulty ==> Complete(f)
    {
      hide Blocks, Padded, BlockCount, Audio, Encoder.Valid;
      AudioIs(raw, fed);
      if format == ImaAdpcm {
        FlushTail(f);
        if !f.faulty { CountOfPadded(fed, enc.blocks); }
      }
    }

    /** Closes the recording. Unless the card fell short at some point, the file is the header and the audio
        of everything written. */
    method Stop() returns (r: Outcome)
      requires Valid()
      modifies this, file, enc, enc.pcm
      ensures Valid() && file == null && unchanged(`format, `rate, `raw, `fed)
      ensures var f := old(file);
        f != null && !f.faulty ==> r == Ok && f.bytes == Recording(format, rate, raw, fed)
      ensures old(file) == null ==> r == Ok
    {
      hide Audio, Overwritten, RiffHeader, Recording, Streamed, Plain;
      if file == null { return Ok; }
      var f := file;
      CompleteAudio(f);
      ghost var before := f.bytes;
      r := WriteHeader(f);
      if !f.faulty { Finished(format, rate, before, raw, fed); }
      file := null;
    }

    /** Creates a new recording, after closing one that is under way. `free` says that nothing has this path
        yet; creating it may fail for other reasons. */
    method Start(named: bool, free: bool, newRate: nat, coding: Coding) returns (r: Outcome)
      requires Valid() && newRate < WORD
      modifies this, file, enc, enc.pcm
      ensures Valid() && (file != null <==> r == Ok)
      ensures var f := old(file);
        f != null && !f.faulty ==> f.bytes == old(Recording(format, rate, raw, fed))
      ensures r == Ok ==>
        && fresh(file) && !file.faulty && format == coding && rate == newRate && raw == [] && fed == []
        && file.bytes == RiffHeader(coding, newRate, 0, 0)
      ensures (r == InvalidArg <==> !named) && (r == InvalidState <==> named && !free)
    {
      hide RiffHeader, Recording, Intact;
      if file != null { var _ := Stop(); }
      if !named { return InvalidArg; }
      if !free { return InvalidState; }
      var created: bool := *;
      if !created { return Fail; }
      r := Begin(newRate, coding);
    }

    /** The new file and its placeholder header. */
    method Begin(newRate: nat, coding: Coding) returns (r: Outcome)
      requires Valid() && file == null && newRate < WORD
      modifies this, enc
      ensures Valid() && enc.pcm == old(enc.pcm) && (r == Ok || r == Fail) && (file != null <==> r == Ok)
      ensures r == Ok ==>
        && fresh(file) && !file.faulty && format == coding && rate == newRate && raw == [] && fed == []
        && file.bytes == RiffHeader(coding, newRate, 0, 0)
    {
      hide RiffHeader, IndexInto;
      var f := new File([]);
      format, rate, dataBytes, samples := coding, newRate, 0, 0;
      raw, fed := [], [];
      enc.Reset();
      r := WriteHeader(f);
      if r != Ok { return; }
      assert f.bytes == RiffHeader(coding, newRate, 0, 0);
      file := f;
    }
  }
}
