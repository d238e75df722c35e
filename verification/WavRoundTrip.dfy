/** From the recorder of firmware/apps/korvo-ble/wav_recorder.cc to the reader of
    firmware/apps/paper-s31-wifi/paper_protocol.h: what a finished recording says about itself, and which
    recordings the player takes. */
module WavRoundTrip {
  import opened Adpcm
  import opened AdpcmEncoder
  import opened Basics
  import opened WavReader
  import opened WavRecorder

  // ---------------------------------------------------------------- sizes

  /** Where the fields of a file are that begins with this header. */
  lemma SizeFields(format: Coding, rate: nat, dataBytes: nat, samples: nat, file: seq<Byte>)
    requires |file| >= HeaderBytes(format) && file[..HeaderBytes(format)] == RiffHeader(format, rate, dataBytes, samples)
    ensures var head := HeaderBytes(format);
      && file[..28] == HeadFields(format, rate, dataBytes)
      && file[28..head - 8] == FormatFields(format, rate, samples)
      && file[head - 8..head - 4] == DATA && file[head - 4..head] == Le32(dataBytes)
  {
    hide Le16, Le32, HeadFields, FormatFields;
    var head := HeaderBytes(format);
    var h := file[..head];
    assert file[..28] == h[..28] && file[28..head - 8] == h[28..head - 8];
    assert file[head - 8..head - 4] == h[head - 8..head - 4] && file[head - 4..head] == h[head - 4..];
  }

  lemma SharedFields(format: Coding, rate: nat, dataBytes: nat)
    ensures var h := HeadFields(format, rate, dataBytes);
      && h[..4] == RIFF && h[4..8] == Le32(HeaderBytes(format) - 8 + dataBytes) && h[8..12] == WAVE && h[12..16] == FMT
      && h[16..20] == Le32(if format == ImaAdpcm then 20 else 16)
      && h[20..22] == Le16(if format == ImaAdpcm then 0x11 else 1) && h[22..24] == Le16(1) && h[24..28] == Le32(rate)
  {
    hide Le16, Le32;
    var a := RIFF + Le32(HeaderBytes(format) - 8 + dataBytes) + WAVE;
    var b := FMT + Le32(if format == ImaAdpcm then 20 else 16);
    var c := Le16(if format == ImaAdpcm then 0x11 else 1) + Le16(1) + Le32(rate);
    var h := HeadFields(format, rate, dataBytes);
    assert h == a + b + c;
    assert a[..4] == h[..4] && a[4..8] == h[4..8] && a[8..12] == h[8..12];
    assert b[..4] == h[12..16] && b[4..8] == h[16..20];
    assert c[..2] == h[20..22] && c[2..4] == h[22..24] && c[4..8] == h[24..28];
  }

  lemma FactField(rate: nat, samples: nat)
    ensures FormatFields(ImaAdpcm, rate, samples)[20..24] == Le32(samples)
  {
    hide Le16, Le32;
  }

  lemma AdpcmSize(raw: seq<Byte>, samples: seq<Sample>)
    ensures |Audio(ImaAdpcm, raw, samples)| == 256 * ((|samples| + 504) / 505)
  {
    hide Blocks, Padded;
  }

  /** The two sizes in the header are the true ones exactly while they fit 32 bits; the audio of an ADPCM
      recording is 256 bytes for every 505 samples begun, and its fact chunk counts the real samples. */
  lemma SizesMatch(format: Coding, rate: nat, raw: seq<Byte>, samples: seq<Sample>)
    ensures var file, head := Recording(format, rate, raw, samples), HeaderBytes(format);
      && (U32(file[4..8]) == |file| - 8 <==> |file| - 8 < WORD)
      && (U32(file[head - 4..head]) == |file| - head <==> |file| - head < WORD)
      && (format == ImaAdpcm ==> |file| == 60 + 256 * ((|samples| + 504) / 505))
      && (format == ImaAdpcm && |samples| < WORD ==> U32(file[48..52]) == |samples|)
  {
    hide RiffHeader, HeadFields, FormatFields, Le32, U32, Audio;
    var audio := Audio(format, raw, samples);
    var file, head := Recording(format, rate, raw, samples), HeaderBytes(format);
    assert file[..head] == RiffHeader(format, rate, |audio|, |samples|);
    SizeFields(format, rate, |audio|, |samples|, file);
    SharedFields(format, rate, |audio|);
    assert file[4..8] == file[..28][4..8];
    if format == ImaAdpcm {
      AdpcmSize(raw, samples);
      FactField(rate, |samples|);
      assert file[48..52] == file[28..52][20..24];
    }
    Word32(head - 8 + |audio|);
    Word32(|audio|);
    Word32(|samples|);
  }

  lemma RecordingSize(format: Coding, rate: nat, raw: seq<Byte>, samples: seq<Sample>)
    ensures |Recording(format, rate, raw, samples)|
      == HeaderBytes(format) + if format == Pcm16 then |raw| else 256 * ((|samples| + 504) / 505)
  {
    hide RiffHeader, EncodedStream;
    if format == ImaAdpcm { AdpcmSize(raw, samples); }
  }

  /** The length shown for a finished recording, worked out from the size of its file alone: exact for PCM
      written in whole samples; for ADPCM that of the samples padded to a whole block. */
  lemma ListedDuration(format: Coding, rate: nat, raw: seq<Byte>, samples: seq<Sample>)
    requires format == Pcm16 ==> |raw| == 2 * |samples|
    ensures var shown := DurationMsFromSize(|Recording(format, rate, raw, samples)|, rate, format);
      var padded := 505 * ((|samples| + 504) / 505);
      && shown == DurationMs(if format == Pcm16 then |samples| else padded, rate)
      && |samples| <= padded < |samples| + 505
  {
    hide Recording, DurationMs, DurationMsFromSize;
    RecordingSize(format, rate, raw, samples);
    if format == Pcm16 {
      PcmDuration(|samples|, rate);
    } else {
      AdpcmDuration((|samples| + 504) / 505, rate);
    }
  }

  /** A duration is the whole milliseconds that the samples last. */
  lemma DurationIs(samples: nat, rate: nat)
    requires rate > 0 && samples * 1000 / rate < WORD
    ensures DurationMs(samples, rate) * rate <= 1000 * samples < (DurationMs(samples, rate) + 1) * rate
  {
    var q := samples * 1000 / rate;
    assert samples * 1000 == q * rate + samples * 1000 % rate;
  }

  lemma PcmDuration(samples: nat, rate: nat)
    ensures DurationMsFromSize(44 + 2 * samples, rate, Pcm16) == DurationMs(samples, rate)
  {
    if samples > 0 { assert 2 * samples / 2 == samples; }
  }

  lemma AdpcmDuration(blocks: nat, rate: nat)
    ensures DurationMsFromSize(60 + 256 * blocks, rate, ImaAdpcm) == DurationMs(505 * blocks, rate)
  {
    if blocks > 0 { assert 256 * blocks / 256 == blocks; }
  }

  lemma AdpcmFields(rate: nat, samples: nat)
    ensures var f := FormatFields(ImaAdpcm, rate, samples);
      && f[..4] == Le32(rate * 256 / 505) && f[4..6] == Le16(256) && f[6..8] == Le16(4) && f[8..10] == Le16(2)
      && f[10..12] == Le16(505) && f[12..16] == FACT && f[16..20] == Le32(4)
  {
    hide Le16, Le32;
  }

  lemma Inner<T>(s: seq<T>, from: nat, to: nat, i: nat, j: nat)
    requires from <= to <= |s| && i <= j <= to - from
    ensures s[from..to][i..j] == s[from + i..from + j]
  {
    var a, b := s[from..to][i..j], s[from + i..from + j];
    assert |a| == |b| && forall k :: 0 <= k < |a| ==> a[k] == s[from..to][i + k] == s[from + i + k] == b[k];
  }

  /** Header fields that agree with each other, with the rate, and with an audio of this size for so many samples. */
  predicate Describes(byteRate: nat, align: nat, bits: nat, perBlock: nat, rate: nat, audio: nat, samples: nat) {
    && align > 4 && bits > 0 && perBlock == 1 + (align - 4) * 8 / bits
    && audio == align * ((samples + perBlock - 1) / perBlock) && byteRate == rate * align / perBlock
  }

  /** What the header of an ADPCM recording says agrees with its audio: so many bytes a block, with one sample in
      the four bytes of its own header and two a byte after it; as many blocks as hold the real samples; and the
      byte rate is that of whole blocks. */
  lemma HeaderDescribesBlocks(rate: nat, raw: seq<Byte>, samples: seq<Sample>)
    requires rate < WORD
    ensures var file := Recording(ImaAdpcm, rate, raw, samples);
      |file| >= 60
      && Describes(U32(file[28..32]), U16(file[32..34]), U16(file[34..36]), U16(file[38..40]), rate, |file| - 60, |samples|)
  {
    hide RiffHeader, HeadFields, FormatFields, Audio, Le16, Le32, U16, U32;
    var audio := Audio(ImaAdpcm, raw, samples);
    var file := Recording(ImaAdpcm, rate, raw, samples);
    assert file[..60] == RiffHeader(ImaAdpcm, rate, |audio|, |samples|);
    SizeFields(ImaAdpcm, rate, |audio|, |samples|, file);
    AdpcmFields(rate, |samples|);
    var f := file[28..52];
    Inner(file, 28, 52, 0, 4);
    Inner(file, 28, 52, 4, 6);
    Inner(file, 28, 52, 6, 8);
    Inner(file, 28, 52, 10, 12);
    AdpcmSize(raw, samples);
    Word16(256);
    Word16(4);
    Word16(505);
    Word32(rate * 256 / 505);
  }

  // ---------------------------------------------------------------- the reader

  /** A PCM recording the player can take. */
  predicate Playable(rate: nat, raw: seq<Byte>) {
    8000 <= rate <= 48000 && raw != [] && |raw| % 2 == 0 && 44 + |raw| <= LARGEST
  }

  function PcmFormat(rate: nat): (fmt: seq<Byte>)
    ensures |fmt| == 16
  {
    Le16(1) + Le16(1) + Le32(rate) + (Le32(2 * rate) + Le16(2) + Le16(16))
  }

  lemma PcmFields(rate: nat, raw: seq<Byte>, samples: seq<Sample>)
    ensures var file := Recording(Pcm16, rate, raw, samples);
      && |file| == 44 + |raw| && file[..4] == RIFF && file[4..8] == Le32(36 + |raw|) && file[8..12] == WAVE
      && file[12..16] == FMT && file[16..20] == Le32(16) && file[20..36] == PcmFormat(rate)
      && file[36..40] == DATA && file[40..44] == Le32(|raw|) && file[44..] == raw
  {
    hide RiffHeader, HeadFields, Le16, Le32;
    var file := Recording(Pcm16, rate, raw, samples);
    assert file[..44] == RiffHeader(Pcm16, rate, |raw|, |samples|);
    SizeFields(Pcm16, rate, |raw|, |samples|, file);
    SharedFields(Pcm16, rate, |raw|);
    var h := file[..28];
    assert file[..4] == h[..4] && file[4..8] == h[4..8] && file[8..12] == h[8..12] && file[12..16] == h[12..16] && file[16..20] == h[16..20];
    assert file[20..22] == h[20..22] && file[22..24] == h[22..24] && file[24..28] == h[24..28];
    assert file[20..36] == file[20..22] + file[22..24] + file[24..28] + file[28..36];
  }

  lemma PcmFormatFields(rate: nat)
    ensures var fmt := PcmFormat(rate);
      && fmt[..2] == Le16(1) && fmt[2..4] == Le16(1) && fmt[4..8] == Le32(rate) && fmt[8..12] == Le32(2 * rate)
      && fmt[12..14] == Le16(2) && fmt[14..] == Le16(16)
  {
    hide Le16, Le32;
  }

  lemma PcmFormatIsGood(rate: nat)
    requires rate < WORD
    ensures var fmt := PcmFormat(rate);
      && (GoodFormat(fmt) <==> 8000 <= rate <= 48000)
      && (GoodFormat(fmt) ==> FormatOf(fmt) == Format(rate, 1))
  {
    hide Le16, Le32, U16, U32, PcmFormat;
    PcmFormatFields(rate);
    Word16(1);
    Word16(2);
    Word16(16);
    Word32(rate);
    Word32(2 * rate);
  }

  /** Round trip: the player accepts a PCM recording if and only if it is playable, and then finds the
      recorder's rate, one channel, and exactly the bytes that were written. */
  lemma PlayerReadsRecording(rate: nat, raw: seq<Byte>, samples: seq<Sample>)
    requires rate < WORD
    ensures var file := Recording(Pcm16, rate, raw, samples);
      && Parse(file) == (if Playable(rate, raw) then Some((Wav(rate, 1, |raw|), 44)) else None)
      && file[44..] == raw
  {
    var file := Recording(Pcm16, rate, raw, samples);
    PcmFields(rate, raw, samples);
    hide Le16, Le32, U32, GoodFormat, Recording, RiffHeader;
    Word32(36 + |raw|);
    Word32(16);
    Word32(|raw|);
    PcmFormatIsGood(rate);
    if 44 + |raw| <= LARGEST {
      assert Limit(file) == |file|;
      FirstChunk(file, rate, raw);
    }
  }

  /** The format chunk, then the data chunk. */
  lemma FirstChunk(file: seq<Byte>, rate: nat, raw: seq<Byte>)
    requires |file| == 44 + |raw| <= LARGEST && rate < WORD
    requires file[12..16] == FMT && U32(file[16..20]) == 16 && file[36..40] == DATA && U32(file[40..44]) == |raw|
    requires GoodFormat(file[20..36]) <==> 8000 <= rate <= 48000
    requires GoodFormat(file[20..36]) ==> FormatOf(file[20..36]) == Format(rate, 1)
    ensures Walk(file, 12, |file|, NOTHING_YET) ==
      if 8000 <= rate <= 48000 && |raw| % 2 == 0 then Some(Found(Some(Format(rate, 1)), Some(Place(44, |raw|)))) else None
  {
    hide Seen, U32, Walk, GoodFormat, FormatOf;
    FormatSeen(file, rate);
    WalkStep(file, 12, |file|, NOTHING_YET);
    if 8000 <= rate <= 48000 {
      var found := Found(Some(Format(rate, 1)), None);
      WalkStep(file, 36, |file|, found);
      DataSeen(file, found);
    }
  }

  lemma WalkStep(file: seq<Byte>, at: nat, limit: nat, found: Found)
    requires at + 8 <= limit <= |file|
    ensures var seen := Seen(file, at, limit, found);
      Walk(file, at, limit, found) ==
        if seen == None || seen.value.Complete() then seen
        else Walk(file, Next(at + 8, U32(file[at + 4..at + 8])), limit, seen.value)
  {
    hide Seen, U32;
  }

  lemma FormatSeen(file: seq<Byte>, rate: nat)
    requires |file| >= 44 && file[12..16] == FMT && U32(file[16..20]) == 16
    requires GoodFormat(file[20..36]) <==> 8000 <= rate <= 48000
    requires GoodFormat(file[20..36]) ==> FormatOf(file[20..36]) == Format(rate, 1)
    ensures Seen(file, 12, |file|, NOTHING_YET) ==
      if 8000 <= rate <= 48000 then Some(Found(Some(Format(rate, 1)), None)) else None
  {
    hide GoodFormat, FormatOf, U32;
  }

  lemma DataSeen(file: seq<Byte>, found: Found)
    requires |file| >= 44 && file[36..40] == DATA && U32(file[40..44]) == |file| - 44
    ensures Seen(file, 36, |file|, found) ==
      if |file| % 2 == 0 then Some(found.(data := Some(Place(44, |file| - 44)))) else None
  {
    hide GoodFormat, FormatOf, U32;
    assert file[36..40] != FMT;
  }

  /** The player takes no ADPCM recording. */
  lemma PlayerRefusesAdpcm(rate: nat, raw: seq<Byte>, samples: seq<Sample>)
    ensures Parse(Recording(ImaAdpcm, rate, raw, samples)) == None
  {
    hide RiffHeader, HeadFields, FormatFields, Audio, Le16, Le32, U16, U32, GoodFormat;
    var audio := Audio(ImaAdpcm, raw, samples);
    var file := Recording(ImaAdpcm, rate, raw, samples);
    assert file[..60] == RiffHeader(ImaAdpcm, rate, |audio|, |samples|);
    SizeFields(ImaAdpcm, rate, |audio|, |samples|, file);
    SharedFields(ImaAdpcm, rate, |audio|);
    var h := file[..28];
    assert file[12..16] == h[12..16] && file[16..20] == h[16..20] && file[20..22] == h[20..22];
    Word32(20);
    Word16(0x11);
    if GoodRiff(file) {
      NotPcm(file);
    }
  }

  lemma NotPcm(file: seq<Byte>)
    requires GoodRiff(file) && |file| >= 60 && file[12..16] == FMT && U32(file[16..20]) == 20 && U16(file[20..22]) == 0x11
    ensures Walk(file, 12, Limit(file), NOTHING_YET) == None
  {
    hide U16, U32;
    assert file[20..36][..2] == file[20..22];
    assert !GoodFormat(file[20..36]);
  }
}
