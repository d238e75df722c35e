/** ReadWav of firmware/apps/paper-s31-wifi/paper_protocol.h: the chunks of a PCM16 file. */
module WavReader {
  import opened Basics
  import opened WavFile

  const RIFF: seq<Byte> := [0x52, 0x49, 0x46, 0x46]
  const WAVE: seq<Byte> := [0x57, 0x41, 0x56, 0x45]
  const FMT: seq<Byte> := [0x66, 0x6d, 0x74, 0x20]
  const FACT: seq<Byte> := [0x66, 0x61, 0x63, 0x74]
  const DATA: seq<Byte> := [0x64, 0x61, 0x74, 0x61]

  const LARGEST := 512 * 1024 * 1024

  type Channels = c: int | 1 <= c <= 2 witness 1

  datatype Wav = Wav(rate: nat, channels: Channels, bytes: nat)

  datatype Format = Format(rate: nat, channels: Channels)

  datatype Place = Place(at: nat, bytes: nat)

  /** What the chunks seen so far have told. */
  datatype Found = Found(format: Option<Format>, data: Option<Place>) {
    predicate Complete() { format.Some? && data.Some? }
  }

  const NOTHING_YET := Found(None, None)

  // ---------------------------------------------------------------- the file as a value

  predicate GoodFormat(fmt: seq<Byte>)
    requires |fmt| == 16
  {
    var channels, rate := U16(fmt[2..4]), U32(fmt[4..8]);
    && U16(fmt[..2]) == 1 && U16(fmt[14..]) == 16
    && (channels == 1 || channels == 2) && 8000 <= rate <= 48000
    && U16(fmt[12..14]) == channels * 2 && U32(fmt[8..12]) == rate * channels * 2
  }

  function FormatOf(fmt: seq<Byte>): Format
    requires |fmt| == 16 && GoodFormat(fmt)
  {
    Format(U32(fmt[4..8]), U16(fmt[2..4]))
  }

  /** A chunk's end, padding included. */
  function Next(body: nat, size: nat): nat { body + size + size % 2 }

  /** What one chunk adds, or none when it spoils the file. */
  function Seen(file: seq<Byte>, at: nat, limit: nat, found: Found): (r: Option<Found>)
    requires at + 8 <= limit <= |file|
  {
    var name, size, body := file[at..at + 4], U32(file[at + 4..at + 8]), at + 8;
    if Next(body, size) > limit then None
    else if name == FMT then
      if size < 16 || !GoodFormat(file[body..body + 16]) then None
      else Some(found.(format := Some(FormatOf(file[body..body + 16]))))
    else if name == DATA then Some(found.(data := Some(Place(body, size))))
    else Some(found)
  }

  /** The walk from chunk to chunk, up to the first moment both are known. */
  function Walk(file: seq<Byte>, at: nat, limit: nat, found: Found): Option<Found>
    requires limit <= |file|
    decreases limit - at
  {
    if at + 8 > limit then Some(found)
    else match Seen(file, at, limit, found)
      case None => None
      case Some(more) =>
        if more.Complete() then Some(more) else Walk(file, Next(at + 8, U32(file[at + 4..at + 8])), limit, more)
  }

  function Limit(file: seq<Byte>): nat
    requires |file| >= 8
  {
    U32(file[4..8]) + 8
  }

  predicate GoodRiff(file: seq<Byte>) {
    && 44 <= |file| <= LARGEST && file[..4] == RIFF && file[8..12] == WAVE
    && 44 <= Limit(file) <= |file|
  }

  /** The file's parameters and where its samples begin, or none. */
  function Parse(file: seq<Byte>): Option<(Wav, nat)> {
    if !GoodRiff(file) then None
    else match Walk(file, 12, Limit(file), NOTHING_YET)
      case None => None
      case Some(found) =>
        if found.Complete() && found.data.value.bytes > 0 && found.data.value.bytes % (found.format.value.channels * 2) == 0
        then Some((Wav(found.format.value.rate, found.format.value.channels, found.data.value.bytes), found.data.value.at))
        else None
  }

  // ---------------------------------------------------------------- what acceptance guarantees

  predicate Sound(limit: nat, found: Found) {
    && (found.format.Some? ==> 8000 <= found.format.value.rate <= 48000 && 1 <= found.format.value.channels <= 2)
    && (found.data.Some? ==> found.data.value.at + found.data.value.bytes <= limit)
  }

  lemma SeenIsSound(file: seq<Byte>, at: nat, limit: nat, found: Found)
    requires at + 8 <= limit <= |file| && Sound(limit, found)
    ensures Seen(file, at, limit, found).Some? ==> Sound(limit, Seen(file, at, limit, found).value)
  {
  }

  lemma {:induction false} WalkIsSound(file: seq<Byte>, at: nat, limit: nat, found: Found)
    requires limit <= |file| && Sound(limit, found)
    ensures Walk(file, at, limit, found).Some? ==> Sound(limit, Walk(file, at, limit, found).value)
    decreases limit - at
  {
    if at + 8 <= limit {
      var seen := Seen(file, at, limit, found);
      SeenIsSound(file, at, limit, found);
      if seen.Some? && !seen.value.Complete() {
        WalkIsSound(file, Next(at + 8, U32(file[at + 4..at + 8])), limit, seen.value);
      }
    }
  }

  /** Whatever the file holds: an accepted one is mono or stereo at 8 to 48 kHz, has at least one frame and
      whole frames only, and they all lie inside the file. */
  lemma AcceptedIsPlayable(file: seq<Byte>)
    requires Parse(file).Some?
    ensures var (wav, at) := Parse(file).value;
      && 8000 <= wav.rate <= 48000 && 1 <= wav.channels <= 2
      && 0 < wav.bytes && wav.bytes % (wav.channels * 2) == 0 && at + wav.bytes <= |file| <= LARGEST
  {
    WalkIsSound(file, 12, Limit(file), NOTHING_YET);
  }

  // ---------------------------------------------------------------- the loop

  /** Reads the format chunk's first 16 bytes; none when they do not do. */
  method ReadFormat(file: File, size: nat) returns (format: Option<Format>)
    requires file.Valid() && file.position + size <= |file.bytes|
    modifies file`position, file`faulty
    ensures file.Valid() && (old(file.faulty) ==> file.faulty)
    ensures var at, bytes := old(file.position), file.bytes;
      if size >= 16 && GoodFormat(bytes[at..at + 16])
      then format == Some(FormatOf(bytes[at..at + 16])) || (format == None && file.faulty)
      else format == None
  {
    if size < 16 { return None; }
    var fmt := file.Read(16);
    if |fmt| != 16 || U16(fmt[..2]) != 1 || U16(fmt[14..]) != 16 { return None; }
    var channels, rate := U16(fmt[2..4]), U32(fmt[4..8]);
    if (channels != 1 && channels != 2) || rate < 8000 || rate > 48000 ||
       U16(fmt[12..14]) != channels * 2 || U32(fmt[8..12]) != rate * channels * 2 { return None; }
    return Some(Format(rate, channels));
  }

  /** The RIFF header; none when it does not do, and otherwise the file stands at the first chunk. */
  method ReadRiff(file: File) returns (limit: Option<nat>)
    requires file.Valid()
    modifies file`position, file`faulty
    ensures file.Valid() && (old(file.faulty) ==> file.faulty)
    ensures if GoodRiff(file.bytes)
      then (limit == Some(Limit(file.bytes)) && file.position == 12) || (limit == None && file.faulty)
      else limit == None
    ensures limit.Some? ==> limit.value <= |file.bytes|
  {
    var size := |file.bytes|;
    var sought := file.Seek(size);
    if !sought || size < 44 || size > LARGEST { return None; }
    sought := file.Seek(0);
    if !sought { return None; }
    var header := file.Read(12);
    if |header| != 12 { return None; }
    assert header[..4] == file.bytes[..4] && header[4..8] == file.bytes[4..8] && header[8..12] == file.bytes[8..12];
    if header[..4] != RIFF || header[8..12] != WAVE { return None; }
    var end := U32(header[4..8]) + 8;
    return if end > size || end < 44 then None else Some(end);
  }

  /** One chunk: the body of the loop up to its seek. */
  method ReadChunk(file: File, limit: nat, found: Found) returns (more: Option<Found>, next: nat)
    requires file.Valid() && file.position + 8 <= limit <= |file.bytes|
    modifies file`position, file`faulty
    ensures file.Valid() && (old(file.faulty) ==> file.faulty)
    ensures more == Seen(file.bytes, old(file.position), limit, found) || (more == None && file.faulty)
    ensures more.Some? ==>
      next == Next(old(file.position) + 8, U32(file.bytes[old(file.position) + 4..old(file.position) + 8])) <= limit
  {
    hide U32, GoodFormat;
    next := 0;
    ghost var at := file.position;
    var chunk := file.Read(8);
    if |chunk| != 8 { return None, next; }
    assert chunk[..4] == file.bytes[at..at + 4] && chunk[4..8] == file.bytes[at + 4..at + 8];
    var bytes := U32(chunk[4..8]);
    var position := file.position;
    next := position + bytes + bytes % 2;
    if next > limit { return None, next; }
    if chunk[..4] == FMT {
      var format := ReadFormat(file, bytes);
      return if format == None then None else Some(found.(format := format)), next;
    }
    return Some(if chunk[..4] == DATA then found.(data := Some(Place(position, bytes))) else found), next;
  }

  /** Accepts exactly what `Parse` accepts, unless the card fails, and then refuses; an accepted file stands
      at its first sample. */
  method ReadWav(file: File) returns (ok: bool, wav: Wav)
    requires file.Valid()
    modifies file`position, file`faulty
    ensures file.Valid() && (old(file.faulty) ==> file.faulty)
    ensures ok ==> Parse(file.bytes) == Some((wav, file.position))
    ensures !ok ==> Parse(file.bytes) == None || file.faulty
  {
    hide Seen, GoodRiff, Limit, U32;
    wav := Wav(0, 1, 0);
    var end := ReadRiff(file);
    if end == None { return false, wav; }
    var limit := end.value;
    ghost var outcome := Walk(file.bytes, 12, limit, NOTHING_YET);
    var found := NOTHING_YET;
    while file.position + 8 <= limit
      invariant file.Valid() && (old(file.faulty) ==> file.faulty)
      invariant !found.Complete() && Sound(limit, found)
      invariant Walk(file.bytes, file.position, limit, found) == outcome
      decreases limit - file.position
    {
      ghost var at := file.position;
      var more, next := ReadChunk(file, limit, found);
      if more == None { return false, wav; }
      SeenIsSound(file.bytes, at, limit, found);
      found := more.value;
      if found.Complete() { break; }
      var sought := file.Seek(next);
      if !sought { return false, wav; }
    }
    assert outcome == Some(found) && Sound(limit, found);
    if !found.Complete() { return false, wav; }
    var format, data := found.format.value, found.data.value;
    wav := Wav(format.rate, format.channels, data.bytes);
    if data.bytes == 0 || data.bytes % (format.channels * 2) != 0 { return false, wav; }
    ok := file.Seek(data.at);
  }
}
