/** What ReadWav of firmware/apps/paper-s31-wifi/paper_protocol.h makes of a RIFF file written as a list of chunks:
    which of them give the parameters and the samples, whatever other chunks stand before, between or behind. */
module WavChunks {
  import opened Basics
  import opened WavReader

  // ---------------------------------------------------------------- a file from chunks

  datatype ChunkData = Chunk(name: seq<Byte>, body: seq<Byte>, pad: Byte)

  type Chunk = c: ChunkData | |c.name| == 4 witness Chunk(DATA, [], 0)

  /** Name, size, body, and a byte more after an odd body. */
  function BytesOf(c: Chunk): (bytes: seq<Byte>)
    ensures |bytes| == 8 + |c.body| + |c.body| % 2
  {
    c.name + Le32(|c.body|) + c.body + if |c.body| % 2 == 1 then [c.pad] else []
  }

  function AllBytes(cs: seq<Chunk>): seq<Byte> {
    if cs == [] then [] else BytesOf(cs[0]) + AllBytes(cs[1..])
  }

  /** The whole file, with anything behind the end that its header states. */
  function FileOf(cs: seq<Chunk>, tail: seq<Byte>): (file: seq<Byte>)
    ensures |file| >= 12
  {
    RIFF + Le32(4 + |AllBytes(cs)|) + WAVE + AllBytes(cs) + tail
  }

  /** Where the body of the k-th chunk begins. */
  function BodyAt(cs: seq<Chunk>, k: nat): nat
    requires k < |cs|
  {
    12 + |AllBytes(cs[..k])| + 8
  }

  // ---------------------------------------------------------------- what a file says

  /** The 16 bytes of a PCM16 format. */
  function FormatBytes(rate: nat, channels: nat): seq<Byte> {
    Le16(1) + Le16(channels) + Le32(rate) + Le32(rate * channels * 2) + Le16(channels * 2) + Le16(16)
  }

  /** A format chunk for this rate and these channels; it may go on after the 16 bytes. */
  predicate Tells(body: seq<Byte>, rate: nat, channels: nat) {
    8000 <= rate <= 48000 && 1 <= channels <= 2 && FormatBytes(rate, channels) <= body
  }

  ghost predicate Playable(body: seq<Byte>) { exists rate, channels :: Tells(body, rate, channels) }

  predicate Named(cs: seq<Chunk>, k: int, name: seq<Byte>) { 0 <= k < |cs| && cs[k].name == name }

  predicate NoneIn(cs: seq<Chunk>, from: int, to: int, name: seq<Byte>) {
    forall j :: from <= j < to ==> !Named(cs, j, name)
  }

  /** Which two chunks count: the first of one kind that comes when the other was there, and the last of the other
      before it. */
  predicate Counts(cs: seq<Chunk>, f: int, d: int) {
    && Named(cs, f, FMT) && Named(cs, d, DATA)
    && if f < d then NoneIn(cs, 0, d, DATA) && NoneIn(cs, f + 1, d, FMT)
       else NoneIn(cs, 0, f, FMT) && NoneIn(cs, d + 1, f, DATA)
  }

  ghost predicate FormatsGood(cs: seq<Chunk>, to: int) {
    forall j :: 0 <= j < to && Named(cs, j, FMT) ==> Playable(cs[j].body)
  }

  /** The two chunks that count give these parameters, and no format before them is bad. */
  ghost predicate Offers(cs: seq<Chunk>, f: int, d: int, wav: Wav, at: nat) {
    && Counts(cs, f, d) && FormatsGood(cs, if f < d then d else f)
    && Tells(cs[f].body, wav.rate, wav.channels)
    && wav.bytes == |cs[d].body| && wav.bytes > 0 && wav.bytes % (wav.channels * 2) == 0
    && at == BodyAt(cs, d)
  }

  // ---------------------------------------------------------------- the format's bytes

  lemma FormatFields(rate: nat, channels: nat)
    ensures var b := FormatBytes(rate, channels);
      && |b| == 16 && b[..2] == Le16(1) && b[2..4] == Le16(channels) && b[4..8] == Le32(rate)
      && b[8..12] == Le32(rate * channels * 2) && b[12..14] == Le16(channels * 2) && b[14..] == Le16(16)
  {
    hide Le16, Le32;
  }

  lemma SameWord(p: seq<Byte>, v: nat)
    requires |p| == 2 && v < 0x1_0000
    ensures U16(p) == v <==> p == Le16(v)
  {
    Word16(v);
    if U16(p) == v { SamePair(p[0], p[1], Le16(v)[0], Le16(v)[1]); }
  }

  lemma SameLong(p: seq<Byte>, v: nat)
    requires |p| == 4 && v < 0x1_0000_0000
    ensures U32(p) == v <==> p == Le32(v)
  {
    hide U32, Le32;
    Word32(v);
    if U32(p) == v { SameBytes(p, Le32(v)); }
  }

  /** The reader's field checks accept exactly these bytes. */
  lemma GoodFormatIs(fmt: seq<Byte>, rate: nat, channels: nat)
    requires |fmt| == 16
    ensures Tells(fmt, rate, channels) <==> GoodFormat(fmt) && FormatOf(fmt).rate == rate && FormatOf(fmt).channels == channels
  {
    if 8000 <= rate <= 48000 && 1 <= channels <= 2 {
      var b := FormatBytes(rate, channels);
      FormatFields(rate, channels);
      hide U16, U32, Le16, Le32, FormatBytes;
      SameWord(fmt[..2], 1);
      SameWord(fmt[2..4], channels);
      SameLong(fmt[4..8], rate);
      SameLong(fmt[8..12], rate * channels * 2);
      SameWord(fmt[12..14], channels * 2);
      SameWord(fmt[14..], 16);
      assert fmt == fmt[..2] + fmt[2..4] + fmt[4..8] + fmt[8..12] + fmt[12..14] + fmt[14..];
      assert b == b[..2] + b[2..4] + b[4..8] + b[8..12] + b[12..14] + b[14..];
      assert b <= fmt <==> b == fmt;
    }
  }

  lemma PlayableIs(body: seq<Byte>)
    ensures Playable(body) <==> |body| >= 16 && GoodFormat(body[..16])
    ensures Playable(body) ==> forall rate, channels ::
      Tells(body, rate, channels) <==> FormatOf(body[..16]).rate == rate && FormatOf(body[..16]).channels == channels
  {
    forall rate: nat, channels: nat
      ensures Tells(body, rate, channels) ==> |body| >= 16
      ensures |body| >= 16 ==> (Tells(body, rate, channels) <==> Tells(body[..16], rate, channels))
    {
      FormatFields(rate, channels);
      hide FormatBytes;
      if |body| >= 16 && FormatBytes(rate, channels) <= body { assert body[..16] == FormatBytes(rate, channels); }
    }
    if |body| >= 16 {
      hide Tells, GoodFormat, FormatOf;
      forall rate: nat, channels: nat
        ensures Tells(body, rate, channels) <==>
          GoodFormat(body[..16]) && FormatOf(body[..16]).rate == rate && FormatOf(body[..16]).channels == channels
      {
        GoodFormatIs(body[..16], rate, channels);
      }
      if GoodFormat(body[..16]) { assert Tells(body, RateOf(body[..16]), FormatOf(body[..16]).channels); }
    }
  }

  function RateOf(fmt: seq<Byte>): nat
    requires |fmt| == 16 && GoodFormat(fmt)
  {
    FormatOf(fmt).rate
  }

  // ---------------------------------------------------------------- the reader on the chunks

  /** What the k-th chunk adds. */
  function Told(cs: seq<Chunk>, k: nat, found: Found): Option<Found>
    requires k < |cs|
  {
    var body := cs[k].body;
    if cs[k].name == FMT then
      if |body| < 16 || !GoodFormat(body[..16]) then None else Some(found.(format := Some(FormatOf(body[..16]))))
    else if cs[k].name == DATA then Some(found.(data := Some(Place(BodyAt(cs, k), |body|))))
    else Some(found)
  }

  function Scan(cs: seq<Chunk>, k: nat, found: Found): Option<Found>
    requires k <= |cs|
    decreases |cs| - k
  {
    if k == |cs| then Some(found)
    else match Told(cs, k, found)
      case None => None
      case Some(more) => if more.Complete() then Some(more) else Scan(cs, k + 1, more)
  }

  lemma Rest<T>(a: seq<T>, b: seq<T>)
    ensures a == [] ==> a + b == b
    ensures a != [] ==> (a + b)[0] == a[0] && (a + b)[1..] == a[1..] + b
  {
  }

  lemma Halves<T>(s: seq<T>, k: nat)
    requires k < |s|
    ensures s[..k + 1] + s[k + 1..] == s && s[..k] + [s[k]] == s[..k + 1]
  {
  }

  lemma {:induction false} AllBytesSplit(a: seq<Chunk>, b: seq<Chunk>)
    ensures AllBytes(a + b) == AllBytes(a) + AllBytes(b)
  {
    hide BytesOf;
    Rest(a, b);
    if a != [] { AllBytesSplit(a[1..], b); }
  }

  lemma OneChunk(c: Chunk)
    ensures AllBytes([c]) == BytesOf(c)
  {
    hide BytesOf;
    assert [c][1..] == [];
    assert AllBytes([c][1..]) == [];
  }

  lemma BytesAround(cs: seq<Chunk>, k: nat)
    requires k < |cs|
    ensures AllBytes(cs) == AllBytes(cs[..k]) + BytesOf(cs[k]) + AllBytes(cs[k + 1..])
    ensures AllBytes(cs[..k + 1]) == AllBytes(cs[..k]) + BytesOf(cs[k])
  {
    hide BytesOf, AllBytes;
    AllBytesSplit(cs[..k + 1], cs[k + 1..]);
    AllBytesSplit(cs[..k], [cs[k]]);
    OneChunk(cs[k]);
    Halves(cs, k);
  }

  lemma Middle<T>(front: seq<T>, s: seq<T>, back: seq<T>, i: nat, j: nat)
    requires i <= j <= |s|
    ensures (front + s + back)[|front| + i..|front| + j] == s[i..j]
  {
  }

  /** The bytes of a chunk in the middle of a file. */
  lemma ChunkInFile(front: seq<Byte>, c: Chunk, back: seq<Byte>)
    ensures var file, at := front + BytesOf(c) + back, |front|;
      && file[at..at + 4] == c.name && file[at + 4..at + 8] == Le32(|c.body|) && file[at + 8..at + 8 + |c.body|] == c.body
  {
    var b, n := BytesOf(c), |c.body|;
    PartsOf(c);
    hide BytesOf, Le32;
    Middle(front, b, back, 0, 4);
    Middle(front, b, back, 4, 8);
    Middle(front, b, back, 8, 8 + n);
  }

  lemma PartsOf(c: Chunk)
    ensures var b := BytesOf(c); b[..4] == c.name && b[4..8] == Le32(|c.body|) && b[8..8 + |c.body|] == c.body
  {
    hide Le32;
  }

  /** The file before the k-th chunk. */
  function Front(cs: seq<Chunk>, k: nat): (front: seq<Byte>)
    requires k < |cs|
    ensures |front| == 12 + |AllBytes(cs[..k])|
  {
    RIFF + Le32(4 + |AllBytes(cs)|) + WAVE + AllBytes(cs[..k])
  }

  lemma FileAround(cs: seq<Chunk>, tail: seq<Byte>, k: nat)
    requires k < |cs|
    ensures FileOf(cs, tail) == Front(cs, k) + BytesOf(cs[k]) + (AllBytes(cs[k + 1..]) + tail)
  {
    hide BytesOf, AllBytes, Le32;
    BytesAround(cs, k);
  }

  /** Where the k-th chunk lies in the file. */
  lemma ChunkLies(cs: seq<Chunk>, tail: seq<Byte>, k: nat)
    requires k < |cs| && |FileOf(cs, tail)| <= LARGEST
    ensures var file, at, c := FileOf(cs, tail), BodyAt(cs, k) - 8, cs[k];
      && at + |BytesOf(c)| == 12 + |AllBytes(cs[..k + 1])| <= 12 + |AllBytes(cs)| <= |file|
      && file[at..at + 4] == c.name && U32(file[at + 4..at + 8]) == |c.body| && file[at + 8..at + 8 + |c.body|] == c.body
  {
    hide BytesOf, AllBytes, FileOf, Front, Le32, U32;
    BytesAround(cs, k);
    FileAround(cs, tail, k);
    ChunkInFile(Front(cs, k), cs[k], AllBytes(cs[k + 1..]) + tail);
    Word32(|cs[k].body|);
  }

  lemma SeenIsTold(cs: seq<Chunk>, tail: seq<Byte>, k: nat, found: Found)
    requires k < |cs| && |FileOf(cs, tail)| <= LARGEST
    ensures var file, at, limit := FileOf(cs, tail), BodyAt(cs, k) - 8, 12 + |AllBytes(cs)|;
      && at + 8 <= limit <= |file| && Seen(file, at, limit, found) == Told(cs, k, found)
      && Next(at + 8, U32(file[at + 4..at + 8])) == 12 + |AllBytes(cs[..k + 1])|
  {
    hide FileOf, U32, GoodFormat, FormatOf, AllBytes;
    ChunkLies(cs, tail, k);
    var file, at := FileOf(cs, tail), BodyAt(cs, k) - 8;
    if |cs[k].body| >= 16 { assert file[at + 8..at + 8 + |cs[k].body|][..16] == file[at + 8..at + 8 + 16]; }
  }

  lemma {:induction false} WalkIsScan(cs: seq<Chunk>, tail: seq<Byte>, k: nat, found: Found)
    requires k <= |cs| && |FileOf(cs, tail)| <= LARGEST && 12 + |AllBytes(cs)| <= |FileOf(cs, tail)|
    ensures Walk(FileOf(cs, tail), 12 + |AllBytes(cs[..k])|, 12 + |AllBytes(cs)|, found) == Scan(cs, k, found)
    decreases |cs| - k
  {
    hide FileOf, Seen, Told, U32, AllBytes;
    if k == |cs| {
      assert cs[..k] == cs;
    } else {
      SeenIsTold(cs, tail, k, found);
      var more := Told(cs, k, found);
      if more.Some? && !more.value.Complete() { WalkIsScan(cs, tail, k + 1, more.value); }
    }
  }

  // ---------------------------------------------------------------- what the scan finds

  function FormatIn(body: seq<Byte>): Option<Format> {
    if |body| >= 16 && GoodFormat(body[..16]) then Some(FormatOf(body[..16])) else None
  }

  predicate Last(cs: seq<Chunk>, f: int, k: int, name: seq<Byte>) { f < k && Named(cs, f, name) && NoneIn(cs, f + 1, k, name) }

  /** What is known of the first k chunks. */
  ghost predicate Knows(cs: seq<Chunk>, k: nat, found: Found) {
    && FormatsGood(cs, k) && !found.Complete()
    && (found.format == None <==> NoneIn(cs, 0, k, FMT))
    && (found.data == None <==> NoneIn(cs, 0, k, DATA))
    && (forall f :: Last(cs, f, k, FMT) ==> found.format == FormatIn(cs[f].body))
    && (forall d :: Last(cs, d, k, DATA) ==> found.data == Some(Place(BodyAt(cs, d), |cs[d].body|)))
  }

  /** The reader's outcome told by the chunks. */
  ghost predicate Outcome(cs: seq<Chunk>, r: Option<Found>) {
    match r
    case None => exists j :: Named(cs, j, FMT) && !Playable(cs[j].body) && (NoneIn(cs, 0, j, FMT) || NoneIn(cs, 0, j, DATA))
    case Some(found) =>
      if found.Complete() then
        exists f, d :: Counts(cs, f, d) && FormatsGood(cs, if f < d then d else f + 1)
          && found.format == FormatIn(cs[f].body) && found.data == Some(Place(BodyAt(cs, d), |cs[d].body|))
      else NoneIn(cs, 0, |cs|, FMT) || NoneIn(cs, 0, |cs|, DATA)
  }

  lemma {:induction false} LastExists(cs: seq<Chunk>, k: nat, name: seq<Byte>) returns (f: int)
    requires !NoneIn(cs, 0, k, name)
    ensures 0 <= f && Last(cs, f, k, name)
  {
    if Named(cs, k - 1, name) { f := k - 1; } else { f := LastExists(cs, k - 1, name); }
  }

  lemma {:induction false} ScanOutcome(cs: seq<Chunk>, k: nat, found: Found)
    requires k <= |cs| && Knows(cs, k, found)
    ensures Outcome(cs, Scan(cs, k, found))
    decreases |cs| - k
  {
    hide Tells, GoodFormat, FormatOf, BodyAt;
    if k < |cs| {
      var more := Told(cs, k, found);
      if Named(cs, k, FMT) { FormatAdds(cs, k, found); }
      else if Named(cs, k, DATA) { DataAdds(cs, k, found); }
      else { NothingAdds(cs, k, found); }
      if more.Some? && !more.value.Complete() { ScanOutcome(cs, k + 1, more.value); }
    }
  }

  /** One more chunk, for one of the two names. */
  lemma OneMore(cs: seq<Chunk>, k: nat, name: seq<Byte>)
    requires k < |cs|
    ensures NoneIn(cs, 0, k + 1, name) == (NoneIn(cs, 0, k, name) && !Named(cs, k, name))
    ensures forall f :: Last(cs, f, k + 1, name) <==> if Named(cs, k, name) then f == k else Last(cs, f, k, name)
  {
    forall f ensures Last(cs, f, k + 1, name) <==> if Named(cs, k, name) then f == k else Last(cs, f, k, name) {
      if Named(cs, k, name) && f < k { assert !NoneIn(cs, f + 1, k + 1, name) by { assert f + 1 <= k < k + 1; } }
      if !Named(cs, k, name) && Last(cs, f, k, name) { assert NoneIn(cs, f + 1, k + 1, name); }
    }
  }

  lemma NothingAdds(cs: seq<Chunk>, k: nat, found: Found)
    requires k < |cs| && Knows(cs, k, found) && !Named(cs, k, FMT) && !Named(cs, k, DATA)
    ensures Told(cs, k, found) == Some(found) && Knows(cs, k + 1, found)
  {
    hide GoodFormat, FormatOf, BodyAt, FormatIn, NoneIn, Last, Playable;
    OneMore(cs, k, FMT);
    OneMore(cs, k, DATA);
  }

  lemma FormatAdds(cs: seq<Chunk>, k: nat, found: Found)
    requires k < |cs| && Knows(cs, k, found) && Named(cs, k, FMT)
    ensures var more := Told(cs, k, found);
      if more.Some? && !more.value.Complete() then Knows(cs, k + 1, more.value) else Outcome(cs, more)
  {
    hide Tells, GoodFormat, FormatOf, BodyAt, Playable, NoneIn, Last, Counts;
    PlayableIs(cs[k].body);
    OneMore(cs, k, FMT);
    OneMore(cs, k, DATA);
    var more := Told(cs, k, found);
    assert more == if FormatIn(cs[k].body) == None then None else Some(found.(format := FormatIn(cs[k].body)));
    if more.Some? && more.value.Complete() {
      var d := LastExists(cs, k, DATA);
      FormatCounts(cs, k, d);
    }
  }

  lemma DataAdds(cs: seq<Chunk>, k: nat, found: Found)
    requires k < |cs| && Knows(cs, k, found) && Named(cs, k, DATA)
    ensures var more := Told(cs, k, found);
      more.Some? && if more.value.Complete() then Outcome(cs, more) else Knows(cs, k + 1, more.value)
  {
    hide Tells, GoodFormat, FormatOf, BodyAt, Playable, FormatIn, NoneIn, Last, Counts;
    OneMore(cs, k, FMT);
    OneMore(cs, k, DATA);
    var more := Told(cs, k, found);
    if more.value.Complete() {
      var f := LastExists(cs, k, FMT);
      DataCounts(cs, f, k);
    }
  }

  lemma FormatCounts(cs: seq<Chunk>, k: nat, d: int)
    requires Named(cs, k, FMT) && NoneIn(cs, 0, k, FMT) && Last(cs, d, k, DATA)
    ensures Counts(cs, k, d)
  {
  }

  lemma DataCounts(cs: seq<Chunk>, f: int, k: nat)
    requires Named(cs, k, DATA) && NoneIn(cs, 0, k, DATA) && Last(cs, f, k, FMT)
    ensures Counts(cs, f, k)
  {
  }

  /** At most one pair of chunks counts, and both kinds lie before its end only. */
  lemma CountsOnce(cs: seq<Chunk>, f: int, d: int, g: int, e: int)
    requires Counts(cs, f, d) && Counts(cs, g, e)
    ensures f == g && d == e
  {
  }

  /** A file of chunks is accepted with these parameters and this place of the samples if and only if its size is
      in range and the chunks that count offer them, whatever other chunks there are. */
  lemma ReadsChunks(cs: seq<Chunk>, tail: seq<Byte>, wav: Wav, at: nat)
    ensures Parse(FileOf(cs, tail)) == Some((wav, at)) <==>
      && 44 <= |FileOf(cs, [])| && |FileOf(cs, tail)| <= LARGEST
      && exists f, d :: Offers(cs, f, d, wav, at)
  {
    hide Seen, Scan, Walk, Tells, GoodFormat, FormatOf, Counts, BodyAt;
    RiffIs(cs, tail);
    if |FileOf(cs, tail)| <= LARGEST && 44 <= |FileOf(cs, [])| {
      assert cs[..0] == [];
      WalkIsScan(cs, tail, 0, NOTHING_YET);
      ScanOutcome(cs, 0, NOTHING_YET);
      OutcomeOffers(cs, Scan(cs, 0, NOTHING_YET), wav, at);
    }
  }

  lemma RiffIs(cs: seq<Chunk>, tail: seq<Byte>)
    ensures |FileOf(cs, [])| == 12 + |AllBytes(cs)|
    ensures GoodRiff(FileOf(cs, tail)) <==> 44 <= 12 + |AllBytes(cs)| && |FileOf(cs, tail)| <= LARGEST
    ensures |FileOf(cs, tail)| <= LARGEST ==> Limit(FileOf(cs, tail)) == 12 + |AllBytes(cs)|
  {
    hide AllBytes, Le32, U32;
    var file := FileOf(cs, tail);
    assert file[..4] == RIFF && file[4..8] == Le32(4 + |AllBytes(cs)|) && file[8..12] == WAVE;
    Word32(4 + |AllBytes(cs)|);
  }

  /** What the outcome of the scan says about acceptance. */
  lemma OutcomeOffers(cs: seq<Chunk>, r: Option<Found>, wav: Wav, at: nat)
    requires Outcome(cs, r)
    ensures (exists f, d :: Offers(cs, f, d, wav, at)) <==>
      && r.Some? && r.value.Complete()
      && r.value.format.value == Format(wav.rate, wav.channels) && r.value.data.value == Place(at, wav.bytes)
      && wav.bytes > 0 && wav.bytes % (wav.channels * 2) == 0
  {
    hide Tells, GoodFormat, FormatOf, BodyAt, Playable, NoneIn;
    if r.Some? && r.value.Complete() {
      var found := r.value;
      var f, d :| Counts(cs, f, d) && FormatsGood(cs, if f < d then d else f + 1)
        && found.format == FormatIn(cs[f].body) && found.data == Some(Place(BodyAt(cs, d), |cs[d].body|));
      PlayableIs(cs[f].body);
      forall g, e | Counts(cs, g, e) ensures g == f && e == d { CountsOnce(cs, f, d, g, e); }
      assert FormatsGood(cs, if f < d then d else f);
      assert Tells(cs[f].body, wav.rate, wav.channels) <==> found.format.value == Format(wav.rate, wav.channels);
      assert Offers(cs, f, d, wav, at) <==>
        && found.format.value == Format(wav.rate, wav.channels) && found.data.value == Place(at, wav.bytes)
        && wav.bytes > 0 && wav.bytes % (wav.channels * 2) == 0;
    } else {
      forall f, d ensures !Offers(cs, f, d, wav, at) { NoOffer(cs, r, f, d, wav, at); }
    }
  }

  lemma NoOffer(cs: seq<Chunk>, r: Option<Found>, f: int, d: int, wav: Wav, at: nat)
    requires Outcome(cs, r) && (r.Some? ==> !r.value.Complete())
    ensures !Offers(cs, f, d, wav, at)
  {
    hide Tells, BodyAt;
    if r == None {
      var j :| Named(cs, j, FMT) && !Playable(cs[j].body) && (NoneIn(cs, 0, j, FMT) || NoneIn(cs, 0, j, DATA));
      assert Named(cs, f, FMT) && Tells(cs[f].body, wav.rate, wav.channels) ==> Playable(cs[f].body);
    }
  }

  /** Neither a format nor data. */
  predicate Other(c: Chunk) { c.name != FMT && c.name != DATA }

  /** An ordinary file: a format chunk for this rate and these channels and later whole frames of data, with any
      other chunks before and between, and anything behind. The player finds the rate, the channels, and exactly
      these samples. */
  lemma OrdinaryFile(before: seq<Chunk>, fmt: Chunk, between: seq<Chunk>, data: Chunk, after: seq<Chunk>, tail: seq<Byte>,
                     rate: nat, channels: Channels)
    requires (forall c :: c in before ==> Other(c)) && (forall c :: c in between ==> Other(c))
    requires fmt.name == FMT && Tells(fmt.body, rate, channels)
    requires data.name == DATA && data.body != [] && |data.body| % (channels * 2) == 0
    requires |FileOf(before + [fmt] + between + [data] + after, tail)| <= LARGEST
    ensures var file := FileOf(before + [fmt] + between + [data] + after, tail);
      && Parse(file).Some? && Parse(file).value.0 == Wav(rate, channels, |data.body|)
      && var at := Parse(file).value.1; at + |data.body| <= |file| && file[at..at + |data.body|] == data.body
  {
    hide Parse, FileOf, Tells, FormatBytes, BodyAt, Counts, FormatsGood, AllBytes;
    var cs := before + [fmt] + between + [data] + after;
    var f, d := |before|, |before| + 1 + |between|;
    assert Playable(fmt.body);
    OrdinaryCounts(before, fmt, between, data, after);
    var wav, at := Wav(rate, channels, |data.body|), BodyAt(cs, d);
    PlayableIs(fmt.body);
    assert Offers(cs, f, d, wav, at);
    BigEnough(cs, f, d);
    ReadsChunks(cs, tail, wav, at);
    ChunkLies(cs, tail, d);
    BodyInside(cs, tail, d);
  }

  lemma OrdinaryCounts(before: seq<Chunk>, fmt: Chunk, between: seq<Chunk>, data: Chunk, after: seq<Chunk>)
    requires (forall c :: c in before ==> Other(c)) && (forall c :: c in between ==> Other(c))
    requires fmt.name == FMT && Playable(fmt.body) && data.name == DATA
    ensures var cs, f, d := before + [fmt] + between + [data] + after, |before|, |before| + 1 + |between|;
      cs[f] == fmt && cs[d] == data && Counts(cs, f, d) && FormatsGood(cs, d)
  {
    hide Playable;
    var cs, f, d := before + [fmt] + between + [data] + after, |before|, |before| + 1 + |between|;
    assert forall j :: 0 <= j < f ==> cs[j] in before;
    assert forall j :: f < j < d ==> cs[j] in between;
  }

  lemma BodyInside(cs: seq<Chunk>, tail: seq<Byte>, d: nat)
    requires d < |cs| && |FileOf(cs, tail)| <= LARGEST
    ensures BodyAt(cs, d) + |cs[d].body| <= |FileOf(cs, tail)|
  {
    hide AllBytes, FileOf;
    ChunkLies(cs, tail, d);
  }

  /** With a format and a frame of data a file has 46 bytes at least. */
  lemma BigEnough(cs: seq<Chunk>, f: nat, d: nat)
    requires f < d < |cs| && |cs[f].body| >= 16 && |cs[d].body| >= 1
    ensures 44 <= |FileOf(cs, [])|
  {
    hide AllBytes, BytesOf;
    BytesAround(cs, d);
    BytesAround(cs[..d], f);
    assert cs[..d][f] == cs[f];
  }
}
