/** The pages of firmware/apps/korvo-ble/recordings.cc as values: which entries of a directory a page holds, how
    it looks on the wire, and what following the cursor from page to page collects. */
module RecordingPages {
  import opened Basics
  import WavRecorder

  /** A directory entry; none where stat fails. */
  datatype Stat = Stat(size: nat, mtime: nat)

  datatype Dirent = Dirent(name: seq<Byte>, stat: Option<Stat>)

  /** The directory that is listed, and how sizes become durations. */
  datatype Store = Store(path: seq<Byte>, messages: bool, rate: nat, coding: WavRecorder.Coding)

  /** What one request allows: bytes for entries, and entries, where 0 stands for no bound. */
  datatype Limits = Limits(budget: nat, most: nat)

  datatype Entry = Entry(name: seq<Byte>, size: nat, mtime: nat, duration: nat)

  datatype Page = Page(entries: seq<Entry>, hasMore: bool, total: nat, next: nat)

  const WORD := 0x1_0000_0000

  const MESSAGES: seq<Byte> := [109, 101, 115, 115, 97, 103, 101, 115, 47]

  // ---------------------------------------------------------------- which entries count

  predicate IsLetter(b: Byte, lower: Byte) { b == lower || b as int + 32 == lower }

  predicate EndsWithWav(name: seq<Byte>) {
    var n := |name|;
    n >= 4 && name[n - 4] == 46 && IsLetter(name[n - 3], 119) && IsLetter(name[n - 2], 97) && IsLetter(name[n - 1], 118)
  }

  predicate Counted(e: Dirent) { EndsWithWav(e.name) && e.name[0] != 46 }

  function RelName(s: Store, e: Dirent): seq<Byte> { if s.messages then MESSAGES + e.name else e.name }

  /** Neither its name nor its path too long, and still there. */
  predicate Listable(s: Store, e: Dirent) {
    |RelName(s, e)| <= 255 && |s.path| + 1 + |e.name| < 384 && e.stat.Some?
  }

  function EntryOf(s: Store, e: Dirent): Entry
    requires Listable(s, e)
  {
    var size := e.stat.value.size % WORD;
    Entry(RelName(s, e), size, e.stat.value.mtime % WORD, WavRecorder.DurationMsFromSize(size, s.rate, s.coding))
  }

  /** The entries a listing counts, in directory order. */
  function Eligible(dir: seq<Dirent>): (r: seq<Dirent>)
    ensures forall e :: e in r ==> Counted(e)
  {
    if dir == [] then []
    else
      var n := |dir| - 1;
      Eligible(dir[..n]) + if Counted(dir[n]) then [dir[n]] else []
  }

  /** What of them can be shown. */
  function Listed(s: Store, w: seq<Dirent>): seq<Entry> {
    if w == [] then []
    else
      var n := |w| - 1;
      Listed(s, w[..n]) + if Listable(s, w[n]) then [EntryOf(s, w[n])] else []
  }

  // ---------------------------------------------------------------- the wire

  function Wire(e: Entry): (bytes: seq<Byte>)
    ensures |bytes| == |e.name| + 13
  {
    [|e.name| % 0x100] + e.name + Le32(e.size) + Le32(e.mtime) + Le32(e.duration)
  }

  function WireAll(es: seq<Entry>): seq<Byte> {
    if es == [] then [] else Wire(es[0]) + WireAll(es[1..])
  }

  function Serialised(p: Page): seq<Byte> {
    Le16(|p.entries|) + WireAll(p.entries) + [if p.hasMore then 1 else 0] + Le16(p.total) + Le16(p.next)
  }

  lemma {:induction false} WireAppend(es: seq<Entry>, e: Entry)
    ensures WireAll(es + [e]) == WireAll(es) + Wire(e)
  {
    hide Wire;
    if es == [] {
      assert WireAll([e]) == Wire(e) + WireAll([]);
    } else {
      WireAppend(es[1..], e);
      assert (es + [e])[1..] == es[1..] + [e];
    }
  }

  /** The reader's side of the format: one entry and what is left. */
  function ParseEntry(bytes: seq<Byte>): Option<(Entry, seq<Byte>)> {
    if bytes == [] || |bytes| < 13 + bytes[0] as int then None
    else
      var k := 1 + bytes[0] as int;
      Some((Entry(bytes[1..k], U32(bytes[k..k + 4]), U32(bytes[k + 4..k + 8]), U32(bytes[k + 8..k + 12])), bytes[k + 12..]))
  }

  function ParseEntries(bytes: seq<Byte>, n: nat): Option<(seq<Entry>, seq<Byte>)> {
    if n == 0 then Some(([], bytes))
    else match ParseEntry(bytes)
      case None => None
      case Some((e, more)) =>
        match ParseEntries(more, n - 1)
        case None => None
        case Some((es, rest)) => Some(([e] + es, rest))
  }

  function ParsePage(bytes: seq<Byte>): Option<Page> {
    if |bytes| < 2 then None
    else match ParseEntries(bytes[2..], U16(bytes))
      case None => None
      case Some((es, tail)) =>
        if |tail| != 5 then None else Some(Page(es, tail[0] != 0, U16(tail[1..3]), U16(tail[3..5])))
  }

  /** Fits the fields of the format. */
  predicate Representable(e: Entry) { |e.name| <= 255 && e.size < WORD && e.mtime < WORD && e.duration < WORD }

  lemma OneEntryParses(e: Entry, rest: seq<Byte>)
    requires Representable(e)
    ensures ParseEntry(Wire(e) + rest) == Some((e, rest))
  {
    hide Le32, U32;
    Word32(e.size);
    Word32(e.mtime);
    Word32(e.duration);
    var bytes, k := Wire(e) + rest, 1 + |e.name|;
    assert bytes[1..k] == e.name && bytes[k + 12..] == rest;
    assert bytes[k..k + 4] == Le32(e.size) && bytes[k + 4..k + 8] == Le32(e.mtime) && bytes[k + 8..k + 12] == Le32(e.duration);
  }

  lemma {:induction false} EntriesParse(es: seq<Entry>, rest: seq<Byte>)
    requires forall e :: e in es ==> Representable(e)
    ensures ParseEntries(WireAll(es) + rest, |es|) == Some((es, rest))
  {
    hide Wire, ParseEntry, Representable, WireAll, ParseEntries;
    WireFirst(es);
    if es == [] {
      NoEntryParses(rest);
      assert WireAll(es) + rest == rest;
    } else {
      EntriesParse(es[1..], rest);
      OneEntryParses(es[0], WireAll(es[1..]) + rest);
      assert WireAll(es) + rest == Wire(es[0]) + (WireAll(es[1..]) + rest);
      assert [es[0]] + es[1..] == es;
      FirstParses(WireAll(es) + rest, |es|, es[0], WireAll(es[1..]) + rest, es[1..], rest);
    }
  }

  lemma WireFirst(es: seq<Entry>)
    ensures WireAll(es) == if es == [] then [] else Wire(es[0]) + WireAll(es[1..])
  {
    hide Wire;
  }

  lemma NoEntryParses(bytes: seq<Byte>)
    ensures ParseEntries(bytes, 0) == Some(([], bytes))
  {
  }

  lemma FirstParses(bytes: seq<Byte>, n: nat, e: Entry, more: seq<Byte>, es: seq<Entry>, rest: seq<Byte>)
    requires n > 0 && ParseEntry(bytes) == Some((e, more)) && ParseEntries(more, n - 1) == Some((es, rest))
    ensures ParseEntries(bytes, n) == Some(([e] + es, rest))
  {
    hide ParseEntry;
  }

  /** Reading a page back gives the page. */
  lemma PageParses(p: Page)
    requires |p.entries| < 0x1_0000 && p.total < 0x1_0000 && p.next < 0x1_0000
    requires forall e :: e in p.entries ==> Representable(e)
    ensures ParsePage(Serialised(p)) == Some(p)
  {
    hide Le16, U16, ParseEntries, WireAll;
    var flag: Byte := if p.hasMore then 1 else 0;
    var tail := [flag] + Le16(p.total) + Le16(p.next);
    var bytes := Serialised(p);
    assert bytes == Le16(|p.entries|) + (WireAll(p.entries) + tail);
    assert bytes[2..] == WireAll(p.entries) + tail && bytes[..2] == Le16(|p.entries|);
    FirstWord(bytes);
    EntriesParse(p.entries, tail);
    assert tail[1..3] == Le16(p.total) && tail[3..5] == Le16(p.next);
    Word16(|p.entries|);
    Word16(p.total);
    Word16(p.next);
  }

  /** A reader never finds more entries than the count's 16 bits say. */
  lemma ParsedCount(p: Page)
    ensures var parsed := ParsePage(Serialised(p)); parsed.Some? ==> |parsed.value.entries| < 0x1_0000
  {
    hide ParseEntries, WireAll;
    var bytes := Serialised(p);
    EntriesCounted(bytes[2..], U16(bytes));
  }

  lemma {:induction false} EntriesCounted(bytes: seq<Byte>, n: nat)
    ensures ParseEntries(bytes, n).Some? ==> |ParseEntries(bytes, n).value.0| == n
  {
    if n > 0 && ParseEntry(bytes).Some? { EntriesCounted(ParseEntry(bytes).value.1, n - 1); }
  }

  // ---------------------------------------------------------------- one page

  /** Whether a page that holds what can be shown of the first `i` may go on past entry `i`. */
  predicate GoesOn(s: Store, l: Limits, w: seq<Dirent>, i: nat)
    requires i < |w|
  {
    && (l.most > 0 ==> |Listed(s, w[..i])| < l.most)
    && (Listable(s, w[i]) ==> |WireAll(Listed(s, w[..i + 1]))| <= l.budget)
  }

  /** How many window entries the page passes. */
  function Cut(s: Store, l: Limits, w: seq<Dirent>): (c: nat)
    ensures c <= |w|
  {
    if w == [] then 0
    else
      var n := |w| - 1;
      var c := Cut(s, l, w[..n]);
      if c == n && GoesOn(s, l, w, n) then n + 1 else c
  }

  /** The cut is where the page first cannot go on. */
  lemma {:induction false} CutIsFirst(s: Store, l: Limits, w: seq<Dirent>)
    ensures var c := Cut(s, l, w);
      && (forall i :: 0 <= i < c ==> GoesOn(s, l, w, i))
      && (c < |w| ==> !GoesOn(s, l, w, c))
  {
    hide Listed, WireAll;
    if w != [] {
      var n := |w| - 1;
      CutIsFirst(s, l, w[..n]);
      forall i | 0 <= i < n ensures GoesOn(s, l, w, i) == GoesOn(s, l, w[..n], i) {
        assert w[..n][..i] == w[..i] && w[..n][..i + 1] == w[..i + 1];
      }
    }
  }

  lemma {:induction false} CutStays(s: Store, l: Limits, w: seq<Dirent>, more: seq<Dirent>)
    requires Cut(s, l, w) < |w|
    ensures Cut(s, l, w + more) == Cut(s, l, w)
  {
    hide GoesOn;
    if more == [] {
      assert w + more == w;
    } else {
      var n := |more| - 1;
      CutStays(s, l, w, more[..n]);
      assert (w + more)[..|w + more| - 1] == w + more[..n];
    }
  }

  /** The page has no room for its first entry. */
  predicate TooLarge(s: Store, l: Limits, w: seq<Dirent>) {
    Cut(s, l, w) < |w| && Listed(s, w[..Cut(s, l, w)]) == []
  }

  function Window(dir: seq<Dirent>, offset: nat): seq<Dirent> {
    var es := Eligible(dir);
    if offset <= |es| then es[offset..] else []
  }

  /** The page from an offset, or none when its first entry is too large. */
  function PageAt(s: Store, l: Limits, dir: seq<Dirent>, offset: nat): Option<Page> {
    var w := Window(dir, offset);
    var c := Cut(s, l, w);
    if TooLarge(s, l, w) then None
    else Some(Page(Listed(s, w[..c]), c < |w|, Min(|Eligible(dir)|, 0xFFFF), if c < |w| then (offset + c) % 0x1_0000 else 0))
  }
}
