/** The request handler of firmware/apps/korvo-ble/recordings.cc: one pass over a directory, one page into the
    response buffer. */
module Recordings {
  import opened Basics
  import opened RecordingCursor
  import opened RecordingPages
  import WavRecorder
  import WavRoundTrip

  const COUNT_BYTES := 2
  const TAIL_BYTES := 5

  datatype Config = Config(dir: Option<seq<Byte>>, messagesDir: Option<seq<Byte>>, rate: nat, coding: WavRecorder.Coding)

  datatype Request = Request(offset: nat, most: nat, scope: nat)

  datatype Reply = Answer(length: nat) | Error(code: nat)

  /** Nothing, three bytes or four; a fourth byte says which directory. */
  function RequestOf(payload: seq<Byte>): Option<Request> {
    if payload == [] then Some(Request(0, 0, 0))
    else if |payload| == 3 then Some(Request(U16(payload), payload[2], 0))
    else if |payload| == 4 && payload[3] <= 1 then Some(Request(U16(payload), payload[2], payload[3]))
    else None
  }

  /** A request of four bytes reads back as it was written, unless its scope is unknown; the older ones ask at the top. */
  lemma RequestReadsBack(offset: nat, most: Byte, scope: Byte)
    requires offset <= 0xFFFF
    ensures RequestOf(Le16(offset) + [most, scope]) == if scope <= 1 then Some(Request(offset, most, scope)) else None
    ensures RequestOf(Le16(offset) + [most]) == Some(Request(offset, most, 0))
    ensures RequestOf([]) == Some(Request(0, 0, 0))
  {
    hide Le16, U16;
    Word16(offset);
    FirstWord(Le16(offset) + [most, scope]);
    FirstWord(Le16(offset) + [most]);
    assert (Le16(offset) + [most, scope])[..2] == Le16(offset) && (Le16(offset) + [most])[..2] == Le16(offset);
  }

  lemma PrefixStep(dir: seq<Dirent>, k: nat, offset: nat)
    requires k < |dir|
    ensures Eligible(dir[..k + 1]) == Eligible(dir[..k]) + if Counted(dir[k]) then [dir[k]] else []
    ensures Window(dir[..k + 1], offset) == Window(dir[..k], offset)
      + if Counted(dir[k]) && |Eligible(dir[..k])| >= offset then [dir[k]] else []
  {
    hide Counted;
    assert dir[..k + 1][..k] == dir[..k];
  }

  lemma {:induction false} WindowGrows(dir: seq<Dirent>, k: nat, offset: nat)
    requires k <= |dir|
    ensures Window(dir[..k], offset) <= Window(dir, offset)
    decreases |dir| - k
  {
    hide Window, Eligible, Counted;
    if k < |dir| {
      PrefixStep(dir, k, offset);
      WindowGrows(dir, k + 1, offset);
    } else {
      assert dir[..k] == dir;
    }
  }

  /** One more window entry for a page. */
  lemma CutStep(s: Store, l: Limits, w: seq<Dirent>, e: Dirent)
    ensures var c := Cut(s, l, w);
      && (c < |w| ==> Cut(s, l, w + [e]) == c)
      && (c == |w| ==> Cut(s, l, w + [e]) == if GoesOn(s, l, w + [e], c) then c + 1 else c)
      && (w + [e])[..c] == w[..c]
      && Listed(s, w + [e]) == Listed(s, w) + if Listable(s, e) then [EntryOf(s, e)] else []
  {
    hide GoesOn, Listable, EntryOf;
    assert (w + [e])[..|w|] == w;
  }

  /** The handler's variables against a window: entries passed, entries shown, and their bytes. */
  ghost predicate At(s: Store, l: Limits, w: seq<Dirent>, consumed: nat, count: nat, wire: seq<Byte>) {
    && consumed == Cut(s, l, w) && !TooLarge(s, l, w)
    && count == |Listed(s, w[..consumed])| && wire == WireAll(Listed(s, w[..consumed]))
    && |wire| <= l.budget
  }

  lemma AtStart(s: Store, l: Limits)
    ensures At(s, l, [], 0, 0, [])
  {
  }

  /** A page that is full already, or has no place for the next entry, stays as it is. */
  lemma AtFull(s: Store, l: Limits, w: seq<Dirent>, consumed: nat, count: nat, wire: seq<Byte>, e: Dirent)
    requires At(s, l, w, consumed, count, wire)
    requires consumed < |w| || (l.most > 0 && count >= l.most) || (Listable(s, e) && |wire| + |RelName(s, e)| + 13 > l.budget)
    ensures count > 0 ==> At(s, l, w + [e], consumed, count, wire) && consumed < |w + [e]|
    ensures count == 0 ==> consumed == |w| && TooLarge(s, l, w + [e])
  {
    GoesOnHere(s, l, w, e);
    CutStep(s, l, w, e);
    hide Listable, Listed, Cut, WireAll, GoesOn;
    if consumed == |w| { assert w[..consumed] == w; }
    assert (w + [e])[..consumed] == w[..consumed];
  }

  lemma AtNext(s: Store, l: Limits, w: seq<Dirent>, consumed: nat, count: nat, wire: seq<Byte>, e: Dirent)
    requires At(s, l, w, consumed, count, wire)
    requires consumed == |w| && (l.most > 0 ==> count < l.most) && (Listable(s, e) ==> |wire| + |RelName(s, e)| + 13 <= l.budget)
    ensures if Listable(s, e) then At(s, l, w + [e], consumed + 1, count + 1, wire + Wire(EntryOf(s, e)))
      else At(s, l, w + [e], consumed + 1, count, wire)
  {
    GoesOnHere(s, l, w, e);
    CutStep(s, l, w, e);
    if Listable(s, e) { WireAppend(Listed(s, w), EntryOf(s, e)); } else { assert Listed(s, w + [e]) == Listed(s, w); }
    hide Listable, Listed, Cut, WireAll, GoesOn;
    assert w[..consumed] == w && (w + [e])[..consumed + 1] == w + [e];
  }

  /** Whether a page that has passed the whole window goes on past one more entry, in the handler's terms. */
  lemma GoesOnHere(s: Store, l: Limits, w: seq<Dirent>, e: Dirent)
    ensures var listed := Listed(s, w);
      GoesOn(s, l, w + [e], |w|) <==>
        && (l.most > 0 ==> |listed| < l.most)
        && (Listable(s, e) ==> |WireAll(listed)| + |RelName(s, e)| + 13 <= l.budget)
  {
    hide Cut, Listed, Listable;
    assert (w + [e])[..|w|] == w && (w + [e])[..|w| + 1] == w + [e];
    CutStep(s, l, w, e);
    if Listable(s, e) { WireAppend(Listed(s, w), EntryOf(s, e)); }
  }

  lemma TooLargeStays(s: Store, l: Limits, w: seq<Dirent>, all: seq<Dirent>)
    requires TooLarge(s, l, w) && w <= all
    ensures TooLarge(s, l, all)
  {
    hide Cut, Listed;
    CutStays(s, l, w, all[|w|..]);
    assert w + all[|w|..] == all;
    assert all[..Cut(s, l, w)] == w[..Cut(s, l, w)];
  }

  /** An entry count fits its field. */
  lemma {:induction false} ManyNeedRoom(s: Store, w: seq<Dirent>)
    requires forall e :: e in w ==> Counted(e)
    ensures |WireAll(Listed(s, w))| >= 17 * |Listed(s, w)|
  {
    hide Wire, Listable;
    if w != [] {
      var n := |w| - 1;
      ManyNeedRoom(s, w[..n]);
      assert Counted(w[n]);
      if Listable(s, w[n]) {
        WireAppend(Listed(s, w[..n]), EntryOf(s, w[n]));
      } else {
        assert Listed(s, w) == Listed(s, w[..n]);
      }
    }
  }

  lemma EmptyWindow(dir: seq<Dirent>, offset: nat)
    ensures Window(dir[..0], offset) == [] && Eligible(dir[..0]) == []
  {
  }

  lemma NoPage(s: Store, l: Limits, dir: seq<Dirent>, k: nat, offset: nat)
    requires k < |dir| && TooLarge(s, l, Window(dir[..k + 1], offset))
    ensures PageAt(s, l, dir, offset) == None
  {
    hide TooLarge, Window;
    WindowGrows(dir, k + 1, offset);
    TooLargeStays(s, l, Window(dir[..k + 1], offset), Window(dir, offset));
  }

  lemma CountFits(s: Store, l: Limits, dir: seq<Dirent>, offset: nat, consumed: nat, count: nat, wire: seq<Byte>)
    requires At(s, l, Window(dir, offset), consumed, count, wire) && l.budget < 0x10_0000
    ensures count < 0xFFFF
  {
    hide Listed, WireAll;
    var w := Window(dir, offset);
    forall e | e in w[..consumed] ensures Counted(e) { assert e in Eligible(dir); }
    ManyNeedRoom(s, w[..consumed]);
  }

  lemma {:induction false} ListedRepresentable(s: Store, w: seq<Dirent>)
    ensures forall e :: e in Listed(s, w) ==> Representable(e)
  {
    if w != [] { ListedRepresentable(s, w[..|w| - 1]); }
  }

  /** The answer can be read back, so that parsing its bytes gives the page, if and only if its entries can be
      counted in 16 bits; up to 1 MiB they always can. */
  lemma AnswerReadsBack(s: Store, l: Limits, dir: seq<Dirent>, offset: nat)
    requires PageAt(s, l, dir, offset).Some?
    ensures var page := PageAt(s, l, dir, offset).value;
      && (ParsePage(Serialised(page)) == Some(page) <==> |page.entries| < 0x1_0000)
      && (l.budget < 0x10_0000 ==> |page.entries| < 0x1_0000)
  {
    hide Listed, WireAll, Cut, Serialised, ParsePage, Eligible;
    var w, page := Window(dir, offset), PageAt(s, l, dir, offset).value;
    var shown := w[..Cut(s, l, w)];
    ListedRepresentable(s, shown);
    forall e | e in shown ensures Counted(e) { assert e in Eligible(dir); }
    ManyNeedRoom(s, shown);
    WithinLimits(s, l, w, |shown|);
    ParsedCount(page);
    if |page.entries| < 0x1_0000 { PageParses(page); }
  }

  /** Where an entry's fields lie on the wire. */
  lemma WireFields(e: Entry)
    requires Representable(e)
    ensures var bytes, k := Wire(e), 1 + |e.name|;
      && |bytes| == k + 12 && bytes[0] as int == |e.name| && bytes[1..k] == e.name
      && U32(bytes[k..k + 4]) == e.size && U32(bytes[k + 4..k + 8]) == e.mtime && U32(bytes[k + 8..k + 12]) == e.duration
  {
    hide Le32, U32;
    Word32(e.size);
    Word32(e.mtime);
    Word32(e.duration);
    var bytes, k := Wire(e), 1 + |e.name|;
    assert bytes[k..k + 4] == Le32(e.size) && bytes[k + 4..k + 8] == Le32(e.mtime) && bytes[k + 8..k + 12] == Le32(e.duration);
  }

  /** A recording that was stopped is listed with the size of its file, the time of its last change, and the
      length of its samples; an ADPCM one with those that fill its last block. */
  lemma RecordingIsListed(s: Store, name: seq<Byte>, mtime: nat, raw: seq<Byte>, samples: seq<Sample>)
    requires s.coding == WavRecorder.Pcm16 ==> |raw| == 2 * |samples|
    requires var size := |WavRecorder.Recording(s.coding, s.rate, raw, samples)|;
      size < WORD && mtime < WORD && Listable(s, Dirent(name, Some(Stat(size, mtime))))
    ensures var size := |WavRecorder.Recording(s.coding, s.rate, raw, samples)|;
      var bytes := Wire(EntryOf(s, Dirent(name, Some(Stat(size, mtime)))));
      var shown := if s.messages then MESSAGES + name else name;
      var k := 1 + |shown|;
      var count := if s.coding == WavRecorder.Pcm16 then |samples| else 505 * ((|samples| + 504) / 505);
      && |bytes| == k + 12 && bytes[0] as int == |shown| && bytes[1..k] == shown
      && U32(bytes[k..k + 4]) == size && U32(bytes[k + 4..k + 8]) == mtime
      && U32(bytes[k + 8..k + 12]) == WavRecorder.DurationMs(count, s.rate)
  {
    hide Wire, U32, WavRecorder.DurationMs, WavRecorder.DurationMsFromSize, WavRecorder.Recording;
    var size := |WavRecorder.Recording(s.coding, s.rate, raw, samples)|;
    var e := EntryOf(s, Dirent(name, Some(Stat(size, mtime))));
    WavRoundTrip.ListedDuration(s.coding, s.rate, raw, samples);
    DurationFits(size, s.rate, s.coding);
    WireFields(e);
  }

  lemma DurationFits(size: nat, rate: nat, coding: WavRecorder.Coding)
    ensures WavRecorder.DurationMsFromSize(size, rate, coding) < WORD
  {
  }

  /** What the variables amount to when the directory has been read. */
  lemma PageIs(s: Store, l: Limits, dir: seq<Dirent>, offset: nat, consumed: nat, count: nat, wire: seq<Byte>)
    requires At(s, l, Window(dir, offset), consumed, count, wire)
    ensures PageAt(s, l, dir, offset).Some?
    ensures var page := PageAt(s, l, dir, offset).value;
      var more := consumed < |Window(dir, offset)|;
      && page.hasMore == more && page.total == Min(|Eligible(dir)|, 0xFFFF)
      && page.next == (if more then (offset + consumed) % 0x1_0000 else 0)
      && Serialised(page) == Le16(count) + wire + [if more then 1 else 0] + Le16(page.total) + Le16(page.next)
  {
    hide Cut, Listed, WireAll, Le16;
  }

  class Listing {
    const config: Config

    constructor (c: Config)
      ensures config == c
    {
      config := c;
    }

    function StoreOf(path: seq<Byte>, messages: bool): Store { Store(path, messages, config.rate, config.coding) }

    /** What the handler owes for a request and the two directories as they can be read, none where opendir
        fails. */
    ghost function Owed(payload: Option<seq<Byte>>, top: Option<seq<Dirent>>, messages: Option<seq<Dirent>>, cap: nat): (r: (nat, Option<Page>))
      requires cap >= COUNT_BYTES + TAIL_BYTES
    {
      if payload == None || RequestOf(payload.value) == None then (1004, None)
      else
        var request := RequestOf(payload.value).value;
        var path := if request.scope == 1 then config.messagesDir else config.dir;
        var dir := if request.scope == 1 then messages else top;
        if path == None || dir == None then (1003, None)
        else (1005, PageAt(StoreOf(path.value, request.scope == 1), Limits(cap - COUNT_BYTES - TAIL_BYTES, request.most),
                           dir.value, request.offset))
    }

    /** `payload` is none for a null pointer with a length. In a response buffer of at most 1 MiB, the device's have
        128 bytes, an entry count fits its 16 bits. */
    method HandleList(payload: Option<seq<Byte>>, top: Option<seq<Dirent>>, messages: Option<seq<Dirent>>, resp: array?<Byte>)
      returns (reply: Reply)
      modifies resp
      ensures resp == null || resp.Length < 7 ==> reply == Error(1005)
      ensures resp != null && resp.Length >= 7 ==>
        match Owed(payload, top, messages, resp.Length)
        case (code, None) => code != 1005 || CountsInRange(resp) ==> reply == Error(code)
        case (_, Some(page)) =>
          CountsInRange(resp) ==>
          && reply == Answer(|Serialised(page)|) && |Serialised(page)| <= resp.Length
          && resp[..|Serialised(page)|] == Serialised(page)
      ensures reply.Error? && resp != null && (reply.code != 1005 || CountsInRange(resp)) ==> resp[..] == old(resp[..])
    {
      hide PageAt, Serialised, U16;
      if resp == null || resp.Length < COUNT_BYTES + TAIL_BYTES { return Error(1005); }
      if payload == None { return Error(1004); }
      var offset, most, scope := 0, 0, 0;
      var bytes := payload.value;
      if |bytes| == 3 || |bytes| == 4 {
        offset := U16(bytes);
        most := bytes[2];
        if |bytes| == 4 { scope := bytes[3]; }
      } else if |bytes| != 0 {
        return Error(1004);
      }
      if scope > 1 { return Error(1004); }
      var path := if scope == 1 then config.messagesDir else config.dir;
      if path == None { return Error(1003); }
      var dir := if scope == 1 then messages else top;
      if dir == None { return Error(1003); }
      reply := List(StoreOf(path.value, scope == 1), dir.value, offset, most, resp);
    }

    /** Small enough for a 16-bit count of entries, each of which takes 17 bytes at least. */
    predicate CountsInRange(resp: array<Byte>) { resp.Length <= 0x10_0000 }

    /** One pass over the directory. */
    method List(s: Store, dir: seq<Dirent>, offset: nat, most: nat, resp: array<Byte>) returns (reply: Reply)
      requires 7 <= resp.Length && offset <= 0xFFFF
      modifies resp
      ensures reply == Error(1005) || reply.Answer?
      ensures CountsInRange(resp) ==> match PageAt(s, Limits(resp.Length - 7, most), dir, offset)
        case None => reply == Error(1005) && resp[..] == old(resp[..])
        case Some(page) =>
          && reply == Answer(|Serialised(page)|) && |Serialised(page)| <= resp.Length
          && resp[..|Serialised(page)|] == Serialised(page)
    {
      hide At, TooLarge, Window, Eligible, PageAt, Serialised;
      ghost var small := CountsInRange(resp);
      var budget := resp.Length - COUNT_BYTES - TAIL_BYTES;
      ghost var l := Limits(budget, most);
      var used: nat, entryCount: nat, consumed: nat, total: nat, index: nat := 0, 0, 0, 0, 0;
      var hasMore, pageFull := false, false;
      ghost var w: seq<Dirent> := [];
      AtStart(s, l);
      EmptyWindow(dir, offset);
      assert resp[2..2 + used] == [];
      for k := 0 to |dir|
        invariant w == Window(dir[..k], offset) && total == index == |Eligible(dir[..k])|
        invariant used <= budget && hasMore == pageFull
        invariant small ==> At(s, l, w, consumed, entryCount, resp[2..2 + used])
        invariant small ==> pageFull == (consumed < |w|) && consumed <= |w| && (pageFull ==> entryCount > 0)
        invariant small && entryCount == 0 ==> resp[..] == old(resp[..])
      {
        var e := dir[k];
        PrefixStep(dir, k, offset);
        if |e.name| == 0 || e.name[0] == 46 { continue; }
        if !EndsWithWav(e.name) { continue; }
        total := total + 1;
        var thisIndex := index;
        index := index + 1;
        if thisIndex < offset { continue; }
        ghost var before := w;
        w := w + [e];
        if pageFull || (most > 0 && entryCount >= most) {
          if small { AtFull(s, l, before, consumed, entryCount, resp[2..2 + used], e); }
          hasMore, pageFull := true, true;
          continue;
        }
        var rel := RelName(s, e);
        if |rel| > 255 || |s.path| + 1 + |e.name| >= 384 || e.stat == None {
          if small { AtNext(s, l, before, consumed, entryCount, resp[2..2 + used], e); }
          consumed := consumed + 1;
          continue;
        }
        var need := 1 + |rel| + 4 + 4 + 4;
        if used + need > budget {
          if small { AtFull(s, l, before, consumed, entryCount, resp[2..2 + used], e); }
          if entryCount == 0 {
            if small { NoPage(s, l, dir, k, offset); }
            return Error(1005);
          }
          hasMore, pageFull := true, true;
          continue;
        }
        if small {
          AtNext(s, l, before, consumed, entryCount, resp[2..2 + used], e);
          CountFits(s, l, dir[..k], offset, consumed, entryCount, resp[2..2 + used]);
        }
        used := PutEntry(resp, used, EntryOf(s, e));
        entryCount := (entryCount + 1) % 0x1_0000;
        consumed := consumed + 1;
      }
      assert dir[..|dir|] == dir;
      if small { PageIs(s, l, dir, offset, consumed, entryCount, resp[2..2 + used]); }
      reply := Finish(resp, used, entryCount, hasMore, total, if hasMore then (offset + consumed) % 0x1_0000 else 0);
    }

    /** Put16, Put32 and memcpy. */
    method Put(resp: array<Byte>, at: nat, field: seq<Byte>) returns (after: nat)
      requires at + |field| <= resp.Length
      modifies resp
      ensures after == at + |field| && resp[..after] == old(resp[..at]) + field && resp[after..] == old(resp[after..])
    {
      forall i | 0 <= i < |field| { resp[at + i] := field[i]; }
      after := at + |field|;
    }

    method PutEntry(resp: array<Byte>, used: nat, e: Entry) returns (after: nat)
      requires 2 + used + |e.name| + 13 <= resp.Length && |e.name| <= 255
      modifies resp
      ensures after == used + |e.name| + 13 && resp[2..2 + after] == old(resp[2..2 + used]) + Wire(e)
    {
      hide Le32;
      var n := Put(resp, 2 + used, [|e.name|]);
      n := Put(resp, n, e.name);
      n := Put(resp, n, Le32(e.size));
      n := Put(resp, n, Le32(e.mtime));
      n := Put(resp, n, Le32(e.duration));
      after := n - 2;
      assert resp[..n] == old(resp[..2 + used]) + Wire(e);
      assert resp[2..n] == resp[..n][2..] && old(resp[2..2 + used]) == old(resp[..2 + used])[2..];
    }

    method Finish(resp: array<Byte>, used: nat, count: nat, hasMore: bool, total: nat, next: nat) returns (reply: Reply)
      requires used + 7 <= resp.Length
      modifies resp
      ensures reply == Answer(used + 7)
      ensures resp[..used + 7] == Le16(count) + old(resp[2..2 + used])
        + [if hasMore then 1 else 0] + Le16(Min(total, 0xFFFF)) + Le16(next)
    {
      hide Le16;
      var n := Put(resp, 0, Le16(count));
      assert resp[2..2 + used] == resp[2..][..used] == old(resp[2..])[..used] == old(resp[2..2 + used]);
      assert resp[..2 + used] == resp[..2] + resp[2..2 + used];
      n := Put(resp, 2 + used, [if hasMore then 1 else 0]);
      n := Put(resp, n, Le16(Min(total, 0xFFFF)));
      n := Put(resp, n, Le16(next));
      return Answer(COUNT_BYTES + used + TAIL_BYTES);
    }
  }
}
