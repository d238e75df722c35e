/** Following next_offset through the pages of firmware/apps/korvo-ble/recordings.cc. */
module RecordingCursor {
  import opened Basics
  import opened RecordingPages

  lemma {:induction false} ListedSplit(s: Store, a: seq<Dirent>, b: seq<Dirent>)
    ensures Listed(s, a + b) == Listed(s, a) + Listed(s, b)
  {
    hide EntryOf;
    if b == [] {
      assert a + b == a;
    } else {
      var n := |b| - 1;
      ListedSplit(s, a, b[..n]);
      assert (a + b)[..|a + b| - 1] == a + b[..n];
    }
  }

  lemma ListedOne(s: Store, w: seq<Dirent>, i: nat)
    requires i < |w|
    ensures Listed(s, w[..i + 1]) == Listed(s, w[..i]) + if Listable(s, w[i]) then [EntryOf(s, w[i])] else []
  {
    assert w[..i + 1][..i] == w[..i];
  }

  lemma OneWire(e: Entry)
    ensures WireAll([e]) == Wire(e) && WireAll([]) == []
  {
    hide Wire;
  }

  /** What does not fit an empty page: the first entry that can be shown, by its own size. */
  lemma TooLargeEntry(s: Store, l: Limits, w: seq<Dirent>)
    requires TooLarge(s, l, w)
    ensures var c := Cut(s, l, w);
      && Listable(s, w[c]) && |Wire(EntryOf(s, w[c]))| > l.budget
      && Listed(s, w[..c]) == [] && Listed(s, w) == [EntryOf(s, w[c])] + Listed(s, w[c + 1..])
  {
    hide Wire, WireAll, EntryOf, Listable, Cut, Listed;
    var c := Cut(s, l, w);
    CutIsFirst(s, l, w);
    ListedOne(s, w, c);
    ListedSplit(s, w[..c + 1], w[c + 1..]);
    assert w[..c + 1] + w[c + 1..] == w;
    OneWire(EntryOf(s, w[c]));
    assert Listed(s, w[..c + 1]) == [EntryOf(s, w[c])];
  }

  lemma PassedFits(s: Store, l: Limits, w: seq<Dirent>, i: nat)
    requires i < Cut(s, l, w) && Listable(s, w[i])
    ensures |Wire(EntryOf(s, w[i]))| <= l.budget
  {
    hide Wire, EntryOf, Listable;
    CutIsFirst(s, l, w);
    assert GoesOn(s, l, w, i);
    ListedOne(s, w, i);
    WireAppend(Listed(s, w[..i]), EntryOf(s, w[i]));
  }

  /** Every page keeps within the response, however long the directory. */
  lemma PageFits(s: Store, l: Limits, dir: seq<Dirent>, offset: nat)
    requires PageAt(s, l, dir, offset).Some?
    ensures |Serialised(PageAt(s, l, dir, offset).value)| <= 7 + l.budget
    ensures l.most > 0 ==> |PageAt(s, l, dir, offset).value.entries| <= l.most
  {
    var w := Window(dir, offset);
    WithinLimits(s, l, w, Cut(s, l, w));
    hide PageAt;
  }

  lemma {:induction false} WithinLimits(s: Store, l: Limits, w: seq<Dirent>, i: nat)
    requires i <= Cut(s, l, w)
    ensures |WireAll(Listed(s, w[..i]))| <= l.budget && (l.most > 0 ==> |Listed(s, w[..i])| <= l.most)
  {
    hide EntryOf, Listable;
    if i > 0 {
      WithinLimits(s, l, w, i - 1);
      CutIsFirst(s, l, w);
      assert GoesOn(s, l, w, i - 1);
      ListedOne(s, w, i - 1);
      assert w[..i - 1 + 1] == w[..i];
      assert Listable(s, w[i - 1]) || Listed(s, w[..i]) == Listed(s, w[..i - 1]);
    }
  }

  /** The cursor stands right behind the entries passed exactly while that place fits its 16 bits. */
  lemma CursorExact(s: Store, l: Limits, dir: seq<Dirent>, offset: nat)
    requires PageAt(s, l, dir, offset).Some? && PageAt(s, l, dir, offset).value.hasMore
    ensures var reached := offset + Cut(s, l, Window(dir, offset));
      && offset < reached < |Eligible(dir)|
      && (PageAt(s, l, dir, offset).value.next == reached <==> reached <= 0xFFFF)
  {
    hide Cut, Listable;
  }

  // ---------------------------------------------------------------- the whole list

  datatype Collected = Collected(entries: seq<Entry>, failed: bool)

  /** What a caller collects that asks from an offset on until there is no more. It may ask with other limits
      every time: `ask` gives those of the request for each offset. */
  function Follow(s: Store, ask: nat -> Limits, dir: seq<Dirent>, offset: nat): Collected
    requires offset <= |Eligible(dir)| <= 0x1_0000
    decreases |Eligible(dir)| - offset
  {
    match PageAt(s, ask(offset), dir, offset)
    case None => Collected([], true)
    case Some(page) =>
      if !page.hasMore then Collected(page.entries, false)
      else
        CursorExact(s, ask(offset), dir, offset);
        var rest := Follow(s, ask, dir, page.next);
        Collected(page.entries + rest.entries, rest.failed)
  }

  lemma FollowUnfolds(s: Store, ask: nat -> Limits, dir: seq<Dirent>, offset: nat)
    requires offset <= |Eligible(dir)| <= 0x1_0000
    ensures var w := Eligible(dir)[offset..];
      var c := Cut(s, ask(offset), w);
      if TooLarge(s, ask(offset), w) then Follow(s, ask, dir, offset) == Collected([], true)
      else if c < |w| then
        && 0 < c && w == w[..c] + Eligible(dir)[offset + c..]
        && var rest := Follow(s, ask, dir, offset + c);
           Follow(s, ask, dir, offset) == Collected(Listed(s, w[..c]) + rest.entries, rest.failed)
      else Follow(s, ask, dir, offset) == Collected(Listed(s, w), false)
  {
    hide Eligible, Cut, Listed;
    var w := Eligible(dir)[offset..];
    var c := Cut(s, ask(offset), w);
    if !TooLarge(s, ask(offset), w) && c < |w| {
      CursorExact(s, ask(offset), dir, offset);
    } else {
      assert w[..|w|] == w;
    }
  }

  /** Everything, or everything before an entry that is too large for a page asked for. */
  ghost predicate AllOrUpToLarge(got: Collected, all: seq<Entry>, ask: nat -> Limits) {
    if got.failed then got.entries < all && exists from :: |Wire(all[|got.entries|])| > ask(from).budget
    else got.entries == all
  }

  lemma OnePageMore(first: seq<Entry>, rest: Collected, all: seq<Entry>, ask: nat -> Limits)
    requires AllOrUpToLarge(rest, all, ask)
    ensures AllOrUpToLarge(Collected(first + rest.entries, rest.failed), first + all, ask)
  {
    hide Wire;
    if rest.failed { assert (first + all)[|first + rest.entries|] == all[|rest.entries|]; }
  }

  /** A directory of at most 65536 counted entries that stays as it is, whatever the limits of each request:
      the cursor runs through, and what was collected is every entry that can be shown, once and in order; or
      it stops at an entry that is too large for the page then asked for, with everything before it. */
  lemma {:induction false} CollectsOnce(s: Store, ask: nat -> Limits, dir: seq<Dirent>, offset: nat)
    requires offset <= |Eligible(dir)| <= 0x1_0000
    ensures AllOrUpToLarge(Follow(s, ask, dir, offset), Listed(s, Eligible(dir)[offset..]), ask)
    decreases |Eligible(dir)| - offset
  {
    hide Follow, Cut, Listed, Eligible;
    var w, l := Eligible(dir)[offset..], ask(offset);
    var c := Cut(s, l, w);
    FollowUnfolds(s, ask, dir, offset);
    if TooLarge(s, l, w) {
      TooLargeEntry(s, l, w);
      assert |Wire(Listed(s, w)[0])| > ask(offset).budget;
    } else if c < |w| {
      hide AllOrUpToLarge;
      CollectsOnce(s, ask, dir, offset + c);
      ListedSplit(s, w[..c], Eligible(dir)[offset + c..]);
      OnePageMore(Listed(s, w[..c]), Follow(s, ask, dir, offset + c), Listed(s, Eligible(dir)[offset + c..]), ask);
    }
  }

  /** With one budget for all requests the listing fails if and only if some entry that can be shown is larger
      than that budget. */
  lemma {:induction false} FailsOnLargeEntry(s: Store, ask: nat -> Limits, dir: seq<Dirent>, offset: nat, budget: nat)
    requires offset <= |Eligible(dir)| <= 0x1_0000 && forall o :: ask(o).budget == budget
    ensures Follow(s, ask, dir, offset).failed <==>
      exists i :: offset <= i < |Eligible(dir)| && Listable(s, Eligible(dir)[i]) && |Wire(EntryOf(s, Eligible(dir)[i]))| > budget
    decreases |Eligible(dir)| - offset
  {
    hide Wire, EntryOf, Listable, Cut, Listed, Eligible, Follow;
    var es, l := Eligible(dir), ask(offset);
    var w := es[offset..];
    var c := Cut(s, l, w);
    FollowUnfolds(s, ask, dir, offset);
    if TooLarge(s, l, w) {
      TooLargeEntry(s, l, w);
      assert Listable(s, es[offset + c]);
    } else {
      if c < |w| { FailsOnLargeEntry(s, ask, dir, offset + c, budget); }
      forall i | offset <= i < offset + c && Listable(s, es[i]) ensures |Wire(EntryOf(s, es[i]))| <= budget {
        PassedFits(s, l, w, i - offset);
      }
    }
  }

  // ---------------------------------------------------------------- longer directories

  /** Every counted entry can be shown and fits a page. */
  predicate AllFit(s: Store, dir: seq<Dirent>, budget: nat) {
    forall e :: e in Eligible(dir) ==> Listable(s, e) && |Wire(EntryOf(s, e))| <= budget
  }

  /** The offset of the n-th request of a caller that always goes on at the cursor. */
  function OffsetOf(s: Store, ask: nat -> Limits, dir: seq<Dirent>, n: nat): nat {
    if n == 0 then 0 else
      var offset := OffsetOf(s, ask, dir, n - 1);
      match PageAt(s, ask(offset), dir, offset)
      case None => offset
      case Some(page) => page.next
  }

  lemma {:induction false} AllListed(s: Store, w: seq<Dirent>)
    requires forall e :: e in w ==> Listable(s, e)
    ensures |Listed(s, w)| == |w|
  {
    hide Listable;
    if w != [] { AllListed(s, w[..|w| - 1]); }
  }

  lemma FirstGoesOn(s: Store, l: Limits, w: seq<Dirent>)
    requires l.most > 0 && w != [] && Listable(s, w[0]) && |Wire(EntryOf(s, w[0]))| <= l.budget
    ensures GoesOn(s, l, w, 0)
  {
    hide Listable, EntryOf, Wire, WireAll;
    ListedOne(s, w, 0);
    OneWire(EntryOf(s, w[0]));
    assert Listed(s, w[..1]) == [EntryOf(s, w[0])];
  }

  lemma StopsAtMost(s: Store, l: Limits, w: seq<Dirent>)
    requires 0 < l.most < |w| && forall e :: e in w ==> Listable(s, e)
    ensures !GoesOn(s, l, w, l.most)
  {
    hide Listable;
    AllListed(s, w[..l.most]);
  }

  /** Where everything fits, a page passes at least one entry and no more than it was asked for. */
  lemma PageOfFitting(s: Store, l: Limits, dir: seq<Dirent>, offset: nat)
    requires l.most > 0 && AllFit(s, dir, l.budget) && offset < |Eligible(dir)|
    ensures var c := Cut(s, l, Window(dir, offset));
      && 1 <= c <= l.most && PageAt(s, l, dir, offset).Some? && offset + c <= |Eligible(dir)|
      && PageAt(s, l, dir, offset).value.hasMore == (offset + c < |Eligible(dir)|)
      && (offset + c < |Eligible(dir)| ==> PageAt(s, l, dir, offset).value.next == (offset + c) % 0x1_0000)
  {
    hide Listable, EntryOf, Wire, Eligible, Cut, Listed, GoesOn;
    var w := Window(dir, offset);
    assert forall e :: e in w ==> e in Eligible(dir);
    assert w[0] in Eligible(dir);
    CutIsFirst(s, l, w);
    FirstGoesOn(s, l, w);
    if l.most < |w| { StopsAtMost(s, l, w); }
    AllListed(s, w[..Cut(s, l, w)]);
  }

  lemma NextOffset(s: Store, ask: nat -> Limits, dir: seq<Dirent>, n: nat)
    requires var o := OffsetOf(s, ask, dir, n); PageAt(s, ask(o), dir, o).Some?
    ensures OffsetOf(s, ask, dir, n + 1) == var o := OffsetOf(s, ask, dir, n); PageAt(s, ask(o), dir, o).value.next
  {
    hide PageAt;
  }

  /** No page from an offset of 16 bits reaches the end of a longer directory: the list never ends, and what lies
      more than a page behind the last offset is never shown. */
  lemma {:induction false} NeverEnds(s: Store, ask: nat -> Limits, dir: seq<Dirent>, n: nat)
    requires forall o :: ask(o).most > 0 && |Eligible(dir)| > 0xFFFF + ask(o).most && AllFit(s, dir, ask(o).budget)
    ensures var o := OffsetOf(s, ask, dir, n);
      && o <= 0xFFFF && PageAt(s, ask(o), dir, o).Some? && PageAt(s, ask(o), dir, o).value.hasMore
      && o + Cut(s, ask(o), Window(dir, o)) <= 0xFFFF + ask(o).most
  {
    hide Eligible, Cut, AllFit, PageAt, OffsetOf, Window;
    var o := OffsetOf(s, ask, dir, n);
    if n > 0 {
      var before := OffsetOf(s, ask, dir, n - 1);
      NeverEnds(s, ask, dir, n - 1);
      NextOffset(s, ask, dir, n - 1);
      PageOfFitting(s, ask(before), dir, before);
    } else {
      FirstOffset(s, ask, dir);
    }
    assert ask(o).most > 0;
    PageOfFitting(s, ask(o), dir, o);
  }

  function OneEach(budget: nat): nat -> Limits { _ => Limits(budget, 1) }

  /** Asked for one entry at a time, the n-th request asks from n, and from the beginning again after 65536. */
  lemma {:induction false} OneAtATime(s: Store, budget: nat, dir: seq<Dirent>, n: nat)
    requires AllFit(s, dir, budget) && (|Eligible(dir)| > 0x1_0000 || n < |Eligible(dir)|)
    ensures OffsetOf(s, OneEach(budget), dir, n) == n % 0x1_0000
    ensures var page := PageAt(s, Limits(budget, 1), dir, n % 0x1_0000);
      page.Some? && (page.value.hasMore <==> n % 0x1_0000 + 1 < |Eligible(dir)|)
  {
    hide Eligible, Cut, AllFit, PageAt, OffsetOf, Window;
    if n > 0 {
      OneAtATime(s, budget, dir, n - 1);
      PageOfFitting(s, Limits(budget, 1), dir, (n - 1) % 0x1_0000);
      NextOffset(s, OneEach(budget), dir, n - 1);
    } else {
      FirstOffset(s, OneEach(budget), dir);
    }
    PageOfFitting(s, Limits(budget, 1), dir, n % 0x1_0000);
  }

  lemma FirstOffset(s: Store, ask: nat -> Limits, dir: seq<Dirent>)
    ensures OffsetOf(s, ask, dir, 0) == 0
  {
  }

  /** So one at a time the list comes to its end if and only if the directory has at most 65536 counted entries. */
  lemma EndsExactly(s: Store, budget: nat, dir: seq<Dirent>)
    requires AllFit(s, dir, budget) && Eligible(dir) != []
    ensures (exists n :: !HasMoreAt(s, budget, dir, n)) <==> |Eligible(dir)| <= 0x1_0000
  {
    hide Eligible, Cut, AllFit, PageAt, OffsetOf, Window;
    var total := |Eligible(dir)|;
    if total <= 0x1_0000 {
      OneAtATime(s, budget, dir, total - 1);
      assert !HasMoreAt(s, budget, dir, total - 1);
    } else {
      forall n ensures HasMoreAt(s, budget, dir, n) { OneAtATime(s, budget, dir, n); }
    }
  }

  /** Whether the n-th page of such a caller says that there is more. */
  predicate HasMoreAt(s: Store, budget: nat, dir: seq<Dirent>, n: nat) {
    var page := PageAt(s, Limits(budget, 1), dir, OffsetOf(s, OneEach(budget), dir, n));
    page.Some? && page.value.hasMore
  }
}
