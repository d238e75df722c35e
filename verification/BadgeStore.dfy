/** The badge fields of firmware/apps/work-badge/badge_data.cc: Set changes memory and notifies a writer task,
    which saves to flash that may fail. */
module BadgeStore {
  import opened Basics

  const MAX_FIELD := 47
  const FIELD_COUNT := 5

  type Field = f: int | 0 <= f < FIELD_COUNT

  // ---------------------------------------------------------------- text

  predicate IsContinuation(b: Byte) { 0x80 <= b < 0xC0 }

  /** The longest cut of at most `len` bytes that does not stand before a continuation byte. */
  ghost predicate IsCut(s: seq<Byte>, len: nat, n: nat)
    requires len < |s|
  {
    && n <= len && (n == 0 || !IsContinuation(s[n]))
    && forall k :: n < k <= len ==> IsContinuation(s[k])
  }

  method Utf8SafeLen(s: seq<Byte>, len: nat) returns (n: nat)
    requires len < |s|
    ensures IsCut(s, len, n)
  {
    if len == 0 { return 0; }
    n := len;
    while n > 0 && IsContinuation(s[n])
      invariant n <= len && forall k :: n < k <= len ==> IsContinuation(s[k])
    {
      n := n - 1;
    }
  }

  /** The shape of one character in UTF-8 (section 3 of RFC 3629): a first byte, then continuation bytes. */
  predicate IsCharacter(c: seq<Byte>) {
    c != [] && !IsContinuation(c[0]) && forall i :: 1 <= i < |c| ==> IsContinuation(c[i])
  }

  function Joined(chars: seq<seq<Byte>>): seq<Byte> {
    if chars == [] then [] else chars[0] + Joined(chars[1..])
  }

  lemma FirstByte(chars: seq<seq<Byte>>)
    requires forall c :: c in chars ==> IsCharacter(c)
    ensures Joined(chars) != [] ==> !IsContinuation(Joined(chars)[0])
  {
    if chars != [] { assert IsCharacter(chars[0]); }
  }

  /** A cut before the end of the first character is before it. */
  lemma CutInFirst(c: seq<Byte>, rest: seq<seq<Byte>>, len: nat, n: nat)
    requires IsCharacter(c) && forall r :: r in rest ==> IsCharacter(r)
    requires n < |c| && len < |c + Joined(rest)| && IsCut(c + Joined(rest), len, n)
    ensures n == 0 && len < |c|
  {
    hide Joined;
    if |c| <= len {
      SecondBegins(c, rest);
      assert false;
    }
  }

  lemma SecondBegins(c: seq<Byte>, rest: seq<seq<Byte>>)
    requires forall r :: r in rest ==> IsCharacter(r)
    requires Joined(rest) != []
    ensures !IsContinuation((c + Joined(rest))[|c|])
  {
    FirstByte(rest);
  }

  /** Where the cut of the whole is behind the first character, it is a cut of the rest. */
  lemma CutInRest(c: seq<Byte>, rest: seq<Byte>, len: nat, n: nat)
    requires |c| <= n <= len < |c + rest| && IsCut(c + rest, len, n)
    ensures IsCut(rest, len - |c|, n - |c|)
    ensures (c + rest)[..n] == c + rest[..n - |c|]
  {
    forall i | n - |c| < i <= len - |c| ensures IsContinuation(rest[i]) { assert (c + rest)[|c| + i] == rest[i]; }
  }

  /** On UTF-8 text that cut keeps whole characters, as many as fit. */
  lemma {:induction false} CutKeepsCharacters(chars: seq<seq<Byte>>, len: nat, n: nat) returns (k: nat)
    requires forall c :: c in chars ==> IsCharacter(c)
    requires len < |Joined(chars)| && IsCut(Joined(chars), len, n)
    ensures k < |chars| && Joined(chars[..k]) == Joined(chars)[..n] && |Joined(chars[..k + 1])| > len
  {
    hide IsCharacter, IsContinuation;
    var c, rest := chars[0], chars[1..];
    if n < |c| {
      CutInFirst(c, rest, len, n);
      assert chars[..1][1..] == [];
      k := 0;
    } else {
      CutInRest(c, Joined(rest), len, n);
      var m := CutKeepsCharacters(rest, len - |c|, n - |c|);
      k := m + 1;
      assert chars[..k][1..] == rest[..m] && chars[..k + 1][1..] == rest[..m + 1];
    }
  }

  /** A field as C reads it: up to the first zero byte. */
  function CString(bytes: seq<Byte>): seq<Byte> {
    if bytes == [] || bytes[0] == 0 then [] else [bytes[0]] + CString(bytes[1..])
  }

  /** The text Set stores: cut to 47 bytes, then as C reads it. A null pointer comes as the empty text. */
  method Stored(utf8: seq<Byte>) returns (text: seq<Byte>)
    ensures |text| <= MAX_FIELD && text <= CString(utf8)
    ensures if |utf8| <= MAX_FIELD then text == CString(utf8)
      else exists n: nat :: n <= MAX_FIELD && IsCut(utf8, MAX_FIELD, n) && text == CString(utf8[..n])
  {
    var len: nat := |utf8|;
    if len > MAX_FIELD { len := Utf8SafeLen(utf8, MAX_FIELD); }
    CStringOfPrefix(utf8, len);
    assert utf8[..|utf8|] == utf8;
    return CString(utf8[..len]);
  }

  lemma {:induction false} CStringOfPrefix(bytes: seq<Byte>, n: nat)
    requires n <= |bytes|
    ensures CString(bytes[..n]) <= CString(bytes) && |CString(bytes[..n])| <= n
  {
    if n > 0 && bytes[0] != 0 {
      assert bytes[..n][1..] == bytes[1..][..n - 1];
      CStringOfPrefix(bytes[1..], n - 1);
    }
  }

  // ---------------------------------------------------------------- the store

  /** One text a field. */
  type Texts = s: seq<seq<Byte>> | |s| == FIELD_COUNT witness [[], [], [], [], []]

  /** Where the writer task stands: waiting, about to look at field `i`, or with a copy of a field to save. */
  datatype Pc = Wait | Look(i: nat) | Save(field: Field, value: seq<Byte>)

  /** `flash` lacks the fields that were never saved. `setting` are the fields of Set calls between the end of
      their lock and their notification; `unread` are the saved fields that Load could not read and that nobody
      has changed since. */
  datatype State = State(
    memory: Texts, flash: map<Field, seq<Byte>>, notified: set<Field>, pending: set<Field>, setting: multiset<Field>,
    pc: Pc, unread: set<Field>)

  const DEFAULTS: Texts := [
    [78, 69, 87, 32, 66, 65, 68, 71, 69], [85, 110, 97, 115, 115, 105, 103, 110, 101, 100], [], [45, 45, 45, 45],
    [68, 69, 79, 84, 65, 76, 65, 78, 68]]

  /** What the next start will show for a field, if it can read the store. */
  function Restored(s: State, f: Field): seq<Byte> { if f in s.flash then s.flash[f] else DEFAULTS[f] }

  /** Load, with the fields it managed to read; the others show their defaults. */
  function Loaded(flash: map<Field, seq<Byte>>, read: set<Field>): State {
    var memory: Texts := seq(FIELD_COUNT, f requires 0 <= f < FIELD_COUNT => if f in read && f in flash then flash[f] else DEFAULTS[f]);
    State(memory, flash, {}, {}, multiset{}, Wait, set f | f in flash && f !in read)
  }

  /** How nvs_set_str and nvs_commit end; a failed commit may or may not have taken hold. */
  datatype Outcome = Saved | Failed | FailedYetWritten

  datatype Event =
    | Set(field: Field, text: seq<Byte>)   // the region under the lock
    | Notify(field: Field)                 // the notification that follows a change
    | Wake                                 // the writer's wait ends
    | Act(outcome: Outcome)                // the writer's next step

  function WriterStep(s: State, outcome: Outcome): State {
    match s.pc
    case Wait => s
    case Look(i) =>
      if i >= FIELD_COUNT then s.(pc := Wait)
      else if i !in s.pending then s.(pc := Look(i + 1))
      else s.(pc := Save(i, s.memory[i]))
    case Save(f, value) =>
      var next := s.(pc := Look(f + 1));
      match outcome
      case Saved => next.(flash := s.flash[f := value], pending := s.pending - {f})
      case Failed => next
      case FailedYetWritten => next.(flash := s.flash[f := value])
  }

  function Apply(s: State, e: Event): State {
    match e
    case Set(f, text) =>
      if text == s.memory[f] then s
      else s.(memory := s.memory[f := text], setting := s.setting + multiset{f}, unread := s.unread - {f})
    case Notify(f) =>
      if f in s.setting then s.(notified := s.notified + {f}, setting := s.setting - multiset{f}) else s
    case Wake =>
      // With nothing pending it sleeps until notified; otherwise at most a second.
      if s.pc != Wait || (s.notified == {} && s.pending == {}) then s
      else s.(pending := s.pending + s.notified, notified := {}, pc := Look(0))
    case Act(outcome) => WriterStep(s, outcome)
  }

  function After(start: State, events: seq<Event>): State {
    if events == [] then start else Apply(After(start, events[..|events| - 1]), events[|events| - 1])
  }

  // ---------------------------------------------------------------- no update is lost

  predicate OnItsWay(s: State, f: Field) { f in s.notified || f in s.pending || f in s.setting }

  predicate FieldKept(s: State, f: Field) {
    && (Restored(s, f) == s.memory[f] || OnItsWay(s, f) || f in s.unread)
    && (s.pc.Save? && s.pc.field == f ==> f in s.pending && (s.pc.value == s.memory[f] || f in s.notified || f in s.setting))
  }

  /** A field Load could not read: memory shows its default, the flash what it held, and no save is coming. */
  predicate FieldUnread(s: State, flash: map<Field, seq<Byte>>, f: Field) {
    f in s.unread ==>
      s.memory[f] == DEFAULTS[f] && f in flash && f in s.flash && s.flash[f] == flash[f] && !OnItsWay(s, f)
  }

  ghost predicate Kept(s: State, flash: map<Field, seq<Byte>>) {
    forall f: Field :: FieldKept(s, f) && FieldUnread(s, flash, f)
  }

  lemma FieldStaysKept(s: State, flash: map<Field, seq<Byte>>, e: Event, f: Field)
    requires FieldKept(s, f) && FieldUnread(s, flash, f)
    requires s.pc.Save? ==> FieldKept(s, s.pc.field) && FieldUnread(s, flash, s.pc.field)
    ensures FieldKept(Apply(s, e), f) && FieldUnread(Apply(s, e), flash, f)
  {
    hide DEFAULTS, WriterStep;
    if e.Act? { WriterKeeps(s, flash, e.outcome, f); }
  }

  lemma WriterKeeps(s: State, flash: map<Field, seq<Byte>>, outcome: Outcome, f: Field)
    requires FieldKept(s, f) && FieldUnread(s, flash, f)
    requires s.pc.Save? ==> FieldKept(s, s.pc.field) && FieldUnread(s, flash, s.pc.field)
    ensures FieldKept(WriterStep(s, outcome), f) && FieldUnread(WriterStep(s, outcome), flash, f)
  {
    hide DEFAULTS;
  }

  lemma LoadedKept(flash: map<Field, seq<Byte>>, read: set<Field>)
    ensures Kept(Loaded(flash, read), flash)
  {
    hide DEFAULTS;
  }

  lemma {:induction false} AlwaysKept(flash: map<Field, seq<Byte>>, read: set<Field>, events: seq<Event>)
    ensures Kept(After(Loaded(flash, read), events), flash)
  {
    hide Apply, FieldKept, FieldUnread;
    if events == [] {
      LoadedKept(flash, read);
    } else {
      AlwaysKept(flash, read, events[..|events| - 1]);
      var s, e := After(Loaded(flash, read), events[..|events| - 1]), events[|events| - 1];
      forall f: Field ensures FieldKept(Apply(s, e), f) && FieldUnread(Apply(s, e), flash, f) {
        FieldStaysKept(s, flash, e, f);
      }
    }
  }

  /** Over every interleaving of Set calls and the writer, with any failures of the flash: a field whose saved
      value differs from memory is notified, pending, or about to be notified, but for the fields that Load
      could not read and nobody changed. So when nothing is under way the flash holds what memory shows,
      exactly if the field is not such a one with a saved value other than its default. */
  lemma NoUpdateIsLost(flash: map<Field, seq<Byte>>, read: set<Field>, events: seq<Event>, f: Field)
    ensures var s := After(Loaded(flash, read), events);
      && (Restored(s, f) != s.memory[f] ==> OnItsWay(s, f) || f in s.unread)
      && (s.notified == {} && s.pending == {} && s.setting == multiset{} ==>
            (Restored(s, f) == s.memory[f] <==> !(f in s.unread && f in flash && flash[f] != DEFAULTS[f])))
  {
    hide After, DEFAULTS;
    AlwaysKept(flash, read, events);
    var s := After(Loaded(flash, read), events);
    assert FieldKept(s, f) && FieldUnread(s, flash, f);
  }

  // ---------------------------------------------------------------- the retry

  /** The writer's round from here to its next wait when every save works. */
  function Round(s: State): State
    decreases match s.pc case Wait => 0 case Look(i) => if i >= FIELD_COUNT then 1 else 2 * (FIELD_COUNT - i) + 1
                         case Save(f, _) => 2 * (FIELD_COUNT - f)
  {
    if s.pc == Wait then s else Round(WriterStep(s, Saved))
  }

  lemma {:induction false} RoundSaves(s: State, i: nat)
    requires s.pc == Look(i)
    ensures var t := Round(s);
      && t.pc == Wait && t.memory == s.memory && t.notified == s.notified && t.setting == s.setting && t.unread == s.unread
      && (forall f :: f in t.pending <==> f in s.pending && f < i)
      && (forall f: Field :: Restored(t, f) == if f in s.pending && i <= f then s.memory[f] else Restored(s, f))
    decreases FIELD_COUNT - i
  {
    if i >= FIELD_COUNT {
      RoundEnds(s);
    } else {
      hide Round, WriterStep, DEFAULTS;
      RoundOne(s, i);
      if i in s.pending {
        RoundSaves(s.(flash := s.flash[i := s.memory[i]], pending := s.pending - {i}, pc := Look(i + 1)), i + 1);
      } else {
        RoundSaves(s.(pc := Look(i + 1)), i + 1);
      }
    }
  }

  lemma RoundEnds(s: State)
    requires s.pc.Look? && s.pc.i >= FIELD_COUNT
    ensures Round(s) == s.(pc := Wait)
  {
    hide DEFAULTS;
  }

  /** The writer's way past one field. */
  lemma RoundOne(s: State, i: nat)
    requires s.pc == Look(i) && i < FIELD_COUNT
    ensures Round(s) == Round(if i in s.pending
      then s.(flash := s.flash[i := s.memory[i]], pending := s.pending - {i}, pc := Look(i + 1)) else s.(pc := Look(i + 1)))
  {
    hide DEFAULTS;
    if i in s.pending { assert WriterStep(WriterStep(s, Saved), Saved).pc == Look(i + 1); }
  }

  /** Whatever failed before: once no Set is running, one wake and one round without failure leave nothing
      pending and the flash as memory is. */
  lemma OneGoodRoundSavesAll(flash: map<Field, seq<Byte>>, read: set<Field>, events: seq<Event>)
    requires var s := After(Loaded(flash, read), events);
      s.pc == Wait && s.setting == multiset{} && (s.notified != {} || s.pending != {})
    ensures var t := Round(Apply(After(Loaded(flash, read), events), Wake));
      t.pending == {} && t.notified == {} && forall f: Field :: f !in t.unread ==> Restored(t, f) == t.memory[f]
  {
    hide After, Round;
    AlwaysKept(flash, read, events);
    var s := After(Loaded(flash, read), events);
    var t := Round(Apply(s, Wake));
    RoundSaves(Apply(s, Wake), 0);
    forall f: Field | f !in t.unread ensures Restored(t, f) == t.memory[f] {
      assert FieldKept(s, f) && Restored(Apply(s, Wake), f) == Restored(s, f);
    }
  }

  // ---------------------------------------------------------------- the last text wins

  predicate Sets(e: Event, f: Field) { e.Set? && e.field == f }

  /** The i-th event is the last Set of the field. */
  predicate LastSet(events: seq<Event>, i: int, f: Field) {
    0 <= i < |events| && Sets(events[i], f) && forall j :: i < j < |events| ==> !Sets(events[j], f)
  }

  /** Over every run memory shows the text of the last Set, or without one what Load could read or else the
      default. */
  lemma {:induction false} MemoryShowsLast(flash: map<Field, seq<Byte>>, read: set<Field>, events: seq<Event>, f: Field)
    ensures var memory := After(Loaded(flash, read), events).memory;
      && (forall i :: LastSet(events, i, f) ==> memory[f] == events[i].text)
      && ((forall e :: e in events ==> !Sets(e, f)) ==> memory[f] == if f in read && f in flash then flash[f] else DEFAULTS[f])
  {
    hide DEFAULTS, WriterStep;
    if events != [] {
      var n := |events| - 1;
      MemoryShowsLast(flash, read, events[..n], f);
      var before, e := After(Loaded(flash, read), events[..n]), events[n];
      StepShows(before, e, f);
      hide After, Apply, Loaded;
      forall i | LastSet(events, i, f) ensures After(Loaded(flash, read), events).memory[f] == events[i].text {
        if i < n { assert LastSet(events[..n], i, f); }
      }
    }
  }

  lemma StepShows(s: State, e: Event, f: Field)
    ensures Apply(s, e).memory[f] == if Sets(e, f) then e.text else s.memory[f]
  {
  }

  /** The flash holds a text that Load could not read and that is not what memory shows instead. */
  predicate Overlooked(flash: map<Field, seq<Byte>>, read: set<Field>, f: Field) {
    f in flash && f !in read && flash[f] != DEFAULTS[f]
  }

  /** Until some Set of a field brings another text than its default, an unread field stays unread. */
  lemma {:induction false} UnreadExactly(flash: map<Field, seq<Byte>>, read: set<Field>, events: seq<Event>, f: Field)
    ensures f in After(Loaded(flash, read), events).unread <==>
      f in flash && f !in read && forall e :: e in events && Sets(e, f) ==> e.text == DEFAULTS[f]
  {
    hide DEFAULTS, WriterStep;
    if events != [] {
      var n := |events| - 1;
      UnreadExactly(flash, read, events[..n], f);
      AlwaysKept(flash, read, events[..n]);
      var before := After(Loaded(flash, read), events[..n]);
      assert FieldUnread(before, flash, f);
      StepReads(before, events[n], f);
      hide After, Apply, Loaded;
      assert forall e :: e in events <==> e in events[..n] || e == events[n];
    }
  }

  lemma StepReads(s: State, e: Event, f: Field)
    ensures f in Apply(s, e).unread <==> f in s.unread && !(Sets(e, f) && e.text != s.memory[f])
  {
  }

  /** Once all is quiet the next start shows the text of the last Set, if and only if it is not so that the flash
      holds an overlooked text and every Set of the field brought the default. */
  lemma LastSetIsSaved(flash: map<Field, seq<Byte>>, read: set<Field>, events: seq<Event>, f: Field, i: nat)
    requires LastSet(events, i, f)
    requires var s := After(Loaded(flash, read), events); s.notified == {} && s.pending == {} && s.setting == multiset{}
    ensures Restored(After(Loaded(flash, read), events), f) == events[i].text <==>
      !(Overlooked(flash, read, f) && forall e :: e in events && Sets(e, f) ==> e.text == DEFAULTS[f])
  {
    hide After, DEFAULTS;
    MemoryShowsLast(flash, read, events, f);
    NoUpdateIsLost(flash, read, events, f);
    UnreadExactly(flash, read, events, f);
  }

  /** The same after one wake and a round without failure, whatever failed before; a text other than the default
      is then always in the flash. */
  lemma GoodRoundSavesLast(flash: map<Field, seq<Byte>>, read: set<Field>, events: seq<Event>, f: Field, i: nat)
    requires LastSet(events, i, f)
    requires var s := After(Loaded(flash, read), events);
      s.pc == Wait && s.setting == multiset{} && (s.notified != {} || s.pending != {})
    ensures var t := Round(After(Loaded(flash, read), events + [Wake]));
      && (Restored(t, f) == events[i].text <==>
           !(Overlooked(flash, read, f) && forall e :: e in events && Sets(e, f) ==> e.text == DEFAULTS[f]))
      && (events[i].text != DEFAULTS[f] ==> f in t.flash && t.flash[f] == events[i].text)
  {
    hide DEFAULTS;
    var s := After(Loaded(flash, read), events);
    assert (events + [Wake])[..|events|] == events;
    assert After(Loaded(flash, read), events + [Wake]) == Apply(s, Wake);
    MemoryShowsLast(flash, read, events, f);
    UnreadExactly(flash, read, events, f);
    AlwaysKept(flash, read, events);
    assert FieldKept(s, f) && FieldUnread(s, flash, f);
    hide After, Loaded, Round;
    RoundSaves(Apply(s, Wake), 0);
  }
}
