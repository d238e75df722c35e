/** Reset of a speaker while audio is on its way: Play, Reset and PlayLoop of
    firmware/apps/m5stack-stopwatch-wifi/watch_wifi_audio.cc and, with whole blocks only, of
    firmware/apps/ai-passport-wifi/passport_wifi_audio.cc.

    One event is one load or store of a shared variable or one call on the stream buffer, so Reset may fall
    between any two of them. Generations are counted without wrap-around. The playback gate and the amplifier
    answer as they like. */
module SpeakerReset {
  import opened Basics

  const CHUNK_BYTES := 512

  /** The two devices: the Passport refuses odd and oversized blocks, the watch takes what fits and checks the
      generation once more after the amplifier. */
  datatype Device = Device(wholeBlocks: bool, capacity: nat)

  datatype Owner = Free | Producer | Player

  /** A call of Play inside its lock. */
  datatype Call =
    | Idle
    | LoadGeneration(bytes: seq<Byte>)
    | LoadCleared(bytes: seq<Byte>, generation: nat)
    | Send(bytes: seq<Byte>, generation: nat)

  datatype Pc =
    | Load            // generation = generation_
    | Compare         // generation != cleared_
    | Lock            // wait for writer_
    | Empty           // receive until nothing is left
    | Adopt           // cleared_ = generation
    | Gate            // the gate's answer
    | Receive         // up to 512 bytes
    | Recheck         // generation != generation_, or not even one sample
    | Amplify         // speaker on
    | RecheckAgain    // the watch looks once more
    | Write           // WritePcm

  /** `seen` is the generation last re-read, `at` the place of the chunk among the accepted bytes. */
  datatype Loop = Loop(pc: Pc, generation: nat, seen: nat, chunk: seq<Byte>, at: nat)

  /** A chunk the codec got, with the generation re-read before it. */
  datatype Handed = Handed(at: nat, bytes: seq<Byte>, generation: nat)

  /** `accepted` logs every byte sent into the buffer with the generation its Play had loaded, `removed`
      counts the bytes received back; neither exists on the device. */
  datatype State = State(
    lock: Owner, generation: nat, cleared: nat, queue: seq<Byte>, call: Call, loop: Loop,
    accepted: seq<(Byte, nat)>, removed: nat, handed: seq<Handed>)

  const INITIAL := State(Free, 0, 0, [], Idle, Loop(Load, 0, 0, [], 0), [], 0, [])

  // ---------------------------------------------------------------- Play

  function Tagged(bytes: seq<Byte>, generation: nat): (r: seq<(Byte, nat)>)
    ensures |r| == |bytes| && forall i :: 0 <= i < |r| ==> r[i] == (bytes[i], generation)
  {
    seq(|bytes|, i requires 0 <= i < |bytes| => (bytes[i], generation))
  }

  /** How many bytes of a block go into the buffer. */
  function Fitting(d: Device, queue: seq<Byte>, bytes: seq<Byte>): nat {
    var room := if |queue| <= d.capacity then d.capacity - |queue| else 0;
    if |bytes| <= room then |bytes| else if d.wholeBlocks then 0 else room
  }

  function CallStep(d: Device, s: State): State {
    match s.call
    case Idle => s
    case LoadGeneration(bytes) => s.(call := LoadCleared(bytes, s.generation))
    case LoadCleared(bytes, g) => if g != s.cleared then s.(call := Idle, lock := Free) else s.(call := Send(bytes, g))
    case Send(bytes, g) =>
      var sent := bytes[..Fitting(d, s.queue, bytes)];
      s.(call := Idle, lock := Free, queue := s.queue + sent, accepted := s.accepted + Tagged(sent, g))
  }

  // ---------------------------------------------------------------- PlayLoop

  function Goto(s: State, pc: Pc): State { s.(loop := s.loop.(pc := pc)) }

  function Received(s: State): State {
    var n := Min(CHUNK_BYTES, |s.queue|);
    s.(queue := s.queue[n..], removed := s.removed + n, loop := s.loop.(chunk := s.queue[..n], at := s.removed))
  }

  function LoopStep(d: Device, s: State, ok: bool): State {
    var l := s.loop;
    match l.pc
    case Load => s.(loop := l.(generation := s.generation, pc := Compare))
    case Compare => Goto(s, if l.generation != s.cleared then Lock else Gate)
    case Lock => if s.lock == Free then Goto(s.(lock := Player), Empty) else s
    case Empty => if s.queue == [] then Goto(s, Adopt) else Received(s)
    case Adopt => Goto(s.(cleared := l.generation, lock := Free), Gate)
    case Gate => Goto(s, if ok then Receive else Load)
    case Receive => Goto(Received(s), Recheck)
    case Recheck =>
      if l.generation != s.generation || |l.chunk| < 2 then Goto(s, Load)
      else s.(loop := l.(seen := s.generation, pc := Amplify))
    case Amplify => Goto(s, if d.wholeBlocks then Write else if ok then RecheckAgain else Load)
    case RecheckAgain =>
      if l.generation != s.generation then Goto(s, Load) else s.(loop := l.(seen := s.generation, pc := Write))
    case Write =>
      // WritePcm takes whole samples.
      Goto(s.(handed := s.handed + [Handed(l.at, l.chunk[..|l.chunk| / 2 * 2], l.seen)]), Load)
  }

  // ---------------------------------------------------------------- runs

  datatype Event = Reset | Play(bytes: seq<Byte>) | CallActs | LoopActs(ok: bool)

  predicate Refused(d: Device, bytes: seq<Byte>) { bytes == [] || (d.wholeBlocks && |bytes| % 2 != 0) }

  function Apply(d: Device, s: State, e: Event): State {
    match e
    case Reset => s.(generation := s.generation + 1)
    case Play(bytes) => if Refused(d, bytes) || s.lock != Free then s else s.(lock := Producer, call := LoadGeneration(bytes))
    case CallActs => CallStep(d, s)
    case LoopActs(ok) => LoopStep(d, s, ok)
  }

  function After(d: Device, events: seq<Event>): State {
    if events == [] then INITIAL else Apply(d, After(d, events[..|events| - 1]), events[|events| - 1])
  }

  // ---------------------------------------------------------------- the invariant

  /** Whether bytes are what was accepted from a place on, all in one generation. */
  ghost predicate Logged(accepted: seq<(Byte, nat)>, at: nat, bytes: seq<Byte>, generation: nat) {
    && at + |bytes| <= |accepted|
    && forall i :: 0 <= i < |bytes| ==> accepted[at + i] == (bytes[i], generation)
  }

  /** From the receive on the chunk is in hand. */
  predicate InHand(pc: Pc) { pc.Recheck? || pc.Amplify? || pc.RecheckAgain? || pc.Write? }

  predicate Agreed(pc: Pc) { InHand(pc) || pc.Gate? || pc.Receive? }

  ghost predicate Fresh(s: State) {
    var l := s.loop;
    && s.cleared <= s.generation && l.generation <= s.generation && s.cleared <= (if l.pc.Load? then s.generation else l.generation)
    && (Agreed(l.pc) ==> l.generation == s.cleared)
    && (s.lock == Producer <==> !s.call.Idle?)
    && (s.lock == Player <==> l.pc.Empty? || l.pc.Adopt?)
    && (s.call.Send? ==> s.call.generation == s.cleared)
    && (l.pc.Adopt? ==> s.queue == [])
    && (l.pc.Amplify? || l.pc.RecheckAgain? || l.pc.Write? ==> l.seen == l.generation)
  }

  ghost predicate Conserved(s: State) {
    var l := s.loop;
    && s.removed + |s.queue| == |s.accepted|
    && Logged(s.accepted, s.removed, s.queue, s.cleared)
    && (InHand(l.pc) ==> l.at + |l.chunk| <= s.removed && Logged(s.accepted, l.at, l.chunk, l.generation))
  }

  ghost predicate InOrder(s: State) {
    && (forall k :: 0 <= k < |s.handed| ==> Logged(s.accepted, s.handed[k].at, s.handed[k].bytes, s.handed[k].generation))
    && (forall j, k :: 0 <= j < k < |s.handed| ==>
          s.handed[j].at + |s.handed[j].bytes| <= s.handed[k].at && s.handed[j].generation <= s.handed[k].generation)
    && (forall k :: 0 <= k < |s.handed| ==>
          s.handed[k].at + |s.handed[k].bytes| <= (if InHand(s.loop.pc) then s.loop.at else s.removed)
          && s.handed[k].generation <= s.cleared)
  }

  lemma LogGrows(accepted: seq<(Byte, nat)>, more: seq<(Byte, nat)>, at: nat, bytes: seq<Byte>, generation: nat)
    requires Logged(accepted, at, bytes, generation)
    ensures Logged(accepted + more, at, bytes, generation)
  {
  }

  lemma NothingLogged(accepted: seq<(Byte, nat)>, at: nat, generation: nat)
    requires at <= |accepted|
    ensures Logged(accepted, at, [], generation)
  {
  }

  lemma SendKeeps(d: Device, s: State)
    requires Fresh(s) && Conserved(s) && InOrder(s) && s.call.Send?
    ensures Conserved(CallStep(d, s)) && InOrder(CallStep(d, s))
  {
    var more := Tagged(s.call.bytes[..Fitting(d, s.queue, s.call.bytes)], s.call.generation);
    if InHand(s.loop.pc) { LogGrows(s.accepted, more, s.loop.at, s.loop.chunk, s.loop.generation); }
    forall k | 0 <= k < |s.handed|
      ensures Logged(s.accepted + more, s.handed[k].at, s.handed[k].bytes, s.handed[k].generation)
    {
      LogGrows(s.accepted, more, s.handed[k].at, s.handed[k].bytes, s.handed[k].generation);
    }
  }

  lemma WriteKeeps(d: Device, s: State, ok: bool)
    requires Fresh(s) && Conserved(s) && InOrder(s) && s.loop.pc.Write?
    ensures Conserved(LoopStep(d, s, ok)) && InOrder(LoopStep(d, s, ok))
  {
  }

  lemma ReceiveKeeps(s: State)
    requires Fresh(s) && Conserved(s) && InOrder(s) && !InHand(s.loop.pc)
    ensures var t := Received(s);
      && t.loop.at + |t.loop.chunk| == t.removed && Logged(t.accepted, t.loop.at, t.loop.chunk, t.cleared)
      && t.removed + |t.queue| == |t.accepted| && Logged(t.accepted, t.removed, t.queue, t.cleared)
      && InOrder(Goto(t, Recheck)) && InOrder(Goto(t, Empty))
  {
    var n := Min(CHUNK_BYTES, |s.queue|);
    forall i | 0 <= i < |s.queue| - n
      ensures s.accepted[s.removed + n + i] == (s.queue[n..][i], s.cleared)
    {
      assert s.accepted[s.removed + (n + i)] == (s.queue[n + i], s.cleared);
    }
  }

  /** The other actions of the play task. */
  lemma OthersKeep(d: Device, s: State, ok: bool)
    requires Fresh(s) && Conserved(s) && InOrder(s) && !s.loop.pc.Write? && !s.loop.pc.Receive? && !s.loop.pc.Empty?
    ensures var t := LoopStep(d, s, ok); Fresh(t) && Conserved(t) && InOrder(t)
  {
    hide Logged;
    if s.loop.pc.Adopt? { NothingLogged(s.accepted, s.removed, s.loop.generation); }
  }

  lemma LoopKeeps(d: Device, s: State, ok: bool)
    requires Fresh(s) && Conserved(s) && InOrder(s)
    ensures var t := LoopStep(d, s, ok); Fresh(t) && Conserved(t) && InOrder(t)
  {
    if s.loop.pc.Write? {
      WriteKeeps(d, s, ok);
    } else if s.loop.pc.Receive? || s.loop.pc.Empty? {
      ReceiveKeeps(s);
      hide Logged;
    } else {
      OthersKeep(d, s, ok);
    }
  }

  lemma ApplyKeeps(d: Device, s: State, e: Event)
    requires Fresh(s) && Conserved(s) && InOrder(s)
    ensures Fresh(Apply(d, s, e)) && Conserved(Apply(d, s, e)) && InOrder(Apply(d, s, e))
  {
    hide Logged, LoopStep;
    if e.CallActs? && s.call.Send? { SendKeeps(d, s); }
    if e.LoopActs? { LoopKeeps(d, s, e.ok); }
  }

  lemma {:induction false} Always(d: Device, events: seq<Event>)
    ensures Fresh(After(d, events)) && Conserved(After(d, events)) && InOrder(After(d, events))
  {
    if events != [] {
      Always(d, events[..|events| - 1]);
      ApplyKeeps(d, After(d, events[..|events| - 1]), events[|events| - 1]);
    }
  }

  // ---------------------------------------------------------------- results

  /** Over every interleaving: the buffer holds only bytes accepted in the generation in force (`cleared_`);
      every chunk the codec gets consists of bytes accepted in the very generation re-read before it; and the
      played bytes are a subsequence of the accepted ones, no byte twice and none out of order. */
  lemma ResetSafe(d: Device, events: seq<Event>)
    ensures var s := After(d, events);
      && s.removed + |s.queue| == |s.accepted| && Logged(s.accepted, s.removed, s.queue, s.cleared)
      && (forall k :: 0 <= k < |s.handed| ==> Logged(s.accepted, s.handed[k].at, s.handed[k].bytes, s.handed[k].generation))
      && (forall j, k :: 0 <= j < k < |s.handed| ==> s.handed[j].at + |s.handed[j].bytes| <= s.handed[k].at)
  {
    Always(d, events);
  }

  /** Past its last look at the generation. */
  predicate Committed(d: Device, pc: Pc) { pc.Write? || (pc.Amplify? && d.wholeBlocks) }

  /** What a Reset promises from then on. */
  ghost predicate Renewed(d: Device, s: State, count: nat, generation: nat) {
    && generation <= s.generation
    && (Committed(d, s.loop.pc) && count <= |s.handed| ==> generation <= s.loop.seen)
    && (|s.handed| < count ==> Committed(d, s.loop.pc) && |s.handed| + 1 == count)
    && forall k :: count <= k < |s.handed| ==> generation <= s.handed[k].generation
  }

  lemma ApplyKeepsRenewed(d: Device, s: State, e: Event, count: nat, generation: nat)
    requires Renewed(d, s, count, generation)
    ensures Renewed(d, Apply(d, s, e), count, generation)
  {
    if e.CallActs? { hide Fitting, Tagged; }
  }

  lemma {:induction false} StaysRenewed(d: Device, events: seq<Event>, more: seq<Event>, count: nat)
    requires var s := After(d, events); count == |s.handed| + if Committed(d, s.loop.pc) then 1 else 0
    ensures Renewed(d, After(d, events + more), count, After(d, events).generation)
  {
    if more == [] {
      assert events + more == events;
    } else {
      var n := |more| - 1;
      StaysRenewed(d, events, more[..n], count);
      assert (events + more)[..|events + more| - 1] == events + more[..n];
      ApplyKeepsRenewed(d, After(d, events + more[..n]), more[n], count, After(d, events).generation);
    }
  }

  /** After a Reset nothing accepted before it is handed over any more, but for the one chunk that was past
      its last check. */
  lemma ResetTakesEffect(d: Device, events: seq<Event>, more: seq<Event>)
    ensures var s, t := After(d, events + [Reset]), After(d, events + [Reset] + more);
      forall k :: |s.handed| + (if Committed(d, s.loop.pc) then 1 else 0) <= k < |t.handed| ==>
        s.generation <= t.handed[k].generation && Logged(t.accepted, t.handed[k].at, t.handed[k].bytes, t.handed[k].generation)
  {
    hide After;
    var s := After(d, events + [Reset]);
    StaysRenewed(d, events + [Reset], more, |s.handed| + if Committed(d, s.loop.pc) then 1 else 0);
    Always(d, events + [Reset] + more);
  }

  // ---------------------------------------------------------------- the advertised level

  /** What the Passport tells the SDK, which paces its blocks by it: a full buffer while a Reset is pending. */
  function BufferLevel(d: Device, s: State): nat { if s.generation != s.cleared then d.capacity else |s.queue| }

  lemma {:induction false} QueueFits(d: Device, events: seq<Event>)
    ensures |After(d, events).queue| <= d.capacity
  {
    if events != [] {
      QueueFits(d, events[..|events| - 1]);
      StepFits(d, After(d, events[..|events| - 1]), events[|events| - 1]);
    }
  }

  lemma StepFits(d: Device, s: State, e: Event)
    requires |s.queue| <= d.capacity
    ensures |Apply(d, s, e).queue| <= d.capacity
  {
  }

  lemma Then(d: Device, events: seq<Event>, e: Event)
    ensures After(d, events + [e]) == Apply(d, After(d, events), e)
  {
    hide Apply;
    assert (events + [e])[..|events + [e]| - 1] == events;
  }

  /** The level is honest: a block that fits what it leaves free is accepted whole if nothing comes between. */
  lemma LevelIsHonest(d: Device, events: seq<Event>, bytes: seq<Byte>)
    requires var s := After(d, events);
      s.lock == Free && s.call.Idle? && !Refused(d, bytes) && |bytes| + BufferLevel(d, s) <= d.capacity
    ensures var s, t := After(d, events), After(d, events + [Play(bytes)] + [CallActs] + [CallActs] + [CallActs]);
      t.accepted == s.accepted + Tagged(bytes, s.generation) && t.queue == s.queue + bytes
  {
    hide After, LoopStep;
    Then(d, events, Play(bytes));
    Then(d, events + [Play(bytes)], CallActs);
    Then(d, events + [Play(bytes)] + [CallActs], CallActs);
    Then(d, events + [Play(bytes)] + [CallActs] + [CallActs], CallActs);
    assert bytes[..|bytes|] == bytes;
  }

  // ---------------------------------------------------------------- whole samples

  predicate Even(n: int) { n % 2 == 0 }

  ghost predicate Aligned(s: State) {
    && Even(|s.accepted|) && Even(s.removed) && Even(|s.queue|)
    && (!s.call.Idle? ==> Even(|s.call.bytes|))
    && (InHand(s.loop.pc) ==> Even(s.loop.at) && Even(|s.loop.chunk|))
    && forall k :: 0 <= k < |s.handed| ==> Even(s.handed[k].at) && Even(|s.handed[k].bytes|)
  }

  /** The calls bring whole samples; the Passport sees to that itself. */
  predicate BringsWhole(d: Device, e: Event) { e.Play? && !d.wholeBlocks ==> Even(|e.bytes|) }

  lemma {:induction false} StaysAligned(d: Device, events: seq<Event>)
    requires Even(d.capacity) && forall e :: e in events ==> BringsWhole(d, e)
    ensures Aligned(After(d, events))
  {
    if events != [] {
      var n := |events| - 1;
      forall e | e in events[..n] ensures BringsWhole(d, e) { assert e in events; }
      StaysAligned(d, events[..n]);
      Always(d, events[..n]);
      hide Fresh, InOrder, Apply;
      assert BringsWhole(d, events[n]);
      StepStaysAligned(d, After(d, events[..n]), events[n]);
    }
  }

  lemma StepStaysAligned(d: Device, s: State, e: Event)
    requires Even(d.capacity) && BringsWhole(d, e) && Aligned(s) && s.removed + |s.queue| == |s.accepted|
    ensures Aligned(Apply(d, s, e))
  {
    match e {
      case LoopActs(ok) => LoopStaysAligned(d, s, ok);
      case _ => hide LoopStep;
    }
  }

  lemma LoopStaysAligned(d: Device, s: State, ok: bool)
    requires Aligned(s) && s.removed + |s.queue| == |s.accepted|
    ensures Aligned(LoopStep(d, s, ok))
  {
    hide Received;
    if s.loop.pc.Receive? || s.loop.pc.Empty? {
      ReceivedAligned(s);
    } else if s.loop.pc.Write? {
      WrittenAligned(d, s, ok);
    }
  }

  lemma ReceivedAligned(s: State)
    requires Aligned(s) && s.removed + |s.queue| == |s.accepted|
    ensures var t := Received(s);
      && t.accepted == s.accepted && t.call == s.call && t.handed == s.handed && Even(t.removed) && Even(|t.queue|)
      && Even(t.loop.at) && Even(|t.loop.chunk|)
  {
  }

  lemma WrittenAligned(d: Device, s: State, ok: bool)
    requires Aligned(s) && s.loop.pc.Write?
    ensures Aligned(LoopStep(d, s, ok))
  {
  }

  /** If every block is a whole number of samples, every chunk begins on a sample and no byte of it is left
      behind. The Passport needs no such promise. */
  lemma ChunksAreWhole(d: Device, events: seq<Event>)
    requires Even(d.capacity) && (d.wholeBlocks || forall e :: e in events && e.Play? ==> Even(|e.bytes|))
    ensures var s := After(d, events);
      && (forall k :: 0 <= k < |s.handed| ==> Even(s.handed[k].at) && Even(|s.handed[k].bytes|))
      && (s.loop.pc.Write? ==> Even(|s.loop.chunk|))
  {
    StaysAligned(d, events);
  }

  // ---------------------------------------------------------------- a half sample

  /** Every call of Play brings an even number of bytes or this one. */
  predicate Brings(events: seq<Event>, n: nat) { forall e :: e in events && e.Play? ==> Even(|e.bytes|) || |e.bytes| == n }

  ghost predicate Reachable(d: Device, n: nat, s: State) { exists events :: Brings(events, n) && After(d, events) == s }

  lemma Do(d: Device, n: nat, s: State, e: Event) returns (t: State)
    requires Reachable(d, n, s) && (e.Play? ==> Even(|e.bytes|) || |e.bytes| == n)
    ensures Reachable(d, n, t) && t == Apply(d, s, e)
  {
    t := Apply(d, s, e);
    var events :| Brings(events, n) && After(d, events) == s;
    Then(d, events, e);
    assert Brings(events + [e], n) && After(d, events + [e]) == t;
  }

  /** Between two passes, with no call of Play and no Reset under way. */
  predicate Steady(s: State) {
    && s.lock == Free && s.call.Idle? && s.loop.pc.Load? && s.generation == s.cleared
    && s.removed + |s.queue| == |s.accepted|
  }

  lemma BlockQueued(d: Device, n: nat, s: State, bytes: seq<Byte>) returns (t: State)
    requires Reachable(d, n, s) && Steady(s) && s.queue == [] && !Refused(d, bytes) && |bytes| <= d.capacity
    requires Even(|bytes|) || |bytes| == n
    ensures Reachable(d, n, t) && Steady(t) && t == s.(queue := bytes, accepted := s.accepted + Tagged(bytes, s.generation))
  {
    hide Reachable;
    t := Do(d, n, s, Play(bytes));
    t := Do(d, n, t, CallActs);
    t := Do(d, n, t, CallActs);
    t := Do(d, n, t, CallActs);
    assert bytes[..|bytes|] == bytes;
  }

  /** One chunk goes through; a single byte is taken out and dropped. */
  lemma ChunkPasses(d: Device, n: nat, s: State) returns (t: State)
    requires Reachable(d, n, s) && Steady(s) && s.queue != []
    ensures Reachable(d, n, t) && Steady(t) && t.generation == s.generation && t.accepted == s.accepted
    ensures var k := Min(CHUNK_BYTES, |s.queue|);
      && t.queue == s.queue[k..]
      && t.handed == if k == 1 then s.handed else s.handed + [Handed(s.removed, s.queue[..k / 2 * 2], s.generation)]
  {
    hide Reachable;
    var k := Min(CHUNK_BYTES, |s.queue|);
    t := Do(d, n, s, LoopActs(true));
    t := Do(d, n, t, LoopActs(true));
    t := Do(d, n, t, LoopActs(true));
    t := Do(d, n, t, LoopActs(true));
    assert t.loop.chunk == s.queue[..k] && t.queue == s.queue[k..];
    t := Do(d, n, t, LoopActs(true));
    if k > 1 {
      t := Do(d, n, t, LoopActs(true));
      if !d.wholeBlocks { t := Do(d, n, t, LoopActs(true)); }
      t := Do(d, n, t, LoopActs(true));
      assert s.queue[..k][..k / 2 * 2] == s.queue[..k / 2 * 2];
    }
  }

  /** Everything handed over, one chunk after the other. */
  function Played(handed: seq<Handed>): seq<Byte> {
    if handed == [] then [] else Played(handed[..|handed| - 1]) + handed[|handed| - 1].bytes
  }

  lemma {:induction false} Drains(d: Device, n: nat, s: State) returns (t: State)
    requires Reachable(d, n, s) && Steady(s)
    ensures Reachable(d, n, t) && Steady(t) && t.generation == s.generation && t.accepted == s.accepted && t.queue == []
    ensures Played(t.handed) == Played(s.handed) + s.queue[..|s.queue| / 2 * 2]
    decreases |s.queue|
  {
    hide Reachable;
    t := s;
    if s.queue == [] {
      assert Played(s.handed) + s.queue[..0] == Played(s.handed);
    } else {
      var k := Min(CHUNK_BYTES, |s.queue|);
      t := ChunkPasses(d, n, s);
      PlayedOneMore(s.handed, Handed(s.removed, s.queue[..k / 2 * 2], s.generation));
      HalvesJoin(s.queue, k);
      t := Drains(d, n, t);
    }
  }

  lemma PlayedOneMore(handed: seq<Handed>, h: Handed)
    ensures Played(handed + [h]) == Played(handed) + h.bytes
  {
    assert (handed + [h])[..|handed|] == handed;
  }

  lemma HalvesJoin(queue: seq<Byte>, k: nat)
    requires k == Min(CHUNK_BYTES, |queue|)
    ensures queue[..|queue| / 2 * 2] == queue[..k / 2 * 2] + queue[k..][..(|queue| - k) / 2 * 2]
  {
    if k < |queue| {
      assert |queue| / 2 * 2 == k + (|queue| - k) / 2 * 2;
    } else {
      assert queue[k..] == [];
    }
  }

  /** On both devices a block that fits is heard whole, but for half a sample at its end, if it is left alone: with
      the gate open and no Reset it all reaches the codec. */
  lemma BlockIsHeard(d: Device, n: nat, s: State, bytes: seq<Byte>) returns (t: State)
    requires Reachable(d, n, s) && Steady(s) && s.queue == [] && !Refused(d, bytes) && |bytes| <= d.capacity
    requires Even(|bytes|) || |bytes| == n
    ensures Reachable(d, n, t) && Steady(t) && t.queue == [] && t.generation == s.generation
    ensures Played(t.handed) == Played(s.handed) + bytes[..|bytes| / 2 * 2]
  {
    hide Reachable, Played, Steady;
    t := BlockQueued(d, n, s, bytes);
    t := Drains(d, n, t);
  }

  /** A block of odd length shifts the next one by half a sample. */
  lemma OddBlockShifts(d: Device, bytes: seq<Byte>) returns (s: State)
    requires !d.wholeBlocks && 2 <= d.capacity && |bytes| <= d.capacity && !Even(|bytes|)
    ensures Reachable(d, |bytes|, s) && |s.accepted| == |bytes| + 2
    ensures s.handed != [] && s.handed[|s.handed| - 1] == Handed(|bytes|, [1, 0], 0)
  {
    var n := |bytes|;
    assert Brings([], n) && After(d, []) == INITIAL;
    hide Reachable;
    s := BlockQueued(d, n, INITIAL, bytes);
    s := Drains(d, n, s);
    s := BlockQueued(d, n, s, [1, 0]);
    s := ChunkPasses(d, n, s);
  }

  /** What the codec got begins on samples and ends on them. */
  ghost predicate HandedWhole(s: State) { forall k :: 0 <= k < |s.handed| ==> Even(s.handed[k].at) && Even(|s.handed[k].bytes|) }

  /** On the watch, blocks of a length that fits its buffer, among even ones, leave every chunk whole in every run if
      and only if that length is even. */
  lemma WholeIffEven(d: Device, n: nat)
    requires !d.wholeBlocks && Even(d.capacity) && 0 < n <= d.capacity
    ensures (forall events :: Brings(events, n) ==> HandedWhole(After(d, events))) <==> Even(n)
  {
    hide After;
    if Even(n) {
      forall events | Brings(events, n) ensures HandedWhole(After(d, events)) { ChunksAreWhole(d, events); }
    } else {
      var bytes: seq<Byte> := seq(n, i => 0);
      var s := OddBlockShifts(d, bytes);
      var events :| Brings(events, n) && After(d, events) == s;
      assert !Even(s.handed[|s.handed| - 1].at);
    }
  }
}
