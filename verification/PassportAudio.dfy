/** Reply audio on its way from PlayAudio to the codec: which generation every byte belongs to, its order, and
    what is still unplayed when a reply counts as finished. */
module PassportAudio {
  import opened Basics
  import opened VoiceSession
  import opened PassportVoice

  // ---------------------------------------------------------------- generations

  /** A generation is only ever seen after it was started, and the buffer follows the play task's own. */
  predicate Ordered(s: State) {
    var sh, l, session := s.sh, s.play, s.ptt.session;
    && sh.token.generation <= session.generation
    && l.token.generation <= sh.token.generation
    && sh.playGeneration <= sh.token.generation
    && (session.generation == 0 ==> session.state == Disconnected)
    && (sh.token.generation == 0 ==> sh.token.state == Disconnected)
    && (l.token.generation == 0 ==> l.token.state == Disconnected)
    && (if l.generation.Just? then l.generation.value == sh.playGeneration
        else sh.playGeneration == 0 && (l.pc.Load? || l.pc.Flush?))
    && (l.pc.Flush? ==> sh.playGeneration < l.token.generation || l.generation == Nothing)
    && (!l.pc.Load? && !l.pc.Flush? ==> l.token.generation == sh.playGeneration)
    && (sh.done == 0 || sh.done == sh.playGeneration)
  }

  lemma PttKeepsOrdered(s: State, c: Chance)
    requires Ordered(s)
    ensures Ordered(PttStep(s, c))
  {
    hide PttLocal, PttShared, PttHistory;
  }

  lemma PlayKeepsToken(sh: Shared, l: Play, go: bool, late: bool)
    requires !l.pc.Load? && !l.pc.Flush?
    ensures var k := PlayLocal(sh, l, go, late);
      k.token == l.token && k.generation == l.generation && !k.pc.Flush?
  {
    if PausingPc(l.pc) || DecidingPc(l.pc) || l.pc.Fetch? {
      hide PlayLocal, Pausing, Deciding, Fetched;
      PlayCases(sh, l, go, late);
    } else {
      hide Pausing, Deciding, Fetched, CanPlay;
    }
  }

  lemma PlayKeepsOrdered(s: State, go: bool, late: bool)
    requires Ordered(s)
    ensures Ordered(PlayStep(s, go, late))
  {
    if s.play.pc.Load? || s.play.pc.Flush? {
      PlayStartsOrdered(s, go, late);
    } else {
      hide PlayLocal, PlayShared, PlayHistory;
      PlayKeepsToken(s.sh, s.play, go, late);
    }
  }

  lemma PlayStartsOrdered(s: State, go: bool, late: bool)
    requires Ordered(s) && (s.play.pc.Load? || s.play.pc.Flush?)
    ensures Ordered(PlayStep(s, go, late))
  {
  }

  // ---------------------------------------------------------------- bytes

  predicate ChunkInHand(pc: PlayPc) { pc.Check? || pc.Unmute? || pc.Write? }

  /** The chunk taken out of the buffer and not yet handed over. */
  function InHand(l: Play): seq<Byte> { if ChunkInHand(l.pc) then l.chunk else l.pending }

  /** Accepted and handed-over bytes of a generation the buffer has not reached, of any generation, and of
      the buffer's own. */
  ghost predicate Conserved(s: State) {
    var g, h := s.sh.playGeneration, s.hist;
    && BytesOf(h.accepted, g) == BytesOf(h.handed, g) + InHand(s.play) + s.sh.queue
    && (forall k :: g < k || k == 0 ==> BytesOf(h.accepted, k) == [] && BytesOf(h.handed, k) == [])
    && (forall k :: BytesOf(h.handed, k) <= BytesOf(h.accepted, k))
    && Whole(s.sh.queue, BUFFER_BYTES) && Whole(s.play.pending, CHUNK_BYTES) && Whole(s.play.chunk, CHUNK_BYTES)
    && (ChunkInHand(s.play.pc) && s.play.pending != [] ==> s.play.chunk == s.play.pending)
  }

  /** Whole samples, and no more than fits. */
  predicate Whole(bytes: seq<Byte>, limit: nat) { |bytes| % 2 == 0 && |bytes| <= limit }

  lemma FlushConserves(s: State, go: bool, late: bool)
    requires Ordered(s) && Conserved(s) && s.play.pc.Flush?
    ensures Conserved(PlayStep(s, go, late))
  {
    hide BytesOf;
    var g, next := s.sh.playGeneration, s.play.token.generation;
    assert BytesOf(s.hist.accepted, next) == [] && BytesOf(s.hist.handed, next) == [];
  }

  lemma FetchConserves(s: State, go: bool, late: bool)
    requires Conserved(s) && s.play.pc.Fetch?
    ensures Conserved(PlayStep(s, go, late))
  {
    hide BytesOf;
    var t := PlayStep(s, go, late);
    FetchMoves(s.sh, s.play, go, late);
    assert InHand(t.play) + t.sh.queue == InHand(s.play) + s.sh.queue;
    assert BytesOf(s.hist.handed, s.sh.playGeneration) + InHand(t.play) + t.sh.queue
        == BytesOf(s.hist.handed, s.sh.playGeneration) + (InHand(t.play) + t.sh.queue);
    hide PlayLocal, PlayShared, PlayHistory;
  }

  /** Taking a chunk moves bytes from the front of the buffer into the hand. */
  lemma FetchMoves(sh: Shared, l: Play, go: bool, late: bool)
    requires l.pc.Fetch? && Whole(sh.queue, BUFFER_BYTES) && Whole(l.pending, CHUNK_BYTES)
    ensures var k, t := PlayLocal(sh, l, go, late), PlayShared(sh, l, late);
      && InHand(k) + t.queue == InHand(l) + sh.queue
      && Whole(t.queue, BUFFER_BYTES) && Whole(k.pending, CHUNK_BYTES) && Whole(k.chunk, CHUNK_BYTES)
      && (ChunkInHand(k.pc) && k.pending != [] ==> k.chunk == k.pending)
  {
    var n := Taking(sh);
    assert sh.queue == sh.queue[..n] + sh.queue[n..];
  }

  lemma WriteConserves(s: State, go: bool, late: bool)
    requires Ordered(s) && Conserved(s) && s.play.pc.Write?
    ensures Conserved(PlayStep(s, go, late))
  {
    var g, l, h := s.sh.playGeneration, s.play, s.hist;
    var t := PlayStep(s, go, late);
    assert l.chunk[..|l.chunk| / 2 * 2] == l.chunk;
    assert BytesOf(t.hist.handed, g) == BytesOf(h.handed, g) + l.chunk;
    assert BytesOf(h.accepted, g) == BytesOf(t.hist.handed, g) + [] + s.sh.queue;
    forall k ensures BytesOf(t.hist.handed, k) <= BytesOf(t.hist.accepted, k) {
      if k != g { assert BytesOf(t.hist.handed, k) == BytesOf(h.handed, k); }
    }
  }

  /** The other actions of the play task move no byte. */
  lemma PlayKeepsHand(sh: Shared, l: Play, go: bool, late: bool)
    requires !l.pc.Flush? && !l.pc.Fetch? && !l.pc.Write?
    ensures var k := PlayLocal(sh, l, go, late);
      && InHand(k) == InHand(l) && k.chunk == l.chunk
      && (k.pending == l.pending || (l.pc.Check? && k.pending == l.chunk))
      && (ChunkInHand(k.pc) ==> ChunkInHand(l.pc) && k.pending == l.pending)
  {
    if PausingPc(l.pc) || DecidingPc(l.pc) {
      hide PlayLocal, Pausing, Deciding;
      PlayCases(sh, l, go, late);
    } else {
      hide Pausing, Deciding, Fetched, CanPlay, PausingPc, DecidingPc;
    }
  }

  lemma OtherActionsConserve(s: State, go: bool, late: bool)
    requires Conserved(s) && !s.play.pc.Flush? && !s.play.pc.Fetch? && !s.play.pc.Write?
    ensures Conserved(PlayStep(s, go, late))
  {
    assert PlayHistory(s.hist, s.sh, s.play, go, late).handed == s.hist.handed;
    PlayKeepsHand(s.sh, s.play, go, late);
    hide BytesOf, PlayLocal, PlayShared, PlayHistory;
  }

  /** A block is accepted whole and in order, or not at all: exactly when PlayAudio is welcome to it and it fits. */
  lemma ArrivalConserves(s: State, bytes: seq<Byte>)
    requires Ordered(s) && Conserved(s)
    ensures var t, g := AudioArrives(s, bytes), s.sh.token.generation;
      && Ordered(t) && Conserved(t)
      && t.ptt == s.ptt && t.play == s.play && t.hist.handed == s.hist.handed
      && if AudioWelcome(s.sh, bytes) && |s.sh.queue| + |bytes| <= BUFFER_BYTES
         then BytesOf(t.hist.accepted, g) == BytesOf(s.hist.accepted, g) + bytes && t.sh.queue == s.sh.queue + bytes
         else t.hist == s.hist && t.sh.queue == s.sh.queue
  {
    var g, h, t := s.sh.playGeneration, s.hist, AudioArrives(s, bytes);
    if t.hist != h {
      assert BytesOf(t.hist.accepted, g) == BytesOf(h.accepted, g) + bytes;
      assert BytesOf(h.handed, g) + InHand(s.play) + (s.sh.queue + bytes) == BytesOf(h.accepted, g) + bytes;
      forall k ensures BytesOf(t.hist.handed, k) <= BytesOf(t.hist.accepted, k) {
        if k != g { assert BytesOf(t.hist.accepted, k) == BytesOf(h.accepted, k); }
      }
      forall k | g < k || k == 0 ensures BytesOf(t.hist.accepted, k) == [] && BytesOf(t.hist.handed, k) == [] {
        assert k != g;
      }
    }
  }

  lemma PttConserves(s: State, c: Chance)
    requires Conserved(s)
    ensures Conserved(PttStep(s, c))
  {
    hide BytesOf, PttLocal, PttShared, PttHistory;
  }

  /** Nor do the other callbacks and the screen. */
  lemma CallbackConserves(s: State, e: Event)
    requires Ordered(s) && Conserved(s) && !e.PttActs? && !e.PlayActs? && !e.PlayAudio?
    ensures Ordered(Apply(s, e)) && Conserved(Apply(s, e))
  {
    hide BytesOf, Apply;
    CallbackLeaves(s, e);
  }

  lemma CallbackLeaves(s: State, e: Event)
    requires !e.PttActs? && !e.PlayActs? && !e.PlayAudio?
    ensures var t := Apply(s, e);
      && t.ptt == s.ptt && t.play == s.play && t.hist.accepted == s.hist.accepted && t.hist.handed == s.hist.handed
      && t.sh.token == s.sh.token && t.sh.playGeneration == s.sh.playGeneration && t.sh.done == s.sh.done
      && t.sh.queue == s.sh.queue
  {
    hide ReplyData.Posted, ReplyData.Accepts, ReplyData.Bound;
  }

  lemma ApplyConserves(s: State, e: Event)
    requires Ordered(s) && Conserved(s)
    ensures Ordered(Apply(s, e)) && Conserved(Apply(s, e))
  {
    match e {
      case PttActs(chance) =>
        hide PttStep, Conserved, Ordered;
        PttKeepsOrdered(s, chance);
        PttConserves(s, chance);
      case PlayActs(go, late) =>
        hide PlayStep, Conserved, Ordered;
        PlayKeepsOrdered(s, go, late);
        if s.play.pc.Flush? { FlushConserves(s, go, late); }
        else if s.play.pc.Fetch? { FetchConserves(s, go, late); }
        else if s.play.pc.Write? { WriteConserves(s, go, late); }
        else { OtherActionsConserve(s, go, late); }
      case PlayAudio(bytes) =>
        hide AudioArrives, Conserved, Ordered;
        ArrivalConserves(s, bytes);
      case _ => CallbackConserves(s, e);
    }
  }

  lemma {:induction false} AlwaysConserved(events: seq<Event>)
    ensures Ordered(After(events)) && Conserved(After(events))
  {
    if events != [] {
      AlwaysConserved(events[..|events| - 1]);
      ApplyConserves(After(events[..|events| - 1]), events[|events| - 1]);
    }
  }

  // ---------------------------------------------------------------- late arrivals

  /** Between the count and the end of the pass. */
  predicate HasCounted(pc: PlayPc) { pc.Hold? || pc.Link? || pc.Ended? || pc.Drained? }

  /** An empty count stays true until PlayAudio accepts something, and a reply declared over on such a count
      left nothing unplayed. */
  predicate Counted(s: State) {
    && (HasCounted(s.play.pc) && s.play.queued == 0 && !s.hist.arrived ==> s.sh.queue == [] && s.play.pending == [])
    && (s.sh.done != 0 && !s.hist.late ==> s.sh.queue == [] && InHand(s.play) == [])
  }

  lemma FetchKeepsCounted(s: State, go: bool, late: bool)
    requires Conserved(s) && Counted(s) && s.play.pc.Fetch?
    ensures Counted(PlayStep(s, go, late))
  {
    hide BytesOf, Marked, MarkOf, Handed, Pausing, Deciding;
    FetchMoves(s.sh, s.play, go, late);
    hide InHand;
  }

  /** What an action that takes no chunk does to the count and to the end of the reply. */
  lemma ActionCounts(sh: Shared, l: Play, go: bool, late: bool)
    requires !l.pc.Flush? && !l.pc.Fetch?
    ensures var k := PlayLocal(sh, l, go, late);
      HasCounted(k.pc) ==> if l.pc.Count? then k.queued == |sh.queue| + |l.pending| else HasCounted(l.pc) && k.queued == l.queued
  {
    if PausingPc(l.pc) || DecidingPc(l.pc) {
      hide PlayLocal, Pausing, Deciding;
      PlayCases(sh, l, go, late);
      if DecidingPc(l.pc) { DecidingCounts(sh, l, go, late); } else { PausingCounts(sh, l); }
    } else {
      hide Pausing, Deciding, Fetched, CanPlay;
    }
  }

  lemma DecidingCounts(sh: Shared, l: Play, go: bool, late: bool)
    requires DecidingPc(l.pc)
    ensures var k := Deciding(sh, l, go, late);
      HasCounted(k.pc) ==> if l.pc.Count? then k.queued == |sh.queue| + |l.pending| else HasCounted(l.pc) && k.queued == l.queued
  {
  }

  lemma PausingCounts(sh: Shared, l: Play)
    requires PausingPc(l.pc)
    ensures var k := Pausing(sh, l); HasCounted(k.pc) ==> HasCounted(l.pc) && k.queued == l.queued
  {
  }

  lemma ActionEnds(sh: Shared, l: Play, late: bool)
    requires !l.pc.Flush? && !l.pc.Fetch?
    ensures PlayShared(sh, l, late).done == if l.pc.Drained? && DrainReady(l, late) then l.token.generation else sh.done
  {
  }

  lemma FlushKeepsCounted(s: State, go: bool, late: bool)
    requires s.play.pc.Flush?
    ensures Counted(PlayStep(s, go, late))
  {
    hide PlayHistory;
  }

  lemma ActionKeepsCounted(s: State, go: bool, late: bool)
    requires Conserved(s) && Counted(s) && !s.play.pc.Fetch? && !s.play.pc.Flush?
    ensures Counted(PlayStep(s, go, late))
  {
    hide PlayLocal, PlayShared, Conserved, Marked, MarkOf, Handed;
    ActionCounts(s.sh, s.play, go, late);
    ActionEnds(s.sh, s.play, late);
    if s.play.pc.Write? { WriteEmptiesHand(s.sh, s.play, go, late); } else { PlayKeepsHand(s.sh, s.play, go, late); }
  }

  lemma WriteEmptiesHand(sh: Shared, l: Play, go: bool, late: bool)
    requires l.pc.Write?
    ensures PlayLocal(sh, l, go, late).pending == [] && PlayLocal(sh, l, go, late).pc.Load?
  {
    hide Pausing, Deciding, Fetched, CanPlay;
  }

  lemma ApplyKeepsCounted(s: State, e: Event)
    requires Conserved(s) && Counted(s)
    ensures Counted(Apply(s, e))
  {
    match e {
      case PttActs(chance) => hide PttLocal, PttShared, PttHistory;
      case PlayActs(go, late) =>
        hide PlayStep, Conserved, Counted;
        if s.play.pc.Fetch? { FetchKeepsCounted(s, go, late); }
        else if s.play.pc.Flush? { FlushKeepsCounted(s, go, late); }
        else { ActionKeepsCounted(s, go, late); }
      case _ => hide BytesOf, ReplyData.Posted, ReplyData.Accepts, ReplyData.Bound;
    }
  }

  lemma {:induction false} AlwaysCounted(events: seq<Event>)
    ensures Counted(After(events))
  {
    if events != [] {
      AlwaysCounted(events[..|events| - 1]);
      AlwaysConserved(events[..|events| - 1]);
      hide Counted, Ordered, Conserved, Apply;
      ApplyKeepsCounted(After(events[..|events| - 1]), events[|events| - 1]);
    }
  }

  // ---------------------------------------------------------------- results

  /** Whatever the interleaving: what the codec got in a generation is a prefix of what PlayAudio accepted in
      that generation; in the buffer's own generation the rest is the chunk in hand and then the buffer. */
  lemma PlayedIsPrefix(events: seq<Event>, g: nat)
    ensures var s := After(events);
      && BytesOf(s.hist.handed, g) <= BytesOf(s.hist.accepted, g)
      && (g == s.sh.playGeneration ==>
            BytesOf(s.hist.accepted, g) == BytesOf(s.hist.handed, g) + InHand(s.play) + s.sh.queue)
      && (s.play.pc.Write? ==> s.play.token.generation == s.sh.playGeneration && |s.play.chunk| % 2 == 0)
  {
    hide After;
    AlwaysConserved(events);
  }

  /** When FinishReply succeeds, the unplayed rest of the reply is the chunk in hand, at most 640 bytes; and
      there is one only if PlayAudio accepted something after the play task counted the empty buffer and before
      it declared the reply over. */
  lemma FinishedReplyIsPlayed(events: seq<Event>)
    requires After(events).ptt.pc.Work? && Finishes(After(events).sh, After(events).ptt)
    ensures var s := After(events);
      var g := s.ptt.session.generation;
      && BytesOf(s.hist.accepted, g) == BytesOf(s.hist.handed, g) + InHand(s.play)
      && |InHand(s.play)| <= CHUNK_BYTES
      && (BytesOf(s.hist.accepted, g) != BytesOf(s.hist.handed, g) ==> s.hist.late)
  {
    hide After, Apply;
    AlwaysConserved(events);
    AlwaysCounted(events);
    var s := After(events);
    assert s.ptt.session.generation != 0;
    assert s.ptt.session.generation == s.sh.playGeneration;
    assert InHand(s.play) + s.sh.queue == InHand(s.play);
  }
}
