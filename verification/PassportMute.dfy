/** Whether the codec is muted while it takes a chunk: the first chunk of a generation is heard, and exactly
    which later ones are not, told by what the play task went through since the chunk before. */
module PassportMute {
  import opened Basics
  import opened VoiceSession
  import opened PassportVoice
  import opened PassportAudio

  // ---------------------------------------------------------------- the first chunk

  /** `priming` is down only once a chunk of the generation is on its way to the codec. */
  ghost predicate Primed(s: State) {
    var l := s.play;
    && (ChunkInHand(l.pc) ==> l.chunk != [])
    && (!l.priming ==> l.generation.Just? && (l.pc.Write? || BytesOf(s.hist.handed, l.generation.value) != []))
    && (l.pc.Write? && BytesOf(s.hist.handed, l.token.generation) == [] ==> !l.muted)
  }

  lemma PlayPrimes(sh: Shared, l: Play, go: bool, late: bool)
    requires !l.pc.Write? && !l.pc.Unmute? && (ChunkInHand(l.pc) ==> l.chunk != [])
    ensures var k := PlayLocal(sh, l, go, late);
      && (!k.priming ==> !l.priming && k.generation == l.generation)
      && !k.pc.Write? && (ChunkInHand(k.pc) ==> k.chunk != [])
  {
    if PausingPc(l.pc) || DecidingPc(l.pc) {
      hide PlayLocal, Pausing, Deciding;
      PlayCases(sh, l, go, late);
      if DecidingPc(l.pc) { DecidingPrimes(sh, l, go, late); } else { PausingPrimes(sh, l); }
    } else {
      hide Pausing, Deciding, CanPlay;
    }
  }

  lemma DecidingPrimes(sh: Shared, l: Play, go: bool, late: bool)
    requires DecidingPc(l.pc)
    ensures Deciding(sh, l, go, late).priming == l.priming
  {
  }

  lemma PausingPrimes(sh: Shared, l: Play)
    requires PausingPc(l.pc)
    ensures Pausing(sh, l).priming == l.priming
  {
  }

  lemma PlayKeepsPrimed(s: State, go: bool, late: bool)
    requires Ordered(s) && Conserved(s) && Primed(s)
    ensures Primed(PlayStep(s, go, late))
  {
    hide BytesOf, CanPlay, Ordered, Conserved, PlayLocal, PlayShared, Marked, MarkOf;
    if s.play.pc.Write? {
      WriteHands(s, go, late);
    } else if s.play.pc.Unmute? {
      UnmuteKeepsPrimed(s, go, late);
    } else {
      assert Handed(s.hist, s.play) == s.hist.handed;
      PlayPrimes(s.sh, s.play, go, late);
    }
  }

  lemma UnmuteKeepsPrimed(s: State, go: bool, late: bool)
    requires Ordered(s) && Primed(s) && s.play.pc.Unmute?
    ensures Primed(PlayStep(s, go, late))
  {
  }

  lemma WriteHands(s: State, go: bool, late: bool)
    requires Ordered(s) && Conserved(s) && Primed(s) && s.play.pc.Write?
    ensures Primed(PlayStep(s, go, late))
  {
    assert |s.play.chunk| >= 2;
    var bytes := s.play.chunk[..|s.play.chunk| / 2 * 2];
    assert |bytes| >= 2;
    assert BytesOf(Handed(s.hist, s.play), s.play.token.generation)
        == BytesOf(s.hist.handed, s.play.token.generation) + bytes;
  }

  lemma ApplyKeepsPrimed(s: State, e: Event)
    requires Ordered(s) && Conserved(s) && Primed(s)
    ensures Primed(Apply(s, e))
  {
    hide Ordered, Conserved;
    if e.PlayActs? {
      PlayKeepsPrimed(s, e.go, e.late);
    } else {
      OthersLeavePlay(s, e);
    }
  }

  /** Only the play task touches its own variables and what the codec was given. */
  lemma OthersLeavePlay(s: State, e: Event)
    requires !e.PlayActs?
    ensures Apply(s, e).play == s.play
    ensures Apply(s, e).hist.handed == s.hist.handed && Apply(s, e).hist.marks == s.hist.marks
  {
    hide PttLocal, PttShared, PttHistory;
  }

  lemma {:induction false} AlwaysPrimed(events: seq<Event>)
    ensures Primed(After(events))
  {
    if events != [] {
      AlwaysPrimed(events[..|events| - 1]);
      AlwaysConserved(events[..|events| - 1]);
      hide Primed, Ordered, Conserved;
      ApplyKeepsPrimed(After(events[..|events| - 1]), events[|events| - 1]);
    }
  }

  // ---------------------------------------------------------------- the chunks after it

  /** The n-th mark is the last chunk of these marks, with no new generation and no dry buffer after it. */
  predicate LastChunk(marks: seq<Mark>, n: int) {
    0 <= n < |marks| && marks[n].Chunk? && forall j :: n < j < |marks| ==> marks[j].Silenced?
  }

  /** The chunk after these marks is silent: the last chunk, with no new generation and no dry buffer since, was
      silent or its write failed, or the play task muted since. */
  ghost predicate SilencesNext(marks: seq<Mark>) {
    exists n :: LastChunk(marks, n) && (marks[n].silent || marks[n].failed || n + 1 < |marks|)
  }

  ghost predicate Open(marks: seq<Mark>) { exists n :: LastChunk(marks, n) }

  lemma {:induction false} MarkAdded(marks: seq<Mark>, m: Mark)
    ensures Open(marks + [m]) == (m.Chunk? || (m.Silenced? && Open(marks)))
    ensures SilencesNext(marks + [m]) == if m.Chunk? then m.silent || m.failed else m.Silenced? && Open(marks)
  {
    var more := marks + [m];
    forall n: int ensures LastChunk(more, n) == if m.Chunk? then n == |marks| else m.Silenced? && LastChunk(marks, n) {
      LastOfMore(marks, m, n);
    }
    if m.Chunk? { assert LastChunk(more, |marks|); }
    if m.Silenced? && Open(marks) {
      var n :| LastChunk(marks, n);
      assert LastChunk(more, n) && more[n] == marks[n];
    }
  }

  lemma LastOfMore(marks: seq<Mark>, m: Mark, n: int)
    ensures LastChunk(marks + [m], n) == if m.Chunk? then n == |marks| else m.Silenced? && LastChunk(marks, n)
  {
    var more := marks + [m];
    assert more[|marks|] == m;
    if 0 <= n < |marks| {
      assert more[n] == marks[n];
      if LastChunk(more, n) {
        forall j | n < j < |marks| ensures marks[j].Silenced? { assert more[j] == marks[j]; }
      }
    }
  }

  /** Every chunk so far was silent exactly when the marks before it silence the next. */
  ghost predicate Explained(marks: seq<Mark>) {
    forall i :: 0 <= i < |marks| && marks[i].Chunk? ==> marks[i].silent == SilencesNext(marks[..i])
  }

  lemma MarkExplained(marks: seq<Mark>, m: Mark)
    requires Explained(marks) && (m.Chunk? ==> m.silent == SilencesNext(marks))
    ensures Explained(marks + [m])
  {
    hide SilencesNext;
    forall i | 0 <= i < |marks + [m]| && (marks + [m])[i].Chunk?
      ensures (marks + [m])[i].silent == SilencesNext((marks + [m])[..i])
    {
      assert (marks + [m])[..i] == marks[..i] || i == |marks|;
      assert (marks + [m])[..|marks|] == marks;
    }
  }

  /** How the play task's own variables stand to its marks. A new generation mutes before it is marked. */
  ghost predicate Heard(l: Play, marks: seq<Mark>) {
    && Explained(marks)
    && (if l.pc.Write? then !l.priming && l.muted == SilencesNext(marks)
        else l.priming == !Open(marks) && (Open(marks) && !l.pc.Flush? ==> l.muted == SilencesNext(marks)))
  }
  /** What an action does to `muted` and `priming`, by the mark it leaves. */
  predicate Sounds(l: Play, m: Option<Mark>, k: Play) {
    && !k.pc.Write? && !k.pc.Flush? && m != Some(Renewed) && !(m.Some? && m.value.Chunk?)
    && (m == Some(Dry) ==> k.priming)
    && (m == Some(Silenced) ==> k.muted && k.priming == l.priming)
    && (m == None ==> k.muted == l.muted && k.priming == l.priming)
  }

  lemma PauseSounds(sh: Shared, l: Play, go: bool, late: bool)
    requires PausingPc(l.pc)
    ensures Sounds(l, MarkOf(sh, l, go, late), Pausing(sh, l))
  {
  }

  lemma DecisionSounds(sh: Shared, l: Play, go: bool, late: bool)
    requires DecidingPc(l.pc)
    ensures Sounds(l, MarkOf(sh, l, go, late), Deciding(sh, l, go, late))
  {
    hide DrainReady, GateOpens;
  }

  lemma FetchSounds(sh: Shared, l: Play, go: bool, late: bool)
    requires l.pc.Fetch?
    ensures Sounds(l, MarkOf(sh, l, go, late), Fetched(sh, l, late))
  {
  }

  lemma ActionSounds(sh: Shared, l: Play, go: bool, late: bool)
    requires PausingPc(l.pc) || DecidingPc(l.pc) || l.pc.Fetch? || l.pc.Check?
    ensures Sounds(l, MarkOf(sh, l, go, late), PlayLocal(sh, l, go, late))
  {
    if l.pc.Check? {
      hide Pausing, Deciding, Fetched, StillPlays;
    } else {
      hide PlayLocal, Pausing, Deciding, Fetched, MarkOf, Sounds;
      PlayCases(sh, l, go, late);
      if l.pc.Fetch? { FetchSounds(sh, l, go, late); }
      else if DecidingPc(l.pc) { DecisionSounds(sh, l, go, late); }
      else { PauseSounds(sh, l, go, late); }
    }
  }

  lemma ActionKeepsHeard(sh: Shared, l: Play, marks: seq<Mark>, go: bool, late: bool)
    requires PausingPc(l.pc) || DecidingPc(l.pc) || l.pc.Fetch? || l.pc.Check?
    requires Heard(l, marks)
    ensures Heard(PlayLocal(sh, l, go, late), Marked(marks, MarkOf(sh, l, go, late)))
  {
    hide PlayLocal, MarkOf, Open, SilencesNext, Explained;
    ActionSounds(sh, l, go, late);
    var m := MarkOf(sh, l, go, late);
    if m.Some? {
      MarkAdded(marks, m.value);
      MarkExplained(marks, m.value);
      OpenFirst(marks);
    }
  }

  lemma OpenFirst(marks: seq<Mark>)
    ensures SilencesNext(marks) ==> Open(marks)
  {
  }

  lemma PlayKeepsHeard(sh: Shared, l: Play, marks: seq<Mark>, go: bool, late: bool)
    requires Heard(l, marks)
    ensures Heard(PlayLocal(sh, l, go, late), Marked(marks, MarkOf(sh, l, go, late)))
  {
    if PausingPc(l.pc) || DecidingPc(l.pc) || l.pc.Fetch? || l.pc.Check? {
      hide Heard;
      ActionKeepsHeard(sh, l, marks, go, late);
    } else {
      hide Open, SilencesNext, Explained, Pausing, Deciding, Fetched, CanPlay;
      OpenFirst(marks);
      var m := MarkOf(sh, l, go, late);
      if m.Some? {
        MarkAdded(marks, m.value);
        MarkExplained(marks, m.value);
      }
    }
  }

  lemma {:induction false} AlwaysHeard(events: seq<Event>)
    ensures Heard(After(events).play, After(events).hist.marks)
  {
    if events == [] {
      assert forall n :: !LastChunk([], n);
    } else {
      var before, e := After(events[..|events| - 1]), events[|events| - 1];
      AlwaysHeard(events[..|events| - 1]);
      hide Heard, PlayLocal, Marked, MarkOf;
      if e.PlayActs? {
        PlayKeepsHeard(before.sh, before.play, before.hist.marks, e.go, e.late);
      } else {
        hide Apply;
        OthersLeavePlay(before, e);
      }
    }
  }

  lemma SilentRun(marks: seq<Mark>, i: nat, j: nat)
    requires Explained(marks) && i < j < |marks| && marks[i].Chunk? && marks[i].silent && marks[j].Chunk?
    requires forall k :: i < k < j ==> !marks[k].Renewed? && !marks[k].Dry?
    ensures marks[j].silent
    decreases j - i
  {
    if k :| i < k < j && marks[k].Chunk? {
      SilentRun(marks, i, k);
      SilentRun(marks, k, j);
    } else {
      assert LastChunk(marks[..j], i);
      assert marks[..j][i] == marks[i];
      assert SilencesNext(marks[..j]);
    }
  }

  // ---------------------------------------------------------------- results

  lemma Then(events: seq<Event>, e: Event)
    ensures After(events + [e]) == Apply(After(events), e)
  {
    hide Apply;
    assert (events + [e])[..|events + [e]| - 1] == events;
  }

  /** Over every run: a chunk reaches the codec muted if and only if, since the last chunk, no generation began
      and the buffer did not run dry, and that chunk was silent or failed or the play task muted since. */
  lemma ChunkIsSilentIff(events: seq<Event>, i: nat)
    requires i < |After(events).hist.marks| && After(events).hist.marks[i].Chunk?
    ensures var marks := After(events).hist.marks;
      marks[i].silent <==>
        exists n :: LastChunk(marks[..i], n) && (marks[n].silent || marks[n].failed || n + 1 < i)
  {
    hide After;
    AlwaysHeard(events);
    var marks := After(events).hist.marks;
    assert marks[i].silent == SilencesNext(marks[..i]);
    assert forall n :: LastChunk(marks[..i], n) ==> marks[..i][n] == marks[n];
  }

  /** Once a chunk is silent every later one is, up to a dry buffer or a new generation. */
  lemma StaysSilent(events: seq<Event>, i: nat, j: nat)
    requires var marks := After(events).hist.marks;
      && i < j < |marks| && marks[i].Chunk? && marks[i].silent && marks[j].Chunk?
      && forall k :: i < k < j ==> !marks[k].Renewed? && !marks[k].Dry?
    ensures After(events).hist.marks[j].silent
  {
    hide After;
    AlwaysHeard(events);
    SilentRun(After(events).hist.marks, i, j);
  }

  /** The first chunk of every generation is heard. */
  lemma FirstChunkIsHeard(events: seq<Event>)
    requires var s := After(events); s.play.pc.Write? && BytesOf(s.hist.handed, s.play.token.generation) == []
    ensures !After(events).play.muted
  {
    hide After;
    AlwaysPrimed(events);
  }
}
