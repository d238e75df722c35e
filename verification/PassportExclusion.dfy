/** The microphone never records the reply: what PauseSpeaker, the hold flag, publishing before release and
    the check under the lock achieve together, over every interleaving. */
module PassportExclusion {
  import opened VoiceSession
  import opened PassportVoice

  /** From the check under the lock to the return of WritePcm. */
  predicate Window(pc: PlayPc) { pc.Unmute? || pc.Write? }

  predicate Quiet(s: State) { !Window(s.play.pc) && s.play.muted }

  predicate Publishing(p: Ptt) { p.pc.Publish? || p.pc.Store? }

  /** Outside PublishSession the published token is the session's. */
  predicate TokenCurrent(s: State) { Publishing(s.ptt) || s.sh.token == s.ptt.session.Published() }

  /** The play task has answered this pause, or is about to. */
  predicate Answered(s: State) {
    s.sh.ack == s.ptt.ticket || (s.play.pc.AckStore? && s.play.acked == s.ptt.ticket)
  }

  predicate Excluded(s: State) {
    && TokenCurrent(s)
    && (s.sh.token.state == Listening ==> Quiet(s))
    && (Publishing(s.ptt) && s.ptt.session.state == Listening ==> s.sh.hold && Quiet(s))
    && (s.ptt.pc.Ticket? ==> s.sh.hold)
    && (s.ptt.pc.Await? ==> s.sh.hold && s.ptt.ticket == s.sh.request && (Answered(s) ==> Quiet(s)))
    && s.sh.ack <= s.sh.request
    && (s.play.pc.AckStore? ==> s.play.acked <= s.sh.request)
    && (s.play.pc.AckLoad? || s.play.pc.AckStore? ==> s.play.muted)
    && (s.ptt.mic ==> Recording(s.ptt))
    && Online(s.ptt)
  }

  predicate TalkPending(pc: PttPc) { (pc.Pause? || pc.Ticket? || pc.Await?) && pc.why == Talk }

  predicate Starting(pc: PttPc) {
    pc == Publish(ToUnhold) || pc == Store(ToUnhold) || pc.Unhold? || pc.StartMic? || pc.OpenStream?
  }

  /** A press leads to Listening because the loop has just seen the link. */
  predicate Online(p: Ptt) {
    && (p.ready && !p.pc.Top? && !p.pc.Connect? ==> p.session.state != Disconnected)
    && (TalkPending(p.pc) ==> p.ready)
    && (Starting(p.pc) ==> p.session.state == Listening)
    && (p.pc.Await? || p.pc.Pause? || p.pc.Ticket? ==> p.pc.why != Failing(ToUnhold))
  }

  /** The places of the button task where the microphone may be on. */
  predicate Recording(p: Ptt) {
    && p.session.state == Listening
    && (p.pc.OpenStream? || p.pc.Top? || p.pc.Connect? || p.pc.TakeReplies? || p.pc.DrainReply? || p.pc.Work? || p.pc.Button?)
    && (p.pc.Connect? ==> p.ready)
  }

  lemma PttRunsExcluded(s: State, c: Chance)
    requires Excluded(s) && (s.ptt.pc.Top? || s.ptt.pc.Connect? || s.ptt.pc.DrainReply?)
    ensures Excluded(PttStep(s, c))
  {
  }

  lemma PttWorksExcluded(s: State, c: Chance)
    requires Excluded(s) && s.ptt.pc.Work?
    ensures Excluded(PttStep(s, c))
  {
    hide AfterButton, AfterTake, Paused, AfterStep, Finishes, PttHistory;
  }

  lemma PttButtonExcluded(s: State, c: Chance)
    requires Excluded(s) && s.ptt.pc.Button?
    ensures Excluded(PttStep(s, c))
  {
    hide AfterWork, AfterTake, Paused;
  }

  lemma PttTakesExcluded(s: State, c: Chance)
    requires Excluded(s) && s.ptt.pc.TakeReplies?
    ensures Excluded(PttStep(s, c))
  {
    hide ReplyData.Taken, ReplyData.Bound, Commands.Terminal;
  }

  lemma PttPausesExcluded(s: State, c: Chance)
    requires Excluded(s) && (s.ptt.pc.Pause? || s.ptt.pc.Ticket? || s.ptt.pc.Await?)
    ensures Excluded(PttStep(s, c))
  {
    hide AfterWork, AfterButton, AfterTake, PttHistory;
  }

  lemma PttPublishesExcluded(s: State, c: Chance)
    requires Excluded(s) && (s.ptt.pc.Publish? || s.ptt.pc.Store?)
    ensures Excluded(PttStep(s, c))
  {
  }

  lemma PttListensExcluded(s: State, c: Chance)
    requires Excluded(s) && (s.ptt.pc.Unhold? || s.ptt.pc.StartMic? || s.ptt.pc.OpenStream? || s.ptt.pc.CloseStream?)
    ensures Excluded(PttStep(s, c))
  {
  }

  lemma PttKeepsExcluded(s: State, c: Chance)
    requires Excluded(s)
    ensures Excluded(PttStep(s, c))
  {
    hide PttStep, Excluded;
    match s.ptt.pc {
      case Top => PttRunsExcluded(s, c);
      case Connect => PttRunsExcluded(s, c);
      case TakeReplies => PttTakesExcluded(s, c);
      case DrainReply => PttRunsExcluded(s, c);
      case Work => PttWorksExcluded(s, c);
      case Button => PttButtonExcluded(s, c);
      case Pause(_) => PttPausesExcluded(s, c);
      case Ticket(_) => PttPausesExcluded(s, c);
      case Await(_) => PttPausesExcluded(s, c);
      case Publish(_) => PttPublishesExcluded(s, c);
      case Store(_) => PttPublishesExcluded(s, c);
      case _ => PttListensExcluded(s, c);
    }
  }

  predicate Acking(pc: PlayPc) { pc.Mute? || pc.AckLoad? || pc.AckStore? }

  lemma PlayAcksExcluded(s: State, go: bool, late: bool)
    requires Excluded(s) && Acking(s.play.pc)
    ensures Excluded(PlayStep(s, go, late))
  {
    hide Pausing;
  }

  lemma PlayWritesExcluded(s: State, go: bool, late: bool)
    requires Excluded(s) && (s.play.pc.Check? || Window(s.play.pc))
    ensures Excluded(PlayStep(s, go, late))
  {
  }

  /** The other actions end outside the window, neither acknowledge nor unmute, and touch nothing else here. */
  lemma PlayIdles(sh: Shared, l: Play, go: bool, late: bool)
    requires !Acking(l.pc) && !l.pc.Check? && !Window(l.pc)
    ensures var k, t := PlayLocal(sh, l, go, late), PlayShared(sh, l, late);
      && !Window(k.pc) && (l.muted ==> k.muted) && !k.pc.AckLoad? && !k.pc.AckStore? && t.ack == sh.ack
  {
    if l.pc.Hold? || l.pc.Link? {
      hide Deciding, Fetched, CanPlay;
    } else {
      hide Pausing, Deciding, Fetched, CanPlay;
      PlayIdlesHere(sh, l, go, late);
    }
  }

  lemma PlayIdlesHere(sh: Shared, l: Play, go: bool, late: bool)
    requires !PausingPc(l.pc) && !l.pc.Check? && !Window(l.pc)
    ensures var k := PlayLocal(sh, l, go, late);
      !Window(k.pc) && (l.muted ==> k.muted) && !k.pc.AckLoad? && !k.pc.AckStore?
  {
    hide Pausing, Deciding, Fetched, CanPlay;
  }

  lemma PlayIdlesExcluded(s: State, go: bool, late: bool)
    requires Excluded(s) && !Acking(s.play.pc) && !s.play.pc.Check? && !Window(s.play.pc)
    ensures Excluded(PlayStep(s, go, late))
  {
    hide PlayLocal, PlayShared, PlayHistory;
    PlayIdles(s.sh, s.play, go, late);
  }

  lemma PlayKeepsExcluded(s: State, go: bool, late: bool)
    requires Excluded(s)
    ensures Excluded(PlayStep(s, go, late))
  {
    hide PlayStep, Excluded;
    if Acking(s.play.pc) { PlayAcksExcluded(s, go, late); }
    else if s.play.pc.Check? || Window(s.play.pc) { PlayWritesExcluded(s, go, late); }
    else { PlayIdlesExcluded(s, go, late); }
  }

  lemma ApplyKeepsExcluded(s: State, e: Event)
    requires Excluded(s)
    ensures Excluded(Apply(s, e))
  {
    match e {
      case PttActs(chance) =>
        hide PttStep, Excluded;
        PttKeepsExcluded(s, chance);
      case PlayActs(go, late) =>
        hide PlayStep, Excluded;
        PlayKeepsExcluded(s, go, late);
      case _ => hide ReplyData.Posted, ReplyData.Accepts, ReplyData.Bound;
    }
  }

  lemma {:induction false} AlwaysExcluded(events: seq<Event>)
    ensures Excluded(After(events))
  {
    if events != [] {
      AlwaysExcluded(events[..|events| - 1]);
      ApplyKeepsExcluded(After(events[..|events| - 1]), events[|events| - 1]);
    }
  }

  /** While the published token says Listening the play task is not between its locked check and the end of
      the write, and the codec is muted; and the microphone is on only then. */
  lemma SpeakerExcludesMicrophone(events: seq<Event>)
    ensures var s := After(events);
      && (s.sh.token.state == Listening ==> !Window(s.play.pc) && s.play.muted)
      && (s.ptt.mic ==> s.sh.token.state == Listening && s.ptt.session.state == Listening)
  {
    hide After;
    AlwaysExcluded(events);
  }
}
