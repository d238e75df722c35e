/** Two concrete runs: a reply that is played to a muted codec, and a reply that finishes with its last chunk
    still in the play task's hand. */
module PassportWitness {
  import opened Basics
  import opened VoiceSession
  import opened PassportVoice
  import opened PassportAudio
  import opened PassportMute
  import PassportExclusion

  const IDLE := Chance(false, false, false, false, false)
  const PRESS := Chance(false, false, false, true, false)
  const SEND := Chance(false, false, false, false, true)

  /** Of each chunk so far, whether it was silent. */
  function Silents(marks: seq<Mark>): seq<bool> {
    if marks == [] then [] else
      var m := marks[|marks| - 1];
      Silents(marks[..|marks| - 1]) + (if m.Chunk? then [m.silent] else [])
  }

  function SilentChunks(s: State): seq<bool> { Silents(s.hist.marks) }

  /** The button task did nothing and no chunk was handed over. */
  predicate SameBut(s: State, t: State) { t.ptt == s.ptt && SilentChunks(t) == SilentChunks(s) }

  ghost predicate Reachable(s: State) { exists events :: After(events) == s }

  lemma Do(s: State, e: Event) returns (t: State)
    requires Reachable(s)
    ensures Reachable(t) && t == Apply(s, e) && (!e.PlayActs? ==> SilentChunks(t) == SilentChunks(s))
  {
    if !e.PlayActs? { OthersLeavePlay(s, e); }
    t := Apply(s, e);
    var events :| After(events) == s;
    Then(events, e);
    assert After(events + [e]) == t;
  }

  lemma PttActing(s: State, c: Chance) returns (t: State)
    requires Reachable(s)
    ensures Reachable(t) && t == PttStep(s, c)
  {
    hide PttStep, Reachable;
    t := Do(s, PttActs(c));
  }

  lemma Playing(s: State, late: bool) returns (t: State)
    requires Reachable(s)
    ensures Reachable(t) && t.ptt == s.ptt && t.sh == PlayShared(s.sh, s.play, late) && t.play == PlayLocal(s.sh, s.play, true, late)
    ensures SilentChunks(t) == if s.play.pc.Write? then SilentChunks(s) + [s.play.muted] else SilentChunks(s)
  {
    hide Reachable;
    t := Do(s, PlayActs(true, late));
    hide PlayLocal, PlayShared;
    assert s.hist.marks + [Chunk(s.play.muted, late)] == s.hist.marks + [Chunk(s.play.muted, late)];
  }

  // ---------------------------------------------------------------- pieces of the button task

  lemma GoesOnline(s: State) returns (t: State)
    requires Reachable(s) && s.ptt.pc.Top? && s.sh.link && s.ptt.session.state == Disconnected
    ensures Reachable(t)
    ensures var session := SessionData(Ready, s.ptt.session.generation + 1, false);
      t == s.(ptt := s.ptt.(pc := Publish(ToTake), ready := true, session := session))
  {
    hide Reachable;
    t := PttActing(s, IDLE);
    t := PttActing(t, IDLE);
  }

  lemma Publishes(s: State) returns (t: State)
    requires Reachable(s) && s.ptt.pc.Publish?
    ensures Reachable(t)
    ensures var token := s.ptt.session.Published();
      t == s.(ptt := Goto(s.ptt, s.ptt.pc.next),
              sh := s.sh.(uiToken := token, rendered := NO_TOKEN, token := token, replies := s.sh.replies.Bound(token)))
  {
    hide Reachable;
    t := PttActing(s, IDLE);
    t := PttActing(t, IDLE);
  }

  /** Nothing to take, and a session that waits for no reply. */
  lemma LooksAround(s: State) returns (t: State)
    requires Reachable(s) && s.ptt.pc.TakeReplies? && !s.ptt.end && !Waiting(s.ptt.session.state)
    requires s.sh.replies.generation == s.ptt.session.generation && s.sh.replies.pending == NO_COMMANDS
    ensures Reachable(t) && t.play == s.play && t.sh == s.sh && SilentChunks(t) == SilentChunks(s)
    ensures t.ptt == s.ptt.(pc := Button, generation := s.ptt.session.generation)
  {
    hide Reachable;
    t := PttActing(s, IDLE);
    t := PttActing(t, IDLE);
    t := PttActing(t, IDLE);
  }

  lemma AsksForQuiet(s: State) returns (t: State)
    requires Reachable(s) && s.ptt.pc.Button? && s.ptt.session.state == Ready && s.ptt.ready
    ensures Reachable(t)
    ensures var ticket := s.sh.request + 1;
      t == s.(ptt := s.ptt.(pc := Await(Talk), ticket := ticket), sh := s.sh.(hold := true, request := ticket))
  {
    hide Reachable, AfterTake, AfterWork, Paused;
    t := PttActing(s, PRESS);
    hide AfterButton;
    t := PttActing(t, IDLE);
    t := PttActing(t, IDLE);
  }

  lemma Listens(s: State) returns (t: State)
    requires Reachable(s) && s.ptt.pc == Await(Talk) && s.sh.ack == s.ptt.ticket && s.ptt.session.state == Ready
    ensures Reachable(t) && t.play == s.play && t.hist == s.hist
    ensures t.ptt == s.ptt.(pc := Unhold, session := SessionData(Listening, s.ptt.session.generation + 1, false))
    ensures var token := t.ptt.session.Published();
      t.sh == s.sh.(uiToken := token, rendered := NO_TOKEN, token := token, replies := s.sh.replies.Bound(token))
  {
    hide Reachable;
    t := PttActing(s, IDLE);
    hide PttStep;
    t := Publishes(t);
  }

  /** The microphone starts and the loop comes round to the replies. */
  lemma Records(s: State) returns (t: State)
    requires Reachable(s) && s.ptt.pc.Unhold?
    ensures Reachable(t) && t == s.(ptt := s.ptt.(pc := Top, mic := true), sh := s.sh.(hold := false))
  {
    hide Reachable, AfterTake, AfterWork, AfterButton, Paused;
    t := PttActing(s, IDLE);
    t := PttActing(t, IDLE);
    t := PttActing(t, IDLE);
  }

  lemma ComesRound(s: State) returns (t: State)
    requires Reachable(s) && s.ptt.pc.Top? && s.sh.link && s.ptt.session.state != Disconnected
    ensures Reachable(t) && t == s.(ptt := s.ptt.(pc := TakeReplies, ready := true))
  {
    hide Reachable;
    t := PttActing(s, IDLE);
    t := PttActing(t, IDLE);
  }

  lemma Sends(s: State) returns (t: State)
    requires Reachable(s) && s.ptt.pc.Button? && s.ptt.session.state == Listening
    ensures Reachable(t) && t.play == s.play && t.hist == s.hist
    ensures t.ptt == s.ptt.(pc := Top, mic := false, session := s.ptt.session.(state := Thinking))
    ensures var token := t.ptt.session.Published();
      t.sh == s.sh.(uiToken := token, rendered := NO_TOKEN, token := token, replies := s.sh.replies.Bound(token))
  {
    hide Reachable;
    t := PttActing(s, SEND);
    assert t.ptt.pc == Publish(ToClose);
    assert t.hist == s.hist;
    hide PttStep;
    t := Publishes(t);
    t := Closes(t);
  }

  lemma Closes(s: State) returns (t: State)
    requires Reachable(s) && s.ptt.pc.CloseStream?
    ensures Reachable(t) && t == s.(ptt := s.ptt.(pc := Top))
  {
    hide Reachable;
    t := PttActing(s, IDLE);
  }

  lemma Drains(s: State) returns (t: State)
    requires Reachable(s) && s.ptt.pc.DrainReply? && s.ptt.end && s.ptt.session.CanDrain(s.ptt.generation)
    ensures Reachable(t) && t.play == s.play && t.sh == s.sh && SilentChunks(t) == SilentChunks(s)
    ensures t.ptt == s.ptt.(pc := Work, end := false, session := s.ptt.session.(draining := true))
  {
    hide Reachable;
    t := PttActing(s, IDLE);
  }

  /** Start and End are taken together; the session speaks and drains. */
  lemma TakesReply(s: State) returns (t: State)
    requires Reachable(s) && s.ptt.pc.TakeReplies? && s.ptt.session.state == Thinking && !s.ptt.session.draining
    requires s.sh.replies.generation == s.ptt.session.generation
    requires s.sh.replies.pending == NO_COMMANDS.(start := true, end := true)
    ensures Reachable(t) && t.play == s.play && SilentChunks(t) == SilentChunks(s)
    ensures t.ptt == s.ptt.(pc := Work, generation := s.ptt.session.generation, end := false,
                            session := s.ptt.session.(state := Speaking, draining := true))
    ensures var token := t.ptt.session.Published();
      t.sh == s.sh.(uiToken := token, rendered := NO_TOKEN, token := token,
                    replies := s.sh.replies.(pending := NO_COMMANDS))
  {
    hide Reachable;
    t := PttActing(s, IDLE);
    assert t.ptt == s.ptt.(pc := Publish(ToDrain), generation := s.ptt.session.generation, end := true,
                           session := s.ptt.session.(state := Speaking));
    hide PttStep;
    t := Publishes(t);
    t := Drains(t);
  }

  // ---------------------------------------------------------------- pieces of the play task

  lemma MeetsGeneration(s: State) returns (t: State)
    requires Reachable(s) && s.play.pc.Load? && s.play.generation != Just(s.sh.token.generation)
    ensures Reachable(t)
    ensures var g := s.sh.token.generation;
      && SameBut(s, t)
      && t.play == s.play.(pc := Count, token := s.sh.token, generation := Just(g), muted := true, priming := true, pending := [])
      && t.sh == s.sh.(queue := [], playGeneration := g, audioEnded := false, done := 0)
  {
    hide Reachable, Silents;
    t := Playing(s, false);
    t := Playing(t, false);
  }

  lemma MeetsTokenAgain(s: State) returns (t: State)
    requires Reachable(s) && s.play.pc.Load? && s.play.generation == Just(s.sh.token.generation)
    ensures Reachable(t) && SameBut(s, t) && t.sh == s.sh && t.play == s.play.(pc := Count, token := s.sh.token)
  {
    hide Reachable, Silents;
    t := Playing(s, false);
  }

  lemma Counts(s: State) returns (t: State)
    requires Reachable(s) && s.play.pc.Count?
    ensures Reachable(t) && SameBut(s, t) && t.sh == s.sh
    ensures t.play == s.play.(pc := Hold, queued := |s.sh.queue| + |s.play.pending|)
  {
    hide Reachable, Silents, Pausing, Fetched, CanPlay;
    t := Playing(s, false);
  }

  lemma AnswersPause(s: State) returns (t: State)
    requires Reachable(s) && s.play.pc.Count? && s.sh.hold
    ensures Reachable(t) && SameBut(s, t) && t.sh == s.sh.(ack := s.sh.request)
    ensures t.play.pc.Load? && t.play.generation == s.play.generation && t.play.pending == s.play.pending
  {
    hide Reachable, Silents, Deciding, Fetched, CanPlay;
    t := Counts(s);
    t := Playing(t, false);
    assert t.play.pc.Mute?;
    t := Playing(t, false);
    t := Playing(t, false);
    t := Playing(t, false);
  }

  /** Nothing holds the speaker. */
  lemma PassesHold(s: State) returns (t: State)
    requires Reachable(s) && s.play.pc.Count? && !s.sh.hold && s.sh.link && AcceptsAudio(s.play.token)
    ensures Reachable(t) && SameBut(s, t) && t.sh == s.sh
    ensures t.play == s.play.(pc := Ended, queued := |s.sh.queue| + |s.play.pending|)
  {
    hide Reachable, Silents;
    t := Playing(s, false);
    t := Playing(t, false);
    t := Playing(t, false);
  }

  lemma IsNotOver(s: State) returns (t: State)
    requires Reachable(s) && s.play.pc.Ended? && (s.play.queued > 0 || s.play.token.state == Thinking)
    ensures Reachable(t) && SameBut(s, t) && t.sh == s.sh
    ensures t.play == s.play.(pc := Gate, ended := s.sh.audioEnded, formal := s.sh.replies.Started(s.play.token))
  {
    hide Reachable, Silents;
    t := Playing(s, false);
    t := Playing(t, false);
    t := Playing(t, false);
  }

  /** The buffer holds one chunk and the check passes. */
  lemma FetchesChunk(s: State) returns (t: State)
    requires Reachable(s) && s.play.pc.Gate? && (s.play.token.state == Speaking || !s.play.formal) && s.play.queued > 0
    requires s.play.pending == [] && 0 < |s.sh.queue| <= CHUNK_BYTES
    ensures Reachable(t) && SameBut(s, t) && t.play == s.play.(pc := Check, chunk := s.sh.queue) && t.sh == s.sh.(queue := [])
  {
    hide Reachable, Silents;
    t := Playing(s, false);
    t := Playing(t, false);
  }

  lemma HandsChunk(s: State) returns (t: State)
    requires Reachable(s) && s.play.pc.Check? && s.sh.token == s.play.token
    requires CanPlay(s.play.token, s.sh.rendered == s.play.token, s.sh.link, s.sh.hold, s.sh.replies.Started(s.play.token))
    ensures Reachable(t) && t.ptt == s.ptt && t.sh == s.sh
    ensures var muted := s.play.muted && !s.play.priming;
      && t.play == s.play.(pc := Load, muted := muted, priming := false, pending := [])
      && SilentChunks(t) == SilentChunks(s) + [muted]
  {
    hide Reachable, Silents;
    t := Playing(s, false);
    t := Playing(t, false);
    t := Playing(t, false);
  }

  // ---------------------------------------------------------------- the runs

  const SILENCE: seq<Byte> := [0, 0]

  /** One sample of the reply arrives and the play task fetches it. */
  lemma FetchesReply(s: State) returns (t: State)
    requires Reachable(s) && s.play.pc.Count? && s.play.token == s.sh.token && s.play.pending == []
    requires AudioWelcome(s.sh, SILENCE) && s.sh.queue == []
    requires s.sh.token.state == Speaking || !s.sh.replies.started
    ensures Reachable(t) && SameBut(s, t)
    ensures t.sh == s.sh.(audioEnded := s.sh.audioEnded && s.sh.replies.Ended(s.sh.token), done := 0)
    ensures t.play == s.play.(pc := Check, chunk := SILENCE, queued := 2, ended := t.sh.audioEnded,
                              formal := s.sh.replies.Started(s.sh.token))
  {
    hide Reachable, Silents;
    t := Do(s, PlayAudio(SILENCE));
    t := PassesHold(t);
    t := IsNotOver(t);
    t := FetchesChunk(t);
  }

  /** The link comes up, the button is pressed and the microphone runs. */
  lemma Talking() returns (s: State)
    ensures Reachable(s) && s.ptt.pc.Top? && s.ptt.session == SessionData(Listening, 2, false) && !s.ptt.end
    ensures s.sh.token == Token(2, Listening) && s.sh.replies == ReplyData(2, NO_COMMANDS, false, false, false)
    ensures s.sh.link && !s.sh.hold && s.play.pc.Load? && s.play.generation == Just(1) && SilentChunks(s) == []
  {
    assert After([]) == INITIAL && SilentChunks(INITIAL) == [];
    hide Reachable, Silents;
    s := Do(INITIAL, LinkStatus(true));
    s := GoesOnline(s);
    s := Publishes(s);
    s := LooksAround(s);
    s := AsksForQuiet(s);
    s := MeetsGeneration(s);
    s := AnswersPause(s);
    s := Listens(s);
    s := Records(s);
  }

  /** The utterance is sent; a first chunk is heard before the reply formally starts; Start silences the play
      task until the session speaks. */
  lemma Speaks() returns (s: State)
    ensures Reachable(s) && s.ptt.pc.Work? && s.ptt.session == SessionData(Speaking, 2, true) && s.ptt.generation == 2
    ensures s.sh.token == Token(2, Speaking) && s.sh.rendered == s.sh.token && s.sh.link && !s.sh.hold
    ensures s.sh.replies == ReplyData(2, NO_COMMANDS, true, true, false) && s.sh.audioEnded
    ensures s.sh.playGeneration == 2 && s.sh.queue == []
    ensures s.play.pc.Load? && s.play.generation == Just(2) && s.play.pending == [] && s.play.muted && !s.play.priming
    ensures SilentChunks(s) == [false]
  {
    hide Reachable, Silents;
    s := Talking();
    s := ComesRound(s);
    s := LooksAround(s);
    s := Sends(s);
    s := MeetsGeneration(s);
    s := Do(s, Rendered);
    s := FetchesReply(s);
    s := HandsChunk(s);
    assert SilentChunks(s) == [false];
    s := SilencedByStart(s);
    s := ComesRound(s);
    s := TakesReply(s);
    s := Do(s, Rendered);
  }

  /** Audio is queued, Start and End arrive, and the next pass mutes. */
  lemma SilencedByStart(s: State) returns (t: State)
    requires Reachable(s) && s.sh.token.state == Thinking && s.sh.replies == ReplyData(s.sh.token.generation, NO_COMMANDS, false, false, false)
    requires s.play.pc.Load? && s.play.generation == Just(s.sh.token.generation) && s.play.pending == [] && s.sh.queue == []
    requires s.sh.link && !s.sh.hold
    ensures Reachable(t) && SameBut(s, t)
    ensures t.sh == s.sh.(audioEnded := true, replies := s.sh.replies.(pending := NO_COMMANDS.(start := true, end := true), started := true, ended := true))
    ensures t.play.pc.Load? && t.play.generation == s.play.generation && t.play.pending == [] && t.play.muted
    ensures t.play.priming == s.play.priming
  {
    hide Reachable, Silents;
    t := CommandsArrive(s);
    t := MeetsTokenAgain(t);
    t := PassesHold(t);
    t := IsNotOver(t);
    t := GateShuts(t);
  }

  lemma CommandsArrive(s: State) returns (t: State)
    requires Reachable(s) && s.sh.token.state == Thinking && s.sh.replies == ReplyData(s.sh.token.generation, NO_COMMANDS, false, false, false)
    ensures Reachable(t) && t.ptt == s.ptt && t.play == s.play && SilentChunks(t) == SilentChunks(s)
    ensures t.sh == s.sh.(audioEnded := true, replies := s.sh.replies.(pending := NO_COMMANDS.(start := true, end := true), started := true, ended := true))
  {
    hide Reachable, Silents;
    t := Do(s, VoiceReply(2));
    t := Do(t, VoiceReply(3));
  }

  lemma GateShuts(s: State) returns (t: State)
    requires Reachable(s) && s.play.pc.Gate? && s.play.token.state == Thinking && s.play.formal
    ensures Reachable(t) && SameBut(s, t) && t.sh == s.sh && t.play == s.play.(muted := true, pc := Load)
  {
    hide Reachable, Silents;
    t := Playing(s, false);
  }

  /** The play task has counted an empty buffer; a sample arrives; the play task declares the reply over. */
  lemma DeclaresOver(s: State) returns (t: State)
    requires Reachable(s) && s.play.pc.Ended? && s.play.token == s.sh.token && s.play.queued == 0 && s.sh.queue == []
    requires AudioWelcome(s.sh, SILENCE) && s.sh.token.state == Speaking && s.sh.audioEnded && s.sh.replies.Ended(s.sh.token)
    ensures Reachable(t) && t.ptt == s.ptt && t.sh == s.sh.(queue := SILENCE, done := s.sh.token.generation)
    ensures t.play == s.play.(pc := Load, ended := true, muted := true)
  {
    hide Reachable, Silents;
    t := Playing(s, false);
    t := Do(t, PlayAudio(SILENCE));
    t := Playing(t, true);
  }

  /** A chunk of the reply is written to a muted codec, although nothing holds the speaker: the Start that
      arrived while an early chunk was playing muted the codec and left `priming` down. */
  lemma ReplyPlayedMuted()
    ensures exists events :: SilentChunks(After(events)) == [false, true]
  {
    var s := Speaks();
    s := MeetsTokenAgain(s);
    s := FetchesReply(s);
    s := HandsChunk(s);
    var events :| After(events) == s;
  }

  lemma HoldsChunkAtEnd() returns (s: State)
    ensures Reachable(s) && s.ptt.pc.Work? && Finishes(s.sh, s.ptt) && InHand(s.play) == SILENCE
  {
    hide Reachable, PlayStep, Apply;
    s := Speaks();
    s := MeetsTokenAgain(s);
    s := PassesHold(s);
    s := DeclaresOver(s);
    s := MeetsTokenAgain(s);
    s := PassesHold(s);
    s := IsNotOver(s);
    s := FetchesChunk(s);
  }

  /** FinishReply can succeed while the play task holds a chunk: audio arrived after the play task counted an
      empty buffer and before it declared the reply over. */
  lemma ReplyFinishedUnplayed()
    ensures exists events :: var s := After(events);
      s.ptt.pc.Work? && Finishes(s.sh, s.ptt) && InHand(s.play) == SILENCE
  {
    hide Finishes, InHand;
    var s := HoldsChunkAtEnd();
    var events :| After(events) == s;
  }

  /** The button task finds the reply played out. */
  lemma Concludes(s: State) returns (t: State)
    requires Reachable(s) && s.ptt.pc.Work? && Finishes(s.sh, s.ptt) && s.ptt.session.state == Speaking
    ensures Reachable(t) && t.play == s.play && SilentChunks(t) == SilentChunks(s) && t.sh.queue == s.sh.queue
    ensures t.sh.playGeneration == s.sh.playGeneration
    ensures t.ptt == s.ptt.(pc := Button, session := SessionData(Ready, s.ptt.session.generation + 1, false))
  {
    hide Reachable, Silents;
    t := PttActing(s, IDLE);
    hide PttStep, Finishes;
    t := Publishes(t);
  }

  lemma DrainsOut(s: State) returns (t: State)
    requires Reachable(s) && s.play.pc.Ended? && s.play.token.state == Speaking && s.play.queued == 0 && s.sh.audioEnded
    ensures Reachable(t) && SameBut(s, t) && t.sh == s.sh.(done := s.play.token.generation)
    ensures t.play == s.play.(pc := Load, ended := true, muted := true)
  {
    hide Reachable, Silents;
    t := Playing(s, false);
    t := Playing(t, true);
  }

  /** A whole conversation: the button is pressed, the utterance sent, the reply starts and ends, all that was accepted of
      it is heard, and the session is ready again in a new generation with the microphone off. */
  lemma ReplyHeard()
    ensures exists events :: var s := After(events);
      && s.ptt.pc.Button? && s.ptt.session == SessionData(Ready, 3, false) && !s.ptt.mic && SilentChunks(s) == [false]
      && BytesOf(s.hist.accepted, 2) == BytesOf(s.hist.handed, 2) && BytesOf(s.hist.handed, 2) != []
  {
    hide Reachable, Silents;
    var s := Speaks();
    s := MeetsTokenAgain(s);
    s := PassesHold(s);
    s := DrainsOut(s);
    s := Concludes(s);
    var events := EventsOf(s);
    hide After, Silents;
    AlwaysPrimed(events);
    PassportExclusion.AlwaysExcluded(events);
    PlayedIsPrefix(events, 2);
    assert After(events) == s;
  }

  lemma EventsOf(s: State) returns (events: seq<Event>)
    requires Reachable(s)
    ensures After(events) == s
  {
    events :| After(events) == s;
  }
}
