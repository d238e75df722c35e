/** What the button task and the callbacks bring about: when a session that waits for a reply is given up, how the session
    follows the link, and how a raised hold flag stops the speaker. */
module PassportProgress {
  import opened Basics
  import opened VoiceSession
  import opened PassportVoice
  import opened PassportAudio
  import opened PassportExclusion
  import opened PassportReplies
  import opened PassportMute

  // ---------------------------------------------------------------- when a wait ends

  /** In PauseSpeaker for a session that is being given up. */
  predicate Stopping(pc: PttPc) { (pc.Pause? || pc.Ticket? || pc.Await?) && (pc.why.Failing? || pc.why == DrainLate) }

  /** The generation is over, or is being given up. */
  predicate Over(p: Ptt, g: nat) { g < p.session.generation || (g == p.session.generation && Stopping(p.pc)) }

  lemma StoppingGoesOn(sh: Shared, p: Ptt, c: Chance)
    requires Stopping(p.pc)
    ensures var q := PttLocal(sh, p, c); q.session.generation > p.session.generation || (q.session == p.session && Stopping(q.pc))
  {
    hide AfterTake, AfterWork, AfterButton;
  }

  lemma StaysOver(s: State, e: Event, g: nat)
    requires Over(s.ptt, g)
    ensures Over(Apply(s, e).ptt, g)
  {
    if e.PttActs? {
      if Stopping(s.ptt.pc) { StoppingGoesOn(s.sh, s.ptt, e.chance); }
      hide PttLocal, PttShared, PttHistory;
    } else {
      hide Over;
      OthersLeavePtt(s, e);
    }
  }

  lemma {:induction false} OverForGood(events: seq<Event>, more: seq<Event>, g: nat)
    requires Over(After(events).ptt, g)
    ensures Over(After(events + more).ptt, g)
  {
    hide After, Over, Apply;
    if more == [] {
      assert events + more == events;
    } else {
      var n := |more| - 1;
      OverForGood(events, more[..n], g);
      assert events + more == events + more[..n] + [more[n]];
      Then(events + more[..n], more[n]);
      StaysOver(After(events + more[..n]), more[n], g);
    }
  }

  /** The send or playback failed, the reply is played out, draining or waiting took too long, or the screen of the
      spoken reply never came. */
  predicate WaitFails(s: State, c: Chance) {
    var session := s.ptt.session;
    && s.ptt.pc.Work? && (session.state == Thinking || session.state == Speaking)
    && (c.fault || Finishes(s.sh, s.ptt) || (c.late && (session.state == Thinking || session.draining))
          || (c.unseen && session.state == Speaking && s.sh.rendered != session.Published()))
  }

  /** The codec or the stream refuses. */
  predicate MicFails(s: State, c: Chance) {
    c.fault && (s.ptt.pc.StartMic? || s.ptt.pc.OpenStream? || s.ptt.pc.CloseStream? || (s.ptt.pc.Button? && s.ptt.session.state == Listening))
  }

  /** Each of these ends the session's generation, whatever happens next. */
  lemma FailureEnds(events: seq<Event>, c: Chance, more: seq<Event>)
    requires WaitFails(After(events), c) || MicFails(After(events), c)
    ensures Over(After(events + [PttActs(c)] + more).ptt, After(events).ptt.session.generation)
  {
    var s := After(events);
    Then(events, PttActs(c));
    assert Over(Apply(s, PttActs(c)).ptt, s.ptt.session.generation) by {
      hide AfterTake, Paused, Finishes, PttShared, PttHistory, After;
    }
    hide After, Over, WaitFails, MicFails;
    OverForGood(events + [PttActs(c)], more, s.ptt.session.generation);
  }

  /** And only for a reason is a session given up that waits for a reply: one of these, a final status, the link
      seen down, or a press of the button. */
  lemma GivenUpForAReason(events: seq<Event>, e: Event)
    requires var p := After(events).ptt; Waiting(p.session.state) && !Over(p, p.session.generation)
    requires Over(After(events + [e]).ptt, After(events).ptt.session.generation)
    ensures var s := After(events);
      && e.PttActs?
      && (WaitFails(s, e.chance) || MicFails(s, e.chance)
            || (s.ptt.pc.TakeReplies? && Replies(s.sh, s.ptt).Terminal())
            || (s.ptt.pc.Connect? && !s.ptt.ready)
            || s.ptt.pc == Await(Talk))
  {
    var s := After(events);
    Then(events, e);
    hide After;
    if e.PttActs? {
      hide PttShared, PttHistory, AfterWork, AfterButton, Paused, AfterTake, WaitFails, MicFails, Over;
      AlwaysOnline(events);
      if s.ptt.pc.Work? { WorkReason(s, e.chance); }
      else if s.ptt.pc.Button? || s.ptt.pc.Await? { PressReason(s, e.chance); }
      else { OtherReason(s, e.chance); }
    } else {
      hide Over;
      OthersLeavePtt(s, e);
    }
  }

  lemma WorkReason(s: State, c: Chance)
    requires s.ptt.pc.Work? && Waiting(s.ptt.session.state) && Over(PttLocal(s.sh, s.ptt, c), s.ptt.session.generation)
    ensures WaitFails(s, c)
  {
    hide AfterButton, Paused, AfterTake, Finishes;
  }

  lemma PressReason(s: State, c: Chance)
    requires s.ptt.pc.Button? || s.ptt.pc.Await?
    requires Waiting(s.ptt.session.state) && !Over(s.ptt, s.ptt.session.generation)
    requires Over(PttLocal(s.sh, s.ptt, c), s.ptt.session.generation)
    ensures s.ptt.pc == Await(Talk)
  {
    hide AfterWork, AfterTake, Finishes;
  }

  lemma OtherReason(s: State, c: Chance)
    requires !s.ptt.pc.Work? && !s.ptt.pc.Button? && !s.ptt.pc.Await?
    requires Waiting(s.ptt.session.state) && Connected(s.ptt) && !Over(s.ptt, s.ptt.session.generation)
    requires Over(PttLocal(s.sh, s.ptt, c), s.ptt.session.generation)
    ensures MicFails(s, c) || (s.ptt.pc.TakeReplies? && Replies(s.sh, s.ptt).Terminal()) || (s.ptt.pc.Connect? && !s.ptt.ready)
  {
    hide AfterWork, AfterButton, Paused, Finishes;
  }

  // ---------------------------------------------------------------- the link

  predicate LastLink(events: seq<Event>, i: int) {
    0 <= i < |events| && events[i].LinkStatus? && forall j :: i < j < |events| ==> !events[j].LinkStatus?
  }

  /** The tasks see the link as the last status told it, and down before the first. */
  lemma {:induction false} LinkIsLast(events: seq<Event>)
    ensures forall i :: LastLink(events, i) ==> After(events).sh.link == events[i].ready
    ensures (forall e :: e in events ==> !e.LinkStatus?) ==> !After(events).sh.link
  {
    if events != [] {
      var n := |events| - 1;
      LinkIsLast(events[..n]);
      LinkStep(After(events[..n]), events[n]);
      hide Apply;
      forall i | LastLink(events, i) ensures After(events).sh.link == events[i].ready {
        if i < n { assert LastLink(events[..n], i); }
      }
    }
  }

  lemma LinkStep(s: State, e: Event)
    ensures Apply(s, e).sh.link == if e.LinkStatus? then e.ready else s.sh.link
  {
    hide PttLocal, PlayLocal, PttHistory, PlayHistory;
  }

  /** Past Connect the session is online exactly if the loop saw the link up. */
  predicate Connected(p: Ptt) {
    !p.pc.Top? && !p.pc.Connect? && !((p.pc.Pause? || p.pc.Ticket? || p.pc.Await?) && p.pc.why == LinkLost) ==>
      (p.ready <==> p.session.state != Disconnected)
  }

  lemma WorkKeepsConnected(sh: Shared, p: Ptt, c: Chance)
    requires Connected(p) && p.pc.Work?
    ensures Connected(AfterWork(sh, p, c))
  {
    hide Finishes;
  }

  lemma ButtonKeepsConnected(p: Ptt, c: Chance)
    requires Connected(p) && p.pc.Button?
    ensures Connected(AfterButton(p, c))
  {
  }

  lemma PauseKeepsConnected(p: Ptt, acked: bool)
    requires Connected(p) && p.pc.Await?
    ensures Connected(Paused(p, acked))
  {
  }

  lemma TakeKeepsConnected(p: Ptt, replies: Commands)
    requires Connected(p) && p.pc.TakeReplies?
    ensures Connected(AfterTake(p.(generation := p.session.generation), replies))
  {
  }

  lemma StepKeepsConnected(sh: Shared, p: Ptt, c: Chance)
    requires Connected(p) && !p.pc.Await? && !p.pc.Work? && !p.pc.Button? && !p.pc.TakeReplies?
    ensures Connected(PttLocal(sh, p, c))
  {
    hide AfterWork, AfterButton, Paused, AfterTake, Finishes;
  }

  lemma PttKeepsConnected(s: State, c: Chance)
    requires Connected(s.ptt)
    ensures Connected(PttStep(s, c).ptt)
  {
    hide PttShared, PttHistory, AfterWork, AfterButton, Paused, AfterTake, AfterStep, Connected;
    if s.ptt.pc.Work? { WorkKeepsConnected(s.sh, s.ptt, c); }
    else if s.ptt.pc.Button? { ButtonKeepsConnected(s.ptt, c); }
    else if s.ptt.pc.TakeReplies? { TakeKeepsConnected(s.ptt, Replies(s.sh, s.ptt)); }
    else if s.ptt.pc.Await? {
      PauseKeepsConnected(s.ptt, s.sh.ack == s.ptt.ticket);
    } else {
      StepKeepsConnected(s.sh, s.ptt, c);
      hide PttLocal;
    }
  }

  lemma {:induction false} AlwaysOnline(events: seq<Event>)
    ensures Connected(After(events).ptt)
  {
    if events != [] {
      var before, e := After(events[..|events| - 1]), events[|events| - 1];
      AlwaysOnline(events[..|events| - 1]);
      hide Connected, PttStep;
      if e.PttActs? { PttKeepsConnected(before, e.chance); } else { OthersLeavePtt(before, e); }
    }
  }

  /** Over every run: whenever the loop is past Connect, the session is disconnected exactly if the link was down when
      this round of the loop looked. */
  lemma SessionFollowsLink(events: seq<Event>)
    requires var pc := After(events).ptt.pc; pc.TakeReplies? || pc.DrainReply? || pc.Work? || pc.Button?
    ensures var p := After(events).ptt; p.session.state == Disconnected <==> !p.ready
  {
    hide After;
    AlwaysOnline(events);
  }

  // ---------------------------------------------------------------- a raised hold flag

  /** How many chunks the codec was given. */
  function Chunks(marks: seq<Mark>): nat {
    if marks == [] then 0 else Chunks(marks[..|marks| - 1]) + if marks[|marks| - 1].Chunk? then 1 else 0
  }

  /** Nobody passes line 644, the only place that lowers the flag. */
  ghost predicate NeverReleased(events: seq<Event>, more: seq<Event>) {
    forall k :: 0 <= k < |more| && more[k].PttActs? ==> !After(events + more[..k]).ptt.pc.Unhold?
  }

  /** The chunks given and the one past its check. */
  function Committed(s: State): nat { Chunks(s.hist.marks) + if Window(s.play.pc) then 1 else 0 }

  lemma ChunksMore(marks: seq<Mark>, m: Mark)
    ensures Chunks(marks + [m]) == Chunks(marks) + if m.Chunk? then 1 else 0
  {
    assert (marks + [m])[..|marks|] == marks;
  }

  lemma HoldKeeps(s: State, e: Event)
    requires s.sh.hold && (e.PttActs? ==> !s.ptt.pc.Unhold?)
    ensures Apply(s, e).sh.hold && Committed(Apply(s, e)) == Committed(s)
  {
    if e.PttActs? {
      hide PttLocal, PttHistory;
    } else if e.PlayActs? {
      HoldKeepsPlay(s.sh, s.play, e.go, e.late);
      var m := MarkOf(s.sh, s.play, e.go, e.late);
      if m.Some? { ChunksMore(s.hist.marks, m.value); }
      hide PlayLocal, MarkOf;
    } else {
      OthersLeavePlay(s, e);
      hide PttLocal, PlayLocal, PttHistory;
    }
  }

  lemma HoldKeepsPlay(sh: Shared, l: Play, go: bool, late: bool)
    requires sh.hold
    ensures var k, m := PlayLocal(sh, l, go, late), MarkOf(sh, l, go, late);
      && (Window(k.pc) <==> l.pc.Unmute?) && (m.Some? && m.value.Chunk? <==> l.pc.Write?)
  {
    if PausingPc(l.pc) || DecidingPc(l.pc) || l.pc.Fetch? {
      hide PlayLocal, Pausing, Deciding, Fetched;
      PlayCases(sh, l, go, late);
    } else {
      hide Pausing, Deciding, Fetched;
    }
  }

  /** Over every run: while the hold flag is up and not released, the codec is given at most the one chunk that
      was past its check when the flag went up. */
  lemma {:induction false} HoldStops(events: seq<Event>, more: seq<Event>)
    requires After(events).sh.hold && NeverReleased(events, more)
    ensures After(events + more).sh.hold
    ensures Committed(After(events + more)) == Committed(After(events))
  {
    hide After, Committed, Apply;
    if more == [] {
      assert events + more == events;
    } else {
      var n := |more| - 1;
      forall k | 0 <= k < n && more[..n][k].PttActs? ensures !After(events + more[..n][..k]).ptt.pc.Unhold? {
        assert more[..n][..k] == more[..k];
      }
      HoldStops(events, more[..n]);
      assert events + more == events + more[..n] + [more[n]];
      Then(events + more[..n], more[n]);
      HoldKeeps(After(events + more[..n]), more[n]);
    }
  }

  /** The status that ends a reply raises it, and so does a link that is not ready; both stop the speaker. */
  lemma CallbacksHold(events: seq<Event>, e: Event, more: seq<Event>)
    requires var s := After(events);
      e == LinkHold || (e.VoiceReply? && (KindOf(e.status) == Success || KindOf(e.status) == Failure)
        && s.sh.replies.Bound(s.sh.token).Accepts(s.sh.token, e.status))
    requires NeverReleased(events + [e], more)
    ensures Chunks(After(events + [e] + more).hist.marks) <= Chunks(After(events).hist.marks) + if Window(After(events).play.pc) then 1 else 0
  {
    var s := After(events);
    Then(events, e);
    OthersLeavePlay(s, e);
    hide After;
    assert Apply(s, e).sh.hold;
    hide Apply, Chunks, NeverReleased;
    HoldStops(events + [e], more);
  }

  // ---------------------------------------------------------------- the end of the audio

  function Renewals(marks: seq<Mark>): nat {
    if marks == [] then 0 else Renewals(marks[..|marks| - 1]) + if marks[|marks| - 1].Renewed? then 1 else 0
  }

  lemma RenewalsMore(marks: seq<Mark>, m: Mark)
    ensures Renewals(marks + [m]) == Renewals(marks) + if m.Renewed? then 1 else 0
  {
    assert (marks + [m])[..|marks|] == marks;
  }

  /** The play task can see that the audio of this generation has ended; or there is a later one, or the play task
      has begun one since. */
  ghost predicate EndKnown(s: State, g: nat, renewals: nat) {
    && Renewals(s.hist.marks) >= renewals
    && (Renewals(s.hist.marks) > renewals || s.sh.token.generation > g
          || (s.sh.token.generation == g && s.sh.audioEnded && s.sh.replies.Ended(s.sh.token)))
  }

  lemma PlayKeepsEnd(s: State, go: bool, late: bool, g: nat, renewals: nat)
    requires EndKnown(s, g, renewals)
    ensures EndKnown(PlayStep(s, go, late), g, renewals)
  {
    var m := MarkOf(s.sh, s.play, go, late);
    if m.Some? { RenewalsMore(s.hist.marks, m.value); }
    assert s.play.pc.Flush? ==> m == Some(Renewed);
    assert !s.play.pc.Flush? ==> PlayShared(s.sh, s.play, late).audioEnded == s.sh.audioEnded;
    hide PlayLocal, MarkOf, PlayShared, Renewals, Handed;
  }

  lemma PttKeepsEnd(s: State, c: Chance, g: nat, renewals: nat)
    requires Disciplined(s) && Ordered(s) && EndKnown(s, g, renewals)
    ensures EndKnown(PttStep(s, c), g, renewals)
  {
    hide PttLocal, PttHistory, Renewals, LogSound, BoxFollows, EndHeld, BoxSound;
  }

  lemma CallbackKeepsEnd(s: State, e: Event, g: nat, renewals: nat)
    requires EndKnown(s, g, renewals) && !e.PttActs? && !e.PlayActs? && s.sh.replies.generation == s.sh.token.generation
    ensures EndKnown(Apply(s, e), g, renewals)
  {
    OthersLeavePlay(s, e);
    hide Renewals, BytesOf;
  }

  lemma {:induction false} EndStays(events: seq<Event>, more: seq<Event>, g: nat, renewals: nat)
    requires EndKnown(After(events), g, renewals)
    ensures EndKnown(After(events + more), g, renewals)
  {
    hide After, EndKnown, PttStep, PlayStep;
    if more == [] {
      assert events + more == events;
    } else {
      var n := |more| - 1;
      EndStays(events, more[..n], g, renewals);
      assert events + more == events + more[..n] + [more[n]];
      var s, e := After(events + more[..n]), more[n];
      Then(events + more[..n], e);
      AlwaysDisciplined(events + more[..n]);
      AlwaysConserved(events + more[..n]);
      hide Conserved, Ordered, LogSound;
      if e.PttActs? { PttKeepsEnd(s, e.chance, g, renewals); }
      else if e.PlayActs? { PlayKeepsEnd(s, e.go, e.late, g, renewals); }
      else { hide Apply; CallbackKeepsEnd(s, e, g, renewals); }
    }
  }

  /** Over every run: once End was accepted, or the audio ended after that, the play task can see it until it begins
      another generation, whatever audio still arrives. */
  lemma EndIsSeen(events: seq<Event>, e: Event, more: seq<Event>)
    requires var s := After(events);
      || (e == AudioEnd && s.sh.replies.Ended(s.sh.token))
      || (e == VoiceReply(3) && s.sh.replies.Bound(s.sh.token).Accepts(s.sh.token, 3))
    ensures var s := After(events); EndKnown(After(events + [e] + more), s.sh.token.generation, Renewals(s.hist.marks))
  {
    var s := After(events);
    Then(events, e);
    hide After, Renewals;
    assert EndKnown(Apply(s, e), s.sh.token.generation, Renewals(s.hist.marks));
    hide EndKnown, Apply;
    EndStays(events + [e], more, s.sh.token.generation, Renewals(s.hist.marks));
  }

  // ---------------------------------------------------------------- what a wait and a chunk go back to

  /** The button was released after long enough, in this generation. */
  ghost predicate SentAt(events: seq<Event>, i: int, g: nat) {
    && 0 <= i < |events| && events[i].PttActs? && events[i].chance.send
    && var p := After(events[..i]).ptt; p.pc.Button? && p.session == SessionData(Listening, g, p.session.draining)
  }

  lemma {:induction false} SentStays(events: seq<Event>, e: Event, i: int, g: nat)
    requires SentAt(events, i, g)
    ensures SentAt(events + [e], i, g)
  {
    hide After;
    assert (events + [e])[..i] == events[..i];
  }

  lemma WaitBegins(s: State, c: Chance)
    ensures var q := PttLocal(s.sh, s.ptt, c);
      Waiting(q.session.state) ==>
        || (Waiting(s.ptt.session.state) && q.session.generation == s.ptt.session.generation)
        || (s.ptt.pc.Button? && s.ptt.session.state == Listening && c.send && q.session.generation == s.ptt.session.generation)
  {
    if s.ptt.pc.Work? { hide AfterButton, Paused, AfterTake, Finishes; }
    else if s.ptt.pc.Button? { hide AfterWork, Paused, AfterTake; }
    else { hide AfterWork, AfterButton, Finishes; }
  }

  /** Over every run a session waits for a reply only if an utterance was sent in its generation: a tap waits for
      nothing. */
  lemma {:induction false} WaitWasSent(events: seq<Event>)
    requires Waiting(After(events).ptt.session.state)
    ensures exists i :: SentAt(events, i, After(events).ptt.session.generation)
  {
    hide SentAt, PttLocal;
    if events == [] {
      assert false;
    } else {
      var n := |events| - 1;
      var before, e, g := After(events[..n]), events[n], After(events).ptt.session.generation;
      assert events[..n] + [e] == events;
      if e.PttActs? { WaitBegins(before, e.chance); } else { OthersLeavePtt(before, e); }
      if Waiting(before.ptt.session.state) && before.ptt.session.generation == g {
        WaitWasSent(events[..n]);
        var i :| SentAt(events[..n], i, g);
        SentStays(events[..n], e, i, g);
      } else {
        SentNow(events);
      }
    }
  }

  lemma SentNow(events: seq<Event>)
    requires events != [] && events[|events| - 1].PttActs? && events[|events| - 1].chance.send
    requires var p := After(events[..|events| - 1]).ptt; p.pc.Button? && p.session.state == Listening
    ensures SentAt(events, |events| - 1, After(events[..|events| - 1]).ptt.session.generation)
  {
    hide After;
  }

  /** At the check under the lock all of this held: the token is still the published one, its screen has been
      shown, the link is up, nothing holds the speaker, and a reply that has formally started is spoken. */
  ghost predicate CheckedAt(events: seq<Event>, i: int, chunk: seq<Byte>) {
    && 0 <= i < |events| && events[i].PlayActs?
    && var s := After(events[..i]);
      && s.play.pc.Check? && s.play.chunk == chunk && s.sh.token == s.play.token && s.sh.rendered == s.sh.token
      && s.sh.link && !s.sh.hold && Waiting(s.sh.token.state)
      && (s.sh.token.state == Speaking || !(s.sh.replies.generation == s.sh.token.generation && s.sh.replies.started))
  }

  lemma CheckedStays(events: seq<Event>, e: Event, i: int, chunk: seq<Byte>)
    requires CheckedAt(events, i, chunk)
    ensures CheckedAt(events + [e], i, chunk)
  {
    hide After;
    assert (events + [e])[..i] == events[..i];
  }

  lemma WindowOpens(s: State, go: bool, late: bool)
    ensures var k := PlayLocal(s.sh, s.play, go, late);
      Window(k.pc) ==>
        && k.chunk == s.play.chunk
        && (Window(s.play.pc) ||
             (s.play.pc.Check? && s.sh.token == s.play.token && s.sh.rendered == s.sh.token && s.sh.link && !s.sh.hold
               && Waiting(s.sh.token.state)
               && (s.sh.token.state == Speaking || !(s.sh.replies.generation == s.sh.token.generation && s.sh.replies.started))))
  {
    if PausingPc(s.play.pc) || DecidingPc(s.play.pc) || s.play.pc.Fetch? {
      hide PlayLocal, Pausing, Deciding, Fetched;
      PlayCases(s.sh, s.play, go, late);
    } else {
      hide Pausing, Deciding, Fetched;
    }
  }

  /** Over every run: a chunk on its way to the codec has passed such a check. */
  lemma {:induction false} ChunkWasChecked(events: seq<Event>)
    requires Window(After(events).play.pc)
    ensures exists i :: CheckedAt(events, i, After(events).play.chunk)
  {
    hide CheckedAt, PlayLocal, PlayShared, MarkOf;
    if events == [] {
      assert false;
    } else {
      var n := |events| - 1;
      var before, e, chunk := After(events[..n]), events[n], After(events).play.chunk;
      assert events[..n] + [e] == events;
      if e.PlayActs? { WindowOpens(before, e.go, e.late); } else { OthersLeavePlay(before, e); }
      if Window(before.play.pc) {
        ChunkWasChecked(events[..n]);
        var i :| CheckedAt(events[..n], i, chunk);
        CheckedStays(events[..n], e, i, chunk);
      } else {
        CheckedNow(events);
      }
    }
  }

  lemma CheckedNow(events: seq<Event>)
    requires events != [] && events[|events| - 1].PlayActs?
    requires var s := After(events[..|events| - 1]);
      && s.play.pc.Check? && s.sh.token == s.play.token && s.sh.rendered == s.sh.token && s.sh.link && !s.sh.hold
      && Waiting(s.sh.token.state)
      && (s.sh.token.state == Speaking || !(s.sh.replies.generation == s.sh.token.generation && s.sh.replies.started))
    ensures CheckedAt(events, |events| - 1, After(events[..|events| - 1]).play.chunk)
  {
    hide After;
  }

  /** The play task found the reply over: ended, nothing counted, and 90 ms since the last chunk. */
  ghost predicate DrainedAt(events: seq<Event>, i: int, g: nat) {
    && 0 <= i < |events| && events[i].PlayActs? && events[i].late
    && var l := After(events[..i]).play; l.pc.Drained? && l.token == Token(g, Speaking) && l.ended && l.queued == 0
  }

  lemma DrainedStays(events: seq<Event>, e: Event, i: int, g: nat)
    requires DrainedAt(events, i, g)
    ensures DrainedAt(events + [e], i, g)
  {
    hide After;
    assert (events + [e])[..i] == events[..i];
  }

  lemma DoneStep(s: State, e: Event)
    ensures Apply(s, e).sh.done == 0 || Apply(s, e).sh.done == s.sh.done
      || (e.PlayActs? && e.late && s.play.pc.Drained? && s.play.token == Token(Apply(s, e).sh.done, Speaking) && s.play.ended && s.play.queued == 0)
  {
    hide PttLocal, PlayLocal, PttHistory, PlayHistory;
  }

  /** Over every run a reply counts as played out only if the play task found it over. */
  lemma {:induction false} DoneWasDrained(events: seq<Event>)
    requires After(events).sh.done != 0
    ensures exists i :: DrainedAt(events, i, After(events).sh.done)
  {
    hide Apply;
    if events == [] {
      assert false;
    } else {
      var n := |events| - 1;
      var before, e, g := After(events[..n]), events[n], After(events).sh.done;
      assert events[..n] + [e] == events;
      DoneStep(before, e);
      if before.sh.done == g {
        DoneWasDrained(events[..n]);
        var i :| DrainedAt(events[..n], i, g);
        hide DrainedAt;
        DrainedStays(events[..n], e, i, g);
      } else {
        assert DrainedAt(events, n, g);
      }
    }
  }

  /** A finished reply stops the speaker, too. */
  lemma FinishHolds(events: seq<Event>, c: Chance, more: seq<Event>)
    requires var s := After(events); s.ptt.pc.Work? && !c.fault && Finishes(s.sh, s.ptt) && NeverReleased(events + [PttActs(c)], more)
    ensures Chunks(After(events + [PttActs(c)] + more).hist.marks)
      <= Chunks(After(events).hist.marks) + if Window(After(events).play.pc) then 1 else 0
  {
    var s := After(events);
    Then(events, PttActs(c));
    hide After, PttLocal, PttHistory;
    assert Apply(s, PttActs(c)).sh.hold;
    hide Apply, Chunks, NeverReleased;
    HoldStops(events + [PttActs(c)], more);
  }

  /** Beyond the pause the play task is at work for a session that waits for a reply, and for no other. */
  predicate AtWork(pc: PlayPc) { !pc.Load? && !pc.Flush? && !pc.Count? && !pc.Hold? && !pc.Link? && !pc.Mute? && !pc.AckLoad? && !pc.AckStore? }

  lemma {:induction false} PlaysForAWait(events: seq<Event>)
    requires AtWork(After(events).play.pc)
    ensures Waiting(After(events).play.token.state)
  {
    hide PlayLocal, PlayShared, PlayHistory;
    if events == [] {
      assert false;
    } else {
      var before, e := After(events[..|events| - 1]), events[|events| - 1];
      if e.PlayActs? { WorkBegins(before.sh, before.play, e.go, e.late); } else { OthersLeavePlay(before, e); }
      if AtWork(before.play.pc) { PlaysForAWait(events[..|events| - 1]); }
    }
  }

  lemma WorkBegins(sh: Shared, l: Play, go: bool, late: bool)
    ensures var k := PlayLocal(sh, l, go, late);
      AtWork(k.pc) ==> k.token == l.token && (AtWork(l.pc) || Waiting(l.token.state))
  {
    if PausingPc(l.pc) || DecidingPc(l.pc) || l.pc.Fetch? {
      hide PlayLocal, Deciding, Fetched;
      PlayCases(sh, l, go, late);
      if DecidingPc(l.pc) { DecidingGoes(sh, l, go, late); }
    } else {
      hide Pausing, Deciding, Fetched, CanPlay;
    }
  }

  lemma DecidingGoes(sh: Shared, l: Play, go: bool, late: bool)
    requires DecidingPc(l.pc)
    ensures AtWork(Deciding(sh, l, go, late).pc) ==> AtWork(l.pc)
  {
  }

  /** Over every run, when FinishReply succeeds: the reply of this generation is being spoken and drained, its End was
      accepted, and the play task has found it over. */
  lemma FinishedWasEnded(events: seq<Event>)
    requires var s := After(events); s.ptt.pc.Work? && Finishes(s.sh, s.ptt) && s.ptt.session.generation != 0
    ensures var s := After(events); var g := s.ptt.session.generation;
      && s.ptt.session.state == Speaking && s.ptt.session.draining && s.sh.replies.generation == g && s.sh.replies.ended
      && exists i :: DrainedAt(events, i, g)
  {
    AlwaysDisciplined(events);
    DoneWasDrained(events);
    hide After, DrainedAt;
  }

  // ---------------------------------------------------------------- what the screen has shown

  /** The render task flushed this token's screen, and neither a failing panel nor another screen came since. */
  ghost predicate ShownAt(events: seq<Event>, i: int, t: Token) {
    && 0 <= i < |events| && events[i].Rendered? && After(events[..i]).sh.uiToken == t
    && forall j :: i < j < |events| ==> !events[j].PanelFails? && !(events[j].PttActs? && After(events[..j]).ptt.pc.Publish?)
  }

  lemma ShownStays(events: seq<Event>, e: Event, i: int, t: Token)
    requires ShownAt(events, i, t) && !e.PanelFails? && !(e.PttActs? && After(events).ptt.pc.Publish?)
    ensures ShownAt(events + [e], i, t)
  {
    hide After;
    var more := events + [e];
    assert more[..i] == events[..i];
    forall j | i < j < |more| ensures !more[j].PanelFails? && !(more[j].PttActs? && After(more[..j]).ptt.pc.Publish?) {
      if j < |events| { assert more[..j] == events[..j]; } else { assert more[..j] == events; }
    }
  }

  lemma ScreenStep(s: State, e: Event)
    ensures var t := Apply(s, e);
      t.sh.rendered == (if e.Rendered? then s.sh.uiToken
                        else if e.PanelFails? || (e.PttActs? && s.ptt.pc.Publish?) then NO_TOKEN else s.sh.rendered)
  {
    hide PttLocal, PlayLocal, PttHistory, PlayHistory;
  }

  /** Over every run: a token counts as rendered only while its screen is the last one flushed. */
  lemma {:induction false} RenderedWasShown(events: seq<Event>)
    requires After(events).sh.rendered != NO_TOKEN
    ensures exists i :: ShownAt(events, i, After(events).sh.rendered)
  {
    hide Apply, ShownAt;
    if events == [] {
      assert false;
    } else {
      var n := |events| - 1;
      var before, e, t := After(events[..n]), events[n], After(events).sh.rendered;
      assert events[..n] + [e] == events;
      ScreenStep(before, e);
      if e.Rendered? {
        ShownNow(events);
      } else {
        RenderedWasShown(events[..n]);
        var i :| ShownAt(events[..n], i, t);
        ShownStays(events[..n], e, i, t);
      }
    }
  }

  lemma ShownNow(events: seq<Event>)
    requires events != [] && events[|events| - 1].Rendered?
    ensures ShownAt(events, |events| - 1, After(events[..|events| - 1]).sh.uiToken)
  {
    hide After;
  }
}
