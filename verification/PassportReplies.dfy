/** Reply commands in the composed system: what a callback posts is taken once, in its own generation, and the
    session obeys it. */
module PassportReplies {
  import opened VoiceSession
  import opened PassportVoice
  import opened PassportExclusion

  /** The box agrees with itself and was filled by posts of its own generation. */
  predicate BoxSound(r: ReplyData, posted: set<(nat, Kind)>) {
    && (r.pending.start ==> r.started && (r.generation, Start) in posted)
    && (r.pending.end ==> r.ended && (r.generation, End) in posted)
    && (r.pending.success ==> r.terminal && (r.generation, Success) in posted)
    && (r.pending.failure ==> r.terminal && (r.generation, Failure) in posted)
    && !(r.pending.success && r.pending.failure)
    && !(r.started && r.terminal)
    && (r.ended ==> r.started)
  }

  /** While the box belongs to the session's generation it tells where the session stands. */
  predicate BoxFollows(r: ReplyData, p: Ptt) {
    var session := p.session;
    if r.generation == session.generation then
      && (r.started ==> session.state == if r.pending.start then Thinking else Speaking)
      && (session.state == Speaking ==> r.started)
      && (session.draining ==> r.ended && !r.pending.end && !p.end)
      && (!Waiting(session.state) ==> !r.started && !r.ended && !r.terminal)
    else r.generation < session.generation && !Waiting(session.state) && !session.draining && !p.end
  }

  /** A taken End waits for Drain only where Drain will accept it. */
  predicate EndHeld(r: ReplyData, p: Ptt) {
    && (p.end ==> Draining(p.pc) && p.session.CanDrain(p.generation) && r.ended && !r.pending.end)
    && (Draining(p.pc) ==> p.generation == p.session.generation)
    && (Draining(p.pc) || WellAimed(p.pc))
  }

  predicate TokenFollows(token: Token, session: SessionData) {
    token.generation == session.generation ==>
      && (Waiting(token.state) ==> Waiting(session.state))
      && (token.state == Speaking ==> session.state == Speaking)
  }

  /** A command once taken is marked in the box and no longer pending. */
  predicate Marked(r: ReplyData, c: Commands) {
    && (c.start ==> r.started && !r.pending.start)
    && (c.end ==> r.ended && !r.pending.end)
    && (c.Terminal() ==> r.terminal && !r.pending.Terminal())
  }

  predicate Posted(posted: set<(nat, Kind)>, g: nat, c: Commands) {
    && (c.start ==> (g, Start) in posted) && (c.end ==> (g, End) in posted)
    && (c.success ==> (g, Success) in posted) && (c.failure ==> (g, Failure) in posted)
  }

  predicate Compatible(c: Commands, d: Commands) {
    !(c.start && d.start) && !(c.end && d.end) && !(c.Terminal() && d.Terminal())
    && !(c.start && d.Terminal()) && !(c.Terminal() && d.start)
  }

  ghost predicate LogSound(taken: seq<(nat, Commands)>, r: ReplyData, posted: set<(nat, Kind)>) {
    && (forall i :: 0 <= i < |taken| ==>
          taken[i].0 <= r.generation && Posted(posted, taken[i].0, taken[i].1) && !(taken[i].1.start && taken[i].1.Terminal()))
    && (forall i :: 0 <= i < |taken| && taken[i].0 == r.generation ==> Marked(r, taken[i].1))
    && (forall i, j :: 0 <= i < j < |taken| && taken[i].0 == taken[j].0 ==> Compatible(taken[i].1, taken[j].1))
  }

  ghost predicate Disciplined(s: State) {
    && TokenCurrent(s)
    && s.sh.replies.generation == s.sh.token.generation
    && BoxSound(s.sh.replies, s.hist.posted)
    && BoxFollows(s.sh.replies, s.ptt)
    && EndHeld(s.sh.replies, s.ptt)
    && TokenFollows(s.sh.token, s.ptt.session)
    && (s.sh.token.state == Speaking ==> s.sh.replies.started)
    && LogSound(s.hist.taken, s.sh.replies, s.hist.posted)
    && !s.hist.speakRefused && !s.hist.drainRefused
  }

  // ---------------------------------------------------------------- posts

  lemma PostKeepsLog(taken: seq<(nat, Commands)>, r: ReplyData, posted: set<(nat, Kind)>, t: Token, status: nat)
    requires LogSound(taken, r, posted) && r.generation == t.generation
    ensures LogSound(taken, r.Posted(t, status), posted + {(t.generation, KindOf(status))})
  {
  }

  lemma PostKeepsDisciplined(s: State, status: nat)
    requires Disciplined(s)
    ensures Disciplined(ReplyArrives(s, status))
  {
    var t := ReplyArrives(s, status);
    var r := s.sh.replies;
    assert r.Bound(s.sh.token) == r;
    if r.Accepts(s.sh.token, status) {
      PostKeepsLog(s.hist.taken, r, s.hist.posted, s.sh.token, status);
      hide LogSound;
    } else {
      assert t.hist == s.hist && t.sh.replies == r;
      hide LogSound, ReplyArrives;
    }
  }

  // ---------------------------------------------------------------- takes

  lemma TakeKeepsLog(taken: seq<(nat, Commands)>, r: ReplyData, posted: set<(nat, Kind)>)
    requires LogSound(taken, r, posted) && BoxSound(r, posted)
    ensures LogSound(taken + [(r.generation, r.pending)], r.(pending := NO_COMMANDS), posted)
  {
    var longer := taken + [(r.generation, r.pending)];
    forall i, j | 0 <= i < j < |longer| && longer[i].0 == longer[j].0 ensures Compatible(longer[i].1, longer[j].1) {
      if j == |taken| { assert Marked(r, taken[i].1); }
    }
  }

  lemma BindKeepsLog(taken: seq<(nat, Commands)>, r: ReplyData, posted: set<(nat, Kind)>, t: Token)
    requires LogSound(taken, r, posted) && r.generation <= t.generation
    ensures LogSound(taken, r.Bound(t), posted)
  {
  }

  lemma TakeKeepsDisciplined(s: State, c: Chance)
    requires Disciplined(s) && s.ptt.pc.TakeReplies?
    ensures Disciplined(PttStep(s, c))
  {
    var r := s.sh.replies;
    assert s.sh.token == s.ptt.session.Published();
    assert r.Bound(s.ptt.session.Published()) == r;
    TakeKeepsLog(s.hist.taken, r, s.hist.posted);
    hide LogSound;
  }

  // ---------------------------------------------------------------- the other actions of the button task

  lemma StoreStep(s: State, c: Chance)
    requires s.ptt.pc.Store?
    ensures var token := s.ptt.session.Published();
      PttStep(s, c) == s.(ptt := Goto(s.ptt, s.ptt.pc.next), sh := s.sh.(replies := s.sh.replies.Bound(token), token := token))
  {
    hide AfterTake, AfterWork, AfterButton, AfterStep, Paused, Goto;
  }

  lemma StoreKeepsDisciplined(s: State, c: Chance)
    requires Disciplined(s) && s.ptt.pc.Store?
    ensures Disciplined(PttStep(s, c))
  {
    BindKeepsLog(s.hist.taken, s.sh.replies, s.hist.posted, s.ptt.session.Published());
    StoreStep(s, c);
    hide LogSound, PttStep;
  }

  lemma DrainKeepsDisciplined(s: State, c: Chance)
    requires Disciplined(s) && s.ptt.pc.DrainReply?
    ensures Disciplined(PttStep(s, c))
  {
    hide LogSound;
  }

  lemma PttMoves(sh: Shared, p: Ptt, c: Chance)
    requires !p.pc.TakeReplies? && !p.pc.Store? && !p.pc.DrainReply? && (Draining(p.pc) || WellAimed(p.pc))
    ensures var q := PttLocal(sh, p, c);
      && Moves(p, q)
      && (if Draining(p.pc) then q.pc == Store(ToDrain) && q.session == p.session else WellAimed(q.pc))
      && (p.pc.Publish? ==> q.pc.Store? && q.session == p.session)
  {
    hide AfterWork, AfterButton, Paused;
  }

  lemma OtherActionsKeepDisciplined(s: State, c: Chance)
    requires Disciplined(s) && !s.ptt.pc.TakeReplies? && !s.ptt.pc.Store? && !s.ptt.pc.DrainReply?
    ensures Disciplined(PttStep(s, c))
  {
    PttMoves(s.sh, s.ptt, c);
    assert PttHistory(s.hist, s.sh, s.ptt) == s.hist;
    hide LogSound, BoxSound, PttLocal, PttShared, PttHistory;
  }

  lemma ApplyKeepsDisciplined(s: State, e: Event)
    requires Disciplined(s)
    ensures Disciplined(Apply(s, e))
  {
    match e {
      case PttActs(chance) =>
        hide PttStep, Disciplined;
        match s.ptt.pc {
          case TakeReplies => TakeKeepsDisciplined(s, chance);
          case Store(_) => StoreKeepsDisciplined(s, chance);
          case DrainReply => DrainKeepsDisciplined(s, chance);
          case _ => OtherActionsKeepDisciplined(s, chance);
        }
      case VoiceReply(status) =>
        hide ReplyArrives, Disciplined;
        PostKeepsDisciplined(s, status);
      case _ => hide LogSound, BoxSound, PlayLocal, PlayShared, PlayHistory;
    }
  }

  lemma {:induction false} AlwaysDisciplined(events: seq<Event>)
    ensures Disciplined(After(events))
  {
    if events != [] {
      AlwaysDisciplined(events[..|events| - 1]);
      ApplyKeepsDisciplined(After(events[..|events| - 1]), events[|events| - 1]);
    }
  }

  /** Over every interleaving: per generation at most one Start, one End and one final status is taken, a
      Start and a final status never both, each was posted while that generation was the published one, and
      the session obeyed every taken Start and every taken End. */
  lemma CommandsAreObeyedOnce(events: seq<Event>)
    ensures var h := After(events).hist;
      && (forall i, j :: 0 <= i < j < |h.taken| && h.taken[i].0 == h.taken[j].0 ==> Compatible(h.taken[i].1, h.taken[j].1))
      && (forall i :: 0 <= i < |h.taken| ==>
            Posted(h.posted, h.taken[i].0, h.taken[i].1) && !(h.taken[i].1.start && h.taken[i].1.Terminal()))
      && !h.speakRefused && !h.drainRefused
  {
    hide After;
    AlwaysDisciplined(events);
  }

  // ---------------------------------------------------------------- a final status ends the session's generation

  /** FailSession on its way to the top of the loop, before it cancels. */
  predicate FailingToTop(pc: PttPc) { (pc.Pause? || pc.Ticket? || pc.Await?) && pc.why == Failing(ToTop) }

  /** What a taken final status has come to: its generation is over, or is being ended. */
  ghost predicate FinalsEnd(taken: seq<(nat, Commands)>, p: Ptt) {
    && (forall i :: 0 <= i < |taken| && taken[i].1.Terminal() ==>
          taken[i].0 < p.session.generation || (taken[i].0 == p.session.generation && FailingToTop(p.pc)))
    && (forall i, j :: 0 <= i < j < |taken| && taken[i].1.Terminal() ==> taken[i].0 < taken[j].0)
  }

  lemma FailingGoesOn(sh: Shared, p: Ptt, c: Chance)
    requires FailingToTop(p.pc)
    ensures var q := PttLocal(sh, p, c);
      q.session.generation > p.session.generation || (q.session == p.session && FailingToTop(q.pc))
  {
    hide AfterTake, AfterWork, AfterButton;
  }

  lemma TakeEnds(s: State, c: Chance)
    requires FinalsEnd(s.hist.taken, s.ptt) && s.ptt.pc.TakeReplies?
    ensures FinalsEnd(PttStep(s, c).hist.taken, PttStep(s, c).ptt)
  {
    hide AfterWork, AfterButton, Paused;
    var t, replies := PttStep(s, c), Replies(s.sh, s.ptt);
    assert t.hist.taken == s.hist.taken + [(s.ptt.session.generation, replies)];
    hide PttStep;
  }

  lemma ApplyKeepsEnds(s: State, e: Event)
    requires FinalsEnd(s.hist.taken, s.ptt)
    ensures FinalsEnd(Apply(s, e).hist.taken, Apply(s, e).ptt)
  {
    if e.PttActs? {
      if s.ptt.pc.TakeReplies? {
        TakeEnds(s, e.chance);
      } else {
        assert PttHistory(s.hist, s.sh, s.ptt).taken == s.hist.taken;
        if FailingToTop(s.ptt.pc) { FailingGoesOn(s.sh, s.ptt, e.chance); }
        hide PttLocal, PttShared, PttHistory;
      }
    } else {
      hide PttLocal, PttShared, PttHistory, PlayLocal, PlayShared, FinalsEnd;
    }
  }

  lemma {:induction false} AlwaysEnds(events: seq<Event>)
    ensures FinalsEnd(After(events).hist.taken, After(events).ptt)
  {
    if events != [] {
      AlwaysEnds(events[..|events| - 1]);
      hide FinalsEnd, Apply;
      ApplyKeepsEnds(After(events[..|events| - 1]), events[|events| - 1]);
    }
  }

  /** Over every interleaving: once the button task has taken a final status, the session is in a later generation,
      or the task is in FailSession, about to pause the speaker and cancel; and nothing more is taken in that
      generation. */
  lemma FinalStatusEnds(events: seq<Event>, i: nat)
    requires i < |After(events).hist.taken| && After(events).hist.taken[i].1.Terminal()
    ensures var s := After(events);
      && (s.hist.taken[i].0 < s.ptt.session.generation ||
            ((s.ptt.pc.Pause? || s.ptt.pc.Ticket? || s.ptt.pc.Await?) && s.ptt.pc.why == Failing(ToTop)))
      && forall j :: i < j < |s.hist.taken| ==> s.hist.taken[j].0 != s.hist.taken[i].0
  {
    hide After;
    AlwaysEnds(events);
  }

  // ---------------------------------------------------------------- a taken Start speaks, a taken End drains

  /** What taken commands of the session's own generation have come to. */
  ghost predicate OrdersStand(taken: seq<(nat, Commands)>, p: Ptt) {
    forall i :: 0 <= i < |taken| && taken[i].0 == p.session.generation ==>
      && (taken[i].1.start ==> p.session.state == Speaking)
      && (taken[i].1.end && !taken[i].1.Terminal() ==> p.session.draining || p.end)
  }

  lemma TakeStands(s: State, c: Chance)
    requires Disciplined(s) && OrdersStand(s.hist.taken, s.ptt) && s.ptt.pc.TakeReplies?
    ensures OrdersStand(PttStep(s, c).hist.taken, PttStep(s, c).ptt)
  {
    hide AfterWork, AfterButton, Paused;
    TakeKeepsDisciplined(s, c);
    var t, replies := PttStep(s, c), Replies(s.sh, s.ptt);
    assert t.hist.taken == s.hist.taken + [(s.ptt.session.generation, replies)];
    hide PttStep, LogSound;
  }

  lemma DrainStands(s: State, c: Chance)
    requires Disciplined(s) && OrdersStand(s.hist.taken, s.ptt) && s.ptt.pc.DrainReply?
    ensures OrdersStand(PttStep(s, c).hist.taken, PttStep(s, c).ptt)
  {
    hide AfterTake, AfterWork, AfterButton, Paused, LogSound;
  }

  lemma OthersStand(s: State, c: Chance)
    requires Disciplined(s) && OrdersStand(s.hist.taken, s.ptt) && !s.ptt.pc.TakeReplies? && !s.ptt.pc.DrainReply?
    ensures OrdersStand(PttStep(s, c).hist.taken, PttStep(s, c).ptt)
  {
    assert PttHistory(s.hist, s.sh, s.ptt) == s.hist;
    assert forall i :: 0 <= i < |s.hist.taken| ==> s.hist.taken[i].0 <= s.ptt.session.generation;
    if s.ptt.pc.Store? { StoreStep(s, c); } else { PttMoves(s.sh, s.ptt, c); }
    hide LogSound, PttLocal, PttShared, PttHistory;
  }

  lemma {:induction false} AlwaysStand(events: seq<Event>)
    ensures OrdersStand(After(events).hist.taken, After(events).ptt)
  {
    if events != [] {
      var before, e := After(events[..|events| - 1]), events[|events| - 1];
      AlwaysStand(events[..|events| - 1]);
      AlwaysDisciplined(events[..|events| - 1]);
      hide OrdersStand, Disciplined, PttStep, PlayStep;
      if e.PttActs? {
        if before.ptt.pc.TakeReplies? { TakeStands(before, e.chance); }
        else if before.ptt.pc.DrainReply? { DrainStands(before, e.chance); }
        else { OthersStand(before, e.chance); }
      } else {
        OthersLeavePtt(before, e);
      }
    }
  }

  lemma OthersLeavePtt(s: State, e: Event)
    requires !e.PttActs?
    ensures Apply(s, e).ptt == s.ptt && Apply(s, e).hist.taken == s.hist.taken
  {
    hide PttLocal, PttShared, PttHistory, PlayLocal, PlayShared;
  }

  /** Over every interleaving, while the session is still in its generation: a taken Start has it speaking, and a taken
      End has it draining, or on the way to Drain. */
  lemma OrdersAreObeyed(events: seq<Event>, i: nat)
    requires i < |After(events).hist.taken| && After(events).hist.taken[i].0 == After(events).ptt.session.generation
    ensures var s := After(events);
      && (s.hist.taken[i].1.start ==> s.ptt.session.state == Speaking)
      && (s.hist.taken[i].1.end && !s.hist.taken[i].1.Terminal() ==>
            s.ptt.session.draining || (s.ptt.end && (s.ptt.pc == Publish(ToDrain) || s.ptt.pc == Store(ToDrain) || s.ptt.pc.DrainReply?)))
  {
    hide After;
    AlwaysStand(events);
    AlwaysDisciplined(events);
  }
}
