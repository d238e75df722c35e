/** The voice session of firmware/apps/ai-passport/ai_passport.cc as a state machine: the button task
    (PttLoop), the play task (PlayLoop), the transport callbacks and the render task of voice_ui.cc.

    One event is one atomic action: a single load or store of a shared variable together with the task's own
    work around it, or one region under `audio_lock_`. The program counters name the place in the source that
    the task has reached. Times, button readings, unlocked early reads and hardware results are free bits
    of the events, but for SetMute, which the codec obeys. Generations and pause tickets are counted without wrap-around. */
module PassportVoice {
  import opened Basics
  import opened VoiceSession

  const BUFFER_BYTES := 32 * 1024
  const CHUNK_BYTES := 640

  // ---------------------------------------------------------------- the button task

  /** Where FailSession and PublishSession return to. */
  datatype Next = ToTop | ToTake | ToDrain | ToButton | ToClose | ToUnhold

  /** Why PauseSpeaker was called. */
  datatype Why = LinkLost | DrainLate | Failing(next: Next) | Talk

  datatype PttPc =
    | Top                      // 572: load link_ready_
    | Connect                  // 579: SetConnected
    | TakeReplies              // 583-592: Take under the lock, then Speak
    | DrainReply               // 593: Drain
    | Work                     // 594-619: errors, FinishReply, time-outs
    | Button                   // 620-682: the button and the microphone
    | Pause(why: Why)          // 524: playback_hold_ = true
    | Ticket(why: Why)         // 525: pause_request_ + 1
    | Await(why: Why)          // 527-530: wait for the ticket
    | Publish(next: Next)      // 539: the screen forgets the old token
    | Store(next: Next)        // 540-543: Bind and store the token under the lock
    | Unhold                   // 644: playback_hold_ = false
    | StartMic                 // 645
    | OpenStream               // 650
    | CloseStream              // 690

  datatype Ptt = Ptt(pc: PttPc, ready: bool, generation: nat, end: bool, ticket: nat, session: SessionData, mic: bool)

  // ---------------------------------------------------------------- the play task

  datatype PlayPc =
    | Load                     // 400-402: load the token
    | Flush                    // 413-425: a new generation resets the buffer under the lock
    | Count                    // 426: bytes queued
    | Hold                     // 439: load playback_hold_
    | Link                     // 439-440: load link_ready_
    | Mute                     // 441
    | AckLoad                  // 442: load pause_request_
    | AckStore                 // 442: store pause_ack_
    | Ended                    // 446: load audio_ended_
    | Drained                  // 450-455: the reply is over
    | Formal                   // 456-458: Started under the lock
    | Gate                     // 459-464: unlocked early check
    | Fetch                    // 465-476: the retained chunk or the next one, under the lock
    | Check                    // 477-487: the check under the lock
    | Unmute                   // 488-490
    | Write                    // 491-498: the codec takes the chunk

  /** `generation` is none until the first pass. `pending` is the retained chunk, `chunk` the one in hand. */
  datatype Play = Play(
    pc: PlayPc, token: Token, generation: Known, priming: bool, pending: seq<Byte>, chunk: seq<Byte>,
    queued: nat, ended: bool, formal: bool, acked: nat, muted: bool)

  datatype Known = Nothing | Just(value: nat)

  // ---------------------------------------------------------------- what the tasks share

  datatype Shared = Shared(
    token: Token, replies: ReplyData, playGeneration: nat, queue: seq<Byte>, audioEnded: bool, done: nat,
    hold: bool, link: bool, request: nat, ack: nat, uiToken: Token, rendered: Token)

  /** What the play task went through: a chunk handed to the codec, whether muted and whether the write failed;
      a new generation (413-425); a buffer found empty 90 ms after the last write (471-473); a mute that ends
      the pass at the hold flag or the link, at the end of the reply, at the gate or at the check (441, 451, 461, 484). */
  datatype Mark = Chunk(silent: bool, failed: bool) | Renewed | Dry | Silenced

  /** What the proofs talk about and no task reads. Per generation: the bytes PlayAudio accepted and the bytes
      handed to the codec. Then every accepted reply and every Take with its generation, whether Speak or
      Drain ever refused a taken command, and the marks of the play task. `arrived` says whether PlayAudio accepted
      anything since the play task last counted the buffer, and `late` what it said when the play task last
      declared a reply over. */
  datatype History = History(
    accepted: map<nat, seq<Byte>>, handed: map<nat, seq<Byte>>, posted: set<(nat, Kind)>, taken: seq<(nat, Commands)>,
    speakRefused: bool, drainRefused: bool, marks: seq<Mark>, arrived: bool, late: bool)

  datatype State = State(sh: Shared, ptt: Ptt, play: Play, hist: History)

  function BytesOf(m: map<nat, seq<Byte>>, g: nat): seq<Byte> { if g in m then m[g] else [] }

  const NO_TOKEN := Token(0, Disconnected)

  const INITIAL := State(
    Shared(NO_TOKEN, ReplyData(0, NO_COMMANDS, false, false, false), 0, [], true, 0, false, false, 0, 0, NO_TOKEN, NO_TOKEN),
    Ptt(Top, false, 0, false, 0, SessionData(Disconnected, 0, false), false),
    Play(Load, NO_TOKEN, Nothing, true, [], [], 0, false, false, 0, true),
    History(map[], map[], {}, [], false, false, [], false, false))

  // ---------------------------------------------------------------- steps of the button task

  /** The free bits of one action: a fault, a passed deadline, a screen not flushed for two seconds, the button,
      its release as speech or as a tap. */
  datatype Chance = Chance(fault: bool, late: bool, unseen: bool, pressed: bool, send: bool)

  function Goto(p: Ptt, next: Next): Ptt {
    p.(pc := match next
             case ToTop => Top case ToTake => TakeReplies case ToDrain => DrainReply
             case ToButton => Button case ToClose => CloseStream case ToUnhold => Unhold)
  }

  /** FailSession up to its call of PauseSpeaker. */
  function Fail(p: Ptt, next: Next): Ptt { p.(mic := false, pc := Pause(Failing(next))) }

  predicate Waiting(state: SessionState) { state == Thinking || state == Speaking }

  /** How the session moves but for Speak and Drain: not at all, on to a new generation that waits for no
      reply, or from Listening to Thinking; and then it is published. */
  predicate Moves(p: Ptt, q: Ptt) {
    && q.end == p.end && q.generation == p.generation
    && (q.session == p.session || (q.pc.Publish? && SessionMoves(p.session, q.session)))
  }

  predicate SessionMoves(p: SessionData, q: SessionData) {
    || (p.generation < q.generation && !Waiting(q.state) && !q.draining)
    || (p.state == Listening && q == p.(state := Thinking))
  }

  /** Between taking an End and draining. */
  predicate Draining(pc: PttPc) { pc == Publish(ToDrain) || pc == Store(ToDrain) || pc.DrainReply? }

  /** FailSession never returns into the handling of replies. */
  predicate WellAimed(pc: PttPc) {
    !Draining(pc) && (pc.Pause? || pc.Ticket? || pc.Await? ==> pc.why != Failing(ToDrain))
  }

  predicate Finishes(sh: Shared, p: Ptt) {
    sh.done == p.generation && sh.audioEnded && sh.queue == [] && p.session.CanFinish(p.generation)
  }

  /** The commands Take hands to the button task. */
  function Replies(sh: Shared, p: Ptt): Commands { sh.replies.Bound(p.session.Published()).pending }

  predicate Unborn(session: SessionData) { session.generation == 0 && session.state == Disconnected }

  /** The button task's own variables after its next action. */
  function PttLocal(sh: Shared, p: Ptt, c: Chance): (q: Ptt)
    ensures p.session.generation <= q.session.generation
    ensures Unborn(p.session) && q.session.generation == 0 ==> Unborn(q.session)
  {
    if p.pc.Top? then
      if !sh.link && p.session.state != Disconnected then p.(ready := sh.link, mic := false, pc := Pause(LinkLost))
      else p.(ready := sh.link, pc := Connect)
    else if p.pc.TakeReplies? then AfterTake(p.(generation := p.session.generation), Replies(sh, p))
    else if p.pc.DrainReply? then
      p.(session := if p.end then p.session.Drained(p.generation) else p.session, end := false, pc := Work)
    else if p.pc.Store? then Goto(p, p.pc.next)
    else if p.pc.Connect? then
      var session := p.session.Connected(p.ready);
      p.(session := session, pc := if session != p.session then Publish(ToTake) else TakeReplies)
    else if p.pc.Work? then AfterWork(sh, p, c)
    else if p.pc.Button? then AfterButton(p, c)
    else if p.pc.Await? then if sh.ack == p.ticket || c.late then Paused(p, sh.ack == p.ticket) else p
    else AfterStep(sh, p, c)
  }

  /** The places that do one thing. */
  function AfterStep(sh: Shared, p: Ptt, c: Chance): (q: Ptt)
    ensures q.session == p.session && Moves(p, q) && (WellAimed(p.pc) ==> WellAimed(q.pc))
    ensures Draining(q.pc) ==> p.pc == Publish(ToDrain) || p.pc == q.pc
  {
    match p.pc
    case Pause(why) => p.(pc := Ticket(why))
    case Ticket(why) => p.(ticket := sh.request + 1, pc := Await(why))
    case Publish(next) => p.(pc := Store(next))
    case Unhold => p.(pc := StartMic)
    case StartMic => if c.fault then Fail(p, ToTop) else p.(mic := true, pc := OpenStream)
    case OpenStream => if c.fault then Fail(p, ToTop) else p.(pc := Top)
    case CloseStream => if c.fault then Fail(p, ToTop) else p.(pc := Top)
    case _ => p
  }

  function AfterTake(p: Ptt, replies: Commands): Ptt {
    if replies.Terminal() then Fail(p, ToTop)
    else if replies.start && p.session.CanSpeak(p.generation)
    then p.(end := replies.end, session := p.session.Spoken(p.generation), pc := Publish(ToDrain))
    else p.(end := replies.end, pc := DrainReply)
  }

  function AfterWork(sh: Shared, p: Ptt, c: Chance): (q: Ptt)
    ensures Moves(p, q) && WellAimed(q.pc)
  {
    if p.session.state != Thinking && p.session.state != Speaking then p.(pc := Button)
    else if c.fault then Fail(p, ToTop)
    else if Finishes(sh, p) then p.(session := p.session.Finished(p.generation), pc := Publish(ToButton))
    else if p.session.state == Speaking && p.session.draining && c.late then p.(pc := Pause(DrainLate))
    else if p.session.state == Thinking && c.late then Fail(p, ToButton)
    else if p.session.state == Speaking && sh.rendered != p.session.Published() && c.unseen then Fail(p, ToButton)
    else p.(pc := Button)
  }

  function AfterButton(p: Ptt, c: Chance): (q: Ptt)
    ensures Moves(p, q) && WellAimed(q.pc)
  {
    if p.session.state != Listening then
      // Not pressed, waiting for a release, or a press while offline, which only confirms a pairing.
      if !c.pressed || !p.ready then p.(pc := Top) else p.(pc := Pause(Talk))
    else if c.fault then Fail(p, ToTop)
    else if c.pressed then p.(pc := Top)
    else p.(mic := false, session := p.session.Released(c.send), pc := Publish(ToClose))
  }

  /** What follows PauseSpeaker. */
  function Paused(p: Ptt, acked: bool): (q: Ptt)
    requires p.pc.Await?
    ensures Moves(p, q) && (WellAimed(p.pc) ==> WellAimed(q.pc))
  {
    match p.pc.why
    case LinkLost => p.(pc := Connect)
    case DrainLate => p.(session := p.session.Cancelled(), pc := Publish(ToButton))
    case Failing(next) => p.(session := p.session.Cancelled(), pc := Publish(next))
    case Talk => if acked then p.(session := p.session.Listened(), pc := Publish(ToUnhold)) else Fail(p, ToTop)
  }

  /** What its action stores for the others. */
  function PttShared(sh: Shared, p: Ptt, c: Chance): (t: Shared)
    ensures t.queue == sh.queue && t.playGeneration == sh.playGeneration && t.done == sh.done && t.ack == sh.ack
    ensures if p.pc.Store? then t.token == p.session.Published() else t.token == sh.token
    ensures !p.pc.TakeReplies? && !p.pc.Store? ==> t.replies == sh.replies
  {
    match p.pc
    case TakeReplies => sh.(replies := sh.replies.Taken(p.session.Published()))
    case Work =>
      if (p.session.state == Thinking || p.session.state == Speaking) && !c.fault && Finishes(sh, p)
      then sh.(hold := true) else sh
    case Pause(_) => sh.(hold := true)
    case Ticket(_) => sh.(request := sh.request + 1)
    case Publish(_) => sh.(uiToken := p.session.Published(), rendered := NO_TOKEN)
    case Store(_) => sh.(replies := sh.replies.Bound(p.session.Published()), token := p.session.Published())
    case Unhold => sh.(hold := false)
    case _ => sh
  }

  function PttHistory(h: History, sh: Shared, p: Ptt): (k: History)
    ensures k.accepted == h.accepted && k.handed == h.handed && k.posted == h.posted
      && k.marks == h.marks && k.arrived == h.arrived && k.late == h.late
  {
    match p.pc
    case TakeReplies =>
      var replies := Replies(sh, p);
      h.(taken := h.taken + [(p.session.generation, replies)],
         speakRefused := h.speakRefused || (!replies.Terminal() && replies.start && !p.session.CanSpeak(p.session.generation)))
    case DrainReply => h.(drainRefused := h.drainRefused || (p.end && !p.session.CanDrain(p.generation)))
    case _ => h
  }

  function PttStep(s: State, c: Chance): State {
    State(PttShared(s.sh, s.ptt, c), PttLocal(s.sh, s.ptt, c), s.play, PttHistory(s.hist, s.sh, s.ptt))
  }

  // ---------------------------------------------------------------- steps of the play task

  /** How much of the buffer the play task takes. */
  function Taking(sh: Shared): nat { Min(CHUNK_BYTES, |sh.queue|) }

  /** The play task's own variables after its next action. The free bits: what the unlocked early reads
      answer, and whether the codec's time has passed. */
  function PlayLocal(sh: Shared, l: Play, go: bool, late: bool): Play {
    if PausingPc(l.pc) then Pausing(sh, l)
    else if DecidingPc(l.pc) then Deciding(sh, l, go, late)
    else if l.pc.Load? then
      if l.generation != Just(sh.token.generation) then l.(token := sh.token, muted := true, pc := Flush)
      else l.(token := sh.token, pc := Count)
    else if l.pc.Flush? then l.(generation := Just(l.token.generation), priming := true, pending := [], pc := Count)
    else if l.pc.Fetch? then Fetched(sh, l, late)
    else if l.pc.Check? then
      if StillPlays(sh, l) then l.(pc := Unmute) else l.(pending := l.chunk, muted := true, pc := Load)
    else if l.pc.Unmute? then l.(muted := if l.priming then false else l.muted, priming := false, pc := Write)
    else l.(pending := [], muted := l.muted || late, pc := Load)
  }

  /** The retained chunk, or else the next one. */
  function Fetched(sh: Shared, l: Play, late: bool): (k: Play)
    ensures k.token == l.token && k.generation == l.generation && k.pending == l.pending && (k.pc.Check? || k.pc.Load?)
    ensures l.muted ==> k.muted
  {
    if l.pending != [] then l.(chunk := l.pending, pc := Check)
    else if sh.queue != [] then l.(chunk := sh.queue[..Taking(sh)], pc := Check)
    else if late then l.(chunk := [], muted := true, priming := true, pc := Load)
    else l.(chunk := [], pc := Load)
  }

  predicate PausingPc(pc: PlayPc) { pc.Hold? || pc.Link? || pc.Mute? || pc.AckLoad? || pc.AckStore? }

  /** The hold flag, the link, and the answer to a pause. */
  function Pausing(sh: Shared, l: Play): (k: Play)
    requires PausingPc(l.pc)
    ensures k.token == l.token && k.generation == l.generation && k.pending == l.pending && k.chunk == l.chunk
    ensures (l.muted ==> k.muted) && (k.pc.AckLoad? ==> k.muted)
    ensures k.pc.AckStore? ==> l.pc.AckLoad? && k.acked == sh.request
    ensures !k.pc.Flush? && !k.pc.Check? && !k.pc.Unmute? && !k.pc.Write?
  {
    match l.pc
    case Hold => l.(pc := if sh.hold then Mute else Link)
    case Link => l.(pc := if !sh.link || !AcceptsAudio(l.token) then Mute else Ended)
    case Mute => l.(muted := true, pc := AckLoad)
    case AckLoad => l.(acked := sh.request, pc := AckStore)
    case AckStore => l.(pc := Load)
  }

  predicate DecidingPc(pc: PlayPc) { pc.Count? || pc.Ended? || pc.Drained? || pc.Formal? || pc.Gate? }

  /** Everything between a known generation and a chunk but the pause. */
  function Deciding(sh: Shared, l: Play, go: bool, late: bool): (k: Play)
    requires DecidingPc(l.pc)
    ensures k.token == l.token && k.generation == l.generation && k.pending == l.pending && k.chunk == l.chunk
    ensures l.muted ==> k.muted
    ensures k.pc.Hold? || k.pc.Drained? || k.pc.Formal? || k.pc.Gate? || k.pc.Load? || k.pc.Fetch?
  {
    match l.pc
    case Count => l.(queued := |sh.queue| + |l.pending|, pc := Hold)
    case Ended => l.(ended := sh.audioEnded, pc := Drained)
    case Drained => if DrainReady(l, late) then l.(muted := true, pc := Load) else l.(pc := Formal)
    case Formal => l.(formal := sh.replies.Started(l.token), pc := Gate)
    case Gate =>
      if GateOpens(l, go) then l.(pc := Fetch) else l.(muted := true, pc := Load)
  }

  /** Which function moves the play task on. */
  lemma PlayCases(sh: Shared, l: Play, go: bool, late: bool)
    ensures PausingPc(l.pc) ==> PlayLocal(sh, l, go, late) == Pausing(sh, l)
    ensures DecidingPc(l.pc) ==> PlayLocal(sh, l, go, late) == Deciding(sh, l, go, late)
    ensures l.pc.Fetch? ==> PlayLocal(sh, l, go, late) == Fetched(sh, l, late)
  {
    hide Pausing, Deciding, Fetched, CanPlay;
  }

  predicate GateOpens(l: Play, go: bool) {
    go && (l.token.state == Speaking || !l.formal) && (l.priming ==> l.queued > 0)
  }

  /** The check under the lock. */
  predicate StillPlays(sh: Shared, l: Play) {
    sh.token == l.token && CanPlay(l.token, sh.rendered == l.token, sh.link, sh.hold, sh.replies.Started(l.token))
  }

  predicate DrainReady(l: Play, late: bool) { l.token.state == Speaking && l.ended && l.queued == 0 && late }

  function PlayShared(sh: Shared, l: Play, late: bool): (t: Shared)
    ensures t.token == sh.token && t.replies == sh.replies && t.hold == sh.hold && t.link == sh.link
      && t.request == sh.request && t.uiToken == sh.uiToken && t.rendered == sh.rendered
    ensures !l.pc.Flush? ==> t.playGeneration == sh.playGeneration && (t.done == sh.done || t.done == l.token.generation)
    ensures !l.pc.Flush? && !l.pc.Fetch? ==> t.queue == sh.queue
    ensures !l.pc.AckStore? ==> t.ack == sh.ack
  {
    if l.pc.Flush? then sh.(queue := [], playGeneration := l.token.generation, audioEnded := false, done := 0)
    else if l.pc.AckStore? then sh.(ack := l.acked)
    else if l.pc.Drained? && DrainReady(l, late) then sh.(done := l.token.generation)
    else if l.pc.Fetch? && l.pending == [] then sh.(queue := sh.queue[Taking(sh)..])
    else sh
  }

  /** The mark an action leaves, if any. */
  function MarkOf(sh: Shared, l: Play, go: bool, late: bool): Option<Mark> {
    if l.pc.Write? then Some(Chunk(l.muted, late))
    else if l.pc.Flush? then Some(Renewed)
    else if l.pc.Fetch? then if l.pending == [] && sh.queue == [] && late then Some(Dry) else None
    else if l.pc.Mute? || (l.pc.Drained? && DrainReady(l, late)) || (l.pc.Gate? && !GateOpens(l, go))
      || (l.pc.Check? && !StillPlays(sh, l)) then Some(Silenced)
    else None
  }

  function Marked(marks: seq<Mark>, m: Option<Mark>): seq<Mark> { if m.Some? then marks + [m.value] else marks }

  function Handed(h: History, l: Play): map<nat, seq<Byte>> {
    if !l.pc.Write? then h.handed else
      var g := l.token.generation;
      // WritePcm takes whole samples: an odd last byte would be left behind.
      h.handed[g := BytesOf(h.handed, g) + l.chunk[..|l.chunk| / 2 * 2]]
  }

  function PlayHistory(h: History, sh: Shared, l: Play, go: bool, late: bool): (k: History)
    ensures k.accepted == h.accepted && k.posted == h.posted && k.taken == h.taken
      && k.speakRefused == h.speakRefused && k.drainRefused == h.drainRefused
  {
    h.(handed := Handed(h, l), marks := Marked(h.marks, MarkOf(sh, l, go, late)),
       arrived := h.arrived && !l.pc.Count?,
       late := if l.pc.Drained? && DrainReady(l, late) then h.arrived else h.late)
  }

  function PlayStep(s: State, go: bool, late: bool): State {
    State(PlayShared(s.sh, s.play, late), s.ptt, PlayLocal(s.sh, s.play, go, late), PlayHistory(s.hist, s.sh, s.play, go, late))
  }

  // ---------------------------------------------------------------- callbacks and screen

  predicate AudioWelcome(sh: Shared, bytes: seq<Byte>) {
    && bytes != [] && |bytes| % 2 == 0
    && sh.link && !sh.hold && AcceptsAudio(sh.token) && sh.playGeneration == sh.token.generation
  }

  function AudioArrives(s: State, bytes: seq<Byte>): State {
    if !AudioWelcome(s.sh, bytes) then s else
      var sh := s.sh.(audioEnded := s.sh.audioEnded && s.sh.replies.Ended(s.sh.token), done := 0);
      if |bytes| > BUFFER_BYTES - |sh.queue| then s.(sh := sh) else
        var g := sh.token.generation;
        s.(sh := sh.(queue := sh.queue + bytes),
           hist := s.hist.(accepted := s.hist.accepted[g := BytesOf(s.hist.accepted, g) + bytes], arrived := true))
  }

  function ReplyArrives(s: State, status: nat): State {
    var sh := s.sh;
    var accepted := sh.replies.Bound(sh.token).Accepts(sh.token, status);
    s.(sh := sh.(replies := sh.replies.Posted(sh.token, status),
                 audioEnded := sh.audioEnded || (accepted && status == 3),
                 hold := sh.hold || (accepted && status != 2 && status != 3)),
      hist := if accepted then s.hist.(posted := s.hist.posted + {(sh.token.generation, KindOf(status))}) else s.hist)
  }

  datatype Event =
    | PttActs(chance: Chance)
    | PlayActs(go: bool, late: bool)
    | PlayAudio(bytes: seq<Byte>)
    | AudioEnd
    | VoiceReply(status: nat)
    | LinkStatus(ready: bool)     // 177
    | LinkHold                    // 178: the second store of a status that is not READY; it may come at any time
    | Rendered                    // the session screen has been flushed
    | PanelFails

  function Apply(s: State, e: Event): State {
    match e
    case PttActs(chance) => PttStep(s, chance)
    case PlayActs(go, late) => PlayStep(s, go, late)
    case PlayAudio(bytes) => AudioArrives(s, bytes)
    case AudioEnd => if s.sh.replies.Ended(s.sh.token) then s.(sh := s.sh.(audioEnded := true)) else s
    case VoiceReply(status) => ReplyArrives(s, status)
    case LinkStatus(ready) => s.(sh := s.sh.(link := ready))
    case LinkHold => s.(sh := s.sh.(hold := true))
    case Rendered => s.(sh := s.sh.(rendered := s.sh.uiToken))
    case PanelFails => s.(sh := s.sh.(rendered := NO_TOKEN))
  }

  /** The state after any interleaving. */
  function After(events: seq<Event>): State {
    if events == [] then INITIAL else Apply(After(events[..|events| - 1]), events[|events| - 1])
  }
}
