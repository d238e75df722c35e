/** firmware/apps/ai-passport/voice_session.h: the session owned by the button task and the box in which
    transport callbacks leave reply commands. */
module VoiceSession {
  datatype SessionState = Disconnected | Ready | Listening | Thinking | Speaking

  /** The published token with its generation unwrapped. */
  datatype Token = Token(generation: nat, state: SessionState)

  predicate AcceptsAudio(t: Token) { t.state == Thinking || t.state == Speaking }

  predicate CanPlay(t: Token, rendered: bool, connected: bool, held: bool, formalRequested: bool) {
    AcceptsAudio(t) && rendered && connected && !held && (t.state == Speaking || !formalRequested)
  }

  // ---------------------------------------------------------------- the session as a value

  datatype SessionData = SessionData(state: SessionState, generation: nat, draining: bool) {
    function Published(): Token { Token(generation, state) }

    function Advanced(): SessionData { SessionData(state, generation + 1, false) }

    function Connected(ready: bool): SessionData {
      if !ready && state != Disconnected then Advanced().(state := Disconnected)
      else if ready && state == Disconnected then Advanced().(state := Ready)
      else this
    }

    function Listened(): SessionData {
      if state == Disconnected || state == Listening then this else Advanced().(state := Listening)
    }

    function Cancelled(): SessionData {
      if state == Disconnected then Advanced() else Advanced().(state := Ready)
    }

    function Released(send: bool): SessionData {
      if state != Listening then this else if send then this.(state := Thinking) else Cancelled()
    }

    predicate CanSpeak(g: nat) { g == generation && state == Thinking }

    function Spoken(g: nat): SessionData { if CanSpeak(g) then this.(state := Speaking) else this }

    predicate CanDrain(g: nat) { g == generation && state == Speaking && !draining }

    function Drained(g: nat): SessionData { if CanDrain(g) then this.(draining := true) else this }

    predicate CanFinish(g: nat) { g == generation && state == Speaking && draining }

    function Finished(g: nat): SessionData { if CanFinish(g) then Cancelled() else this }
  }

  // ---------------------------------------------------------------- the 29-bit generation

  const GENERATIONS := 0x1fff_ffff

  /** The counter the device keeps for the n-th generation: 29 bits, never zero again once it has moved. */
  function Wrapped(n: nat): nat { if n == 0 then 0 else (n - 1) % GENERATIONS + 1 }

  function NextWrapped(g: nat): nat {
    var next := (g + 1) % 0x2000_0000;
    if next == 0 then 1 else next
  }

  lemma WrappedNext(n: nat)
    ensures Wrapped(n + 1) == NextWrapped(Wrapped(n))
    ensures Wrapped(n) <= GENERATIONS && (Wrapped(n) == 0 <==> n == 0)
  {
    if n > 0 {
      var r := (n - 1) % GENERATIONS;
      assert n % GENERATIONS == if r + 1 == GENERATIONS then 0 else r + 1;
    }
  }

  /** Two generations fewer than 2^29 - 1 apart keep different counters, so comparing counters compares
      generations. */
  lemma WrappedTellsApart(m: nat, n: nat)
    requires m <= n < m + GENERATIONS
    ensures Wrapped(m) == Wrapped(n) <==> m == n
  {
  }

  class Session {
    var state: SessionState
    var generation: nat
    var waitingSince: int
    var drainingSince: int
    var draining: bool
    /** How often the generation advanced. */
    ghost var epoch: nat

    ghost predicate Valid()
      reads this
    {
      generation == Wrapped(epoch)
    }

    ghost function Data(): SessionData
      reads this
    {
      SessionData(state, epoch, draining)
    }

    constructor ()
      ensures Valid() && Data() == SessionData(Disconnected, 0, false)
    {
      state, generation, waitingSince, drainingSince, draining, epoch := Disconnected, 0, 0, 0, false, 0;
    }

    method Advance()
      requires Valid()
      modifies this
      ensures Valid() && Data() == old(Data()).Advanced()
      ensures generation != 0 && generation != old(generation)
    {
      WrappedNext(epoch);
      draining := false;
      generation := (generation + 1) % 0x2000_0000;
      if generation == 0 { generation := 1; }
      epoch := epoch + 1;
    }

    method SetConnected(ready: bool) returns (changed: bool)
      requires Valid()
      modifies this
      ensures Valid() && Data() == old(Data()).Connected(ready) && changed == (Data() != old(Data()))
    {
      if !ready && state != Disconnected {
        Advance();
        state := Disconnected;
        return true;
      }
      if ready && state == Disconnected {
        Advance();
        state := Ready;
        return true;
      }
      return false;
    }

    method Listen() returns (changed: bool)
      requires Valid()
      modifies this
      ensures Valid() && Data() == old(Data()).Listened() && changed == (Data() != old(Data()))
    {
      if state == Disconnected || state == Listening { return false; }
      Advance();
      state := Listening;
      return true;
    }

    method Release(send: bool, now: int) returns (changed: bool)
      requires Valid()
      modifies this
      ensures Valid() && Data() == old(Data()).Released(send) && changed == (Data() != old(Data()))
      ensures changed && send ==> waitingSince == now
    {
      if state != Listening { return false; }
      if send {
        state := Thinking;
        waitingSince := now;
      } else {
        Cancel();
      }
      return true;
    }

    method Speak(g: nat) returns (ok: bool)
      requires Valid()
      modifies this
      ensures Valid() && ok == (g == generation && old(state) == Thinking)
      ensures Data() == if ok then old(Data()).Spoken(epoch) else old(Data())
    {
      if g != generation || state != Thinking { return false; }
      state := Speaking;
      return true;
    }

    method Drain(g: nat, now: int) returns (ok: bool)
      requires Valid()
      modifies this
      ensures Valid() && ok == (g == generation && old(state) == Speaking && !old(draining))
      ensures Data() == if ok then old(Data()).Drained(epoch) else old(Data())
      ensures ok ==> drainingSince == now
    {
      if g != generation || state != Speaking || draining { return false; }
      draining := true;
      drainingSince := now;
      return true;
    }

    method Finish(g: nat) returns (ok: bool)
      requires Valid()
      modifies this
      ensures Valid() && ok == (g == old(generation) && old(state) == Speaking && old(draining))
      ensures Data() == if ok then old(Data()).Finished(old(epoch)) else old(Data())
    {
      if g != generation || state != Speaking || !draining { return false; }
      Cancel();
      return true;
    }

    method Cancel()
      requires Valid()
      modifies this
      ensures Valid() && Data() == old(Data()).Cancelled()
    {
      Advance();
      if state != Disconnected { state := Ready; }
    }
  }

  // ---------------------------------------------------------------- the reply commands

  datatype Commands = Commands(start: bool, end: bool, success: bool, failure: bool) {
    predicate Terminal() { success || failure }
  }

  datatype Kind = Start | End | Success | Failure

  /** What a posted status asks for. */
  function KindOf(status: nat): Kind {
    if status == 2 then Start else if status == 3 then End else if status == 0 then Success else Failure
  }

  const NO_COMMANDS := Commands(false, false, false, false)

  datatype ReplyData = ReplyData(generation: nat, pending: Commands, started: bool, ended: bool, terminal: bool) {
    function Bound(t: Token): ReplyData {
      if generation == t.generation then this else ReplyData(t.generation, NO_COMMANDS, false, false, false)
    }

    /** Whether Post accepts the status for this token, once bound to it. */
    predicate Accepts(t: Token, status: nat) {
      && !terminal && AcceptsAudio(t)
      && if status == 3 then !ended && (t.state == Speaking || started) else t.state == Thinking && !started
    }

    function Posted(t: Token, status: nat): ReplyData {
      var r := Bound(t);
      if !r.Accepts(t, status) then r
      else if status == 3 then r.(pending := r.pending.(end := true), ended := true)
      else if status == 2 then r.(pending := r.pending.(start := true), started := true)
      else if status == 0 then r.(pending := r.pending.(success := true), terminal := true)
      else r.(pending := r.pending.(failure := true), terminal := true)
    }

    function Taken(t: Token): ReplyData { Bound(t).(pending := NO_COMMANDS) }

    predicate Started(t: Token) { generation == t.generation && started }

    predicate Ended(t: Token) { generation == t.generation && ended }
  }

  class ReplyControl {
    var generation: nat
    var pending: Commands
    var started: bool
    var ended: bool
    var terminal: bool

    function Data(): ReplyData
      reads this
    {
      ReplyData(generation, pending, started, ended, terminal)
    }

    constructor ()
      ensures Data() == ReplyData(0, NO_COMMANDS, false, false, false)
    {
      generation, pending, started, ended, terminal := 0, NO_COMMANDS, false, false, false;
    }

    method Bind(t: Token)
      modifies this
      ensures Data() == old(Data()).Bound(t)
    {
      if generation == t.generation { return; }
      generation, pending := t.generation, NO_COMMANDS;
      started, ended, terminal := false, false, false;
    }

    method Post(t: Token, status: nat) returns (accepted: bool)
      modifies this
      ensures Data() == old(Data()).Posted(t, status)
      ensures accepted == old(Data()).Bound(t).Accepts(t, status)
    {
      Bind(t);
      if terminal || (t.state != Thinking && t.state != Speaking) { return false; }
      if status == 3 {
        if ended || (t.state != Speaking && !started) { return false; }
        pending := pending.(end := true);
        ended := true;
      } else {
        if t.state != Thinking || started { return false; }
        if status == 2 {
          pending := pending.(start := true);
          started := true;
        } else {
          pending := if status == 0 then pending.(success := true) else pending.(failure := true);
          terminal := true;
        }
      }
      return true;
    }

    method Take(t: Token) returns (result: Commands)
      modifies this
      ensures Data() == old(Data()).Taken(t) && result == old(Data()).Bound(t).pending
    {
      Bind(t);
      result := pending;
      pending := NO_COMMANDS;
    }
  }
}
