/** What the control task of firmware/apps/waveshare-epaper-397-wifi/epaper_wifi.cc does to its state, as functions
    of that state and of the platform's answers, and what a key, a row and a finished request come to. */
module EpaperDesk {
  import opened Basics
  import opened EpaperRequests

  datatype Page = Home | Menu | Sessions | Reset
  datatype Action = Up | Down | Center | MenuKey | Back
  datatype JobKind = List | Create

  /** At most three conversations are asked for at a time; a number stands for one, with its id and name. */
  type Page3 = s: seq<int> | |s| <= 3

  /** What a menu row refers to: nothing of it may move without a new view. */
  datatype Nav = Nav(page: Page, cursor: nat, count: nat, offset: nat, more: bool, sessions: Page3)

  /** What the confirm of a row does. */
  datatype Meaning =
    | ToggleCall | OpenSessions(offset: nat) | CreateSession | OpenReset | GoHome | Forget | Select(session: int)

  function Rows(nav: Nav): (rows: nat)
    ensures rows > 0
  {
    match nav.page
    case Menu => 4
    case Reset => 2
    case _ => nav.count + (if nav.more then 1 else 0) + (if nav.offset != 0 then 1 else 0) + 1
  }

  function MeaningOf(nav: Nav): Meaning
    requires nav.count <= |nav.sessions|
  {
    match nav.page
    case Home => ToggleCall
    case Menu => if nav.cursor == 0 then OpenSessions(0) else if nav.cursor == 1 then CreateSession
                 else if nav.cursor == 2 then OpenReset else GoHome
    case Reset => if nav.cursor == 1 then Forget else GoHome
    case Sessions =>
      if nav.cursor < nav.count then Select(nav.sessions[nav.cursor])
      else
        var row := nav.cursor - nav.count;
        if nav.more && row == 0 then OpenSessions(nav.offset + nav.count)
        else
          var rest := if nav.more then row - 1 else row;
          if nav.offset != 0 && rest == 0 then OpenSessions(if nav.offset >= 3 then nav.offset - 3 else 0) else GoHome
  }

  // ---------------------------------------------------------------- the platform's answers

  /** An agent has a number other than zero, or there is none. */
  type AgentId = i: int | i != 0 witness 1

  datatype Bound = Outage | Agent(id: AgentId, voice: bool)

  /** `first` answers a question before the row is acted on, `second` the one before a request is sent. */
  datatype Answers = Answers(first: Bound, second: Bound, queueFree: bool, forgotten: bool, started: bool)

  datatype Result = Result(id: Id, kind: JobKind, agent: int, ok: bool, offset: nat, sessions: Page3, total: nat, created: int)

  datatype Input = Input(action: Action, view: nat, locked: bool)

  /** What one turn of the task meets. `locked` is the setup scene, or the setup phase, when the confirm is looked at. */
  datatype Outside = Outside(
    setup: bool, result: Option<Result>, resultBound: Bound, input: Option<Input>,
    locked: bool, displayed: nat, answers: Answers, polled: Option<Bound>, callEnds: bool)

  datatype Ask = Ask(kind: JobKind, agent: int, offset: nat)

  predicate NavigationCurrent(input: nat, first: nat, current: nat) { input != 0 && first <= input <= current }

  // ---------------------------------------------------------------- the state

  /** Nothing a row refers to moves without a new view; the page's first view moves with it. */
  predicate Moved(d: Desk, e: Desk) {
    d.view <= e.view && (e.view == d.view ==> e.nav == d.nav && e.pageView == d.pageView)
  }

  /** A step within which no row moves and no wait or confirm begins, unless in a new view. */
  predicate Follows(d: Desk, e: Desk) {
    && Moved(d, e) && (e.confirm == 0 || e.confirm == d.confirm)
    && (d.Sound() ==> e.Sound() && (e.view == d.view ==> e.req.active == 0 || e.req.active == d.req.active))
  }

  /** On another page, with nothing else of the navigation moved. */
  predicate Opened(d: Desk, page: Page, e: Desk) {
    e.nav == d.nav.(page := page, cursor := 0) && e.view > d.view && e.pageView == e.view && e.asked == d.asked && e.confirm == 0
  }

  /** A session of zero is none, and so is an agent of zero. `asked` holds every job put into the queue. */
  datatype Desk = Desk(
    nav: Nav, view: nat, pageView: nat, agent: int, savedAgent: int, voice: bool, session: int, call: bool,
    req: Requests, confirm: nat, asked: seq<Ask>)
  {
    predicate Sound() {
      && nav.count <= |nav.sessions| && nav.cursor < Rows(nav) && 1 <= pageView <= view
      && (req.active == 0 || req.active == req.inflight)
    }

    function WentTo(page: Page): (e: Desk)
      ensures Follows(this, e)
      ensures Opened(this, page, e) && e.session == session && e.agent == agent && e.savedAgent == savedAgent && e.call == call
    {
      this.(nav := nav.(page := page, cursor := 0), view := view + 1, pageView := view + 1,
            req := Cancelled(req), confirm := 0)
    }

    function Hung(): Desk { this.(call := false) }

    /** Asking which agent is bound. */
    function Synced(b: Bound): (e: Desk)
      ensures Follows(this, e)
      ensures e.asked == asked && e.req.inflight == req.inflight && (call || !e.call || e.call == call)
    {
      match b
      case Outage =>
        var d := if agent != 0 && (call || nav.page != Home) then Hung().WentTo(Home) else this;
        d.(agent := 0, voice := false)
      case Agent(id, speaks) =>
        var d := if agent == id then this
          else Hung().WentTo(Home).(session := if savedAgent != id then 0 else session, agent := id, savedAgent := id);
        d.(voice := speaks)
    }

    function Submitted(kind: JobKind, from: nat, queueFree: bool): (e: Desk)
      ensures Follows(this, e)
    {
      if req.inflight != 0 then this
      else if !queueFree then this.(req := Completed(Begun(req), Begun(req).inflight))
      else this.(req := Begun(req), view := view + 1, asked := asked + [Ask(kind, agent, from)])
    }

    function Requested(kind: JobKind, from: nat, a: Answers): (e: Desk)
      ensures Follows(this, e)
    {
      var d := Hung().Synced(a.second);
      if a.second == Outage then d else d.Submitted(kind, from, a.queueFree)
    }

    function Called(a: Answers): (e: Desk)
      ensures Follows(this, e)
    {
      if call then Hung()
      else
        var d := Synced(a.first);
        if a.first == Outage then d
        else if d.session == 0 then d.Requested(List, 0, a)
        else if !d.voice then d else d.(call := a.started)
    }

    function ChosenRow(a: Answers): (e: Desk)
      requires Sound() && nav.page == Sessions
      ensures Follows(this, e)
    {
      var d := Synced(a.first);
      if a.first == Outage || d.nav.page != Sessions then d
      else match MeaningOf(nav)
        case Select(s) => d.(session := s).WentTo(Home)
        case OpenSessions(from) => d.Requested(List, from, a)
        case _ => d.WentTo(Home)
    }

    /** Choose. */
    function Chosen(a: Answers): (e: Desk)
      requires Sound()
      ensures Follows(this, e)
    {
      match nav.page
      case Home => Called(a)
      case Menu =>
        if nav.cursor == 0 then Requested(List, 0, a) else if nav.cursor == 1 then Requested(Create, 0, a)
        else WentTo(if nav.cursor == 2 then Reset else Home)
      case Reset =>
        if nav.cursor != 1 then WentTo(Home)
        else if a.forgotten then Hung().(session := 0, agent := 0, savedAgent := 0).WentTo(Home) else Hung()
      case Sessions => ChosenRow(a)
    }

    /** ReceiveNetwork on a result. */
    function Received(result: Result, b: Bound): (e: Desk)
      ensures Follows(this, e)
    {
      var d := this.(req := Completed(req, result.id));
      if !Applies(req, result.id) then d
      else
        var e := d.Synced(b);
        if b == Outage || result.agent != e.agent || !result.ok then e
        else if result.kind == List then e.Listed(result)
        else if result.created == 0 then e else e.(session := result.created).WentTo(Home)
    }

    function Listed(result: Result): (e: Desk)
      ensures e.view > view && e.pageView == e.view && (Sound() ==> e.Sound())
    {
      var n := |result.sessions|;
      this.(nav := nav.(count := n, offset := result.offset, more := result.offset + n < result.total, sessions := result.sessions))
      .WentTo(Sessions)
    }

    /** Whether a key other than Back is heard: nothing awaited, nothing pending, and pressed on the page in sight. */
    predicate Listens(input: Input) { req.active == 0 && confirm == 0 && NavigationCurrent(input.view, pageView, view) }

    function Pressed(input: Input): (e: Desk)
      requires Sound()
      ensures if e.confirm != 0 && confirm == 0 then e == this.(confirm := view) && req.active == 0 else Follows(this, e)
    {
      if input.locked then this
      else if input.action == Back then WentBack()
      else if nav.page == Home && (input.action == Up || input.action == Down) then this
      else if nav.page == Home && call && input.action == Center then Hung().(confirm := 0)
      else if !Listens(input) then this
      else if input.action == MenuKey then Hung().WentTo(Menu)
      else if input.action == Center then this.(confirm := view)
      else this.(nav := nav.(cursor := Stepped(nav, input.action)), view := view + 1)
    }

    function WentBack(): (e: Desk)
      ensures Follows(this, e)
    {
      var d := this.(confirm := 0);
      if req.active != 0 then d.(req := Cancelled(req), view := view + 1)
      else if call then d.Hung().WentTo(Home)
      else match nav.page
        case Menu => d.WentTo(Home)
        case Home => d
        case _ => d.WentTo(Menu)
    }

    /** The setup branch at the top of the loop. */
    function SetUp(): (e: Desk)
      ensures Follows(this, e)
    {
      var d := Hung().(confirm := 0, req := Cancelled(req));
      if nav.page != Home then d.WentTo(Home) else d
    }

    /** The first half of a turn: the setup scene, a finished request, a key. */
    function Attended(o: Outside): (e: Desk)
      requires Sound()
      ensures e.Sound()
    {
      var d := if o.setup then SetUp() else this;
      var e := if o.result.Some? then d.Received(o.result.value, o.resultBound) else d;
      if o.input.Some? then e.Pressed(o.input.value) else e
    }

    /** Whether the pending confirm fires: its view is the current one, and the display worker reports it. */
    predicate Fires(locked: bool, displayed: nat) { !locked && confirm != 0 && confirm == view == displayed }

    /** The confirm is used up, in a new view. */
    function Firing(): (e: Desk) { this.(confirm := 0, view := view + 1) }

    function Confirmed(locked: bool, displayed: nat, a: Answers): (e: Desk)
      requires Sound()
      ensures Follows(this, e)
    {
      if Fires(locked, displayed) then Firing().Chosen(a)
      else if !locked && confirm != view then this.(confirm := 0)
      else this
    }

    /** The poll, and a call that ended. */
    function Polled(polled: Option<Bound>, callEnds: bool): (e: Desk)
      ensures Follows(this, e)
    {
      var d := if polled.Some? then Synced(polled.value) else this;
      if callEnds then d.Hung() else d
    }

    /** One turn of the control task. */
    function Turned(o: Outside): (e: Desk)
      requires Sound()
      ensures e.Sound()
    {
      Attended(o).Confirmed(o.locked, o.displayed, o.answers).Polled(o.polled, o.callEnds)
    }
  }

  /** One row up or down, around the ends. */
  function Stepped(nav: Nav, action: Action): (row: nat)
    requires nav.cursor < Rows(nav)
    ensures row < Rows(nav)
  {
    if action == Up then (nav.cursor + Rows(nav) - 1) % Rows(nav) else (nav.cursor + 1) % Rows(nav)
  }

  // ---------------------------------------------------------------- what rows do

  /** The agent whose sessions are listed is gone, so no row of the list means anything. */
  predicate Void(d: Desk, a: Answers) { d.nav.page == Sessions && (a.first == Outage || a.first.id != d.agent) }

  /** Whether a request goes out: the platform answers, nothing is in flight, and the queue has room. */
  predicate Sent(d: Desk, a: Answers) { a.second != Outage && d.req.inflight == 0 && a.queueFree }

  /** A request for this job is awaited, or none went out. */
  predicate AsksFor(d: Desk, kind: JobKind, from: nat, a: Answers, e: Desk) {
    && !e.call
    && if Sent(d, a) then e.asked == d.asked + [Ask(kind, a.second.id, from)] && e.req.active != 0 && e.view > d.view
       else e.asked == d.asked
  }

  /** The effect of a row, by its meaning. */
  predicate Performed(m: Meaning, d: Desk, a: Answers, e: Desk) {
    match m
    case ToggleCall =>
      if d.call then e == d.(call := false)
      else if a.first == Outage then !e.call && e.agent == 0 && e.session == d.session && e.asked == d.asked
      else
        var session := if d.agent == a.first.id || d.savedAgent == a.first.id then d.session else 0;
        if session == 0 then AsksFor(d, List, 0, a, e) else e.session == session && e.call == (a.first.voice && a.started)
    case OpenSessions(from) => AsksFor(d, List, from, a, e)
    case CreateSession => AsksFor(d, Create, 0, a, e)
    case OpenReset => Opened(d, Reset, e) && e.session == d.session && e.agent == d.agent
    case GoHome => Opened(d, Home, e) && e.session == d.session && e.agent == d.agent
    case Forget =>
      if a.forgotten then Opened(d, Home, e) && e.session == 0 && e.agent == 0 && e.savedAgent == 0 && !e.call
      else e == d.(call := false)
    case Select(s) => Opened(d, Home, e) && e.session == s && e.agent == d.agent
  }

  /** The row's meaning is performed; if the list's agent is gone nothing is asked, and no session taken from the list. */
  predicate ChosenMeans(d: Desk, m: Meaning, a: Answers, e: Desk) {
    if Void(d, a) then e == d.Synced(a.first) && e.asked == d.asked && (e.session == d.session || e.session == 0)
    else Performed(m, d, a, e)
  }

  lemma RequestAsks(d: Desk, kind: JobKind, from: nat, a: Answers)
    ensures AsksFor(d, kind, from, a, d.Requested(kind, from, a))
  {
    hide Desk.WentTo;
  }

  /** Choosing a row does what the row means. */
  lemma ChosenPerforms(d: Desk, a: Answers)
    requires d.Sound()
    ensures ChosenMeans(d, MeaningOf(d.nav), a, d.Chosen(a))
  {
    match d.nav.page {
      case Home => CallPerforms(d, a);
      case Menu => MenuPerforms(d, a);
      case Reset => ResetPerforms(d, a);
      case Sessions => RowPerforms(d, a);
    }
    hide Performed, MeaningOf, Desk.ChosenRow, Desk.Requested, Desk.Called, Desk.WentTo, AsksFor;
  }

  lemma CallPerforms(d: Desk, a: Answers)
    ensures Performed(ToggleCall, d, a, d.Called(a))
  {
    hide Desk.Requested, Desk.WentTo, AsksFor;
    var e := d.Synced(a.first);
    RequestAsks(e, List, 0, a);
    SyncedAsks(d, a.first, 0, a, e.Requested(List, 0, a));
  }

  /** Asking about the agent first leaves open whether a request goes out. */
  lemma SyncedAsks(d: Desk, b: Bound, from: nat, a: Answers, e: Desk)
    requires AsksFor(d.Synced(b), List, from, a, e)
    ensures AsksFor(d, List, from, a, e)
  {
    hide Desk.Synced;
  }

  lemma MenuPerforms(d: Desk, a: Answers)
    requires d.Sound() && d.nav.page == Menu
    ensures Performed(MeaningOf(d.nav), d, a, d.Chosen(a))
  {
    hide Desk.Requested, Desk.WentTo, Desk.ChosenRow, Desk.Called, AsksFor;
    RequestAsks(d, List, 0, a);
    RequestAsks(d, Create, 0, a);
  }

  lemma ResetPerforms(d: Desk, a: Answers)
    requires d.Sound() && d.nav.page == Reset
    ensures Performed(MeaningOf(d.nav), d, a, d.Chosen(a))
  {
    hide Desk.Requested, Desk.WentTo, Desk.ChosenRow, Desk.Called, AsksFor;
  }

  lemma RowPerforms(d: Desk, a: Answers)
    requires d.Sound() && d.nav.page == Sessions
    ensures ChosenMeans(d, MeaningOf(d.nav), a, d.ChosenRow(a))
  {
    hide Desk.Requested, Desk.WentTo, AsksFor, Rows;
    if !Void(d, a) {
      var e, m := d.Synced(a.first), MeaningOf(d.nav);
      assert e == d.(voice := a.first.voice);
      if m.OpenSessions? {
        RequestAsks(e, List, m.offset, a);
        SyncedAsks(d, a.first, m.offset, a, e.Requested(List, m.offset, a));
      }
    }
  }

  predicate MeansAt(nav: Nav, i: int, m: Meaning)
    requires nav.count <= |nav.sessions|
  {
    0 <= i < Rows(nav) && MeaningOf(nav.(cursor := i)) == m
  }

  ghost predicate Offered(nav: Nav, m: Meaning)
    requires nav.count <= |nav.sessions|
  {
    exists i :: MeansAt(nav, i, m)
  }

  /** Every page can be left by its last row, and only by that one but for Cancel; a list offers each of its
      conversations, a next page exactly if there is more, and a previous one exactly if it is not the first. */
  lemma RowsComplete(nav: Nav)
    requires nav.count <= |nav.sessions| && nav.page != Home
    ensures forall i :: MeansAt(nav, i, GoHome) <==> i == if nav.page == Reset then 0 else Rows(nav) - 1
    ensures nav.page == Sessions ==>
      && (forall j :: 0 <= j < nav.count ==> MeansAt(nav, j, Select(nav.sessions[j])))
      && (nav.more <==> Offered(nav, OpenSessions(nav.offset + nav.count)))
      && (nav.offset != 0 ==> Offered(nav, OpenSessions(if nav.offset >= 3 then nav.offset - 3 else 0)))
      && (forall i, from: nat :: nav.offset == 0 && MeansAt(nav, i, OpenSessions(from)) ==> from == nav.count && nav.more)
  {
    if nav.page == Sessions {
      if nav.more { assert MeansAt(nav, nav.count, OpenSessions(nav.offset + nav.count)); }
      if nav.offset != 0 {
        assert MeansAt(nav, nav.count + (if nav.more then 1 else 0), OpenSessions(if nav.offset >= 3 then nav.offset - 3 else 0));
      }
    }
  }

  // ---------------------------------------------------------------- what keys do

  /** Pressed while a view of this page was displayed, with nothing awaited and no confirm pending. */
  predicate InSight(d: Desk, input: Input) {
    d.req.active == 0 && d.confirm == 0 && input.view > 0 && d.pageView <= input.view <= d.view
  }

  /** A key does nothing in the setup scene; nor, but for Back and the end of a call, out of sight; nor do the volume
      keys of the home page here. */
  lemma KeysIgnored(d: Desk, input: Input)
    requires d.Sound() && !(input.action == Center && d.nav.page == Home && d.call && !input.locked)
    requires input.locked || (input.action != Back && !InSight(d, input)) || (d.nav.page == Home && (input.action == Up || input.action == Down))
    ensures d.Pressed(input) == d
  {
  }

  /** Center ends a call at once, without waiting for the display. */
  lemma CenterEndsCall(d: Desk, input: Input)
    requires d.Sound() && !input.locked && input.action == Center && d.nav.page == Home && d.call
    ensures d.Pressed(input) == d.(call := false, confirm := 0)
  {
  }

  /** A heard Up or Down moves the cursor by one row around the ends, in a new view, and nothing else. */
  lemma ArrowsMove(d: Desk, input: Input)
    requires d.Sound() && !input.locked && d.nav.page != Home && InSight(d, input) && (input.action == Up || input.action == Down)
    ensures var e := d.Pressed(input);
      && e == d.(nav := d.nav.(cursor := e.nav.cursor), view := d.view + 1)
      && (input.action == Down ==> e.nav.cursor == if d.nav.cursor + 1 == Rows(d.nav) then 0 else d.nav.cursor + 1)
      && (input.action == Up ==> e.nav.cursor == if d.nav.cursor == 0 then Rows(d.nav) - 1 else d.nav.cursor - 1)
  {
    hide Desk.WentTo, Desk.WentBack, Rows;
    StepByOne(d.nav.cursor, Rows(d.nav));
  }

  lemma StepByOne(c: nat, n: nat)
    requires c < n
    ensures (c + n - 1) % n == if c == 0 then n - 1 else c - 1
    ensures (c + 1) % n == if c + 1 == n then 0 else c + 1
  {
    if c > 0 {
      assert c + n - 1 == n + (c - 1);
      Around(c - 1, n);
    }
  }

  lemma Around(c: nat, n: nat)
    requires c < n
    ensures (n + c) % n == c
  {
    assert (n + c) / n == 1;
  }

  /** And the other arrow undoes it. */
  lemma ArrowsUndo(d: Desk, first: Input, second: Input)
    requires d.Sound() && !first.locked && !second.locked && d.nav.page != Home
    requires (first.action == Up && second.action == Down) || (first.action == Down && second.action == Up)
    requires InSight(d, first) && d.Pressed(first).Sound() && InSight(d.Pressed(first), second)
    ensures d.Pressed(first).Pressed(second).nav == d.nav
  {
    ArrowsMove(d, first);
    ArrowsMove(d.Pressed(first), second);
    assert Rows(d.Pressed(first).nav) == Rows(d.nav);
  }

  /** A confirm becomes pending exactly when it is heard and does not end a call; the menu key opens the menu. */
  lemma CenterAndMenu(d: Desk, input: Input)
    requires d.Sound()
    ensures d.confirm == 0 ==>
      (d.Pressed(input).confirm != 0 <==>
        !input.locked && input.action == Center && InSight(d, input) && !(d.nav.page == Home && d.call))
    ensures d.Pressed(input).confirm != 0 && d.confirm == 0 ==> d.Pressed(input) == d.(confirm := d.view)
    ensures !input.locked && input.action == MenuKey && InSight(d, input) ==>
      Opened(d, Menu, d.Pressed(input)) && !d.Pressed(input).call
  {
  }

  /** Back gives up the pending confirm and ends a wait, else a call, else the page. */
  lemma BackLeaves(d: Desk, input: Input)
    requires d.Sound() && !input.locked && input.action == Back
    ensures var e := d.Pressed(input);
      && e.confirm == 0 && e.req.active == 0 && e.session == d.session && e.agent == d.agent
      && (d.req.active != 0 ==> e.nav == d.nav && e.call == d.call && e.view > d.view)
      && (d.req.active == 0 && d.call ==> Opened(d, Home, e) && !e.call)
      && (d.req.active == 0 && !d.call && d.nav.page == Menu ==> Opened(d, Home, e))
      && (d.req.active == 0 && !d.call && (d.nav.page == Sessions || d.nav.page == Reset) ==> Opened(d, Menu, e))
      && (d.req.active == 0 && !d.call && d.nav.page == Home ==> e == d.(confirm := 0))
  {
  }

  // ---------------------------------------------------------------- what a result does

  /** An applied result ends the wait. A list for the bound agent is shown from its first row; a created session
      becomes the session, back home. An error, another agent or an empty name leave the rows as the question
      about the agent left them. */
  lemma ResultDoes(d: Desk, result: Result, b: Bound)
    requires Applies(d.req, result.id)
    ensures var e := d.Received(result, b);
      var usable := b != Outage && result.agent == b.id && result.ok;
      && e.req.active == 0 && e.req.inflight == 0 && e.asked == d.asked
      && (usable && result.kind == List ==>
            && e.nav == Nav(Sessions, 0, |result.sessions|, result.offset, result.offset + |result.sessions| < result.total, result.sessions)
            && e.view > d.view && e.pageView == e.view && e.agent == result.agent)
      && (usable && result.kind == Create && result.created != 0 ==> Opened(d, Home, e) && e.session == result.created)
      && (!usable || (result.kind == Create && result.created == 0) ==>
            e == d.(req := Completed(d.req, result.id)).Synced(b))
  {
  }

  /** Any other result changes at most that nothing is in flight any more. */
  lemma OtherResultDoesNothing(d: Desk, result: Result, b: Bound)
    requires !Applies(d.req, result.id)
    ensures d.Received(result, b) == d.(req := Completed(d.req, result.id))
  {
  }

  // ---------------------------------------------------------------- the bound agent

  /** Asking about the agent: an outage forgets it, and ends the call or leaves the page, but keeps what is saved;
      another agent ends the call, goes home, and keeps the session only if it was that agent's before; the same
      agent changes nothing but whether it speaks. */
  lemma AgentKnown(d: Desk, b: Bound)
    ensures var e := d.Synced(b);
      match b
      case Outage =>
        && e.agent == 0 && !e.voice && e.session == d.session && e.savedAgent == d.savedAgent
        && (d.agent != 0 ==> !e.call && e.nav.page == Home && (d.call || d.nav.page != Home ==> e.view > d.view))
        && (d.agent == 0 ==> e == d.(voice := false))
      case Agent(id, speaks) =>
        && e.agent == id && e.voice == speaks
        && (d.agent == id ==> e == d.(voice := speaks))
        && (d.agent != id ==>
              && Opened(d, Home, e.(voice := d.voice)) && !e.call && e.savedAgent == id
              && e.session == if d.savedAgent == id then d.session else 0)
  {
  }

  /** A turn that polls ends with the agent the platform told, and a call that ended is over. */
  lemma TurnKnowsAgent(d: Desk, o: Outside)
    requires d.Sound()
    ensures o.polled.Some? ==> d.Turned(o).agent == (match o.polled.value case Outage => 0 case Agent(id, _) => id)
    ensures o.callEnds ==> !d.Turned(o).call
  {
    hide Desk.Attended, Desk.Confirmed, Rows;
  }

  // ---------------------------------------------------------------- the call

  /** A call is only ever on the home page, with an agent and a session, and with nothing awaited. */
  predicate CallSound(d: Desk) { d.call ==> d.nav.page == Home && d.agent != 0 && d.session != 0 && d.req.active == 0 }

  /** A pending confirm of this view awaits nothing. */
  predicate ConfirmFree(d: Desk) { d.confirm <= d.view && (d.confirm == d.view ==> d.req.active == 0) }

  lemma FollowsFree(d: Desk, e: Desk)
    requires d.Sound() && ConfirmFree(d) && Follows(d, e)
    ensures ConfirmFree(e)
  {
    hide Rows;
  }

  lemma SyncedCall(d: Desk, b: Bound)
    requires CallSound(d)
    ensures CallSound(d.Synced(b)) && (d.Synced(b).call ==> d.call)
  {
    hide Rows;
  }

  lemma RequestedCall(d: Desk, kind: JobKind, from: nat, a: Answers)
    ensures !d.Requested(kind, from, a).call
  {
    hide Rows, Desk.WentTo;
  }

  lemma ReceivedCall(d: Desk, result: Result, b: Bound)
    requires CallSound(d)
    ensures CallSound(d.Received(result, b))
  {
    hide Rows, Desk.Synced;
    SyncedCall(d.(req := Completed(d.req, result.id)), b);
  }

  lemma PressedCall(d: Desk, input: Input)
    requires d.Sound() && CallSound(d) && ConfirmFree(d)
    ensures CallSound(d.Pressed(input)) && ConfirmFree(d.Pressed(input))
  {
    hide Rows;
  }

  lemma ChosenCall(d: Desk, a: Answers)
    requires d.Sound() && CallSound(d) && d.req.active == 0
    ensures CallSound(d.Chosen(a))
  {
    hide Rows, Desk.Requested, Desk.Synced, MeaningOf;
    SyncedCall(d, a.first);
    var e := d.Synced(a.first);
    RequestedCall(d, List, 0, a);
    RequestedCall(d, Create, 0, a);
    RequestedCall(e, List, 0, a);
    if d.nav.page == Sessions && MeaningOf(d.nav).OpenSessions? { RequestedCall(e, List, MeaningOf(d.nav).offset, a); }
    SyncedWaits(d, a.first);
  }

  /** Asking about the agent begins no wait, and finds it when there is one. */
  lemma SyncedWaits(d: Desk, b: Bound)
    ensures d.req.active == 0 ==> d.Synced(b).req.active == 0
    ensures b.Agent? ==> d.Synced(b).agent == b.id
    ensures d.nav.page == Home ==> d.Synced(b).nav.page == Home
  {
    hide Rows;
  }

  lemma AttendedCall(d: Desk, o: Outside)
    requires d.Sound() && CallSound(d) && ConfirmFree(d)
    ensures CallSound(d.Attended(o)) && ConfirmFree(d.Attended(o))
  {
    hide Rows, Desk.Received, Desk.Pressed, Desk.Sound, CallSound, ConfirmFree, Follows;
    var e := if o.setup then d.SetUp() else d;
    if o.setup { SetUpCall(d); }
    var f := if o.result.Some? then e.Received(o.result.value, o.resultBound) else e;
    if o.result.Some? {
      ReceivedCall(e, o.result.value, o.resultBound);
      FollowsFree(e, f);
    }
    if o.result.Some? || o.setup { FollowsSound(d, e); FollowsSound(e, f); }
    if o.input.Some? { PressedCall(f, o.input.value); }
  }

  lemma SetUpCall(d: Desk)
    requires d.Sound() && ConfirmFree(d)
    ensures CallSound(d.SetUp()) && ConfirmFree(d.SetUp()) && d.SetUp().Sound()
  {
    hide Rows;
  }

  lemma FollowsSound(d: Desk, e: Desk)
    ensures d.Sound() && Follows(d, e) ==> e.Sound()
  {
    hide Desk.Sound;
  }

  /** Every turn keeps it so. */
  lemma TurnKeepsCall(d: Desk, o: Outside)
    requires d.Sound() && CallSound(d) && ConfirmFree(d)
    ensures CallSound(d.Turned(o))
  {
    hide Rows, Desk.Attended, Desk.Chosen, Desk.Synced;
    AttendedCall(d, o);
    var e := d.Attended(o);
    if e.Fires(o.locked, o.displayed) { ChosenCall(e.Firing(), o.answers); }
    var f := e.Confirmed(o.locked, o.displayed, o.answers);
    if o.polled.Some? { SyncedCall(f, o.polled.value); }
  }
}
