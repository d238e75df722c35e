/** The control task and the display worker of firmware/apps/waveshare-epaper-397-wifi together: what the panel
    shows when a confirm fires. The worker may be at work on any screen published so far, and everything a screen
    says besides its rows is free. */
module EpaperDevice {
  import opened Basics
  import opened EpaperDesk
  import opened EpaperController
  import opened EpaperPaint
  import EpaperUi
  import ContentKey
  import ContentTold

  // ---------------------------------------------------------------- rows of a screen

  /** The name of a listed conversation, empty where the platform gives none. */
  type Naming = int -> string

  const CHOOSE_SESSION := "选择已有会话"
  const NEW_SESSION := "创建新会话"
  const RESET_ACTIVATION := "重置平台激活"
  const CANCEL := "取消"
  const CONFIRM_RESET := "确认重置激活"
  const NEXT_PAGE := "下一页"
  const PREVIOUS_PAGE := "上一页"
  const BACK := "返回"

  const NO_ROWS: seq<string> := ["", "", "", "", "", ""]

  /** A conversation's row. */
  function Numbered(number: nat, name: string): string {
    ContentKey.Decimal(number) + ". " + if name != "" then name else "Conversation"
  }

  function RowText(nav: Nav, naming: Naming, i: nat): string
    requires nav.count <= |nav.sessions|
  {
    match nav.page
    case Home => ""
    case Menu => if i == 0 then CHOOSE_SESSION else if i == 1 then NEW_SESSION else if i == 2 then RESET_ACTIVATION else BACK
    case Reset => if i == 0 then CANCEL else CONFIRM_RESET
    case Sessions =>
      if i < nav.count then Numbered(nav.offset + i + 1, naming(nav.sessions[i]))
      else if nav.more && i == nav.count then NEXT_PAGE
      else if nav.offset != 0 && i == nav.count + (if nav.more then 1 else 0) then PREVIOUS_PAGE
      else BACK
  }

  /** What the words of the marked row promise its confirm will do. */
  predicate Promises(nav: Nav, naming: Naming, words: string, m: Meaning) {
    match nav.page
    case Home => true
    case Menu =>
      && (words == CHOOSE_SESSION <==> m == OpenSessions(0)) && (words == NEW_SESSION <==> m == CreateSession)
      && (words == RESET_ACTIVATION <==> m == OpenReset) && (words == BACK <==> m == GoHome)
      && (m == OpenSessions(0) || m == CreateSession || m == OpenReset || m == GoHome)
    case Reset => (words == CONFIRM_RESET <==> m == Forget) && (words == CANCEL <==> m == GoHome) && (m == Forget || m == GoHome)
    case Sessions =>
      if m.Select? then
        && nav.cursor < nav.count <= |nav.sessions| && m.session == nav.sessions[nav.cursor]
        && words == Numbered(nav.offset + nav.cursor + 1, naming(m.session))
      else
        && nav.cursor >= nav.count
        && (words == NEXT_PAGE <==> m == OpenSessions(nav.offset + nav.count))
        && (words == PREVIOUS_PAGE <==> nav.offset != 0 && m == OpenSessions(if nav.offset >= 3 then nav.offset - 3 else 0))
        && (words == BACK <==> m == GoHome)
        && (m == GoHome || m.OpenSessions?) && (words == NEXT_PAGE ==> nav.more)
  }

  /** Every row says what it does. */
  lemma RowPromises(nav: Nav, naming: Naming, i: nat)
    requires nav.count <= |nav.sessions| && i < Rows(nav)
    ensures var here := nav.(cursor := i); Promises(here, naming, RowText(nav, naming, i), MeaningOf(here))
  {
    hide Numbered;
  }

  function RowTexts(nav: Nav, naming: Naming): (rows: seq<string>)
    requires nav.count <= |nav.sessions|
    ensures |rows| == 6
  {
    seq(6, i requires 0 <= i < 6 => if nav.page != Home && i < Rows(nav) then RowText(nav, naming, i) else "")
  }

  /** The rows and the marker of a published screen. */
  predicate Draws(s: Shown, naming: Naming, screen: Screen) {
    && s.nav.count <= |s.nav.sessions| && screen.view == s.view
    && screen.rows == (if s.busy then NO_ROWS else RowTexts(s.nav, naming))
    && screen.selected == if s.busy || s.nav.page == Home then -1 else s.nav.cursor
  }

  function Drawn(s: Shown, naming: Naming, look: Screen): (screen: Screen)
    requires s.nav.count <= |s.nav.sessions|
    ensures Draws(s, naming, screen)
  {
    look.(view := s.view, rows := if s.busy then NO_ROWS else RowTexts(s.nav, naming),
          selected := if s.busy || s.nav.page == Home then -1 else s.nav.cursor)
  }

  /** A content the worker's shortcuts and its key cannot get wrong. */
  predicate Simple(content: Content) {
    && EpaperUi.Quiet(content) && ContentKey.Plainly(content)
    && (content.status.code == "" ==> !ContentTold.NamesCode(content.status.hint))
  }

  /** Of two such contents, unchanged ones have the same picture and the same scene. */
  lemma SimpleCompares(a: Content, b: Content)
    requires Simple(a) && Simple(b) && ContentKey.Key(a.screen, a.status) == ContentKey.Key(b.screen, b.status)
    ensures ContentKey.Comparable(a, b) && a.status.phase == b.status.phase
  {
    hide ContentKey.Key, ContentKey.Plainly;
    ContentKey.SameKeySameFields(a, b);
    if a.status.code == "" { ContentTold.LineIsHint(b, a); }
    if b.status.code == "" { ContentTold.LineIsHint(a, b); }
  }

  /** With rows, outside the setup scene, every row's text is drawn and the marker beside the selected one. */
  lemma RowsAreDrawn(content: Content, i: nat)
    requires i < 6 && content.status.phase != Setup && HasRows(content.screen)
    ensures Text(50, MarkerTop(i), 460, MarkerTop(i) + 60, Plain(content.screen.rows[i]), 1) in FullOps(content)
    ensures content.screen.selected == i ==> Text(20, MarkerTop(i), 44, MarkerTop(i) + 50, Marker, 1) in FullOps(content)
  {
    RowsFrom(content.screen, 0, i);
    var lower := LowerOps(content);
    assert lower == RowOps(content.screen, 0);
    assert forall op :: op in lower ==> op in BodyOps(content);
  }

  lemma {:induction false} RowsFrom(screen: Screen, from: nat, i: nat)
    requires from <= i < 6
    decreases i - from
    ensures Text(50, MarkerTop(i), 460, MarkerTop(i) + 60, Plain(screen.rows[i]), 1) in RowOps(screen, from)
    ensures screen.selected == i ==> Text(20, MarkerTop(i), 44, MarkerTop(i) + 50, Marker, 1) in RowOps(screen, from)
  {
    if from < i { RowsFrom(screen, from + 1, i); }
  }

  // ---------------------------------------------------------------- the two tasks

  /** Each published screen is drawn with its rows. */
  ghost predicate AllDrawn(published: seq<Shown>, screens: seq<Screen>, naming: Naming) {
    |screens| == |published| && forall i :: 0 <= i < |screens| ==> Draws(published[i], naming, screens[i])
  }

  /** The panel shows what is reported as displayed, unless a failed transfer left its image unknown. */
  ghost predicate Faithful(ui: EpaperUi.Ui, seen: Content)
    reads ui, ui.previous
  {
    && ui.Pictured() && (ui.key != "" ==> Simple(ui.painted))
    && (ui.displayed != 0 ==> (ui.displayedSetup <==> seen.status.phase == Setup) && (ui.paintedValid ==> ui.PanelShows(seen)))
  }

  class Device {
    const control: Controller
    const ui: EpaperUi.Ui
    const naming: Naming
    /** What each published screen looks like. */
    ghost var screens: seq<Screen>
    /** The content last reported as displayed. */
    ghost var seen: Content
    /** Whether every content the worker has looked at was simple. */
    ghost var simple: bool

    ghost predicate Valid()
      reads this, control, control.requests, control.confirm, ui, ui.previous, ui.refresh
    {
      && control.Valid() && CallSound(control.Now()) && ui.Valid() && AllDrawn(control.published, screens, naming)
      && (ui.displayed != 0 ==> seen.screen in screens && seen.screen.view == ui.displayed && ui.key != "")
      && (simple ==> Faithful(ui, seen))
    }

    constructor (storedAgent: int, storedSession: int, font: Font, blank: Content, naming: Naming)
      ensures Valid() && fresh(control) && fresh(ui) && simple
    {
      control := new Controller(storedAgent, storedSession);
      ui := new EpaperUi.Ui(font, blank);
      this.naming := naming;
      new;
      screens := [Drawn(control.published[0], naming, blank.screen)];
      seen, simple := blank, true;
    }

    /** One turn of the control task; `look` is what the new screen says besides its rows. A confirm that fires
        performs the row recorded at its request. On the content reported as displayed that very row is marked, or
        this content is the notice of a wait that ended in this view; and the panel shows it, or the last
        transfer failed and the panel's image is unknown. */
    method Turn(o: Outside, look: Screen) returns (ghost fired: bool)
      requires Valid() && o.displayed == ui.displayed && (ui.displayedSetup ==> o.locked)
      modifies this, control, control.requests, control.confirm
      ensures Valid() && control.Now() == old(control.Now()).Turned(o)
      ensures seen == old(seen) && simple == old(simple)
      ensures var d := old(control.Now()).Attended(o);
        && fired == d.Fires(o.locked, o.displayed)
        && (fired ==> Carried(control.target, naming, control.quietView, d, o, seen.screen))
      ensures |screens| == |old(screens)| + 1 && screens[..|old(screens)|] == old(screens)
      ensures ShowsRows(control.Now(), naming, screens[|screens| - 1])
      ensures fired && simple ==> seen.status.phase != Setup && if ui.paintedValid then ui.PanelShows(seen) else ui.Lost()
    {
      hide AllDrawn, Acted, Rows, ChosenMeans, Desk.Turned, Desk.Attended, Desk.Confirmed, MeaningOf, Carried,
        CallSound, ShowsRows, EpaperUi.Ui.Logged, EpaperUi.Fresh, FullOps, Shows, Simple, Truthful, Consistent, Draws, Faithful,
        EpaperUi.Ui.Valid, Controller.Valid;
      KnowsSound(control);
      if ui.displayed != 0 { var _ := Published(control.published, screens, naming, seen.screen); }
      ghost var published, d := control.published, control.Now().Attended(o);
      fired := control.Turn(o);
      KnowsSound(control);
      if fired { ActedOnSeen(published, screens, naming, control.target, control.quietView, d, o, seen.screen); }
      var shown := control.published[|control.published| - 1];
      DrawnToo(published, screens, naming, shown, look);
      screens := screens + [Drawn(shown, naming, look)];
      DrawnShows(control.Now(), shown, naming, Drawn(shown, naming, look));
      if fired && simple { FaithfulSeen(ui, seen); }
    }

    /** One turn of the display worker, on a screen published at some time. */
    method Iterate(input: EpaperUi.Input) returns (ghost shown: bool)
      requires Valid() && input.content.screen in screens
      modifies this, ui, ui.frame, ui.previous, ui.refresh
      ensures Valid() && screens == old(screens) && control.Now() == old(control.Now())
      ensures simple == (old(simple) && Simple(input.content))
      ensures seen == (if shown then input.content else old(seen))
      ensures ui.displayed == if shown then input.content.screen.view else old(ui.displayed)
    {
      hide AllDrawn, Faithful, Simple, Truthful, Consistent, EpaperUi.Ui.Valid, Controller.Valid, Controller.Now;
      shown := Work(ui, input, seen, simple && Simple(input.content));
      if shown { seen := input.content; }
      simple := simple && Simple(input.content);
    }
  }

  method Work(ui: EpaperUi.Ui, input: EpaperUi.Input, ghost seen: Content, ghost simple: bool) returns (ghost shown: bool)
    requires ui.Valid() && (ui.displayed != 0 ==> ui.key != "") && (simple ==> Simple(input.content) && Faithful(ui, seen))
    modifies ui, ui.frame, ui.previous, ui.refresh
    ensures ui.Valid() && ui.frame == old(ui.frame) && ui.previous == old(ui.previous) && ui.refresh == old(ui.refresh)
    ensures ui.displayed == (if shown then input.content.screen.view else old(ui.displayed))
    ensures (shown ==> ui.key != "") && (old(ui.key) != "" ==> ui.key != "")
    ensures simple ==> Faithful(ui, if shown then input.content else seen)
  {
    hide Simple, ContentKey.Changed, ContentKey.Comparable, ContentKey.Key, FullOps, Shows, InkedBy, Safe, EpaperUi.LogSound, EpaperUi.PanelAfter,
      EpaperUi.Incremental, EpaperUi.Quiet;
    if simple { Trusted(ui.painted, input.content); }
    ContentKey.ChangedFromNothing(input.content, ui.painted.answer);
    shown := ui.Iterate(input);
  }

  lemma FaithfulSeen(ui: EpaperUi.Ui, seen: Content)
    requires ui.Valid() && Faithful(ui, seen) && ui.displayed != 0 && ui.key != "" && !ui.displayedSetup
    ensures seen.status.phase != Setup && if ui.paintedValid then ui.PanelShows(seen) else ui.Lost()
  {
    hide EpaperUi.LogSound, EpaperUi.PanelAfter, Shows, FullOps, Simple;
    EpaperUi.ValidLog(ui.log, ui.refresh.valid, ui.refresh.partials, ui.refresh.scene, ui.refresh.page);
  }

  /** The worker's shortcut and its key do right by a simple content. */
  lemma Trusted(painted: Content, next: Content)
    requires Simple(next)
    ensures EpaperUi.Incremental(painted, next) ==> Safe(painted, next)
    ensures ContentKey.Comparable(next, next)
    ensures Simple(painted) && !ContentKey.Changed(next, ContentKey.Key(painted.screen, painted.status), painted.answer) ==>
      ContentKey.Comparable(next, painted) && next.status.phase == painted.status.phase
  {
    hide EpaperUi.Incremental, Safe, ContentKey.Key;
    EpaperUi.QuietIsSafe(painted, next);
    if Simple(painted) && !ContentKey.Changed(next, ContentKey.Key(painted.screen, painted.status), painted.answer) {
      SimpleCompares(next, painted);
    }
  }

  // ---------------------------------------------------------------- the row in sight

  /** The screen lists the rows of the navigation state and marks the current one; home lists none. */
  predicate Marked(nav: Nav, naming: Naming, screen: Screen) {
    && nav.count <= |nav.sessions| && screen.rows == RowTexts(nav, naming)
    && screen.selected == if nav.page == Home then -1 else nav.cursor
  }

  /** The confirm that fires in `d` carries out the meaning of the recorded row, the one marked on this screen,
      unless a wait ended in this view. */
  ghost predicate Carried(target: Nav, naming: Naming, quietView: nat, d: Desk, o: Outside, screen: Screen)
    requires d.Sound()
  {
    && d.nav == target && target.count <= |target.sessions|
    && (quietView != d.view && target.page != Home ==>
          && 0 <= screen.selected < 6
          && Promises(target, naming, screen.rows[screen.selected], MeaningOf(target)))
    && ChosenMeans(d.Firing(), MeaningOf(target), o.answers, d.Confirmed(o.locked, o.displayed, o.answers))
    && (quietView == d.view || Marked(target, naming, screen))
  }

  /** While a request is awaited a screen has neither rows nor marker; otherwise it lists the page's rows, in their
      order from the top, and marks the cursor's; home has none. */
  predicate ShowsRows(d: Desk, naming: Naming, screen: Screen) {
    && d.nav.count <= |d.nav.sessions|
    && if d.req.active != 0 then !HasRows(screen) && !Selectable(screen.selected) else Marked(d.nav, naming, screen)
  }

  lemma KnowsSound(control: Controller)
    requires control.Valid()
    ensures control.Now().Sound()
  {
    hide Rows, Truthful;
  }

  lemma DrawnShows(d: Desk, s: Shown, naming: Naming, screen: Screen)
    requires s == Shown(d.view, d.req.active != 0, d.nav) && Draws(s, naming, screen)
    ensures ShowsRows(d, naming, screen)
  {
  }

  lemma Published(published: seq<Shown>, screens: seq<Screen>, naming: Naming, screen: Screen) returns (s: Shown)
    requires AllDrawn(published, screens, naming) && screen in screens
    ensures s in published && s.view == screen.view && Draws(s, naming, screen)
  {
    var k: nat :| k < |screens| && screens[k] == screen;
    s := published[k];
  }

  lemma DrawnToo(published: seq<Shown>, screens: seq<Screen>, naming: Naming, s: Shown, look: Screen)
    requires AllDrawn(published, screens, naming) && s.nav.count <= |s.nav.sessions|
    ensures AllDrawn(published + [s], screens + [Drawn(s, naming, look)], naming)
  {
    hide Draws;
  }

  lemma ActedOnSeen(published: seq<Shown>, screens: seq<Screen>, naming: Naming, target: Nav, quietView: nat, d: Desk,
                    o: Outside, screen: Screen)
    requires AllDrawn(published, screens, naming) && screen in screens && screen.view == d.view && d.Sound()
    requires Acted(published, target, quietView, d, o.answers, d.Confirmed(o.locked, o.displayed, o.answers))
    ensures Carried(target, naming, quietView, d, o, screen)
  {
    hide AllDrawn, ChosenMeans, MeaningOf, Rows, RowText, Promises, Draws, Desk.Confirmed;
    var s := Published(published, screens, naming, screen);
    if !s.busy {
      MarkedRow(s, target, naming, screen);
      RowsAtMostSix(target);
      RowPromises(target, naming, target.cursor);
      assert target.(cursor := target.cursor) == target;
    }
  }

  lemma RowsAtMostSix(nav: Nav)
    requires nav.count <= |nav.sessions|
    ensures Rows(nav) <= 6
  {
  }

  lemma MarkedRow(s: Shown, target: Nav, naming: Naming, screen: Screen)
    requires Draws(s, naming, screen) && s.nav == target && !s.busy
    ensures Marked(target, naming, screen)
  {
  }
}
