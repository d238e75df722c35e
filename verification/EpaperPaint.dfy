/** What firmware/apps/waveshare-epaper-397-wifi/epaper_wifi_ui.cc paints, and why its two fast repaints
    leave the same pixels as painting everything again. */
module EpaperPaint {
  import opened EpaperFrame

  datatype Phase = Idle | Setup | Connecting | Pairing | Blocked | Connected | Ready

  datatype Status = Status(phase: Phase, code: string, title: string, hint: string)

  datatype ScreenData = Screen(
    view: nat, title: string, detail: string, rows: seq<string>, selected: int, footer: string,
    agent: string, session: string, setupSsid: string, volume: int, battery: int, page: int, charging: bool)

  type Screen = s: ScreenData | |s.rows| == 6 witness Screen(1, "", "", ["", "", "", "", "", ""], -1, "", "", "", "", 60, -1, 0, false)

  /** One thing to show: the three values the display worker copies before it compares and paints. */
  datatype Content = Content(screen: Screen, status: Status, answer: string)

  // ---------------------------------------------------------------- drawing operations

  datatype LinkWord = Online | AwaitingActivation | AwaitingSetup | LinkConnecting | Offline

  /** The text handed to `Ui::Text`. Formatted texts carry the values formatted into them. */
  datatype Wording =
    | Plain(text: string)
    | Caption(which: nat)
    | Link(word: LinkWord)
    | Volume(percent: int)
    | Battery(plus: bool, percent: int)
    | UsbPower
    | UnknownBattery
    | Identity(agent: string, session: string)
    | Marker

  datatype Op =
    | Text(left: int, top: int, right: int, bottom: int, wording: Wording, scale: int)
    | Rule(y: int)

  /** The rasteriser: which pixels a text asks for, before clipping. Glyphs and line breaking are free. */
  type Font = Op -> seq<(int, int)>

  predicate Inked(font: Font, op: Op, x: int, y: int) {
    match op
    case Text(left, top, right, bottom, _, _) => InTextBox(x, y, left, top, right, bottom) && (x, y) in font(op)
    case Rule(ry) => 16 <= x < 464 && y == ry
  }

  predicate InkedBy(font: Font, ops: seq<Op>, x: int, y: int) {
    exists op :: op in ops && Inked(font, op, x, y)
  }

  /** The frame is white paper with exactly these operations drawn on it. */
  ghost predicate Shows(frame: seq<bv8>, font: Font, ops: seq<Op>)
    requires |frame| == FRAME_BYTES
  {
    forall x, y :: OnUi(x, y) ==> White(frame, x, y) == !InkedBy(font, ops, x, y)
  }

  /** The operations were drawn over the older frame. */
  ghost predicate DrawnOver(before: seq<bv8>, after: seq<bv8>, font: Font, ops: seq<Op>)
    requires |before| == |after| == FRAME_BYTES
  {
    forall x, y :: OnUi(x, y) ==> White(after, x, y) == (White(before, x, y) && !InkedBy(font, ops, x, y))
  }

  /** A list of operations determines the frame bit for bit. */
  lemma ShowsIsUnique(f: seq<bv8>, g: seq<bv8>, font: Font, ops: seq<Op>)
    requires |f| == |g| == FRAME_BYTES && Shows(f, font, ops) && Shows(g, font, ops)
    ensures f == g
  {
    SamePixels(f, g);
  }

  // ---------------------------------------------------------------- the full repaint

  function LinkWordOf(phase: Phase): LinkWord {
    match phase
    case Ready => Online
    case Connected => Online
    case Pairing => AwaitingActivation
    case Setup => AwaitingSetup
    case Connecting => LinkConnecting
    case _ => Offline
  }

  function BatteryWording(screen: Screen): Wording {
    if screen.battery >= 0 then Battery(screen.charging, screen.battery)
    else if screen.battery == -1 then UsbPower else UnknownBattery
  }

  function HeaderOps(screen: Screen, status: Status): seq<Op> {
    [Text(16, 12, 150, 58, Link(LinkWordOf(status.phase)), 1),
     Text(154, 12, 330, 58, Volume(screen.volume), 1),
     Text(336, 12, 464, 58, BatteryWording(screen), 1),
     Rule(70)]
  }

  /** What the header tells apart: the volume, the battery as far as it is known, and the state of the link. */
  lemma HeaderTells(a: Screen, s: Status, b: Screen, t: Status)
    ensures HeaderOps(a, s) == HeaderOps(b, t) <==>
      && a.volume == b.volume
      && (if a.battery >= 0 then a.battery == b.battery && a.charging == b.charging
          else if a.battery == -1 then b.battery == -1 else b.battery < -1)
      && (s.phase == t.phase || {s.phase, t.phase} == {Ready, Connected} || {s.phase, t.phase} == {Idle, Blocked})
  {
    var x, y := HeaderOps(a, s), HeaderOps(b, t);
    assert x == y <==> x[0] == y[0] && x[1] == y[1] && x[2] == y[2] && x[3] == y[3];
  }

  /** `strstr`. */
  predicate Contains(text: string, part: string) {
    exists i :: 0 <= i <= |text| && part <= text[i..]
  }

  function HintOps(status: Status): seq<Op> {
    if status.hint != "" && !Contains(status.hint, "Join ")
    then [Text(20, 478, 460, 568, Plain(status.hint), 1)] else []
  }

  function SetupOps(screen: Screen): seq<Op> {
    [Text(20, 94, 460, 146, Caption(0), 1),
     Text(20, 164, 460, 210, Caption(1), 1),
     Text(20, 214, 460, 262, if screen.setupSsid != "" then Plain(screen.setupSsid) else Caption(2), 1),
     Text(20, 286, 460, 332, Caption(3), 1),
     Text(20, 336, 460, 384, Caption(4), 1),
     Text(20, 408, 460, 454, Caption(5), 1)]
  }

  function TopOps(screen: Screen, status: Status): seq<Op> {
    if status.phase == Setup then SetupOps(screen) + HintOps(status)
    else if status.code != "" then
      [Text(20, 94, 460, 146, Caption(6), 1),
       Text(20, 158, 460, 244, Plain(status.code), 2),
       Text(20, 262, 460, 310, Caption(7), 1)]
    else if status.phase != Ready && status.phase != Connected then
      [Text(20, 94, 460, 146, Plain(screen.title), 1),
       Text(20, 158, 460, 204, Plain(status.title), 1),
       Text(20, 214, 460, 304, Plain(status.hint), 1)]
    else
      [Text(20, 94, 460, 146, Plain(screen.title), 1),
       Text(20, 158, 460, 240, Identity(screen.agent, screen.session), 1),
       Text(20, 244, 460, 306, Plain(screen.detail), 1)]
  }

  predicate Selectable(selected: int) { 0 <= selected < 6 }

  function MarkerTop(i: int): int { 312 + i * 62 }

  function MarkerOps(selected: int): seq<Op> {
    if Selectable(selected) then [Text(20, MarkerTop(selected), 44, MarkerTop(selected) + 50, Marker, 1)] else []
  }

  /** Rows from `i` on, each with its marker if it is the selected one. */
  function RowOps(screen: Screen, i: nat): seq<Op>
    requires i <= 6
    decreases 6 - i
  {
    if i == 6 then [] else
      (if screen.selected == i then MarkerOps(i) else [])
      + [Text(50, MarkerTop(i), 460, MarkerTop(i) + 60, Plain(screen.rows[i]), 1)]
      + RowOps(screen, i + 1)
  }

  predicate HasRows(screen: Screen) { screen.rows[0] != "" }

  function LowerOps(content: Content): seq<Op> {
    if content.status.phase == Setup then []
    else if HasRows(content.screen) then RowOps(content.screen, 0)
    else if content.answer != "" then
      [Text(20, 312, 460, 360, Caption(8), 1), Text(20, 364, 460, 680, Plain(content.answer), 1)]
    else []
  }

  function FooterOps(screen: Screen, status: Status): seq<Op> {
    [Rule(692),
     Text(20, 708, 460, 795, if status.phase == Setup then Caption(9) else Plain(screen.footer), 1)]
  }

  function BodyOps(content: Content): seq<Op> {
    TopOps(content.screen, content.status) + LowerOps(content) + FooterOps(content.screen, content.status)
  }

  function FullOps(content: Content): seq<Op> {
    HeaderOps(content.screen, content.status) + BodyOps(content)
  }

  /** The text is drawn somewhere. */
  ghost predicate Reads(content: Content, w: Wording) {
    exists op :: op in FullOps(content) && op.Text? && op.wording == w
  }

  lemma TopReads(content: Content, i: nat)
    requires i < |TopOps(content.screen, content.status)| && TopOps(content.screen, content.status)[i].Text?
    ensures Reads(content, TopOps(content.screen, content.status)[i].wording)
  {
    hide TopOps, LowerOps, HeaderOps;
    var op := TopOps(content.screen, content.status)[i];
    assert op in BodyOps(content);
    assert op in FullOps(content);
  }

  lemma LowerReads(content: Content, op: Op)
    requires (op in LowerOps(content) || op in FooterOps(content.screen, content.status)) && op.Text?
    ensures Reads(content, op.wording)
  {
    hide TopOps, LowerOps, HeaderOps, FooterOps;
    assert op in BodyOps(content);
    assert op in FullOps(content);
  }

  /** What a person can read on the panel in the setup scene: the hotspot, or that it is starting, and a hint unless it
      repeats how to join. */
  lemma SetupReads(content: Content)
    requires content.status.phase == Setup
    ensures var s, c := content.status, content.screen;
      && Reads(content, if c.setupSsid != "" then Plain(c.setupSsid) else Caption(2))
      && (s.hint != "" && !Contains(s.hint, "Join ") ==> Reads(content, Plain(s.hint)))
  {
    hide Contains, Reads;
    TopReads(content, 2);
    if HintOps(content.status) != [] { TopReads(content, 6); }
  }

  /** In every other: the code, if there is one; before the link is up both titles and the hint; otherwise title, agent,
      session and detail. And without rows the answer, and always the footer. */
  lemma SceneReads(content: Content)
    requires content.status.phase != Setup
    ensures var s, c := content.status, content.screen;
      && (s.code != "" ==> Reads(content, Plain(s.code)))
      && (s.code == "" && s.phase != Ready && s.phase != Connected ==>
            Reads(content, Plain(c.title)) && Reads(content, Plain(s.title)) && Reads(content, Plain(s.hint)))
      && (s.code == "" && (s.phase == Ready || s.phase == Connected) ==>
            Reads(content, Plain(c.title)) && Reads(content, Identity(c.agent, c.session)) && Reads(content, Plain(c.detail)))
      && (!HasRows(c) && content.answer != "" ==> Reads(content, Plain(content.answer)))
      && Reads(content, Plain(c.footer))
  {
    hide Reads, RowOps;
    TopReads(content, 0);
    TopReads(content, 1);
    TopReads(content, 2);
    var footer := FooterOps(content.screen, content.status);
    assert footer[1] in footer;
    LowerReads(content, footer[1]);
    if !HasRows(content.screen) && content.answer != "" {
      assert LowerOps(content)[1] in LowerOps(content);
      LowerReads(content, LowerOps(content)[1]);
    }
  }

  /** Both lines are always there. */
  lemma LinesDrawn(content: Content)
    ensures Rule(70) in FullOps(content) && Rule(692) in FullOps(content)
  {
    hide TopOps, LowerOps;
    HeaderRule(content.screen, content.status);
    assert FooterOps(content.screen, content.status)[0] == Rule(692);
    assert Rule(692) in BodyOps(content);
  }

  lemma HeaderRule(screen: Screen, status: Status)
    ensures Rule(70) in HeaderOps(screen, status)
  {
    assert HeaderOps(screen, status)[3] == Rule(70);
  }

  // ---------------------------------------------------------------- which repaint is chosen

  predicate SameLayout(a: Screen, b: Screen, selection: bool) {
    && a.page == b.page && (selection ==> a.selected == b.selected) && a.title == b.title
    && a.detail == b.detail && a.footer == b.footer && a.agent == b.agent
    && a.session == b.session && a.setupSsid == b.setupSsid && a.rows == b.rows
  }

  predicate SameHeader(a: Screen, b: Screen) {
    a.volume == b.volume && a.battery == b.battery && a.charging == b.charging
  }

  predicate SameStatus(a: Status, b: Status) {
    a.phase == b.phase && a.code == b.code && a.title == b.title && (a.code != "" || a.hint == b.hint)
  }

  predicate SelectionOnly(older: Content, newer: Content) {
    && SameStatus(newer.status, older.status) && HasRows(newer.screen)
    && newer.screen.selected != older.screen.selected
    && SameHeader(newer.screen, older.screen) && SameLayout(newer.screen, older.screen, false)
  }

  predicate HeaderOnly(older: Content, newer: Content) {
    && SameStatus(newer.status, older.status) && SameLayout(newer.screen, older.screen, true)
    && (HasRows(newer.screen) || newer.answer == older.answer)
  }

  /** The colour the fast repaint leaves on a pixel that was white or black. */
  predicate WhiteAfter(font: Font, older: Content, newer: Content, was: bool, x: int, y: int) {
    if SelectionOnly(older, newer) then
      var i := older.screen.selected;
      (was || (Selectable(i) && InTextBox(x, y, 20, MarkerTop(i), 44, MarkerTop(i) + 50)))
      && !InkedBy(font, MarkerOps(newer.screen.selected), x, y)
    else
      (was || InTextBox(x, y, 16, 12, 464, 58)) && !InkedBy(font, HeaderOps(newer.screen, newer.status), x, y)
  }

  /** The fast repaint of a frame that shows the older content gives the full repaint of the newer one. */
  ghost predicate Agrees(font: Font, older: Content, newer: Content) {
    forall x, y :: OnUi(x, y) ==>
      WhiteAfter(font, older, newer, !InkedBy(font, FullOps(older), x, y), x, y) == !InkedBy(font, FullOps(newer), x, y)
  }

  /** When the fast repaint is right whatever the font. Only the setup scene can break it: it shows neither
      rows nor marker, and it shows the hint even beside a code. */
  predicate Safe(older: Content, newer: Content) {
    newer.status.phase == Setup ==>
      && HintOps(newer.status) == HintOps(older.status)
      && (SelectionOnly(older, newer) ==>
            && !Selectable(newer.screen.selected)
            && !(0 <= older.screen.selected <= 2)
            && (3 <= older.screen.selected <= 4 ==> HintOps(older.status) == []))
  }

  // ---------------------------------------------------------------- where ink can fall

  lemma InkedAppend(font: Font, a: seq<Op>, b: seq<Op>, x: int, y: int)
    ensures InkedBy(font, a + b, x, y) == (InkedBy(font, a, x, y) || InkedBy(font, b, x, y))
  {
    if InkedBy(font, a, x, y) {
      var op :| op in a && Inked(font, op, x, y);
      assert op in a + b;
    }
    if InkedBy(font, b, x, y) {
      var op :| op in b && Inked(font, op, x, y);
      assert op in a + b;
    }
  }

  predicate InHeaderBox(x: int, y: int) { InTextBox(x, y, 16, 12, 464, 58) }

  lemma HeaderInk(font: Font, screen: Screen, status: Status, x: int, y: int)
    requires InkedBy(font, HeaderOps(screen, status), x, y)
    ensures InHeaderBox(x, y) || y == 70
  {
  }

  /** The rows without their marker. */
  function RowTexts(rows: seq<string>, i: nat): seq<Op>
    requires |rows| == 6 && i <= 6
    decreases 6 - i
  {
    if i == 6 then [] else [Text(50, MarkerTop(i), 460, MarkerTop(i) + 60, Plain(rows[i]), 1)] + RowTexts(rows, i + 1)
  }

  lemma {:induction false} RowTextInk(font: Font, rows: seq<string>, i: nat, x: int, y: int)
    requires |rows| == 6 && i <= 6 && InkedBy(font, RowTexts(rows, i), x, y)
    ensures 50 <= x && MarkerTop(i) <= y < 682
    decreases 6 - i
  {
    if i < 6 {
      var first := [Text(50, MarkerTop(i), 460, MarkerTop(i) + 60, Plain(rows[i]), 1)];
      InkedAppend(font, first, RowTexts(rows, i + 1), x, y);
      if InkedBy(font, RowTexts(rows, i + 1), x, y) { RowTextInk(font, rows, i + 1, x, y); }
    }
  }

  /** The rows show their texts and, of the markers, only the selected one. */
  lemma {:induction false} RowInk(font: Font, screen: Screen, i: nat, x: int, y: int)
    requires i <= 6
    ensures InkedBy(font, RowOps(screen, i), x, y) ==
      (InkedBy(font, RowTexts(screen.rows, i), x, y)
       || (i <= screen.selected && InkedBy(font, MarkerOps(screen.selected), x, y)))
    decreases 6 - i
  {
    if i < 6 {
      var mark := if screen.selected == i then MarkerOps(i) else [];
      var text := [Text(50, MarkerTop(i), 460, MarkerTop(i) + 60, Plain(screen.rows[i]), 1)];
      InkedAppend(font, mark, text, x, y);
      InkedAppend(font, mark + text, RowOps(screen, i + 1), x, y);
      InkedAppend(font, text, RowTexts(screen.rows, i + 1), x, y);
      RowInk(font, screen, i + 1, x, y);
    }
  }

  lemma TopInk(font: Font, screen: Screen, status: Status, x: int, y: int)
    requires InkedBy(font, TopOps(screen, status), x, y)
    ensures 94 <= y && (status.phase != Setup ==> y < 310)
    ensures status.phase == Setup ==>
      || y < 262 || 286 <= y < 332 || 336 <= y < 384 || 408 <= y < 454
      || (HintOps(status) != [] && 478 <= y < 568)
  {
    InkedAppend(font, SetupOps(screen), HintOps(status), x, y);
  }

  lemma BodyInk(font: Font, content: Content, x: int, y: int)
    requires InkedBy(font, BodyOps(content), x, y)
    ensures 94 <= y
  {
    BodyParts(font, content, x, y);
    if InkedBy(font, TopOps(content.screen, content.status), x, y) {
      TopInk(font, content.screen, content.status, x, y);
    } else if InkedBy(font, LowerOps(content), x, y) {
      if HasRows(content.screen) && content.status.phase != Setup {
        RowInk(font, content.screen, 0, x, y);
        if InkedBy(font, RowTexts(content.screen.rows, 0), x, y) { RowTextInk(font, content.screen.rows, 0, x, y); }
      }
    }
  }

  lemma BodyParts(font: Font, content: Content, x: int, y: int)
    ensures InkedBy(font, BodyOps(content), x, y) ==
      (InkedBy(font, TopOps(content.screen, content.status), x, y) || InkedBy(font, LowerOps(content), x, y)
       || InkedBy(font, FooterOps(content.screen, content.status), x, y))
    ensures InkedBy(font, FullOps(content), x, y) ==
      (InkedBy(font, HeaderOps(content.screen, content.status), x, y) || InkedBy(font, BodyOps(content), x, y))
  {
    var top, lower, footer := TopOps(content.screen, content.status), LowerOps(content), FooterOps(content.screen, content.status);
    InkedAppend(font, top, lower, x, y);
    InkedAppend(font, top + lower, footer, x, y);
    InkedAppend(font, HeaderOps(content.screen, content.status), BodyOps(content), x, y);
  }

  // ---------------------------------------------------------------- the header repaint

  lemma SameBody(older: Content, newer: Content)
    requires HeaderOnly(older, newer)
    requires newer.status.phase == Setup ==> HintOps(newer.status) == HintOps(older.status)
    ensures BodyOps(newer) == BodyOps(older)
  {
    SameRows(newer.screen, older.screen, 0);
  }

  lemma {:induction false} SameRows(a: Screen, b: Screen, i: nat)
    requires i <= 6 && a.rows == b.rows && a.selected == b.selected
    ensures RowOps(a, i) == RowOps(b, i)
    decreases 6 - i
  {
    if i < 6 { SameRows(a, b, i + 1); }
  }

  lemma HeaderRepaint(font: Font, older: Content, newer: Content, x: int, y: int)
    requires HeaderOnly(older, newer) && !SelectionOnly(older, newer)
    requires newer.status.phase == Setup ==> HintOps(newer.status) == HintOps(older.status)
    ensures WhiteAfter(font, older, newer, !InkedBy(font, FullOps(older), x, y), x, y) == !InkedBy(font, FullOps(newer), x, y)
  {
    SameBody(older, newer);
    BodyParts(font, older, x, y);
    BodyParts(font, newer, x, y);
    if InkedBy(font, BodyOps(older), x, y) { BodyInk(font, older, x, y); }
    if InkedBy(font, HeaderOps(older.screen, older.status), x, y) { HeaderInk(font, older.screen, older.status, x, y); }
    assert y == 70 ==> InkedBy(font, HeaderOps(older.screen, older.status), x, y) == InkedBy(font, HeaderOps(newer.screen, newer.status), x, y) by {
      if y == 70 { RuleInk(font, older, x); RuleInk(font, newer, x); }
    }
  }

  lemma RuleInk(font: Font, content: Content, x: int)
    ensures InkedBy(font, HeaderOps(content.screen, content.status), x, 70) == (16 <= x < 464)
  {
    assert Rule(70) in HeaderOps(content.screen, content.status);
    assert Inked(font, Rule(70), x, 70) == (16 <= x < 464);
  }

  // ---------------------------------------------------------------- the marker repaint

  predicate InMarkerBox(i: int, x: int, y: int) {
    Selectable(i) && InTextBox(x, y, 20, MarkerTop(i), 44, MarkerTop(i) + 50)
  }

  lemma MarkerInk(font: Font, i: int, x: int, y: int)
    requires InkedBy(font, MarkerOps(i), x, y)
    ensures InMarkerBox(i, x, y)
  {
  }

  /** All that is drawn except the marker. */
  predicate BaseInk(font: Font, content: Content, x: int, y: int) {
    || InkedBy(font, HeaderOps(content.screen, content.status), x, y)
    || InkedBy(font, TopOps(content.screen, content.status), x, y)
    || (content.status.phase != Setup && InkedBy(font, RowTexts(content.screen.rows, 0), x, y))
    || InkedBy(font, FooterOps(content.screen, content.status), x, y)
  }

  lemma InkWithRows(font: Font, content: Content, x: int, y: int)
    requires HasRows(content.screen)
    ensures InkedBy(font, FullOps(content), x, y) ==
      (BaseInk(font, content, x, y)
       || (content.status.phase != Setup && InkedBy(font, MarkerOps(content.screen.selected), x, y)))
  {
    BodyParts(font, content, x, y);
    RowInk(font, content.screen, 0, x, y);
  }

  lemma MarkerBoxIsClear(font: Font, content: Content, i: int, x: int, y: int)
    requires InMarkerBox(i, x, y)
    requires content.status.phase == Setup ==> 2 < i && (i < 5 ==> HintOps(content.status) == [])
    ensures !BaseInk(font, content, x, y)
  {
    if InkedBy(font, HeaderOps(content.screen, content.status), x, y) { HeaderInk(font, content.screen, content.status, x, y); }
    if InkedBy(font, TopOps(content.screen, content.status), x, y) { TopInk(font, content.screen, content.status, x, y); }
    if InkedBy(font, RowTexts(content.screen.rows, 0), x, y) { RowTextInk(font, content.screen.rows, 0, x, y); }
  }

  lemma SameBase(font: Font, older: Content, newer: Content, x: int, y: int)
    requires SelectionOnly(older, newer)
    requires newer.status.phase == Setup ==> HintOps(newer.status) == HintOps(older.status)
    ensures BaseInk(font, newer, x, y) == BaseInk(font, older, x, y)
  {
    assert HeaderOps(newer.screen, newer.status) == HeaderOps(older.screen, older.status);
    assert TopOps(newer.screen, newer.status) == TopOps(older.screen, older.status);
  }

  lemma MarkerRepaint(font: Font, older: Content, newer: Content, x: int, y: int)
    requires SelectionOnly(older, newer) && Safe(older, newer)
    ensures WhiteAfter(font, older, newer, !InkedBy(font, FullOps(older), x, y), x, y) == !InkedBy(font, FullOps(newer), x, y)
  {
    var i, j := older.screen.selected, newer.screen.selected;
    InkWithRows(font, older, x, y);
    InkWithRows(font, newer, x, y);
    SameBase(font, older, newer, x, y);
    if InMarkerBox(i, x, y) { MarkerBoxIsClear(font, older, i, x, y); }
    if InkedBy(font, MarkerOps(i), x, y) { MarkerInk(font, i, x, y); }
    if InkedBy(font, MarkerOps(j), x, y) { MarkerInk(font, j, x, y); }
  }

  // ---------------------------------------------------------------- exactly when

  /** A font that puts one pixel of one text on the panel. */
  function Spot(target: Op, x: int, y: int): Font { (op: Op) => if op == target then [(x, y)] else [] }

  predicate NoRuleAt(ops: seq<Op>, y: int) { forall op :: op in ops && op.Rule? ==> op.y != y }

  lemma SpotInk(target: Op, x: int, y: int, ops: seq<Op>)
    requires target.Text? && InTextBox(x, y, target.left, target.top, target.right, target.bottom)
    requires NoRuleAt(ops, y)
    ensures InkedBy(Spot(target, x, y), ops, x, y) == (target in ops)
  {
    var font := Spot(target, x, y);
    assert font(target) == [(x, y)];
    assert (x, y) in font(target);
    if target in ops { assert Inked(font, target, x, y); }
    forall op | op in ops && op != target ensures !Inked(font, op, x, y) {
      assert font(op) == [];
    }
  }

  /** What the fast repaint gets wrong when `Safe` fails: one text, one of its pixels. */
  function Culprit(older: Content, newer: Content): (Op, int)
    requires newer.status.phase == Setup && !Safe(older, newer)
  {
    var i, j := older.screen.selected, newer.screen.selected;
    if HintOps(newer.status) != HintOps(older.status) then
      (if HintOps(newer.status) != [] then HintOps(newer.status)[0] else HintOps(older.status)[0], 490)
    else if Selectable(j) then (MarkerOps(j)[0], MarkerTop(j))
    else if i == 0 then (SetupOps(newer.screen)[4], 340)
    else if i == 1 then (SetupOps(newer.screen)[4], 380)
    else if i == 2 then (SetupOps(newer.screen)[5], 440)
    else (HintOps(newer.status)[0], if i == 3 then 500 else 565)
  }

  /** In the setup scene the list is short and flat. */
  lemma SetupScene(content: Content)
    requires content.status.phase == Setup
    ensures FullOps(content) == HeaderOps(content.screen, content.status)
      + (SetupOps(content.screen) + HintOps(content.status) + FooterOps(content.screen, content.status))
  {
    assert LowerOps(content) == [];
  }

  /** The culprit is drawn by one of the two repaints and not by the other. */
  lemma CulpritDiffers(older: Content, newer: Content)
    requires (SelectionOnly(older, newer) || HeaderOnly(older, newer)) && !Safe(older, newer)
    ensures var (op, y) := Culprit(older, newer);
      (op !in FullOps(newer)) != (if SelectionOnly(older, newer) then
            var i := older.screen.selected;
            (op !in FullOps(older) || (Selectable(i) && InTextBox(20, y, 20, MarkerTop(i), 44, MarkerTop(i) + 50)))
            && op !in MarkerOps(newer.screen.selected)
          else op !in FullOps(older) && op !in HeaderOps(newer.screen, newer.status))
  {
    var (op, y) := Culprit(older, newer);
    SetupScene(older);
    SetupScene(newer);
    hide FullOps;
    if HintOps(newer.status) != HintOps(older.status) {
      assert op in HintOps(newer.status) || op in HintOps(older.status);
      assert op !in MarkerOps(newer.screen.selected) && op !in HeaderOps(newer.screen, newer.status);
      assert op in FullOps(newer) <==> op in HintOps(newer.status);
      assert op in FullOps(older) <==> op in HintOps(older.status);
    } else if Selectable(newer.screen.selected) {
      assert op in MarkerOps(newer.screen.selected);
      assert op !in FullOps(newer);
    } else {
      assert op in FullOps(newer);
    }
  }

  /** Its pixel lies in its own box, below the header and on no rule. */
  lemma CulpritPlaced(older: Content, newer: Content)
    requires newer.status.phase == Setup && older.status.phase == Setup && !Safe(older, newer)
    ensures var (op, y) := Culprit(older, newer);
      && op.Text? && InTextBox(20, y, op.left, op.top, op.right, op.bottom) && OnUi(20, y) && !InTextBox(20, y, 16, 12, 464, 58)
      && NoRuleAt(FullOps(older), y) && NoRuleAt(FullOps(newer), y) && NoRuleAt(MarkerOps(newer.screen.selected), y)
      && NoRuleAt(HeaderOps(newer.screen, newer.status), y)
  {
    SetupScene(older);
    SetupScene(newer);
    hide FullOps;
  }

  lemma CulpritShows(older: Content, newer: Content)
    requires (SelectionOnly(older, newer) || HeaderOnly(older, newer)) && !Safe(older, newer)
    ensures var (op, y) := Culprit(older, newer);
      !Agrees(Spot(op, 20, y), older, newer)
  {
    var (op, y) := Culprit(older, newer);
    var font := Spot(op, 20, y);
    CulpritDiffers(older, newer);
    CulpritPlaced(older, newer);
    hide FullOps, MarkerOps, HeaderOps, InkedBy, Culprit, SelectionOnly, HeaderOnly, Safe;
    SpotInk(op, 20, y, FullOps(older));
    SpotInk(op, 20, y, FullOps(newer));
    SpotInk(op, 20, y, MarkerOps(newer.screen.selected));
    SpotInk(op, 20, y, HeaderOps(newer.screen, newer.status));
    assert WhiteAfter(font, older, newer, !InkedBy(font, FullOps(older), 20, y), 20, y) != !InkedBy(font, FullOps(newer), 20, y);
  }

  /** The fast repaint refines the full repaint for every font exactly when `Safe` holds; outside the setup
      scene it always does. */
  lemma IncrementalExact(older: Content, newer: Content)
    requires SelectionOnly(older, newer) || HeaderOnly(older, newer)
    ensures (forall font: Font :: Agrees(font, older, newer)) <==> Safe(older, newer)
  {
    if Safe(older, newer) {
      forall font: Font ensures Agrees(font, older, newer) {
        forall x, y | OnUi(x, y)
          ensures WhiteAfter(font, older, newer, !InkedBy(font, FullOps(older), x, y), x, y) == !InkedBy(font, FullOps(newer), x, y)
        {
          if SelectionOnly(older, newer) { MarkerRepaint(font, older, newer, x, y); } else { HeaderRepaint(font, older, newer, x, y); }
        }
      }
    } else {
      CulpritShows(older, newer);
    }
  }
}
