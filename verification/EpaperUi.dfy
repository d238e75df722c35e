/** The display worker of firmware/apps/waveshare-epaper-397-wifi/epaper_wifi_ui.cc with the refresh policy of
    epaper_refresh.h: which image the panel holds, over any run with failing transfers. */
module EpaperUi {
  import opened EpaperFrame
  import opened EpaperPaint
  import ContentKey

  // ---------------------------------------------------------------- the refresh policy

  datatype Scene = IdleScene | SetupScene | ConnectingScene | ActivationScene | BlockedScene | OnlineScene

  const MAX_PARTIALS := 64

  class RefreshPolicy {
    var valid: bool
    var scene: Scene
    var page: int
    var partials: nat
    var failures: nat
    var retryAt: int

    constructor ()
      ensures !valid && partials == 0 && failures == 0 && retryAt == 0
    {
      valid, scene, page, partials, failures, retryAt := false, IdleScene, 0, 0, 0, 0;
    }

    predicate Ready(now: int)
      reads this
    {
      now >= retryAt
    }

    predicate Full(next: Scene, nextPage: int, changed: Rect)
      reads this
    {
      var area := (changed.x1 - changed.x0) * (changed.y1 - changed.y0);
      !valid || partials >= MAX_PARTIALS || next != scene || nextPage != page || area >= PANEL_WIDTH * PANEL_HEIGHT / 3
    }

    method Success(full: bool, next: Scene, nextPage: int)
      modifies this
      ensures valid && failures == 0 && retryAt == 0 && scene == next && page == nextPage
      ensures partials == if full then 0 else old(partials) + 1
    {
      valid, failures, retryAt := true, 0, 0;
      scene, page := next, nextPage;
      partials := if full then 0 else partials + 1;
    }

    /** Half a second after the first failure, doubling up to four seconds. */
    method Failure(now: int)
      requires failures <= 4
      modifies this
      ensures !valid && partials == old(partials) && scene == old(scene) && page == old(page)
      ensures failures == if old(failures) < 4 then old(failures) + 1 else 4
      ensures retryAt == now + Backoff(failures)
    {
      valid := false;
      if failures < 4 { failures := failures + 1; }
      retryAt := now + Backoff(failures);
    }
  }

  /** `500000LL << (failures - 1)`. */
  function Backoff(failures: nat): nat {
    match failures
    case 0 => 0 case 1 => 500000 case 2 => 1000000 case 3 => 2000000 case _ => 4000000
  }

  /** Half a second, doubling up to four. */
  lemma BackoffDoubles(failures: nat)
    ensures failures == 0 ==> Backoff(failures + 1) == 500000
    ensures 0 < failures ==> Backoff(failures + 1) == if 2 * Backoff(failures) < 4000000 then 2 * Backoff(failures) else 4000000
  {
  }

  function SceneOf(status: Status): Scene {
    if status.phase == Setup then SetupScene
    else if status.code != "" then ActivationScene
    else match status.phase
      case Connecting => ConnectingScene
      case Pairing => ConnectingScene
      case Blocked => BlockedScene
      case Connected => OnlineScene
      case Ready => OnlineScene
      case _ => IdleScene
  }

  // ---------------------------------------------------------------- drawing into a frame

  method Pixels(frame: array<bv8>, op: Op, font: Font)
    requires frame.Length == FRAME_BYTES && op.Text?
    modifies frame
    ensures DrawnOver(old(frame[..]), frame[..], font, [op])
  {
    hide White;
    var asked := font(op);
    for i := 0 to |asked|
      invariant forall x, y :: OnUi(x, y) ==>
        White(frame[..], x, y) == (White(old(frame[..]), x, y)
          && !(InTextBox(x, y, op.left, op.top, op.right, op.bottom) && (x, y) in asked[..i]))
    {
      var (px, py) := asked[i];
      if InTextBox(px, py, op.left, op.top, op.right, op.bottom) { BlackPixel(frame, px, py); }
      assert asked[..i + 1] == asked[..i] + [asked[i]];
    }
    assert asked[..|asked|] == asked;
    forall x, y ensures InkedBy(font, [op], x, y) == Inked(font, op, x, y) { SingleInk(font, op, x, y); }
  }

  lemma SingleInk(font: Font, op: Op, x: int, y: int)
    ensures InkedBy(font, [op], x, y) == Inked(font, op, x, y)
  {
    assert op in [op];
  }

  method Line(frame: array<bv8>, op: Op, font: Font)
    requires frame.Length == FRAME_BYTES && op.Rule?
    modifies frame
    ensures DrawnOver(old(frame[..]), frame[..], font, [op])
  {
    hide White;
    for px := 16 to 464
      invariant forall x, y :: OnUi(x, y) ==>
        White(frame[..], x, y) == (White(old(frame[..]), x, y) && !(16 <= x < px && y == op.y))
    {
      BlackPixel(frame, px, op.y);
    }
    forall x, y ensures InkedBy(font, [op], x, y) == Inked(font, op, x, y) { SingleInk(font, op, x, y); }
  }

  method Draw(frame: array<bv8>, ops: seq<Op>, font: Font)
    requires frame.Length == FRAME_BYTES
    modifies frame
    ensures DrawnOver(old(frame[..]), frame[..], font, ops)
  {
    hide White, Inked;
    for i := 0 to |ops|
      invariant DrawnOver(old(frame[..]), frame[..], font, ops[..i])
    {
      ghost var before := frame[..];
      if ops[i].Text? { Pixels(frame, ops[i], font); } else { Line(frame, ops[i], font); }
      assert ops[..i + 1] == ops[..i] + [ops[i]];
      DrawnInTurn(old(frame[..]), before, frame[..], font, ops[..i], [ops[i]]);
    }
    assert ops[..|ops|] == ops;
  }

  lemma DrawnInTurn(a: seq<bv8>, b: seq<bv8>, c: seq<bv8>, font: Font, first: seq<Op>, second: seq<Op>)
    requires |a| == |b| == |c| == FRAME_BYTES
    requires DrawnOver(a, b, font, first) && DrawnOver(b, c, font, second)
    ensures DrawnOver(a, c, font, first + second)
  {
    forall x, y | OnUi(x, y)
      ensures White(c, x, y) == (White(a, x, y) && !InkedBy(font, first + second, x, y))
    {
      InkedAppend(font, first, second, x, y);
    }
  }

  /** White paper with the whole picture drawn on it. */
  lemma FullPasses(blank: seq<bv8>, header: seq<bv8>, after: seq<bv8>, font: Font, content: Content)
    requires |blank| == |header| == |after| == FRAME_BYTES
    requires forall x, y :: OnUi(x, y) ==> White(blank, x, y)
    requires DrawnOver(blank, header, font, HeaderOps(content.screen, content.status))
    requires DrawnOver(header, after, font, BodyOps(content))
    ensures Shows(after, font, FullOps(content))
  {
    DrawnInTurn(blank, header, after, font, HeaderOps(content.screen, content.status), BodyOps(content));
  }

  /** The older picture with the old marker's box cleared and the new marker drawn. */
  lemma MarkerPasses(base: seq<bv8>, cleared: seq<bv8>, after: seq<bv8>, font: Font, older: Content, newer: Content)
    requires |base| == |cleared| == |after| == FRAME_BYTES
    requires SelectionOnly(older, newer) && Safe(older, newer)
    requires Shows(base, font, FullOps(older))
    requires forall x, y :: OnUi(x, y) ==> White(cleared, x, y) == (White(base, x, y) || InMarkerBox(older.screen.selected, x, y))
    requires DrawnOver(cleared, after, font, MarkerOps(newer.screen.selected))
    ensures Shows(after, font, FullOps(newer))
  {
    forall x, y | OnUi(x, y) ensures White(after, x, y) == !InkedBy(font, FullOps(newer), x, y) {
      MarkerRepaint(font, older, newer, x, y);
    }
  }

  /** The older picture with the header's box cleared and the new header drawn. */
  lemma HeaderPasses(base: seq<bv8>, cleared: seq<bv8>, after: seq<bv8>, font: Font, older: Content, newer: Content)
    requires |base| == |cleared| == |after| == FRAME_BYTES
    requires HeaderOnly(older, newer) && !SelectionOnly(older, newer) && Safe(older, newer)
    requires Shows(base, font, FullOps(older))
    requires forall x, y :: OnUi(x, y) ==> White(cleared, x, y) == (White(base, x, y) || InHeaderBox(x, y))
    requires DrawnOver(cleared, after, font, HeaderOps(newer.screen, newer.status))
    ensures Shows(after, font, FullOps(newer))
  {
    forall x, y | OnUi(x, y) ensures White(after, x, y) == !InkedBy(font, FullOps(newer), x, y) {
      HeaderRepaint(font, older, newer, x, y);
    }
  }

  method FillWhite(frame: array<bv8>)
    requires frame.Length == FRAME_BYTES
    modifies frame
    ensures forall x, y :: OnUi(x, y) ==> White(frame[..], x, y)
  {
    forall i | 0 <= i < frame.Length { frame[i] := 0xff; }
    forall x, y | OnUi(x, y) ensures White(frame[..], x, y) {
      assert frame[..][(PANEL_HEIGHT - 1 - x) * STRIDE + y / 8] == 0xff;
    }
  }

  method Copy(from: array<bv8>, to: array<bv8>)
    requires from.Length == to.Length == FRAME_BYTES && from != to
    modifies to
    ensures to[..] == from[..]
  {
    forall i | 0 <= i < to.Length { to[i] := from[i]; }
  }

  // ---------------------------------------------------------------- the worker

  /** What the panel's own memory is known to hold. */
  type Image = s: seq<bv8> | |s| == FRAME_BYTES witness seq(FRAME_BYTES, _ => 0)

  datatype Panel = Unknown | Holding(image: Image)

  /** One transfer to the panel: which kind, what was known of the panel before, the image, the content it shows,
      and how it went. */
  datatype Transfer = Transfer(full: bool, base: Panel, image: Image, content: Content, ok: bool)

  datatype Input = Input(now: int, completed: int, content: Content, transferOk: bool)

  ghost predicate Fresh(painted: Content, key: string) {
    key == "" || key == ContentKey.Key(painted.screen, painted.status)
  }

  class Ui {
    const font: Font
    var frame: array<bv8>
    var previous: array<bv8>
    var painted: Content
    var key: string
    var paintedValid: bool
    var refresh: RefreshPolicy
    var displayed: nat
    var displayedSetup: bool
    ghost var panel: Panel
    ghost var log: seq<Transfer>

    ghost predicate Valid()
      reads this, previous, refresh
    {
      && frame.Length == FRAME_BYTES && previous.Length == FRAME_BYTES && frame != previous
      && paintedValid == refresh.valid
      && refresh.failures <= 4 && (refresh.valid ==> refresh.retryAt == 0)
      && (if paintedValid then panel == Holding(previous[..]) else panel == Unknown)
      && Fresh(painted, key) && (key != "" ==> log != [] && displayedSetup == (painted.status.phase == Setup))
      && Logged()
    }

    /** The policy's fields and the panel are what the transfers left. */
    ghost predicate Logged()
      reads this, refresh
    {
      LogSound(log, refresh.valid, refresh.partials, refresh.scene, refresh.page) && panel == PanelAfter(log)
    }

    /** The panel's base image is the full repaint of what was painted last. */
    ghost predicate Pictured()
      reads this, previous
    {
      paintedValid ==> previous.Length == FRAME_BYTES && Shows(previous[..], font, FullOps(painted))
    }

    constructor (font: Font, blank: Content)
      ensures Valid() && Pictured() && fresh(frame) && fresh(previous) && fresh(refresh)
      ensures displayed == 0 && !displayedSetup
      ensures this.font == font && !paintedValid && log == [] && key == "" && panel == Unknown && refresh.retryAt == 0
    {
      this.font := font;
      frame, previous := new bv8[FRAME_BYTES], new bv8[FRAME_BYTES];
      painted, key, paintedValid := blank, "", false;
      refresh := new RefreshPolicy();
      displayed, displayedSetup := 0, false;
      panel, log := Unknown, [];
    }

    /** Paints the content into `frame`, by the fast way when the painted base allows it. */
    method Repaint(content: Content)
      requires frame.Length == FRAME_BYTES && previous.Length == FRAME_BYTES && frame != previous
      modifies frame
      ensures Pictured() && (paintedValid && Incremental(painted, content) ==> Safe(painted, content)) ==>
        Shows(frame[..], font, FullOps(content))
    {
      hide White, InkedBy, MarkerOps, BodyOps, HeaderOps, FullOps, Safe, Shows, DrawnOver;
      var sameStatus := paintedValid && SameStatus(content.status, painted.status);
      var selectionOnly := sameStatus && HasRows(content.screen)
        && content.screen.selected != painted.screen.selected && SameHeader(content.screen, painted.screen)
        && SameLayout(content.screen, painted.screen, false);
      var headerOnly := sameStatus && SameLayout(content.screen, painted.screen, true)
        && (HasRows(content.screen) || content.answer == painted.answer);
      ghost var trusted := Pictured() && (paintedValid && Incremental(painted, content) ==> Safe(painted, content));
      if selectionOnly || headerOnly { Copy(previous, frame); } else { FillWhite(frame); }
      ghost var base := frame[..];
      if selectionOnly {
        if 0 <= painted.screen.selected < 6 {
          var y := 312 + painted.screen.selected * 62;
          ClearBox(frame, 20, y, 44, y + 50);
        }
        ghost var cleared := frame[..];
        Draw(frame, MarkerOps(content.screen.selected), font);
        if trusted { MarkerPasses(base, cleared, frame[..], font, painted, content); }
      } else {
        if headerOnly { ClearBox(frame, 16, 12, 464, 58); }
        ghost var cleared := frame[..];
        Draw(frame, HeaderOps(content.screen, content.status), font);
        ghost var header := frame[..];
        if !headerOnly {
          Draw(frame, BodyOps(content), font);
          FullPasses(cleared, header, frame[..], font, content);
        } else if trusted {
          HeaderPasses(base, cleared, header, font, painted, content);
        }
      }
    }

    /** The fast repaint, if it is taken, is one that cannot go wrong. */
    ghost predicate Trusts(content: Content)
      reads this
    {
      paintedValid && Incremental(painted, content) ==> Safe(painted, content)
    }

    /** The branch of the loop that paints and transfers. */
    method Refresh(input: Input) returns (ghost shown: bool)
      requires Valid()
      modifies this, frame, previous, refresh
      ensures Valid() && frame == old(frame) && previous == old(previous) && refresh == old(refresh)
      ensures old(Pictured() && Trusts(input.content)) ==> Pictured() && Shows(frame[..], font, FullOps(input.content))
      ensures Transferred(old(log), old(panel), !old(paintedValid) || frame[..] != old(previous[..]), input)
      ensures shown == (log == old(log) || input.transferOk)
      ensures Recorded(shown, input, old(painted), old(key), old(displayed))
    {
      hide FullOps, Shows, SelectionOnly, HeaderOnly, Safe, SceneOf, LogSound, Smallest, Wide, Due, Recorded, Transferred;
      var content := input.content;
      Repaint(content);
      var pixelsChanged, rect := ChangedRect(frame, previous);
      if !paintedValid { pixelsChanged, rect := true, Rect(0, 0, PANEL_WIDTH, PANEL_HEIGHT); }
      var scene := SceneOf(content.status);
      var full := refresh.Full(scene, content.screen.page, rect);
      if pixelsChanged {
        PolicyIsDue(log, refresh.partials, refresh.scene, refresh.page, refresh.valid, frame[..], content, rect);
      }
      shown := Transmit(input, pixelsChanged, full, scene);
    }

    /** Changed pixels are transferred, with the panel's image known before; others are not. */
    ghost predicate Transferred(before: seq<Transfer>, base: Panel, pixelsChanged: bool, input: Input)
      reads this, frame
    {
      if !pixelsChanged then log == before && panel == base
      else
        && |log| == |before| + 1 && log[..|before|] == before
        && log[|before|].base == base && log[|before|].ok == input.transferOk
        && frame.Length == FRAME_BYTES && log[|before|].image == frame[..] && log[|before|].content == input.content
        && (!input.transferOk ==> panel == Unknown)
    }

    /** What is kept of a content that was shown, or of a transfer that failed. */
    ghost predicate Recorded(shown: bool, input: Input, wasPainted: Content, wasKey: string, wasDisplayed: nat)
      reads this, refresh
    {
      if shown then
        && painted == input.content && paintedValid && displayed == input.content.screen.view
        && key == ContentKey.Key(input.content.screen, input.content.status)
      else
        && painted == wasPainted && key == wasKey && displayed == wasDisplayed && !paintedValid
        && refresh.retryAt <= input.completed + 4000000
    }

    /** The transfer and what is recorded of it. */
    method Transmit(input: Input, pixelsChanged: bool, full: bool, scene: Scene) returns (ghost shown: bool)
      requires Valid() && pixelsChanged == (!paintedValid || frame[..] != previous[..])
      requires scene == SceneOf(input.content.status) && (pixelsChanged ==> full == Due(log, frame[..], input.content))
      modifies this, previous, refresh
      ensures Valid() && frame == old(frame) && previous == old(previous) && refresh == old(refresh)
      ensures Shows(old(frame[..]), font, FullOps(input.content)) ==> Pictured()
      ensures Transferred(old(log), old(panel), pixelsChanged, input)
      ensures shown == (log == old(log) || input.transferOk)
      ensures Recorded(shown, input, old(painted), old(key), old(displayed))
    {
      hide FullOps, Shows, LogSound, Due, PanelAfter, SceneOf, ContentKey.Key;
      shown := !pixelsChanged || input.transferOk;
      ValidLog(log, refresh.valid, refresh.partials, refresh.scene, refresh.page);
      if !pixelsChanged { Store(input.content); }
      else if input.transferOk { Succeed(input, full, scene); }
      else { Fail(input, full); }
    }

    method Succeed(input: Input, full: bool, scene: Scene)
      requires Valid() && input.transferOk
      requires scene == SceneOf(input.content.status) && full == Due(log, frame[..], input.content)
      modifies this, previous, refresh
      ensures Valid() && frame == old(frame) && previous == old(previous) && refresh == old(refresh)
      ensures Shows(old(frame[..]), font, FullOps(input.content)) ==> Pictured()
      ensures Transferred(old(log), old(panel), true, input)
      ensures Recorded(true, input, old(painted), old(key), old(displayed))
    {
      hide FullOps, Shows, LogSound, Due, PanelAfter, SceneOf, ContentKey.Key;
      ghost var t := Transfer(full, panel, frame[..], input.content, true);
      LogGrows(log, refresh.valid, refresh.partials, refresh.scene, refresh.page, t);
      log, panel := log + [t], Holding(frame[..]);
      Copy(frame, previous);
      refresh.Success(full, scene, input.content.screen.page);
      Store(input.content);
    }

    method Fail(input: Input, full: bool)
      requires Valid() && !input.transferOk && full == Due(log, frame[..], input.content)
      modifies this, refresh
      ensures Valid() && frame == old(frame) && previous == old(previous) && refresh == old(refresh)
      ensures Transferred(old(log), old(panel), true, input) && Pictured()
      ensures Recorded(false, input, old(painted), old(key), old(displayed))
    {
      hide FullOps, Shows, LogSound, Due, PanelAfter, SceneOf, ContentKey.Key;
      ghost var t := Transfer(full, panel, frame[..], input.content, false);
      LogGrows(log, refresh.valid, refresh.partials, refresh.scene, refresh.page, t);
      log, panel := log + [t], Unknown;
      refresh.Failure(input.completed);
      paintedValid := false;
    }

    /** What the worker keeps of a shown content. */
    method Store(content: Content)
      modifies this`key, this`painted, this`paintedValid, this`displayedSetup, this`displayed
      ensures key == ContentKey.Key(content.screen, content.status) && painted == content && paintedValid
      ensures displayedSetup == (content.status.phase == Setup) && displayed == content.screen.view
    {
      key := ContentKey.Key(content.screen, content.status);
      painted, paintedValid := content, true;
      displayedSetup := content.status.phase == Setup;
      displayed := content.screen.view;
    }

    /** One turn of the worker's loop on the copied content. `shown` says whether it stored `displayed_`. */
    method Iterate(input: Input) returns (ghost shown: bool)
      requires Valid()
      modifies this, frame, previous, refresh
      ensures Valid() && frame == old(frame) && previous == old(previous) && refresh == old(refresh)
      ensures old(Pictured() && Trusts(input.content)) ==> Pictured()
      ensures displayed == if shown then input.content.screen.view else old(displayed)
      // Too early after a failure nothing happens.
      ensures old(refresh.retryAt) > input.now ==> !shown && Untouched(old(log), old(panel), old(painted), old(key), old(paintedValid))
      // Unchanged content is only reported as displayed.
      ensures old(refresh.retryAt <= input.now && !ContentKey.Changed(input.content, key, painted.answer)) ==>
        shown && Untouched(old(log), old(panel), old(painted), old(key), old(paintedValid))
      // Changed content is painted, and transferred exactly when the panel's image is unknown or pixels differ.
      ensures old(refresh.retryAt <= input.now && ContentKey.Changed(input.content, key, painted.answer)) ==>
        && Transferred(old(log), old(panel), !old(paintedValid) || frame[..] != old(previous[..]), input)
        && shown == (log == old(log) || input.transferOk)
        && Recorded(shown, input, old(painted), old(key), old(displayed))
        && (old(Pictured() && Trusts(input.content)) ==> Shows(frame[..], font, FullOps(input.content)))
      // A stored view is a shown picture exactly when no failed transfer stands in between.
      ensures shown && Pictured() && ContentKey.Comparable(input.content, painted) ==>
        (paintedValid <==> PanelShows(input.content))
    {
      hide InkedBy, FullOps, Shows, SelectionOnly, HeaderOnly, Safe, ContentKey.Key, ContentKey.Changed, LogSound, PanelAfter,
        ContentKey.Comparable, Transferred;
      var content := input.content;
      shown := false;
      var changed := ContentKey.Changed(content, key, painted.answer);
      if changed && refresh.Ready(input.now) {
        shown := Refresh(input);
      } else if !changed && refresh.Ready(input.now) {
        displayed := content.screen.view;
        shown := true;
        ContentKey.ChangedFromNothing(content, painted.answer);
        if ContentKey.Comparable(content, painted) { ContentKey.UnchangedSameOps(content, painted); }
      }
    }

    ghost predicate Untouched(before: seq<Transfer>, base: Panel, wasPainted: Content, wasKey: string, wasValid: bool)
      reads this
    {
      log == before && panel == base && painted == wasPainted && key == wasKey && paintedValid == wasValid
    }

    /** The last transfer failed, so the panel may show anything. */
    ghost predicate Lost()
      reads this
    {
      panel == Unknown && log != [] && !log[|log| - 1].ok
    }

    ghost predicate PanelShows(content: Content)
      reads this
    {
      panel.Holding? && |panel.image| == FRAME_BYTES && Shows(panel.image, font, FullOps(content))
    }

    /** Any number of turns. Where the setup scene shows no rows and no code, the panel's base image is the
        full repaint of the painted content all along, and every transfer was admissible. */
    method Loop(inputs: seq<Input>)
      requires Valid() && Pictured()
      modifies this, frame, previous, refresh
      ensures Valid()
      ensures (forall i :: 0 <= i < |inputs| ==> Quiet(inputs[i].content)) ==> Pictured()
      ensures Warranted(log)
    {
      for i := 0 to |inputs|
        invariant Valid() && frame == old(frame) && previous == old(previous) && refresh == old(refresh)
        invariant (forall j :: 0 <= j < i ==> Quiet(inputs[j].content)) ==> Pictured()
      {
        if Quiet(inputs[i].content) && paintedValid { QuietIsSafe(painted, inputs[i].content); }
        ghost var shown := Iterate(inputs[i]);
      }
    }

    /** A picture other than the painted one is asked for and its transfer fails; then the content goes back to
        the painted one. Nothing counts as changed, the view is reported as displayed, and what the panel shows
        stays unknown. */
    method RevertAfterFailure(other: Input, back: Input)
      requires Valid() && Pictured() && paintedValid && Trusts(other.content)
      requires ContentKey.Changed(other.content, key, painted.answer) && LooksOther(font, painted, other.content)
      requires refresh.retryAt <= other.now && !other.transferOk
      requires !ContentKey.Changed(back.content, key, painted.answer) && other.completed + 4000000 <= back.now
      modifies this, frame, previous, refresh
      ensures Valid() && panel == Unknown && !paintedValid && displayed == back.content.screen.view
      ensures |log| == |old(log)| + 1 && log[..|old(log)|] == old(log) && !log[|old(log)|].ok
    {
      hide ContentKey.Changed, ContentKey.Comparable, LogSound, PanelAfter, Safe, Incremental, InkedBy, FullOps, Shows, LooksOther;
      OtherPictureOtherFrame(font, painted, other.content, previous[..]);
      ghost var shown := Iterate(other);
      shown := Iterate(back);
    }
  }

  /** Some pixel is black in one of the two pictures and white in the other. */
  ghost predicate LooksOther(font: Font, older: Content, newer: Content) {
    exists x, y :: OnUi(x, y) && InkedBy(font, FullOps(older), x, y) != InkedBy(font, FullOps(newer), x, y)
  }

  lemma OtherPictureOtherFrame(font: Font, older: Content, newer: Content, shown: seq<bv8>)
    requires |shown| == FRAME_BYTES && Shows(shown, font, FullOps(older)) && LooksOther(font, older, newer)
    ensures !Shows(shown, font, FullOps(newer))
  {
    hide FullOps, White, InkedBy;
    var x, y :| OnUi(x, y) && InkedBy(font, FullOps(older), x, y) != InkedBy(font, FullOps(newer), x, y);
    assert White(shown, x, y) == !InkedBy(font, FullOps(older), x, y);
  }

  // ---------------------------------------------------------------- a reverted content

  const VOLUME_UP: Op := Text(154, 12, 330, 58, Volume(65), 1)

  /** A font that inks one pixel, of the louder volume's text only. */
  const ONE_PIXEL: Font := Spot(VOLUME_UP, 154, 12)

  function Quietly(view: nat): Content {
    Content(Screen(view, "", "", ["", "", "", "", "", ""], -1, "", "", "", "", 60, -1, 0, false), Status(Ready, "", "", ""), "")
  }

  function Louder(view: nat): Content {
    Content(Screen(view, "", "", ["", "", "", "", "", ""], -1, "", "", "", "", 65, -1, 0, false), Status(Ready, "", "", ""), "")
  }

  lemma VolumeShows()
    ensures LooksOther(ONE_PIXEL, Quietly(1), Louder(2))
  {
    SpotInk(VOLUME_UP, 154, 12, FullOps(Quietly(1)));
    SpotInk(VOLUME_UP, 154, 12, FullOps(Louder(2)));
    assert FullOps(Louder(2))[1] == VOLUME_UP;
    assert VOLUME_UP !in FullOps(Quietly(1));
    hide InkedBy, FullOps;
    assert OnUi(154, 12) && !InkedBy(ONE_PIXEL, FullOps(Quietly(1)), 154, 12);
  }

  lemma VolumeChanges()
    ensures ContentKey.Changed(Louder(2), ContentKey.Key(Quietly(1).screen, Quietly(1).status), "")
    ensures !ContentKey.Changed(Quietly(3), ContentKey.Key(Quietly(1).screen, Quietly(1).status), "")
  {
    hide ContentKey.Joined, ContentKey.Decimal;
    var a, b := Louder(2), Quietly(1);
    assert ContentKey.Plainly(b) by { PlainQuietly(); }
    if ContentKey.Key(a.screen, a.status) == ContentKey.Key(b.screen, b.status) { ContentKey.SameKeySameFields(a, b); }
    assert ContentKey.Fields(Quietly(3).screen, Quietly(3).status) == ContentKey.Fields(b.screen, b.status);
  }

  lemma PlainQuietly()
    ensures ContentKey.Plainly(Quietly(1))
  {
    hide ContentKey.Decimal;
    ContentKey.DecimalValue(ContentKey.PhaseNumber(Ready));
    ContentKey.DecimalValue(60);
    ContentKey.DecimalValue(-1);
    ContentKey.DecimalValue(0);
  }

  /** From the start: a screen is shown, a louder one fails to transfer, and the first screen again, as view 3, is
      reported as displayed on a panel whose image is unknown. */
  method RevertedRun() returns (ui: Ui)
    ensures fresh(ui) && ui.Valid() && ui.displayed == 3 && ui.panel == Unknown && !ui.paintedValid
    ensures |ui.log| == 2 && ui.log[0].ok && !ui.log[1].ok
  {
    hide LogSound, PanelAfter, Shows, FullOps, InkedBy, LooksOther, ContentKey.Changed, ContentKey.Comparable, ContentKey.Key;
    ui := new Ui(ONE_PIXEL, Quietly(0));
    ContentKey.ChangedFromNothing(Quietly(1), ui.painted.answer);
    ghost var shown := ui.Iterate(Input(0, 0, Quietly(1), true));
    VolumeShows();
    VolumeChanges();
    ui.RevertAfterFailure(Input(0, 0, Louder(2), false), Input(4000000, 4000000, Quietly(3), true));
  }

  /** In the setup scene no rows and no activation code. */
  predicate Quiet(content: Content) {
    content.status.phase == Setup ==> !HasRows(content.screen) && content.status.code == ""
  }

  lemma QuietIsSafe(older: Content, newer: Content)
    requires Quiet(newer)
    ensures Incremental(older, newer) ==> Safe(older, newer)
  {
  }

  predicate Incremental(older: Content, newer: Content) { SelectionOnly(older, newer) || HeaderOnly(older, newer) }

  // ---------------------------------------------------------------- the transfers of a run

  /** What the panel holds after these transfers. */
  function PanelAfter(log: seq<Transfer>): Panel {
    if log == [] || !log[|log| - 1].ok then Unknown else Holding(log[|log| - 1].image)
  }

  /** How many transfers in a row at the end were partial. */
  function TrailingPartials(log: seq<Transfer>): nat {
    if log == [] || log[|log| - 1].full then 0 else 1 + TrailingPartials(log[..|log| - 1])
  }

  function Area(r: Rect): int { (r.x1 - r.x0) * (r.y1 - r.y0) }

  /** What changed takes a third of the panel. */
  ghost predicate Wide(image: Image, base: Image) {
    exists r :: Smallest(image, base, r) && 3 * Area(r) >= PANEL_WIDTH * PANEL_HEIGHT
  }

  /** A full refresh is due. */
  ghost predicate Due(before: seq<Transfer>, image: Image, content: Content) {
    || PanelAfter(before) == Unknown
    || TrailingPartials(before) >= MAX_PARTIALS
    || SceneOf(before[|before| - 1].content.status) != SceneOf(content.status)
    || before[|before| - 1].content.screen.page != content.screen.page
    || Wide(image, before[|before| - 1].image)
  }

  /** Every transfer went to what the ones before it left, and was full exactly when that was due. */
  ghost predicate Warranted(log: seq<Transfer>) {
    log == [] ||
      var before, t := log[..|log| - 1], log[|log| - 1];
      Warranted(before) && t.base == PanelAfter(before) && t.full == Due(before, t.image, t.content)
  }

  ghost predicate LogSound(log: seq<Transfer>, valid: bool, partials: nat, scene: Scene, page: int) {
    && Warranted(log)
    && valid == (log != [] && log[|log| - 1].ok)
    && (valid ==>
          && partials == TrailingPartials(log) && scene == SceneOf(log[|log| - 1].content.status)
          && page == log[|log| - 1].content.screen.page)
  }

  lemma ValidLog(log: seq<Transfer>, valid: bool, partials: nat, scene: Scene, page: int)
    requires LogSound(log, valid, partials, scene, page)
    ensures if valid then log != [] && log[|log| - 1].ok else log == [] || !log[|log| - 1].ok
  {
  }

  /** The policy's answer, from its own fields, is what is due. */
  lemma PolicyIsDue(log: seq<Transfer>, partials: nat, scene: Scene, page: int, valid: bool, image: Image, content: Content, rect: Rect)
    requires LogSound(log, valid, partials, scene, page)
    requires valid ==> Smallest(image, log[|log| - 1].image, rect)
    ensures Due(log, image, content) <==>
      (!valid || partials >= MAX_PARTIALS || SceneOf(content.status) != scene || content.screen.page != page
       || Area(rect) >= PANEL_WIDTH * PANEL_HEIGHT / 3)
  {
    hide SceneOf, Smallest, Warranted;
    if valid {
      var base := log[|log| - 1].image;
      forall r | Smallest(image, base, r) ensures r == rect { SmallestIsOne(image, base, r, rect); }
    }
  }

  /** What a transfer does to the bookkeeping. */
  lemma LogGrows(log: seq<Transfer>, valid: bool, partials: nat, scene: Scene, page: int, t: Transfer)
    requires LogSound(log, valid, partials, scene, page)
    requires t.base == PanelAfter(log) && t.full == Due(log, t.image, t.content)
    ensures t.ok ==>
      LogSound(log + [t], true, if t.full then 0 else partials + 1, SceneOf(t.content.status), t.content.screen.page)
    ensures !t.ok ==> forall p: nat, s, g :: LogSound(log + [t], false, p, s, g)
    ensures PanelAfter(log + [t]) == if t.ok then Holding(t.image) else Unknown
  {
    assert (log + [t])[..|log|] == log;
    hide Due, SceneOf;
    DueIfUnknown(log, t.image, t.content);
  }

  lemma DueIfUnknown(log: seq<Transfer>, image: Image, content: Content)
    ensures log == [] || !log[|log| - 1].ok ==> Due(log, image, content)
  {
  }

  lemma {:induction false} WarrantedPrefix(log: seq<Transfer>, n: nat)
    requires Warranted(log) && n <= |log|
    ensures Warranted(log[..n])
  {
    hide Due;
    if n < |log| {
      WarrantedPrefix(log[..|log| - 1], n);
      assert log[..|log| - 1][..n] == log[..n];
    } else {
      assert log[..n] == log;
    }
  }

  /** The last `n` transfers were partial. */
  predicate LastPartial(log: seq<Transfer>, n: nat) { n <= |log| && forall j :: |log| - n <= j < |log| ==> !log[j].full }

  lemma {:induction false} TrailingAtLeast(log: seq<Transfer>, n: nat)
    ensures TrailingPartials(log) >= n <==> LastPartial(log, n)
  {
    if log != [] && n > 0 {
      var before, m := log[..|log| - 1], |log| - n;
      TrailingAtLeast(before, n - 1);
      if m >= 0 && !log[|log| - 1].full && LastPartial(before, n - 1) {
        assert forall j :: m <= j < |before| ==> before[j] == log[j];
      }
      if LastPartial(log, n) {
        assert forall j :: m <= j < |before| ==> before[j] == log[j];
        assert LastPartial(before, n - 1);
      }
    }
  }

  /** The transfers of any run: each goes to the image the one before it left, or to an unknown one after a
      failure and at the start; and it is full if and only if that is so, or the 64 transfers before it were partial,
      or the scene or the page is another than the last transfer's, or what changed takes a third of the panel. */
  lemma RunOfTransfers(log: seq<Transfer>, i: nat)
    requires Warranted(log) && i < |log|
    ensures log[i].base == if i == 0 || !log[i - 1].ok then Unknown else Holding(log[i - 1].image)
    ensures log[i].full <==>
      || i == 0 || !log[i - 1].ok
      || (i >= MAX_PARTIALS && forall j :: i - MAX_PARTIALS <= j < i ==> !log[j].full)
      || SceneOf(log[i - 1].content.status) != SceneOf(log[i].content.status)
      || log[i - 1].content.screen.page != log[i].content.screen.page
      || Wide(log[i].image, log[i - 1].image)
  {
    hide Wide, SceneOf, Due, LastPartial, Warranted;
    WarrantedPrefix(log, i + 1);
    assert log[..i + 1][..i] == log[..i] && log[..i + 1][i] == log[i];
    LastWarranted(log[..i + 1]);
    DueSpelled(log[..i], log[i].image, log[i].content);
    PrefixPartial(log, i);
  }

  lemma LastWarranted(log: seq<Transfer>)
    requires Warranted(log) && log != []
    ensures var before, t := log[..|log| - 1], log[|log| - 1];
      t.base == PanelAfter(before) && t.full == Due(before, t.image, t.content)
  {
    hide Due;
  }

  lemma DueSpelled(before: seq<Transfer>, image: Image, content: Content)
    ensures Due(before, image, content) <==>
      || before == [] || !before[|before| - 1].ok || LastPartial(before, MAX_PARTIALS)
      || SceneOf(before[|before| - 1].content.status) != SceneOf(content.status)
      || before[|before| - 1].content.screen.page != content.screen.page || Wide(image, before[|before| - 1].image)
  {
    hide Wide, SceneOf, TrailingPartials, LastPartial;
    TrailingAtLeast(before, MAX_PARTIALS);
  }

  lemma PrefixPartial(log: seq<Transfer>, i: nat)
    requires i <= |log|
    ensures LastPartial(log[..i], MAX_PARTIALS) <==> i >= MAX_PARTIALS && forall j :: i - MAX_PARTIALS <= j < i ==> !log[j].full
  {
    if i >= MAX_PARTIALS { assert forall j :: i - MAX_PARTIALS <= j < i ==> log[..i][j] == log[j]; }
  }

  /** A partial transfer only ever goes to a known image, and of any 65 in a row one is full. */
  lemma PartialsAreBounded(log: seq<Transfer>, i: nat)
    requires Warranted(log) && i < |log|
    ensures !log[i].full ==> log[i].base.Holding?
    ensures i + MAX_PARTIALS < |log| ==> exists j :: i <= j <= i + MAX_PARTIALS && log[j].full
  {
    hide Wide, SceneOf, Warranted;
    RunOfTransfers(log, i);
    if i + MAX_PARTIALS < |log| { RunOfTransfers(log, i + MAX_PARTIALS); }
  }

  /** The scenes of the panel: setup, activation while a code is shown, and by phase otherwise. */
  lemma ScenesDiffer(a: Status, b: Status)
    ensures SceneOf(a) == SceneOf(b) <==>
      if a.phase == Setup || b.phase == Setup then a.phase == b.phase
      else if a.code != "" || b.code != "" then a.code != "" && b.code != ""
      else
        || a.phase == b.phase
        || {a.phase, b.phase} == {Connecting, Pairing}
        || {a.phase, b.phase} == {Connected, Ready}
  {
  }
}
