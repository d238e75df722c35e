/** The control task of firmware/apps/waveshare-epaper-397-wifi/epaper_wifi.cc with the pending confirm of
    epaper_controls.h: a confirm acts on the row that was highlighted when it was pressed. */
module EpaperController {
  import opened Basics
  import opened EpaperDesk
  import opened EpaperRequests

  class PendingConfirm {
    var view: nat

    constructor () ensures view == 0 { view := 0; }

    method Request(v: nat)
      modifies this
      ensures view == v
    {
      view := v;
    }

    method Cancel()
      modifies this
      ensures view == 0
    {
      view := 0;
    }

    /** Fires once, when the requested view is both current and displayed; a newer view drops the request. */
    method Take(displayed: nat, current: nat) returns (fires: bool)
      modifies this
      ensures fires <==> old(view) != 0 && current == old(view) == displayed
      ensures view == if old(view) != 0 && (current != old(view) || displayed == old(view)) then 0 else old(view)
    {
      if view == 0 { return false; }
      if current != view { Cancel(); return false; }
      if displayed != view { return false; }
      Cancel();
      return true;
    }
  }

  /** A published screen: either the waiting notice or the rows of the navigation state. */
  datatype Shown = Shown(view: nat, busy: bool, nav: Nav)

  class Controller {
    var page: Page
    var cursor: nat
    var count: nat
    var offset: nat
    var more: bool
    var sessions: Page3
    var view: nat
    var pageView: nat
    var agent: int
    var savedAgent: int
    var voice: bool
    var session: int
    var call: bool
    const requests: RequestState
    const confirm: PendingConfirm
    /** Every job put into the queue. */
    ghost var asked: seq<Ask>
    /** Every screen handed to the display worker so far; the worker starts from the first. */
    ghost var published: seq<Shown>
    /** The last view at which a wait ended without a new view. */
    ghost var quietView: nat
    /** The navigation state when the pending confirm was requested. */
    ghost var target: Nav

    ghost function Now(): Desk
      reads this, requests, confirm
    {
      Desk(Nav(page, cursor, count, offset, more, sessions), view, pageView, agent, savedAgent, voice, session, call,
           requests.State(), confirm.view, asked)
    }

    ghost predicate Valid()
      reads this, requests, confirm
    {
      && Now().Sound() && Consistent(Now(), target)
      && Truthful(published, Now(), quietView)
    }

    /** Nothing published, no wait ended and no confirm requested. */
    twostate predicate Untouched()
      reads this
    {
      published == old(published) && quietView == old(quietView) && target == old(target)
    }

    /** From what was stored; a session without an agent is dropped. */
    constructor (storedAgent: int, storedSession: int)
      ensures CallSound(Now())
      ensures Valid() && fresh(requests) && fresh(confirm) && published == [Shown(1, false, Now().nav)]
      ensures Now().savedAgent == storedAgent && Now().session == (if storedAgent <= 0 then 0 else storedSession)
    {
      page, cursor, count, offset, more, sessions := Home, 0, 0, 0, false, [];
      view, pageView, agent, savedAgent, voice, call := 1, 1, 0, storedAgent, false, false;
      session := if storedAgent <= 0 then 0 else storedSession;
      requests := new RequestState();
      confirm := new PendingConfirm();
      quietView, asked := 0, [];
      target := Nav(Home, 0, 0, 0, false, []);
      published := [Shown(1, false, Nav(Home, 0, 0, 0, false, []))];
    }

    method ChangePage(next: Page)
      modifies this, requests, confirm
      ensures Now() == old(Now()).WentTo(next) && Untouched()
    {
      requests.Cancel();
      confirm.Cancel();
      page, cursor, view := next, 0, view + 1;
      pageView := view;
    }

    method EndCall()
      modifies this, requests, confirm
      ensures Now() == old(Now()).Hung() && Untouched()
    {
      call := false;
    }

    /** Asks the platform which agent is bound. A change of agent, or losing it away from the home page, goes home. */
    method SyncAgent(b: Bound) returns (ok: bool)
      modifies this, requests, confirm
      ensures Now() == old(Now()).Synced(b) && ok == b.Agent? && Untouched()
    {
      hide Rows, Follows, Opened, Desk.Sound, Desk.WentTo;
      if b == Outage {
        if agent != 0 && (call || page != Home) {
          EndCall();
          ChangePage(Home);
        }
        agent, voice := 0, false;
        return false;
      }
      if agent != b.id { Rebind(b.id); }
      voice := b.voice;
      return true;
    }

    /** Another agent: home, without a session that was another agent's. */
    method Rebind(id: int)
      modifies this, requests, confirm
      ensures Untouched()
      ensures Now() == old(Now()).Hung().WentTo(Home).(
        session := if old(savedAgent) != id then 0 else old(session), agent := id, savedAgent := id)
    {
      hide Rows, Follows, Opened, Desk.Sound, Desk.WentTo;
      EndCall();
      ChangePage(Home);
      if savedAgent != id { session := 0; }
      agent, savedAgent := id, id;
    }

    method Submit(kind: JobKind, from: nat, queueFree: bool)
      modifies this, requests, confirm
      ensures Now() == old(Now()).Submitted(kind, from, queueFree) && Untouched()
    {
      var id := requests.Begin();
      if id == 0 { return; }
      if !queueFree {
        var _ := requests.Complete(id);
        return;
      }
      asked := asked + [Ask(kind, agent, from)];
      view := view + 1;
    }

    method OpenList(from: nat, a: Answers)
      modifies this, requests, confirm
      ensures Now() == old(Now()).Requested(List, from, a) && Untouched()
    {
      EndCall();
      var ok := SyncAgent(a.second);
      if !ok { return; }
      Submit(List, from, a.queueFree);
    }

    method NewSession(a: Answers)
      modifies this, requests, confirm
      ensures Now() == old(Now()).Requested(Create, 0, a) && Untouched()
    {
      EndCall();
      var ok := SyncAgent(a.second);
      if !ok { return; }
      Submit(Create, 0, a.queueFree);
    }

    method Call(a: Answers)
      modifies this, requests, confirm
      ensures Now() == old(Now()).Called(a) && Untouched()
    {
      hide Desk.WentTo, Desk.Submitted;
      if call { EndCall(); return; }
      var ok := SyncAgent(a.first);
      if !ok { return; }
      if session == 0 { OpenList(0, a); return; }
      if !voice { return; }
      call := a.started;
    }

    /** Acts on the current row. */
    method Choose(a: Answers)
      requires Now().Sound()
      modifies this, requests, confirm
      ensures Now() == old(Now()).Chosen(a) && Untouched()
    {
      hide Desk.Synced, Desk.Requested, Desk.Called, Desk.WentTo, Desk.ChosenRow, Rows, Follows, Opened, Desk.Sound;
      if page == Home { Call(a); return; }
      if page == Menu {
        if cursor == 0 { OpenList(0, a); }
        else if cursor == 1 { NewSession(a); }
        else if cursor == 2 { ChangePage(Reset); }
        else { ChangePage(Home); }
      } else if page == Reset {
        if cursor == 1 {
          EndCall();
          if a.forgotten {
            session, agent, savedAgent := 0, 0, 0;
            ChangePage(Home);
          }
        } else {
          ChangePage(Home);
        }
      } else {
        ChooseSession(a);
      }
    }

    method ChooseSession(a: Answers)
      requires Now().Sound() && page == Sessions
      modifies this, requests, confirm
      ensures Now() == old(Now()).ChosenRow(a) && Untouched()
    {
      hide Desk.Requested, Desk.WentTo, Rows, Follows;
      var ok := SyncAgent(a.first);
      if !ok || page != Sessions { return; }
      if cursor < count {
        session := sessions[cursor];
        ChangePage(Home);
        return;
      }
      var row := cursor - count;
      if more {
        if row == 0 { OpenList(offset + count, a); return; }
        row := row - 1;
      }
      if offset != 0 && row == 0 {
        OpenList(if offset >= 3 then offset - 3 else 0, a);
        return;
      }
      ChangePage(Home);
    }

    method ReceiveNetwork(result: Result, b: Bound)
      requires Valid()
      modifies this, requests, confirm
      ensures Now() == old(Now()).Received(result, b) && Kept()
    {
      hide Desk.Synced, Desk.WentTo, Desk.Listed, Rows, Consistent, Truthful;
      ghost var before := Now();
      var apply := requests.Complete(result.id);
      if apply {
        quietView := view;
        Apply(result, b);
      }
      assert Now() == before.Received(result, b);
      StaysConsistent(before, Now(), target);
      StaysTruthful(published, before, Now(), old(quietView), quietView);
    }

    method Apply(result: Result, b: Bound)
      modifies this, requests, confirm
      ensures Untouched()
      ensures var e := old(Now()).Synced(b);
        Now() == if b == Outage || result.agent != e.agent || !result.ok then e
                 else if result.kind == List then e.Listed(result)
                 else if result.created == 0 then e else e.(session := result.created).WentTo(Home)
    {
      hide Desk.Synced, Desk.WentTo, Desk.Listed, Rows;
      var ok := SyncAgent(b);
      if !ok || result.agent != agent || !result.ok { return; }
      if result.kind == List {
        ShowList(result);
      } else {
        if result.created == 0 { return; }
        session := result.created;
        ChangePage(Home);
      }
    }

    method ShowList(result: Result)
      modifies this, requests, confirm
      ensures Now() == old(Now()).Listed(result) && Untouched()
    {
      hide Rows, Follows, Opened, Desk.Sound, Desk.WentTo;
      sessions, count, offset := result.sessions, |result.sessions|, result.offset;
      more := offset + count < result.total;
      ChangePage(Sessions);
    }

    /** The invariant holds on, and nothing was published. */
    twostate predicate Kept()
      reads this, requests, confirm
    {
      Valid() && published == old(published)
    }

    method HandleInput(input: Input)
      requires Valid()
      modifies this, requests, confirm
      ensures Now() == old(Now()).Pressed(input) && Kept()
      ensures target == if old(confirm.view) == 0 && confirm.view != 0 then Now().nav else old(target)
    {
      hide Rows, Consistent, Truthful;
      ghost var before := Now();
      Press(input);
      assert Now() == before.Pressed(input);
      if before.confirm == 0 && confirm.view != 0 {
        target := Now().nav;
        BeginsConsistent(before, target);
        BeginsTruthful(published, before, quietView);
      } else {
        StaysConsistent(before, Now(), target);
        StaysTruthful(published, before, Now(), quietView, quietView);
      }
    }

    method Press(input: Input)
      requires Now().Sound()
      modifies this, requests, confirm
      ensures Now() == old(Now()).Pressed(input) && Untouched()
    {
      hide Rows, Desk.WentTo, Follows;
      if input.locked { return; }
      if input.action == Back { Leave(); return; }
      if page == Home && (input.action == Up || input.action == Down) { return; }
      if page == Home && call && input.action == Center { confirm.Cancel(); EndCall(); return; }
      if requests.Busy() || confirm.view != 0 || !NavigationCurrent(input.view, pageView, view) { return; }
      if page != Home && (input.action == Up || input.action == Down) {
        view := view + 1;
        var rows := Rows(Nav(page, cursor, count, offset, more, sessions));
        cursor := if input.action == Up then (cursor + rows - 1) % rows else (cursor + 1) % rows;
      } else if input.action == MenuKey {
        EndCall();
        ChangePage(Menu);
      } else if input.action == Center {
        confirm.Request(view);
      }
    }

    method Leave()
      modifies this, requests, confirm
      ensures Now() == old(Now()).WentBack() && Untouched()
    {
      confirm.Cancel();
      if requests.Busy() { requests.Cancel(); view := view + 1; }
      else if call { EndCall(); ChangePage(Home); }
      else if page == Sessions || page == Reset { ChangePage(Menu); }
      else if page == Menu { ChangePage(Home); }
    }

    /** The setup branch at the top of the loop. */
    method EnterSetup()
      requires Valid()
      modifies this, requests, confirm
      ensures Now() == old(Now()).SetUp() && Kept()
    {
      hide Rows, Consistent, Truthful;
      ghost var before := Now();
      confirm.Cancel();
      if requests.Busy() { quietView := view; }
      requests.Cancel();
      if call { EndCall(); }
      if page != Home { ChangePage(Home); }
      StaysConsistent(before, Now(), target);
      StaysTruthful(published, before, Now(), old(quietView), quietView);
    }

    /** Hands the current screen to the display worker. */
    method Publish()
      requires Valid()
      modifies this`published
      ensures Valid() && published == old(published) + [Shown(view, requests.active != 0, Now().nav)]
    {
      published := published + [Shown(view, requests.Busy(), Nav(page, cursor, count, offset, more, sessions))];
    }

    /** Whether the pending confirm fires on the displayed view, and what it does then: the row of its request,
        which a published screen of this view shows unless that screen is the notice of a wait that ended here. */
    method TakeConfirm(locked: bool, displayed: nat, a: Answers) returns (fires: bool)
      requires Valid() && (displayed == 0 || exists s :: s in published && s.view == displayed)
      modifies this, requests, confirm
      ensures Now() == old(Now()).Confirmed(locked, displayed, a) && Valid() && Untouched()
      ensures fires == old(Now()).Fires(locked, displayed)
      ensures fires ==> Acted(published, target, quietView, old(Now()), a, Now())
    {
      hide Rows, Consistent, Truthful, Desk.Chosen, MeaningOf, Performed;
      ghost var before := Now();
      fires := false;
      if !locked {
        fires := confirm.Take(displayed, view);
        if fires {
          view := view + 1;
          ConfirmedRow(published, before, target, quietView);
          ChosenPerforms(Now(), a);
          Choose(a);
        }
      }
      StaysConsistent(before, Now(), target);
      StaysTruthful(published, before, Now(), quietView, quietView);
    }

    /** The first half of a turn: the setup scene, a finished request, a key. */
    method Attend(o: Outside)
      requires Valid()
      modifies this, requests, confirm
      ensures Now() == old(Now()).Attended(o) && Kept()
    {
      hide Truthful, Consistent, Rows, Desk.Received, Desk.Pressed, Desk.SetUp;
      if o.setup { EnterSetup(); }
      if o.result.Some? { ReceiveNetwork(o.result.value, o.resultBound); }
      if o.input.Some? { HandleInput(o.input.value); }
    }

    /** The poll, and a call that ended. */
    method Poll(polled: Option<Bound>, callEnds: bool)
      requires Valid()
      modifies this, requests, confirm
      ensures Now() == old(Now()).Polled(polled, callEnds) && Valid() && Untouched()
    {
      hide Rows, Consistent, Truthful;
      ghost var before := Now();
      if polled.Some? { var _ := SyncAgent(polled.value); }
      if call && callEnds { EndCall(); }
      StaysConsistent(before, Now(), target);
      StaysTruthful(published, before, Now(), quietView, quietView);
    }

    /** One turn of the control task. `o.displayed` is what the display worker last reported. */
    method Turn(o: Outside) returns (ghost fired: bool)
      requires Valid() && (o.displayed == 0 || exists s :: s in published && s.view == o.displayed)
      modifies this, requests, confirm
      ensures Valid() && Now() == old(Now()).Turned(o) && (old(CallSound(Now())) ==> CallSound(Now()))
      ensures published == old(published) + [Shown(view, requests.active != 0, Now().nav)]
      ensures var d := old(Now()).Attended(o);
        && fired == d.Fires(o.locked, o.displayed)
        && (fired ==> Acted(old(published), target, quietView, d, o.answers, d.Confirmed(o.locked, o.displayed, o.answers)))
    {
      hide Truthful, Consistent, Desk.Attended, Desk.Confirmed, Desk.Polled, Acted, CallSound, Rows;
      ConsistentFree(Now(), target);
      if CallSound(Now()) { TurnKeepsCall(Now(), o); }
      Attend(o);
      fired := TakeConfirm(o.locked, o.displayed, o.answers);
      Poll(o.polled, o.callEnds);
      Publish();
    }
  }

  /** A pending confirm of the current view is for the row recorded at its request, with nothing awaited. */
  ghost predicate Consistent(d: Desk, target: Nav) {
    d.confirm <= d.view && (d.confirm == d.view ==> target == d.nav && d.req.active == 0)
  }

  /** No screen is newer than the current view. A screen of the current view shows the current rows, or is
      the waiting notice: then the wait goes on, or it ended at this very view. */
  ghost predicate Truthful(published: seq<Shown>, d: Desk, quietView: nat) {
    forall s :: s in published ==>
      && s.view <= d.view
      && (s.view == d.view && !s.busy ==> s.nav == d.nav)
      && (s.view == d.view && s.busy ==> d.req.active != 0 || quietView == d.view)
  }

  /** When a confirm fires in `d`, leaving `e`: its row is the one recorded at its request, the screens published
      for this view show it, unless they are the notice of a wait that ended here, and its meaning is performed. */
  ghost predicate Acted(published: seq<Shown>, target: Nav, quietView: nat, d: Desk, a: Answers, e: Desk) {
    && d.nav == target && target.count <= |target.sessions|
    && (exists s :: s in published && s.view == d.view)
    && (forall s :: s in published && s.view == d.view ==> if s.busy then quietView == d.view else s.nav == target)
    && ChosenMeans(d.Firing(), MeaningOf(target), a, e)
  }

  lemma ConsistentFree(d: Desk, target: Nav)
    requires Consistent(d, target)
    ensures ConfirmFree(d)
  {
  }

  lemma StaysConsistent(d: Desk, e: Desk, target: Nav)
    requires d.Sound() && Consistent(d, target) && Follows(d, e)
    ensures e.Sound() && Consistent(e, target)
  {
    hide Rows;
  }

  lemma BeginsConsistent(d: Desk, target: Nav)
    requires d.Sound() && target == d.nav && d.req.active == 0
    ensures Consistent(d.(confirm := d.view), target)
  {
  }

  lemma BeginsTruthful(published: seq<Shown>, d: Desk, quietView: nat)
    requires Truthful(published, d, quietView)
    ensures Truthful(published, d.(confirm := d.view), quietView)
  {
  }

  /** A wait that ends within a view is remembered by that view. */
  lemma StaysTruthful(published: seq<Shown>, d: Desk, e: Desk, quietBefore: nat, quietAfter: nat)
    requires d.Sound() && Truthful(published, d, quietBefore) && Follows(d, e)
    requires quietAfter == quietBefore || quietAfter == d.view
    requires e.view == d.view && e.req.active != d.req.active ==> quietAfter == d.view
    ensures Truthful(published, e, quietAfter)
  {
    hide Rows;
  }

  /** What is known when a confirm fires. */
  lemma ConfirmedRow(published: seq<Shown>, d: Desk, target: Nav, quietView: nat)
    requires d.Sound() && Consistent(d, target) && Truthful(published, d, quietView)
    requires d.confirm == d.view
    ensures d.nav == target
    ensures forall s :: s in published && s.view == d.view ==> if s.busy then quietView == d.view else s.nav == target
  {
  }
}
