/** firmware/apps/waveshare-epaper-397-wifi/epaper_requests.h and the two queues around it
    (epaper_wifi.cc, Submit, NetworkLoop and ReceiveNetwork): one HTTP job at a time, and a cancelled one
    never applies its result. */
module EpaperRequests {
  import opened Basics

  const WRAP := 0x1_0000_0000
  type Id = i: int | 0 <= i < WRAP

  // ---------------------------------------------------------------- RequestState

  /** The three counters. An id is never zero; zero means none. */
  datatype Requests = Requests(sequence: Id, inflight: Id, active: Id) {
    predicate Busy() { active != 0 }
  }

  const IDLE := Requests(0, 0, 0)

  function NextId(sequence: Id): Id {
    if sequence + 1 == WRAP then 1 else sequence + 1
  }

  function Begun(r: Requests): Requests {
    if r.inflight != 0 then r else Requests(NextId(r.sequence), NextId(r.sequence), NextId(r.sequence))
  }

  function Cancelled(r: Requests): Requests { r.(active := 0) }

  predicate Completes(r: Requests, id: Id) { id != 0 && id == r.inflight }

  function Completed(r: Requests, id: Id): Requests {
    if Completes(r, id) then r.(inflight := 0, active := 0) else r
  }

  predicate Applies(r: Requests, id: Id) { Completes(r, id) && r.active == id }

  class RequestState {
    var sequence: Id
    var inflight: Id
    var active: Id

    function State(): Requests
      reads this
    {
      Requests(sequence, inflight, active)
    }

    constructor ()
      ensures State() == IDLE
    {
      sequence, inflight, active := 0, 0, 0;
    }

    method Begin() returns (id: Id)
      modifies this
      ensures State() == Begun(old(State()))
      ensures id == if old(inflight) != 0 then 0 else inflight
      ensures id != 0 <==> old(inflight) == 0
    {
      if inflight != 0 { return 0; }
      sequence := if sequence + 1 == WRAP then 0 else sequence + 1;
      if sequence == 0 { sequence := 1; }
      inflight := sequence;
      active := inflight;
      return active;
    }

    method Cancel()
      modifies this
      ensures State() == Cancelled(old(State()))
    {
      active := 0;
    }

    predicate Busy()
      reads this
    {
      active != 0
    }

    method Complete(id: Id) returns (apply: bool)
      modifies this
      ensures State() == Completed(old(State()), id)
      ensures apply == Applies(old(State()), id)
    {
      if id == 0 || id != inflight { return false; }
      inflight := 0;
      apply := active == id;
      active := 0;
    }
  }

  // ---------------------------------------------------------------- the pipeline

  /** The control task, the network task and the two one-place queues between them. `cancelled` records
      whether the request in flight was cancelled since its Begin; `refused` whether the jobs queue ever
      turned a job away; `outcomes` what each finished job came to, as (applied, cancelled before). */
  datatype Pipeline = Pipeline(
    req: Requests, jobs: seq<Id>, worker: Option<Id>, results: seq<Id>,
    cancelled: bool, refused: bool, outcomes: seq<(bool, bool)>)

  const EMPTY := Pipeline(IDLE, [], None, [], false, false, [])

  /** Submit: Begin, then the jobs queue; a full queue takes the request back. */
  function Submitted(p: Pipeline): Pipeline {
    var req := Begun(p.req);
    if p.req.inflight != 0 then p
    else if |p.jobs| == 1 then p.(req := Completed(req, req.inflight), refused := true)
    else p.(req := req, jobs := p.jobs + [req.inflight], cancelled := false)
  }

  function AfterCancel(p: Pipeline): Pipeline { p.(req := Cancelled(p.req), cancelled := true) }

  /** ReceiveNetwork on a waiting result. */
  function Received(p: Pipeline): Pipeline
    requires p.results != []
  {
    var id := p.results[0];
    p.(req := Completed(p.req, id), results := p.results[1..],
       outcomes := p.outcomes + [(Applies(p.req, id), p.cancelled)])
  }

  datatype Event = Submit | Cancel | WorkerTakes | WorkerSends | Receive

  /** The worker's result send blocks while the results queue is full, so it is no step then. */
  predicate Enabled(p: Pipeline, e: Event) {
    match e
    case Submit => true
    case Cancel => true
    case WorkerTakes => p.worker.None? && p.jobs != []
    case WorkerSends => p.worker.Some? && p.results == []
    case Receive => p.results != []
  }

  function Next(p: Pipeline, e: Event): Pipeline
    requires Enabled(p, e)
  {
    match e
    case Submit => Submitted(p)
    case Cancel => AfterCancel(p)
    case WorkerTakes => p.(worker := Some(p.jobs[0]), jobs := p.jobs[1..])
    case WorkerSends => p.(results := p.results + [p.worker.value], worker := None)
    case Receive => Received(p)
  }

  /** The state after any interleaving of the two tasks; an event that is not enabled does not happen. */
  function After(events: seq<Event>): Pipeline {
    if events == [] then EMPTY else
      var p, e := After(events[..|events| - 1]), events[|events| - 1];
      if Enabled(p, e) then Next(p, e) else p
  }

  /** The ids under way, wherever they are. */
  function UnderWay(p: Pipeline): seq<Id> {
    p.jobs + (if p.worker.Some? then [p.worker.value] else []) + p.results
  }

  predicate Sound(p: Pipeline) {
    && UnderWay(p) == (if p.req.inflight == 0 then [] else [p.req.inflight])
    && (p.req.inflight == 0 ==> p.req.active == 0)
    && (p.req.inflight != 0 ==> p.req.active == if p.cancelled then 0 else p.req.inflight)
    && !p.refused
    && forall i :: 0 <= i < |p.outcomes| ==> p.outcomes[i].0 == !p.outcomes[i].1
  }

  /** Where the one job is. */
  lemma OnePlace(p: Pipeline)
    requires Sound(p)
    ensures p.req.inflight == 0 ==> p.jobs == [] && p.worker.None? && p.results == []
    ensures p.jobs != [] ==> p.jobs == [p.req.inflight] && p.worker.None? && p.results == [] && p.req.inflight != 0
    ensures p.worker.Some? ==> p.jobs == [] && p.worker.value == p.req.inflight && p.results == [] && p.req.inflight != 0
    ensures p.results != [] ==> p.jobs == [] && p.worker.None? && p.results == [p.req.inflight] && p.req.inflight != 0
  {
    var ids := UnderWay(p);
    assert |ids| <= 1;
    if p.worker.Some? { assert p.worker.value in ids; }
    if p.results != [] { assert p.results[0] in ids; }
    if p.jobs != [] { assert p.jobs[0] in ids; }
  }

  lemma NextIsSound(p: Pipeline, e: Event)
    requires Sound(p) && Enabled(p, e)
    ensures Sound(Next(p, e))
  {
    hide UnderWay;
    OnePlace(p);
    var q := Next(p, e);
    Placed(q);
    match e {
      case Submit => assert Sound(q);
      case Cancel => assert UnderWay(q) == UnderWay(p) by { SamePlaces(p, q); }
      case WorkerTakes => assert Sound(q);
      case WorkerSends => assert Sound(q);
      case Receive => assert Sound(q);
    }
  }

  lemma SamePlaces(p: Pipeline, q: Pipeline)
    requires p.jobs == q.jobs && p.worker == q.worker && p.results == q.results
    ensures UnderWay(p) == UnderWay(q)
  {
  }

  /** The converse of OnePlace. */
  lemma Placed(p: Pipeline)
    ensures (p.req.inflight == 0 && p.jobs == [] && p.worker.None? && p.results == []) ==> UnderWay(p) == []
    ensures (p.jobs == [p.req.inflight] && p.worker.None? && p.results == []) ==> UnderWay(p) == [p.req.inflight]
    ensures (p.jobs == [] && p.worker == Some(p.req.inflight) && p.results == []) ==> UnderWay(p) == [p.req.inflight]
    ensures (p.jobs == [] && p.worker.None? && p.results == [p.req.inflight]) ==> UnderWay(p) == [p.req.inflight]
  {
  }

  lemma {:induction false} AlwaysSound(events: seq<Event>)
    ensures Sound(After(events))
  {
    if events != [] {
      var before := events[..|events| - 1];
      AlwaysSound(before);
      if Enabled(After(before), events[|events| - 1]) { NextIsSound(After(before), events[|events| - 1]); }
    }
  }

  /** In every reachable state exactly one of the three places holds a job, the one in flight, or none does
      and none is in flight. So Submit never meets a full queue and the worker's send never blocks. */
  lemma OneJob(events: seq<Event>)
    ensures var p := After(events);
      && |p.jobs| + (if p.worker.Some? then 1 else 0) + |p.results| == (if p.req.inflight == 0 then 0 else 1)
      && (p.req.inflight != 0 ==> UnderWay(p) == [p.req.inflight])
      && (p.req.inflight == 0 ==> |p.jobs| == 0)
      && (p.worker.Some? ==> Enabled(p, WorkerSends))
      && !p.refused
  {
    hide After;
    AlwaysSound(events);
    OnePlace(After(events));
  }

  /** A result is applied exactly when nothing was cancelled since its Begin. */
  lemma AppliedIffNotCancelled(events: seq<Event>)
    ensures var p := After(events);
      && (p.results != [] ==> (Applies(p.req, p.results[0]) <==> !p.cancelled))
      && forall i :: 0 <= i < |p.outcomes| ==> p.outcomes[i].0 == !p.outcomes[i].1
  {
    hide After;
    AlwaysSound(events);
    OnePlace(After(events));
  }
}
