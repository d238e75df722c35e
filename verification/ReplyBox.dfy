/** What the reply box of firmware/apps/ai-passport/voice_session.h guarantees over any calls: between two changes
    of generation every kind of command is accepted at most once and, unless it is still pending, handed out exactly
    once; and nothing outlives a change of generation. */
module ReplyBox {
  import opened VoiceSession

  datatype Call = Post(token: Token, status: nat) | Take(token: Token)

  /** The box after some calls, with every accepted kind and everything taken. `epoch` counts the changes of generation. */
  datatype Run = Run(box: ReplyData, epoch: nat, posts: seq<(nat, Kind)>, takes: seq<(nat, Commands)>)

  const BEGIN := Run(ReplyData(0, NO_COMMANDS, false, false, false), 0, [], [])

  function EpochAt(r: Run, t: Token): nat { if r.box.generation == t.generation then r.epoch else r.epoch + 1 }

  function Accepted(r: Run, c: Call): bool
    requires c.Post?
  {
    r.box.Bound(c.token).Accepts(c.token, c.status)
  }

  function Step(r: Run, c: Call): Run {
    var epoch := EpochAt(r, c.token);
    match c
    case Post(t, status) =>
      Run(r.box.Posted(t, status), epoch, if Accepted(r, c) then r.posts + [(epoch, KindOf(status))] else r.posts, r.takes)
    case Take(t) => Run(r.box.Taken(t), epoch, r.posts, r.takes + [(epoch, r.box.Bound(t).pending)])
  }

  function After(calls: seq<Call>): Run {
    if calls == [] then BEGIN else Step(After(calls[..|calls| - 1]), calls[|calls| - 1])
  }

  predicate Has(c: Commands, k: Kind) {
    match k
    case Start => c.start
    case End => c.end
    case Success => c.success
    case Failure => c.failure
  }

  predicate Final(k: Kind) { k == Success || k == Failure }

  /** Two accepted kinds that may share an epoch. */
  predicate Together(a: Kind, b: Kind) {
    a != b && !(Final(a) && Final(b)) && !(Final(a) && b == Start) && !(a == Start && Final(b))
  }

  ghost predicate Got(takes: seq<(nat, Commands)>, epoch: nat, k: Kind) {
    exists i :: 0 <= i < |takes| && takes[i].0 == epoch && Has(takes[i].1, k)
  }

  /** In the epoch of the box: what is marked was accepted, and is pending until it is taken. */
  ghost predicate BoxTells(r: Run) {
    && (r.box.started <==> (r.epoch, Start) in r.posts)
    && (r.box.ended <==> (r.epoch, End) in r.posts)
    && (r.box.terminal <==> (r.epoch, Success) in r.posts || (r.epoch, Failure) in r.posts)
    && (r.box.terminal ==> !r.box.started)
    && (forall k :: Has(r.box.pending, k) <==> (r.epoch, k) in r.posts && !Got(r.takes, r.epoch, k))
  }

  ghost predicate LogOnce(r: Run) {
    && (forall p :: p in r.posts ==> p.0 <= r.epoch)
    && (forall i, j :: 0 <= i < j < |r.posts| && r.posts[i].0 == r.posts[j].0 ==> Together(r.posts[i].1, r.posts[j].1))
    && (forall i, k :: 0 <= i < |r.takes| && Has(r.takes[i].1, k) ==> r.takes[i].0 <= r.epoch && (r.takes[i].0, k) in r.posts)
    && (forall i, j, k :: 0 <= i < j < |r.takes| && r.takes[i].0 == r.takes[j].0 ==> !(Has(r.takes[i].1, k) && Has(r.takes[j].1, k)))
  }

  ghost predicate Sound(r: Run) { BoxTells(r) && LogOnce(r) }

  function Rebound(r: Run, t: Token): Run { r.(box := r.box.Bound(t), epoch := EpochAt(r, t)) }

  lemma BindKeepsSound(r: Run, t: Token)
    requires Sound(r)
    ensures Sound(Rebound(r, t))
  {
    hide Together;
    if r.box.generation != t.generation {
      var e := r.epoch + 1;
      assert forall k :: (e, k) !in r.posts;
      forall k ensures !Has(NO_COMMANDS, k) { KindCases(k); }
    }
  }

  lemma KindCases(k: Kind)
    ensures !Has(NO_COMMANDS, k)
  {
  }

  lemma TakeKeepsSound(r: Run)
    requires Sound(r)
    ensures Sound(r.(box := r.box.(pending := NO_COMMANDS), takes := r.takes + [(r.epoch, r.box.pending)]))
  {
    hide Together;
    var last := r.box.pending;
    var takes := r.takes + [(r.epoch, last)];
    forall k ensures !Has(NO_COMMANDS, k) { KindCases(k); }
    forall k ensures Got(takes, r.epoch, k) <==> Got(r.takes, r.epoch, k) || Has(last, k) {
      GotMore(r.takes, r.epoch, last, k);
    }
  }

  lemma GotMore(takes: seq<(nat, Commands)>, epoch: nat, last: Commands, k: Kind)
    ensures Got(takes + [(epoch, last)], epoch, k) <==> Got(takes, epoch, k) || Has(last, k)
  {
    var more := takes + [(epoch, last)];
    assert more[|takes|] == (epoch, last);
    if i :| 0 <= i < |takes| && takes[i].0 == epoch && Has(takes[i].1, k) { assert more[i] == takes[i]; }
  }

  lemma PostKeepsSound(r: Run, t: Token, status: nat)
    requires Sound(r) && r.box.generation == t.generation && r.box.Accepts(t, status)
    ensures Sound(r.(box := r.box.Posted(t, status), posts := r.posts + [(r.epoch, KindOf(status))]))
  {
    var k := KindOf(status);
    var s := r.(box := r.box.Posted(t, status), posts := r.posts + [(r.epoch, k)]);
    assert (r.epoch, k) !in r.posts;
    forall i | 0 <= i < |r.posts| && r.posts[i].0 == r.epoch ensures Together(r.posts[i].1, k) {
      assert r.posts[i] in r.posts;
    }
    PendingGrows(r.box, t, status);
    hide Has;
    assert !Got(r.takes, r.epoch, k);
    assert BoxTells(s);
    hide Together;
    assert LogOnce(s);
  }

  lemma PendingGrows(box: ReplyData, t: Token, status: nat)
    requires box.generation == t.generation && box.Accepts(t, status)
    ensures forall k :: Has(box.Posted(t, status).pending, k) <==> Has(box.pending, k) || k == KindOf(status)
  {
  }

  lemma StepKeepsSound(r: Run, c: Call)
    requires Sound(r)
    ensures Sound(Step(r, c))
  {
    hide Sound, ReplyData.Accepts;
    BindKeepsSound(r, c.token);
    var b := Rebound(r, c.token);
    assert b.box.Bound(c.token) == b.box;
    match c {
      case Post(t, status) =>
        if b.box.Accepts(t, status) { PostKeepsSound(b, t, status); }
      case Take(t) => TakeKeepsSound(b);
    }
  }

  lemma {:induction false} AlwaysSound(calls: seq<Call>)
    ensures Sound(After(calls))
  {
    if calls == [] {
      forall k ensures !Has(NO_COMMANDS, k) { KindCases(k); }
    } else {
      AlwaysSound(calls[..|calls| - 1]);
      StepKeepsSound(After(calls[..|calls| - 1]), calls[|calls| - 1]);
    }
  }

  /** Over any calls: within an epoch no kind is accepted twice, nor two final ones, nor a final one and Start. */
  lemma AcceptedOnce(calls: seq<Call>, i: nat, j: nat)
    requires i < j < |After(calls).posts| && After(calls).posts[i].0 == After(calls).posts[j].0
    ensures Together(After(calls).posts[i].1, After(calls).posts[j].1)
  {
    hide After, Together;
    AlwaysSound(calls);
  }

  /** Over any calls: what is taken was accepted in that epoch and is not taken twice, and of what the present
      epoch accepted each kind is either still pending or taken. */
  lemma TakenOnce(calls: seq<Call>)
    ensures var r := After(calls);
      && (forall i, k :: 0 <= i < |r.takes| && Has(r.takes[i].1, k) ==> (r.takes[i].0, k) in r.posts)
      && (forall i, j, k :: 0 <= i < j < |r.takes| && r.takes[i].0 == r.takes[j].0 && Has(r.takes[i].1, k) ==> !Has(r.takes[j].1, k))
      && (forall k :: (r.epoch, k) in r.posts ==> (Has(r.box.pending, k) <==> !Got(r.takes, r.epoch, k)))
      && (forall k :: Has(r.box.pending, k) ==> (r.epoch, k) in r.posts)
  {
    hide After, Has;
    AlwaysSound(calls);
  }

  /** A status is accepted exactly when its epoch has accepted no final one and: for End, no End, the reply being
      spoken or started; for the others, no Start, while the session thinks. */
  lemma AcceptedIff(calls: seq<Call>, t: Token, status: nat)
    ensures var r, s := After(calls), After(calls + [Post(t, status)]);
      var e := EpochAt(r, t);
      s.posts == r.posts + [(e, KindOf(status))] || s.posts == r.posts
    ensures var r, s := After(calls), After(calls + [Post(t, status)]);
      var e := EpochAt(r, t);
      (s.posts != r.posts <==>
        && (e, Success) !in r.posts && (e, Failure) !in r.posts
        && if KindOf(status) == End
           then (e, End) !in r.posts && (t.state == Speaking || (t.state == Thinking && (e, Start) in r.posts))
           else (e, Start) !in r.posts && t.state == Thinking)
  {
    hide LogOnce;
    assert (calls + [Post(t, status)])[..|calls + [Post(t, status)]| - 1] == calls;
    AlwaysSound(calls);
    BindKeepsSound(After(calls), t);
  }

  /** A call for another generation finds an empty box: it takes nothing of what was posted before. */
  lemma NothingSurvives(calls: seq<Call>, t: Token)
    requires t.generation != After(calls).box.generation
    ensures var r := After(calls + [Take(t)]);
      && r.takes == After(calls).takes + [(After(calls).epoch + 1, NO_COMMANDS)]
      && r.box == ReplyData(t.generation, NO_COMMANDS, false, false, false)
  {
    assert (calls + [Take(t)])[..|calls + [Take(t)]| - 1] == calls;
  }

  // ---------------------------------------------------------------- the class

  /** The box object answers any calls as this says: which posts it accepts, and what each take gets. */
  method Serve(calls: seq<Call>) returns (box: ReplyControl, posted: seq<Kind>, taken: seq<Commands>)
    ensures box.Data() == After(calls).box
    ensures |posted| == |After(calls).posts| && forall i :: 0 <= i < |posted| ==> posted[i] == After(calls).posts[i].1
    ensures |taken| == |After(calls).takes| && forall i :: 0 <= i < |taken| ==> taken[i] == After(calls).takes[i].1
  {
    box := new ReplyControl();
    posted, taken := [], [];
    for i := 0 to |calls|
      invariant fresh(box) && box.Data() == After(calls[..i]).box
      invariant |posted| == |After(calls[..i]).posts|
      invariant forall j :: 0 <= j < |posted| ==> posted[j] == After(calls[..i]).posts[j].1
      invariant |taken| == |After(calls[..i]).takes|
      invariant forall j :: 0 <= j < |taken| ==> taken[j] == After(calls[..i]).takes[j].1
    {
      assert calls[..i + 1][..i] == calls[..i];
      match calls[i] {
        case Post(t, status) =>
          var ok := box.Post(t, status);
          if ok { posted := posted + [KindOf(status)]; }
        case Take(t) =>
          var commands := box.Take(t);
          taken := taken + [commands];
      }
    }
    assert calls[..|calls|] == calls;
  }
}
