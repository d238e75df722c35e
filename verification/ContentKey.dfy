/** The text the display worker compares to decide whether anything changed
    (firmware/apps/waveshare-epaper-397-wifi/epaper_wifi_ui.cc, the `content` buffer): the painted values
    written one after the other with a bar between them. */
module ContentKey {
  import opened EpaperPaint

  // ---------------------------------------------------------------- decimal numbers

  function Digit(d: nat): char
    requires d < 10
  {
    "0123456789"[d]
  }

  /** `%d` of a number that is not negative. */
  function Digits(n: nat): string {
    if n < 10 then [Digit(n)] else Digits(n / 10) + [Digit(n % 10)]
  }

  function Decimal(n: int): string { if n < 0 then "-" + Digits(-n) else Digits(n) }

  /** The number a string of digits stands for. */
  function Value(s: string): int {
    if s == "" then 0 else 10 * Value(s[..|s| - 1]) + (s[|s| - 1] as int - '0' as int)
  }

  function SignedValue(s: string): int { if s != "" && s[0] == '-' then -Value(s[1..]) else Value(s) }

  lemma {:induction false} DigitsValue(n: nat)
    ensures Value(Digits(n)) == n
    ensures Digits(n) != "" && forall c :: c in Digits(n) ==> '0' <= c <= '9'
  {
    DigitValue(n % 10);
    var s := Digits(n);
    if n >= 10 {
      DigitsValue(n / 10);
      assert s[..|s| - 1] == Digits(n / 10);
    } else {
      assert s[..|s| - 1] == "";
    }
  }

  lemma DigitValue(d: nat)
    requires d < 10
    ensures '0' <= Digit(d) <= '9' && Digit(d) as int - '0' as int == d
  {
  }

  lemma DecimalValue(n: int)
    ensures SignedValue(Decimal(n)) == n && '|' !in Decimal(n)
  {
    DigitsValue(if n < 0 then -n else n);
    if n < 0 {
      assert Decimal(n)[1..] == Digits(-n);
    } else {
      assert Digits(n)[0] in Digits(n);
    }
  }

  // ---------------------------------------------------------------- joined fields

  function Joined(fields: seq<string>): string {
    if fields == [] then "" else if |fields| == 1 then fields[0] else fields[0] + "|" + Joined(fields[1..])
  }

  predicate BarFree(fields: seq<string>) { forall f :: f in fields ==> '|' !in f }

  /** A text cut at its bars. */
  function Pieces(s: string): (r: seq<string>)
    ensures r != []
  {
    if s == "" then [""]
    else
      var rest := Pieces(s[1..]);
      if s[0] == '|' then [""] + rest else [[s[0]] + rest[0]] + rest[1..]
  }

  function AllPieces(fields: seq<string>): (r: seq<string>)
    ensures |r| >= |fields|
  {
    if fields == [] then [] else Pieces(fields[0]) + AllPieces(fields[1..])
  }

  lemma {:induction false} PiecesOfPlain(x: string)
    ensures '|' !in x <==> |Pieces(x)| == 1
    ensures '|' !in x ==> Pieces(x) == [x]
  {
    if x != "" {
      PiecesOfPlain(x[1..]);
      assert x == [x[0]] + x[1..];
    }
  }

  lemma {:induction false} PiecesOfTwo(x: string, y: string)
    ensures Pieces(x + "|" + y) == Pieces(x) + Pieces(y)
  {
    hide Pieces;
    var s := x + "|" + y;
    PiecesStep(s);
    PiecesStep(x);
    if x == "" {
      assert s[1..] == y;
    } else {
      PiecesOfTwo(x[1..], y);
      assert s[1..] == x[1..] + "|" + y;
    }
  }

  lemma PiecesStep(s: string)
    ensures Pieces(s) ==
      if s == "" then [""] else if s[0] == '|' then [""] + Pieces(s[1..])
      else [[s[0]] + Pieces(s[1..])[0]] + Pieces(s[1..])[1..]
  {
  }

  lemma {:induction false} PiecesOfJoined(fields: seq<string>)
    requires fields != []
    ensures Pieces(Joined(fields)) == AllPieces(fields)
  {
    hide Pieces;
    if |fields| == 1 {
      assert AllPieces(fields[1..]) == [];
    } else {
      PiecesOfTwo(fields[0], Joined(fields[1..]));
      PiecesOfJoined(fields[1..]);
    }
  }

  /** Putting the pieces together again. */
  lemma {:induction false} JoinedPieces(s: string)
    ensures Joined(Pieces(s)) == s
  {
    if s != "" {
      JoinedPieces(s[1..]);
      var rest := Pieces(s[1..]);
      if s[0] == '|' {
        assert ([""] + rest)[1..] == rest;
      } else {
        var longer := [[s[0]] + rest[0]] + rest[1..];
        assert longer[1..] == rest[1..];
        assert |rest| == 1 ==> rest[1..] == [];
        assert [s[0]] + s[1..] == s;
      }
    }
  }

  /** Plain fields are their own pieces, and only plain ones are as few. */
  lemma {:induction false} PlainPieces(fields: seq<string>)
    ensures BarFree(fields) <==> |AllPieces(fields)| == |fields|
    ensures BarFree(fields) ==> AllPieces(fields) == fields
  {
    hide Pieces;
    if fields != [] {
      PlainPieces(fields[1..]);
      PiecesOfPlain(fields[0]);
      assert fields == [fields[0]] + fields[1..];
      assert BarFree(fields) <==> '|' !in fields[0] && BarFree(fields[1..]);
    }
  }

  lemma {:induction false} AllPiecesOf(a: seq<string>, b: seq<string>)
    ensures AllPieces(a + b) == AllPieces(a) + AllPieces(b)
  {
    hide Pieces;
    if a == [] {
      assert a + b == b;
    } else {
      AllPiecesOf(a[1..], b);
      assert (a + b)[1..] == a[1..] + b;
    }
  }

  /** Where the fields on one side contain no bar, the joined text gives every field back. */
  lemma JoinedInjective(a: seq<string>, b: seq<string>)
    requires |a| == |b| && BarFree(b) && Joined(a) == Joined(b)
    ensures a == b
  {
    if a != [] {
      PiecesOfJoined(a);
      PiecesOfJoined(b);
      PlainPieces(a);
      PlainPieces(b);
    }
  }

  // ---------------------------------------------------------------- moving a bar

  lemma {:induction false} JoinedTwo(a: seq<string>, b: seq<string>)
    requires a != [] && b != []
    ensures Joined(a + b) == Joined(a) + "|" + Joined(b)
  {
    if |a| == 1 {
      assert (a + b)[1..] == b;
    } else {
      JoinedTwo(a[1..], b);
      assert (a + b)[1..] == a[1..] + b;
    }
  }

  /** A stretch of fields counts only by its own joined text. */
  lemma JoinedMiddle(front: seq<string>, g: seq<string>, h: seq<string>, back: seq<string>)
    requires g != [] && h != [] && Joined(g) == Joined(h)
    ensures Joined(front + g + back) == Joined(front + h + back)
  {
    hide Joined;
    if front != [] { JoinedTwo(front, g); JoinedTwo(front, h); } else { assert front + g == g && front + h == h; }
    if back != [] { JoinedTwo(front + g, back); JoinedTwo(front + h, back); } else { assert front + g + back == front + g && front + h + back == front + h; }
  }

  lemma {:induction false} SplitAtBar(s: string) returns (x: string, y: string)
    requires '|' in s
    ensures s == x + "|" + y
  {
    if s[0] == '|' {
      x, y := "", s[1..];
    } else {
      x, y := SplitAtBar(s[1..]);
      x := [s[0]] + x;
    }
  }

  lemma NeighboursJoin(g: seq<string>, k: nat, x: string, z: string)
    requires k + 1 < |g| && g[k] + "|" + g[k + 1] == x + "|" + z
    ensures Joined(g[k := x][k + 1 := z]) == Joined(g)
  {
    var pair, other := [g[k], g[k + 1]], [x, z];
    assert pair[1..] == [g[k + 1]] && other[1..] == [z];
    JoinedMiddle(g[..k], pair, other, g[k + 2..]);
    assert g[..k] + pair + g[k + 2..] == g;
    assert g[..k] + other + g[k + 2..] == g[k := x][k + 1 := z];
  }

  /** A bar anywhere can be shifted until a chosen field has another length, and the joined text stays. */
  lemma {:induction false} BarShifts(g: seq<string>, k: nat, t: nat) returns (h: seq<string>)
    requires |g| >= 2 && k < |g| && t < |g| && '|' in g[k]
    ensures |h| == |g| && Joined(h) == Joined(g) && |h[t]| != |g[t]|
    decreases if k < t then t - k else k - t
  {
    hide Joined;
    var x, y := SplitAtBar(g[k]);
    if k < t || (k == t && t + 1 < |g|) {
      NeighboursJoin(g, k, x, y + "|" + g[k + 1]);
      h := g[k := x][k + 1 := y + "|" + g[k + 1]];
      if k + 1 < t { h := BarShifts(h, k + 1, t); }
    } else {
      NeighboursJoin(g, k - 1, g[k - 1] + "|" + x, y);
      h := g[k - 1 := g[k - 1] + "|" + x][k := y];
      if t + 1 < k { h := BarShifts(h, k - 1, t); }
    }
  }

  // ---------------------------------------------------------------- the key

  function PhaseNumber(phase: Phase): nat {
    match phase
    case Idle => 0 case Setup => 1 case Connecting => 2 case Pairing => 3
    case Blocked => 4 case Connected => 5 case Ready => 6
  }

  /** The status line: an activation code hides the hint. */
  function StatusLine(status: Status): string {
    if status.code != "" then "Activation code: " + status.code else status.hint
  }

  function Fields(screen: Screen, status: Status): seq<string> {
    [Decimal(PhaseNumber(status.phase)), Decimal(screen.volume), Decimal(screen.battery),
     Decimal(if screen.charging then 1 else 0), Decimal(screen.page),
     status.title, StatusLine(status), screen.title, screen.detail, screen.footer,
     screen.agent, screen.session, screen.setupSsid, Decimal(screen.selected)]
    + screen.rows
  }

  function Key(screen: Screen, status: Status): string { Joined(Fields(screen, status)) }

  /** `changed` of the worker's loop, against the key and the answer painted last. */
  predicate Changed(content: Content, key: string, answer: string) {
    Key(content.screen, content.status) != key || (!HasRows(content.screen) && content.answer != answer)
  }

  /** Before anything was painted every content counts as changed: a key is never empty. */
  lemma ChangedFromNothing(content: Content, answer: string)
    ensures Changed(content, "", answer) && Key(content.screen, content.status) != ""
  {
    hide Decimal;
    var fields := Fields(content.screen, content.status);
    assert Joined(fields) == fields[0] + "|" + Joined(fields[1..]);
    assert |Joined(fields)| >= 1;
  }

  /** No text of the screen or the status contains a bar. */
  predicate Plainly(content: Content) { BarFree(Fields(content.screen, content.status)) }

  /** The key tells a content apart from the painted one by what is drawn, provided no field of the painted
      one contains a bar, both show a code or neither does, and in the setup scene the hints are the same. */
  predicate Comparable(a: Content, b: Content) {
    && Plainly(b)
    && ((a.status.code == "") <==> (b.status.code == ""))
    && (a.status.phase == Setup ==> HintOps(a.status) == HintOps(b.status))
  }

  lemma PhaseNumberInjective(a: Phase, b: Phase)
    requires PhaseNumber(a) == PhaseNumber(b)
    ensures a == b
  {
  }

  lemma SameKeySameFields(a: Content, b: Content)
    requires Plainly(b) && Key(a.screen, a.status) == Key(b.screen, b.status)
    ensures SameHeader(a.screen, b.screen) && SameLayout(a.screen, b.screen, true)
    ensures a.status.phase == b.status.phase && a.status.title == b.status.title
    ensures StatusLine(a.status) == StatusLine(b.status)
  {
    var f, g := Fields(a.screen, a.status), Fields(b.screen, b.status);
    JoinedInjective(f, g);
    assert f[0] == g[0] && f[1] == g[1] && f[2] == g[2] && f[3] == g[3] && f[4] == g[4] && f[13] == g[13];
    assert f[5] == g[5] && f[6] == g[6] && f[7] == g[7] && f[8] == g[8] && f[9] == g[9];
    assert f[10] == g[10] && f[11] == g[11] && f[12] == g[12];
    assert f[14..] == a.screen.rows && g[14..] == b.screen.rows;
    DecimalValue(PhaseNumber(a.status.phase));
    DecimalValue(PhaseNumber(b.status.phase));
    PhaseNumberInjective(a.status.phase, b.status.phase);
    DecimalValue(a.screen.volume);
    DecimalValue(b.screen.volume);
    DecimalValue(a.screen.battery);
    DecimalValue(b.screen.battery);
    DecimalValue(if a.screen.charging then 1 else 0);
    DecimalValue(if b.screen.charging then 1 else 0);
    DecimalValue(a.screen.page);
    DecimalValue(b.screen.page);
    DecimalValue(a.screen.selected);
    DecimalValue(b.screen.selected);
  }

  lemma UnchangedSameOps(a: Content, b: Content)
    requires Comparable(a, b) && !Changed(a, Key(b.screen, b.status), b.answer)
    ensures FullOps(a) == FullOps(b)
  {
    hide Key, Fields, RowOps;
    SameKeySameFields(a, b);
    SameRows(a.screen, b.screen, 0);
    if a.status.code != "" {
      assert StatusLine(a.status)[17..] == a.status.code && StatusLine(b.status)[17..] == b.status.code;
    }
  }

  function Sample(agent: string, session: string): Content {
    Content(Screen(1, "", "", ["", "", "", "", "", ""], -1, "", agent, session, "", 60, -1, 0, false),
            Status(Ready, "", "", ""), "")
  }

  lemma SampleKeys()
    ensures var a, b := Sample("a|b", ""), Sample("a", "b|");
      Key(a.screen, a.status) == Key(b.screen, b.status)
  {
    hide Joined, Decimal;
    var a, b := Sample("a|b", ""), Sample("a", "b|");
    var f, g := Fields(a.screen, a.status), Fields(b.screen, b.status);
    var tail := f[12..];
    JoinedTail(f, 10);
    JoinedTail(g, 10);
    TwoFields("a|b", "", tail);
    TwoFields("a", "b|", tail);
    assert f[..10] == g[..10];
    assert f[10..] == ["a|b", ""] + tail && g[10..] == ["a", "b|"] + tail;
    assert "a|b" + "|" + ("" + "|" + Joined(tail)) == "a" + "|" + ("b|" + "|" + Joined(tail));
  }

  /** Without that proviso it does not: two contents whose key is one string and whose pictures differ. */
  lemma BarCollision()
    ensures var a, b := Sample("a|b", ""), Sample("a", "b|");
      && !Changed(a, Key(b.screen, b.status), b.answer)
      && FullOps(a) != FullOps(b)
  {
    hide Key, RowOps, FooterOps;
    var a, b := Sample("a|b", ""), Sample("a", "b|");
    SampleKeys();
    assert FullOps(a)[5] == Text(20, 158, 460, 240, Identity("a|b", ""), 1);
    assert FullOps(b)[5] == Text(20, 158, 460, 240, Identity("a", "b|"), 1);
  }

  lemma TwoFields(x: string, y: string, tail: seq<string>)
    requires tail != []
    ensures Joined([x, y] + tail) == x + "|" + (y + "|" + Joined(tail))
  {
    assert ([x, y] + tail)[1..] == [y] + tail;
    assert ([y] + tail)[1..] == tail;
  }

  /** The joined text of a list depends on its tail only through the tail's joined text. */
  function JoinedHead(head: seq<string>, tail: string): string {
    if head == [] then tail else head[0] + "|" + JoinedHead(head[1..], tail)
  }

  lemma {:induction false} JoinedTail(fields: seq<string>, n: nat)
    requires n < |fields|
    ensures Joined(fields) == JoinedHead(fields[..n], Joined(fields[n..]))
  {
    if n > 0 {
      JoinedTail(fields[1..], n - 1);
      assert fields[1..][..n - 1] == fields[..n][1..];
      assert fields[1..][n - 1..] == fields[n..];
    } else {
      assert fields[n..] == fields && fields[..n] == [];
    }
  }
}
