/** Exactly which painted contents the key of the display worker tells from every other content
    (firmware/apps/waveshare-epaper-397-wifi/epaper_wifi_ui.cc, `changed`): by their texts, and by their picture. */
module ContentTold {
  import opened EpaperPaint
  import opened ContentKey

  const CODE_LINE: string := "Activation code: "

  /** The numbers, the texts between them, and the rows. */
  function Numbers(c: Content): (r: seq<string>)
    ensures |r| == 5
  {
    [Decimal(PhaseNumber(c.status.phase)), Decimal(c.screen.volume), Decimal(c.screen.battery),
     Decimal(if c.screen.charging then 1 else 0), Decimal(c.screen.page)]
  }

  function Texts(c: Content): (r: seq<string>)
    ensures |r| == 8
  {
    [c.status.title, StatusLine(c.status), c.screen.title, c.screen.detail, c.screen.footer,
     c.screen.agent, c.screen.session, c.screen.setupSsid]
  }

  function Parts(c: Content): seq<string> { Numbers(c) + Texts(c) + [Decimal(c.screen.selected)] + c.screen.rows }

  function KeyOf(c: Content): string { Key(c.screen, c.status) }

  lemma FieldsAreParts(c: Content)
    ensures Fields(c.screen, c.status) == Parts(c)
    ensures KeyOf(c) == Joined(Parts(c))
  {
    hide Decimal, Joined;
  }

  lemma NumbersPlain(c: Content)
    ensures BarFree(Numbers(c)) && '|' !in Decimal(c.screen.selected)
  {
    hide Decimal;
    DecimalValue(PhaseNumber(c.status.phase));
    DecimalValue(c.screen.volume);
    DecimalValue(c.screen.battery);
    DecimalValue(if c.screen.charging then 1 else 0);
    DecimalValue(c.screen.page);
    DecimalValue(c.screen.selected);
  }

  lemma PlainlyParts(c: Content)
    ensures Plainly(c) <==> BarFree(Texts(c)) && BarFree(c.screen.rows)
  {
    hide Decimal, Numbers, Texts, Fields;
    FieldsAreParts(c);
    NumbersPlain(c);
    var f := Parts(c);
    if Plainly(c) {
      forall x | x in Texts(c) || x in c.screen.rows ensures '|' !in x { assert x in f; }
    }
  }

  // ---------------------------------------------------------------- other contents with the same key

  /** The same numbers and rows with other texts; the status line is a hint. */
  function WithTexts(c: Content, g: seq<string>): Content
    requires |g| == 8
  {
    c.(status := c.status.(title := g[0], code := "", hint := g[1]),
       screen := c.screen.(title := g[2], detail := g[3], footer := g[4], agent := g[5], session := g[6], setupSsid := g[7]))
  }

  lemma OtherTexts(c: Content, g: seq<string>)
    requires |g| == 8 && Joined(g) == Joined(Texts(c))
    ensures Texts(WithTexts(c, g)) == g && KeyOf(WithTexts(c, g)) == KeyOf(c)
  {
    hide Decimal, Joined, KeyOf;
    var d := WithTexts(c, g);
    FieldsAreParts(c);
    FieldsAreParts(d);
    assert Texts(d) == g && Numbers(d) == Numbers(c);
    var back := [Decimal(c.screen.selected)] + c.screen.rows;
    assert Parts(c) == Numbers(c) + Texts(c) + back && Parts(d) == Numbers(c) + g + back;
    JoinedMiddle(Numbers(c), Texts(c), g, back);
  }

  lemma OtherRows(c: Content, rows: seq<string>)
    requires |rows| == 6 && Joined(rows) == Joined(c.screen.rows)
    ensures KeyOf(c.(screen := c.screen.(rows := rows))) == KeyOf(c)
  {
    hide Decimal, Joined, KeyOf;
    var d := c.(screen := c.screen.(rows := rows));
    FieldsAreParts(c);
    FieldsAreParts(d);
    var front := Numbers(c) + Texts(c) + [Decimal(c.screen.selected)];
    assert Parts(c) == front + c.screen.rows + [] && Parts(d) == front + rows + [];
    JoinedMiddle(front, c.screen.rows, rows, []);
  }

  /** A line that names an activation code may be a hint as well. */
  lemma OtherStatus(c: Content, code: string, hint: string)
    requires StatusLine(c.status.(code := code, hint := hint)) == StatusLine(c.status)
    ensures KeyOf(c.(status := c.status.(code := code, hint := hint))) == KeyOf(c)
  {
    hide Decimal, Joined, KeyOf;
    var d := c.(status := c.status.(code := code, hint := hint));
    FieldsAreParts(c);
    FieldsAreParts(d);
    assert Texts(d) == Texts(c);
  }

  // ---------------------------------------------------------------- by the fields

  /** The key gives every field of a content back, whatever it is compared with, if and only if none of its
      texts contains a bar. */
  lemma FieldsToldExactly(b: Content)
    ensures (forall a: Content :: KeyOf(a) == KeyOf(b) ==> Parts(a) == Parts(b)) <==> Plainly(b)
  {
    hide Decimal, Joined, Parts, KeyOf, Texts, Numbers, Plainly;
    FieldsAreParts(b);
    if Plainly(b) {
      forall a: Content | KeyOf(a) == KeyOf(b) ensures Parts(a) == Parts(b) { PlainFieldsBack(a, b); }
    } else {
      var a := FieldsConfused(b);
      assert KeyOf(a) == KeyOf(b) && Parts(a) != Parts(b);
    }
  }

  lemma PlainFieldsBack(a: Content, b: Content)
    requires Plainly(b) && KeyOf(a) == KeyOf(b)
    ensures Parts(a) == Parts(b)
  {
    hide Decimal, Joined, KeyOf;
    FieldsAreParts(a);
    FieldsAreParts(b);
    JoinedInjective(Parts(a), Parts(b));
  }

  lemma FieldsConfused(b: Content) returns (a: Content)
    requires !Plainly(b)
    ensures KeyOf(a) == KeyOf(b) && Parts(a) != Parts(b)
  {
    hide Decimal, Joined, KeyOf, Texts, Numbers, Plainly;
    PlainlyParts(b);
    if !BarFree(Texts(b)) {
      var g := TextsShift(b, 0);
      OtherTexts(b, g);
      a := WithTexts(b, g);
      assert Parts(a)[5] == Texts(a)[0] && Parts(b)[5] == Texts(b)[0];
    } else {
      var rows := RowsShift(b);
      OtherRows(b, rows);
      a := b.(screen := b.screen.(rows := rows));
      assert Parts(a)[14] == rows[0] && Parts(b)[14] == b.screen.rows[0];
    }
  }

  lemma TextsShift(b: Content, t: nat) returns (g: seq<string>)
    requires !BarFree(Texts(b)) && t < 8
    ensures |g| == 8 && Joined(g) == Joined(Texts(b)) && |g[t]| != |Texts(b)[t]|
  {
    hide Joined, Texts;
    var f :| f in Texts(b) && '|' in f;
    var k: nat :| k < 8 && Texts(b)[k] == f;
    g := BarShifts(Texts(b), k, t);
  }

  lemma RowsShift(b: Content) returns (rows: seq<string>)
    requires !BarFree(b.screen.rows)
    ensures |rows| == 6 && Joined(rows) == Joined(b.screen.rows) && |rows[0]| != |b.screen.rows[0]|
  {
    hide Joined;
    var f :| f in b.screen.rows && '|' in f;
    var k: nat :| k < 6 && b.screen.rows[k] == f;
    rows := BarShifts(b.screen.rows, k, 0);
  }

  // ---------------------------------------------------------------- by the picture

  predicate NamesCode(hint: string) { |hint| > |CODE_LINE| && hint[..|CODE_LINE|] == CODE_LINE }

  ghost predicate IsDecimal(s: string) { exists n: int :: Decimal(n) == s }

  /** A piece of the rows that reads as a number can pass for the selected row, with six pieces left for the
      rows; then everything before it passes for the text in front. */
  ghost predicate Crosses(rows: seq<string>) {
    var q := Pieces(Joined(rows));
    exists j :: 0 <= j < |q| - 6 && IsDecimal(q[j])
  }

  /** No code is shown and the hint is not taken for one; no bars, where in the setup scene, which shows no
      rows, bars in them do no harm unless they cross. */
  ghost predicate Told(b: Content) {
    && b.status.code == "" && !NamesCode(b.status.hint)
    && if b.status.phase == Setup then BarFree(Texts(b)) && !Crosses(b.screen.rows) else Plainly(b)
  }

  predicate Unchanged(a: Content, b: Content) { !Changed(a, KeyOf(b), b.answer) }

  /** Content counts as unchanged only when it looks the same, whatever it is, if and only if the painted
      content is told. */
  lemma PicturesToldExactly(b: Content)
    ensures (forall a: Content :: Unchanged(a, b) ==> FullOps(a) == FullOps(b)) <==> Told(b)
  {
    hide Told, Unchanged, FullOps;
    if Told(b) {
      forall a: Content | Unchanged(a, b) ensures FullOps(a) == FullOps(b) { ToldSameOps(a, b); }
    } else {
      var a := PicturesConfused(b);
      assert Unchanged(a, b) && FullOps(a) != FullOps(b);
    }
  }

  lemma LineIsHint(a: Content, b: Content)
    requires b.status.code == "" && !NamesCode(b.status.hint) && StatusLine(a.status) == StatusLine(b.status)
    ensures a.status.code == "" && a.status.hint == b.status.hint
  {
    if a.status.code != "" { CodeLineNames(a.status.code); }
  }

  lemma CodeLineNames(code: string)
    requires code != ""
    ensures NamesCode(CODE_LINE + code)
  {
  }

  lemma ToldSameOps(a: Content, b: Content)
    requires Told(b) && Unchanged(a, b)
    ensures FullOps(a) == FullOps(b)
  {
    hide FullOps, Crosses, NamesCode, Fields, Key;
    if b.status.phase == Setup {
      SetupTold(a, b);
    } else {
      hide Texts, Decimal;
      SameKeySameFields(a, b);
      LineIsHint(a, b);
      UnchangedSameOps(a, b);
    }
  }

  /** The pieces of two equal keys, cut where the texts begin. */
  lemma SamePieces(a: Content, b: Content)
    requires KeyOf(a) == KeyOf(b)
    ensures Numbers(a) == Numbers(b)
    ensures AllPieces(Texts(a)) + [Decimal(a.screen.selected)] + AllPieces(a.screen.rows)
      == AllPieces(Texts(b)) + [Decimal(b.screen.selected)] + AllPieces(b.screen.rows)
  {
    hide Decimal, Joined, Pieces, KeyOf, Numbers, Texts, AllPieces;
    PartsPieces(a);
    PartsPieces(b);
    var restA := AllPieces(Texts(a)) + [Decimal(a.screen.selected)] + AllPieces(a.screen.rows);
    var restB := AllPieces(Texts(b)) + [Decimal(b.screen.selected)] + AllPieces(b.screen.rows);
    assert Numbers(a) + restA == Numbers(b) + restB;
    assert Numbers(a) == (Numbers(a) + restA)[..5] && Numbers(b) == (Numbers(b) + restB)[..5];
    assert restA == (Numbers(a) + restA)[5..] && restB == (Numbers(b) + restB)[5..];
  }

  lemma PartsPieces(c: Content)
    ensures Pieces(KeyOf(c)) == Numbers(c) + (AllPieces(Texts(c)) + [Decimal(c.screen.selected)] + AllPieces(c.screen.rows))
  {
    hide Decimal, Joined, Pieces, KeyOf, Numbers, Texts, AllPieces;
    FieldsAreParts(c);
    NumbersPlain(c);
    PlainPieces(Numbers(c));
    PlainPieces([Decimal(c.screen.selected)]);
    PiecesOfJoined(Parts(c));
    AllPiecesOf(Numbers(c), Texts(c));
    AllPiecesOf(Numbers(c) + Texts(c), [Decimal(c.screen.selected)]);
    AllPiecesOf(Numbers(c) + Texts(c) + [Decimal(c.screen.selected)], c.screen.rows);
  }

  lemma SetupTexts(a: Content, b: Content)
    requires KeyOf(a) == KeyOf(b) && BarFree(Texts(b)) && !Crosses(b.screen.rows)
    ensures Texts(a) == Texts(b)
  {
    hide Decimal, Pieces, KeyOf, Numbers, Texts, AllPieces, Joined;
    SamePieces(a, b);
    PlainPieces(Texts(a));
    PlainPieces(Texts(b));
    PiecesOfJoined(b.screen.rows);
    var sel, q := Decimal(b.screen.selected), AllPieces(b.screen.rows);
    var ta, ra := AllPieces(Texts(a)), AllPieces(a.screen.rows);
    var whole := Texts(b) + [sel] + q;
    assert ta + [Decimal(a.screen.selected)] + ra == whole;
    if |ta| > 8 {
      var j: nat := |ta| - 9;
      PieceTaken(ta, Decimal(a.screen.selected), ra, Texts(b), sel, q);
      CrossesAt(b.screen.rows, j, a.screen.selected);
      assert false;
    }
    assert ta == whole[..8];
  }

  lemma PieceTaken(ta: seq<string>, x: string, ra: seq<string>, tb: seq<string>, y: string, q: seq<string>)
    requires ta + [x] + ra == tb + [y] + q && |tb| == 8 < |ta| && |ra| >= 6
    ensures 0 <= |ta| - 9 < |q| - 6 && q[|ta| - 9] == x
  {
    assert (ta + [x] + ra)[|ta|] == x && (tb + [y] + q)[|ta|] == q[|ta| - 9];
  }

  lemma CrossesAt(rows: seq<string>, j: nat, n: int)
    requires var q := Pieces(Joined(rows)); j < |q| - 6 && q[j] == Decimal(n)
    ensures Crosses(rows)
  {
    hide Pieces, Joined, Decimal;
    assert IsDecimal(Pieces(Joined(rows))[j]);
  }

  lemma SetupTold(a: Content, b: Content)
    requires b.status.phase == Setup && Told(b) && Unchanged(a, b)
    ensures FullOps(a) == FullOps(b)
  {
    hide Crosses, NamesCode, Decimal, Key, Joined;
    SetupTexts(a, b);
    SamePieces(a, b);
    SameNumbers(a, b);
    assert StatusLine(a.status) == Texts(a)[1] && StatusLine(b.status) == Texts(b)[1];
    assert a.screen.setupSsid == Texts(a)[7] && b.screen.setupSsid == Texts(b)[7];
    LineIsHint(a, b);
  }

  lemma SameNumbers(a: Content, b: Content)
    requires Numbers(a) == Numbers(b)
    ensures a.status.phase == b.status.phase && SameHeader(a.screen, b.screen)
  {
    hide Decimal;
    var f, g := Numbers(a), Numbers(b);
    assert f[0] == g[0] && f[1] == g[1] && f[2] == g[2] && f[3] == g[3];
    DecimalValue(PhaseNumber(a.status.phase));
    DecimalValue(PhaseNumber(b.status.phase));
    PhaseNumberInjective(a.status.phase, b.status.phase);
    DecimalValue(a.screen.volume);
    DecimalValue(b.screen.volume);
    DecimalValue(a.screen.battery);
    DecimalValue(b.screen.battery);
    DecimalValue(if a.screen.charging then 1 else 0);
    DecimalValue(if b.screen.charging then 1 else 0);
  }

  // ---------------------------------------------------------------- a picture the key confuses

  lemma PicturesConfused(b: Content) returns (a: Content)
    requires !Told(b)
    ensures Unchanged(a, b) && FullOps(a) != FullOps(b)
  {
    hide FullOps, Crosses, NamesCode, Texts, Decimal, Plainly;
    PlainlyParts(b);
    if b.status.code != "" || NamesCode(b.status.hint) {
      a := CodeConfused(b);
    } else if !BarFree(Texts(b)) {
      a := TextsConfused(b);
    } else if b.status.phase == Setup {
      a := CrossConfused(b);
    } else {
      a := RowsConfused(b);
    }
  }

  lemma CodeConfused(b: Content) returns (a: Content)
    requires b.status.code != "" || NamesCode(b.status.hint)
    ensures Unchanged(a, b) && FullOps(a) != FullOps(b)
  {
    hide Key;
    var other := if HintOps(b.status) == [] then "x" else "";
    if b.status.phase == Setup {
      var code := if b.status.code != "" then b.status.code else b.status.hint[|CODE_LINE|..];
      OtherStatus(b, code, other);
      a := b.(status := b.status.(code := code, hint := other));
      OtherHint(b.status, other);
      assert |FullOps(a)| != |FullOps(b)|;
    } else {
      var line := StatusLine(b.status);
      var code := if b.status.code != "" then "" else b.status.hint[|CODE_LINE|..];
      OtherStatus(b, code, line);
      a := b.(status := b.status.(code := code, hint := line));
      assert FullOps(a)[4] != FullOps(b)[4];
    }
  }

  lemma OtherHint(status: Status, other: string)
    requires other == if HintOps(status) == [] then "x" else ""
    ensures |HintOps(status.(hint := other))| != |HintOps(status)|
  {
    if other == "x" { assert forall i :: 0 <= i <= 1 ==> |other[i..]| <= 1; }
  }

  /** The footer, or in the setup scene the name of the network, changes. */
  lemma TextsConfused(b: Content) returns (a: Content)
    requires b.status.code == "" && !BarFree(Texts(b))
    ensures Unchanged(a, b) && FullOps(a) != FullOps(b)
  {
    hide Key, Joined;
    var g := TextsShift(b, if b.status.phase == Setup then 7 else 4);
    OtherTexts(b, g);
    a := WithTexts(b, g);
    if b.status.phase == Setup {
      assert a.screen.setupSsid == g[7];
      assert FullOps(a)[6] != FullOps(b)[6];
    } else {
      assert a.screen.footer == g[4];
      LastIsFooter(a);
      LastIsFooter(b);
    }
  }

  lemma LastIsFooter(c: Content)
    requires c.status.phase != Setup
    ensures FullOps(c) != [] && FullOps(c)[|FullOps(c)| - 1] == Text(20, 708, 460, 795, Plain(c.screen.footer), 1)
  {
    hide TopOps, LowerOps, HeaderOps;
  }

  /** The first row changes, or rows take the place of the answer. */
  lemma RowsConfused(b: Content) returns (a: Content)
    requires b.status.phase != Setup && !BarFree(b.screen.rows)
    ensures Unchanged(a, b) && FullOps(a) != FullOps(b)
  {
    hide Key, Joined, TopOps, HeaderOps, FooterOps, RowOps;
    var rows := RowsShift(b);
    OtherRows(b, rows);
    a := b.(screen := b.screen.(rows := rows));
    FirstRow(a);
    FirstRow(b);
    SameFront(a, b);
    var front := HeaderOps(b.screen, b.status) + TopOps(b.screen, b.status);
    var footer := FooterOps(b.screen, b.status);
    MiddleDiffers(front, LowerOps(a), LowerOps(b), footer, if b.screen.selected == 0 then 1 else 0);
    assert FullOps(a) == front + LowerOps(a) + footer && FullOps(b) == front + LowerOps(b) + footer;
  }

  lemma MiddleDiffers(front: seq<Op>, a: seq<Op>, b: seq<Op>, back: seq<Op>, k: nat)
    requires |a| != |b| || (k < |a| && a[k] != b[k])
    ensures front + a + back != front + b + back
  {
    var f, g := front + a + back, front + b + back;
    if |a| == |b| { assert f[|front| + k] == a[k] && g[|front| + k] == b[k]; } else { assert |f| != |g|; }
  }

  lemma SameFront(a: Content, b: Content)
    requires a == b.(screen := b.screen.(rows := a.screen.rows))
    ensures HeaderOps(a.screen, a.status) == HeaderOps(b.screen, b.status) && TopOps(a.screen, a.status) == TopOps(b.screen, b.status)
    ensures FooterOps(a.screen, a.status) == FooterOps(b.screen, b.status)
  {
  }

  lemma FirstRow(c: Content)
    ensures var ops := RowOps(c.screen, 0);
      var k := if c.screen.selected == 0 then 1 else 0;
      |ops| >= 6 && ops[k] == Text(50, 312, 460, 372, Plain(c.screen.rows[0]), 1)
  {
    RowsCount(c.screen, 1);
  }

  lemma {:induction false} RowsCount(screen: Screen, i: nat)
    requires i <= 6
    ensures |RowOps(screen, i)| >= 6 - i
    decreases 6 - i
  {
    if i < 6 { RowsCount(screen, i + 1); }
  }

  /** Pieces of the rows go to the name of the network and to the selected row. */
  lemma CrossConfused(b: Content) returns (a: Content)
    requires b.status.phase == Setup && b.status.code == "" && Crosses(b.screen.rows)
    ensures Unchanged(a, b) && FullOps(a) != FullOps(b)
  {
    hide Key, Joined, Decimal, Pieces;
    var q := Pieces(Joined(b.screen.rows));
    var j :| 0 <= j < |q| - 6 && IsDecimal(q[j]);
    var n: int :| Decimal(n) == q[j];
    a := Crossed(b, q, j, n);
    CrossedKey(b, j, n);
    CrossedSsid(b, q, j, n);
    assert FullOps(a)[6] != FullOps(b)[6];
  }

  function Crossed(b: Content, q: seq<string>, j: nat, n: int): Content
    requires j < |q| - 6
  {
    var ssid := Joined([b.screen.setupSsid, Decimal(b.screen.selected)] + q[..j]);
    b.(screen := b.screen.(setupSsid := ssid, selected := n, rows := q[j + 1..j + 6] + [Joined(q[j + 6..])]))
  }

  lemma CrossedSsid(b: Content, q: seq<string>, j: nat, n: int)
    requires j < |q| - 6
    ensures |Crossed(b, q, j, n).screen.setupSsid| > |b.screen.setupSsid|
  {
    hide Decimal;
    var parts := [b.screen.setupSsid, Decimal(b.screen.selected)] + q[..j];
    assert Joined(parts) == parts[0] + "|" + Joined(parts[1..]);
  }

  lemma CrossedKey(b: Content, j: nat, n: int)
    requires var q := Pieces(Joined(b.screen.rows)); b.status.code == "" && j < |q| - 6 && Decimal(n) == q[j]
    ensures KeyOf(Crossed(b, Pieces(Joined(b.screen.rows)), j, n)) == KeyOf(b)
  {
    hide KeyOf, Joined, Decimal, Pieces, Numbers;
    var rows := b.screen.rows;
    var q := Pieces(Joined(rows));
    var a := Crossed(b, q, j, n);
    FieldsAreParts(a);
    FieldsAreParts(b);
    assert Numbers(a) == Numbers(b) by { SameNumberTexts(a, b); }
    var front := Numbers(b) + Texts(b)[..7];
    var merged := [b.screen.setupSsid, Decimal(b.screen.selected)] + q[..j];
    var tail := q[j + 1..j + 6];
    JoinedPieces(Joined(rows));
    JoinedMiddle(Numbers(b) + Texts(b) + [Decimal(b.screen.selected)], rows, q, []);
    assert Parts(b) == Numbers(b) + Texts(b) + [Decimal(b.screen.selected)] + rows + [];
    assert Numbers(b) + Texts(b) + [Decimal(b.screen.selected)] + q + [] == front + merged + q[j..];
    JoinedOne(Joined(merged));
    JoinedMiddle(front, merged, [Joined(merged)], q[j..]);
    var nearly := front + [Joined(merged)] + [q[j]] + tail;
    assert front + [Joined(merged)] + q[j..] == nearly + q[j + 6..] + [];
    JoinedOne(Joined(q[j + 6..]));
    JoinedMiddle(nearly, q[j + 6..], [Joined(q[j + 6..])], []);
    assert Texts(a) == Texts(b)[..7] + [Joined(merged)];
    assert Parts(a) == nearly + [Joined(q[j + 6..])] + [];
  }

  lemma SameNumberTexts(a: Content, b: Content)
    requires a.status == b.status && SameHeader(a.screen, b.screen) && a.screen.page == b.screen.page
    ensures Numbers(a) == Numbers(b)
  {
  }

  lemma JoinedOne(s: string)
    ensures Joined([s]) == s
  {
  }
}
