/** The text whose SHA-256 is a dictionary type's content hash, when it determines the rows and when
    it does not. */
module DictHash {
  import opened Wrappers
  import opened Decimals

  datatype HashRow = HashRow(id: int, code: string, caption: string, color: string, sortOrder: int, isActive: bool)

  function Flag(b: bool): string {
    if b then "true" else "false"
  }

  function Line(r: HashRow): string {
    Decimal(r.id) + "|" + r.code + "|" + r.caption + "|" + r.color + "|" + Decimal(r.sortOrder) + "|"
    + Flag(r.isActive) + "\n"
  }

  function Serialize(rows: seq<HashRow>): string {
    if rows == [] then "" else Line(rows[0]) + Serialize(rows[1..])
  }

  /** The builder loop of hashItems. */
  method BuildPreimage(rows: seq<HashRow>) returns (b: string)
    ensures b == Serialize(rows)
  {
    hide Serialize;
    b := "";
    assert rows[0..] == rows;
    for i := 0 to |rows|
      invariant b + Serialize(rows[i..]) == Serialize(rows)
    {
      var r := rows[i];
      var line := Decimal(r.id);
      line := line + "|";
      line := line + r.code;
      line := line + "|";
      line := line + r.caption;
      line := line + "|";
      line := line + r.color;
      line := line + "|";
      line := line + Decimal(r.sortOrder);
      line := line + "|";
      line := line + Flag(r.isActive);
      line := line + "\n";
      assert line == Line(r);
      hide Line;
      ghost var before := b;
      b := b + line;
      LineFirst(rows, i);
      Assoc(before, Line(r), Serialize(rows[i + 1..]));
    }
    LinesEnd(rows);
  }

  lemma LineFirst(rows: seq<HashRow>, i: nat)
    requires i < |rows|
    ensures Serialize(rows[i..]) == Line(rows[i]) + Serialize(rows[i + 1..])
  {
    hide Line;
    assert rows[i..][1..] == rows[i + 1..];
  }

  lemma LinesEnd(rows: seq<HashRow>)
    ensures Serialize(rows[|rows|..]) == ""
  {
  }

  lemma Assoc(a: string, b: string, c: string)
    ensures a + b + c == a + (b + c)
  {
  }

  predicate PipeFreeRow(r: HashRow) {
    '|' !in r.code && '|' !in r.caption && '|' !in r.color
  }

  predicate PipeFree(rows: seq<HashRow>) {
    forall k :: 0 <= k < |rows| ==> PipeFreeRow(rows[k])
  }

  // --- A parser ---------------------------------------------------------------------------------

  /** The text up to the first '|' and what follows it. */
  function Field(s: string): (r: Option<(string, string)>)
    ensures r.Some? ==> |r.value.1| < |s|
  {
    if s == [] then None
    else if s[0] == '|' then Some(([], s[1..]))
    else
      match Field(s[1..])
      case None => None
      case Some((field, rest)) => Some(([s[0]] + field, rest))
  }

  lemma {:induction false} FieldOf(field: string, rest: string)
    requires '|' !in field
    ensures Field(field + "|" + rest) == Some((field, rest))
  {
    var s := field + "|" + rest;
    if field == [] {
      assert s[1..] == rest;
    } else {
      assert s[1..] == field[1..] + "|" + rest;
      FieldOf(field[1..], rest);
      assert [s[0]] + field[1..] == field;
    }
  }

  function ParseFlag(s: string): (r: Option<(bool, string)>)
    ensures r.Some? ==> |r.value.1| < |s|
  {
    if "true\n" <= s then Some((true, s[5..]))
    else if "false\n" <= s then Some((false, s[6..]))
    else None
  }

  function ParseLine(s: string): (r: Option<(HashRow, string)>)
    ensures r.Some? ==> |r.value.1| < |s|
  {
    match Field(s)
    case None => None
    case Some((id, s1)) =>
      match Field(s1)
      case None => None
      case Some((code, s2)) =>
        match Field(s2)
        case None => None
        case Some((caption, s3)) =>
          match Field(s3)
          case None => None
          case Some((color, s4)) =>
            match Field(s4)
            case None => None
            case Some((sort, s5)) =>
              match ParseFlag(s5)
              case None => None
              case Some((active, rest)) =>
                Some((HashRow(ParseDecimal(id), code, caption, color, ParseDecimal(sort), active), rest))
  }

  function Parse(s: string): seq<HashRow>
    decreases |s|
  {
    match ParseLine(s)
    case None => []
    case Some((row, rest)) => [row] + Parse(rest)
  }

  lemma ParseOfLine(r: HashRow, rest: string)
    requires PipeFreeRow(r)
    ensures ParseLine(Line(r) + rest) == Some((r, rest))
  {
    hide Field, Decimal, ParseDecimal;
    var tail := Flag(r.isActive) + "\n" + rest;
    var s4 := Decimal(r.sortOrder) + "|" + tail;
    var s3 := r.color + "|" + s4;
    var s2 := r.caption + "|" + s3;
    var s1 := r.code + "|" + s2;
    LineUnfolds(r, rest);
    FieldOf(Decimal(r.id), s1);
    FieldOf(r.code, s2);
    FieldOf(r.caption, s3);
    FieldOf(r.color, s4);
    FieldOf(Decimal(r.sortOrder), tail);
    FlagOf(r.isActive, rest);
    ParseOfDecimal(r.id);
    ParseOfDecimal(r.sortOrder);
  }

  lemma LineUnfolds(r: HashRow, rest: string)
    ensures var tail := Flag(r.isActive) + "\n" + rest;
            var s4 := Decimal(r.sortOrder) + "|" + tail;
            Line(r) + rest == Decimal(r.id) + "|" + (r.code + "|" + (r.caption + "|" + (r.color + "|" + s4)))
  {
    hide Decimal, Flag;
    var tail := Flag(r.isActive) + "\n" + rest;
    var a := Decimal(r.id) + "|";
    var b := a + r.code + "|";
    var c := b + r.caption + "|";
    var d := c + r.color + "|";
    var e := d + Decimal(r.sortOrder) + "|";
    FieldMoves(e, Flag(r.isActive), "\n", rest);
    FieldMoves(d, Decimal(r.sortOrder), "|", tail);
    FieldMoves(c, r.color, "|", Decimal(r.sortOrder) + "|" + tail);
    FieldMoves(b, r.caption, "|", r.color + "|" + (Decimal(r.sortOrder) + "|" + tail));
    FieldMoves(a, r.code, "|", r.caption + "|" + (r.color + "|" + (Decimal(r.sortOrder) + "|" + tail)));
  }

  lemma FieldMoves(a: string, field: string, bar: string, rest: string)
    ensures a + field + bar + rest == a + (field + bar + rest)
  {
    Assoc(a, field, bar);
    Assoc(a, field + bar, rest);
  }

  lemma FlagOf(b: bool, rest: string)
    ensures ParseFlag(Flag(b) + "\n" + rest) == Some((b, rest))
  {
    var s := Flag(b) + "\n" + rest;
    if b {
      assert s[..5] == "true\n" && s[5..] == rest;
    } else {
      assert s[0] == 'f' && s[..6] == "false\n" && s[6..] == rest;
    }
  }

  /** The parser gets every pipe-free row list back: ids, texts, signs and flags; newlines inside the
      texts do no harm. */
  lemma {:induction false} RoundTrip(rows: seq<HashRow>)
    requires PipeFree(rows)
    ensures Parse(Serialize(rows)) == rows
  {
    if rows == [] {
    } else {
      RoundTrip(rows[1..]);
      ParseOfLine(rows[0], Serialize(rows[1..]));
    }
  }

  lemma SerializeInjective(rows: seq<HashRow>, rows': seq<HashRow>)
    requires PipeFree(rows) && PipeFree(rows') && Serialize(rows) == Serialize(rows')
    ensures rows == rows'
  {
    RoundTrip(rows);
    RoundTrip(rows');
  }

  // --- Exactly when the text determines the rows ------------------------------------------------

  function Pipes(s: string): nat {
    if s == [] then 0 else (if s[0] == '|' then 1 else 0) + Pipes(s[1..])
  }

  lemma {:induction false} PipesConcat(s: string, t: string)
    ensures Pipes(s + t) == Pipes(s) + Pipes(t)
  {
    if s == [] {
      assert s + t == t;
    } else {
      assert (s + t)[1..] == s[1..] + t;
      PipesConcat(s[1..], t);
    }
  }

  lemma {:induction false} PipesZero(s: string)
    ensures Pipes(s) == 0 <==> '|' !in s
  {
    if s == [] {
    } else {
      PipesZero(s[1..]);
    }
  }

  function TextPipes(r: HashRow): nat {
    Pipes(r.code) + Pipes(r.caption) + Pipes(r.color)
  }

  function AllTextPipes(rows: seq<HashRow>): nat {
    if rows == [] then 0 else TextPipes(rows[0]) + AllTextPipes(rows[1..])
  }

  lemma FieldPipes(s: string, t: string)
    ensures Pipes(s + "|" + t) == Pipes(s) + 1 + Pipes(t)
  {
    PipesConcat(s + "|", t);
    PipesConcat(s, "|");
    assert "|"[1..] == "";
  }

  lemma LinePipes(r: HashRow)
    ensures Pipes(Line(r)) == 5 + TextPipes(r)
  {
    var tail := Flag(r.isActive) + "\n";
    var s4 := Decimal(r.sortOrder) + "|" + tail;
    var s3 := r.color + "|" + s4;
    var s2 := r.caption + "|" + s3;
    var s1 := r.code + "|" + s2;
    hide Pipes, Line, Decimal;
    LineUnfolds(r, "");
    assert Line(r) + "" == Line(r) && Flag(r.isActive) + "\n" + "" == tail;
    FieldPipes(Decimal(r.id), s1);
    FieldPipes(r.code, s2);
    FieldPipes(r.caption, s3);
    FieldPipes(r.color, s4);
    FieldPipes(Decimal(r.sortOrder), tail);
    PipesZero(Decimal(r.id));
    PipesZero(Decimal(r.sortOrder));
    PipesZero(tail);
  }

  lemma {:induction false} SerializePipes(rows: seq<HashRow>)
    ensures Pipes(Serialize(rows)) == 5 * |rows| + AllTextPipes(rows)
    ensures AllTextPipes(rows) == 0 <==> PipeFree(rows)
  {
    if rows == [] {
      assert Serialize(rows) == "";
    } else {
      hide Line, Pipes;
      LinePipes(rows[0]);
      PipesConcat(Line(rows[0]), Serialize(rows[1..]));
      SerializePipes(rows[1..]);
      PipesZero(rows[0].code);
      PipesZero(rows[0].caption);
      PipesZero(rows[0].color);
      assert PipeFree(rows) <==> PipeFreeRow(rows[0]) && PipeFree(rows[1..]) by {
        assert forall k :: 0 < k < |rows| ==> rows[k] == rows[1..][k - 1];
      }
    }
  }

  /** Another row with the same line, if some text has a '|': the bar that ends one field can as
      well be the one inside it. */
  function Twin(r: HashRow): HashRow
    requires !PipeFreeRow(r)
  {
    if '|' in r.code then
      var i := Bar(r.code);
      r.(code := r.code[..i], caption := r.code[i + 1..] + "|" + r.caption)
    else if '|' in r.caption then
      var i := Bar(r.caption);
      r.(code := r.code + "|" + r.caption[..i], caption := r.caption[i + 1..])
    else
      var i := Bar(r.color);
      r.(caption := r.caption + "|" + r.color[..i], color := r.color[i + 1..])
  }

  /** The position of the first '|'. */
  function Bar(s: string): (i: nat)
    requires '|' in s
    ensures i < |s| && s[i] == '|'
  {
    if s[0] == '|' then 0 else 1 + Bar(s[1..])
  }

  lemma TwinCollides(r: HashRow)
    requires !PipeFreeRow(r)
    ensures Twin(r) != r && Line(Twin(r)) == Line(r)
  {
    hide Line, Decimal;
    var t := Twin(r);
    if '|' in r.code {
      BarMoves(r.code, Bar(r.code), r.caption);
      assert |t.code| < |r.code|;
      SameCodeAndCaption(r, t);
    } else if '|' in r.caption {
      BarMoves(r.caption, Bar(r.caption), r.code);
      assert |t.caption| < |r.caption|;
      SameCodeAndCaption(r, t);
    } else {
      BarMoves(r.color, Bar(r.color), r.caption);
      assert |t.color| < |r.color|;
      SameCaptionAndColor(r, t);
    }
  }

  /** Which of two bars ends the first field cannot be seen. */
  lemma BarMoves(s: string, i: nat, x: string)
    requires i < |s| && s[i] == '|'
    ensures s[..i] + "|" + (s[i + 1..] + "|" + x) == s + "|" + x
    ensures x + "|" + s[..i] + "|" + s[i + 1..] == x + "|" + s
  {
    assert s == s[..i] + "|" + s[i + 1..];
  }

  lemma SameCodeAndCaption(r: HashRow, t: HashRow)
    requires t == r.(code := t.code, caption := t.caption)
    requires t.code + "|" + t.caption == r.code + "|" + r.caption
    ensures Line(t) == Line(r)
  {
    hide Decimal, Flag;
    var a := Decimal(r.id) + "|";
    FieldMoves(a, r.code, "|", r.caption);
    FieldMoves(a, t.code, "|", t.caption);
  }

  lemma SameCaptionAndColor(r: HashRow, t: HashRow)
    requires t == r.(caption := t.caption, color := t.color)
    requires t.caption + "|" + t.color == r.caption + "|" + r.color
    ensures Line(t) == Line(r)
  {
    hide Decimal, Flag;
    var a := Decimal(r.id) + "|" + r.code + "|";
    FieldMoves(a, r.caption, "|", r.color);
    FieldMoves(a, t.caption, "|", t.color);
  }

  lemma {:induction false} TwinAt(rows: seq<HashRow>, k: nat)
    requires k < |rows| && !PipeFreeRow(rows[k])
    ensures rows[k := Twin(rows[k])] != rows
    ensures Serialize(rows[k := Twin(rows[k])]) == Serialize(rows)
  {
    hide Line, Twin, PipeFreeRow;
    TwinCollides(rows[k]);
    var other := rows[k := Twin(rows[k])];
    assert other[k] != rows[k];
    if k == 0 {
      assert other[1..] == rows[1..];
    } else {
      assert other[1..] == rows[1..][k - 1 := Twin(rows[k])];
      TwinAt(rows[1..], k - 1);
    }
  }

  /** Among lists of one length, a list is the only one with its text exactly when none of its texts
      contains a '|'. */
  lemma UniqueIffPipeFree(rows: seq<HashRow>)
    ensures PipeFree(rows) <==> forall other :: |other| == |rows| && Serialize(other) == Serialize(rows) ==> other == rows
  {
    hide Serialize, Twin, PipeFreeRow, AllTextPipes, Pipes;
    if PipeFree(rows) {
      forall other | |other| == |rows| && Serialize(other) == Serialize(rows)
        ensures other == rows
      {
        SerializePipes(rows);
        SerializePipes(other);
        SerializeInjective(rows, other);
      }
    } else {
      var k :| 0 <= k < |rows| && !PipeFreeRow(rows[k]);
      TwinAt(rows, k);
    }
  }

  /** What follows the caption in a line. */
  function Rest(r: HashRow): string {
    r.color + "|" + Decimal(r.sortOrder) + "|" + Flag(r.isActive) + "\n"
  }

  /** What comes before the sort order. */
  function UpToColor(r: HashRow): string {
    Decimal(r.id) + "|" + r.code + "|" + r.caption + "|" + r.color
  }

  lemma LineHalves(r: HashRow)
    ensures Line(r) == UpToColor(r) + ("|" + Decimal(r.sortOrder) + "|" + Flag(r.isActive) + "\n")
    ensures Line(r) == Decimal(r.id) + "|" + r.code + "|" + r.caption + "|" + Rest(r)
  {
    hide Decimal, Flag;
    var x, sort, active := UpToColor(r), Decimal(r.sortOrder), Flag(r.isActive);
    FieldMoves(x + "|" + sort, "|", active, "\n");
    FieldMoves(x, "|", sort, "|" + active + "\n");
    FieldMoves("|" + sort, "|", active, "\n");
    var p := Decimal(r.id) + "|" + r.code + "|" + r.caption + "|";
    FieldMoves(p, r.color, "|", sort);
    FieldMoves(p + (r.color + "|" + sort), "|", active, "\n");
    FieldMoves(r.color + "|" + sort, "|", active, "\n");
    Assoc(p, r.color + "|" + sort, "|" + active + "\n");
  }

  /** One row in place of two: the first row's tail and the second row's head become its color. */
  function Fused(a: HashRow, b: HashRow): HashRow {
    HashRow(a.id, a.code, a.caption, Rest(a) + UpToColor(b), b.sortOrder, b.isActive)
  }

  /** Across lengths it takes both lists pipe-free: any two rows share their text with one row. */
  lemma TwoRowsCollide(a: HashRow, b: HashRow)
    ensures Serialize([Fused(a, b)]) == Serialize([a, b])
  {
    hide Line, Rest, UpToColor;
    var one := Fused(a, b);
    assert [a, b][1..] == [b] && [one][1..] == [] && [b][1..] == [];
    assert Serialize([]) == "" && Line(one) + "" == Line(one) && Line(b) + "" == Line(b);
    assert Serialize([b]) == Line(b);
    FusedLine(a, b);
  }

  lemma FusedLine(a: HashRow, b: HashRow)
    ensures Line(Fused(a, b)) == Line(a) + Line(b)
  {
    hide Line, Rest, Decimal, Flag;
    var one := Fused(a, b);
    var p := Decimal(a.id) + "|" + a.code + "|" + a.caption + "|";
    var t := "|" + Decimal(b.sortOrder) + "|" + Flag(b.isActive) + "\n";
    LineHalves(one);
    LineHalves(a);
    LineHalves(b);
    assert UpToColor(one) == p + one.color;
    hide UpToColor;
    FieldMoves(p, Rest(a), UpToColor(b), t);
    Assoc(p, Rest(a), UpToColor(b) + t);
    Assoc(Rest(a), UpToColor(b), t);
  }

  // --- One row changed, and lists of any length -------------------------------------------------

  lemma CancelLeft(a: string, b: string, c: string)
    ensures a + b == a + c <==> b == c
  {
    if a + b == a + c {
      assert b == (a + b)[|a|..];
      assert c == (a + c)[|a|..];
    }
  }

  lemma CancelRight(a: string, b: string, c: string)
    ensures b + a == c + a <==> b == c
  {
    if b + a == c + a {
      assert |b| == |c|;
      assert b == (b + a)[..|b|];
      assert c == (c + a)[..|c|];
    }
  }

  /** Changing one row changes the text exactly when it changes that row's line. */
  lemma {:induction false} TextChangesWithLine(rows: seq<HashRow>, k: nat, r: HashRow)
    requires k < |rows|
    ensures Serialize(rows[k := r]) == Serialize(rows) <==> Line(r) == Line(rows[k])
  {
    hide Line;
    var other := rows[k := r];
    if k == 0 {
      assert other[1..] == rows[1..];
      CancelRight(Serialize(rows[1..]), Line(r), Line(rows[0]));
    } else {
      assert other[1..] == rows[1..][k - 1 := r];
      TextChangesWithLine(rows[1..], k - 1, r);
      CancelLeft(Line(rows[0]), Serialize(other[1..]), Serialize(rows[1..]));
    }
  }

  /** Dropping a row shortens the text by its line. */
  lemma {:induction false} SerializeDropped(rows: seq<HashRow>, k: nat)
    requires k < |rows|
    ensures |Serialize(rows)| == |Serialize(rows[..k] + rows[k + 1..])| + |Line(rows[k])|
    ensures |Line(rows[k])| > 0
  {
    hide Decimal, Flag;
    var rest := rows[..k] + rows[k + 1..];
    LineIsLong(rows[k]);
    hide Line;
    if k == 0 {
      assert rest == rows[1..];
    } else {
      assert rest[0] == rows[0] && rest[1..] == rows[1..][..k - 1] + rows[1..][k..];
      SerializeDropped(rows[1..], k - 1);
    }
  }

  lemma LineIsLong(r: HashRow)
    ensures |Line(r)| > 0
  {
    hide Decimal, Flag;
  }

  /** Retiring changes the line of an active row only. */
  lemma RetiredLine(r: HashRow)
    ensures Line(r.(isActive := false)) == Line(r) <==> !r.isActive
  {
    assert |Line(r.(isActive := false))| == |Line(r)| + |Flag(false)| - |Flag(r.isActive)|;
  }

  lemma LineInjective(r: HashRow, t: HashRow)
    requires PipeFreeRow(r) && PipeFreeRow(t) && Line(r) == Line(t)
    ensures r == t
  {
    ParseOfLine(r, "");
    ParseOfLine(t, "");
  }

  /** Among all lists whatever their length, a list is the only one with its text exactly when it has
      at most one row and no bar. */
  lemma UniqueAmongAllIff(rows: seq<HashRow>)
    ensures PipeFree(rows) && |rows| <= 1 <==> forall other :: Serialize(other) == Serialize(rows) ==> other == rows
  {
    hide Serialize, Twin, PipeFreeRow, AllTextPipes, Pipes, Fused;
    UniqueIffPipeFree(rows);
    if PipeFree(rows) && |rows| <= 1 {
      forall other | Serialize(other) == Serialize(rows)
        ensures other == rows
      {
        SerializePipes(rows);
        SerializePipes(other);
        assert |other| == |rows|;
      }
    } else if |rows| >= 2 {
      FusedFront(rows);
      assert |[Fused(rows[0], rows[1])] + rows[2..]| != |rows|;
    }
  }

  lemma FusedFront(rows: seq<HashRow>)
    requires |rows| >= 2
    ensures Serialize([Fused(rows[0], rows[1])] + rows[2..]) == Serialize(rows)
  {
    hide Line, Fused;
    FusedLine(rows[0], rows[1]);
    var one := [Fused(rows[0], rows[1])] + rows[2..];
    assert one[1..] == rows[2..] && rows[1..][1..] == rows[2..];
    assert Serialize(rows[1..]) == Line(rows[1]) + Serialize(rows[2..]);
    Assoc(Line(rows[0]), Line(rows[1]), Serialize(rows[2..]));
  }

  /** The text, column by column: nothing for no row, and one line before the rest for each row. */
  lemma TextIs(r: HashRow, rest: seq<HashRow>)
    ensures Serialize([]) == ""
    ensures Serialize([r] + rest)
         == Decimal(r.id) + "|" + r.code + "|" + r.caption + "|" + r.color + "|" + Decimal(r.sortOrder) + "|"
            + (if r.isActive then "true" else "false") + "\n" + Serialize(rest)
  {
    hide Decimal;
    assert ([r] + rest)[1..] == rest;
  }
}
