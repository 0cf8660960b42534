/** What `parse` accepts, said without a parser: texts spelled by trees of the grammar of
    sections 2 to 7 of RFC 8259, restricted to integers, ASCII names that differ, well-formed
    strings, and 32 containers around anything. */
module Grammar {
  import opened Core
  import opened Texts
  import opened Values
  import opened Parser

  // ------------------------------------------------------------------- the trees

  /** One character of a string literal: as it is, after a backslash, or by its number. */
  datatype Glyph = Plain(u: Unit) | Short(c: Unit) | Numbered(digits: Text)

  datatype Tree =
    | Word(word: Value)
    | Number(minus: bool, digits: Text)
    | Literal(glyphs: seq<Glyph>)
    | List(inside: Text, items: seq<Item>)
    | Table(inside: Text, members: seq<Member>)

  /** An item with the white space around it. */
  datatype Item = Item(before: Text, tree: Tree, after: Text)

  datatype Member = Member(lead: Text, name: seq<Glyph>, gap: Text, item: Item)

  // ---------------------------------------------------------- what they look like

  predicate Blank(t: Text) {
    forall i | 0 <= i < |t| :: t[i] == 0x20 || t[i] == 0x09 || t[i] == 0x0A || t[i] == 0x0D
  }

  function GlyphText(g: Glyph): Text {
    match g
    case Plain(u) => [u]
    case Short(c) => [0x5C, c]
    case Numbered(digits) => [0x5C, 0x75] + digits
  }

  function GlyphsText(gs: seq<Glyph>): Text {
    if gs == [] then [] else GlyphText(gs[0]) + GlyphsText(gs[1..])
  }

  function LiteralText(gs: seq<Glyph>): Text {
    [0x22] + GlyphsText(gs) + [0x22]
  }

  function WordText(v: Value): Text {
    match v
    case Null => [0x6E, 0x75, 0x6C, 0x6C]
    case Bool(true) => [0x74, 0x72, 0x75, 0x65]
    case _ => [0x66, 0x61, 0x6C, 0x73, 0x65]
  }

  function Spell(x: Tree): Text
    decreases x, 1, 0
  {
    match x
    case Word(v) => WordText(v)
    case Number(minus, digits) => (if minus then [0x2D] else []) + digits
    case Literal(gs) => LiteralText(gs)
    case List(inside, items) => [0x5B] + (if items == [] then inside else SpellItems(x, 0)) + [0x5D]
    case Table(inside, members) => [0x7B] + (if members == [] then inside else SpellMembers(x, 0)) + [0x7D]
  }

  function SpellItems(x: Tree, i: nat): Text
    requires x.List? && i < |x.items|
    decreases x, 0, |x.items| - i
  {
    var one := x.items[i];
    one.before + Spell(one.tree) + one.after + if i + 1 == |x.items| then [] else [0x2C] + SpellItems(x, i + 1)
  }

  function SpellMembers(x: Tree, i: nat): Text
    requires x.Table? && i < |x.members|
    decreases x, 0, |x.members| - i
  {
    var one := x.members[i];
    one.lead + LiteralText(one.name) + one.gap + [0x3A] + one.item.before + Spell(one.item.tree) + one.item.after
    + if i + 1 == |x.members| then [] else [0x2C] + SpellMembers(x, i + 1)
  }

  // ------------------------------------------------------------- what they mean

  function HexDigitMeans(u: Unit): int {
    if 0x30 <= u <= 0x39 then u - 0x30
    else if 0x41 <= u <= 0x46 then u - 0x37
    else if 0x61 <= u <= 0x66 then u - 0x57
    else -1
  }

  /** The eight short escapes. */
  function ShortMeans(c: Unit): int {
    if c == 0x22 || c == 0x5C || c == 0x2F then c
    else if c == 0x62 then 0x08
    else if c == 0x66 then 0x0C
    else if c == 0x6E then 0x0A
    else if c == 0x72 then 0x0D
    else if c == 0x74 then 0x09
    else -1
  }

  predicate GlyphOk(g: Glyph) {
    match g
    case Plain(u) => 0x20 <= u && u != 0x22 && u != 0x5C
    case Short(c) => ShortMeans(c) >= 0
    case Numbered(digits) => |digits| == 4 && forall i | 0 <= i < 4 :: HexDigitMeans(digits[i]) >= 0
  }

  function GlyphMeans(g: Glyph): Unit
    requires GlyphOk(g)
  {
    match g
    case Plain(u) => u
    case Short(c) => ShortMeans(c)
    case Numbered(digits) =>
      HexDigitMeans(digits[0]) * 4096 + HexDigitMeans(digits[1]) * 256 + HexDigitMeans(digits[2]) * 16 + HexDigitMeans(digits[3])
  }

  predicate GlyphsOk(gs: seq<Glyph>) {
    forall g | g in gs :: GlyphOk(g)
  }

  function GlyphsMean(gs: seq<Glyph>): (t: Text)
    requires GlyphsOk(gs)
    ensures |t| == |gs|
  {
    if gs == [] then [] else [GlyphMeans(gs[0])] + GlyphsMean(gs[1..])
  }

  predicate DigitsOk(digits: Text) {
    && digits != [] && (forall i | 0 <= i < |digits| :: 0x30 <= digits[i] <= 0x39)
    && (digits[0] == 0x30 ==> |digits| == 1)
  }

  function DigitsMean(digits: Text): (n: int)
    requires forall i | 0 <= i < |digits| :: 0x30 <= digits[i] <= 0x39
    ensures n >= 0
  {
    if digits == [] then 0 else DigitsMean(digits[..|digits| - 1]) * 10 + (digits[|digits| - 1] - 0x30)
  }

  /** Within depth, in range and well formed all the way down. */
  predicate Proper(x: Tree, depth: nat)
    decreases x
  {
    && depth <= 32
    && match x
       case Word(v) => v.Null? || v.Bool?
       case Number(minus, digits) => DigitsOk(digits) && DigitsMean(digits) <= 9007199254740991
       case Literal(gs) => GlyphsOk(gs) && WellFormed(GlyphsMean(gs))
       case List(inside, items) =>
         && Blank(inside)
         && forall i | 0 <= i < |items| :: Blank(items[i].before) && Blank(items[i].after) && Proper(items[i].tree, depth + 1)
       case Table(inside, members) =>
         && Blank(inside)
         && (forall i | 0 <= i < |members| :: MemberOk(members[i]) && Proper(members[i].item.tree, depth + 1))
         && (forall i, j | 0 <= i < j < |members| :: GlyphsMean(members[i].name) != GlyphsMean(members[j].name))
  }

  predicate MemberOk(m: Member) {
    && Blank(m.lead) && Blank(m.gap) && Blank(m.item.before) && Blank(m.item.after)
    && GlyphsOk(m.name) && WellFormed(GlyphsMean(m.name)) && forall i | 0 <= i < |m.name| :: GlyphsMean(m.name)[i] < 128
  }

  function Mean(x: Tree, depth: nat): Value
    requires Proper(x, depth)
    decreases x, 1, 0
  {
    match x
    case Word(v) => v
    case Number(minus, digits) => Num(if minus then -DigitsMean(digits) else DigitsMean(digits))
    case Literal(gs) => Str(GlyphsMean(gs))
    case List(_, items) => Arr(MeanItems(x, depth, |items|))
    case Table(_, members) => Obj(MeanMembers(x, depth, |members|))
  }

  /** The first n items. */
  function MeanItems(x: Tree, depth: nat, n: nat): seq<Value>
    requires x.List? && Proper(x, depth) && n <= |x.items|
    decreases x, 0, n
  {
    if n == 0 then [] else MeanItems(x, depth, n - 1) + [Mean(x.items[n - 1].tree, depth + 1)]
  }

  function MeanMembers(x: Tree, depth: nat, n: nat): map<Text, Value>
    requires x.Table? && Proper(x, depth) && n <= |x.members|
    decreases x, 0, n
  {
    if n == 0 then map[]
    else
      var one := x.members[n - 1];
      MeanMembers(x, depth, n - 1)[GlyphsMean(one.name) := Mean(one.item.tree, depth + 1)]
  }

  // ------------------------------------------------------------------ white space

  lemma {:induction false} SkipsBlank(gap: Text, t: Text)
    requires Blank(gap)
    ensures SkipSpace(gap + t) == SkipSpace(t)
  {
    if gap == [] {
      assert gap + t == t;
    } else {
      assert (gap + t)[1..] == gap[1..] + t;
      SkipsBlank(gap[1..], t);
    }
  }

  /** What is skipped is blank, and what is left does not begin with a blank. */
  lemma {:induction false} Skipped(t: Text) returns (gap: Text)
    ensures Blank(gap) && t == gap + SkipSpace(t)
    ensures SkipSpace(SkipSpace(t)) == SkipSpace(t)
  {
    if t != [] && IsSpace(t[0]) {
      var rest := Skipped(t[1..]);
      gap := [t[0]] + rest;
      assert t == [t[0]] + t[1..];
    } else {
      gap := [];
    }
  }

  predicate NotBlank(t: Text) {
    t != [] && t[0] != 0x20 && t[0] != 0x09 && t[0] != 0x0A && t[0] != 0x0D
  }

  lemma StaysPut(t: Text)
    requires NotBlank(t)
    ensures SkipSpace(t) == t
  {
  }

  // --------------------------------------------------------------------- literals

  lemma {:induction false} Unescapes(gs: seq<Glyph>)
    requires GlyphsOk(gs)
    ensures Unescape(GlyphsText(gs)) == Some(GlyphsMean(gs))
  {
    hide GlyphOk, GlyphMeans, GlyphText, Unescape;
    if gs == [] {
      assert Unescape([]) == Some([]) by { EmptyLiteral(); }
    } else {
      assert gs[0] in gs;
      Unescapes(gs[1..]);
      UnescapesOne(gs[0], GlyphsText(gs[1..]));
    }
  }

  lemma EmptyLiteral()
    ensures Unescape([]) == Some([])
  {
  }

  lemma UnescapesOne(g: Glyph, rest: Text)
    requires GlyphOk(g) && Unescape(rest).Some?
    ensures Unescape(GlyphText(g) + rest) == Some([GlyphMeans(g)] + Unescape(rest).value)
  {
    hide *;
    match g
    case Plain(u) => UnescapesPlain(u, rest);
    case Short(c) => UnescapesShort(c, rest);
    case Numbered(digits) => UnescapesNumbered(digits, rest);
  }

  lemma UnescapesPlain(u: Unit, rest: Text)
    requires GlyphOk(Plain(u)) && Unescape(rest).Some?
    ensures Unescape(GlyphText(Plain(u)) + rest) == Some([GlyphMeans(Plain(u))] + Unescape(rest).value)
  {
    assert ([u] + rest)[1..] == rest;
  }

  lemma UnescapesShort(c: Unit, rest: Text)
    requires GlyphOk(Short(c)) && Unescape(rest).Some?
    ensures Unescape(GlyphText(Short(c)) + rest) == Some([GlyphMeans(Short(c))] + Unescape(rest).value)
  {
    var t := [0x5C, c] + rest;
    assert t[2..] == rest;
    assert ShortEscape(c) == Some(ShortMeans(c));
    hide ShortEscape, ShortMeans;
  }

  lemma UnescapesNumbered(digits: Text, rest: Text)
    requires GlyphOk(Numbered(digits)) && Unescape(rest).Some?
    ensures Unescape(GlyphText(Numbered(digits)) + rest) == Some([GlyphMeans(Numbered(digits))] + Unescape(rest).value)
  {
    HexMeans(digits);
    var t := [0x5C, 0x75] + digits + rest;
    assert t[6..] == rest && t[2..6] == digits;
    hide Hex4, GlyphMeans, HexDigitMeans;
  }

  lemma HexMeans(digits: Text)
    requires |digits| == 4
    ensures Hex4(digits).Some? <==> GlyphOk(Numbered(digits))
    ensures Hex4(digits).Some? ==> Hex4(digits).value == GlyphMeans(Numbered(digits))
  {
    HexDigitSays(digits[0]);
    HexDigitSays(digits[1]);
    HexDigitSays(digits[2]);
    HexDigitSays(digits[3]);
    hide HexValue, HexDigitMeans;
  }

  lemma HexDigitSays(u: Unit)
    ensures HexValue(u).Some? <==> HexDigitMeans(u) >= 0
    ensures HexValue(u).Some? ==> HexValue(u).value == HexDigitMeans(u) < 16
  {
  }

  /** The scan for the closing quote stops exactly behind the glyphs. */
  lemma {:induction false} ScansGlyphs(gs: seq<Glyph>, post: Text)
    requires GlyphsOk(gs)
    ensures ScanEnd(GlyphsText(gs) + [0x22] + post) == Some(|GlyphsText(gs)|)
  {
    hide GlyphOk, GlyphText, ScanEnd;
    if gs == [] {
      assert GlyphsText(gs) + [0x22] + post == [0x22] + post;
      ScanStops(post);
    } else {
      assert gs[0] in gs;
      ScansGlyphs(gs[1..], post);
      var rest := GlyphsText(gs[1..]) + [0x22] + post;
      assert GlyphsText(gs) + [0x22] + post == GlyphText(gs[0]) + rest;
      ScansOne(gs[0], rest);
    }
  }

  lemma ScanStops(post: Text)
    ensures ScanEnd([0x22] + post) == Some(0)
  {
  }

  lemma ScansOne(g: Glyph, rest: Text)
    requires GlyphOk(g) && ScanEnd(rest).Some?
    ensures ScanEnd(GlyphText(g) + rest) == Some(|GlyphText(g)| + ScanEnd(rest).value)
  {
    match g
    case Plain(u) => ScansPlain([u], rest);
    case Short(c) => ScansShort(c, rest);
    case Numbered(digits) =>
      hide *;
      ScansNumbered(digits, rest);
  }

  lemma ScansShort(c: Unit, rest: Text)
    requires ScanEnd(rest).Some?
    ensures ScanEnd([0x5C, c] + rest) == Some(2 + ScanEnd(rest).value)
  {
    assert ([0x5C, c] + rest)[2..] == rest;
  }

  lemma ScansNumbered(digits: Text, rest: Text)
    requires GlyphOk(Numbered(digits)) && ScanEnd(rest).Some?
    ensures ScanEnd([0x5C, 0x75] + digits + rest) == Some(6 + ScanEnd(rest).value)
  {
    HexIsPlain(digits);
    hide GlyphOk;
    ScansPlain(digits, rest);
    ScansShort(0x75, digits + rest);
    assert [0x5C, 0x75] + digits + rest == [0x5C, 0x75] + (digits + rest);
  }

  lemma HexIsPlain(digits: Text)
    requires GlyphOk(Numbered(digits))
    ensures |digits| == 4 && forall i :: 0 <= i < 4 ==> digits[i] != 0x22 && digits[i] != 0x5C
  {
  }

  lemma {:induction false} ScansPlain(a: Text, b: Text)
    requires (forall i :: 0 <= i < |a| ==> a[i] != 0x22 && a[i] != 0x5C) && ScanEnd(b).Some?
    ensures ScanEnd(a + b) == Some(|a| + ScanEnd(b).value)
  {
    if a == [] {
      assert a + b == b;
    } else {
      ScansPlain(a[1..], b);
      assert (a + b)[1..] == a[1..] + b;
    }
  }

  lemma ReadsLiteral(gs: seq<Glyph>, post: Text)
    requires GlyphsOk(gs) && WellFormed(GlyphsMean(gs))
    ensures StartsWith(LiteralText(gs) + post, QUOTE)
    ensures ParseString(LiteralText(gs) + post) == Ok((GlyphsMean(gs), post))
  {
    hide GlyphsText, Unescape, ScanEnd, WellFormed, GlyphOk;
    var t, body := LiteralText(gs) + post, GlyphsText(gs);
    assert t[1..] == body + [0x22] + post;
    ScansGlyphs(gs, post);
    Unescapes(gs);
    assert t[1..][..|body|] == body;
    assert t[|body| + 2..] == post;
  }

  /** Whatever reads as a string was spelled by glyphs. */
  lemma {:induction false} GlyphsOf(t: Text) returns (gs: seq<Glyph>)
    requires Unescape(t).Some?
    ensures GlyphsOk(gs) && GlyphsText(gs) == t && GlyphsMean(gs) == Unescape(t).value
  {
    hide GlyphOk, GlyphText, GlyphMeans;
    if t == [] {
      gs := [];
    } else {
      var g, n := FirstGlyph(t);
      var rest := GlyphsOf(t[n..]);
      gs := [g] + rest;
      assert gs[1..] == rest;
      assert t == t[..n] + t[n..];
    }
  }

  lemma FirstGlyph(t: Text) returns (g: Glyph, n: nat)
    requires t != [] && Unescape(t).Some?
    ensures GlyphOk(g) && 0 < n <= |t| && GlyphText(g) == t[..n]
    ensures Unescape(t[n..]).Some? && Unescape(t).value == [GlyphMeans(g)] + Unescape(t[n..]).value
  {
    if t[0] != 0x5C {
      g, n := Plain(t[0]), 1;
    } else if |t| >= 2 && ShortEscape(t[1]).Some? {
      g, n := Short(t[1]), 2;
    } else {
      g, n := Numbered(t[2..6]), 6;
      HexMeans(t[2..6]);
      assert t[..6] == [0x5C, 0x75] + t[2..6];
    }
  }

  lemma LiteralOf(t: Text) returns (gs: seq<Glyph>)
    requires StartsWith(t, QUOTE) && ParseString(t).Ok?
    ensures GlyphsOk(gs) && GlyphsMean(gs) == ParseString(t).value.0 && WellFormed(GlyphsMean(gs))
    ensures t == LiteralText(gs) + ParseString(t).value.1
  {
    hide Unescape, WellFormed, GlyphsText;
    var n := ScanEnd(t[1..]).value;
    var body := t[1..][..n];
    gs := GlyphsOf(body);
    assert t == [0x22] + body + [0x22] + t[n + 2..];
  }

  // --------------------------------------------------------------------- numbers

  lemma {:induction false} NumeralMeans(digits: Text)
    requires forall i | 0 <= i < |digits| :: 0x30 <= digits[i] <= 0x39
    ensures (forall i :: 0 <= i < |digits| ==> IsDigit(digits[i])) && Numeral(digits) == DigitsMean(digits)
  {
    if digits != [] {
      NumeralMeans(digits[..|digits| - 1]);
    }
  }

  lemma {:induction false} RunEnds(a: Text, b: Text)
    requires (forall i | 0 <= i < |a| :: 0x30 <= a[i] <= 0x39) && (b == [] || !(0x30 <= b[0] <= 0x39))
    ensures DigitRun(a + b) == |a|
  {
    if a == [] {
      assert a + b == b;
    } else {
      RunEnds(a[1..], b);
      assert (a + b)[1..] == a[1..] + b;
    }
  }

  /** The front of a number behind its sign. */
  lemma ReadsDigits(digits: Text, post: Text)
    requires DigitsOk(digits) && (post == [] || !(0x30 <= post[0] <= 0x39))
    ensures
      var u := digits + post;
      && u != [] && IsDigit(u[0]) && u[0] != MINUS && FrontLength(u) == |digits| && u[..|digits|] == digits && u[|digits|..] == post
      && Numeral(u[..|digits|]) == DigitsMean(digits)
  {
    hide Numeral, DigitRun, DigitsMean;
    var u := digits + post;
    assert u[0] == digits[0];
    NumeralMeans(digits);
    RunEnds(digits, post);
    assert u[..|digits|] == digits && u[|digits|..] == post;
  }

  function FrontLength(u: Text): (n: nat)
    requires u != [] && IsDigit(u[0])
    ensures 0 < n <= |u| && forall i :: 0 <= i < n ==> IsDigit(u[i])
  {
    if u[0] == ZERO then 1 else DigitRun(u)
  }

  lemma NumberIs(t: Text)
    ensures
      var u := if StartsWith(t, MINUS) then t[1..] else t;
      ParseNumber(t) ==
        if u == [] || !IsDigit(u[0]) then None
        else
          var magnitude: int := Numeral(u[..FrontLength(u)]);
          Some((if StartsWith(t, MINUS) then -magnitude else magnitude, u[FrontLength(u)..]))
  {
    hide Numeral, DigitRun;
  }

  lemma SignInFront(minus: bool, digits: Text, post: Text)
    ensures Spell(Number(minus, digits)) + post == (if minus then [0x2D] + (digits + post) else digits + post)
    ensures ([0x2D] + (digits + post))[1..] == digits + post
  {
    if !minus {
      assert [] + digits == digits;
    } else {
      assert [0x2D] + digits + post == [0x2D] + (digits + post);
    }
  }

  lemma ReadsNumber(minus: bool, digits: Text, post: Text)
    requires DigitsOk(digits) && (post == [] || !(0x30 <= post[0] <= 0x39))
    ensures ParseNumber(Spell(Number(minus, digits)) + post) ==
      Some((if minus then -DigitsMean(digits) else DigitsMean(digits), post))
  {
    hide *;
    SignInFront(minus, digits, post);
    ReadsDigits(digits, post);
    NumberIs(Spell(Number(minus, digits)) + post);
    SignTells(minus, digits + post);
  }

  lemma SignTells(minus: bool, u: Text)
    requires u != [] && u[0] != MINUS
    ensures StartsWith(if minus then [0x2D] + u else u, MINUS) <==> minus
  {
  }

  lemma NumberOf(t: Text) returns (minus: bool, digits: Text)
    requires ParseNumber(t).Some?
    ensures DigitsOk(digits) && t == Spell(Number(minus, digits)) + ParseNumber(t).value.1
    ensures ParseNumber(t).value.0 == if minus then -DigitsMean(digits) else DigitsMean(digits)
  {
    hide *;
    NumberIs(t);
    minus := StartsWith(t, MINUS);
    var u := if minus then t[1..] else t;
    var n := FrontDigits(u);
    digits := u[..n];
    DigitsAre(digits);
    NumeralMeans(digits);
    SignInFront(minus, digits, u[n..]);
    CutAt(u, n);
    SignSays(t);
  }

  lemma CutAt(u: Text, n: nat)
    requires n <= |u|
    ensures u == u[..n] + u[n..]
  {
  }

  lemma SignSays(t: Text)
    ensures StartsWith(t, MINUS) ==> t == [0x2D] + t[1..]
  {
  }

  lemma DigitsAre(digits: Text)
    ensures DigitsOk(digits) ==> forall i | 0 <= i < |digits| :: 0x30 <= digits[i] <= 0x39
  {
  }

  lemma FrontDigits(u: Text) returns (n: nat)
    requires u != [] && IsDigit(u[0])
    ensures n == FrontLength(u) && DigitsOk(u[..n])
  {
    n := FrontLength(u);
    assert u[..n][0] == u[0];
  }

  // ---------------------------------------------------------------------- values

  /** What may stand behind a number without being read as part of it. */
  predicate Ends(post: Text) {
    post == [] || !(0x30 <= post[0] <= 0x39)
  }

  lemma FirstUnit(x: Tree, depth: nat, post: Text)
    requires Proper(x, depth)
    ensures
      var t := Spell(x) + post;
      && NotBlank(t)
      && (t[0] == 0x22 <==> x.Literal?) && (t[0] == 0x7B <==> x.Table?) && (t[0] == 0x5B <==> x.List?)
      && t[0] != 0x5D && t[0] != 0x7D
  {
    hide GlyphsText, SpellItems, SpellMembers, WellFormed, GlyphsMean, DigitsMean;
  }

  lemma ReadsScalar(x: Tree, depth: nat, post: Text)
    requires (x.Word? || x.Number?) && Proper(x, depth) && Ends(post)
    ensures ParseScalar(Spell(x) + post) == Ok((Mean(x, depth), post))
  {
    hide DigitsMean, ParseNumber;
    var t := Spell(x) + post;
    match x
    case Word(v) =>
      assert t[..|WordText(v)|] == WordText(v) && t[|WordText(v)|..] == post;
      WordsDiffer(t);
    case Number(minus, digits) =>
      ReadsNumber(minus, digits, post);
      WordsDiffer(t);
  }

  /** The first unit tells which word it can be. */
  lemma WordsDiffer(t: Text)
    requires t != []
    ensures StartsWithWord(t, TRUE_WORD) ==> t[0] == 0x74
    ensures StartsWithWord(t, FALSE_WORD) ==> t[0] == 0x66
    ensures StartsWithWord(t, NULL_WORD) ==> t[0] == 0x6E
  {
    assert |t| >= 4 ==> t[..4][0] == t[0];
    assert |t| >= 5 ==> t[..5][0] == t[0];
  }

  /** A text spelled by a tree is read as what the tree means, whatever comes behind. */
  lemma {:induction false} ReadsTree(x: Tree, depth: nat, gap: Text, post: Text)
    requires Proper(x, depth) && Blank(gap) && Ends(post)
    ensures ParseValue(gap + Spell(x) + post, depth) == Ok((Mean(x, depth), post))
    decreases x, 2, 0
  {
    hide SkipSpace, Ends, ParseString, ParseScalar, ParseItems, ParseFields, Blank, WellFormed, NotBlank;
    var t := Spell(x) + post;
    assert gap + Spell(x) + post == gap + t;
    SkipsBlank(gap, t);
    FirstUnit(x, depth, post);
    StaysPut(t);
    assert t != [] by { NotBlankSays(t); }
    assert depth <= 32 by { DepthOk(x, depth); }
    match x
    case Literal(gs) => ReadsLiteral(gs, post);
    case List(_, _) => ReadsList(x, depth, post);
    case Table(_, _) => ReadsTable(x, depth, post);
    case _ => ReadsScalar(x, depth, post);
  }

  lemma NotBlankSays(t: Text)
    requires NotBlank(t)
    ensures t != []
  {
  }

  lemma DepthOk(x: Tree, depth: nat)
    requires Proper(x, depth)
    ensures depth <= 32
  {
  }

  lemma ItemOk(x: Tree, depth: nat, i: nat)
    requires x.List? && Proper(x, depth) && i < |x.items|
    ensures Blank(x.items[i].before) && Blank(x.items[i].after) && Proper(x.items[i].tree, depth + 1)
  {
  }

  /** What a list is read as behind its bracket. */
  lemma {:induction false} ReadsList(x: Tree, depth: nat, post: Text)
    requires x.List? && Proper(x, depth)
    ensures
      var u := SkipSpace((Spell(x) + post)[1..]);
      if StartsWith(u, CLOSE_BRACKET) then Mean(x, depth) == Arr([]) && u[1..] == post
      else ParseItems(u, depth, []) == Ok((Mean(x, depth), post))
    decreases x, 1, 0
  {
    hide SkipSpace, ParseItems, ParseValue, Proper, Mean, MeanItems;
    if x.items == [] {
      EmptyList(x, depth, post);
    } else {
      var body := SpellItems(x, 0) + ([0x5D] + post);
      assert (Spell(x) + post)[1..] == body;
      NonEmptyItems(x, depth, 0, [0x5D] + post);
      ReadsItems(x, depth, 0, post);
      MeanList(x, depth);
    }
  }

  lemma MeanList(x: Tree, depth: nat)
    requires x.List? && Proper(x, depth)
    ensures Mean(x, depth) == Arr(MeanItems(x, depth, |x.items|)) && MeanItems(x, depth, 0) == []
  {
  }

  lemma EmptyList(x: Tree, depth: nat, post: Text)
    requires x.List? && x.items == [] && Proper(x, depth)
    ensures
      var u := SkipSpace((Spell(x) + post)[1..]);
      StartsWith(u, CLOSE_BRACKET) && u[1..] == post && Mean(x, depth) == Arr([])
  {
    assert (Spell(x) + post)[1..] == x.inside + ([0x5D] + post);
    SkipsBlank(x.inside, [0x5D] + post);
  }

  /** Behind the bracket and the blanks the first item begins, and not a bracket. */
  lemma NonEmptyItems(x: Tree, depth: nat, i: nat, post: Text)
    requires x.List? && Proper(x, depth) && i < |x.items|
    ensures
      var u := SkipSpace(SpellItems(x, i) + post);
      && !StartsWith(u, CLOSE_BRACKET) && SkipSpace(u) == u
      && u == Spell(x.items[i].tree) + (x.items[i].after + (if i + 1 == |x.items| then [] else [0x2C] + SpellItems(x, i + 1)) + post)
  {
    ItemOk(x, depth, i);
    hide *;
    var one := x.items[i];
    var tail := one.after + (if i + 1 == |x.items| then [] else [0x2C] + SpellItems(x, i + 1)) + post;
    ItemsText(x, i, post);
    SkipsBlank(one.before, Spell(one.tree) + tail);
    FirstUnit(one.tree, depth + 1, tail);
    StaysPut(Spell(one.tree) + tail);
    assert !StartsWith(Spell(one.tree) + tail, CLOSE_BRACKET) by { StartsOtherwise(Spell(one.tree) + tail); }
  }

  lemma StartsOtherwise(t: Text)
    ensures t != [] && t[0] != 0x5D ==> !StartsWith(t, CLOSE_BRACKET)
  {
  }

  lemma ItemsText(x: Tree, i: nat, post: Text)
    requires x.List? && i < |x.items|
    ensures SpellItems(x, i) + post ==
      x.items[i].before
      + (Spell(x.items[i].tree) + (x.items[i].after + (if i + 1 == |x.items| then [] else [0x2C] + SpellItems(x, i + 1)) + post))
  {
    hide Spell;
  }

  /** The loop over the items, from the i-th on. */
  lemma {:induction false} ReadsItems(x: Tree, depth: nat, i: nat, post: Text)
    requires x.List? && Proper(x, depth) && i < |x.items|
    ensures ParseItems(SkipSpace(SpellItems(x, i) + ([0x5D] + post)), depth, MeanItems(x, depth, i)) ==
      Ok((Arr(MeanItems(x, depth, |x.items|)), post))
    decreases x, 0, |x.items| - i
  {
    hide SkipSpace, ParseValue, Spell, SpellItems, Proper, Mean, Blank;
    var one := x.items[i];
    ItemOk(x, depth, i);
    NonEmptyItems(x, depth, i, [0x5D] + post);
    var more := if i + 1 == |x.items| then [] else [0x2C] + SpellItems(x, i + 1);
    var behind := more + ([0x5D] + post);
    var tail := one.after + behind;
    var u := SkipSpace(SpellItems(x, i) + ([0x5D] + post));
    assert one.after + more + ([0x5D] + post) == tail;
    assert u == [] + Spell(one.tree) + tail;
    BlankEnds(one.after, behind);
    assert Blank([]) by { NothingIsBlank(); }
    ReadsTree(one.tree, depth + 1, [], tail);
    SkipsBlank(one.after, behind);
    StaysPut(behind);
    if i + 1 < |x.items| {
      assert behind == [0x2C] + (SpellItems(x, i + 1) + ([0x5D] + post));
      assert behind[1..] == SpellItems(x, i + 1) + ([0x5D] + post);
      ReadsItems(x, depth, i + 1, post);
      ItemsSkip(behind[1..], depth, MeanItems(x, depth, i + 1));
    } else {
      assert behind == [0x5D] + post && behind[1..] == post;
    }
  }

  lemma NothingIsBlank()
    ensures Blank([])
  {
  }

  /** Blanks in front make no difference to the loop. */
  lemma ItemsSkip(t: Text, depth: nat, done: seq<Value>)
    ensures ParseItems(SkipSpace(t), depth, done) == ParseItems(t, depth, done)
  {
    var gap := Skipped(t);
  }

  lemma BlankEnds(gap: Text, behind: Text)
    requires Blank(gap) && (behind == [] || behind[0] == 0x2C || behind[0] == 0x5D || behind[0] == 0x7D)
    ensures Ends(gap + behind)
  {
  }

  // ----------------------------------------------------------------------- tables

  /** Everything behind the value of the i-th member, up to post. */
  function Behind(x: Tree, i: nat, post: Text): Text
    requires x.Table? && i < |x.members|
  {
    (if i + 1 == |x.members| then [] else [0x2C] + SpellMembers(x, i + 1)) + post
  }

  lemma MemberSays(x: Tree, depth: nat, i: nat)
    requires x.Table? && Proper(x, depth) && i < |x.members|
    ensures MemberOk(x.members[i]) && Proper(x.members[i].item.tree, depth + 1)
  {
  }

  lemma {:induction false} NamesSoFar(x: Tree, depth: nat, n: nat)
    requires x.Table? && Proper(x, depth) && n <= |x.members|
    ensures forall k :: k in MeanMembers(x, depth, n) <==> exists i: nat :: i < n && NameAt(x, depth, i) == k
    decreases n
  {
    hide GlyphsMean, Mean, WellFormed, Blank;
    if n > 0 {
      NamesSoFar(x, depth, n - 1);
      MemberSays(x, depth, n - 1);
      assert forall k :: k in MeanMembers(x, depth, n) <==> k == NameAt(x, depth, n - 1) || k in MeanMembers(x, depth, n - 1);
    }
  }

  function NameAt(x: Tree, depth: nat, i: nat): Text
    requires x.Table? && Proper(x, depth) && i < |x.members|
  {
    GlyphsMean(x.members[i].name)
  }

  lemma NameIsNew(x: Tree, depth: nat, i: nat)
    requires x.Table? && Proper(x, depth) && i < |x.members|
    ensures NameAt(x, depth, i) !in MeanMembers(x, depth, i)
  {
    hide GlyphsMean, Mean, WellFormed, Blank, MeanMembers;
    NamesSoFar(x, depth, i);
    assert forall j: nat :: j < i ==> NameAt(x, depth, j) != NameAt(x, depth, i);
  }

  lemma MeanTable(x: Tree, depth: nat)
    requires x.Table? && Proper(x, depth)
    ensures Mean(x, depth) == Obj(MeanMembers(x, depth, |x.members|)) && MeanMembers(x, depth, 0) == map[]
  {
  }

  lemma MeanNext(x: Tree, depth: nat, i: nat)
    requires x.Table? && Proper(x, depth) && i < |x.members|
    ensures Proper(x.members[i].item.tree, depth + 1)
    ensures MeanMembers(x, depth, i + 1) == MeanMembers(x, depth, i)[NameAt(x, depth, i) := Mean(x.members[i].item.tree, depth + 1)]
  {
  }

  lemma {:induction false} ReadsTable(x: Tree, depth: nat, post: Text)
    requires x.Table? && Proper(x, depth)
    ensures
      var u := SkipSpace((Spell(x) + post)[1..]);
      if StartsWith(u, CLOSE_BRACE) then Mean(x, depth) == Obj(map[]) && u[1..] == post
      else ParseFields(u, depth, map[]) == Ok((Mean(x, depth), post))
    decreases x, 1, 0
  {
    hide SkipSpace, ParseFields, ParseValue, Proper, Mean, MeanMembers;
    if x.members == [] {
      EmptyTable(x, depth, post);
    } else {
      assert (Spell(x) + post)[1..] == SpellMembers(x, 0) + ([0x7D] + post);
      MembersStart(x, depth, 0, [0x7D] + post);
      ReadsMembers(x, depth, 0, post);
      MeanTable(x, depth);
    }
  }

  lemma EmptyTable(x: Tree, depth: nat, post: Text)
    requires x.Table? && x.members == [] && Proper(x, depth)
    ensures
      var u := SkipSpace((Spell(x) + post)[1..]);
      StartsWith(u, CLOSE_BRACE) && u[1..] == post && Mean(x, depth) == Obj(map[])
  {
    assert (Spell(x) + post)[1..] == x.inside + ([0x7D] + post);
    SkipsBlank(x.inside, [0x7D] + post);
  }

  /** A member's text behind its name. */
  function BehindName(x: Tree, i: nat, post: Text): Text
    requires x.Table? && i < |x.members|
  {
    var one := x.members[i];
    one.gap + ([0x3A] + (one.item.before + Spell(one.item.tree) + (one.item.after + Behind(x, i, post))))
  }

  /** Behind the bracket or comma and the blanks a name begins. */
  lemma MembersStart(x: Tree, depth: nat, i: nat, post: Text)
    requires x.Table? && Proper(x, depth) && i < |x.members|
    ensures
      var u := SkipSpace(SpellMembers(x, i) + post);
      && u == LiteralText(x.members[i].name) + BehindName(x, i, post)
      && StartsWith(u, QUOTE) && !StartsWith(u, CLOSE_BRACE) && SkipSpace(u) == u
  {
    hide Blank, SkipSpace, Spell, Proper, GlyphsText, Behind, GlyphsMean, WellFormed;
    MemberSays(x, depth, i);
    MembersText(x, i, post);
    var t := LiteralText(x.members[i].name) + BehindName(x, i, post);
    SkipsBlank(x.members[i].lead, t);
    assert t[0] == 0x22;
    StaysPut(t);
  }

  lemma MembersText(x: Tree, i: nat, post: Text)
    requires x.Table? && i < |x.members|
    ensures SpellMembers(x, i) + post == x.members[i].lead + (LiteralText(x.members[i].name) + BehindName(x, i, post))
  {
    hide Spell, LiteralText;
    var one := x.members[i];
    var more := if i + 1 == |x.members| then [] else [0x2C] + SpellMembers(x, i + 1);
    Gather(one.lead, LiteralText(one.name), one.gap, [0x3A], one.item.before, Spell(one.item.tree), one.item.after, more, post);
  }

  lemma Gather(a: Text, b: Text, c: Text, d: Text, e: Text, f: Text, g: Text, h: Text, post: Text)
    ensures a + b + c + d + e + f + g + h + post == a + (b + (c + (d + (e + f + (g + (h + post))))))
  {
  }

  /** One turn of the loop over the members. */
  lemma {:induction false} ReadsOneMember(x: Tree, depth: nat, i: nat, post: Text)
    requires x.Table? && Proper(x, depth) && i < |x.members|
    requires post == [] || post[0] == 0x2C || post[0] == 0x7D
    requires i + 1 == |x.members| ==> post != [] && post[0] == 0x7D
    ensures
      var t := BehindName(x, i, post);
      && StartsWith(SkipSpace(t), COLON)
      && ParseValue(SkipSpace(t)[1..], depth + 1) ==
           Ok((Mean(x.members[i].item.tree, depth + 1), x.members[i].item.after + Behind(x, i, post)))
      && SkipSpace(x.members[i].item.after + Behind(x, i, post)) == Behind(x, i, post)
      && Behind(x, i, post) != []
    decreases x, 0, 0
  {
    MemberSays(x, depth, i);
    hide SkipSpace, ParseValue, Spell, Proper, Mean, Blank, GlyphsMean, WellFormed, SpellMembers;
    var one := x.members[i];
    var tail := one.item.after + Behind(x, i, post);
    var value := one.item.before + Spell(one.item.tree) + tail;
    SkipsBlank(one.gap, [0x3A] + value);
    StaysPut([0x3A] + value);
    assert ([0x3A] + value)[1..] == value;
    BlankEnds(one.item.after, Behind(x, i, post));
    ReadsTree(one.item.tree, depth + 1, one.item.before, tail);
    SkipsBlank(one.item.after, Behind(x, i, post));
    StaysPut(Behind(x, i, post));
  }

  lemma {:induction false} ReadsMembers(x: Tree, depth: nat, i: nat, post: Text)
    requires x.Table? && Proper(x, depth) && i < |x.members|
    ensures ParseFields(SkipSpace(SpellMembers(x, i) + ([0x7D] + post)), depth, MeanMembers(x, depth, i)) ==
      Ok((Obj(MeanMembers(x, depth, |x.members|)), post))
    decreases x, 0, |x.members| - i + 1
  {
    hide *;
    var end := [0x7D] + post;
    MembersStart(x, depth, i, end);
    NameReads(x, depth, i, end);
    NameIsNew(x, depth, i);
    MeanNext(x, depth, i);
    ReadsOneMember(x, depth, i, end);
    FieldsTurn(SkipSpace(SpellMembers(x, i) + end), depth, MeanMembers(x, depth, i));
    var done := MeanMembers(x, depth, i + 1);
    BehindIs(x, i, post);
    if i + 1 < |x.members| {
      ReadsMembers(x, depth, i + 1, post);
      FieldsSkip(SpellMembers(x, i + 1) + end, depth, done);
    }
  }

  lemma BehindIs(x: Tree, i: nat, post: Text)
    requires x.Table? && i < |x.members|
    ensures
      var b := Behind(x, i, [0x7D] + post);
      if i + 1 == |x.members| then StartsWith(b, CLOSE_BRACE) && b[1..] == post
      else StartsWith(b, COMMA) && !StartsWith(b, CLOSE_BRACE) && b[1..] == SpellMembers(x, i + 1) + ([0x7D] + post)
  {
    hide SpellMembers;
  }

  lemma NameReads(x: Tree, depth: nat, i: nat, post: Text)
    requires x.Table? && Proper(x, depth) && i < |x.members|
    ensures
      var t := LiteralText(x.members[i].name) + BehindName(x, i, post);
      StartsWith(t, QUOTE) && ParseString(t) == Ok((NameAt(x, depth, i), BehindName(x, i, post))) && IsAscii(NameAt(x, depth, i))
  {
    hide LiteralText, BehindName, ParseString, WellFormed, GlyphsMean;
    MemberSays(x, depth, i);
    ReadsLiteral(x.members[i].name, BehindName(x, i, post));
  }

  /** What one turn of ParseFields comes to when nothing is wrong with the member. */
  lemma FieldsTurn(t: Text, depth: nat, done: map<Text, Value>)
    requires SkipSpace(t) == t && StartsWith(t, QUOTE) && ParseString(t).Ok?
    requires
      var key, u := ParseString(t).value.0, SkipSpace(ParseString(t).value.1);
      && IsAscii(key) && key !in done && StartsWith(u, COLON) && ParseValue(u[1..], depth + 1).Ok?
    ensures
      var key, u := ParseString(t).value.0, SkipSpace(ParseString(t).value.1);
      var item := ParseValue(u[1..], depth + 1).value;
      var w, now := SkipSpace(item.1), done[key := item.0];
      ParseFields(t, depth, done) ==
        if StartsWith(w, CLOSE_BRACE) then Ok((Obj(now), w[1..]))
        else if StartsWith(w, COMMA) then ParseFields(w[1..], depth, now)
        else Err(INVALID_ARGUMENT)
  {
    hide SkipSpace, ParseString, ParseValue;
  }

  lemma FieldsSkip(t: Text, depth: nat, done: map<Text, Value>)
    ensures ParseFields(SkipSpace(t), depth, done) == ParseFields(t, depth, done)
  {
    var gap := Skipped(t);
  }
}
