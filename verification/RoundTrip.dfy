/** `parse` undoes `canonical`. */
module RoundTrip {
  import opened Core
  import opened Texts
  import opened Values
  import opened Printer
  import opened Parser

  /** What may stand behind a value in a canonical text. */
  predicate Follow(post: Text) {
    post == [] || post[0] == COMMA || post[0] == CLOSE_BRACKET || post[0] == CLOSE_BRACE
  }

  // ------------------------------------------------------------------- strings

  lemma HexBack(u: Unit)
    requires u < 0x20
    ensures Hex4([0x30, 0x30, HexDigit(u / 16), HexDigit(u % 16)]) == Some(u)
  {
    assert HexValue(HexDigit(u / 16)) == Some(u / 16);
    assert HexValue(HexDigit(u % 16)) == Some(u % 16);
  }

  lemma UnescapePlain(u: Unit, rest: Text)
    requires EscapeUnit(u) == [u] && Unescape(rest).Some?
    ensures Unescape([u] + rest) == Some([u] + Unescape(rest).value)
  {
    assert ([u] + rest)[1..] == rest;
  }

  lemma UnescapeShort(u: Unit, c: Unit, rest: Text)
    requires ShortEscape(c) == Some(u) && Unescape(rest).Some?
    ensures Unescape([BACKSLASH, c] + rest) == Some([u] + Unescape(rest).value)
  {
    hide ShortEscape;
    assert ([BACKSLASH, c] + rest)[2..] == rest;
  }

  lemma UnescapeLong(u: Unit, e: Text, rest: Text)
    requires |e| == 6 && e[0] == BACKSLASH && e[1] == 0x75 && Hex4(e[2..6]) == Some(u) && Unescape(rest).Some?
    ensures Unescape(e + rest) == Some([u] + Unescape(rest).value)
  {
    hide Hex4;
    var t := e + rest;
    assert t[6..] == rest && t[2..6] == e[2..6];
  }

  /** One escaped unit in front of more. */
  lemma UnescapeUnit(u: Unit, rest: Text)
    requires Unescape(rest).Some?
    ensures Unescape(EscapeUnit(u) + rest) == Some([u] + Unescape(rest).value)
  {
    hide Unescape, Hex4, HexDigit;
    var e := EscapeUnit(u);
    if e == [u] {
      UnescapePlain(u, rest);
    } else if |e| == 2 {
      assert e == [BACKSLASH, e[1]];
      UnescapeShort(u, e[1], rest);
    } else {
      HexBack(u);
      assert e[2..6] == [0x30, 0x30, HexDigit(u / 16), HexDigit(u % 16)];
      UnescapeLong(u, e, rest);
    }
  }

  lemma {:induction false} UnescapeUndoes(s: Text)
    ensures Unescape(Escape(s)) == Some(s)
  {
    hide EscapeUnit, Unescape;
    if s == [] {
      assert Unescape([]) == Some([]) by { NothingToUnescape(); }
    } else {
      UnescapeUndoes(s[1..]);
      UnescapeUnit(s[0], Escape(s[1..]));
      assert s == [s[0]] + s[1..];
    }
  }

  lemma NothingToUnescape()
    ensures Unescape([]) == Some([])
  {
  }

  ghost function Shift(r: Option<nat>, n: nat): Option<nat> {
    match r
    case None => None
    case Some(k) => Some(k + n)
  }

  lemma ScanUnit(u: Unit, rest: Text)
    ensures ScanEnd(EscapeUnit(u) + rest) == Shift(ScanEnd(rest), |EscapeUnit(u)|)
  {
    var e := EscapeUnit(u);
    if |e| == 6 {
      ScanPlain(e[2..], rest);
      assert (e + rest)[2..] == e[2..] + rest;
    } else {
      assert (e + rest)[|e|..] == rest;
    }
  }

  /** No escape sequence hides or fakes the closing quote. */
  lemma {:induction false} ScanFindsQuote(s: Text, post: Text)
    ensures ScanEnd(Escape(s) + [QUOTE] + post) == Some(|Escape(s)|)
  {
    hide ScanEnd, EscapeUnit;
    if s == [] {
      assert Escape(s) + [QUOTE] + post == [QUOTE] + post;
      ScanQuote(post);
    } else {
      ScanFindsQuote(s[1..], post);
      var rest := Escape(s[1..]) + [QUOTE] + post;
      Gather(EscapeUnit(s[0]), Escape(s[1..]), [QUOTE], post);
      ScanUnit(s[0], rest);
    }
  }

  lemma ScanQuote(post: Text)
    ensures ScanEnd([QUOTE] + post) == Some(0)
  {
  }

  lemma Gather(a: Text, b: Text, c: Text, d: Text)
    ensures a + b + c + d == a + (b + c + d)
  {
  }

  lemma {:induction false} ScanPlain(a: Text, b: Text)
    requires forall i :: 0 <= i < |a| ==> a[i] != QUOTE && a[i] != BACKSLASH
    ensures ScanEnd(a + b) == Shift(ScanEnd(b), |a|)
  {
    if a == [] {
      assert a + b == b;
    } else {
      ScanPlain(a[1..], b);
      assert (a + b)[1..] == a[1..] + b;
    }
  }

  lemma ParseQuoted(s: Text, post: Text)
    requires WellFormed(s)
    ensures ParseString(Quote(s) + post) == Ok((s, post))
  {
    hide Escape, Unescape, ScanEnd, WellFormed;
    var t := Quote(s) + post;
    ScanFindsQuote(s, post);
    UnescapeUndoes(s);
    assert t[1..] == Escape(s) + [QUOTE] + post;
    assert t[1..][..|Escape(s)|] == Escape(s);
    assert t[|Escape(s)| + 2..] == post;
  }

  // ------------------------------------------------------------------- numbers

  lemma {:induction false} NumeralUndoes(n: nat)
    ensures forall i :: 0 <= i < |Digits(n)| ==> IsDigit(Digits(n)[i])
    ensures Numeral(Digits(n)) == n
    ensures Digits(n)[0] == ZERO <==> n == 0
  {
    if n >= 10 {
      NumeralUndoes(n / 10);
      var t := Digits(n);
      assert t[..|t| - 1] == Digits(n / 10);
    } else {
      var t := Digits(n);
      assert t[..0] == [];
      assert Numeral(t) == Numeral(t[..0]) * 10 + (t[0] - ZERO);
    }
  }

  lemma {:induction false} RunIsWhole(a: Text, b: Text)
    requires forall i :: 0 <= i < |a| ==> IsDigit(a[i])
    requires b == [] || !IsDigit(b[0])
    ensures DigitRun(a + b) == |a|
  {
    if a == [] {
      assert a + b == b;
    } else {
      RunIsWhole(a[1..], b);
      assert (a + b)[1..] == a[1..] + b;
    }
  }

  lemma ParseDecimal(n: int, post: Text)
    requires post == [] || !IsDigit(post[0])
    ensures ParseNumber(Decimal(n) + post) == Some((n, post))
  {
    hide Digits, ParseNumber, Numeral, DigitRun;
    var m := if n < 0 then -n else n;
    NumeralUndoes(m);
    RunIsWhole(Digits(m), post);
    DigitsAscii(m);
    ZeroDigit();
    if n < 0 {
      assert Decimal(n) + post == [MINUS] + (Digits(m) + post);
      ParseDigits([MINUS] + (Digits(m) + post), Digits(m), post);
    } else {
      ParseDigits(Digits(m) + post, Digits(m), post);
    }
  }

  lemma ParseDigits(t: Text, digits: Text, post: Text)
    requires digits != [] && forall i :: 0 <= i < |digits| ==> IsDigit(digits[i])
    requires digits[0] == ZERO ==> |digits| == 1
    requires DigitRun(digits + post) == |digits|
    requires t == digits + post || t == [MINUS] + (digits + post)
    ensures
      var n: int := Numeral(digits);
      ParseNumber(t) == Some((if t[0] == MINUS then -n else n, post))
  {
    hide Numeral, DigitRun;
    var u := digits + post;
    assert u[0] == digits[0];
    assert t == [MINUS] + u ==> t[1..] == u;
    assert u[..|digits|] == digits && u[|digits|..] == post;
  }

  lemma ZeroDigit()
    ensures Digits(0) == [ZERO]
  {
  }

  // -------------------------------------------------------------------- values

  /** The first unit of a canonical text tells what is coming. */
  lemma FirstUnit(v: Value, post: Text)
    ensures
      var t := Print(v) + post;
      && t != [] && SkipSpace(t) == t
      && (StartsWith(t, QUOTE) <==> v.Str?)
      && (StartsWith(t, OPEN_BRACE) <==> v.Obj?)
      && (StartsWith(t, OPEN_BRACKET) <==> v.Arr?)
      && !StartsWith(t, CLOSE_BRACKET) && !StartsWith(t, CLOSE_BRACE)
  {
    match v
    case Num(n) => DigitsAscii(if n < 0 then -n else n);
    case _ =>
  }

  lemma ParseScalarBack(v: Value, post: Text)
    requires (v.Null? || v.Bool? || (v.Num? && -MAX_SAFE <= v.n <= MAX_SAFE)) && Follow(post)
    ensures ParseScalar(Print(v) + post) == Ok((v, post))
  {
    var t := Print(v) + post;
    match v {
      case Num(n) =>
        DigitsAscii(if n < 0 then -n else n);
        assert t[0] == MINUS || IsDigit(t[0]);
        NotAWord(t);
        ParseDecimal(n, post);
      case Null =>
        assert t[..4] == NULL_WORD && t[4..] == post;
        NullIsNoOther(t);
      case Bool(b) =>
        if b {
          assert t[..4] == TRUE_WORD && t[4..] == post;
        } else {
          assert t[..5] == FALSE_WORD && t[5..] == post;
          assert t[..4][0] == 0x66;
        }
    }
  }

  lemma NotAWord(t: Text)
    requires t != [] && (t[0] == MINUS || IsDigit(t[0]))
    ensures !StartsWithWord(t, TRUE_WORD) && !StartsWithWord(t, FALSE_WORD) && !StartsWithWord(t, NULL_WORD)
  {
    assert |t| >= 4 ==> t[..4][0] == t[0];
    assert |t| >= 5 ==> t[..5][0] == t[0];
  }

  lemma NullIsNoOther(t: Text)
    requires t != [] && t[0] == NULL_WORD[0]
    ensures !StartsWithWord(t, TRUE_WORD) && !StartsWithWord(t, FALSE_WORD)
  {
    assert |t| >= 4 ==> t[..4][0] == t[0];
    assert |t| >= 5 ==> t[..5][0] == t[0];
  }

  lemma {:induction false} ParsePrint(v: Value, depth: nat, post: Text)
    requires Fits(v, depth) && Follow(post)
    ensures ParseValue(Print(v) + post, depth) == Ok((v, post))
    decreases v, 1, 0
  {
    FirstUnit(v, post);
    match v {
      case Str(s) => ParseQuoted(s, post);
      case Arr(items) => ParseArr(v, depth, post);
      case Obj(fields) => ParseObj(v, depth, post);
      case _ => ParseScalarBack(v, post);
    }
  }

  /** The rest of an array's text once the items before i are done. */
  ghost function ItemsFrom(v: Value, i: nat, post: Text): Text
    requires v.Arr? && i < |v.items|
  {
    Print(v.items[i]) + (PrintItems(v, i + 1) + [CLOSE_BRACKET] + post)
  }

  lemma {:induction false} ParseArr(v: Value, depth: nat, post: Text)
    requires v.Arr? && Fits(v, depth) && Follow(post)
    ensures ParseValue(Print(v) + post, depth) == Ok((v, post))
    decreases v, 0, |v.items| + 1
  {
    hide Fits, Print, PrintItems, ParseItems;
    FirstUnit(v, post);
    FitsDepth(v, depth);
    ArrText(v, post);
    if v.items == [] {
      assert v == Arr([]);
    } else {
      FirstUnit(v.items[0], PrintItems(v, 1) + [CLOSE_BRACKET] + post);
      assert v.items[..0] == [];
      ParseItemsBack(v, 0, depth, post);
    }
  }

  /** The text of an array behind its bracket. */
  lemma ArrText(v: Value, post: Text)
    requires v.Arr?
    ensures
      var t, u := Print(v) + post, PrintItems(v, 0) + [CLOSE_BRACKET] + post;
      && t != [] && t[0] == OPEN_BRACKET && t[1..] == u
      && (if v.items == [] then u == [CLOSE_BRACKET] + post && u[1..] == post else u == ItemsFrom(v, 0, post))
  {
    var t, u := Print(v) + post, PrintItems(v, 0) + [CLOSE_BRACKET] + post;
    assert t == [OPEN_BRACKET] + u;
    hide Print;
  }

  lemma FitsDepth(v: Value, depth: nat)
    requires Fits(v, depth)
    ensures depth <= MAX_DEPTH
  {
  }

  lemma FitsItem(v: Value, depth: nat, i: nat)
    requires v.Arr? && Fits(v, depth) && i < |v.items|
    ensures Fits(v.items[i], depth + 1)
  {
    assert v.items[i] in v.items;
  }

  lemma {:induction false} ParseItemsBack(v: Value, i: nat, depth: nat, post: Text)
    requires v.Arr? && Fits(v, depth) && Follow(post) && i < |v.items|
    ensures ParseItems(ItemsFrom(v, i, post), depth, v.items[..i]) == Ok((v, post))
    decreases v, 0, |v.items| - i
  {
    hide Fits, Print, ParseValue;
    var tail := PrintItems(v, i + 1) + [CLOSE_BRACKET] + post;
    FirstUnit(v.items[i], tail);
    FitsItem(v, depth, i);
    if i + 1 == |v.items| {
      assert tail == [CLOSE_BRACKET] + post && tail[1..] == post;
      ParsePrint(v.items[i], depth + 1, tail);
      assert v.items[..i] + [v.items[i]] == v.items;
    } else {
      assert tail == [COMMA] + ItemsFrom(v, i + 1, post);
      assert tail[1..] == ItemsFrom(v, i + 1, post);
      ParsePrint(v.items[i], depth + 1, tail);
      assert v.items[..i] + [v.items[i]] == v.items[..i + 1];
      ParseItemsBack(v, i + 1, depth, post);
    }
  }

  ghost function FieldsFrom(v: Value, keys: seq<Text>, i: nat, post: Text): Text
    requires v.Obj? && i < |keys| && forall k :: k in keys ==> k in v.fields
  {
    assert keys[i] in keys;
    Quote(keys[i]) + ([COLON] + (Print(v.fields[keys[i]]) + (PrintFields(v, keys, i + 1) + [CLOSE_BRACE] + post)))
  }

  /** The fields whose keys come before position i. */
  ghost function FirstFields(v: Value, keys: seq<Text>, i: nat): map<Text, Value>
    requires v.Obj? && i <= |keys| && forall k :: k in keys ==> k in v.fields
  {
    map k | k in v.fields && k in keys[..i] :: v.fields[k]
  }

  lemma PrintObj(v: Value, post: Text)
    requires v.Obj?
    ensures
      var t := Print(v) + post;
      t != [] && t[1..] == PrintFields(v, Sorted(v.fields.Keys), 0) + [CLOSE_BRACE] + post
  {
    hide Sorted, PrintFields;
    var body := PrintFields(v, Sorted(v.fields.Keys), 0);
    assert Print(v) == [OPEN_BRACE] + body + [CLOSE_BRACE];
    CutFirst([OPEN_BRACE], body, [CLOSE_BRACE], post);
  }

  lemma CutFirst(a: Text, b: Text, c: Text, d: Text)
    ensures a + b + c + d == a + (b + c + d)
    ensures (a + b + c + d)[|a|..] == b + c + d
  {
  }

  lemma FieldsFromStarts(v: Value, keys: seq<Text>, i: nat, post: Text)
    requires v.Obj? && i < |keys| && forall k :: k in keys ==> k in v.fields
    ensures
      var t := FieldsFrom(v, keys, i, post);
      SkipSpace(t) == t && StartsWith(t, QUOTE)
  {
  }

  lemma {:induction false} ParseObj(v: Value, depth: nat, post: Text)
    requires v.Obj? && Fits(v, depth) && Follow(post)
    ensures ParseValue(Print(v) + post, depth) == Ok((v, post))
    decreases v, 0, |v.fields.Keys| + 1
  {
    hide Fits, Sorted, Print, PrintFields, FieldsFrom, ParseFields, Increasing, Quote;
    var keys := Sorted(v.fields.Keys);
    FirstUnit(v, post);
    FitsDepth(v, depth);
    PrintObj(v, post);
    var u := PrintFields(v, keys, 0) + [CLOSE_BRACE] + post;
    if keys == [] {
      NoFields(v, post);
      assert v.fields.Keys == {};
      assert v == Obj(map[]);
    } else {
      PrintFieldsFrom(v, keys, 0, post);
      FieldsFromStarts(v, keys, 0, post);
      assert u == FieldsFrom(v, keys, 0, post);
      assert FirstFields(v, keys, 0) == map[];
      SortedIncreases(v.fields.Keys);
      ParseFieldsBack(v, keys, 0, depth, post);
    }
  }

  lemma NoFields(v: Value, post: Text)
    requires v.Obj?
    ensures
      var u := PrintFields(v, [], 0) + [CLOSE_BRACE] + post;
      SkipSpace(u) == u && StartsWith(u, CLOSE_BRACE) && u[1..] == post
  {
  }

  lemma PrintFieldsFrom(v: Value, keys: seq<Text>, i: nat, post: Text)
    requires v.Obj? && i < |keys| && forall k :: k in keys ==> k in v.fields
    ensures PrintFields(v, keys, i) + [CLOSE_BRACE] + post == Comma(i) + FieldsFrom(v, keys, i, post)
  {
    assert keys[i] in keys;
    var k, x, rest := Quote(keys[i]), Print(v.fields[keys[i]]), PrintFields(v, keys, i + 1);
    assert PrintFields(v, keys, i) == Comma(i) + k + [COLON] + x + rest by { hide Print, Quote; }
    Regroup(Comma(i), k, [COLON], x, rest, [CLOSE_BRACE], post);
    hide *;
  }

  lemma Regroup(a: Text, b: Text, c: Text, d: Text, e: Text, f: Text, g: Text)
    ensures a + b + c + d + e + f + g == a + (b + (c + (d + (e + f + g))))
  {
  }

  lemma NextField(v: Value, keys: seq<Text>, i: nat)
    requires v.Obj? && i < |keys| && Increasing(keys) && forall k :: k in keys ==> k in v.fields
    ensures keys[i] in keys && keys[i] !in FirstFields(v, keys, i)
    ensures FirstFields(v, keys, i)[keys[i] := v.fields[keys[i]]] == FirstFields(v, keys, i + 1)
  {
    assert keys[i] in keys;
    assert keys[..i + 1] == keys[..i] + [keys[i]];
    if keys[i] in keys[..i] {
      var j: nat :| j < i && keys[..i][j] == keys[i];
      assert Less(keys[j], keys[i]);
      LessTotal(keys[i], keys[i]);
    }
  }

  lemma FitsField(v: Value, depth: nat, k: Text)
    requires v.Obj? && Fits(v, depth) && k in v.fields
    ensures IsAscii(k) && Fits(v.fields[k], depth + 1)
  {
  }

  lemma {:induction false} ParseFieldsBack(v: Value, keys: seq<Text>, i: nat, depth: nat, post: Text)
    requires v.Obj? && Fits(v, depth) && Follow(post) && i < |keys|
    requires Increasing(keys) && forall k :: k in keys <==> k in v.fields
    ensures ParseFields(FieldsFrom(v, keys, i, post), depth, FirstFields(v, keys, i)) == Ok((v, post))
    decreases v, 0, |keys| - i
  {
    hide Fits, Print, ParseValue, Quote, ParseString, Increasing, FirstFields;
    assert keys[i] in keys;
    var k, value := keys[i], v.fields[keys[i]];
    var tail := PrintFields(v, keys, i + 1) + [CLOSE_BRACE] + post;
    var t := FieldsFrom(v, keys, i, post);
    FitsField(v, depth, k);
    AsciiWellFormed(k);
    QuoteStarts(k, [COLON] + (Print(value) + tail));
    ParseQuoted(k, [COLON] + (Print(value) + tail));
    NextField(v, keys, i);
    assert ([COLON] + (Print(value) + tail))[1..] == Print(value) + tail;
    if i + 1 == |keys| {
      assert tail == [CLOSE_BRACE] + post && tail[1..] == post;
      ParsePrint(value, depth + 1, tail);
      AllFields(v, keys);
    } else {
      PrintFieldsFrom(v, keys, i + 1, post);
      assert tail == [COMMA] + FieldsFrom(v, keys, i + 1, post);
      assert tail[1..] == FieldsFrom(v, keys, i + 1, post);
      ParsePrint(value, depth + 1, tail);
      ParseFieldsBack(v, keys, i + 1, depth, post);
    }
  }

  lemma QuoteStarts(k: Text, rest: Text)
    ensures StartsWith(Quote(k) + rest, QUOTE) && SkipSpace(Quote(k) + rest) == Quote(k) + rest
  {
  }

  lemma AllFields(v: Value, keys: seq<Text>)
    requires v.Obj? && forall k :: k in keys <==> k in v.fields
    ensures FirstFields(v, keys, |keys|) == v.fields
  {
    assert keys[..|keys|] == keys;
  }

  // ------------------------------------------------------------------ the laws

  /** Whatever `canonical` prints within a bound, `parse` reads back within the same
      bound as the same value: `detach` is total on what `canonical` accepts. */
  lemma ParseUndoesCanonical(v: Value, max: nat)
    requires Canonical(v, max).Ok?
    ensures Parse(Canonical(v, max).value, max) == Ok(v)
  {
    CanonicalIsPrint(v, max);
    PrintWellFormed(v, max);
    ParsePrint(v, 0, []);
    assert Print(v) + [] == Print(v);
  }

  /** Two values with the same canonical text are the same value. */
  lemma CanonicalInjective(v: Value, w: Value, max: nat, min: nat)
    requires Canonical(v, max).Ok? && Canonical(w, min).Ok?
    requires Canonical(v, max).value == Canonical(w, min).value
    ensures v == w
  {
    ParseUndoesCanonical(v, max);
    ParseUndoesCanonical(w, min);
  }

  lemma PrintWellFormed(v: Value, max: nat)
    requires Fits(v, 0) && Weight(Print(v)) <= max
    ensures ByteLen(Print(v)) == Weight(Print(v))
  {
    PrintWF(v, 0);
    WellFormedWeight(Print(v));
  }

  lemma {:induction false} PrintWF(v: Value, depth: nat)
    requires Fits(v, depth)
    ensures WellFormed(Print(v))
    decreases v, 1, 0
  {
    match v {
      case Num(n) => DecimalAscii(n); AsciiWellFormed(Decimal(n));
      case Str(s) => QuoteWeighs(s);
      case Arr(items) =>
        ItemsWF(v, 0, depth);
        AsciiWellFormed([OPEN_BRACKET]);
        AsciiWellFormed([CLOSE_BRACKET]);
        WellFormedConcat([OPEN_BRACKET], PrintItems(v, 0));
        WellFormedConcat([OPEN_BRACKET] + PrintItems(v, 0), [CLOSE_BRACKET]);
      case Obj(fields) =>
        var keys := Sorted(fields.Keys);
        FieldsWF(v, keys, 0, depth);
        AsciiWellFormed([OPEN_BRACE]);
        AsciiWellFormed([CLOSE_BRACE]);
        WellFormedConcat([OPEN_BRACE], PrintFields(v, keys, 0));
        WellFormedConcat([OPEN_BRACE] + PrintFields(v, keys, 0), [CLOSE_BRACE]);
      case _ => AsciiWellFormed(Word(v));
    }
  }

  lemma {:induction false} ItemsWF(v: Value, i: nat, depth: nat)
    requires v.Arr? && Fits(v, depth) && i <= |v.items|
    ensures WellFormed(PrintItems(v, i))
    decreases v, 0, |v.items| - i
  {
    hide Fits, WellFormed, Print;
    if i == |v.items| {
      AsciiWellFormed([]);
    } else {
      FitsItem(v, depth, i);
      AsciiWellFormed(Comma(i));
      PrintWF(v.items[i], depth + 1);
      ItemsWF(v, i + 1, depth);
      WellFormedConcat(Comma(i), Print(v.items[i]));
      WellFormedConcat(Comma(i) + Print(v.items[i]), PrintItems(v, i + 1));
    }
  }

  lemma {:induction false} FieldsWF(v: Value, keys: seq<Text>, i: nat, depth: nat)
    requires v.Obj? && Fits(v, depth) && i <= |keys| && forall k :: k in keys ==> k in v.fields
    ensures WellFormed(PrintFields(v, keys, i))
    decreases v, 0, |keys| - i
  {
    hide Fits, WellFormed, Print, Quote;
    if i == |keys| {
      AsciiWellFormed([]);
    } else {
      assert keys[i] in keys;
      var value := v.fields[keys[i]];
      FitsField(v, depth, keys[i]);
      AsciiWellFormed(Comma(i));
      AsciiWellFormed([COLON]);
      AsciiWellFormed(keys[i]);
      QuoteWeighs(keys[i]);
      PrintWF(value, depth + 1);
      FieldsWF(v, keys, i + 1, depth);
      WellFormedConcat(Comma(i), Quote(keys[i]));
      WellFormedConcat(Comma(i) + Quote(keys[i]), [COLON]);
      WellFormedConcat(Comma(i) + Quote(keys[i]) + [COLON], Print(value));
      WellFormedConcat(Comma(i) + Quote(keys[i]) + [COLON] + Print(value), PrintFields(v, keys, i + 1));
    }
  }
}
