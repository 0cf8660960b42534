/** The other direction: whatever `parse` accepts, `canonical` accepts, in no more
    bytes; so canonicalising again changes nothing. */
module Shrink {
  import opened Core
  import opened Texts
  import opened Values
  import opened Printer
  import opened Parser
  import opened RoundTrip

  lemma WeightSplit(t: Text, i: nat)
    requires i <= |t|
    ensures Weight(t) == Weight(t[..i]) + Weight(t[i..])
  {
    WeightConcat(t[..i], t[i..]);
    assert t[..i] + t[i..] == t;
  }

  lemma {:induction false} SkipWeighs(t: Text)
    ensures Weight(SkipSpace(t)) <= Weight(t)
  {
    if t != [] && IsSpace(t[0]) {
      SkipWeighs(t[1..]);
    }
  }

  lemma TailWeighs(t: Text)
    requires t != [] && t[0] < 0x80
    ensures Weight(t[1..]) + 1 == Weight(t)
  {
  }

  // ------------------------------------------------------------------- strings

  lemma EscapeUnitSmall(u: Unit)
    ensures Weight(EscapeUnit(u)) <= 6
    ensures u >= 0x20 && u != QUOTE && u != BACKSLASH ==> EscapeUnit(u) == [u] && Weight([u]) == UnitWeight(u)
  {
    if EscapeUnit(u) == [u] {
      assert [u][1..] == [];
    } else {
      assert IsAscii(EscapeUnit(u));
      AsciiWellFormed(EscapeUnit(u));
    }
  }

  lemma ShortEscapeSmall(u: Unit)
    requires ShortEscape(u).Some?
    ensures Weight(EscapeUnit(ShortEscape(u).value)) <= 2
  {
    var e := EscapeUnit(ShortEscape(u).value);
    assert IsAscii(e) && |e| <= 2;
    AsciiWellFormed(e);
  }

  lemma {:induction false} UnescapeShrinks(t: Text)
    ensures Unescape(t).Some? ==> Weight(Escape(Unescape(t).value)) <= Weight(t)
  {
    if t != [] && t[0] >= 0x20 && t[0] != QUOTE {
      if t[0] != BACKSLASH {
        UnescapeShrinks(t[1..]);
        EscapeUnitSmall(t[0]);
        ConsWeighs(t, 1, t[0]);
      } else if |t| >= 2 && ShortEscape(t[1]).Some? {
        UnescapeShrinks(t[2..]);
        ShortEscapeSmall(t[1]);
        WeightSplit(t, 2);
        WeightBounds(t[..2]);
        ConsWeighs(t, 2, ShortEscape(t[1]).value);
      } else if |t| >= 6 && t[1] == 0x75 && Hex4(t[2..6]).Some? {
        UnescapeShrinks(t[6..]);
        EscapeUnitSmall(Hex4(t[2..6]).value);
        WeightSplit(t, 6);
        WeightBounds(t[..6]);
        ConsWeighs(t, 6, Hex4(t[2..6]).value);
      }
    }
  }

  lemma ConsWeighs(t: Text, n: nat, u: Unit)
    requires n <= |t|
    ensures Unescape(t[n..]).Some? ==>
      Weight(Escape([u] + Unescape(t[n..]).value)) == Weight(EscapeUnit(u)) + Weight(Escape(Unescape(t[n..]).value))
  {
    if Unescape(t[n..]).Some? {
      var rest := Unescape(t[n..]).value;
      assert ([u] + rest)[1..] == rest;
      WeightConcat(EscapeUnit(u), Escape(rest));
    }
  }

  lemma QuoteWeight(s: Text)
    ensures Weight(Quote(s)) == Weight(Escape(s)) + 2
  {
    WeightConcat([QUOTE], Escape(s));
    WeightConcat([QUOTE] + Escape(s), [QUOTE]);
    assert [QUOTE][1..] == [];
  }

  lemma ParseStringShrinks(t: Text)
    requires StartsWith(t, QUOTE) && ParseString(t).Ok?
    ensures
      var (s, rest) := ParseString(t).value;
      WellFormed(s) && Weight(Quote(s)) + Weight(rest) <= Weight(t)
  {
    var n := ScanEnd(t[1..]).value;
    var body := t[1..][..n];
    UnescapeShrinks(body);
    QuoteWeight(ParseString(t).value.0);
    WeightSplit(t[1..], n);
    WeightSplit(t[1..][n..], 1);
    assert t[1..][n..][1..] == t[n + 2..];
    assert t[1..][n..][..1] == [QUOTE];
    assert [QUOTE][1..] == [];
  }

  // ------------------------------------------------------------------- numbers

  /** Without leading zeros, printing the value of a digit string gives it back. */
  lemma {:induction false} DigitsUndo(t: Text)
    requires t != [] && forall i :: 0 <= i < |t| ==> IsDigit(t[i])
    requires t[0] == ZERO ==> |t| == 1
    ensures Digits(Numeral(t)) == t
    ensures Numeral(t) == 0 <==> t[0] == ZERO
  {
    var n := |t| - 1;
    assert IsDigit(t[n]);
    assert t == t[..n] + [t[n]];
    if n == 0 {
      assert t[..0] == [];
      assert Numeral(t) == t[0] - ZERO;
    } else {
      DigitsUndo(t[..n]);
      assert t[..n][0] == t[0];
      var m := Numeral(t[..n]);
      assert m >= 1;
      assert Numeral(t) == m * 10 + (t[n] - ZERO);
      assert Numeral(t) / 10 == m && Numeral(t) % 10 == t[n] - ZERO;
    }
  }

  lemma ParseNumberShrinks(t: Text)
    requires ParseNumber(t).Some?
    ensures
      var (n, rest) := ParseNumber(t).value;
      Weight(Decimal(n)) + Weight(rest) <= Weight(t)
  {
    var u := if StartsWith(t, MINUS) then t[1..] else t;
    var k := if u[0] == ZERO then 1 else DigitRun(u);
    var digits := u[..k];
    assert digits[0] == u[0];
    DigitsUndo(digits);
    WeightSplit(u, k);
    PieceWeighs(digits);
    var n := ParseNumber(t).value.0;
    assert StartsWith(t, MINUS) ==> Weight(u) + 1 == Weight(t);
    DecimalAscii(n);
    PieceWeighs(Decimal(n));
  }

  // -------------------------------------------------------------------- values

  /** What one field or item costs together with the separator behind it. */
  ghost function FieldBulk(k: Text, x: Value): nat {
    Weight(Quote(k)) + 1 + Weight(Print(x)) + 1
  }

  ghost function Bulk(fields: map<Text, Value>, keys: seq<Text>): nat
    requires forall k :: k in keys ==> k in fields
  {
    if keys == [] then 0
    else
      assert keys[0] in keys;
      FieldBulk(keys[0], fields[keys[0]]) + Bulk(fields, keys[1..])
  }

  lemma {:induction false} BulkConcat(fields: map<Text, Value>, a: seq<Text>, b: seq<Text>)
    requires forall k :: k in a || k in b ==> k in fields
    ensures forall k :: k in a + b ==> k in fields
    ensures Bulk(fields, a + b) == Bulk(fields, a) + Bulk(fields, b)
  {
    hide FieldBulk;
    if a == [] {
      assert a + b == b;
    } else {
      BulkConcat(fields, a[1..], b);
      assert (a + b)[1..] == a[1..] + b;
    }
  }

  lemma {:induction false} BulkSame(f: map<Text, Value>, g: map<Text, Value>, keys: seq<Text>)
    requires forall k :: k in keys ==> k in f && k in g && f[k] == g[k]
    ensures Bulk(f, keys) == Bulk(g, keys)
  {
    if keys != [] {
      BulkSame(f, g, keys[1..]);
      assert keys[0] in keys;
    }
  }

  /** A new field adds its own bulk, wherever its key sorts. */
  lemma BulkInsert(f: map<Text, Value>, k: Text, x: Value)
    requires k !in f
    ensures
      Bulk(f[k := x], Sorted(f.Keys + {k})) == Bulk(f, Sorted(f.Keys)) + FieldBulk(k, x)
  {
    hide Sorted, FieldBulk, Bulk;
    var g := f[k := x];
    var before := Sorted(f.Keys);
    var i := SortedInsert(f.Keys, k);
    assert forall z :: z in before[..i] || z in before[i..] ==> z in before;
    BulkConcat(g, before[..i], [k]);
    BulkConcat(g, before[..i] + [k], before[i..]);
    BulkConcat(f, before[..i], before[i..]);
    assert before[..i] + before[i..] == before;
    BulkSame(f, g, before[..i]);
    BulkSame(f, g, before[i..]);
    BulkOne(g, k);
  }

  lemma BulkOne(f: map<Text, Value>, k: Text)
    requires k in f
    ensures Bulk(f, [k]) == FieldBulk(k, f[k])
  {
    hide FieldBulk;
    assert [k][1..] == [];
    assert Bulk(f, [k]) == FieldBulk(k, f[k]) + Bulk(f, []);
  }

  lemma {:induction false} PrintFieldsBulk(v: Value, keys: seq<Text>, i: nat)
    requires v.Obj? && i <= |keys| && forall k :: k in keys ==> k in v.fields
    ensures
      assert forall k :: k in keys[i..] ==> k in keys;
      Weight(PrintFields(v, keys, i)) == Bulk(v.fields, keys[i..]) - (if i == 0 && keys != [] then 1 else 0)
    decreases |keys| - i
  {
    hide Print, Quote;
    if i < |keys| {
      assert keys[i] in keys;
      PrintFieldsBulk(v, keys, i + 1);
      assert keys[i..][1..] == keys[i + 1..];
      assert forall k :: k in keys[i..] ==> k in keys;
      var value := v.fields[keys[i]];
      WeightConcat(Comma(i), Quote(keys[i]));
      WeightConcat(Comma(i) + Quote(keys[i]), [COLON]);
      WeightConcat(Comma(i) + Quote(keys[i]) + [COLON], Print(value));
      WeightConcat(Comma(i) + Quote(keys[i]) + [COLON] + Print(value), PrintFields(v, keys, i + 1));
      PieceWeighs(Comma(i));
      PieceWeighs([COLON]);
    }
  }

  lemma PrintObjBulk(v: Value)
    requires v.Obj? && v.fields != map[]
    ensures Weight(Print(v)) == 1 + Bulk(v.fields, Sorted(v.fields.Keys))
  {
    hide Sorted, PrintFields, Bulk;
    var keys := Sorted(v.fields.Keys);
    var k :| k in v.fields;
    assert k in keys;
    PrintFieldsBulk(v, keys, 0);
    assert keys[0..] == keys;
    WeightConcat([OPEN_BRACE], PrintFields(v, keys, 0));
    WeightConcat([OPEN_BRACE] + PrintFields(v, keys, 0), [CLOSE_BRACE]);
    PieceWeighs([OPEN_BRACE]);
    PieceWeighs([CLOSE_BRACE]);
  }

  ghost function ItemBulk(items: seq<Value>): nat {
    if items == [] then 0 else ItemBulk(items[..|items| - 1]) + Weight(Print(items[|items| - 1])) + 1
  }

  lemma {:induction false} PrintItemsBulk(v: Value, i: nat)
    requires v.Arr? && i <= |v.items|
    ensures Weight(PrintItems(v, i)) == ItemBulk(v.items) - ItemBulk(v.items[..i]) - (if i == 0 && v.items != [] then 1 else 0)
    decreases |v.items| - i
  {
    hide Print;
    if i < |v.items| {
      PrintItemsBulk(v, i + 1);
      assert v.items[..i + 1][..i] == v.items[..i];
      WeightConcat(Comma(i), Print(v.items[i]));
      WeightConcat(Comma(i) + Print(v.items[i]), PrintItems(v, i + 1));
      PieceWeighs(Comma(i));
    } else {
      assert v.items[..i] == v.items;
    }
  }

  lemma PrintArrBulk(v: Value)
    requires v.Arr? && v.items != []
    ensures Weight(Print(v)) == 1 + ItemBulk(v.items)
  {
    hide PrintItems, ItemBulk;
    PrintItemsBulk(v, 0);
    assert v.items[..0] == [];
    assert ItemBulk([]) == 0 by { EmptyBulk(); }
    WeightConcat([OPEN_BRACKET], PrintItems(v, 0));
    WeightConcat([OPEN_BRACKET] + PrintItems(v, 0), [CLOSE_BRACKET]);
    PieceWeighs([OPEN_BRACKET]);
    PieceWeighs([CLOSE_BRACKET]);
  }

  lemma EmptyBulk()
    ensures ItemBulk([]) == 0
  {
  }

  ghost predicate Shrunk(t: Text, depth: nat, r: Result<(Value, Text)>) {
    r.Ok? ==> Fits(r.value.0, depth) && Weight(Print(r.value.0)) + Weight(r.value.1) <= Weight(t)
  }

  lemma ScalarShrinks(t: Text, depth: nat)
    requires depth <= MAX_DEPTH
    ensures Shrunk(t, depth, ParseScalar(t))
  {
    hide ParseNumber;
    if StartsWithWord(t, TRUE_WORD) || StartsWithWord(t, NULL_WORD) {
      WeightSplit(t, 4);
    } else if StartsWithWord(t, FALSE_WORD) {
      WeightSplit(t, 5);
    } else if ParseNumber(t).Some? {
      ParseNumberShrinks(t);
    }
  }

  lemma {:induction false} ParseShrinks(t0: Text, depth: nat)
    ensures Shrunk(t0, depth, ParseValue(t0, depth))
    decreases |t0|, 0
  {
    hide Fits, Print, ParseString, ParseScalar, ParseItems, ParseFields, Shrunk, Weight;
    if depth > MAX_DEPTH {
      ErrShrinks(t0, depth, ParseValue(t0, depth));
      return;
    }
    var t := SkipSpace(t0);
    SkipWeighs(t0);
    if StartsWith(t, QUOTE) {
      StringValueShrinks(t, t0, depth);
    } else if StartsWith(t, OPEN_BRACE) {
      var u := SkipSpace(t[1..]);
      TailWeighs(t);
      SkipWeighs(t[1..]);
      if StartsWith(u, CLOSE_BRACE) {
        TailWeighs(u);
        EmptyShrinks(t0, depth, u[1..], Obj(map[]));
      } else {
        FieldsShrink(u, depth, map[]);
        ObjShrinks(t0, depth, u);
      }
    } else if StartsWith(t, OPEN_BRACKET) {
      var u := SkipSpace(t[1..]);
      TailWeighs(t);
      SkipWeighs(t[1..]);
      if StartsWith(u, CLOSE_BRACKET) {
        TailWeighs(u);
        EmptyShrinks(t0, depth, u[1..], Arr([]));
      } else {
        ItemsShrink(u, depth, []);
        ArrShrinks(t0, depth, u);
      }
    } else {
      ScalarShrinks(t, depth);
      LighterShrinks(t, t0, depth, ParseScalar(t));
    }
  }

  lemma ErrShrinks(t: Text, depth: nat, r: Result<(Value, Text)>)
    requires r.Err?
    ensures Shrunk(t, depth, r)
  {
  }

  lemma LighterShrinks(t: Text, t0: Text, depth: nat, r: Result<(Value, Text)>)
    requires Shrunk(t, depth, r) && Weight(t) <= Weight(t0)
    ensures Shrunk(t0, depth, r)
  {
  }

  lemma StringValueShrinks(t: Text, t0: Text, depth: nat)
    requires depth <= MAX_DEPTH && StartsWith(t, QUOTE) && t == SkipSpace(t0) && Weight(t) <= Weight(t0)
    ensures Shrunk(t0, depth, ParseValue(t0, depth))
  {
    hide ParseString;
    if ParseString(t).Ok? {
      ParseStringShrinks(t);
    }
  }

  lemma EmptyShrinks(t0: Text, depth: nat, rest: Text, v: Value)
    requires depth <= MAX_DEPTH && (v == Obj(map[]) || v == Arr([]))
    requires Weight(rest) + 2 <= Weight(t0)
    ensures Shrunk(t0, depth, Ok((v, rest)))
  {
    if v.Obj? {
      assert v.fields.Keys == {};
      assert Print(v) == [OPEN_BRACE, CLOSE_BRACE];
      PieceWeighs([OPEN_BRACE, CLOSE_BRACE]);
    } else {
      assert Print(v) == [OPEN_BRACKET, CLOSE_BRACKET];
      PieceWeighs([OPEN_BRACKET, CLOSE_BRACKET]);
    }
  }

  // ---- arrays

  ghost predicate ItemsShrunk(t: Text, depth: nat, done: seq<Value>, r: Result<(Value, Text)>) {
    r.Ok? ==>
      && r.value.0.Arr?
      && |done| < |r.value.0.items| && r.value.0.items[..|done|] == done
      && (forall j: nat :: |done| <= j < |r.value.0.items| ==> Fits(r.value.0.items[j], depth + 1))
      && ItemBulk(r.value.0.items) + Weight(r.value.1) <= ItemBulk(done) + Weight(t)
  }

  lemma ArrShrinks(t0: Text, depth: nat, u: Text)
    requires depth <= MAX_DEPTH && ItemsShrunk(u, depth, [], ParseItems(u, depth, []))
    requires Weight(u) + 1 <= Weight(t0)
    ensures Shrunk(t0, depth, ParseItems(u, depth, []))
  {
    hide Print, ItemBulk, ParseItems;
    var r := ParseItems(u, depth, []);
    if r.Ok? {
      EmptyBulk();
      ArrFits(r.value.0, depth);
      PrintArrBulk(r.value.0);
    }
  }

  lemma {:induction false} ItemsShrink(t0: Text, depth: nat, done: seq<Value>)
    ensures ItemsShrunk(t0, depth, done, ParseItems(t0, depth, done))
    decreases |t0|, 1
  {
    hide Fits, Print, ParseValue, Weight, Shrunk;
    var t := SkipSpace(t0);
    SkipWeighs(t0);
    ParseShrinks(t, depth + 1);
    var r := ParseValue(t, depth + 1);
    if r.Ok? {
      ShrunkIs(t, depth + 1, r);
      var (x, rest) := r.value;
      var u := SkipSpace(rest);
      var now := done + [x];
      SkipWeighs(rest);
      assert now[..|done|] == done;
      assert ItemBulk(now) == ItemBulk(done) + Weight(Print(x)) + 1;
      if StartsWith(u, CLOSE_BRACKET) {
        TailWeighs(u);
      } else if StartsWith(u, COMMA) {
        TailWeighs(u);
        ItemsShrink(u[1..], depth, now);
        if ParseItems(u[1..], depth, now).Ok? {
          ItemsCompose(u[1..], depth, done, x, ParseItems(u[1..], depth, now));
        }
      }
    }
  }

  lemma ShrunkIs(t: Text, depth: nat, r: Result<(Value, Text)>)
    requires Shrunk(t, depth, r) && r.Ok?
    ensures Fits(r.value.0, depth) && Weight(Print(r.value.0)) + Weight(r.value.1) <= Weight(t)
  {
  }

  lemma ItemsCompose(t: Text, depth: nat, done: seq<Value>, x: Value, r: Result<(Value, Text)>)
    requires ItemsShrunk(t, depth, done + [x], r) && r.Ok? && Fits(x, depth + 1)
    ensures r.value.0.items[..|done|] == done
    ensures forall j: nat :: |done| <= j < |r.value.0.items| ==> Fits(r.value.0.items[j], depth + 1)
  {
    var all := r.value.0.items;
    assert all[..|done|] == all[..|done| + 1][..|done|];
    assert all[|done|] == all[..|done| + 1][|done|] == x;
  }

  // ---- objects

  ghost predicate FieldsShrunk(t: Text, depth: nat, done: map<Text, Value>, r: Result<(Value, Text)>) {
    r.Ok? ==>
      && r.value.0.Obj?
      && r.value.0.fields != map[]
      && (forall k :: k in r.value.0.fields && k !in done ==> IsAscii(k) && Fits(r.value.0.fields[k], depth + 1))
      && (forall k :: k in done ==> k in r.value.0.fields && r.value.0.fields[k] == done[k])
      && Bulk(r.value.0.fields, Sorted(r.value.0.fields.Keys)) + Weight(r.value.1) <= Bulk(done, Sorted(done.Keys)) + Weight(t)
  }

  lemma ObjShrinks(t0: Text, depth: nat, u: Text)
    requires depth <= MAX_DEPTH && FieldsShrunk(u, depth, map[], ParseFields(u, depth, map[]))
    requires Weight(u) + 1 <= Weight(t0)
    ensures Shrunk(t0, depth, ParseFields(u, depth, map[]))
  {
    hide Print, ParseFields;
    var r := ParseFields(u, depth, map[]);
    if r.Ok? {
      NoBulk();
      PrintObjBulk(r.value.0);
    }
  }

  lemma NoBulk()
    ensures var none: map<Text, Value> := map[]; Bulk(none, Sorted(none.Keys)) == 0
  {
  }

  lemma {:induction false} FieldsShrink(t0: Text, depth: nat, done: map<Text, Value>)
    ensures FieldsShrunk(t0, depth, done, ParseFields(t0, depth, done))
    decreases |t0|, 1
  {
    hide Fits, Print, ParseValue, Weight, Shrunk, ParseString, FieldsShrunk, IsAscii, Quote;
    var t := SkipSpace(t0);
    SkipWeighs(t0);
    var r := ParseFields(t0, depth, done);
    if r.Err? {
      FieldsErr(t0, depth, done, r);
      return;
    }
    ParseStringShrinks(t);
    var (k, afterKey) := ParseString(t).value;
    var u := SkipSpace(afterKey);
    SkipWeighs(afterKey);
    TailWeighs(u);
    ParseShrinks(u[1..], depth + 1);
    var item := ParseValue(u[1..], depth + 1);
    ShrunkIs(u[1..], depth + 1, item);
    var (x, rest) := item.value;
    var w := SkipSpace(rest);
    SkipWeighs(rest);
    TailWeighs(w);
    var now := done[k := x];
    if StartsWith(w, CLOSE_BRACE) {
      FieldsLast(t0, depth, done, k, x, w[1..]);
    } else {
      FieldsShrink(w[1..], depth, now);
      FieldsCompose(t0, w[1..], depth, done, k, x, r);
    }
  }

  lemma FieldsErr(t: Text, depth: nat, done: map<Text, Value>, r: Result<(Value, Text)>)
    requires r.Err?
    ensures FieldsShrunk(t, depth, done, r)
  {
  }

  lemma FieldsLast(t0: Text, depth: nat, done: map<Text, Value>, k: Text, x: Value, rest: Text)
    requires k !in done && IsAscii(k) && Fits(x, depth + 1)
    requires Weight(Quote(k)) + 1 + Weight(Print(x)) + 1 + Weight(rest) <= Weight(t0)
    ensures FieldsShrunk(t0, depth, done, Ok((Obj(done[k := x]), rest)))
  {
    hide Fits, Print, Sorted, IsAscii, Quote, Bulk, Weight;
    BulkInsert(done, k, x);
    assert done[k := x].Keys == done.Keys + {k};
    assert k in done[k := x];
  }

  lemma FieldsCompose(t0: Text, t: Text, depth: nat, done: map<Text, Value>, k: Text, x: Value, r: Result<(Value, Text)>)
    requires k !in done && IsAscii(k) && Fits(x, depth + 1)
    requires Weight(Quote(k)) + 1 + Weight(Print(x)) + 1 + Weight(t) <= Weight(t0)
    requires FieldsShrunk(t, depth, done[k := x], r)
    ensures FieldsShrunk(t0, depth, done, r)
  {
    hide Fits, Print, Sorted, IsAscii, Quote, Bulk, Weight;
    BulkInsert(done, k, x);
    var now := done[k := x];
    assert now.Keys == done.Keys + {k};
    assert k in now && now[k] == x;
    if r.Ok? {
      forall z | z in done
        ensures z in r.value.0.fields && r.value.0.fields[z] == done[z]
      {
        assert z in now;
      }
      forall z | z in r.value.0.fields && z !in done
        ensures IsAscii(z) && Fits(r.value.0.fields[z], depth + 1)
      {
        if z == k {
          assert r.value.0.fields[z] == now[k];
        }
      }
    }
  }

  // ------------------------------------------------------------------ the laws

  /** Every text `parse` accepts has a canonical form, at most as long, that means the
      same value and is its own canonical form. */
  lemma CanonicalisesEveryAccepted(t: Text, max: nat)
    requires Parse(t, max).Ok?
    ensures
      var v := Parse(t, max).value;
      && Canonical(v, max).Ok?
      && var c := Canonical(v, max).value;
      && ByteLen(c) <= ByteLen(t)
      && Parse(c, max) == Ok(v)
  {
    var v := Parse(t, max).value;
    ParseShrinks(t, 0);
    WeightBounds(t);
    CanonicalIsPrint(v, max);
    PrintWellFormed(v, max);
    ParseUndoesCanonical(v, max);
  }

  /** `detach` is the identity on everything `canonical` accepts and fails exactly on
      the rest. */
  ghost function Detach(v: Value, max: nat): Result<Value> {
    var t :- Canonical(v, max);
    Parse(t, max)
  }

  lemma DetachIsIdentity(v: Value, max: nat)
    ensures Canonical(v, max).Ok? ==> Detach(v, max) == Ok(v)
    ensures Canonical(v, max).Err? ==> Detach(v, max) == Err(Canonical(v, max).code)
  {
    if Canonical(v, max).Ok? {
      ParseUndoesCanonical(v, max);
    }
  }
}
