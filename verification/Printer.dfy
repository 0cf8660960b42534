/** `canonical`: a printer that keeps a running byte budget and gives up as soon as
    it is exceeded, proved to be the plain printer followed by one size test. */
module Printer {
  import opened Core
  import opened Texts
  import opened Values

  /** `emit`: charge a piece to the budget. */
  function Charge(used: nat, piece: Text, max: nat): Result<nat> {
    if used + ByteLen(piece) <= max then Ok(used + ByteLen(piece)) else Err(RESOURCE_EXHAUSTED)
  }

  function Emit(used: nat, piece: Text, max: nat): Result<(Text, nat)> {
    var total :- Charge(used, piece, max);
    Ok((piece, total))
  }

  ghost function Walk(v: Value, depth: nat, used: nat, max: nat): Result<(Text, nat)>
    decreases v, 1, 0
  {
    if depth > MAX_DEPTH then Err(RESOURCE_EXHAUSTED)
    else match v
      case Null => Emit(used, NULL_WORD, max)
      case Bool(b) => Emit(used, if b then TRUE_WORD else FALSE_WORD, max)
      case Num(n) => if -MAX_SAFE <= n <= MAX_SAFE then Emit(used, Decimal(n), max) else Err(INVALID_ARGUMENT)
      case Str(s) =>
        if !WellFormed(s) then Err(INVALID_ARGUMENT)
        else if |s| > max then Err(RESOURCE_EXHAUSTED)
        else Emit(used, Quote(s), max)
      case Arr(items) =>
        if |items| > max then Err(RESOURCE_EXHAUSTED)
        else
          var a :- Charge(used, [OPEN_BRACKET], max);
          var body :- WalkItems(v, 0, depth, a, max);
          var z :- Charge(body.1, [CLOSE_BRACKET], max);
          Ok(([OPEN_BRACKET] + body.0 + [CLOSE_BRACKET], z))
      case Obj(fields) =>
        var a :- Charge(used, [OPEN_BRACE], max);
        var body :- WalkFields(v, Sorted(fields.Keys), 0, depth, a, max);
        var z :- Charge(body.1, [CLOSE_BRACE], max);
        Ok(([OPEN_BRACE] + body.0 + [CLOSE_BRACE], z))
  }

  function Comma(i: nat): Text {
    if i == 0 then [] else [COMMA]
  }

  ghost function WalkItems(v: Value, i: nat, depth: nat, used: nat, max: nat): Result<(Text, nat)>
    requires v.Arr? && i <= |v.items|
    decreases v, 0, |v.items| - i
  {
    if i == |v.items| then Ok(([], used))
    else
      var a :- Charge(used, Comma(i), max);
      var item :- Walk(v.items[i], depth + 1, a, max);
      var rest :- WalkItems(v, i + 1, depth, item.1, max);
      Ok((Comma(i) + item.0 + rest.0, rest.1))
  }

  ghost function WalkFields(v: Value, keys: seq<Text>, i: nat, depth: nat, used: nat, max: nat): Result<(Text, nat)>
    requires v.Obj? && i <= |keys| && forall k :: k in keys ==> k in v.fields
    decreases v, 0, |keys| - i
  {
    if i == |keys| then Ok(([], used))
    else
      assert keys[i] in keys;
      if !IsAscii(keys[i]) then Err(INVALID_ARGUMENT)
      else
        var a :- Charge(used, Comma(i), max);
        var b :- Charge(a, Quote(keys[i]), max);
        var c :- Charge(b, [COLON], max);
        var item :- Walk(v.fields[keys[i]], depth + 1, c, max);
        var rest :- WalkFields(v, keys, i + 1, depth, item.1, max);
        Ok((Comma(i) + Quote(keys[i]) + [COLON] + item.0 + rest.0, rest.1))
  }

  ghost function Canonical(v: Value, max: nat): Result<Text> {
    var out :- Walk(v, 0, 0, max);
    Ok(out.0)
  }

  // ------------------------------------------------------- what the pieces weigh

  lemma {:induction false} DigitsAscii(n: nat)
    ensures IsAscii(Digits(n)) && |Digits(n)| >= 1
    ensures forall i :: 0 <= i < |Digits(n)| ==> ZERO <= Digits(n)[i] <= ZERO + 9
  {
    if n >= 10 {
      DigitsAscii(n / 10);
    }
  }

  lemma DecimalAscii(n: int)
    ensures IsAscii(Decimal(n)) && |Decimal(n)| >= 1
  {
    DigitsAscii(if n < 0 then -n else n);
  }

  lemma EscapeUnitAscii(u: Unit)
    requires !IsHigh(u) && !IsLow(u)
    ensures WellFormed(EscapeUnit(u))
    ensures Weight(EscapeUnit(u)) >= 1
  {
    if EscapeUnit(u) != [u] {
      assert IsAscii(EscapeUnit(u));
      AsciiWellFormed(EscapeUnit(u));
    } else {
      assert [u][1..] == [];
    }
  }

  lemma {:induction false} EscapeWellFormed(s: Text)
    requires WellFormed(s)
    ensures WellFormed(Escape(s))
    decreases |s|
  {
    if s != [] {
      if IsHigh(s[0]) {
        EscapeWellFormed(s[2..]);
        assert s[1..][1..] == s[2..];
        assert Escape(s) == [s[0]] + ([s[1]] + Escape(s[2..]));
        assert Escape(s)[2..] == Escape(s[2..]);
      } else {
        EscapeWellFormed(s[1..]);
        EscapeUnitAscii(s[0]);
        WellFormedConcat(EscapeUnit(s[0]), Escape(s[1..]));
      }
    }
  }

  lemma {:induction false} EscapeIsLonger(s: Text)
    ensures |Escape(s)| >= |s|
  {
    if s != [] {
      EscapeIsLonger(s[1..]);
    }
  }

  lemma QuoteWeighs(s: Text)
    requires WellFormed(s)
    ensures WellFormed(Quote(s))
    ensures ByteLen(Quote(s)) == Weight(Quote(s)) > |s|
  {
    EscapeWellFormed(s);
    EscapeIsLonger(s);
    AsciiWellFormed([QUOTE]);
    WellFormedConcat([QUOTE], Escape(s));
    WellFormedConcat([QUOTE] + Escape(s), [QUOTE]);
    WellFormedWeight(Quote(s));
    WeightBounds(Quote(s));
  }

  lemma {:induction false} PrintNotEmpty(v: Value)
    ensures |Print(v)| >= 1
  {
    match v
    case Num(n) => DecimalAscii(n);
    case _ =>
  }

  lemma {:induction false} ItemsWeigh(v: Value, i: nat)
    requires v.Arr? && i <= |v.items|
    ensures Weight(PrintItems(v, i)) >= |v.items| - i
    decreases |v.items| - i
  {
    if i < |v.items| {
      ItemsWeigh(v, i + 1);
      PrintNotEmpty(v.items[i]);
      WeightBounds(Print(v.items[i]));
      WeightConcat(Comma(i), Print(v.items[i]));
      WeightConcat(Comma(i) + Print(v.items[i]), PrintItems(v, i + 1));
    }
  }

  lemma PieceWeighs(piece: Text)
    requires IsAscii(piece)
    ensures ByteLen(piece) == Weight(piece) == |piece|
  {
    AsciiWellFormed(piece);
  }

  // ------------------------------------- the budgeted walk is the plain printer

  ghost predicate Prints(r: Result<(Text, nat)>, ok: bool, t: Text, used: nat, max: nat) {
    if ok && used + Weight(t) <= max then r == Ok((t, used + Weight(t))) else r.Err?
  }

  lemma ScalarPrints(v: Value, depth: nat, used: nat, max: nat)
    requires !v.Arr? && !v.Obj? && depth <= MAX_DEPTH
    ensures Prints(Walk(v, depth, used, max), Fits(v, depth), Print(v), used, max)
  {
    hide Weight, ByteLen, Decimal, Quote, WellFormed;
    match v {
      case Null => PieceWeighs(NULL_WORD);
      case Bool(b) => PieceWeighs(TRUE_WORD); PieceWeighs(FALSE_WORD);
      case Num(n) => DecimalAscii(n); PieceWeighs(Decimal(n));
      case Str(s) =>
        if WellFormed(s) {
          QuoteWeighs(s);
        }
    }
  }

  lemma TooDeep(v: Value, depth: nat, used: nat, max: nat)
    requires depth > MAX_DEPTH
    ensures Walk(v, depth, used, max).Err? && !Fits(v, depth)
  {
  }

  lemma {:induction false} WalkPrints(v: Value, depth: nat, used: nat, max: nat)
    ensures Prints(Walk(v, depth, used, max), Fits(v, depth), Print(v), used, max)
    decreases v, 1, 0
  {
    hide Walk, Fits, Print, Weight;
    if depth > MAX_DEPTH {
      TooDeep(v, depth, used, max);
    } else if v.Arr? {
      WalkArr(v, depth, used, max);
    } else if v.Obj? {
      WalkObj(v, depth, used, max);
    } else {
      ScalarPrints(v, depth, used, max);
    }
  }

  ghost predicate ItemsFit(v: Value, i: nat, depth: nat)
    requires v.Arr?
  {
    forall j: nat :: i <= j < |v.items| ==> Fits(v.items[j], depth + 1)
  }

  ghost predicate FieldsFit(v: Value, keys: seq<Text>, i: nat, depth: nat)
    requires v.Obj? && forall k :: k in keys ==> k in v.fields
  {
    forall j: nat :: i <= j < |keys| ==> keys[j] in keys && IsAscii(keys[j]) && Fits(v.fields[keys[j]], depth + 1)
  }

  lemma ArrFits(v: Value, depth: nat)
    requires v.Arr? && depth <= MAX_DEPTH
    ensures Fits(v, depth) <==> ItemsFit(v, 0, depth)
  {
    if Fits(v, depth) {
      forall j: nat | j < |v.items|
        ensures Fits(v.items[j], depth + 1)
      {
        assert v.items[j] in v.items;
      }
    }
    if ItemsFit(v, 0, depth) {
      forall x | x in v.items
        ensures Fits(x, depth + 1)
      {
        var j: nat :| j < |v.items| && v.items[j] == x;
      }
    }
  }

  lemma ObjFits(v: Value, depth: nat)
    requires v.Obj? && depth <= MAX_DEPTH
    ensures Fits(v, depth) <==> FieldsFit(v, Sorted(v.fields.Keys), 0, depth)
  {
    hide Sorted, IsAscii;
    var keys := Sorted(v.fields.Keys);
    if Fits(v, depth) {
      forall j: nat | j < |keys|
        ensures keys[j] in keys && IsAscii(keys[j]) && Fits(v.fields[keys[j]], depth + 1)
      {
        assert keys[j] in keys;
      }
    }
    if FieldsFit(v, keys, 0, depth) {
      forall k | k in v.fields
        ensures IsAscii(k) && Fits(v.fields[k], depth + 1)
      {
        assert k in keys;
        var j: nat :| j < |keys| && keys[j] == k;
      }
    }
  }

  lemma {:induction false} WalkArr(v: Value, depth: nat, used: nat, max: nat)
    requires v.Arr? && depth <= MAX_DEPTH
    ensures Prints(Walk(v, depth, used, max), Fits(v, depth), Print(v), used, max)
    decreases v, 0, |v.items| + 1
  {
    hide Fits, ItemsFit, Weight, WalkItems, PrintItems;
    PieceWeighs([OPEN_BRACKET]);
    PieceWeighs([CLOSE_BRACKET]);
    WeightConcat([OPEN_BRACKET], PrintItems(v, 0));
    WeightConcat([OPEN_BRACKET] + PrintItems(v, 0), [CLOSE_BRACKET]);
    ItemsWeigh(v, 0);
    if used + 1 <= max {
      WalkItemsPrint(v, 0, depth, used + 1, max);
    }
    ArrFits(v, depth);
  }

  lemma {:induction false} WalkItemsPrint(v: Value, i: nat, depth: nat, used: nat, max: nat)
    requires v.Arr? && i <= |v.items| && used <= max
    ensures Prints(WalkItems(v, i, depth, used, max), ItemsFit(v, i, depth), PrintItems(v, i), used, max)
    decreases v, 0, |v.items| - i
  {
    hide Fits, Weight, Print, Walk, ByteLen;
    if i < |v.items| {
      var item := Print(v.items[i]);
      var a := used + Weight(Comma(i));
      PieceWeighs(Comma(i));
      WeightConcat(Comma(i), item);
      WeightConcat(Comma(i) + item, PrintItems(v, i + 1));
      WalkPrints(v.items[i], depth + 1, a, max);
      if a + Weight(item) <= max {
        WalkItemsPrint(v, i + 1, depth, a + Weight(item), max);
      }
    } else {
      PieceWeighs([]);
    }
  }

  lemma {:induction false} WalkObj(v: Value, depth: nat, used: nat, max: nat)
    requires v.Obj? && depth <= MAX_DEPTH
    ensures Prints(Walk(v, depth, used, max), Fits(v, depth), Print(v), used, max)
    decreases v, 0, |v.fields.Keys| + 1
  {
    hide Fits, FieldsFit, Weight, WalkFields, PrintFields, Sorted;
    var keys := Sorted(v.fields.Keys);
    PieceWeighs([OPEN_BRACE]);
    PieceWeighs([CLOSE_BRACE]);
    WeightConcat([OPEN_BRACE], PrintFields(v, keys, 0));
    WeightConcat([OPEN_BRACE] + PrintFields(v, keys, 0), [CLOSE_BRACE]);
    if used + 1 <= max {
      WalkFieldsPrint(v, keys, 0, depth, used + 1, max);
    }
    ObjFits(v, depth);
  }

  /** The comma, the key and the colon in front of a field's value. */
  ghost function Lead(keys: seq<Text>, i: nat): Text
    requires i < |keys|
  {
    Comma(i) + Quote(keys[i]) + [COLON]
  }

  ghost function ChargeLead(keys: seq<Text>, i: nat, used: nat, max: nat): Result<nat>
    requires i < |keys|
  {
    var a :- Charge(used, Comma(i), max);
    var b :- Charge(a, Quote(keys[i]), max);
    Charge(b, [COLON], max)
  }

  lemma LeadWeighs(keys: seq<Text>, i: nat, used: nat, max: nat)
    requires i < |keys| && IsAscii(keys[i])
    ensures Weight(Lead(keys, i)) == Weight(Comma(i)) + Weight(Quote(keys[i])) + Weight([COLON])
    ensures
      var total := used + Weight(Lead(keys, i));
      if total <= max then ChargeLead(keys, i, used, max) == Ok(total) else ChargeLead(keys, i, used, max).Err?
  {
    hide Weight, ByteLen, Quote;
    PieceWeighs(Comma(i));
    PieceWeighs([COLON]);
    WeightConcat(Comma(i), Quote(keys[i]));
    WeightConcat(Comma(i) + Quote(keys[i]), [COLON]);
    AsciiWellFormed(keys[i]);
    QuoteWeighs(keys[i]);
  }

  lemma {:induction false} WalkFieldsPrint(v: Value, keys: seq<Text>, i: nat, depth: nat, used: nat, max: nat)
    requires v.Obj? && i <= |keys| && used <= max && forall k :: k in keys ==> k in v.fields
    ensures Prints(WalkFields(v, keys, i, depth, used, max), FieldsFit(v, keys, i, depth), PrintFields(v, keys, i), used, max)
    decreases v, 0, |keys| - i
  {
    hide Fits, Weight, Print, Walk, ByteLen, Quote, IsAscii, Charge;
    if i < |keys| {
      assert keys[i] in keys;
      var value := v.fields[keys[i]];
      var lead := Lead(keys, i);
      WeightConcat(lead, Print(value));
      WeightConcat(lead + Print(value), PrintFields(v, keys, i + 1));
      if IsAscii(keys[i]) {
        LeadWeighs(keys, i, used, max);
        var a := used + Weight(lead);
        WalkPrints(value, depth + 1, a, max);
        if a + Weight(Print(value)) <= max {
          WalkFieldsPrint(v, keys, i + 1, depth, a + Weight(Print(value)), max);
        }
      }
    } else {
      PieceWeighs([]);
    }
  }

  /** `canonical` succeeds exactly on values that fit and whose text is small enough,
      and then it is the plain printer. */
  lemma CanonicalIsPrint(v: Value, max: nat)
    ensures Canonical(v, max).Ok? <==> Fits(v, 0) && Weight(Print(v)) <= max
    ensures Canonical(v, max).Ok? ==> Canonical(v, max).value == Print(v)
  {
    WalkPrints(v, 0, 0, max);
  }
}
