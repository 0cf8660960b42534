/** A stream as a list of outcome records: the encoder that numbers items and ends with
    one terminal record, and the decoder that trusts nothing. */
module Outcomes {
  import opened Core
  import opened Texts
  import opened Values
  import opened Printer
  import opened Shrink
  import Codec

  const MAX_BYTES: nat := 1048576

  // ------------------------------------------------------------------ records

  predicate IdStart(u: Unit) {
    0x30 <= u <= 0x39 || 0x41 <= u <= 0x5A || 0x61 <= u <= 0x7A
  }

  /** [A-Za-z0-9][A-Za-z0-9_-]{0,127} */
  predicate ValidId(t: Text) {
    1 <= |t| <= 128 && IdStart(t[0]) && forall i | 0 <= i < |t| :: IdStart(t[i]) || t[i] == 0x5F || t[i] == 0x2D
  }

  function CodeName(c: ErrorCode): Text {
    match c
    case INVALID_ARGUMENT => Name("INVALID_ARGUMENT")
    case UNAUTHENTICATED => Name("UNAUTHENTICATED")
    case PERMISSION_DENIED => Name("PERMISSION_DENIED")
    case NOT_FOUND => Name("NOT_FOUND")
    case INCOMPATIBLE_VERSION => Name("INCOMPATIBLE_VERSION")
    case CONTRACT_MISMATCH => Name("CONTRACT_MISMATCH")
    case CONFLICT => Name("CONFLICT")
    case DEADLINE_EXCEEDED => Name("DEADLINE_EXCEEDED")
    case CANCELLED => Name("CANCELLED")
    case UNAVAILABLE => Name("UNAVAILABLE")
    case RESOURCE_EXHAUSTED => Name("RESOURCE_EXHAUSTED")
    case FAILED_PRECONDITION => Name("FAILED_PRECONDITION")
    case INTERNAL => Name("INTERNAL")
  }

  const CODES: seq<ErrorCode> := [
    INVALID_ARGUMENT, UNAUTHENTICATED, PERMISSION_DENIED, NOT_FOUND, INCOMPATIBLE_VERSION, CONTRACT_MISMATCH,
    CONFLICT, DEADLINE_EXCEEDED, CANCELLED, UNAVAILABLE, RESOURCE_EXHAUSTED, FAILED_PRECONDITION, INTERNAL]

  /** The first of these codes with this name. */
  function FindCode(codes: seq<ErrorCode>, t: Text): Option<ErrorCode> {
    if codes == [] then None else if CodeName(codes[0]) == t then Some(codes[0]) else FindCode(codes[1..], t)
  }

  function CodeOf(t: Text): Option<ErrorCode> {
    FindCode(CODES, t)
  }

  function ErrorValue(code: ErrorCode, correlation: Text): Value {
    Obj(map[Name("code") := Str(CodeName(code)),
            Name("message") := Str(CodeName(code)),
            Name("retryable") := Bool(false),
            Name("correlationId") := Str(correlation)])
  }

  function Frame(id: Text, sequence: int, result: Value): Value {
    Obj(map[Name("requestId") := Str(id), Name("sequence") := Num(sequence), Name("result") := result])
  }

  function ItemResult(x: Value): Value {
    Obj(map[Name("kind") := Str(Name("item")), Name("value") := x])
  }

  const COMPLETE_RESULT: Value := Obj(map[Name("kind") := Str(Name("complete"))])

  function ErrorResult(code: ErrorCode, correlation: Text): Value {
    Obj(map[Name("kind") := Str(Name("error")), Name("error") := ErrorValue(code, correlation)])
  }

  /** How a source of items ends. */
  datatype Ending = Complete | Failed(code: ErrorCode, correlation: Text)

  function Terminal(id: Text, sequence: int, ending: Ending): Value {
    match ending
    case Complete => Frame(id, sequence, COMPLETE_RESULT)
    case Failed(code, correlation) => Frame(id, sequence, ErrorResult(code, correlation))
  }

  // ------------------------------------------------------------------ encoder

  /** The record of item x under number m, as the transport will see it. */
  ghost function Travel(id: Text, m: int, x: Value): Result<Value> {
    Detach(Frame(id, m, ItemResult(x)), MAX_BYTES)
  }

  /** The records from the (n+1)-th on. An item whose record cannot be detached ends the
      stream with the code of that failure. `correlation` is the fresh id such an error
      gets. */
  ghost function Encoding(id: Text, items: seq<Value>, ending: Ending, n: nat, correlation: Text): seq<Value> {
    if items == [] then [Terminal(id, n + 1, ending)]
    else match Travel(id, n + 1, items[0])
      case Err(code) => [Terminal(id, n + 1, Failed(code, correlation))]
      case Ok(frame) => [frame] + Encoding(id, items[1..], ending, n + 1, correlation)
  }

  /** `streamOutcomes`. */
  method StreamOutcomes(id: Text, source: seq<Value>, ending: Ending, correlation: Text) returns (r: Result<seq<Value>>)
    ensures r == if ValidId(id) then Ok(Encoding(id, source, ending, 0, correlation)) else Err(INVALID_ARGUMENT)
  {
    hide Detach, Frame, ItemResult, Terminal, ValidId;
    if !ValidId(id) {
      return Err(INVALID_ARGUMENT);
    }
    var sequence, out := 0, [];
    while sequence < |source|
      invariant sequence <= |source|
      invariant Encoding(id, source, ending, 0, correlation) == out + Encoding(id, source[sequence..], ending, sequence, correlation)
    {
      assert source[sequence..][0] == source[sequence] && source[sequence..][1..] == source[sequence + 1..];
      var frame := DetachValue(Frame(id, sequence + 1, ItemResult(source[sequence])));
      if frame.Err? {
        return Ok(out + [Terminal(id, sequence + 1, Failed(frame.code, correlation))]);
      }
      sequence := sequence + 1;
      ghost var rest := Encoding(id, source[sequence..], ending, sequence, correlation);
      assert out + ([frame.value] + rest) == out + [frame.value] + rest;
      out := out + [frame.value];
    }
    r := Ok(out + [Terminal(id, sequence + 1, ending)]);
  }

  method DetachValue(v: Value) returns (r: Result<Value>)
    ensures r == Detach(v, MAX_BYTES)
  {
    var t := Codec.Print(v, MAX_BYTES);
    if t.Err? {
      return Err(t.code);
    }
    r := Codec.ParseText(t.value, MAX_BYTES);
  }

  // ------------------------------------------------------------------ decoder

  function Points(t: Text): nat {
    if t == [] then 0 else (if IsLow(t[0]) then 0 else 1) + Points(t[1..])
  }

  /** The error schema, and the code and correlation id it lets through. */
  function ReadError(v: Value): Option<(ErrorCode, Text)> {
    if !(v.Obj? && v.fields.Keys == {Name("code"), Name("message"), Name("retryable"), Name("correlationId")}) then None
    else match (Field(v, "code"), Field(v, "message"), Field(v, "retryable"), Field(v, "correlationId"))
      case (Some(Str(c)), Some(Str(m)), Some(Bool(_)), Some(Str(id))) =>
        if CodeOf(c).Some? && Points(m) <= 512 && ValidId(id) then Some((CodeOf(c).value, id)) else None
      case _ => None
  }

  datatype Seen = Item(x: Value) | Done | Broken(code: ErrorCode, correlation: Option<Text>)

  predicate HasKeys(v: Value, keys: set<Text>) {
    v.Obj? && v.fields.Keys == keys
  }

  /** What the decoder makes of a record when it expects number n. Its own errors carry
      a fresh correlation id. */
  function ReadFrame(f: Value, id: Text, n: int): Seen {
    if !HasKeys(f, {Name("requestId"), Name("result"), Name("sequence")}) then Broken(INVALID_ARGUMENT, None)
    else if Field(f, "requestId") != Some(Str(id)) || Field(f, "sequence") != Some(Num(n)) then Broken(CONTRACT_MISMATCH, None)
    else
      var r := Field(f, "result").value;
      if Field(r, "kind") == Some(Str(Name("item"))) then
        if HasKeys(r, {Name("kind"), Name("value")}) then Item(Field(r, "value").value) else Broken(INVALID_ARGUMENT, None)
      else if Field(r, "kind") == Some(Str(Name("complete"))) then
        if HasKeys(r, {Name("kind")}) then Done else Broken(INVALID_ARGUMENT, None)
      else if Field(r, "kind") == Some(Str(Name("error"))) && HasKeys(r, {Name("error"), Name("kind")}) then
        match ReadError(Field(r, "error").value)
        case None => Broken(INVALID_ARGUMENT, None)
        case Some((code, correlation)) => Broken(code, Some(correlation))
      else Broken(INVALID_ARGUMENT, None)
  }

  /** The items a reader gets, and how its loop ends: normally, or with an error. */
  datatype Read = Read(items: seq<Value>, end: Seen)

  ghost function Decoding(id: Text, frames: seq<Value>, n: nat): Read {
    if frames == [] then Read([], Broken(UNAVAILABLE, None))
    else match Detach(frames[0], MAX_BYTES)
      case Err(code) => Read([], Broken(code, None))
      case Ok(f) =>
        match ReadFrame(f, id, n + 1)
        case Item(x) =>
          (match Detach(x, MAX_BYTES)
           case Err(code) => Read([], Broken(code, None))
           case Ok(own) =>
             var rest := Decoding(id, frames[1..], n + 1);
             Read([own] + rest.items, rest.end))
        case end => Read([], end)
  }

  /** `readStreamOutcomes`. */
  method ReadStreamOutcomes(id: Text, source: seq<Value>) returns (items: seq<Value>, end: Seen)
    ensures Read(items, end) == Decoding(id, source, 0)
  {
    hide Canonical, ReadFrame;
    items := [];
    var sequence := 0;
    while sequence < |source|
      invariant sequence <= |source|
      invariant
        var rest := Decoding(id, source[sequence..], sequence);
        Decoding(id, source, 0) == Read(items + rest.items, rest.end)
    {
      assert source[sequence..][0] == source[sequence] && source[sequence..][1..] == source[sequence + 1..];
      assert items + [] == items;
      var f := DetachValue(source[sequence]);
      if f.Err? {
        return items, Broken(f.code, None);
      }
      sequence := sequence + 1;
      end := ReadFrame(f.value, id, sequence);
      if !end.Item? {
        return items, end;
      }
      var own := DetachValue(end.x);
      if own.Err? {
        return items, Broken(own.code, None);
      }
      ghost var rest := Decoding(id, source[sequence..], sequence);
      assert items + ([own.value] + rest.items) == items + [own.value] + rest.items;
      items := items + [own.value];
    }
    assert items + [] == items;
    end := Broken(UNAVAILABLE, None);
  }

  // -------------------------------------------------------- names and records

  lemma LengthsDiffer(s: string, t: string)
    requires |s| != |t|
    ensures Name(s) != Name(t)
  {
  }

  /** The property names of records are distinct. */
  lemma Distinct()
    ensures Name("requestId") != Name("sequence") && Name("requestId") != Name("result") && Name("sequence") != Name("result")
    ensures Name("kind") != Name("value") && Name("kind") != Name("error")
    ensures Name("code") != Name("message") && Name("code") != Name("retryable") && Name("code") != Name("correlationId")
    ensures Name("message") != Name("retryable") && Name("message") != Name("correlationId")
    ensures Name("retryable") != Name("correlationId")
    ensures Name("item") != Name("complete") && Name("item") != Name("error") && Name("complete") != Name("error")
  {
    hide Name;
    LengthsDiffer("requestId", "sequence");
    LengthsDiffer("requestId", "result");
    LengthsDiffer("sequence", "result");
    LengthsDiffer("kind", "value");
    LengthsDiffer("kind", "error");
    LengthsDiffer("code", "message");
    LengthsDiffer("code", "retryable");
    LengthsDiffer("code", "correlationId");
    LengthsDiffer("message", "retryable");
    LengthsDiffer("message", "correlationId");
    LengthsDiffer("retryable", "correlationId");
    LengthsDiffer("item", "complete");
    LengthsDiffer("item", "error");
    LengthsDiffer("complete", "error");
  }

  lemma FirstLetter(s: string)
    requires s != ""
    ensures Name(s)[0] == s[0] as int % 0x80 && |Name(s)| == |s|
  {
  }

  /** Length and first letter tell the thirteen names apart. */
  lemma CodeNamesDiffer(c: ErrorCode, d: ErrorCode)
    requires CodeName(c) == CodeName(d)
    ensures c == d
  {
    hide Name;
    FirstLetter("INVALID_ARGUMENT");
    FirstLetter("UNAUTHENTICATED");
    FirstLetter("PERMISSION_DENIED");
    FirstLetter("NOT_FOUND");
    FirstLetter("INCOMPATIBLE_VERSION");
    FirstLetter("CONTRACT_MISMATCH");
    FirstLetter("CONFLICT");
    FirstLetter("DEADLINE_EXCEEDED");
    FirstLetter("CANCELLED");
    FirstLetter("UNAVAILABLE");
    FirstLetter("RESOURCE_EXHAUSTED");
    FirstLetter("FAILED_PRECONDITION");
    FirstLetter("INTERNAL");
  }

  lemma {:induction false} FindCodeName(codes: seq<ErrorCode>, c: ErrorCode)
    requires c in codes
    ensures FindCode(codes, CodeName(c)) == Some(c)
  {
    hide CodeName;
    if CodeName(codes[0]) == CodeName(c) {
      CodeNamesDiffer(codes[0], c);
    } else {
      FindCodeName(codes[1..], c);
    }
  }

  /** A code is read back from its name. */
  lemma CodeOfName(c: ErrorCode)
    ensures CodeOf(CodeName(c)) == Some(c)
  {
    hide CodeName, FindCode;
    FindCodeName(CODES, c);
  }

  /** An id is one to 128 letters, digits, underscores and hyphens, the first a letter or
      a digit. */
  lemma IdsExactly(t: Text)
    ensures ValidId(t) <==>
      && 1 <= |t| <= 128
      && t[0] != 0x5F && t[0] != 0x2D
      && forall i :: 0 <= i < |t| ==>
           || 0x30 <= t[i] <= 0x39 || 0x41 <= t[i] <= 0x5A || 0x61 <= t[i] <= 0x7A || t[i] == 0x5F || t[i] == 0x2D
  {
  }

  lemma {:induction false} FoundCode(codes: seq<ErrorCode>, t: Text)
    ensures FindCode(codes, t).Some? ==> t == CodeName(FindCode(codes, t).value)
  {
    hide CodeName;
    if codes != [] {
      FoundCode(codes[1..], t);
    }
  }

  /** An error is read from exactly the objects with the four properties of an error: the
      name of a code, a message of at most 512 characters, a flag and an id. */
  lemma ErrorsExactly(v: Value, code: ErrorCode, id: Text)
    ensures ReadError(v) == Some((code, id)) <==>
      && v.Obj? && v.fields.Keys == {Name("code"), Name("message"), Name("retryable"), Name("correlationId")}
      && v.fields[Name("code")] == Str(CodeName(code))
      && v.fields[Name("message")].Str? && Points(v.fields[Name("message")].s) <= 512
      && v.fields[Name("retryable")].Bool?
      && v.fields[Name("correlationId")] == Str(id) && ValidId(id)
  {
    hide Name, CodeName, ValidId, Points, FindCode;
    CodeOfName(code);
    if v.Obj? && v.fields.Keys == {Name("code"), Name("message"), Name("retryable"), Name("correlationId")} {
      FieldIs(v, "code");
      FieldIs(v, "message");
      FieldIs(v, "retryable");
      FieldIs(v, "correlationId");
      if v.fields[Name("code")].Str? {
        FoundCode(CODES, v.fields[Name("code")].s);
      }
    }
  }

  lemma FieldIs(v: Value, name: string)
    requires v.Obj? && Name(name) in v.fields
    ensures Field(v, name) == Some(v.fields[Name(name)])
  {
  }

  /** A character outside the basic plane is one, though it takes two units. */
  lemma {:induction false} PairsCountOnce(t: Text)
    requires WellFormed(t)
    ensures 2 * Points(t) >= |t| && Points(t) <= |t|
    ensures (forall i :: 0 <= i < |t| ==> !IsHigh(t[i]) && !IsLow(t[i])) ==> Points(t) == |t|
  {
    if t != [] {
      if IsHigh(t[0]) {
        assert t[1..][1..] == t[2..];
        PairsCountOnce(t[2..]);
      } else {
        PairsCountOnce(t[1..]);
      }
    }
  }

  // ------------------------------------------------- records are always small

  lemma {:induction false} EscapeWeighs(s: Text)
    ensures Weight(Escape(s)) <= 6 * |s|
  {
    if s != [] {
      EscapeWeighs(s[1..]);
      WeightConcat(EscapeUnit(s[0]), Escape(s[1..]));
      EscapeUnitWeighs(s[0]);
    }
  }

  lemma EscapeUnitWeighs(u: Unit)
    ensures Weight(EscapeUnit(u)) <= 6
  {
    var e := EscapeUnit(u);
    if e == [u] {
      assert [u][1..] == [];
    } else {
      assert IsAscii(e);
      AsciiWellFormed(e);
    }
  }

  lemma TextWeighs(s: Text)
    ensures Weight(Print(Str(s))) <= 6 * |s| + 2
  {
    EscapeWeighs(s);
    WeightConcat([QUOTE] + Escape(s), [QUOTE]);
    WeightConcat([QUOTE], Escape(s));
    PieceWeighs([QUOTE]);
  }

  lemma {:induction false} DigitsLength(n: nat, k: nat)
    requires k >= 1 && n < Power10(k)
    ensures |Digits(n)| <= k
    decreases k
  {
    if n >= 10 {
      DigitsLength(n / 10, k - 1);
    }
  }

  function Power10(k: nat): nat {
    if k == 0 then 1 else 10 * Power10(k - 1)
  }

  lemma NumberWeighs(n: int)
    requires 0 <= n <= MAX_SAFE
    ensures Weight(Print(Num(n))) <= 16
  {
    assert Power10(4) == 10000;
    assert Power10(8) == 10000 * Power10(4);
    assert Power10(12) == 10000 * Power10(8);
    assert Power10(16) == 10000 * Power10(12);
    DigitsLength(n, 16);
    DecimalAscii(n);
    AsciiWellFormed(Decimal(n));
  }

  /** Adding a field adds at most its own bulk. */
  lemma AddField(f: map<Text, Value>, k: Text, x: Value)
    requires k !in f
    ensures Weight(Print(Obj(f[k := x]))) <= Weight(Print(Obj(f))) + 6 * |k| + 4 + Weight(Print(x))
  {
    hide Print, Sorted, Bulk, Quote;
    BulkInsert(f, k, x);
    assert f[k := x].Keys == f.Keys + {k};
    PrintObjBulk(Obj(f[k := x]));
    TextWeighs(k);
    assert Print(Str(k)) == Quote(k) by { QuoteIsPrint(k); }
    if f != map[] {
      PrintObjBulk(Obj(f));
    } else {
      EmptyObject();
      assert f.Keys == {};
    }
  }

  lemma QuoteIsPrint(k: Text)
    ensures Print(Str(k)) == Quote(k)
  {
  }

  lemma EmptyObject()
    ensures Weight(Print(Obj(map[]))) == 2 && Bulk(map[], Sorted({})) == 0
  {
    assert Print(Obj(map[])) == [OPEN_BRACE, CLOSE_BRACE];
    AsciiWellFormed([OPEN_BRACE, CLOSE_BRACE]);
  }

  lemma ErrorWeighs(code: ErrorCode, correlation: Text)
    requires |correlation| <= 128
    ensures Weight(Print(ErrorValue(code, correlation))) <= 2000
  {
    hide Print, Name, CodeName;
    CodeNameShort(code);
    Distinct();
    EmptyObject();
    var a := map[Name("code") := Str(CodeName(code))];
    var b := a[Name("message") := Str(CodeName(code))];
    var c := b[Name("retryable") := Bool(false)];
    AddField(map[], Name("code"), Str(CodeName(code)));
    AddField(a, Name("message"), Str(CodeName(code)));
    AddField(b, Name("retryable"), Bool(false));
    AddField(c, Name("correlationId"), Str(correlation));
    TextWeighs(CodeName(code));
    TextWeighs(correlation);
    FalseWeighs();
    assert c[Name("correlationId") := Str(correlation)] == ErrorValue(code, correlation).fields;
  }

  lemma FalseWeighs()
    ensures Weight(Print(Bool(false))) == 5
  {
    AsciiWellFormed(FALSE_WORD);
  }

  lemma CodeNameShort(code: ErrorCode)
    ensures |CodeName(code)| <= 20 && IsAscii(CodeName(code))
  {
  }

  lemma TerminalWeighs(id: Text, n: int, ending: Ending)
    requires |id| <= 128 && 0 <= n <= MAX_SAFE && (ending.Failed? ==> |ending.correlation| <= 128)
    ensures Weight(Print(Terminal(id, n, ending))) <= 5000
  {
    hide Print, Name, ErrorValue;
    Distinct();
    EmptyObject();
    var kind := Name(if ending.Complete? then "complete" else "error");
    var r := map[Name("kind") := Str(kind)];
    AddField(map[], Name("kind"), Str(kind));
    TextWeighs(kind);
    assert Weight(Print(Obj(r))) <= 100;
    if ending.Failed? {
      AddField(r, Name("error"), ErrorValue(ending.code, ending.correlation));
      ErrorWeighs(ending.code, ending.correlation);
      assert r[Name("error") := ErrorValue(ending.code, ending.correlation)] == ErrorResult(ending.code, ending.correlation).fields;
    }
    var result := if ending.Complete? then COMPLETE_RESULT else ErrorResult(ending.code, ending.correlation);
    FrameWeighs(id, n, result);
  }

  lemma FrameWeighs(id: Text, n: int, result: Value)
    requires |id| <= 128 && 0 <= n <= MAX_SAFE
    ensures Weight(Print(Frame(id, n, result))) <= Weight(Print(result)) + 1000
  {
    hide Print, Name;
    Distinct();
    EmptyObject();
    var a := map[Name("requestId") := Str(id)];
    var b := a[Name("sequence") := Num(n)];
    AddField(map[], Name("requestId"), Str(id));
    AddField(a, Name("sequence"), Num(n));
    AddField(b, Name("result"), result);
    TextWeighs(id);
    NumberWeighs(n);
    assert b[Name("result") := result] == Frame(id, n, result).fields;
  }

  lemma IdIsAscii(id: Text)
    requires ValidId(id)
    ensures IsAscii(id) && WellFormed(id) && |id| <= 128
  {
    AsciiWellFormed(id);
  }

  lemma NameFits(s: string, depth: nat)
    requires depth <= MAX_DEPTH
    ensures Fits(Str(Name(s)), depth)
  {
    AsciiWellFormed(Name(s));
  }

  lemma ErrorFits(code: ErrorCode, correlation: Text)
    requires WellFormed(correlation)
    ensures Fits(ErrorValue(code, correlation), 2)
  {
    hide WellFormed, CodeName, Name, IsAscii;
    CodeNameShort(code);
    AsciiWellFormed(CodeName(code));
  }

  lemma ResultFits(ending: Ending)
    requires ending.Failed? ==> WellFormed(ending.correlation)
    ensures Fits(if ending.Complete? then COMPLETE_RESULT else ErrorResult(ending.code, ending.correlation), 1)
  {
    hide WellFormed, Name, IsAscii, ErrorValue;
    NameFits("complete", 2);
    NameFits("error", 2);
    if ending.Failed? {
      ErrorFits(ending.code, ending.correlation);
    }
  }

  lemma TerminalFits(id: Text, n: int, ending: Ending)
    requires ValidId(id) && 0 <= n <= MAX_SAFE && (ending.Failed? ==> ValidId(ending.correlation))
    ensures Fits(Terminal(id, n, ending), 0)
  {
    hide WellFormed, ValidId, Name, IsAscii, ErrorResult;
    IdIsAscii(id);
    if ending.Failed? {
      IdIsAscii(ending.correlation);
    }
    ResultFits(ending);
  }

  /** The record that ends a stream always survives its own transport, and reads as
      what it says. */
  lemma TerminalReads(id: Text, n: int, ending: Ending)
    requires ValidId(id) && 0 <= n <= MAX_SAFE && (ending.Failed? ==> ValidId(ending.correlation))
    ensures Detach(Terminal(id, n, ending), MAX_BYTES) == Ok(Terminal(id, n, ending))
    ensures ReadFrame(Terminal(id, n, ending), id, n)
      == if ending.Complete? then Done else Broken(ending.code, Some(ending.correlation))
  {
    hide Canonical, Print, Fits, WellFormed;
    var t := Terminal(id, n, ending);
    IdIsAscii(id);
    if ending.Failed? {
      IdIsAscii(ending.correlation);
    }
    TerminalFits(id, n, ending);
    TerminalWeighs(id, n, ending);
    CanonicalIsPrint(t, MAX_BYTES);
    DetachIsIdentity(t, MAX_BYTES);
    ReadsTerminal(id, n, ending);
  }

  lemma ReadsTerminal(id: Text, n: int, ending: Ending)
    requires ending.Failed? ==> ValidId(ending.correlation)
    ensures ReadFrame(Terminal(id, n, ending), id, n)
      == if ending.Complete? then Done else Broken(ending.code, Some(ending.correlation))
  {
    hide Name, CodeName, ValidId, CodeOf, Points;
    Distinct();
    if ending.Failed? {
      CodeOfName(ending.code);
      PointsShort(CodeName(ending.code));
      CodeNameShort(ending.code);
      assert ReadError(ErrorValue(ending.code, ending.correlation)) == Some((ending.code, ending.correlation));
    }
  }

  lemma {:induction false} PointsShort(t: Text)
    ensures Points(t) <= |t|
  {
    if t != [] {
      PointsShort(t[1..]);
    }
  }

  // -------------------------------------------------------------------- laws

  /** The items before the first whose record cannot travel. */
  ghost function Travelling(id: Text, items: seq<Value>, n: nat): (k: nat)
    ensures k <= |items|
  {
    if items == [] || Travel(id, n + 1, items[0]).Err? then 0
    else 1 + Travelling(id, items[1..], n + 1)
  }

  lemma {:induction false} TravellingStops(id: Text, items: seq<Value>, n: nat)
    ensures
      var k := Travelling(id, items, n);
      k < |items| ==> Travel(id, n + k + 1, items[k]).Err?
    decreases |items|
  {
    hide Travel;
    if items != [] && Travel(id, n + 1, items[0]).Ok? {
      TravellingStops(id, items[1..], n + 1);
      var rest := Travelling(id, items[1..], n + 1);
      assert rest < |items| - 1 ==> items[1..][rest] == items[rest + 1];
    }
  }

  lemma ItemReads(id: Text, n: int, x: Value)
    ensures ReadFrame(Frame(id, n, ItemResult(x)), id, n) == Item(x)
  {
    hide Name;
    Distinct();
  }

  /** If the record travels, so does what it carries. */
  lemma ItemDetaches(id: Text, n: int, x: Value)
    requires Travel(id, n, x).Ok?
    ensures Travel(id, n, x) == Ok(Frame(id, n, ItemResult(x)))
    ensures Detach(x, MAX_BYTES) == Ok(x)
  {
    hide Canonical, Print, Name;
    var r := ItemResult(x);
    var f := Frame(id, n, r);
    Distinct();
    DetachIsIdentity(f, MAX_BYTES);
    CanonicalIsPrint(f, MAX_BYTES);
    PartFits(f, Name("result"), 0);
    PartFits(r, Name("value"), 1);
    FitsHigher(x, 2, 0);
    CanonicalIsPrint(x, MAX_BYTES);
    DetachIsIdentity(x, MAX_BYTES);
  }

  /** A field is no bigger than its object. */
  lemma PartFits(v: Value, k: Text, depth: nat)
    requires v.Obj? && k in v.fields && Fits(v, depth)
    ensures Fits(v.fields[k], depth + 1) && Weight(Print(v.fields[k])) <= Weight(Print(v))
  {
    hide Print, Sorted, Bulk;
    var rest := v.fields - {k};
    assert rest[k := v.fields[k]] == v.fields;
    assert rest.Keys + {k} == v.fields.Keys;
    BulkInsert(rest, k, v.fields[k]);
    PrintObjBulk(v);
  }

  /** Fewer containers around a value never hurt. */
  lemma {:induction false} FitsHigher(v: Value, depth: nat, less: nat)
    requires Fits(v, depth) && less <= depth
    ensures Fits(v, less)
    decreases v
  {
    match v
    case Arr(items) =>
      forall x | x in items
        ensures Fits(x, less + 1)
      {
        FitsHigher(x, depth + 1, less + 1);
      }
    case Obj(fields) =>
      forall k | k in fields
        ensures Fits(fields[k], less + 1)
      {
        FitsHigher(fields[k], depth + 1, less + 1);
      }
    case _ =>
  }

  function Ended(ending: Ending): Seen {
    match ending
    case Complete => Done
    case Failed(code, correlation) => Broken(code, Some(correlation))
  }

  /** What a reader is entitled to: every item and the source's own end, or the items
      before the first that cannot travel and the code it failed with. */
  ghost function Promised(id: Text, items: seq<Value>, ending: Ending, n: nat, correlation: Text): Read {
    hide Travel;
    var k := Travelling(id, items, n);
    TravellingStops(id, items, n);
    if k == |items| then Read(items, Ended(ending))
    else
      var code := Travel(id, n + k + 1, items[k]).code;
      Read(items[..k], Broken(code, Some(correlation)))
  }

  lemma TerminalDecodes(id: Text, n: nat, ending: Ending)
    requires ValidId(id) && (ending.Failed? ==> ValidId(ending.correlation)) && n < MAX_SAFE
    ensures Decoding(id, [Terminal(id, n + 1, ending)], n) == Read([], Ended(ending))
  {
    hide Detach, Terminal, ReadFrame, ValidId;
    TerminalReads(id, n + 1, ending);
  }

  lemma FrameDecodes(id: Text, n: nat, x: Value, rest: seq<Value>)
    requires Travel(id, n + 1, x).Ok?
    ensures
      var more := Decoding(id, rest, n + 1);
      Decoding(id, [Frame(id, n + 1, ItemResult(x))] + rest, n) == Read([x] + more.items, more.end)
  {
    hide Detach, Frame, ItemResult, ReadFrame;
    ItemDetaches(id, n + 1, x);
    ItemReads(id, n + 1, x);
    assert ([Frame(id, n + 1, ItemResult(x))] + rest)[1..] == rest;
  }

  /** Decoding an encoding gives a reader exactly what it is entitled to. */
  lemma {:induction false} DecodeUndoesEncode(id: Text, items: seq<Value>, ending: Ending, n: nat, correlation: Text)
    requires ValidId(id) && ValidId(correlation) && (ending.Failed? ==> ValidId(ending.correlation))
    requires n + |items| < MAX_SAFE
    ensures Decoding(id, Encoding(id, items, ending, n, correlation), n) == Promised(id, items, ending, n, correlation)
    decreases |items|
  {
    hide Travel, Detach, Frame, ItemResult, Terminal, ReadFrame, ValidId, Decoding;
    if items == [] {
      TerminalDecodes(id, n, ending);
    } else {
      var frame := Travel(id, n + 1, items[0]);
      if frame.Err? {
        TerminalDecodes(id, n, Failed(frame.code, correlation));
      } else {
        var rest := Encoding(id, items[1..], ending, n + 1, correlation);
        ItemDetaches(id, n + 1, items[0]);
        FrameDecodes(id, n, items[0], rest);
        DecodeUndoesEncode(id, items[1..], ending, n + 1, correlation);
        PromisedMore(id, items, ending, n, correlation);
      }
    }
  }

  lemma PromisedMore(id: Text, items: seq<Value>, ending: Ending, n: nat, correlation: Text)
    requires items != [] && Travel(id, n + 1, items[0]).Ok?
    ensures
      var rest := Promised(id, items[1..], ending, n + 1, correlation);
      Promised(id, items, ending, n, correlation) == Read([items[0]] + rest.items, rest.end)
  {
    hide Travel, Detach, Frame, ItemResult;
    var k := Travelling(id, items[1..], n + 1);
    assert Travelling(id, items, n) == k + 1;
    assert items == [items[0]] + items[1..];
    assert items[..k + 1] == [items[0]] + items[1..][..k];
    assert k < |items| - 1 ==> items[1..][k] == items[k + 1];
  }

  /** A stream that breaks off before its end gives out the items that came and ends as
      UNAVAILABLE. */
  lemma {:induction false} CutShort(id: Text, items: seq<Value>, ending: Ending, n: nat, correlation: Text, k: nat)
    requires k <= Travelling(id, items, n)
    ensures k <= |Encoding(id, items, ending, n, correlation)|
    ensures Decoding(id, Encoding(id, items, ending, n, correlation)[..k], n) == Read(items[..k], Broken(UNAVAILABLE, None))
    decreases k
  {
    hide Travel, Detach, Frame, ItemResult, Terminal, ReadFrame, Decoding;
    if k == 0 {
      assert Encoding(id, items, ending, n, correlation)[..0] == [];
      NothingDecodes(id, n);
    } else {
      var frame := Travel(id, n + 1, items[0]).value;
      var rest := Encoding(id, items[1..], ending, n + 1, correlation);
      CutShort(id, items[1..], ending, n + 1, correlation, k - 1);
      ItemDetaches(id, n + 1, items[0]);
      FrameDecodes(id, n, items[0], rest[..k - 1]);
      assert ([frame] + rest)[..k] == [frame] + rest[..k - 1];
      assert items[..k] == [items[0]] + items[1..][..k - 1];
    }
  }

  lemma NothingDecodes(id: Text, n: nat)
    ensures Decoding(id, [], n) == Read([], Broken(UNAVAILABLE, None))
  {
  }

  /** A record of another request, or out of its turn, is a CONTRACT_MISMATCH; one that is
      no record at all is an INVALID_ARGUMENT. */
  lemma MisplacedIsRefused(f: Value, id: Text, n: int, other: Text, m: int, result: Value)
    ensures other != id || m != n ==> ReadFrame(Frame(other, m, result), id, n) == Broken(CONTRACT_MISMATCH, None)
    ensures !f.Obj? || f.fields.Keys != {Name("requestId"), Name("result"), Name("sequence")} ==> ReadFrame(f, id, n) == Broken(INVALID_ARGUMENT, None)
  {
    hide Name;
    Distinct();
  }

  /** The items of a stream as records, numbered from n + 1. */
  ghost function Numbered(id: Text, items: seq<Value>, n: nat): seq<Value> {
    seq(|items|, i requires 0 <= i < |items| => Frame(id, n + i + 1, ItemResult(items[i])))
  }

  /** A record the decoder takes as an item, or as the end, is the very record the
      encoder writes. */
  lemma OnlyRealFrames(f: Value, id: Text, n: int)
    ensures ReadFrame(f, id, n).Item? ==> f == Frame(id, n, ItemResult(ReadFrame(f, id, n).x))
    ensures ReadFrame(f, id, n).Done? ==> f == Terminal(id, n, Complete)
  {
    hide Name, ReadError;
    Distinct();
    var seen := ReadFrame(f, id, n);
    if seen.Item? {
      var r := Field(f, "result").value;
      assert r.fields == ItemResult(seen.x).fields;
      assert f.fields == Frame(id, n, r).fields;
    } else if seen.Done? {
      assert Field(f, "result").value.fields == COMPLETE_RESULT.fields;
      assert f.fields == Terminal(id, n, Complete).fields;
    }
  }

  /** The decoder ends normally only if what it was given starts with a complete
      encoding of the items it gave out. */
  lemma {:induction false} CompletesOnlyOnEncodings(id: Text, frames: seq<Value>, n: nat)
    requires Decoding(id, frames, n).end.Done?
    ensures
      var items := Decoding(id, frames, n).items;
      Numbered(id, items, n) + [Terminal(id, n + |items| + 1, Complete)] <= frames
    decreases |frames|
  {
    hide Detach, Frame, ItemResult, Terminal, ReadFrame;
    DetachIsIdentity(frames[0], MAX_BYTES);
    OnlyRealFrames(frames[0], id, n + 1);
    var seen := ReadFrame(frames[0], id, n + 1);
    if seen.Item? {
      DetachIsIdentity(seen.x, MAX_BYTES);
      CompletesOnlyOnEncodings(id, frames[1..], n + 1);
      var items := Decoding(id, frames, n).items;
      assert items == [seen.x] + items[1..];
      NumberedMore(id, items, n);
      assert frames == [frames[0]] + frames[1..];
    } else {
      assert Numbered(id, [], n) == [];
    }
  }

  lemma NumberedMore(id: Text, items: seq<Value>, n: nat)
    requires items != []
    ensures Numbered(id, items, n) == [Frame(id, n + 1, ItemResult(items[0]))] + Numbered(id, items[1..], n + 1)
  {
    hide Frame, ItemResult;
  }

  /** However the records of one completed stream are dropped, repeated, reordered or
      cut off on the way, the reader ends normally only with all its items in order. */
  lemma NoFalseSuccess(id: Text, items: seq<Value>, received: seq<Value>)
    requires forall f :: f in received ==> f in Numbered(id, items, 0) + [Terminal(id, |items| + 1, Complete)]
    requires Decoding(id, received, 0).end.Done?
    ensures Decoding(id, received, 0).items == items
  {
    hide Decoding, Name;
    var got := Decoding(id, received, 0).items;
    CompletesOnlyOnEncodings(id, received, 0);
    var image := Numbered(id, got, 0) + [Terminal(id, |got| + 1, Complete)];
    assert received[|got|] == image[|got|] == Terminal(id, |got| + 1, Complete);
    assert received[|got|] in received;
    TerminalIsLast(id, items, |got| + 1);
    forall i | 0 <= i < |got|
      ensures got[i] == items[i]
    {
      assert received[i] == image[i] == Frame(id, i + 1, ItemResult(got[i]));
      assert received[i] in received;
      ItemIsItsOwn(id, items, i, got[i]);
    }
  }

  lemma TerminalIsLast(id: Text, items: seq<Value>, m: int)
    requires Terminal(id, m, Complete) in Numbered(id, items, 0) + [Terminal(id, |items| + 1, Complete)]
    ensures m == |items| + 1
  {
    hide Name;
    Distinct();
    forall i | 0 <= i < |items|
      ensures Numbered(id, items, 0)[i] != Terminal(id, m, Complete)
    {
      assert Field(Field(Numbered(id, items, 0)[i], "result").value, "kind") == Some(Str(Name("item")));
      assert Field(Field(Terminal(id, m, Complete), "result").value, "kind") == Some(Str(Name("complete")));
    }
    assert Field(Terminal(id, m, Complete), "sequence") == Some(Num(m));
    assert Field(Terminal(id, |items| + 1, Complete), "sequence") == Some(Num(|items| + 1));
  }

  lemma ItemIsItsOwn(id: Text, items: seq<Value>, i: nat, x: Value)
    requires Frame(id, i + 1, ItemResult(x)) in Numbered(id, items, 0) + [Terminal(id, |items| + 1, Complete)]
    ensures i < |items| && items[i] == x
  {
    hide Name;
    Distinct();
    var f := Frame(id, i + 1, ItemResult(x));
    assert Field(f, "sequence") == Some(Num(i + 1)) && Field(f, "result") == Some(ItemResult(x));
    assert Field(ItemResult(x), "kind") == Some(Str(Name("item"))) && Field(ItemResult(x), "value") == Some(x);
    var last := Terminal(id, |items| + 1, Complete);
    assert Field(Field(last, "result").value, "kind") == Some(Str(Name("complete")));
    var j :| 0 <= j < |items| && Numbered(id, items, 0)[j] == f;
    assert Field(Frame(id, j + 1, ItemResult(items[j])), "sequence") == Some(Num(j + 1));
    assert Field(Frame(id, j + 1, ItemResult(items[j])), "result") == Some(ItemResult(items[j]));
    assert Field(ItemResult(items[j]), "value") == Some(items[j]);
  }
}
