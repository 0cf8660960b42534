/** The codec as the program runs it: a cursor that moves over the text, and a writer
    that spends a byte budget. Each method is tied to the plain functions it refines. */
module Codec {
  import opened Core
  import opened Texts
  import opened Utf8
  import opened Values
  import opened Printer
  import opened Parser
  import opened RoundTrip
  import opened Frames

  // ------------------------------------------------------------------- parse

  class Cursor {
    const text: Text
    var p: nat

    ghost predicate Valid()
      reads this
    {
      p <= |text|
    }

    ghost function Rest(): Text
      reads this
      requires Valid()
    {
      text[p..]
    }

    constructor (t: Text)
      ensures text == t && p == 0
    {
      text := t;
      p := 0;
    }

    method SkipWs()
      requires Valid()
      modifies this
      ensures Valid() && p >= old(p) && Rest() == SkipSpace(old(Rest()))
    {
      while p < |text| && IsSpace(text[p])
        invariant Valid() && p >= old(p) && SkipSpace(Rest()) == SkipSpace(old(Rest()))
      {
        assert Rest()[1..] == text[p + 1..];
        p := p + 1;
      }
    }

    method At(u: Unit) returns (yes: bool)
      requires Valid()
      ensures yes == StartsWith(Rest(), u)
    {
      yes := p < |text| && text[p] == u;
    }

    /** Moves over `u` if it comes next. */
    method Take(u: Unit) returns (yes: bool)
      requires Valid()
      modifies this
      ensures Valid() && yes == StartsWith(old(Rest()), u)
      ensures if yes then p == old(p) + 1 && Rest() == old(Rest())[1..] else p == old(p)
    {
      yes := At(u);
      if yes {
        p := p + 1;
      }
    }

    /** What a method leaves behind when the function says `r`: the same value and the
        cursor at the same rest, or the same error. */
    ghost predicate Follows<T(!new)>(r: Result<(T, Text)>, got: Result<T>)
      reads this
    {
      match r
      case Ok((x, rest)) => got == Ok(x) && Valid() && Rest() == rest
      case Err(code) => got == Err(code)
    }

    method Str() returns (r: Result<Text>)
      requires Valid() && StartsWith(Rest(), QUOTE)
      modifies this
      ensures Follows(ParseString(old(Rest())), r)
    {
      hide Unescape, WellFormed, ScanEnd;
      var start := p;
      ghost var inside := Rest()[1..];
      assert inside == text[start + 1..];
      NoQuoteLeft([]);
      ShiftNone(ScanEnd(inside));
      p := p + 1;
      while p < |text|
        invariant start < p && p - start - 1 <= |inside| + 1
        invariant p <= |text| ==> ScanEnd(inside) == Shift(ScanEnd(text[p..]), p - start - 1)
        invariant p > |text| ==> ScanEnd(inside) == None
      {
        var c := text[p];
        ScanOne(text[p..]);
        assert text[p..][1..] == text[p + 1..];
        assert p + 2 <= |text| ==> text[p..][2..] == text[p + 2..];
        p := p + 1;
        if c == QUOTE {
          ghost var n := p - 1 - start - 1;
          assert inside[..n] == text[start + 1..p - 1];
          assert old(Rest())[n + 2..] == text[p..];
          var s := Unescape(text[start + 1..p - 1]);
          return if s.Some? && WellFormed(s.value) then Ok(s.value) else Err(INVALID_ARGUMENT);
        }
        if c == BACKSLASH {
          p := p + 1;
        }
      }
      assert p == |text| ==> text[p..] == [];
      r := Err(INVALID_ARGUMENT);
    }

    method Word(word: Text) returns (yes: bool)
      requires Valid()
      modifies this
      ensures Valid() && yes == StartsWithWord(old(Rest()), word)
      ensures if yes then p == old(p) + |word| && Rest() == old(Rest())[|word|..] else p == old(p)
    {
      yes := p + |word| <= |text| && text[p..p + |word|] == word;
      if p + |word| <= |text| {
        assert Rest()[..|word|] == text[p..p + |word|];
      }
      if yes {
        p := p + |word|;
      }
    }

    method Scalar() returns (r: Result<Value>)
      requires Valid()
      modifies this
      ensures Follows(ParseScalar(old(Rest())), r)
    {
      hide ParseNumber;
      var yes := Word(TRUE_WORD);
      if yes {
        return Ok(Bool(true));
      }
      yes := Word(FALSE_WORD);
      if yes {
        return Ok(Bool(false));
      }
      yes := Word(NULL_WORD);
      if yes {
        return Ok(Null);
      }
      match ParseNumber(text[p..])
      case None => r := Err(INVALID_ARGUMENT);
      case Some((n, rest)) =>
        NumberIsPrefix(text[p..]);
        assert rest == text[|text| - |rest|..];
        p := |text| - |rest|;
        r := if -MAX_SAFE <= n <= MAX_SAFE then Ok(Num(n)) else Err(INVALID_ARGUMENT);
    }

    /** `value`. */
    method ReadValue(depth: nat) returns (r: Result<Value>)
      requires Valid()
      modifies this
      ensures Follows(ParseValue(old(Rest()), depth), r)
      ensures r.Ok? ==> p > old(p)
      decreases |text| - p, 0
    {
      hide SkipSpace, ParseString, ParseScalar, ParseItems, ParseFields;
      if depth > MAX_DEPTH {
        return Err(RESOURCE_EXHAUSTED);
      }
      SkipWs();
      var yes := At(QUOTE);
      if yes {
        var s := Str();
        return if s.Ok? then Ok(Value.Str(s.value)) else Err(s.code);
      }
      yes := Take(OPEN_BRACE);
      if yes {
        SkipWs();
        yes := Take(CLOSE_BRACE);
        if yes {
          return Ok(Obj(map[]));
        }
        r := Members(true, depth);
        return;
      }
      yes := Take(OPEN_BRACKET);
      if yes {
        SkipWs();
        yes := Take(CLOSE_BRACKET);
        if yes {
          return Ok(Arr([]));
        }
        r := Members(false, depth);
        return;
      }
      r := Scalar();
    }

    /** The loop that fills an object or an array. */
    method Members(isObject: bool, depth: nat) returns (r: Result<Value>)
      requires Valid()
      modifies this
      ensures Follows(if isObject then ParseFields(old(Rest()), depth, map[]) else ParseItems(old(Rest()), depth, []), r)
      decreases |text| - p, 1
    {
      hide SkipSpace, ParseString, ParseValue;
      var items: seq<Value> := [];
      var fields: map<Text, Value> := map[];
      while true
        invariant Valid() && p >= old(p)
        invariant isObject ==> ParseFields(Rest(), depth, fields) == ParseFields(old(Rest()), depth, map[])
        invariant !isObject ==> ParseItems(Rest(), depth, items) == ParseItems(old(Rest()), depth, [])
        decreases |text| - p
      {
        SkipWs();
        if isObject {
          var yes := At(QUOTE);
          if !yes {
            return Err(INVALID_ARGUMENT);
          }
          var k := Str();
          if k.Err? {
            return Err(k.code);
          }
          if !(IsAscii(k.value) && k.value !in fields) {
            return Err(INVALID_ARGUMENT);
          }
          SkipWs();
          yes := Take(COLON);
          if !yes {
            return Err(INVALID_ARGUMENT);
          }
          var x := ReadValue(depth + 1);
          if x.Err? {
            return Err(x.code);
          }
          fields := fields[k.value := x.value];
        } else {
          var x := ReadValue(depth + 1);
          if x.Err? {
            return Err(x.code);
          }
          items := items + [x.value];
        }
        SkipWs();
        var close := Take(if isObject then CLOSE_BRACE else CLOSE_BRACKET);
        if close {
          return Ok(if isObject then Obj(fields) else Arr(items));
        }
        var more := Take(COMMA);
        if !more {
          return Err(INVALID_ARGUMENT);
        }
      }
    }
  }

  lemma NoQuoteLeft(t: Text)
    requires t == []
    ensures ScanEnd(t) == None
  {
  }

  lemma ShiftNone(r: Option<nat>)
    ensures Shift(r, 0) == r
  {
  }

  /** One character, or an escaped pair, nearer to the closing quote. */
  lemma ScanOne(t: Text)
    requires t != []
    ensures t[0] == QUOTE ==> ScanEnd(t) == Some(0)
    ensures t[0] != QUOTE && t[0] != BACKSLASH ==> ScanEnd(t) == Shift(ScanEnd(t[1..]), 1)
    ensures t[0] == BACKSLASH ==> ScanEnd(t) == if |t| < 2 then None else Shift(ScanEnd(t[2..]), 2)
  {
  }

  lemma NumberIsPrefix(t: Text)
    requires ParseNumber(t).Some?
    ensures
      var rest := ParseNumber(t).value.1;
      rest == t[|t| - |rest|..]
  {
  }

  method ParseText(t: Text, max: nat) returns (r: Result<Value>)
    ensures r == Parse(t, max)
  {
    if ByteLen(t) > max {
      return Err(RESOURCE_EXHAUSTED);
    }
    var cursor := new Cursor(t);
    assert cursor.Rest() == t;
    r := cursor.ReadValue(0);
    if r.Err? {
      return;
    }
    cursor.SkipWs();
    if cursor.p != |t| {
      r := Err(INVALID_ARGUMENT);
    }
  }

  // --------------------------------------------------------------- canonical

  /** Text already written, followed by whatever the rest of the walk gives. */
  ghost function After(done: Text, rest: Result<(Text, nat)>): Result<(Text, nat)> {
    match rest
    case Ok((t, used)) => Ok((done + t, used))
    case Err(code) => Err(code)
  }

  class Writer {
    const max: nat
    var used: nat

    constructor (limit: nat)
      ensures max == limit && used == 0
    {
      max := limit;
      used := 0;
    }

    /** The text and the budget the function gives, or its error. */
    ghost predicate Follows(r: Result<(Text, nat)>, got: Result<Text>)
      reads this
    {
      match r
      case Ok((t, total)) => got == Ok(t) && used == total <= max
      case Err(code) => got == Err(code)
    }

    method Emit(piece: Text) returns (r: Result<Text>)
      modifies this
      ensures Follows(Printer.Emit(old(used), piece, max), r)
    {
      used := used + ByteLen(piece);
      r := if used <= max then Ok(piece) else Err(RESOURCE_EXHAUSTED);
    }

    method EmitComma(i: nat) returns (r: Result<Text>)
      requires used <= max
      modifies this
      ensures Follows(Printer.Emit(old(used), Comma(i), max), r)
    {
      hide ByteLen;
      r := Ok([]);
      EmptyLength();
      if i > 0 {
        r := Emit([COMMA]);
      }
    }

    /** `walk`. */
    method Write(v: Value, depth: nat) returns (r: Result<Text>)
      requires used <= max
      modifies this
      ensures Follows(Walk(v, depth, old(used), max), r)
      decreases v, 1
    {
      hide ByteLen, WellFormed, Quote, Decimal;
      if depth > MAX_DEPTH {
        return Err(RESOURCE_EXHAUSTED);
      }
      match v
      case Null => r := Emit(NULL_WORD);
      case Bool(b) => r := Emit(if b then TRUE_WORD else FALSE_WORD);
      case Num(n) =>
        if -MAX_SAFE <= n <= MAX_SAFE {
          r := Emit(Decimal(n));
        } else {
          r := Err(INVALID_ARGUMENT);
        }
      case Str(s) =>
        if !WellFormed(s) {
          r := Err(INVALID_ARGUMENT);
        } else if |s| > max {
          r := Err(RESOURCE_EXHAUSTED);
        } else {
          r := Emit(Quote(s));
        }
      case Arr(_) => r := WriteArray(v, depth);
      case Obj(_) => r := WriteObject(v, depth);
    }

    method WriteArray(v: Value, depth: nat) returns (r: Result<Text>)
      requires v.Arr? && depth <= MAX_DEPTH && used <= max
      modifies this
      ensures Follows(Walk(v, depth, old(used), max), r)
      decreases v, 0
    {
      hide ByteLen;
      if |v.items| > max {
        return Err(RESOURCE_EXHAUSTED);
      }
      var head := Emit([OPEN_BRACKET]);
      if head.Err? {
        return head;
      }
      ghost var start := used;
      var out: Text := [];
      var i := 0;
      AfterNothing(WalkItems(v, 0, depth, start, max));
      while i < |v.items|
        invariant i <= |v.items| && used <= max
        invariant WalkItems(v, 0, depth, start, max) == After(out, WalkItems(v, i, depth, used, max))
      {
        hide Walk;
        ghost var done := out;
        var comma := EmitComma(i);
        if comma.Err? {
          return comma;
        }
        out := out + comma.value;
        var item := Write(v.items[i], depth + 1);
        if item.Err? {
          return item;
        }
        out := out + item.value;
        AfterConcat(done, Comma(i), item.value, WalkItems(v, i + 1, depth, used, max));
        i := i + 1;
      }
      assert out + [] == out;
      var tail := Emit([CLOSE_BRACKET]);
      r := if tail.Ok? then Ok(head.value + out + tail.value) else tail;
    }

    method WriteObject(v: Value, depth: nat) returns (r: Result<Text>)
      requires v.Obj? && depth <= MAX_DEPTH && used <= max
      modifies this
      ensures Follows(Walk(v, depth, old(used), max), r)
      decreases v, 0
    {
      hide ByteLen, Quote, IsAscii, Sorted, Precedes;
      var head := Emit([OPEN_BRACE]);
      if head.Err? {
        return head;
      }
      ghost var start := used;
      var keys := SortKeys(v.fields.Keys);
      var out: Text := [];
      var i := 0;
      AfterNothing(WalkFields(v, keys, 0, depth, start, max));
      while i < |keys|
        invariant i <= |keys| && used <= max
        invariant WalkFields(v, keys, 0, depth, start, max) == After(out, WalkFields(v, keys, i, depth, used, max))
      {
        hide Walk;
        ghost var done := out;
        assert keys[i] in keys;
        if !IsAscii(keys[i]) {
          return Err(INVALID_ARGUMENT);
        }
        var lead := EmitLead(keys, i);
        if lead.Err? {
          return lead;
        }
        out := out + lead.value;
        var item := Write(v.fields[keys[i]], depth + 1);
        if item.Err? {
          return item;
        }
        out := out + item.value;
        AfterConcat(done, lead.value, item.value, WalkFields(v, keys, i + 1, depth, used, max));
        i := i + 1;
      }
      assert out + [] == out;
      var tail := Emit([CLOSE_BRACE]);
      r := if tail.Ok? then Ok(head.value + out + tail.value) else tail;
    }

    /** The comma, the key and the colon before a field. */
    method EmitLead(keys: seq<Text>, i: nat) returns (r: Result<Text>)
      requires i < |keys| && used <= max
      modifies this
      ensures
        match ChargeLead(keys, i, old(used), max)
        case Ok(total) => r == Ok(Lead(keys, i)) && used == total
        case Err(code) => r == Err(code)
    {
      hide ByteLen, Quote;
      r := EmitComma(i);
      if r.Err? {
        return;
      }
      var quoted := Emit(Quote(keys[i]));
      if quoted.Err? {
        return quoted;
      }
      var colon := Emit([COLON]);
      if colon.Err? {
        return colon;
      }
      r := Ok(r.value + quoted.value + colon.value);
    }
  }

  lemma EmptyLength()
    ensures ByteLen([]) == 0
  {
  }

  lemma AfterNothing(r: Result<(Text, nat)>)
    ensures After([], r) == r
  {
    if r.Ok? {
      assert [] + r.value.0 == r.value.0;
    }
  }

  lemma AfterConcat(a: Text, b: Text, c: Text, r: Result<(Text, nat)>)
    ensures After(a, After(b + c, r)) == After(a + b + c, r)
  {
    if r.Ok? {
      assert a + (b + c + r.value.0) == a + b + c + r.value.0;
    }
  }

  // -------------------------------------------------------------------- keys

  lemma InsertIncreases(r: seq<Text>, k: Text, i: nat)
    requires Increasing(r) && i <= |r|
    requires forall j :: 0 <= j < i ==> Less(r[j], k)
    requires i < |r| ==> Less(k, r[i])
    ensures Increasing(r[..i] + [k] + r[i..])
  {
    hide Less;
    var s := r[..i] + [k] + r[i..];
    forall a: nat, b: nat | a < b < |s|
      ensures Less(s[a], s[b])
    {
      if a == i && b > i + 1 {
        LessTrans(k, r[i], r[b - 1]);
      }
    }
  }

  /** Object.keys(...).sort(). */
  method SortKeys(keys: set<Text>) returns (r: seq<Text>)
    ensures r == Sorted(keys)
    ensures forall i: nat, j: nat :: i < j < |r| ==> Precedes(r[i], r[j])
  {
    hide Less, Sorted, Precedes;
    SortedByUnits(keys);
    r := [];
    var left := keys;
    while left != {}
      invariant left <= keys && Increasing(r)
      invariant forall k :: k in r <==> k in keys - left
      decreases |left|
    {
      var k :| k in left;
      var i := 0;
      while i < |r| && Less(r[i], k)
        invariant i <= |r|
        invariant forall j :: 0 <= j < i ==> Less(r[j], k)
      {
        i := i + 1;
      }
      if i < |r| {
        LessTotal(r[i], k);
        assert r[i] in r;
      }
      InsertIncreases(r, k, i);
      assert forall x :: x in r[..i] + [k] + r[i..] <==> x in r || x == k by {
        assert r == r[..i] + r[i..];
      }
      r := r[..i] + [k] + r[i..];
      left := left - {k};
    }
    IncreasingIsSorted(r, keys);
  }

  method Print(v: Value, max: nat) returns (r: Result<Text>)
    ensures r == Canonical(v, max)
  {
    var writer := new Writer(max);
    r := writer.Write(v, 0);
  }

  // ------------------------------------------------------------------ frames

  /** `body`. */
  method ReadBody(b: seq<Byte>, max: nat) returns (r: Result<Value>)
    ensures r == Body(b, max)
  {
    if |b| > max {
      return Err(RESOURCE_EXHAUSTED);
    }
    var t := DecodeText(b);
    if t.None? {
      return Err(INVALID_ARGUMENT);
    }
    r := ParseText(t.value, max);
    if r.Err? {
      return;
    }
    var c := Print(r.value, max);
    if c.Err? {
      return Err(c.code);
    }
    if Encode(c.value) != b {
      return Err(INVALID_ARGUMENT);
    }
  }

  /** `decodeBody`. */
  method ReadFrame(b: seq<Byte>, schema: Schema) returns (r: Result<Value>)
    ensures r == DecodeBody(b, schema)
  {
    if !(0 < |b| <= MAX_FRAME) {
      return Err(RESOURCE_EXHAUSTED);
    }
    r := ReadBody(b, MAX_FRAME);
    if r.Ok? && schema(r.value).Some? {
      r := Err(schema(r.value).value);
    }
  }

  /** `encodeFrame`. */
  method WriteFrame(v: Value, schema: Schema) returns (r: Result<seq<Byte>>)
    ensures r == EncodeFrame(v, schema)
  {
    var t := Print(v, MAX_FRAME);
    if t.Err? {
      return Err(t.code);
    }
    var again := ParseText(t.value, MAX_FRAME);
    if again.Err? {
      return Err(again.code);
    }
    if schema(again.value).Some? {
      return Err(schema(again.value).value);
    }
    r := Ok(Packet(Encode(t.value)));
  }
}
