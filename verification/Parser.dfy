/** `parse`, as a recursive descent over what is left of the text. */
module Parser {
  import opened Core
  import opened Texts
  import opened Values

  predicate IsSpace(u: Unit) {
    u == 0x20 || u == 9 || u == 10 || u == 13
  }

  function SkipSpace(t: Text): (r: Text)
    ensures |r| <= |t|
  {
    if t != [] && IsSpace(t[0]) then SkipSpace(t[1..]) else t
  }

  predicate StartsWith(t: Text, u: Unit) {
    t != [] && t[0] == u
  }

  // ------------------------------------------------------------------- strings

  /** Where the literal whose opening quote was just read ends: the first quote that
      no backslash precedes. */
  function ScanEnd(t: Text): (r: Option<nat>)
    ensures r.Some? ==> r.value < |t| && t[r.value] == QUOTE
  {
    if t == [] then None
    else if t[0] == QUOTE then Some(0)
    else
      var step := if t[0] == BACKSLASH then 2 else 1;
      if |t| < step then None
      else match ScanEnd(t[step..])
        case None => None
        case Some(n) => Some(n + step)
  }

  function HexValue(u: Unit): Option<nat> {
    if 0x30 <= u <= 0x39 then Some(u - 0x30)
    else if 0x61 <= u <= 0x66 then Some(u - 0x61 + 10)
    else if 0x41 <= u <= 0x46 then Some(u - 0x41 + 10)
    else None
  }

  function ShortEscape(u: Unit): Option<Unit> {
    if u == QUOTE || u == BACKSLASH || u == 0x2F then Some(u)
    else if u == 0x62 then Some(8)
    else if u == 0x66 then Some(12)
    else if u == 0x6E then Some(10)
    else if u == 0x72 then Some(13)
    else if u == 0x74 then Some(9)
    else None
  }

  function Hex4(t: Text): Option<Unit>
    requires |t| >= 4
  {
    match (HexValue(t[0]), HexValue(t[1]), HexValue(t[2]), HexValue(t[3]))
    case (Some(a), Some(b), Some(c), Some(d)) =>
      var n := ((a * 16 + b) * 16 + c) * 16 + d;
      if n < 0x10000 then Some(n) else None
    case _ => None
  }

  /** What JSON.parse makes of the characters between the quotes. */
  function Unescape(t: Text): Option<Text> {
    if t == [] then Some([])
    else if t[0] < 0x20 || t[0] == QUOTE then None
    else if t[0] != BACKSLASH then
      match Unescape(t[1..])
      case None => None
      case Some(rest) => Some([t[0]] + rest)
    else if |t| >= 2 && ShortEscape(t[1]).Some? then
      match Unescape(t[2..])
      case None => None
      case Some(rest) => Some([ShortEscape(t[1]).value] + rest)
    else if |t| >= 6 && t[1] == 0x75 && Hex4(t[2..6]).Some? then
      match Unescape(t[6..])
      case None => None
      case Some(rest) => Some([Hex4(t[2..6]).value] + rest)
    else None
  }

  /** `str`, at an opening quote. */
  function ParseString(t: Text): (r: Result<(Text, Text)>)
    requires StartsWith(t, QUOTE)
    ensures r.Ok? ==> |r.value.1| < |t|
  {
    match ScanEnd(t[1..])
    case None => Err(INVALID_ARGUMENT)
    case Some(n) =>
      match Unescape(t[1..][..n])
      case None => Err(INVALID_ARGUMENT)
      case Some(s) => if WellFormed(s) then Ok((s, t[n + 2..])) else Err(INVALID_ARGUMENT)
  }

  // ------------------------------------------------------------------- numbers

  predicate IsDigit(u: Unit) {
    ZERO <= u <= ZERO + 9
  }

  function DigitRun(t: Text): (n: nat)
    ensures n <= |t|
    ensures forall i :: 0 <= i < n ==> IsDigit(t[i])
    ensures n < |t| ==> !IsDigit(t[n])
  {
    if t != [] && IsDigit(t[0]) then 1 + DigitRun(t[1..]) else 0
  }

  function Numeral(t: Text): nat
    requires forall i :: 0 <= i < |t| ==> IsDigit(t[i])
  {
    if t == [] then 0
    else
      assert IsDigit(t[|t| - 1]);
      Numeral(t[..|t| - 1]) * 10 + (t[|t| - 1] - ZERO)
  }

  /** The longest prefix matching -?(0|[1-9][0-9]*), and its value. */
  function ParseNumber(t: Text): (r: Option<(int, Text)>)
    ensures r.Some? ==> |r.value.1| < |t|
  {
    var u := if StartsWith(t, MINUS) then t[1..] else t;
    if u == [] || !IsDigit(u[0]) then None
    else
      var n := if u[0] == ZERO then 1 else DigitRun(u);
      var magnitude: int := Numeral(u[..n]);
      Some((if StartsWith(t, MINUS) then -magnitude else magnitude, u[n..]))
  }

  // -------------------------------------------------------------------- values

  predicate StartsWithWord(t: Text, word: Text) {
    |word| <= |t| && t[..|word|] == word
  }

  function ParseScalar(t: Text): (r: Result<(Value, Text)>)
    ensures r.Ok? ==> |r.value.1| < |t|
  {
    if StartsWithWord(t, TRUE_WORD) then Ok((Bool(true), t[4..]))
    else if StartsWithWord(t, FALSE_WORD) then Ok((Bool(false), t[5..]))
    else if StartsWithWord(t, NULL_WORD) then Ok((Null, t[4..]))
    else match ParseNumber(t)
      case None => Err(INVALID_ARGUMENT)
      case Some((n, rest)) => if -MAX_SAFE <= n <= MAX_SAFE then Ok((Num(n), rest)) else Err(INVALID_ARGUMENT)
  }

  function ParseValue(t0: Text, depth: nat): (r: Result<(Value, Text)>)
    ensures r.Ok? ==> |r.value.1| < |t0|
    decreases |t0|, 0
  {
    if depth > MAX_DEPTH then Err(RESOURCE_EXHAUSTED)
    else
      var t := SkipSpace(t0);
      if StartsWith(t, QUOTE) then
        var lit :- ParseString(t);
        Ok((Str(lit.0), lit.1))
      else if StartsWith(t, OPEN_BRACE) then
        var u := SkipSpace(t[1..]);
        if StartsWith(u, CLOSE_BRACE) then Ok((Obj(map[]), u[1..])) else ParseFields(u, depth, map[])
      else if StartsWith(t, OPEN_BRACKET) then
        var u := SkipSpace(t[1..]);
        if StartsWith(u, CLOSE_BRACKET) then Ok((Arr([]), u[1..])) else ParseItems(u, depth, [])
      else ParseScalar(t)
  }

  /** One turn of the loop that fills an array. */
  function ParseItems(t0: Text, depth: nat, done: seq<Value>): (r: Result<(Value, Text)>)
    ensures r.Ok? ==> |r.value.1| < |t0|
    decreases |t0|, 1
  {
    var item :- ParseValue(SkipSpace(t0), depth + 1);
    var u := SkipSpace(item.1);
    if StartsWith(u, CLOSE_BRACKET) then Ok((Arr(done + [item.0]), u[1..]))
    else if StartsWith(u, COMMA) then ParseItems(u[1..], depth, done + [item.0])
    else Err(INVALID_ARGUMENT)
  }

  /** One turn of the loop that fills an object. */
  function ParseFields(t0: Text, depth: nat, done: map<Text, Value>): (r: Result<(Value, Text)>)
    ensures r.Ok? ==> |r.value.1| < |t0|
    decreases |t0|, 1
  {
    var t := SkipSpace(t0);
    if !StartsWith(t, QUOTE) then Err(INVALID_ARGUMENT)
    else
      var key :- ParseString(t);
      if !IsAscii(key.0) || key.0 in done then Err(INVALID_ARGUMENT)
      else
        var u := SkipSpace(key.1);
        if !StartsWith(u, COLON) then Err(INVALID_ARGUMENT)
        else
          var item :- ParseValue(u[1..], depth + 1);
          var w := SkipSpace(item.1);
          var now := done[key.0 := item.0];
          if StartsWith(w, CLOSE_BRACE) then Ok((Obj(now), w[1..]))
          else if StartsWith(w, COMMA) then ParseFields(w[1..], depth, now)
          else Err(INVALID_ARGUMENT)
  }

  function Parse(t: Text, max: nat): Result<Value> {
    if ByteLen(t) > max then Err(RESOURCE_EXHAUSTED)
    else
      var out :- ParseValue(t, 0);
      if SkipSpace(out.1) == [] then Ok(out.0) else Err(INVALID_ARGUMENT)
  }
}
