/** ACAP v1 values and their canonical text, written as plainly as possible: no
    budget, no visiting order, no cursor. */
module Values {
  import opened Core
  import opened Texts

  datatype Value =
    | Null
    | Bool(b: bool)
    | Num(n: int)
    | Str(s: Text)
    | Arr(items: seq<Value>)
    | Obj(fields: map<Text, Value>)

  const MAX_DEPTH: int := 32

  const QUOTE: Unit := 0x22
  const BACKSLASH: Unit := 0x5C
  const COMMA: Unit := 0x2C
  const COLON: Unit := 0x3A
  const OPEN_BRACKET: Unit := 0x5B
  const CLOSE_BRACKET: Unit := 0x5D
  const OPEN_BRACE: Unit := 0x7B
  const CLOSE_BRACE: Unit := 0x7D
  const MINUS: Unit := 0x2D
  const ZERO: Unit := 0x30

  const NULL_WORD: Text := [0x6E, 0x75, 0x6C, 0x6C]
  const TRUE_WORD: Text := [0x74, 0x72, 0x75, 0x65]
  const FALSE_WORD: Text := [0x66, 0x61, 0x6C, 0x73, 0x65]

  /** What `canonical` accepts, apart from size: safe integers, well-formed strings,
      ASCII keys, and at most 32 containers around anything. */
  predicate Fits(v: Value, depth: nat) {
    && depth <= MAX_DEPTH
    && match v
       case Null => true
       case Bool(_) => true
       case Num(n) => -MAX_SAFE <= n <= MAX_SAFE
       case Str(s) => WellFormed(s)
       case Arr(items) => forall x | x in items :: Fits(x, depth + 1)
       case Obj(fields) => forall k | k in fields :: IsAscii(k) && Fits(fields[k], depth + 1)
  }

  /** An ASCII name as text. */
  function Name(s: string): (t: Text)
    ensures |t| == |s| && IsAscii(t)
  {
    seq(|s|, i requires 0 <= i < |s| => s[i] as int % 0x80)
  }

  /** A property of an object, undefined when there is none. */
  function Field(v: Value, name: string): Option<Value> {
    if v.Obj? && Name(name) in v.fields then Some(v.fields[Name(name)]) else None
  }

  // ------------------------------------------------------------------- strings

  function HexDigit(d: nat): Unit
    requires d < 16
  {
    if d < 10 then 0x30 + d else 0x61 + d - 10
  }

  /** One unit as JSON.stringify writes it: the seven short escapes, lower-case
      \u00xx for the other controls, everything else literally. */
  function EscapeUnit(u: Unit): Text {
    if u == QUOTE then [BACKSLASH, QUOTE]
    else if u == BACKSLASH then [BACKSLASH, BACKSLASH]
    else if u == 8 then [BACKSLASH, 0x62]
    else if u == 9 then [BACKSLASH, 0x74]
    else if u == 10 then [BACKSLASH, 0x6E]
    else if u == 12 then [BACKSLASH, 0x66]
    else if u == 13 then [BACKSLASH, 0x72]
    else if u < 0x20 then [BACKSLASH, 0x75, 0x30, 0x30, HexDigit(u / 16), HexDigit(u % 16)]
    else [u]
  }

  /** The digits of a numbered escape are lower case, and tell the unit. */
  lemma ControlEscapes(u: Unit)
    requires u < 0x20 && |EscapeUnit(u)| == 6
    ensures
      var e := EscapeUnit(u);
      && e[..4] == [0x5C, 0x75, 0x30, 0x30]
      && (forall i :: 4 <= i < 6 ==> 0x30 <= e[i] <= 0x39 || 0x61 <= e[i] <= 0x66)
      && u == (e[4] - 0x30) * 16 + (if e[5] <= 0x39 then e[5] - 0x30 else e[5] - 0x57)
  {
  }

  function Escape(s: Text): Text {
    if s == [] then [] else EscapeUnit(s[0]) + Escape(s[1..])
  }

  function Quote(s: Text): Text {
    [QUOTE] + Escape(s) + [QUOTE]
  }

  // ------------------------------------------------------------------- numbers

  function Digits(n: nat): Text {
    if n < 10 then [ZERO + n] else Digits(n / 10) + [ZERO + n % 10]
  }

  function Decimal(n: int): Text {
    if n < 0 then [MINUS] + Digits(-n) else Digits(n)
  }

  // -------------------------------------------------------------------- values

  function Word(v: Value): Text
    requires v.Null? || v.Bool?
  {
    match v
    case Null => NULL_WORD
    case Bool(b) => if b then TRUE_WORD else FALSE_WORD
  }

  ghost function Print(v: Value): Text
    decreases v, 1, 0
  {
    match v
    case Null => NULL_WORD
    case Bool(b) => if b then TRUE_WORD else FALSE_WORD
    case Num(n) => Decimal(n)
    case Str(s) => Quote(s)
    case Arr(items) => [OPEN_BRACKET] + PrintItems(v, 0) + [CLOSE_BRACKET]
    case Obj(fields) => [OPEN_BRACE] + PrintFields(v, Sorted(fields.Keys), 0) + [CLOSE_BRACE]
  }

  /** The items from i on, with a comma before each but the very first. */
  ghost function PrintItems(v: Value, i: nat): Text
    requires v.Arr? && i <= |v.items|
    decreases v, 0, |v.items| - i
  {
    if i == |v.items| then []
    else (if i == 0 then [] else [COMMA]) + Print(v.items[i]) + PrintItems(v, i + 1)
  }

  ghost function PrintFields(v: Value, keys: seq<Text>, i: nat): Text
    requires v.Obj? && i <= |keys| && forall k :: k in keys ==> k in v.fields
    decreases v, 0, |keys| - i
  {
    if i == |keys| then []
    else
      assert keys[i] in keys;
      (if i == 0 then [] else [COMMA]) + Quote(keys[i]) + [COLON] + Print(v.fields[keys[i]]) + PrintFields(v, keys, i + 1)
  }
}
