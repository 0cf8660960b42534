/** UTF-8 (section 3 of RFC 3629) in both directions: Buffer.from(text) and a fatal
    TextDecoder. */
module Utf8 {
  import opened Core
  import opened Texts

  type Byte = b: int | 0 <= b < 256

  function EncodeUnit(u: Unit): seq<Byte> {
    if u < 0x80 then [u]
    else if u < 0x800 then [0xC0 + u / 64, 0x80 + u % 64]
    else [0xE0 + u / 4096, 0x80 + u / 64 % 64, 0x80 + u % 64]
  }

  function EncodePair(hi: Unit, lo: Unit): seq<Byte>
    requires IsHigh(hi) && IsLow(lo)
  {
    var c := 0x10000 + (hi - 0xD800) * 1024 + (lo - 0xDC00);
    [0xF0 + c / 262144, 0x80 + c / 4096 % 64, 0x80 + c / 64 % 64, 0x80 + c % 64]
  }

  const REPLACEMENT: Unit := 0xFFFD

  function Encode(t: Text): seq<Byte> {
    if t == [] then []
    else if IsHigh(t[0]) && |t| > 1 && IsLow(t[1]) then EncodePair(t[0], t[1]) + Encode(t[2..])
    else EncodeUnit(if IsHigh(t[0]) || IsLow(t[0]) then REPLACEMENT else t[0]) + Encode(t[1..])
  }

  lemma {:induction false} EncodeLength(t: Text)
    ensures |Encode(t)| == ByteLen(t)
    decreases |t|
  {
    if t != [] {
      if IsHigh(t[0]) && |t| > 1 && IsLow(t[1]) {
        EncodeLength(t[2..]);
      } else {
        EncodeLength(t[1..]);
      }
    }
  }

  /** Half a pair by itself is written as U+FFFD. */
  lemma LoneHalf(u: Unit)
    requires IsHigh(u) || IsLow(u)
    ensures Encode([u]) == [0xEF, 0xBF, 0xBD]
  {
    assert [u][1..] == [];
  }

  predicate IsTrail(b: Byte) {
    0x80 <= b < 0xC0
  }

  function Join2(a: int, b: int): int {
    (a - 0xC0) * 64 + (b - 0x80)
  }

  function Join3(a: int, b: int, c: int): int {
    (a - 0xE0) * 4096 + (b - 0x80) * 64 + (c - 0x80)
  }

  function Join4(a: int, b: int, c: int, d: int): int {
    (a - 0xF0) * 262144 + (b - 0x80) * 4096 + (c - 0x80) * 64 + (d - 0x80)
  }

  /** The first code point, as one or two units, and how many bytes it took; None on
      anything a fatal decoder rejects. */
  function DecodeFirst(b: seq<Byte>): (r: Option<(Text, nat)>)
    requires b != []
    ensures r.Some? ==> 1 <= r.value.1 <= |b|
  {
    var lead: int := b[0];
    if lead < 0x80 then Some(([lead], 1))
    else if 0xC2 <= b[0] < 0xE0 && |b| >= 2 && IsTrail(b[1]) then
      Some(([Join2(b[0], b[1])], 2))
    else if 0xE0 <= b[0] < 0xF0 && |b| >= 3 && IsTrail(b[1]) && IsTrail(b[2]) then
      var u := Join3(b[0], b[1], b[2]);
      if u < 0x800 || IsHigh(u) || IsLow(u) then None else Some(([u], 3))
    else if 0xF0 <= b[0] < 0xF5 && |b| >= 4 && IsTrail(b[1]) && IsTrail(b[2]) && IsTrail(b[3]) then
      var c := Join4(b[0], b[1], b[2], b[3]);
      if c < 0x10000 || c >= 0x110000 then None
      else Some(([0xD800 + (c - 0x10000) / 1024, 0xDC00 + (c - 0x10000) % 1024], 4))
    else None
  }

  function Decode(b: seq<Byte>): Option<Text> {
    if b == [] then Some([])
    else match DecodeFirst(b)
      case None => None
      case Some((units, n)) =>
        match Decode(b[n..])
        case None => None
        case Some(rest) => Some(units + rest)
  }

  lemma DecodeUnit(u: Unit, rest: seq<Byte>)
    requires !IsHigh(u) && !IsLow(u)
    ensures DecodeFirst(EncodeUnit(u) + rest) == Some(([u], |EncodeUnit(u)|))
  {
    var b := EncodeUnit(u) + rest;
    if 0x800 <= u {
      var a, c := u / 64, u % 64;
      assert u == a * 64 + c && a == a / 64 * 64 + a % 64;
      assert u / 4096 == a / 64;
      assert b[0] == 0xE0 + a / 64 && b[1] == 0x80 + a % 64 && b[2] == 0x80 + c;
    }
  }

  lemma DecodePair(hi: Unit, lo: Unit, rest: seq<Byte>)
    requires IsHigh(hi) && IsLow(lo)
    ensures DecodeFirst(EncodePair(hi, lo) + rest) == Some(([hi, lo], 4))
  {
    var c := 0x10000 + (hi - 0xD800) * 1024 + (lo - 0xDC00);
    var b := EncodePair(hi, lo) + rest;
    SixBits(c);
    assert (c - 0x10000) / 1024 == hi - 0xD800 && (c - 0x10000) % 1024 == lo - 0xDC00;
    assert Join4(b[0], b[1], b[2], b[3]) == c;
  }

  lemma SixBits(c: int)
    requires 0x10000 <= c < 0x110000
    ensures c / 262144 * 262144 + c / 4096 % 64 * 4096 + c / 64 % 64 * 64 + c % 64 == c
    ensures 0 <= c / 262144 <= 4
  {
    var x, y := c / 64, c / 4096;
    assert c == x * 64 + c % 64 && x == y * 64 + x % 64 && y == c / 262144 * 64 + y % 64;
  }

  lemma {:induction false} DecodeUndoes(t: Text)
    requires WellFormed(t)
    ensures Decode(Encode(t)) == Some(t)
    decreases |t|
  {
    if t != [] {
      var b := Encode(t);
      if IsHigh(t[0]) {
        DecodeUndoes(t[2..]);
        DecodePair(t[0], t[1], Encode(t[2..]));
        assert b[4..] == Encode(t[2..]);
        assert t == [t[0], t[1]] + t[2..];
      } else {
        DecodeUndoes(t[1..]);
        DecodeUnit(t[0], Encode(t[1..]));
        assert b[|EncodeUnit(t[0])|..] == Encode(t[1..]);
        assert t == [t[0]] + t[1..];
      }
    }
  }

  lemma EncodeFour(b: seq<Byte>)
    requires b != [] && DecodeFirst(b).Some? && 0xF0 <= b[0]
    ensures
      var (units, n) := DecodeFirst(b).value;
      |units| == 2 && IsHigh(units[0]) && IsLow(units[1]) && EncodePair(units[0], units[1]) == b[..n]
  {
    var c := Join4(b[0], b[1], b[2], b[3]);
    var hi, lo := 0xD800 + (c - 0x10000) / 1024, 0xDC00 + (c - 0x10000) % 1024;
    assert 0x10000 + (hi - 0xD800) * 1024 + (lo - 0xDC00) == c;
    FourDigits(c, b[0] - 0xF0, b[1] - 0x80, b[2] - 0x80, b[3] - 0x80);
  }

  lemma EncodeFirst(b: seq<Byte>)
    requires b != [] && DecodeFirst(b).Some?
    ensures
      var (units, n) := DecodeFirst(b).value;
      || (|units| == 1 && !IsHigh(units[0]) && !IsLow(units[0]) && EncodeUnit(units[0]) == b[..n])
      || (|units| == 2 && IsHigh(units[0]) && IsLow(units[1]) && EncodePair(units[0], units[1]) == b[..n])
  {
    if 0xF0 <= b[0] {
      hide DecodeFirst, EncodeUnit, EncodePair, Join3, Join4;
      EncodeFour(b);
    } else if 0xE0 <= b[0] {
      var u := Join3(b[0], b[1], b[2]);
      FourDigits(u, 0, b[0] - 0xE0, b[1] - 0x80, b[2] - 0x80);
    }
  }

  lemma FourDigits(c: int, p: int, q: int, r: int, s: int)
    requires 0 <= p && 0 <= q < 64 && 0 <= r < 64 && 0 <= s < 64
    requires c == p * 262144 + q * 4096 + r * 64 + s
    ensures c % 64 == s && c / 64 % 64 == r && c / 4096 % 64 == q && c / 262144 == p
    ensures p == 0 ==> c / 4096 == q
  {
    assert c / 64 == p * 4096 + q * 64 + r;
    assert c / 4096 == p * 64 + q;
  }

  lemma EncodeCons(units: Text, rest: Text)
    requires WellFormed(rest)
    requires (|units| == 1 && !IsHigh(units[0]) && !IsLow(units[0])) || (|units| == 2 && IsHigh(units[0]) && IsLow(units[1]))
    ensures WellFormed(units + rest)
    ensures Encode(units + rest) ==
            (if |units| == 1 then EncodeUnit(units[0]) else EncodePair(units[0], units[1])) + Encode(rest)
  {
    hide EncodeUnit, EncodePair;
    assert (units + rest)[|units|..] == rest;
  }

  /** A fatal decoder accepts exactly the encodings of well-formed texts. */
  lemma {:induction false} DecodeIsInverse(b: seq<Byte>)
    ensures Decode(b).Some? ==> WellFormed(Decode(b).value) && Encode(Decode(b).value) == b
    decreases |b|
  {
    hide DecodeFirst, EncodeUnit, EncodePair, WellFormed;
    if b == [] {
      EmptyText();
    } else if DecodeFirst(b).Some? {
      var (units, n) := DecodeFirst(b).value;
      DecodeIsInverse(b[n..]);
      if Decode(b[n..]).Some? {
        EncodeFirst(b);
        EncodeCons(units, Decode(b[n..]).value);
        assert b == b[..n] + b[n..];
      }
    }
  }

  lemma EmptyText()
    ensures WellFormed([]) && Encode([]) == []
  {
  }

  /** new TextDecoder('utf-8', { fatal: true }): a byte order mark is swallowed. */
  function DecodeText(b: seq<Byte>): Option<Text> {
    if |b| >= 3 && b[..3] == [0xEF, 0xBB, 0xBF] then Decode(b[3..]) else Decode(b)
  }
}
