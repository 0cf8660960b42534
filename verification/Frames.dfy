/** Frames on the wire: a four-byte big-endian length and the UTF-8 of a canonical text. */
module Frames {
  import opened Core
  import opened Texts
  import opened Utf8
  import opened Values
  import opened Printer
  import opened Parser
  import opened RoundTrip
  import opened Shrink

  const MAX_FRAME: nat := 1048576

  /** The frame schemas and uniqueness checks of a lane: the code they throw, if any. */
  type Schema = Value -> Option<ErrorCode>

  function Big32(n: nat): seq<Byte>
    requires n < 0x1_0000_0000
  {
    [n / 0x100_0000, n / 0x1_0000 % 0x100, n / 0x100 % 0x100, n % 0x100]
  }

  function FromBig32(b: seq<Byte>): (n: nat)
    requires |b| == 4
    ensures n < 0x1_0000_0000
  {
    var b0: int, b1: int, b2: int, b3: int := b[0], b[1], b[2], b[3];
    b0 * 0x100_0000 + b1 * 0x1_0000 + b2 * 0x100 + b3
  }

  lemma Big32Undo(n: nat)
    requires n < 0x1_0000_0000
    ensures FromBig32(Big32(n)) == n
  {
    var a, b := n / 0x100, n / 0x1_0000;
    assert n == a * 0x100 + n % 0x100;
    assert a / 0x100 == b && a == b * 0x100 + a % 0x100;
    assert b / 0x100 == n / 0x100_0000 && b == b / 0x100 * 0x100 + b % 0x100;
  }

  lemma OneByteOff(m: int, b: int)
    requires 0 <= b < 0x100
    ensures (m * 0x100 + b) / 0x100 == m && (m * 0x100 + b) % 0x100 == b
  {
  }

  lemma DivTwice(n: nat)
    ensures n / 0x100 / 0x100 == n / 0x1_0000 && n / 0x1_0000 / 0x100 == n / 0x100_0000
  {
  }

  lemma Big32Redo(b: seq<Byte>)
    requires |b| == 4
    ensures Big32(FromBig32(b)) == b
  {
    var b0: int, b1: int, b2: int, b3: int := b[0], b[1], b[2], b[3];
    var n := FromBig32(b);
    var n1 := b0 * 0x100 + b1;
    var n2 := n1 * 0x100 + b2;
    assert n == n2 * 0x100 + b3;
    OneByteOff(n2, b3);
    OneByteOff(n1, b2);
    OneByteOff(b0, b1);
    DivTwice(n);
    assert Big32(n) == [b0, b1, b2, b3];
  }

  /** `body`: canonical UTF-8 only. */
  ghost function Body(b: seq<Byte>, max: nat): Result<Value> {
    if |b| > max then Err(RESOURCE_EXHAUSTED)
    else match DecodeText(b)
      case None => Err(INVALID_ARGUMENT)
      case Some(t) =>
        var v :- Parse(t, max);
        var c :- Canonical(v, max);
        if Encode(c) == b then Ok(v) else Err(INVALID_ARGUMENT)
  }

  lemma NoMark(t: Text)
    requires t != [] && t[0] < 0x80
    ensures DecodeText(Encode(t)) == Decode(Encode(t))
  {
    hide Decode;
    var b := Encode(t);
    assert b[0] == t[0];
    assert |b| >= 3 ==> b[..3][0] == b[0];
  }

  /** A canonical text starts with an ASCII unit, so with no byte order mark. */
  lemma NoByteOrderMark(v: Value)
    requires WellFormed(Print(v))
    ensures DecodeText(Encode(Print(v))) == Some(Print(v))
  {
    hide Print, WellFormed, DecodeText, Encode, Decode;
    AsciiStart(v);
    NoMark(Print(v));
    DecodeUndoes(Print(v));
  }

  lemma AsciiStart(v: Value)
    ensures Print(v) != [] && Print(v)[0] < 0x80
  {
    PrintNotEmpty(v);
    match v
    case Num(n) => DecimalAscii(n);
    case _ =>
  }

  /** `body` accepts exactly the image of `canonical`. */
  lemma BodyAcceptsImage(b: seq<Byte>, max: nat, v: Value)
    ensures Body(b, max) == Ok(v) <==> Canonical(v, max).Ok? && Encode(Canonical(v, max).value) == b
  {
    if Canonical(v, max).Ok? && Encode(Canonical(v, max).value) == b {
      CanonicalIsPrint(v, max);
      PrintWF(v, 0);
      NoByteOrderMark(v);
      ParseUndoesCanonical(v, max);
      EncodeLength(Print(v));
      WellFormedWeight(Print(v));
    }
  }

  /** Once the text has been parsed, printing it again never fails: the only way left
      for `body` to refuse it is that it is not canonical. */
  lemma BodyNeverFailsToReencode(b: seq<Byte>, max: nat)
    requires |b| <= max && DecodeText(b).Some? && Parse(DecodeText(b).value, max).Ok?
    ensures Canonical(Parse(DecodeText(b).value, max).value, max).Ok?
    ensures Body(b, max).Err? ==> Body(b, max) == Err(INVALID_ARGUMENT)
  {
    CanonicalisesEveryAccepted(DecodeText(b).value, max);
  }

  ghost function DecodeBody(b: seq<Byte>, schema: Schema): Result<Value> {
    if !(0 < |b| <= MAX_FRAME) then Err(RESOURCE_EXHAUSTED)
    else
      var v :- Body(b, MAX_FRAME);
      if schema(v).Some? then Err(schema(v).value) else Ok(v)
  }

  ghost function EncodeFrame(v: Value, schema: Schema): Result<seq<Byte>> {
    var t :- Canonical(v, MAX_FRAME);
    var again :- Parse(t, MAX_FRAME);
    if schema(again).Some? then Err(schema(again).value)
    else Ok(Packet(Encode(t)))
  }

  function Packet(b: seq<Byte>): seq<Byte> {
    Big32(|b| % 0x1_0000_0000) + b
  }

  /** A frame this lane can carry. */
  ghost predicate Sendable(v: Value, schema: Schema) {
    Canonical(v, MAX_FRAME).Ok? && schema(v).None?
  }

  /** The bytes of a sendable frame. */
  ghost function Bytes(v: Value): seq<Byte> {
    Packet(Encode(Print(v)))
  }

  /** Encoding succeeds exactly on sendable frames, with a well-formed packet whose
      body decodes to the frame and to nothing else. */
  lemma EncodeDecodes(v: Value, schema: Schema)
    ensures EncodeFrame(v, schema).Ok? <==> Sendable(v, schema)
    ensures Sendable(v, schema) ==>
      && EncodeFrame(v, schema) == Ok(Bytes(v))
      && 5 <= |Bytes(v)| <= MAX_FRAME + 4
      && FromBig32(Bytes(v)[..4]) == |Bytes(v)| - 4
      && DecodeBody(Bytes(v)[4..], schema) == Ok(v)
    ensures Sendable(v, schema) ==> HighByteFirst(Bytes(v))
  {
    if Sendable(v, schema) {
      LengthInFront(v);
    }
    hide HighByteFirst, Canonical, Parse, Print, Encode, Body, FromBig32, Big32;
    if Canonical(v, MAX_FRAME).Ok? {
      ParseUndoesCanonical(v, MAX_FRAME);
      CanonicalIsPrint(v, MAX_FRAME);
      PacketShape(v);
      BodyAcceptsImage(Encode(Print(v)), MAX_FRAME, v);
    }
  }

  /** The first four bytes are the number of those behind them, the highest first. */
  predicate HighByteFirst(p: seq<Byte>) {
    |p| >= 4 && p[0] as int * 16777216 + p[1] as int * 65536 + p[2] as int * 256 + p[3] as int == |p| - 4
  }

  lemma LengthInFront(v: Value)
    requires Canonical(v, MAX_FRAME).Ok?
    ensures HighByteFirst(Bytes(v))
  {
    hide Canonical, Print, Encode, Big32, Bytes;
    PacketShape(v);
    var p := Bytes(v);
    assert p[..4][0] == p[0] && p[..4][1] == p[1] && p[..4][2] == p[2] && p[..4][3] == p[3];
  }

  /** `decodeBody` accepts exactly bytes within the bound that are the encoding of a
      canonical text and whose value passes the schema, and gives the schema's code. */
  lemma DecodesExactly(b: seq<Byte>, schema: Schema, v: Value)
    ensures DecodeBody(b, schema) == Ok(v) <==>
      0 < |b| <= 1048576 && Canonical(v, 1048576).Ok? && Encode(Canonical(v, 1048576).value) == b && schema(v).None?
    ensures 0 < |b| <= 1048576 && Body(b, 1048576) == Ok(v) && schema(v).Some? ==> DecodeBody(b, schema) == Err(schema(v).value)
    ensures |b| == 0 || |b| > 1048576 ==> DecodeBody(b, schema) == Err(RESOURCE_EXHAUSTED)
  {
    hide Canonical, Encode, Body;
    BodyAcceptsImage(b, MAX_FRAME, v);
  }

  lemma PacketShape(v: Value)
    requires Canonical(v, MAX_FRAME).Ok?
    ensures
      && 1 <= |Encode(Print(v))| <= MAX_FRAME
      && |Bytes(v)| == |Encode(Print(v))| + 4 && Bytes(v)[4..] == Encode(Print(v))
      && FromBig32(Bytes(v)[..4]) == |Encode(Print(v))|
  {
    hide Canonical, Print, Encode, FromBig32, WellFormed, Weight, ByteLen;
    CanonicalIsPrint(v, MAX_FRAME);
    PrintWF(v, 0);
    WellFormedWeight(Print(v));
    EncodeLength(Print(v));
    PrintNotEmpty(v);
    WeightBounds(Print(v));
    var b := Encode(Print(v));
    Big32Undo(|b|);
    assert Bytes(v)[..4] == Big32(|b|) && Bytes(v)[4..] == b;
  }

  /** The packet a frame was decoded from is the one packet that encodes it. */
  lemma DecodeEncodes(p: seq<Byte>, v: Value, schema: Schema)
    requires |p| > 4 && FromBig32(p[..4]) == |p| - 4 && DecodeBody(p[4..], schema) == Ok(v)
    ensures Sendable(v, schema) && p == Bytes(v)
  {
    hide Body, Canonical, Print, Encode, Big32, FromBig32;
    BodyAcceptsImage(p[4..], MAX_FRAME, v);
    CanonicalIsPrint(v, MAX_FRAME);
    Big32Redo(p[..4]);
    assert p == p[..4] + p[4..];
  }

  // ------------------------------------------------------------------ the stream

  /** A run of frames back to back. */
  ghost function Wire(frames: seq<Value>): seq<Byte> {
    if frames == [] then [] else Wire(frames[..|frames| - 1]) + Bytes(frames[|frames| - 1])
  }

  lemma {:induction false} WireConcat(a: seq<Value>, b: seq<Value>)
    ensures Wire(a + b) == Wire(a) + Wire(b)
  {
    hide Bytes;
    if b == [] {
      assert a + b == a;
    } else {
      var n := |b| - 1;
      WireConcat(a, b[..n]);
      assert (a + b)[..|a + b| - 1] == a + b[..n];
    }
  }

  ghost predicate AllSendable(frames: seq<Value>, schema: Schema) {
    forall i :: 0 <= i < |frames| ==> Sendable(frames[i], schema)
  }

  /** Bytes received so far of a packet that is not complete yet. */
  ghost predicate Incomplete(pending: seq<Byte>) {
    |pending| >= 4 ==> |pending| - 4 < FromBig32(pending[..4])
  }

  /** Unique decodability: if frames A and an incomplete packet were read off a wire
      that carries frames B, then A is a prefix of B, whatever the chunks were. */
  lemma {:induction false} OnlyOneReading(a: seq<Value>, pending: seq<Byte>, rest: seq<Byte>, b: seq<Value>, sa: Schema, sb: Schema)
    requires AllSendable(a, sa) && AllSendable(b, sb) && Incomplete(pending)
    requires Wire(a) + pending + rest == Wire(b)
    ensures a <= b
    ensures pending + rest == Wire(b[|a|..])
    decreases |a|
  {
    hide Bytes, Wire, Sendable, Canonical, FromBig32;
    EmptyWire();
    if a == [] {
      assert b[0..] == b;
      assert Wire(a) + pending + rest == pending + rest;
    } else {
      WireHead(a, sa);
      var tail := Wire(a[1..]) + pending + rest;
      assert Wire(a) + pending + rest == Bytes(a[0]) + tail;
      assert b != [];
      WireHead(b, sb);
      SameHead(Bytes(a[0]), tail, Bytes(b[0]), Wire(b[1..]));
      SameBytes(a[0], b[0], sa, sb);
      OnlyOneReading(a[1..], pending, rest, b[1..], sa, sb);
      assert b[1..][|a| - 1..] == b[|a|..];
      assert a == [a[0]] + a[1..] && b == [b[0]] + b[1..];
    }
  }

  lemma EmptyWire()
    ensures Wire([]) == []
  {
  }

  lemma WireHead(a: seq<Value>, schema: Schema)
    requires a != [] && Sendable(a[0], schema)
    ensures Wire(a) == Bytes(a[0]) + Wire(a[1..])
    ensures 5 <= |Bytes(a[0])| && FromBig32(Bytes(a[0])[..4]) == |Bytes(a[0])| - 4
  {
    hide Bytes, Wire, Sendable, Canonical, FromBig32;
    WireConcat([a[0]], a[1..]);
    assert [a[0]] + a[1..] == a;
    WireOne(a[0]);
    EncodeDecodes(a[0], schema);
  }

  lemma WireOne(x: Value)
    ensures Wire([x]) == Bytes(x)
  {
    assert [x][..0] == [];
    assert Wire([x]) == Wire([]) + Bytes(x);
  }

  /** Two streams that agree start with the same packet. */
  lemma SameHead(p: seq<Byte>, s: seq<Byte>, q: seq<Byte>, t: seq<Byte>)
    requires |p| >= 4 && |q| >= 4 && FromBig32(p[..4]) == |p| - 4 && FromBig32(q[..4]) == |q| - 4
    requires p + s == q + t
    ensures p == q && s == t
  {
    assert (p + s)[..4] == p[..4] && (q + t)[..4] == q[..4];
    assert (p + s)[..|p|] == p && (q + t)[..|q|] == q;
    assert (p + s)[|p|..] == s && (q + t)[|q|..] == t;
  }

  lemma SameBytes(x: Value, y: Value, sx: Schema, sy: Schema)
    requires Sendable(x, sx) && Sendable(y, sy) && Bytes(x) == Bytes(y)
    ensures x == y
  {
    hide Canonical, Print, Encode, Big32, Body;
    CanonicalIsPrint(x, MAX_FRAME);
    CanonicalIsPrint(y, MAX_FRAME);
    PacketBody(Encode(Print(x)));
    PacketBody(Encode(Print(y)));
    BodyAcceptsImage(Encode(Print(x)), MAX_FRAME, x);
    BodyAcceptsImage(Encode(Print(y)), MAX_FRAME, y);
  }

  lemma PacketBody(b: seq<Byte>)
    ensures Packet(b)[4..] == b
  {
  }
}
