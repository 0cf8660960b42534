/** Two endpoints and the bytes between them, over whole runs. */
module Links {
  import opened Core
  import opened Texts
  import opened Budgets
  import opened Utf8
  import opened Values
  import opened Printer
  import opened Frames
  import opened Readers
  import opened Streams

  /** One end of the socket with its history: every frame queued, every byte the pipe
      took, every byte read, every frame completed and every frame handed over. `mine`
      are the leases this end ever took; `handed` those its dispatcher still owes;
      `first` is the fence it started with. */
  datatype Side = Side(
    e: Endpoint,
    a: Account,
    rate: Rate,
    mine: set<nat>,
    handed: map<nat, Value>,
    sent: seq<Value>,
    written: seq<Byte>,
    taken: seq<Byte>,
    decoded: seq<Value>,
    delivered: seq<Value>,
    threw: bool,
    first: Fence)

  datatype Op =
    | DoSend(v: Value, now: real, socket: Socket)
    | DoFlush(socket: Socket)
    | DoReceive(now: real, first: Arrival, second: Arrival)
    | Dispatched(lease: nat)
    | DoClose
    | Others(after: Account)

  /** Everyone else on the account leaves this end's leases alone. */
  ghost predicate OthersMay(s: Side, b: Account) {
    && Balanced(b) && |s.a.leases| <= |b.leases|
    && forall id :: id in s.mine && id < |s.a.leases| ==> b.leases[id] == s.a.leases[id]
  }

  predicate IsNew(a: Account, id: nat) {
    id >= |a.leases|
  }

  ghost function NewLeases(a: Account, b: Account): set<nat> {
    set id: nat | id < |b.leases| && IsNew(a, id)
  }

  ghost function Act(s: Side, op: Op): Side
    requires WellShaped(s.e.reader)
  {
    match op
    case DoSend(v, now, socket) =>
      var q := Enqueue(s.e, s.a, v, now);
      var done := Send(s.e, s.a, v, now, socket);
      s.(e := done.e, a := done.a, mine := s.mine + NewLeases(s.a, done.a), written := s.written + done.written,
         sent := if q.error.None? then s.sent + [v] else s.sent)
    case DoFlush(socket) =>
      var done := Flush(s.e, s.a, socket);
      s.(e := done.e, a := done.a, written := s.written + done.written)
    case DoReceive(now, first, second) =>
      var got := Receive(s.e, s.a, s.rate, now, first, second);
      s.(e := got.e, a := got.a, rate := got.rate, mine := s.mine + NewLeases(s.a, got.a), taken := s.taken + got.taken,
         decoded := Decoded(s.decoded, got),
         delivered := if got.result.Ok? && got.result.value.Some? then s.delivered + [got.result.value.value.frame] else s.delivered,
         handed := Handing(s.handed, got.result),
         threw := s.threw || got.result.Err?)
    case Dispatched(id) =>
      if id in s.handed && id < |s.a.leases| then s.(a := Release(s.a, id), handed := s.handed - {id}) else s
    case DoClose =>
      var done := Close(s.e, s.a);
      s.(e := done.0, a := done.1)
    case Others(b) => if OthersMay(s, b) then s.(a := b) else s
  }

  // ------------------------------------------------------------- what is kept

  ghost function AllUnsent(items: seq<Item>): seq<Byte> {
    if items == [] then [] else Unsent(items[0]) + AllUnsent(items[1..])
  }

  ghost function Queued(items: seq<Item>): nat {
    if items == [] then 0 else |items[0].bytes| + Queued(items[1..])
  }

  /** The writing half: what is on the wire and what waits are the packets of the
      frames sent, in order. */
  ghost predicate WritesOk(e: Endpoint, sent: seq<Value>, written: seq<Byte>) {
    && AllSendable(sent, e.outgoing.schema)
    && (forall i :: 0 <= i < |e.out| ==> e.out[i].offset < |e.out[i].bytes|)
    && e.queued == Queued(e.out) <= MAX_QUEUED
    && (e.closed ==> e.out == [])
    && if e.closed then written <= Wire(sent) else written + AllUnsent(e.out) == Wire(sent)
  }

  /** The reading half: what was taken are the packets of the frames completed and
      the reader's unfinished one. */
  ghost predicate ReadsOk(e: Endpoint, decoded: seq<Value>, taken: seq<Byte>) {
    && WellShaped(e.reader)
    && (e.closed ==> e.reader.Closed? && e.fence.closed)
    && AllSendable(decoded, e.incoming.schema)
    && if e.reader.Closed? then Wire(decoded) <= taken else taken == Wire(decoded) + Pending(e.reader)
  }

  ghost function ItemLeases(items: seq<Item>): set<nat> {
    set i | 0 <= i < |items| :: items[i].lease
  }

  ghost predicate Charged(a: Account, id: nat, bytes: nat, control: bool) {
    id < |a.leases| && a.leases[id] == Lease(bytes, control, false)
  }

  /** Each lease this end ever took is open exactly while a queued packet, the reader
      or a dispatcher holds it, for the full size of what it stands for. */
  ghost predicate LeasesOk(e: Endpoint, a: Account, mine: set<nat>, handed: map<nat, Value>) {
    && Balanced(a)
    && OutHolds(e, a, mine)
    && HandedHolds(e, a, mine, handed)
    && ReaderHolds(e, a, mine)
    && (forall id :: id in mine ==> id < |a.leases| && (!a.leases[id].released ==> Holding(e, handed, id)))
  }

  ghost predicate Holding(e: Endpoint, handed: map<nat, Value>, id: nat) {
    id in ItemLeases(e.out) || Some(id) == Leased(e.reader) || id in handed
  }

  ghost predicate HandedHolds(e: Endpoint, a: Account, mine: set<nat>, handed: map<nat, Value>) {
    forall id :: id in handed ==>
      && id in mine && id !in ItemLeases(e.out) && Some(id) != Leased(e.reader)
      && Charged(a, id, |Bytes(handed[id])|, e.incoming.control)
  }

  ghost predicate ReaderHolds(e: Endpoint, a: Account, mine: set<nat>) {
    && Holds(e.reader, a, e.incoming.control)
    && (Leased(e.reader).Some? ==> Leased(e.reader).value in mine && Leased(e.reader).value !in ItemLeases(e.out))
  }

  ghost predicate OutHolds(e: Endpoint, a: Account, mine: set<nat>) {
    && (forall i, j :: 0 <= i < j < |e.out| ==> e.out[i].lease < e.out[j].lease)
    && (forall i :: 0 <= i < |e.out| ==>
          e.out[i].lease in mine && Charged(a, e.out[i].lease, |e.out[i].bytes|, e.outgoing.control))
  }

  function SequenceOf(v: Value): int {
    match Field(v, "sequence")
    case Some(Num(n)) => n
    case _ => -1
  }

  /** Nothing is handed over twice or out of order; and until something goes wrong,
      everything read is handed over and numbered without a gap. */
  ghost predicate FenceOk(s: Side) {
    && (forall i, j :: 0 <= i < j < |s.delivered| ==> SequenceOf(s.delivered[i]) < SequenceOf(s.delivered[j]))
    && (!s.e.fence.closed ==> forall i :: 0 <= i < |s.delivered| ==> SequenceOf(s.delivered[i]) < s.e.fence.sequence)
    && s.e.fence.(sequence := 0, closed := false) == s.first.(sequence := 0, closed := false)
    && (forall i :: 0 <= i < |s.delivered| ==> Stamped(s.delivered[i], s.first, SequenceOf(s.delivered[i])))
    && (!s.threw ==>
          && s.delivered == s.decoded
          && (forall i :: 0 <= i < |s.decoded| ==> Stamped(s.decoded[i], s.first, s.first.sequence + i))
          && (!s.e.fence.closed ==> s.e.fence.sequence == s.first.sequence + |s.decoded| <= MAX_SAFE)
          && (s.e.fence.closed && !s.e.closed ==> s.first.sequence + |s.decoded| == MAX_SAFE + 1))
  }

  ghost predicate SideOk(s: Side) {
    && WritesOk(s.e, s.sent, s.written)
    && ReadsOk(s.e, s.decoded, s.taken)
    && LeasesOk(s.e, s.a, s.mine, s.handed)
    && FenceOk(s)
  }

  // ----------------------------------------------------------------- writing

  lemma {:induction false} UnsentConcat(a: seq<Item>, b: seq<Item>)
    ensures AllUnsent(a + b) == AllUnsent(a) + AllUnsent(b) && Queued(a + b) == Queued(a) + Queued(b)
  {
    hide Unsent;
    if a == [] {
      assert a + b == b;
    } else {
      UnsentConcat(a[1..], b);
      assert (a + b)[1..] == a[1..] + b && (a + b)[0] == a[0];
      assert AllUnsent(a + b) == Unsent(a[0]) + (AllUnsent(a[1..]) + AllUnsent(b));
    }
  }

  /** The head item gives up n bytes. */
  lemma HeadMoves(head: Item, rest: seq<Item>, n: nat)
    requires head.offset < |head.bytes| && n <= |Unsent(head)|
    ensures
      var moved := head.(offset := head.offset + n);
      && AllUnsent([head] + rest) == Unsent(head)[..n] + AllUnsent([moved] + rest)
      && (moved.offset == |head.bytes| ==> AllUnsent([head] + rest) == Unsent(head)[..n] + AllUnsent(rest))
      && Queued([head] + rest) == Queued([moved] + rest) == |head.bytes| + Queued(rest)
  {
    var moved := head.(offset := head.offset + n);
    assert ([head] + rest)[1..] == rest && ([moved] + rest)[1..] == rest;
    assert Unsent(head) == Unsent(head)[..n] + Unsent(head)[n..];
    assert Unsent(moved) == Unsent(head)[n..];
    assert Unsent(head) + AllUnsent(rest) == Unsent(head)[..n] + (Unsent(moved) + AllUnsent(rest));
    assert moved.offset == |head.bytes| ==> Unsent(head)[..n] == Unsent(head);
  }

  lemma WriteHeadKeeps(e: Endpoint, a: Account, n: nat, sent: seq<Value>, written: seq<Byte>)
    requires WritesOk(e, sent, written) && !e.closed && e.out != [] && 0 < n <= |Unsent(e.out[0])|
    ensures
      var one := WriteHead(e, a, n);
      WritesOk(one.e, sent, written + one.written) && !one.e.closed
  {
    hide Wire, Sendable, Release, AllUnsent, Queued;
    var one := WriteHead(e, a, n);
    HeadMoves(e.out[0], e.out[1..], n);
    assert e.out == [e.out[0]] + e.out[1..];
    assert written + (one.written + AllUnsent(one.e.out)) == written + one.written + AllUnsent(one.e.out);
  }

  lemma {:induction false} FlushKeepsWrites(e: Endpoint, a: Account, socket: Socket, i: nat, sent: seq<Value>, written: seq<Byte>)
    requires WritesOk(e, sent, written) && !e.closed
    ensures
      var f := FlushFrom(e, a, socket, i);
      WritesOk(f.e, sent, written + f.written) && !f.e.closed
    decreases MAX_WRITES - i
  {
    hide WriteHead, WritesOk, Unsent;
    assert written + [] == written;
    if i < MAX_WRITES && e.out != [] && socket(i).taken.Ok? {
      var n := Least(socket(i).taken.value, |Unsent(e.out[0])|);
      if n > 0 {
        var one := WriteHead(e, a, n);
        WriteHeadKeeps(e, a, n, sent, written);
        FlushKeepsWrites(one.e, one.a, socket, i + 1, sent, written + one.written);
        var rest := FlushFrom(one.e, one.a, socket, i + 1);
        assert written + one.written + rest.written == written + (one.written + rest.written);
      }
    }
  }

  lemma EnqueueKeepsWrites(e: Endpoint, a: Account, v: Value, now: real, sent: seq<Value>, written: seq<Byte>)
    requires WritesOk(e, sent, written)
    ensures
      var q := Enqueue(e, a, v, now);
      && q.written == []
      && WritesOk(q.e, if q.error.None? then sent + [v] else sent, written)
      && (q.error.None? ==> !q.e.closed)
  {
    hide Canonical, Print, Reserve, Release, EncodeFrame, ByteLen, Bytes, WritesOk;
    var q := Enqueue(e, a, v, now);
    if q.error.None? {
      EncodeDecodes(v, e.outgoing.schema);
      PacketSize(v, e.outgoing.schema);
      PushKeepsWrites(e, Item(Bytes(v), 0, |a.leases|, now), v, sent, written);
    }
  }

  lemma PushKeepsWrites(e: Endpoint, item: Item, v: Value, sent: seq<Value>, written: seq<Byte>)
    requires WritesOk(e, sent, written) && !e.closed && Sendable(v, e.outgoing.schema)
    requires item.bytes == Bytes(v) && item.offset == 0 < |item.bytes| && e.queued + |item.bytes| <= MAX_QUEUED
    ensures WritesOk(e.(out := e.out + [item], queued := e.queued + |item.bytes|), sent + [v], written)
  {
    hide Bytes, Sendable, AllUnsent, Queued, Unsent, Wire;
    UnsentConcat(e.out, [item]);
    FreshItem(item);
    WireSnoc(sent, v);
    assert written + (AllUnsent(e.out) + Bytes(v)) == written + AllUnsent(e.out) + Bytes(v);
  }

  lemma FreshItem(item: Item)
    requires item.offset == 0
    ensures AllUnsent([item]) == item.bytes && Queued([item]) == |item.bytes|
  {
    assert [item][1..] == [];
    assert item.bytes[0..] == item.bytes;
  }

  /** The size charged in advance is the size of the packet. */
  lemma PacketSize(v: Value, schema: Schema)
    requires Sendable(v, schema)
    ensures |Bytes(v)| == ByteLen(Canonical(v, MAX_FRAME).value) + 4
  {
    hide Canonical, Print, ByteLen, Encode;
    CanonicalIsPrint(v, MAX_FRAME);
    EncodeLength(Print(v));
  }

  lemma WireSnoc(frames: seq<Value>, v: Value)
    ensures Wire(frames + [v]) == Wire(frames) + Bytes(v)
  {
    assert (frames + [v])[..|frames|] == frames;
  }

  // ----------------------------------------------------------------- reading

  ghost function Decoded(decoded: seq<Value>, got: Got): seq<Value> {
    if got.decoded.Some? then decoded + [got.decoded.value] else decoded
  }

  lemma PullKeepsReads(e: Endpoint, a: Account, rate: Rate, arrival: Arrival, decoded: seq<Value>, taken: seq<Byte>)
    requires ReadsOk(e, decoded, taken) && !e.closed
    ensures
      var got := Pull(e, a, rate, arrival);
      && ReadsOk(got.e, Decoded(decoded, got), taken + got.taken)
      && !got.e.closed
      && (got.result.Ok? && got.result.value.Some? ==> got.decoded == Some(got.result.value.value.frame))
      && (got.decoded.Some? && got.result.Ok? ==> got.result.value.Some?)
      && (got.again ==> got.decoded.None? && got.result.Ok?)
  {
    hide Feed, Wire, Bytes, Sendable, Pending, FromBig32, Stamped, Release;
    assert taken + [] == taken;
    if arrival.bytes.Ok? && arrival.bytes.value.Some? {
      var all := arrival.bytes.value.value;
      var bytes := all[..Least(|all|, ReadSize(e.reader))];
      if bytes != [] {
        var f := Feed(e.reader, a, bytes, arrival.now, e.incoming.control, e.incoming.schema);
        FeedAccounts(e.reader, a, bytes, arrival.now, e.incoming.control, e.incoming.schema);
        assert Wire(decoded) + (Pending(e.reader) + bytes) == Wire(decoded) + Pending(e.reader) + bytes;
        if f.result.Ok? && f.result.value.Some? {
          WireSnoc(decoded, f.result.value.value.frame);
          assert Pending(Idle) == [] by { NothingPending(); }
        }
      }
    }
  }

  lemma NothingPending()
    ensures Pending(Idle) == [] && WellShaped(Idle)
  {
  }

  lemma ReceiveKeepsReads(e: Endpoint, a: Account, rate: Rate, now: real, first: Arrival, second: Arrival, decoded: seq<Value>, taken: seq<Byte>)
    requires ReadsOk(e, decoded, taken)
    ensures
      var got := Receive(e, a, rate, now, first, second);
      && ReadsOk(got.e, Decoded(decoded, got), taken + got.taken)
      && (got.result.Ok? && got.result.value.Some? ==> got.decoded == Some(got.result.value.value.frame))
      && (got.decoded.Some? && got.result.Ok? ==> got.result.value.Some?)
  {
    hide Pull, Wire, Pending;
    assert taken + [] == taken;
    if !e.closed && !Late(e.reader, now) {
      PullKeepsReads(e, a, rate, first, decoded, taken);
      var one := Pull(e, a, rate, first);
      if one.again {
        PullKeepsReads(one.e, one.a, one.rate, second, decoded, taken + one.taken);
        var two := Pull(one.e, one.a, one.rate, second);
        assert taken + one.taken + two.taken == taken + (one.taken + two.taken);
      }
    }
  }

  // ------------------------------------------------------------------ leases

  /** f holds what e holds, except for lease id. */
  ghost predicate LetsGo(e: Endpoint, f: Endpoint, handed: map<nat, Value>, left: map<nat, Value>, id: nat) {
    && f.incoming == e.incoming && f.outgoing == e.outgoing
    && (f.out == e.out || (e.out != [] && f.out == e.out[1..]))
    && (Leased(f.reader) == None || f.reader == e.reader)
    && (forall k :: k in left ==> k in handed && left[k] == handed[k])
    && (forall k :: Holding(e, handed, k) && k != id ==> Holding(f, left, k))
    && !Holding(f, left, id)
  }

  /** Releasing one of this end's own open leases that nothing here holds any more. */
  lemma SettleKeepsLeases(e: Endpoint, f: Endpoint, a: Account, mine: set<nat>, handed: map<nat, Value>, id: nat, left: map<nat, Value>)
    requires LeasesOk(e, a, mine, handed) && id in mine
    requires LetsGo(e, f, handed, left, id)
    ensures LeasesOk(f, Release(a, id), mine, left)
  {
    hide Balanced, Release, Bytes, FromBig32, HandedHolds, OutHolds, ReaderHolds, Holding;
    ReleaseKeepsBalance(a, id);
    SettleOut(e, f, a, Release(a, id), mine, handed, id, left);
    SettleReader(e, f, a, Release(a, id), mine, handed, id, left);
    SettleHanded(e, f, a, Release(a, id), mine, handed, id, left);
  }

  lemma SettleOut(e: Endpoint, f: Endpoint, a: Account, b: Account, mine: set<nat>, handed: map<nat, Value>, id: nat, left: map<nat, Value>)
    requires OutHolds(e, a, mine) && LetsGo(e, f, handed, left, id) && id < |a.leases|
    requires b.leases == a.leases[id := a.leases[id].(released := true)]
    ensures OutHolds(f, b, mine)
    ensures forall k :: k in ItemLeases(f.out) ==> k in ItemLeases(e.out)
  {
    hide Bytes, FromBig32;
    assert forall i :: 0 <= i < |f.out| ==> f.out[i].lease in ItemLeases(f.out);
    if f.out != e.out {
      assert forall i :: 0 <= i < |f.out| ==> f.out[i] == e.out[i + 1];
    }
  }

  lemma SettleReader(e: Endpoint, f: Endpoint, a: Account, b: Account, mine: set<nat>, handed: map<nat, Value>, id: nat, left: map<nat, Value>)
    requires ReaderHolds(e, a, mine) && LetsGo(e, f, handed, left, id) && id < |a.leases|
    requires b.leases == a.leases[id := a.leases[id].(released := true)]
    requires forall k :: k in ItemLeases(f.out) ==> k in ItemLeases(e.out)
    ensures ReaderHolds(f, b, mine)
  {
    hide Bytes, FromBig32, ItemLeases;
  }

  lemma SettleHanded(e: Endpoint, f: Endpoint, a: Account, b: Account, mine: set<nat>, handed: map<nat, Value>, id: nat, left: map<nat, Value>)
    requires HandedHolds(e, a, mine, handed) && LetsGo(e, f, handed, left, id) && id < |a.leases|
    requires b.leases == a.leases[id := a.leases[id].(released := true)]
    requires forall k :: k in ItemLeases(f.out) ==> k in ItemLeases(e.out)
    ensures HandedHolds(f, b, mine, left)
  {
    hide Bytes, FromBig32, ItemLeases;
    forall k | k in left
      ensures k in mine && k !in ItemLeases(f.out) && Some(k) != Leased(f.reader)
      ensures Charged(b, k, |Bytes(left[k])|, f.incoming.control)
    {
      assert Holding(f, left, k);
    }
  }

  lemma FirstLeaseGone(e: Endpoint, a: Account, mine: set<nat>, handed: map<nat, Value>)
    requires LeasesOk(e, a, mine, handed) && e.out != []
    ensures
      var id := e.out[0].lease;
      id in mine && LetsGo(e, e.(out := e.out[1..], queued := e.queued - |e.out[0].bytes|), handed, handed, id)
  {
    hide Balanced, Bytes, FromBig32, Holds, Charged;
    var rest := e.out[1..];
    assert forall i :: 0 <= i < |rest| ==> rest[i] == e.out[i + 1];
    assert e.out[0].lease in ItemLeases(e.out);
    forall k | k in ItemLeases(e.out) && k != e.out[0].lease
      ensures k in ItemLeases(rest)
    {
      var i :| 0 <= i < |e.out| && e.out[i].lease == k;
      assert rest[i - 1].lease == k;
    }
  }

  lemma OffsetMoves(e: Endpoint, a: Account, mine: set<nat>, handed: map<nat, Value>, n: nat)
    requires LeasesOk(e, a, mine, handed) && e.out != []
    ensures LeasesOk(e.(out := [e.out[0].(offset := n)] + e.out[1..]), a, mine, handed)
  {
    hide Balanced, Bytes, FromBig32, Holds, Charged;
    var f := e.(out := [e.out[0].(offset := n)] + e.out[1..]);
    assert forall i :: 0 <= i < |e.out| ==> f.out[i].lease == e.out[i].lease && f.out[i].bytes == e.out[i].bytes;
    assert ItemLeases(f.out) == ItemLeases(e.out);
  }

  lemma WriteHeadKeepsLeases(e: Endpoint, a: Account, n: nat, mine: set<nat>, handed: map<nat, Value>)
    requires LeasesOk(e, a, mine, handed) && e.out != [] && n <= |Unsent(e.out[0])|
    ensures
      var one := WriteHead(e, a, n);
      LeasesOk(one.e, one.a, mine, handed)
  {
    hide LeasesOk, Release;
    if e.out[0].offset + n == |e.out[0].bytes| {
      FirstLeaseGone(e, a, mine, handed);
      assert e.out[0].lease < |a.leases| by { MineAreLeases(e, a, mine, handed); }
      SettleKeepsLeases(e, e.(out := e.out[1..], queued := e.queued - |e.out[0].bytes|), a, mine, handed, e.out[0].lease, handed);
    } else {
      OffsetMoves(e, a, mine, handed, e.out[0].offset + n);
    }
  }

  lemma MineAreLeases(e: Endpoint, a: Account, mine: set<nat>, handed: map<nat, Value>)
    requires LeasesOk(e, a, mine, handed)
    ensures forall id :: id in mine ==> id < |a.leases|
  {
  }

  lemma {:induction false} FlushKeepsLeases(e: Endpoint, a: Account, socket: Socket, i: nat, mine: set<nat>, handed: map<nat, Value>)
    requires LeasesOk(e, a, mine, handed)
    ensures
      var f := FlushFrom(e, a, socket, i);
      && LeasesOk(f.e, f.a, mine, handed) && |f.a.leases| == |a.leases|
      && f.e == e.(out := f.e.out, queued := f.e.queued)
    decreases MAX_WRITES - i
  {
    hide LeasesOk, Unsent;
    if i < MAX_WRITES && e.out != [] && socket(i).taken.Ok? {
      var n := Least(socket(i).taken.value, |Unsent(e.out[0])|);
      if n > 0 {
        var one := WriteHead(e, a, n);
        WriteHeadKeepsLeases(e, a, n, mine, handed);
        FlushKeepsLeases(one.e, one.a, socket, i + 1, mine, handed);
      }
    }
  }

  /** The account has moved on but none of this end's leases has. */
  lemma OthersKeepLeases(e: Endpoint, a: Account, b: Account, mine: set<nat>, handed: map<nat, Value>, more: set<nat>)
    requires LeasesOk(e, a, mine, handed) && Balanced(b) && |a.leases| <= |b.leases|
    requires forall id: nat :: id in mine && id < |a.leases| ==> b.leases[id] == a.leases[id]
    requires forall id :: id in more ==> id < |b.leases| && b.leases[id].released
    ensures LeasesOk(e, b, mine + more, handed)
  {
    hide Balanced, Bytes, FromBig32, Holding;
  }

  lemma PushKeepsLeases(e: Endpoint, a: Account, b: Account, mine: set<nat>, handed: map<nat, Value>, item: Item, queued: int)
    requires LeasesOk(e, a, mine, handed) && Balanced(b)
    requires item.lease == |a.leases| && b.leases == a.leases + [Lease(|item.bytes|, e.outgoing.control, false)]
    ensures LeasesOk(e.(out := e.out + [item], queued := queued), b, mine + {item.lease}, handed)
  {
    hide Balanced, Bytes, FromBig32;
    var f := e.(out := e.out + [item], queued := queued);
    assert ItemLeases(f.out) == ItemLeases(e.out) + {item.lease} by {
      assert forall i :: 0 <= i < |e.out| ==> f.out[i] == e.out[i];
      assert f.out[|e.out|] == item;
    }
  }

  lemma EnqueueKeepsLeases(e: Endpoint, a: Account, v: Value, now: real, mine: set<nat>, handed: map<nat, Value>)
    requires LeasesOk(e, a, mine, handed)
    ensures
      var q := Enqueue(e, a, v, now);
      && LeasesOk(q.e, q.a, mine + NewLeases(a, q.a), handed) && |a.leases| <= |q.a.leases|
      && q.e == e.(out := q.e.out, queued := q.e.queued)
  {
    hide LeasesOk, Canonical, Print, EncodeFrame, ByteLen, Bytes, Balanced;
    var q := Enqueue(e, a, v, now);
    assert Balanced(a) by { LeasesBalanced(e, a, mine, handed); }
    if q.a == a {
      assert NewLeases(a, q.a) == {};
      assert mine + {} == mine;
    } else {
      var size := ByteLen(Canonical(v, MAX_FRAME).value) + 4;
      ReserveKeepsBalance(a, size, e.outgoing.control);
      var b := Reserve(a, size, e.outgoing.control).value;
      ReleaseKeepsBalance(b, |a.leases|);
      assert NewLeases(a, q.a) == {|a.leases|};
      if q.error.Some? {
        OthersKeepLeases(e, a, q.a, mine, handed, {|a.leases|});
      } else {
        EncodeDecodes(v, e.outgoing.schema);
        PacketSize(v, e.outgoing.schema);
        PushKeepsLeases(e, a, b, mine, handed, Item(Bytes(v), 0, |a.leases|, now), e.queued + size);
      }
    }
  }

  lemma LeasesBalanced(e: Endpoint, a: Account, mine: set<nat>, handed: map<nat, Value>)
    requires LeasesOk(e, a, mine, handed)
    ensures Balanced(a)
  {
  }

  ghost predicate FedOk(e: Endpoint, a: Account, f: Fed) {
    && Balanced(f.account) && WellShaped(f.state) && Holds(f.state, f.account, e.incoming.control)
    && Exchanges(e.reader, a, f)
  }

  /** What is handed over after a feed. */
  ghost function Handing(handed: map<nat, Value>, r: Result<Option<Owned>>): map<nat, Value> {
    if r.Ok? && r.value.Some? then handed[r.value.value.lease := r.value.value.frame] else handed
  }

  lemma FeedKeepsSide(e: Endpoint, a: Account, f: Fed, mine: set<nat>, handed: map<nat, Value>)
    requires LeasesOk(e, a, mine, handed) && FedOk(e, a, f)
    requires Passed(f).Some? ==> Passed(f).value < |a.leases| && a.leases[Passed(f).value].bytes == |Bytes(f.result.value.value.frame)|
    ensures LeasesOk(e.(reader := f.state), f.account, mine + NewLeases(a, f.account), Handing(handed, f.result))
  {
    hide Balanced, Bytes, FromBig32, HandedHolds, OutHolds, ReaderHolds;
    var g, more, b := e.(reader := f.state), mine + NewLeases(a, f.account), f.account;
    FeedOut(e, a, f, mine, handed);
    FeedHanded(e, a, f, mine, handed);
    FeedReader(e, a, f, mine, handed);
    forall id | id in more
      ensures id < |b.leases| && (!b.leases[id].released ==> Holding(g, Handing(handed, f.result), id))
    {
      assert id in mine && Some(id) != Leased(e.reader) && Holding(e, handed, id) ==> Holding(g, handed, id);
    }
  }

  lemma FeedOut(e: Endpoint, a: Account, f: Fed, mine: set<nat>, handed: map<nat, Value>)
    requires LeasesOk(e, a, mine, handed) && FedOk(e, a, f)
    ensures OutHolds(e.(reader := f.state), f.account, mine + NewLeases(a, f.account))
  {
    hide Balanced, Bytes, FromBig32, HandedHolds, Holds, Holding;
    forall i | 0 <= i < |e.out|
      ensures Charged(f.account, e.out[i].lease, |e.out[i].bytes|, e.outgoing.control)
    {
      assert e.out[i].lease in ItemLeases(e.out);
    }
  }

  lemma FeedHanded(e: Endpoint, a: Account, f: Fed, mine: set<nat>, handed: map<nat, Value>)
    requires LeasesOk(e, a, mine, handed) && FedOk(e, a, f)
    requires Passed(f).Some? ==> Passed(f).value < |a.leases| && a.leases[Passed(f).value].bytes == |Bytes(f.result.value.value.frame)|
    ensures HandedHolds(e.(reader := f.state), f.account, mine + NewLeases(a, f.account), Handing(handed, f.result))
  {
    hide Balanced, Bytes, FromBig32, OutHolds, Holding;
  }

  lemma FeedReader(e: Endpoint, a: Account, f: Fed, mine: set<nat>, handed: map<nat, Value>)
    requires LeasesOk(e, a, mine, handed) && FedOk(e, a, f)
    ensures ReaderHolds(e.(reader := f.state), f.account, mine + NewLeases(a, f.account))
  {
    hide Balanced, Bytes, FromBig32, HandedHolds, Holding;
    forall id | id in ItemLeases(e.out)
      ensures id < |a.leases|
    {
      var i :| 0 <= i < |e.out| && e.out[i].lease == id;
    }
  }

  /** The lease that goes out with a frame is as large as the frame's packet. */
  lemma HandedSize(s: State, a: Account, bytes: seq<Byte>, now: real, control: bool, schema: Schema)
    requires WellShaped(s) && Holds(s, a, control)
    ensures
      var f := Feed(s, a, bytes, now, control, schema);
      Passed(f).Some? ==> Passed(f).value < |a.leases| && a.leases[Passed(f).value].bytes == |Bytes(f.result.value.value.frame)|
  {
    hide DecodeBody, FromBig32, Bytes, Sendable, Reserve, Release;
    var f := Feed(s, a, bytes, now, control, schema);
    if Passed(f).Some? {
      FeedAccounts(s, a, bytes, now, control, schema);
      assert s.Filling?;
    }
  }

  lemma FenceHoldsNothing(e: Endpoint, fence: Fence, a: Account, mine: set<nat>, handed: map<nat, Value>)
    requires LeasesOk(e, a, mine, handed)
    ensures LeasesOk(e.(fence := fence), a, mine, handed)
  {
    hide Balanced, Bytes, Holds;
  }

  /** A completed frame is handed over with its lease, or the lease is returned. */
  lemma ScreenKeepsLeases(e: Endpoint, a: Account, rate: Rate, now: real, taken: seq<Byte>, owned: Owned, mine: set<nat>, handed: map<nat, Value>)
    requires LeasesOk(e, a, mine, handed[owned.lease := owned.frame]) && owned.lease !in handed
    ensures
      var got := Screen(e, a, rate, now, taken, owned);
      LeasesOk(got.e, got.a, mine, Handing(handed, got.result)) && |got.a.leases| == |a.leases|
  {
    hide Balanced, Bytes, Release, OutHolds, ReaderHolds, Stamped, Pass;
    var got := Screen(e, a, rate, now, taken, owned);
    var all := handed[owned.lease := owned.frame];
    if Pass(e.fence, owned.frame).Some? {
      FenceHoldsNothing(e, got.e.fence, a, mine, all);
    }
    if got.result.Err? {
      assert owned.lease in all;
      LeasesBalanced(got.e, a, mine, all);
      ReleaseKeepsBalance(a, owned.lease);
      SettleKeepsLeases(got.e, got.e, a, mine, all, owned.lease, handed);
    }
  }

  lemma PullKeepsLeases(e: Endpoint, a: Account, rate: Rate, arrival: Arrival, mine: set<nat>, handed: map<nat, Value>)
    requires LeasesOk(e, a, mine, handed) && WellShaped(e.reader)
    ensures
      var got := Pull(e, a, rate, arrival);
      && WellShaped(got.e.reader) && |a.leases| <= |got.a.leases|
      && LeasesOk(got.e, got.a, mine + NewLeases(a, got.a), Handing(handed, got.result))
      && got.e == e.(reader := got.e.reader, fence := got.e.fence)
  {
    hide LeasesOk, Bytes, Pass, Feed, FromBig32, Release, Balanced;
    var got := Pull(e, a, rate, arrival);
    if got.a == a {
      assert mine + NewLeases(a, a) == mine;
    }
    if arrival.bytes.Ok? && arrival.bytes.value.Some? {
      var all := arrival.bytes.value.value;
      var bytes := all[..Least(|all|, ReadSize(e.reader))];
      if bytes != [] {
        FedKeepsLeases(e, a, bytes, arrival.now, mine, handed);
        var f := Feed(e.reader, a, bytes, arrival.now, e.incoming.control, e.incoming.schema);
        if f.result.Ok? && f.result.value.Some? {
          ScreenKeepsLeases(e.(reader := f.state), f.account, rate, arrival.now, bytes, f.result.value.value, mine + NewLeases(a, f.account), handed);
        }
      }
    }
  }

  lemma FedKeepsLeases(e: Endpoint, a: Account, bytes: seq<Byte>, now: real, mine: set<nat>, handed: map<nat, Value>)
    requires LeasesOk(e, a, mine, handed) && WellShaped(e.reader)
    ensures
      var f := Feed(e.reader, a, bytes, now, e.incoming.control, e.incoming.schema);
      && WellShaped(f.state) && |a.leases| <= |f.account.leases|
      && LeasesOk(e.(reader := f.state), f.account, mine + NewLeases(a, f.account), Handing(handed, f.result))
      && (Passed(f).Some? ==> Passed(f).value !in handed && f.account == a)
  {
    hide Feed, Balanced, Bytes, FromBig32, OutHolds;
    FeedKeepsLeases(e.reader, a, bytes, now, e.incoming.control, e.incoming.schema);
    HandedSize(e.reader, a, bytes, now, e.incoming.control, e.incoming.schema);
    FeedKeepsSide(e, a, Feed(e.reader, a, bytes, now, e.incoming.control, e.incoming.schema), mine, handed);
  }

  /** Giving up on the unfinished frame. */
  lemma ShutKeepsLeases(e: Endpoint, a: Account, mine: set<nat>, handed: map<nat, Value>)
    requires LeasesOk(e, a, mine, handed)
    ensures LeasesOk(e.(reader := Shut(e.reader)), GiveBack(e.reader, a), mine, handed)
    ensures |GiveBack(e.reader, a).leases| == |a.leases|
  {
    hide Balanced, Bytes, FromBig32;
    if Leased(e.reader).Some? {
      hide Release, OutHolds, HandedHolds;
      ReleaseKeepsBalance(a, Leased(e.reader).value);
      SettleKeepsLeases(e, e.(reader := Shut(e.reader)), a, mine, handed, Leased(e.reader).value, handed);
    }
  }

  lemma ReceiveKeepsLeases(e: Endpoint, a: Account, rate: Rate, now: real, first: Arrival, second: Arrival, mine: set<nat>, handed: map<nat, Value>)
    requires LeasesOk(e, a, mine, handed) && WellShaped(e.reader)
    ensures
      var got := Receive(e, a, rate, now, first, second);
      && LeasesOk(got.e, got.a, mine + NewLeases(a, got.a), Handing(handed, got.result))
      && got.e == e.(reader := got.e.reader, fence := got.e.fence)
  {
    hide LeasesOk, Pull;
    assert mine + NewLeases(a, a) == mine;
    if !e.closed && Late(e.reader, now) {
      ShutKeepsLeases(e, a, mine, handed);
      assert mine + NewLeases(a, GiveBack(e.reader, a)) == mine;
    } else if !e.closed {
      PullKeepsLeases(e, a, rate, first, mine, handed);
      var one := Pull(e, a, rate, first);
      if one.again && WellShaped(one.e.reader) {
        AgainGivesNothing(e, a, rate, first);
        PullKeepsLeases(one.e, one.a, one.rate, second, mine + NewLeases(a, one.a), handed);
        var two := Pull(one.e, one.a, one.rate, second);
        assert mine + NewLeases(a, one.a) + NewLeases(one.a, two.a) == mine + NewLeases(a, two.a);
      }
    }
  }

  lemma AgainGivesNothing(e: Endpoint, a: Account, rate: Rate, arrival: Arrival)
    requires WellShaped(e.reader)
    ensures Pull(e, a, rate, arrival).again ==> Pull(e, a, rate, arrival).result == Ok(None)
  {
    hide Feed, ReadSize;
  }

  lemma {:induction false} ReleaseAllKeepsLeases(e: Endpoint, a: Account, mine: set<nat>, handed: map<nat, Value>)
    requires LeasesOk(e, a, mine, handed)
    ensures LeasesOk(e.(out := [], queued := 0), ReleaseAll(a, e.out), mine, handed)
    ensures |ReleaseAll(a, e.out).leases| == |a.leases|
    decreases |e.out|
  {
    hide LeasesOk, Release;
    if e.out == [] {
      assert LeasesOk(e.(out := [], queued := 0), a, mine, handed) by { QueueCountHoldsNothing(e, a, mine, handed); }
    } else {
      var id := e.out[0].lease;
      MineAreLeases(e, a, mine, handed);
      FirstLeaseGone(e, a, mine, handed);
      LeasesBalanced(e, a, mine, handed);
      ReleaseKeepsBalance(a, id);
      var f := e.(out := e.out[1..], queued := e.queued - |e.out[0].bytes|);
      SettleKeepsLeases(e, f, a, mine, handed, id, handed);
      ReleaseAllKeepsLeases(f, Release(a, id), mine, handed);
    }
  }

  lemma QueueCountHoldsNothing(e: Endpoint, a: Account, mine: set<nat>, handed: map<nat, Value>)
    requires LeasesOk(e, a, mine, handed) && e.out == []
    ensures LeasesOk(e.(out := [], queued := 0), a, mine, handed)
  {
    hide Balanced, Bytes, Holds;
  }

  lemma CloseKeepsLeases(e: Endpoint, a: Account, mine: set<nat>, handed: map<nat, Value>)
    requires LeasesOk(e, a, mine, handed)
    ensures
      var done := Close(e, a);
      LeasesOk(done.0, done.1, mine, handed)
  {
    hide Balanced, Bytes, FromBig32, OutHolds, HandedHolds;
    if !e.closed {
      var shut := e.(reader := Shut(e.reader));
      ShutKeepsLeases(e, a, mine, handed);
      ReleaseAllKeepsLeases(shut, GiveBack(e.reader, a), mine, handed);
      ClosedHoldsNothing(shut.(out := [], queued := 0), ReleaseAll(GiveBack(e.reader, a), e.out), mine, handed);
    }
  }

  lemma ClosedHoldsNothing(e: Endpoint, a: Account, mine: set<nat>, handed: map<nat, Value>)
    requires LeasesOk(e, a, mine, handed)
    ensures LeasesOk(e.(closed := true, fence := e.fence.(closed := true)), a, mine, handed)
  {
    hide Balanced, Bytes, Holds;
  }

  // ------------------------------------------------------------------- fence

  /** The fence moves only when it lets a completed frame through. */
  lemma ReceiveAndFence(e: Endpoint, a: Account, rate: Rate, now: real, first: Arrival, second: Arrival)
    requires WellShaped(e.reader)
    ensures
      var got := Receive(e, a, rate, now, first, second);
      && (got.result.Ok? && got.result.value.Some? ==>
            got.decoded == Some(got.result.value.value.frame) && Pass(e.fence, got.decoded.value) == Some(got.e.fence))
      && (got.result == Ok(None) ==> got.e.fence == e.fence && got.decoded.None?)
      && (got.result.Err? ==>
            got.e.fence == e.fence || (got.decoded.Some? && Pass(e.fence, got.decoded.value) == Some(got.e.fence)))
  {
    hide Feed, ReadSize, WellShaped, Late, Stamped, GiveBack, Release;
  }

  lemma ReceiveKeepsFence(s: Side, now: real, first: Arrival, second: Arrival)
    requires FenceOk(s) && WellShaped(s.e.reader)
    requires Receive(s.e, s.a, s.rate, now, first, second).e.closed == s.e.closed
    ensures FenceOk(Act(s, DoReceive(now, first, second)))
  {
    hide Receive, NewLeases, WellShaped, Stamped;
    ReceiveAndFence(s.e, s.a, s.rate, now, first, second);
    var got := Receive(s.e, s.a, s.rate, now, first, second);
    if got.decoded.Some? && Pass(s.e.fence, got.decoded.value).Some? {
      PassNumbers(s.e.fence, got.decoded.value);
      SameIdentity(s.e.fence, s.first, got.decoded.value);
    }
  }

  /** A frame is stamped for who the fence stands for, whatever it has counted. */
  lemma SameIdentity(f: Fence, g: Fence, v: Value)
    requires f.(sequence := 0, closed := false) == g.(sequence := 0, closed := false)
    ensures forall n :: Stamped(v, f, n) == Stamped(v, g, n)
  {
  }

  lemma PassNumbers(f: Fence, v: Value)
    requires Pass(f, v).Some?
    ensures SequenceOf(v) == f.sequence && !f.closed && Stamped(v, f, f.sequence)
  {
  }

  // ------------------------------------------------------------ every operation

  /** The lanes never change and the histories only grow. */
  ghost predicate Grows(s: Side, t: Side) {
    && t.e.incoming == s.e.incoming && t.e.outgoing == s.e.outgoing && t.first == s.first
    && s.sent <= t.sent && s.written <= t.written && s.taken <= t.taken
    && s.decoded <= t.decoded && s.delivered <= t.delivered && s.mine <= t.mine
    && (s.threw ==> t.threw) && (s.e.closed ==> t.e.closed)
  }

  lemma OutDoesNotRead(e: Endpoint, f: Endpoint, decoded: seq<Value>, taken: seq<Byte>)
    requires ReadsOk(e, decoded, taken) && f == e.(out := f.out, queued := f.queued)
    ensures ReadsOk(f, decoded, taken)
  {
  }

  lemma ReaderDoesNotWrite(e: Endpoint, f: Endpoint, sent: seq<Value>, written: seq<Byte>)
    requires WritesOk(e, sent, written) && f == e.(reader := f.reader, fence := f.fence)
    ensures WritesOk(f, sent, written)
  {
  }

  lemma SendKeeps(s: Side, op: Op)
    requires SideOk(s) && op.DoSend?
    ensures SideOk(Act(s, op)) && Grows(s, Act(s, op))
  {
    hide WritesOk, ReadsOk, LeasesOk, Enqueue, FlushFrom;
    var q := Enqueue(s.e, s.a, op.v, op.now);
    var sent := if q.error.None? then s.sent + [op.v] else s.sent;
    EnqueueKeepsWrites(s.e, s.a, op.v, op.now, s.sent, s.written);
    EnqueueKeepsLeases(s.e, s.a, op.v, op.now, s.mine, s.handed);
    assert s.written + [] == s.written;
    if q.error.None? {
      FlushKeepsWrites(q.e, q.a, op.socket, 0, sent, s.written);
      FlushKeepsLeases(q.e, q.a, op.socket, 0, s.mine + NewLeases(s.a, q.a), s.handed);
      assert NewLeases(s.a, FlushFrom(q.e, q.a, op.socket, 0).a) == NewLeases(s.a, q.a);
    }
    WellShapedNow(s);
    OutDoesNotRead(s.e, Act(s, op).e, s.decoded, s.taken);
  }

  lemma FlushKeeps(s: Side, op: Op)
    requires SideOk(s) && op.DoFlush?
    ensures SideOk(Act(s, op)) && Grows(s, Act(s, op))
  {
    hide WritesOk, ReadsOk, LeasesOk, FlushFrom;
    assert s.written + [] == s.written;
    if !s.e.closed {
      FlushKeepsWrites(s.e, s.a, op.socket, 0, s.sent, s.written);
      FlushKeepsLeases(s.e, s.a, op.socket, 0, s.mine, s.handed);
    }
    WellShapedNow(s);
    OutDoesNotRead(s.e, Act(s, op).e, s.decoded, s.taken);
  }

  lemma ReceiveKeeps(s: Side, op: Op)
    requires SideOk(s) && op.DoReceive?
    ensures SideOk(Act(s, op)) && Grows(s, Act(s, op))
  {
    hide WritesOk, ReadsOk, LeasesOk, FenceOk, Receive;
    WellShapedNow(s);
    ReceiveKeepsReads(s.e, s.a, s.rate, op.now, op.first, op.second, s.decoded, s.taken);
    ReceiveKeepsLeases(s.e, s.a, s.rate, op.now, op.first, op.second, s.mine, s.handed);
    ReceiveKeepsFence(s, op.now, op.first, op.second);
    ReaderDoesNotWrite(s.e, Act(s, op).e, s.sent, s.written);
  }

  lemma WellShapedNow(s: Side)
    requires ReadsOk(s.e, s.decoded, s.taken)
    ensures WellShaped(s.e.reader)
  {
  }

  lemma CloseKeeps(s: Side, op: Op)
    requires SideOk(s) && op.DoClose?
    ensures SideOk(Act(s, op)) && Grows(s, Act(s, op))
  {
    hide *;
    SideSays(s);
    CloseKeepsLeases(s.e, s.a, s.mine, s.handed);
    CloseKeepsStreams(s.e, s.a, s.sent, s.written, s.decoded, s.taken);
    CloseKeepsFence(s);
    CloseGrows(s);
    SideIs(Act(s, op));
  }

  lemma CloseKeepsStreams(e: Endpoint, a: Account, sent: seq<Value>, written: seq<Byte>, decoded: seq<Value>, taken: seq<Byte>)
    requires WritesOk(e, sent, written) && ReadsOk(e, decoded, taken)
    ensures WritesOk(Close(e, a).0, sent, written) && ReadsOk(Close(e, a).0, decoded, taken)
  {
    hide Wire, ReleaseAll, GiveBack, Unsent, AllSendable;
  }

  lemma CloseKeepsFence(s: Side)
    requires FenceOk(s) && WellShaped(s.e.reader)
    ensures FenceOk(Act(s, DoClose))
  {
    hide ReleaseAll, GiveBack, Stamped, SequenceOf;
  }

  lemma CloseGrows(s: Side)
    requires WellShaped(s.e.reader)
    ensures
      var t := Act(s, DoClose);
      && Grows(s, t) && t.e == Close(s.e, s.a).0 && t.a == Close(s.e, s.a).1
      && t == s.(e := t.e, a := t.a)
  {
    hide ReleaseAll, GiveBack;
  }

  lemma SideSays(s: Side)
    requires SideOk(s)
    ensures WritesOk(s.e, s.sent, s.written) && ReadsOk(s.e, s.decoded, s.taken) && WellShaped(s.e.reader)
    ensures LeasesOk(s.e, s.a, s.mine, s.handed) && FenceOk(s)
  {
    hide WritesOk, LeasesOk, FenceOk;
  }

  lemma SideIs(s: Side)
    requires WritesOk(s.e, s.sent, s.written) && ReadsOk(s.e, s.decoded, s.taken) && LeasesOk(s.e, s.a, s.mine, s.handed) && FenceOk(s)
    ensures SideOk(s)
  {
    hide WritesOk, ReadsOk, LeasesOk, FenceOk;
  }

  lemma DispatchedKeeps(s: Side, op: Op)
    requires SideOk(s) && op.Dispatched?
    ensures SideOk(Act(s, op)) && Grows(s, Act(s, op))
  {
    hide WritesOk, ReadsOk, Release, Balanced, Bytes, OutHolds, ReaderHolds;
    var id := op.lease;
    if id in s.handed && id < |s.a.leases| {
      SettleKeepsLeases(s.e, s.e, s.a, s.mine, s.handed, id, s.handed - {id});
    }
  }

  lemma OthersKeep(s: Side, op: Op)
    requires SideOk(s) && op.Others?
    ensures SideOk(Act(s, op)) && Grows(s, Act(s, op))
  {
    hide WritesOk, ReadsOk, LeasesOk, Balanced;
    if OthersMay(s, op.after) {
      OthersKeepLeases(s.e, s.a, op.after, s.mine, s.handed, {});
      assert s.mine + {} == s.mine;
    }
  }

  /** Whatever one end does, its own books stay exact. */
  lemma ActKeeps(s: Side, op: Op)
    requires SideOk(s)
    ensures SideOk(Act(s, op)) && Grows(s, Act(s, op))
  {
    hide SideOk, Grows, Act;
    match op
    case DoSend(_, _, _) => SendKeeps(s, op);
    case DoFlush(_) => FlushKeeps(s, op);
    case DoReceive(_, _, _) => ReceiveKeeps(s, op);
    case Dispatched(_) => DispatchedKeeps(s, op);
    case DoClose => CloseKeeps(s, op);
    case Others(_) => OthersKeep(s, op);
  }
}
