/** What two endpoints and any pipe between them promise each other. */
module Delivery {
  import opened Core
  import opened Budgets
  import opened Texts
  import opened Utf8
  import opened Values
  import opened Printer
  import opened Frames
  import opened Readers
  import opened Streams
  import opened Links

  datatype Link = Link(left: Side, right: Side)

  /** A pipe gives out what was put in, from the front, and nothing else. */
  ghost predicate Carries(x: Link) {
    x.right.taken <= x.left.written && x.left.taken <= x.right.written
  }

  datatype Move = Move(byLeft: bool, op: Op)

  ghost predicate LinkOk(x: Link) {
    SideOk(x.left) && SideOk(x.right) && Carries(x)
  }

  ghost predicate Moves(x: Link, m: Move, y: Link) {
    && WellShaped(x.left.e.reader) && WellShaped(x.right.e.reader)
    && y == (if m.byLeft then x.(left := Act(x.left, m.op)) else x.(right := Act(x.right, m.op)))
    && Carries(y)
  }

  ghost predicate Fresh(s: Side) {
    && !s.e.closed && s.e.out == [] && s.e.queued == 0 && s.e.reader == Idle
    && s.e.fence == s.first && !s.first.closed && 0 <= s.first.sequence <= MAX_SAFE
    && Balanced(s.a) && s.mine == {} && s.handed == map[] && !s.threw
    && s.sent == [] && s.written == [] && s.taken == [] && s.decoded == [] && s.delivered == []
  }

  ghost predicate Run(xs: seq<Link>, moves: seq<Move>) {
    && |xs| == |moves| + 1
    && Fresh(xs[0].left) && Fresh(xs[0].right)
    && forall i :: 0 <= i < |moves| ==> Moves(xs[i], moves[i], xs[i + 1])
  }

  lemma FreshIsOk(s: Side)
    requires Fresh(s)
    ensures SideOk(s)
  {
    hide Balanced;
    EmptyWire();
  }

  lemma {:induction false} RunKeeps(xs: seq<Link>, moves: seq<Move>, i: nat)
    requires Run(xs, moves) && i < |xs|
    ensures LinkOk(xs[i])
  {
    hide SideOk, Fresh, Act, Balanced;
    if i == 0 {
      FreshIsOk(xs[0].left);
      FreshIsOk(xs[0].right);
      assert Carries(xs[0]) by { FreshCarries(xs[0]); }
    } else {
      RunKeeps(xs, moves, i - 1);
      var x, m := xs[i - 1], moves[i - 1];
      assert Moves(x, m, xs[i - 1 + 1]);
      if m.byLeft { ActKeeps(x.left, m.op); } else { ActKeeps(x.right, m.op); }
    }
  }

  lemma FreshCarries(x: Link)
    requires Fresh(x.left) && Fresh(x.right)
    ensures Carries(x)
  {
  }

  /** What is still on its way to a reader: in the pipe, then in the sender's queue. */
  ghost function Coming(from: Side, to: Side): seq<Byte>
    requires to.taken <= from.written
  {
    from.written[|to.taken|..] + AllUnsent(from.e.out)
  }

  /** In every reachable state, whatever the chunks were, the frames read are the first
      of the frames sent, in order. */
  lemma FramesArriveInOrder(from: Side, to: Side)
    requires SideOk(from) && SideOk(to) && to.taken <= from.written
    ensures to.decoded <= from.sent
    ensures !to.threw ==> to.delivered <= from.sent
    ensures !from.e.closed && !to.e.reader.Closed? ==>
      Pending(to.e.reader) + Coming(from, to) == Wire(from.sent[|to.decoded|..])
  {
    hide Wire, Sendable, Stamped, LeasesOk, FenceOk, Incomplete, AllUnsent, Unsent, Queued, Pending;
    var pending := if to.e.reader.Closed? then [] else Pending(to.e.reader);
    assert Incomplete(pending) by {
      if to.e.reader.Closed? { NothingIsIncomplete(); } else { PendingIncomplete(to.e.reader); }
    }
    ReadSoFar(from, to, pending);
    if !from.e.closed && !to.e.reader.Closed? {
      ComingIs(from, to);
      assert Wire(to.decoded) + pending == to.taken;
    }
    DeliveredIsDecoded(to);
  }

  /** Frames read and an unfinished one, off a wire that carries other frames. */
  lemma ReadSoFar(from: Side, to: Side, pending: seq<Byte>)
    requires AllSendable(from.sent, from.e.outgoing.schema) && AllSendable(to.decoded, to.e.incoming.schema) && Incomplete(pending)
    requires Wire(to.decoded) + pending <= to.taken <= from.written <= Wire(from.sent)
    ensures to.decoded <= from.sent
    ensures pending + Wire(from.sent)[|Wire(to.decoded) + pending|..] == Wire(from.sent[|to.decoded|..])
  {
    hide Wire, Sendable, Incomplete, AllSendable;
    var wire := Wire(from.sent);
    var rest := wire[|Wire(to.decoded) + pending|..];
    assert Wire(to.decoded) + pending + rest == wire;
    OnlyOneReading(to.decoded, pending, rest, from.sent, to.e.incoming.schema, from.e.outgoing.schema);
  }

  lemma ComingIs(from: Side, to: Side)
    requires to.taken <= from.written && from.written + AllUnsent(from.e.out) == Wire(from.sent)
    ensures Coming(from, to) == Wire(from.sent)[|to.taken|..]
  {
    hide Wire, AllUnsent;
    var wire := Wire(from.sent);
    assert wire == from.written + AllUnsent(from.e.out);
    assert wire[|to.taken|..] == from.written[|to.taken|..] + AllUnsent(from.e.out);
  }

  lemma NothingIsIncomplete()
    ensures Incomplete([])
  {
  }

  lemma DeliveredIsDecoded(s: Side)
    requires FenceOk(s)
    ensures !s.threw ==> s.delivered == s.decoded
  {
  }

  /** Once the queue is empty and the pipe has been read dry, every frame sent has been
      read, and the reader is between frames. */
  lemma EverythingArrives(from: Side, to: Side)
    requires SideOk(from) && SideOk(to) && to.taken == from.written
    requires !from.e.closed && from.e.out == [] && !to.e.reader.Closed?
    ensures to.decoded == from.sent && to.e.reader == Idle
  {
    hide Wire, Sendable, Stamped, LeasesOk, FenceOk, Incomplete;
    FramesArriveInOrder(from, to);
    var left := from.sent[|to.decoded|..];
    assert Coming(from, to) == [];
    PendingIncomplete(to.e.reader);
    if left != [] {
      assert Sendable(left[0], from.e.outgoing.schema);
      WireHead(left, from.e.outgoing.schema);
      Whole(Pending(to.e.reader), Bytes(left[0]), Wire(left[1..]));
    } else {
      EmptyWire();
    }
  }

  /** Bytes that begin with a complete packet are not incomplete. */
  lemma Whole(bytes: seq<Byte>, packet: seq<Byte>, more: seq<Byte>)
    requires bytes == packet + more && |packet| >= 4 && FromBig32(packet[..4]) == |packet| - 4
    ensures !Incomplete(bytes)
  {
    assert bytes[..4] == packet[..4];
  }

  /** The reader never gets stuck on what an honest peer sends: while it is open it asks
      for at least one byte, and any chunk of that size or less from the pipe is taken,
      unless the unfinished frame is late or the account has no room for it. */
  lemma HonestChunkIsTaken(from: Side, to: Side, bytes: seq<Byte>, now: real)
    requires SideOk(from) && SideOk(to) && to.taken + bytes <= from.written
    requires !from.e.closed && !to.e.reader.Closed? && !Late(to.e.reader, now)
    requires AllSendable(from.sent, to.e.incoming.schema)
    requires 0 < |bytes| <= ReadSize(to.e.reader)
    ensures ReadSize(to.e.reader) > 0 && |to.decoded| < |from.sent|
    ensures
      var f := Feed(to.e.reader, to.a, bytes, now, to.e.incoming.control, to.e.incoming.schema);
      f.result.Err? ==>
        && f.result.code == RESOURCE_EXHAUSTED
        && NoRoom(to.e.reader, to.a, |Bytes(from.sent[|to.decoded|])|, to.e.incoming.control)
  {
    hide Wire, Sendable, Stamped, Feed, FenceOk, Bytes, NoRoom, FromBig32, Balanced, HandedHolds, OutHolds;
    FramesArriveInOrder(from, to);
    var left := from.sent[|to.decoded|..];
    var coming := Coming(from, to);
    assert coming == bytes + coming[|bytes|..];
    assert Pending(to.e.reader) + bytes + coming[|bytes|..] == Wire(left);
    HonestBytesAccepted(to.e.reader, to.a, bytes, now, to.e.incoming.control, to.e.incoming.schema, left, coming[|bytes|..]);
  }

  /** An honest sender numbers its frames one by one from what the fence expects: the
      next frame to be read always passes it. */
  lemma HonestFramesPass(from: Side, to: Side)
    requires SideOk(from) && SideOk(to) && to.taken <= from.written && !to.threw && !to.e.closed
    requires |to.decoded| < |from.sent| && to.first.sequence + |to.decoded| <= MAX_SAFE
    requires forall i :: 0 <= i < |from.sent| ==> Stamped(from.sent[i], to.first, to.first.sequence + i)
    ensures Pass(to.e.fence, from.sent[|to.decoded|]).Some?
  {
    hide WritesOk, ReadsOk, LeasesOk;
    assert Stamped(from.sent[|to.decoded|], to.first, to.first.sequence + |to.decoded|);
  }

  /** Only frames meant for this endpoint are handed over: of its session, generation and
      context, whatever the bytes were. */
  lemma HandedOverBelongs(s: Side, i: nat)
    requires SideOk(s) && i < |s.delivered|
    ensures
      var v := s.delivered[i];
      && Field(v, "sessionId") == Some(Str(s.first.session)) && Field(v, "generation") == Some(Num(s.first.generation))
      && Field(v, "contextId") == Some(Str(s.first.context)) && Field(v, "sequence") == Some(Num(SequenceOf(v)))
  {
    hide WritesOk, ReadsOk, LeasesOk;
  }

  /** No frame is handed over twice, none out of order, in any run at all. */
  lemma NoReplay(s: Side, i: nat, j: nat)
    requires SideOk(s) && i < j < |s.delivered|
    ensures s.delivered[i] != s.delivered[j]
  {
    hide WritesOk, ReadsOk, LeasesOk;
  }

  /** After `close`, once the dispatchers are done, every lease this end ever took has
      been given back. */
  lemma NothingLeaks(s: Side, id: nat)
    requires SideOk(s) && s.e.closed && s.handed == map[] && id in s.mine
    ensures id < |s.a.leases| && s.a.leases[id].released
  {
    hide Balanced, Bytes, FenceOk, Wire;
  }

  /** What the endpoint's own work occupies in the shared account is the sum of the
      packets it has in hand. */
  lemma HoldsWhatItNeeds(s: Side, id: nat)
    requires SideOk(s) && id in s.mine
    ensures id < |s.a.leases|
    ensures !s.a.leases[id].released <==> Holding(s.e, s.handed, id)
  {
    hide Balanced, Bytes, FenceOk, Wire, WritesOk, ReadsOk;
    if id in ItemLeases(s.e.out) {
      var i :| 0 <= i < |s.e.out| && s.e.out[i].lease == id;
    }
  }

  /** Any run, any pipe, both directions at once. */
  lemma RunDelivers(xs: seq<Link>, moves: seq<Move>, i: nat)
    requires Run(xs, moves) && i < |xs|
    ensures xs[i].right.decoded <= xs[i].left.sent && xs[i].left.decoded <= xs[i].right.sent
    ensures xs[i].right.written <= Wire(xs[i].right.sent) && xs[i].left.written <= Wire(xs[i].left.sent)
    ensures Balanced(xs[i].left.a) && Balanced(xs[i].right.a)
    ensures xs[i].left.e.queued <= MAX_QUEUED && xs[i].right.e.queued <= MAX_QUEUED
  {
    hide Act, Stamped, Wire, Balanced, Sendable, ReadsOk, OutHolds, HandedHolds, ReaderHolds, FenceOk;
    RunKeeps(xs, moves, i);
    FramesArriveInOrder(xs[i].left, xs[i].right);
    FramesArriveInOrder(xs[i].right, xs[i].left);
  }

  // ------------------------------------------------------ when things do move on

  ghost predicate OutOk(out: seq<Item>) {
    forall i :: 0 <= i < |out| ==> out[i].offset < |out[i].bytes|
  }

  /** From e to f one native write took n bytes of the head packet. */
  ghost predicate Wrote(e: Endpoint, f: Endpoint, n: nat) {
    && e.out != [] && 0 < n <= |Unsent(e.out[0])|
    && n <= |AllUnsent(e.out)| && AllUnsent(f.out) == AllUnsent(e.out)[n..]
    && f == e.(out := f.out, queued := f.queued)
  }

  lemma WriteMoves(e: Endpoint, a: Account, n: nat)
    requires OutOk(e.out) && e.out != [] && 0 < n <= |Unsent(e.out[0])|
    ensures
      var one := WriteHead(e, a, n);
      Wrote(e, one.e, n) && OutOk(one.e.out) && one.written == AllUnsent(e.out)[..n]
  {
    hide AllUnsent, Queued, Release;
    HeadMoves(e.out[0], e.out[1..], n);
    assert e.out == [e.out[0]] + e.out[1..];
    var one := WriteHead(e, a, n);
    assert AllUnsent(e.out) == one.written + AllUnsent(one.e.out);
  }

  /** Why a flush stopped after n writes, with f left. */
  ghost predicate Stopped(f: Endpoint, error: Option<ErrorCode>, socket: Socket, n: nat) {
    match error
    case None => n == 16 || f.out == [] || (n < 16 && socket(n).now - f.out[0].start < 2000.0 && socket(n).taken == Ok(0))
    case Some(code) =>
      && n < 16 && f.out != []
      && if socket(n).now - f.out[0].start >= 2000.0 then code == DEADLINE_EXCEEDED else socket(n).taken == Err(code)
  }

  /** The i-th native write, in time, of as much of the head packet as the kernel takes. */
  ghost predicate OneWrite(e: Endpoint, f: Endpoint, socket: Socket, i: nat) {
    && e.out != [] && socket(i).now - e.out[0].start < 2000.0
    && socket(i).taken.Ok? && Wrote(e, f, Least(socket(i).taken.value, |Unsent(e.out[0])|))
  }

  /** n writes, from the i-th on, lead from e to f. */
  ghost predicate Writes(e: Endpoint, f: Endpoint, socket: Socket, i: nat, n: nat)
    decreases n
  {
    if n == 0 then e == f else exists g :: OneWrite(e, g, socket, i) && Writes(g, f, socket, i + 1, n - 1)
  }

  /** What a flush does: up to sixteen writes, each of as much of the head packet as the
      kernel takes, until nothing is left, the kernel takes nothing, it fails, or the head
      packet is two seconds old. */
  lemma {:induction false} FlushesExactly(e: Endpoint, a: Account, socket: Socket, i: nat) returns (n: nat)
    requires OutOk(e.out) && i <= 16
    ensures
      var f := FlushFrom(e, a, socket, i);
      && i + n <= 16 && Writes(e, f.e, socket, i, n)
      && f.written + AllUnsent(f.e.out) == AllUnsent(e.out)
      && Stopped(f.e, f.error, socket, i + n)
    decreases 16 - i
  {
    hide *;
    if i < 16 && e.out != [] && socket(i).now - e.out[0].start < 2000.0 && socket(i).taken.Ok? && socket(i).taken.value > 0 {
      HeadIsUnsent(e);
      var one, m := FirstWrite(e, a, socket, i);
      n := FlushesExactly(one.e, one.a, socket, i + 1);
      FlushGoesOn(e, a, socket, i);
      var f := FlushFrom(one.e, one.a, socket, i + 1);
      WritesOneMore(e, one.e, f.e, socket, i, n);
      assert one.written + f.written + AllUnsent(f.e.out) == one.written + (f.written + AllUnsent(f.e.out));
      n := n + 1;
    } else {
      StopsAtOnce(e, a, socket, i);
      NoWrites(e, socket, i);
      assert [] + AllUnsent(e.out) == AllUnsent(e.out);
      n := 0;
    }
  }

  lemma NoWrites(e: Endpoint, socket: Socket, i: nat)
    ensures Writes(e, e, socket, i, 0)
  {
  }

  lemma WritesOneMore(e: Endpoint, g: Endpoint, f: Endpoint, socket: Socket, i: nat, n: nat)
    requires OneWrite(e, g, socket, i) && Writes(g, f, socket, i + 1, n)
    ensures Writes(e, f, socket, i, n + 1)
  {
    hide OneWrite;
  }

  lemma FirstWrite(e: Endpoint, a: Account, socket: Socket, i: nat) returns (one: Sent, m: nat)
    requires OutOk(e.out) && e.out != [] && |Unsent(e.out[0])| > 0 && socket(i).now - e.out[0].start < 2000.0
    requires socket(i).taken.Ok? && socket(i).taken.value > 0
    ensures m == Least(socket(i).taken.value, |Unsent(e.out[0])|) && one == WriteHead(e, a, m)
    ensures OneWrite(e, one.e, socket, i) && OutOk(one.e.out) && one.written + AllUnsent(one.e.out) == AllUnsent(e.out)
  {
    hide AllUnsent, WriteHead, Unsent, OutOk, Release;
    m := Least(socket(i).taken.value, |Unsent(e.out[0])|);
    WriteMoves(e, a, m);
    one := WriteHead(e, a, m);
    WroteSplits(e, one.e, m);
  }

  lemma FlushGoesOn(e: Endpoint, a: Account, socket: Socket, i: nat)
    requires i < 16 && e.out != [] && socket(i).now - e.out[0].start < 2000.0 && socket(i).taken.Ok? && socket(i).taken.value > 0
    requires |Unsent(e.out[0])| > 0
    ensures
      var one := WriteHead(e, a, Least(socket(i).taken.value, |Unsent(e.out[0])|));
      var f, rest := FlushFrom(e, a, socket, i), FlushFrom(one.e, one.a, socket, i + 1);
      f.e == rest.e && f.error == rest.error && f.written == one.written + rest.written
  {
    hide WriteHead, Unsent;
  }

  lemma StopsAtOnce(e: Endpoint, a: Account, socket: Socket, i: nat)
    requires OutOk(e.out) && i <= 16
    requires !(i < 16 && e.out != [] && socket(i).now - e.out[0].start < 2000.0 && socket(i).taken.Ok? && socket(i).taken.value > 0)
    ensures
      var f := FlushFrom(e, a, socket, i);
      f.e == e && f.written == [] && Stopped(e, f.error, socket, i)
  {
  }

  lemma HeadIsUnsent(e: Endpoint)
    requires OutOk(e.out) && e.out != []
    ensures |Unsent(e.out[0])| > 0
  {
  }

  lemma WroteSplits(e: Endpoint, f: Endpoint, n: nat)
    requires Wrote(e, f, n)
    ensures n <= |AllUnsent(e.out)| && AllUnsent(e.out)[..n] + AllUnsent(f.out) == AllUnsent(e.out)
  {
    hide AllUnsent;
  }

  /** `send` takes a frame exactly when the endpoint is open, the frame is one its lane
      can carry, and the queue and the account have room for its packet. */
  lemma EnqueuesExactly(e: Endpoint, a: Account, v: Value, now: real)
    ensures Enqueue(e, a, v, now).error.None? <==>
      && !e.closed && Sendable(v, e.outgoing.schema)
      && e.queued + |Bytes(v)| <= 1048580 && HasRoom(a, |Bytes(v)|, e.outgoing.control)
    ensures Enqueue(e, a, v, now).error.Some? ==> Enqueue(e, a, v, now).e == e
  {
    hide Canonical, Print, Reserve, Release, EncodeFrame, ByteLen, Bytes, HasRoom;
    EncodeDecodes(v, e.outgoing.schema);
    if Sendable(v, e.outgoing.schema) {
      PacketSize(v, e.outgoing.schema);
    }
    if Canonical(v, MAX_FRAME).Ok? {
      PacketSizeAnyway(v);
      ReserveExactly(a, |Bytes(v)|, e.outgoing.control);
    }
  }

  lemma PacketSizeAnyway(v: Value)
    requires Canonical(v, MAX_FRAME).Ok?
    ensures |Bytes(v)| == ByteLen(Canonical(v, MAX_FRAME).value) + 4
  {
    PacketSize(v, (x: Value) => None);
  }

  /** An endpoint that is read in time takes what an honest peer has written, at least one
      byte at a time, and throws nothing as long as the account and the rate allow: so
      what it hands over are the frames the peer sent, in order, each as soon as it is
      complete. */
  lemma HonestReceive(from: Side, to: Side, now: real, first: Arrival, second: Arrival)
    requires SideOk(from) && SideOk(to) && !from.e.closed && !to.e.closed && !to.e.reader.Closed? && !to.threw
    requires !Late(to.e.reader, now) && !Late(to.e.reader, first.now)
    requires first.bytes.Ok? && first.bytes.value.Some? && first.bytes.value.value != [] && second.bytes == Ok(None)
    requires
      var all := first.bytes.value.value;
      to.taken + all[..Least(|all|, ReadSize(to.e.reader))] <= from.written
    requires AllSendable(from.sent, to.e.incoming.schema)
    requires forall i :: 0 <= i < |from.sent| ==> Stamped(from.sent[i], to.first, to.first.sequence + i)
    requires to.first.sequence + |to.decoded| <= MAX_SAFE && Tick(to.rate, first.now).count <= 1024
    requires |to.decoded| < |from.sent| ==> !NoRoom(to.e.reader, to.a, |Bytes(from.sent[|to.decoded|])|, to.e.incoming.control)
    ensures
      var all := first.bytes.value.value;
      var t := Act(to, DoReceive(now, first, second));
      && !t.threw && |t.taken| > |to.taken| && t.taken == to.taken + all[..Least(|all|, ReadSize(to.e.reader))]
      && t.delivered == t.decoded <= from.sent
  {
    hide Feed, Wire, Bytes, NoRoom, Stamped, Sendable, ReadsOk, WritesOk, LeasesOk, FenceOk, NewLeases, Streams.Pass, Tick, Coming;
    var all := first.bytes.value.value;
    WellShapedNow(to);
    var bytes := all[..Least(|all|, ReadSize(to.e.reader))];
    var t := Act(to, DoReceive(now, first, second));
    ReadSizePositive(to.e.reader);
    HonestChunkIsTaken(from, to, bytes, first.now);
    var f := Feed(to.e.reader, to.a, bytes, first.now, to.e.incoming.control, to.e.incoming.schema);
    ActKeeps(to, DoReceive(now, first, second));
    OneRead(to, now, first, second, bytes);
    assert t.taken == to.taken + bytes;
    FramesArriveInOrder(from, t);
    if f.result.value.Some? {
      assert f.result.value.value.frame == from.sent[|to.decoded|];
      HonestFramesPass(from, to);
      Screened(to, now, first, second, bytes);
    }
    DeliveredIsDecoded(t);
  }

  /** A receive whose first read brings something and whose second brings nothing. */
  lemma OneRead(s: Side, now: real, first: Arrival, second: Arrival, bytes: seq<Byte>)
    requires WellShaped(s.e.reader) && !s.e.closed && !Late(s.e.reader, now) && second.bytes == Ok(None)
    requires first.bytes.Ok? && first.bytes.value.Some? && bytes == first.bytes.value.value[..Least(|first.bytes.value.value|, ReadSize(s.e.reader))]
    requires bytes != []
    requires Feed(s.e.reader, s.a, bytes, first.now, s.e.incoming.control, s.e.incoming.schema).result.Ok?
    ensures
      var f := Feed(s.e.reader, s.a, bytes, first.now, s.e.incoming.control, s.e.incoming.schema);
      var t := Act(s, DoReceive(now, first, second));
      && t.taken == s.taken + bytes
      && t.decoded == (if f.result.value.Some? then s.decoded + [f.result.value.value.frame] else s.decoded)
      && (f.result.value.None? ==> t.threw == s.threw)
  {
    hide Feed, NewLeases, Stamped, Release, Tick, Late;
    assert bytes + [] == bytes;
  }

  lemma Screened(s: Side, now: real, first: Arrival, second: Arrival, bytes: seq<Byte>)
    requires WellShaped(s.e.reader) && !s.e.closed && !Late(s.e.reader, now)
    requires first.bytes.Ok? && first.bytes.value.Some? && bytes == first.bytes.value.value[..Least(|first.bytes.value.value|, ReadSize(s.e.reader))]
    requires bytes != []
    requires
      var f := Feed(s.e.reader, s.a, bytes, first.now, s.e.incoming.control, s.e.incoming.schema);
      f.result.Ok? && f.result.value.Some? && Streams.Pass(s.e.fence, f.result.value.value.frame).Some?
    requires Tick(s.rate, first.now).count <= 1024
    ensures Act(s, DoReceive(now, first, second)).threw == s.threw
  {
    hide Feed, NewLeases, Stamped, Release, Tick, Late, Streams.Pass;
  }
}
