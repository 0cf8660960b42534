/** The stream object itself, tied method by method to the functions of Streams. */
module NativeStreams {
  import opened Core
  import opened Texts
  import opened Budgets
  import opened Utf8
  import opened Values
  import opened Printer
  import opened Frames
  import opened Readers
  import opened Streams

  class NativeStream {
    const budget: WireBudget
    const incoming: Lane
    const outgoing: Lane
    const reader: FrameReader
    const fence: EndpointFence
    const rate: FrameRate
    var closed: bool
    var out: seq<Item>
    var queued: int

    ghost function View(): Endpoint
      reads this, reader, reader.prefix, reader.body, reader.budget, fence, budget
      requires reader.Valid()
    {
      Endpoint(closed, incoming, outgoing, out, queued, reader.View(), fence.View())
    }

    ghost predicate Valid()
      reads this, reader, reader.prefix, reader.body, reader.budget, fence, budget
    {
      && reader.Valid() && reader.budget == budget && reader.control == incoming.control
      && budget.Valid()
      && forall i :: 0 <= i < |out| ==>
           && out[i].lease < |budget.leases| && Leased(reader.View()) != Some(out[i].lease)
           && out[i].offset <= |out[i].bytes|
    }

    constructor (account: WireBudget, into: Lane, from: Lane, gate: EndpointFence, pace: FrameRate)
      requires account.Valid()
      ensures Valid() && budget == account && fence == gate && rate == pace
      ensures View() == Endpoint(false, into, from, [], 0, Idle, gate.View())
    {
      budget, incoming, outgoing, fence, rate := account, into, from, gate, pace;
      reader := new FrameReader(account, into.control);
      closed, out, queued := false, [], 0;
    }

    /** `flush`: at most sixteen writes; `socket` says how much the kernel takes of each. */
    method FlushOut(socket: Socket) returns (written: seq<Byte>, error: Option<ErrorCode>)
      requires Valid()
      modifies this, budget
      ensures Valid()
      ensures
        var f := Flush(old(View()), old(budget.View()), socket);
        View() == f.e && budget.View() == f.a && written == f.written && error == f.error
    {
      hide Balanced, FromBig32, WriteHead, Release, Unsent, FrameReader.Valid, FrameReader.View;
      written, error := [], None;
      if closed {
        return [], Some(UNAVAILABLE);
      }
      ghost var start, account := View(), budget.View();
      var i := 0;
      while i < MAX_WRITES && out != []
        invariant 0 <= i <= MAX_WRITES && Valid()
        invariant View() == start.(out := out, queued := queued)
        invariant
          var rest := FlushFrom(View(), budget.View(), socket, i);
          FlushFrom(start, account, socket, 0) == rest.(written := written + rest.written)
      {
        var attempt := socket(i);
        assert written + [] == written;
        if attempt.now - out[0].start >= WRITE_MS {
          return written, Some(DEADLINE_EXCEEDED);
        }
        if attempt.taken.Err? {
          return written, Some(attempt.taken.code);
        }
        var n := Least(attempt.taken.value, |Unsent(out[0])|);
        if n == 0 {
          return;
        }
        ghost var was := written;
        var bytes := WriteOnce(n);
        written := written + bytes;
        i := i + 1;
        Joined(was, bytes, FlushFrom(View(), budget.View(), socket, i));
      }
      assert written + [] == written;
    }

    method WriteOnce(n: nat) returns (written: seq<Byte>)
      requires Valid() && out != [] && 0 < n <= |Unsent(out[0])|
      modifies this, budget
      ensures Valid() && closed == old(closed)
      ensures
        var one := WriteHead(old(View()), old(budget.View()), n);
        View() == one.e && budget.View() == one.a && written == one.written
      ensures View() == old(View()).(out := out, queued := queued)
    {
      hide Balanced, FromBig32, Reserve, Release, FrameReader.Valid, FrameReader.View;
      var item := out[0];
      written := Unsent(item)[..n];
      var moved := item.(offset := item.offset + n);
      if moved.offset == |item.bytes| {
        queued := queued - |item.bytes|;
        Uncharge(item.lease);
        out := out[1..];
      } else {
        out := [moved] + out[1..];
      }
    }

    /** `send`: the packet is charged before it is encoded, and uncharged if that fails. */
    method Enlist(v: Value, now: real) returns (error: Option<ErrorCode>)
      requires Valid()
      modifies this, budget
      ensures Valid()
      ensures
        var q := Enqueue(old(View()), old(budget.View()), v, now);
        View() == q.e && budget.View() == q.a && error == q.error && q.written == []
    {
      hide Balanced, FromBig32, Canonical, EncodeFrame, ByteLen, Release, Reserve, FrameReader.Valid, FrameReader.View;
      if closed {
        return Some(UNAVAILABLE);
      }
      var text := Codec.Print(v, MAX_FRAME);
      if text.Err? {
        return Some(text.code);
      }
      var size := ByteLen(text.value) + 4;
      if queued + size > MAX_QUEUED {
        return Some(RESOURCE_EXHAUSTED);
      }
      var lease := Charge(size);
      if lease.Err? {
        return Some(lease.code);
      }
      var packet := Codec.WriteFrame(v, outgoing.schema);
      if packet.Err? {
        Uncharge(lease.value);
        return Some(packet.code);
      }
      out := out + [Item(packet.value, 0, lease.value, now)];
      queued := queued + size;
      error := None;
    }

    /** A lease for a packet; the reader's own is not affected. */
    method Charge(size: int) returns (lease: Result<nat>)
      requires Valid()
      modifies budget
      ensures Valid() && View() == old(View())
      ensures
        match Reserve(old(budget.View()), size, outgoing.control)
        case Ok(b) => lease == Ok(old(|budget.leases|)) && budget.View() == b && |b.leases| > old(|budget.leases|) && Leased(reader.View()) != Some(lease.value)
        case Err(code) => lease == Err(code) && budget.View() == old(budget.View())
    {
      hide Balanced, FromBig32, Reserve;
      ReserveKeepsBalance(budget.View(), size, outgoing.control);
      lease := budget.Take(size, outgoing.control);
    }

    method Uncharge(lease: nat)
      requires Valid() && lease < |budget.leases| && Leased(reader.View()) != Some(lease)
      modifies budget
      ensures Valid() && View() == old(View()) && budget.View() == Release(old(budget.View()), lease)
      ensures |budget.leases| == old(|budget.leases|)
    {
      hide Balanced, FromBig32, Release;
      budget.Give(lease);
    }

    method SendOut(v: Value, now: real, socket: Socket) returns (written: seq<Byte>, error: Option<ErrorCode>)
      requires Valid()
      modifies this, budget
      ensures Valid()
      ensures
        var f := Send(old(View()), old(budget.View()), v, now, socket);
        View() == f.e && budget.View() == f.a && written == f.written && error == f.error
    {
      hide Balanced, FromBig32, Enqueue, Flush;
      written := [];
      error := Enlist(v, now);
      if error.None? {
        written, error := FlushOut(socket);
      }
    }

    method PullOnce(arrival: Arrival) returns (taken: seq<Byte>, r: Result<Option<Owned>>, again: bool)
      requires Valid()
      modifies this, reader, reader.prefix, reader.body, budget, fence, rate
      ensures Valid()
      ensures
        var got := Pull(old(View()), old(budget.View()), old(rate.View()), arrival);
        && View() == got.e && budget.View() == got.a && rate.View() == got.rate
        && taken == got.taken && r == got.result && again == got.again
      ensures reader.body != null ==> reader.body == old(reader.body) || fresh(reader.body)
    {
      hide Balanced, FromBig32, Feed, Release, Screen;
      assert WellShaped(reader.View());
      taken, again := [], false;
      if arrival.bytes.Err? {
        return [], Err(arrival.bytes.code), false;
      }
      if arrival.bytes.value.None? {
        return [], Ok(None), false;
      }
      var size := reader.Size();
      var all := arrival.bytes.value.value;
      taken := all[..Least(|all|, size)];
      if taken == [] {
        return [], Err(UNAVAILABLE), false;
      }
      r := FeedChunk(taken, arrival.now);
      if r.Err? {
        return;
      }
      if r.value.None? {
        return taken, r, true;
      }
      r := Admit(taken, r.value.value, arrival.now);
    }

    method FeedChunk(bytes: seq<Byte>, now: real) returns (r: Result<Option<Owned>>)
      requires Valid()
      modifies reader, reader.prefix, reader.body, budget
      ensures Valid()
      ensures
        var f := Feed(old(reader.View()), old(budget.View()), bytes, now, incoming.control, incoming.schema);
        && View() == old(View()).(reader := f.state) && budget.View() == f.account && r == f.result
      ensures r.Ok? && r.value.Some? ==> reader.View() == Idle && r.value.value.lease < |budget.leases|
      ensures reader.body != null ==> reader.body == old(reader.body) || fresh(reader.body)
    {
      hide Balanced, FromBig32, Feed, Release;
      FeedKeepsLeases(reader.View(), budget.View(), bytes, now, incoming.control, incoming.schema);
      r := reader.Accept(bytes, now, incoming.schema);
    }

    /** Fence, then rate; a frame that fails either is released at once. */
    method Admit(ghost taken: seq<Byte>, owned: Owned, now: real) returns (r: Result<Option<Owned>>)
      requires Valid() && owned.lease < |budget.leases| && Leased(reader.View()) != Some(owned.lease)
      modifies budget, fence, rate
      ensures Valid()
      ensures
        var got := Screen(old(View()), old(budget.View()), old(rate.View()), now, taken, owned);
        View() == got.e && budget.View() == got.a && rate.View() == got.rate && r == got.result && got.taken == taken && !got.again
    {
      hide Balanced, FromBig32, Stamped;
      var ok := fence.Accept(owned.frame);
      if !ok {
        budget.Give(owned.lease);
        return Err(UNAUTHENTICATED);
      }
      ok := rate.Take(now);
      if !ok {
        budget.Give(owned.lease);
        return Err(RESOURCE_EXHAUSTED);
      }
      r := Ok(Some(owned));
    }

    /** `receive`: at most two reads, one for the prefix and one for the body. */
    method ReceiveFrame(now: real, first: Arrival, second: Arrival) returns (taken: seq<Byte>, r: Result<Option<Owned>>)
      requires Valid()
      modifies this, reader, reader.prefix, reader.body, budget, fence, rate
      ensures Valid()
      ensures
        var got := Receive(old(View()), old(budget.View()), old(rate.View()), now, first, second);
        && View() == got.e && budget.View() == got.a && rate.View() == got.rate
        && taken == got.taken && r == got.result
    {
      hide Balanced, FromBig32, Pull, Release;
      if closed {
        return [], Err(UNAVAILABLE);
      }
      if reader.release.Some? {
        ReleaseKeepsBalance(budget.View(), reader.release.value);
      }
      var late := reader.CheckDeadline(now);
      if late {
        return [], Err(DEADLINE_EXCEEDED);
      }
      var again: bool;
      taken, r, again := PullOnce(first);
      if again {
        var more: seq<Byte>;
        more, r, again := PullOnce(second);
        taken := taken + more;
      }
    }

    /** `close`. */
    method Close()
      requires Valid()
      modifies this, reader, budget, fence
      ensures Valid()
      ensures
        var done := Streams.Close(old(View()), old(budget.View()));
        View() == done.0 && budget.View() == done.1
    {
      hide Balanced, FromBig32, Release;
      if closed {
        return;
      }
      closed := true;
      if reader.release.Some? {
        ReleaseKeepsBalance(budget.View(), reader.release.value);
      }
      reader.Close();
      fence.Close();
      ghost var account := budget.View();
      var i := 0;
      while i < |out|
        invariant i <= |out| && budget.Valid() && |budget.leases| == |account.leases|
        invariant ReleaseAll(budget.View(), out[i..]) == ReleaseAll(account, out)
        modifies budget
      {
        assert out[i..][0] == out[i] && out[i..][1..] == out[i + 1..];
        budget.Give(out[i].lease);
        i := i + 1;
      }
      out, queued := [], 0;
    }
  }

  lemma Joined(was: seq<Byte>, bytes: seq<Byte>, rest: Sent)
    ensures (was + bytes) + rest.written == was + (bytes + rest.written)
  {
  }
}
