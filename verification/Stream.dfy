/** NativeStream: one endpoint of a socket, with its queue of unsent packets, its
    frame reader, its fence and the account both directions charge. What the kernel's
    read and write do is an oracle. */
module Streams {
  import opened Core
  import opened Texts
  import opened Budgets
  import opened Utf8
  import opened Values
  import opened Printer
  import opened Frames
  import opened Readers

  datatype Lane = Lane(control: bool, schema: Schema)

  // ------------------------------------------------------------------- fence

  datatype Fence = Fence(session: Text, generation: int, context: Text, sequence: int, closed: bool)

  predicate Stamped(v: Value, f: Fence, sequence: int) {
    && Field(v, "sessionId") == Some(Str(f.session))
    && Field(v, "generation") == Some(Num(f.generation))
    && Field(v, "contextId") == Some(Str(f.context))
    && Field(v, "sequence") == Some(Num(sequence))
  }

  /** `accept`. */
  function Pass(f: Fence, v: Value): Option<Fence> {
    if f.closed || !Stamped(v, f, f.sequence) then None
    else if f.sequence == MAX_SAFE then Some(f.(closed := true))
    else Some(f.(sequence := f.sequence + 1))
  }

  class EndpointFence {
    const session: Text
    const generation: int
    const context: Text
    var sequence: int
    var closed: bool

    ghost function View(): Fence
      reads this
    {
      Fence(session, generation, context, sequence, closed)
    }

    constructor (id: Text, epoch: int, owner: Text, first: int)
      ensures View() == Fence(id, epoch, owner, first, false)
    {
      session, generation, context, sequence, closed := id, epoch, owner, first, false;
    }

    method Accept(v: Value) returns (ok: bool)
      modifies this
      ensures ok == Pass(old(View()), v).Some?
      ensures View() == if ok then Pass(old(View()), v).value else old(View())
    {
      if closed || !Stamped(v, Fence(session, generation, context, sequence, closed), sequence) {
        return false;
      }
      if sequence == MAX_SAFE {
        closed := true;
      } else {
        sequence := sequence + 1;
      }
      ok := true;
    }

    method Close()
      modifies this
      ensures View() == old(View()).(closed := true)
    {
      closed := true;
    }
  }

  // -------------------------------------------------------------------- rate

  const WINDOW_MS: real := 1000.0
  const MAX_RATE: int := 1024

  datatype Rate = Rate(start: real, count: int)

  /** `take`, whether or not it is granted. */
  function Tick(r: Rate, now: real): Rate {
    if now - r.start >= WINDOW_MS then Rate(now, 1) else Rate(r.start, r.count + 1)
  }

  class FrameRate {
    var start: real
    var count: int

    ghost function View(): Rate
      reads this
    {
      Rate(start, count)
    }

    constructor (now: real)
      ensures View() == Rate(now, 0)
    {
      start, count := now, 0;
    }

    method Take(now: real) returns (ok: bool)
      modifies this
      ensures View() == Tick(old(View()), now) && ok == (View().count <= MAX_RATE)
    {
      if now - start >= WINDOW_MS {
        start := now;
        count := 0;
      }
      count := count + 1;
      ok := count <= MAX_RATE;
    }
  }

  /** How many of a run of takes are granted. */
  ghost function Granted(r: Rate, times: seq<real>): nat
    decreases |times|
  {
    if times == [] then 0
    else
      var next := Tick(r, times[0]);
      (if next.count <= MAX_RATE then 1 else 0) + Granted(next, times[1..])
  }

  ghost predicate Forward(times: seq<real>) {
    forall i, j :: 0 <= i <= j < |times| ==> times[i] <= times[j]
  }

  function Spare(r: Rate): nat {
    if r.count < MAX_RATE then MAX_RATE - r.count else 0
  }

  lemma {:induction false} OneWindow(r: Rate, times: seq<real>)
    requires r.count >= 0 && forall i :: 0 <= i < |times| ==> times[i] - r.start < WINDOW_MS
    ensures Granted(r, times) <= Spare(r)
    decreases |times|
  {
    if times != [] {
      OneWindow(Tick(r, times[0]), times[1..]);
    }
  }

  lemma {:induction false} TwoWindows(r: Rate, times: seq<real>)
    requires r.count >= 0 && Forward(times)
    requires times != [] ==> times[|times| - 1] - times[0] < WINDOW_MS
    ensures Granted(r, times) <= Spare(r) + MAX_RATE
    decreases |times|
  {
    if times != [] {
      var next := Tick(r, times[0]);
      if times[0] - r.start >= WINDOW_MS {
        OneWindow(next, times[1..]);
      } else {
        TwoWindows(next, times[1..]);
      }
    }
  }

  /** Whatever the history, less than a second never sees more than two windows' worth:
      at most 2048 frames. */
  lemma AtMostTwoWindows(r: Rate, times: seq<real>)
    requires r.count >= 0 && Forward(times) && times != [] && times[|times| - 1] - times[0] < WINDOW_MS
    ensures Granted(r, times) <= 2 * MAX_RATE
  {
    TwoWindows(r, times);
  }

  // ---------------------------------------------------------------- endpoint

  datatype Item = Item(bytes: seq<Byte>, offset: nat, lease: nat, start: real)

  datatype Endpoint = Endpoint(
    closed: bool,
    incoming: Lane,
    outgoing: Lane,
    out: seq<Item>,
    queued: int,
    reader: State,
    fence: Fence)

  const MAX_QUEUED: int := MAX_FRAME + 4
  const MAX_WRITES: nat := 16
  const WRITE_MS: real := 2000.0

  /** What one native call came to and when: a number of bytes taken, a chunk of bytes
      (None for would-block), or an exception. */
  datatype Attempt = Attempt(now: real, taken: Result<nat>)
  datatype Arrival = Arrival(now: real, bytes: Result<Option<seq<Byte>>>)

  type Socket = nat -> Attempt

  function Unsent(i: Item): seq<Byte> {
    if i.offset <= |i.bytes| then i.bytes[i.offset..] else []
  }

  /** What one call does: the new endpoint and account, what reached the pipe, and
      whether it threw. */
  datatype Sent = Sent(e: Endpoint, a: Account, written: seq<Byte>, error: Option<ErrorCode>)

  function Least(m: nat, n: nat): nat {
    if m < n then m else n
  }

  /** One native write of the head item. */
  function WriteHead(e: Endpoint, a: Account, n: nat): Sent
    requires e.out != [] && n <= |Unsent(e.out[0])|
  {
    var item := e.out[0];
    var moved := item.(offset := item.offset + n);
    var bytes := Unsent(item)[..n];
    if moved.offset == |item.bytes| then
      Sent(e.(queued := e.queued - |item.bytes|, out := e.out[1..]),
           if item.lease < |a.leases| then Release(a, item.lease) else a, bytes, None)
    else Sent(e.(out := [moved] + e.out[1..]), a, bytes, None)
  }

  /** The loop of `flush` from its i-th turn. */
  function FlushFrom(e: Endpoint, a: Account, socket: Socket, i: nat): Sent
    decreases MAX_WRITES - i
  {
    if i >= MAX_WRITES || e.out == [] then Sent(e, a, [], None)
    else if socket(i).now - e.out[0].start >= WRITE_MS then Sent(e, a, [], Some(DEADLINE_EXCEEDED))
    else match socket(i).taken
      case Err(code) => Sent(e, a, [], Some(code))
      case Ok(n) =>
        var taken := Least(n, |Unsent(e.out[0])|);
        if taken == 0 then Sent(e, a, [], None)
        else
          var one := WriteHead(e, a, taken);
          var rest := FlushFrom(one.e, one.a, socket, i + 1);
          rest.(written := one.written + rest.written)
  }

  function Flush(e: Endpoint, a: Account, socket: Socket): Sent {
    if e.closed then Sent(e, a, [], Some(UNAVAILABLE)) else FlushFrom(e, a, socket, 0)
  }

  /** Queueing a frame, before the flush. */
  ghost function Enqueue(e: Endpoint, a: Account, v: Value, now: real): Sent {
    if e.closed then Sent(e, a, [], Some(UNAVAILABLE))
    else match Canonical(v, MAX_FRAME)
      case Err(code) => Sent(e, a, [], Some(code))
      case Ok(text) =>
        var size := ByteLen(text) + 4;
        if e.queued + size > MAX_QUEUED then Sent(e, a, [], Some(RESOURCE_EXHAUSTED))
        else match Reserve(a, size, e.outgoing.control)
          case Err(code) => Sent(e, a, [], Some(code))
          case Ok(b) =>
            match EncodeFrame(v, e.outgoing.schema)
            case Err(code) => Sent(e, Release(b, |a.leases|), [], Some(code))
            case Ok(bytes) =>
              Sent(e.(out := e.out + [Item(bytes, 0, |a.leases|, now)], queued := e.queued + size), b, [], None)
  }

  ghost function Send(e: Endpoint, a: Account, v: Value, now: real, socket: Socket): Sent {
    var q := Enqueue(e, a, v, now);
    if q.error.Some? then q else Flush(q.e, q.a, socket)
  }

  /** `again` asks for the second read; `decoded` is what the reader completed, handed
      over or not. */
  datatype Got = Got(
    e: Endpoint,
    a: Account,
    rate: Rate,
    taken: seq<Byte>,
    decoded: Option<Value>,
    result: Result<Option<Owned>>,
    again: bool)

  /** Fence and rate come after the frame has been taken off the wire. */
  function Screen(e: Endpoint, a: Account, rate: Rate, now: real, taken: seq<Byte>, owned: Owned): Got {
    var freed := if owned.lease < |a.leases| then Release(a, owned.lease) else a;
    match Pass(e.fence, owned.frame)
    case None => Got(e, freed, rate, taken, Some(owned.frame), Err(UNAUTHENTICATED), false)
    case Some(fence) =>
      var passed := e.(fence := fence);
      var r := Tick(rate, now);
      if r.count <= MAX_RATE then Got(passed, a, r, taken, Some(owned.frame), Ok(Some(owned)), false)
      else Got(passed, freed, r, taken, Some(owned.frame), Err(RESOURCE_EXHAUSTED), false)
  }

  /** One native read of at most readSize bytes, and its feed. */
  ghost function Pull(e: Endpoint, a: Account, rate: Rate, arrival: Arrival): Got
    requires WellShaped(e.reader)
  {
    match arrival.bytes
    case Err(code) => Got(e, a, rate, [], None, Err(code), false)
    case Ok(None) => Got(e, a, rate, [], None, Ok(None), false)
    case Ok(Some(all)) =>
      var bytes := all[..Least(|all|, ReadSize(e.reader))];
      if bytes == [] then Got(e, a, rate, [], None, Err(UNAVAILABLE), false)
      else
        var f := Feed(e.reader, a, bytes, arrival.now, e.incoming.control, e.incoming.schema);
        var fed := e.(reader := f.state);
        match f.result
        case Err(code) => Got(fed, f.account, rate, bytes, None, Err(code), false)
        case Ok(None) => Got(fed, f.account, rate, bytes, None, Ok(None), true)
        case Ok(Some(owned)) => Screen(fed, f.account, rate, arrival.now, bytes, owned)
  }

  ghost function Receive(e: Endpoint, a: Account, rate: Rate, now: real, first: Arrival, second: Arrival): Got
    requires WellShaped(e.reader)
  {
    if e.closed then Got(e, a, rate, [], None, Err(UNAVAILABLE), false)
    else if Late(e.reader, now) then
      Got(e.(reader := Shut(e.reader)), GiveBack(e.reader, a), rate, [], None, Err(DEADLINE_EXCEEDED), false)
    else
      var one := Pull(e, a, rate, first);
      if one.again && WellShaped(one.e.reader) then
        var two := Pull(one.e, one.a, one.rate, second);
        two.(taken := one.taken + two.taken, again := false)
      else one
  }

  /** Releasing every queued packet, oldest first. */
  function ReleaseAll(a: Account, items: seq<Item>): Account
    decreases |items|
  {
    if items == [] then a
    else ReleaseAll(if items[0].lease < |a.leases| then Release(a, items[0].lease) else a, items[1..])
  }

  function Close(e: Endpoint, a: Account): (Endpoint, Account) {
    if e.closed then (e, a)
    else
      (e.(closed := true, reader := Shut(e.reader), fence := e.fence.(closed := true), out := [], queued := 0),
       ReleaseAll(GiveBack(e.reader, a), e.out))
  }
}
