/** FrameReader: assembling frames from reads of any size, never holding a byte that
    is not charged to the shared account. */
module Readers {
  import opened Core
  import opened Budgets
  import opened Utf8
  import opened Values
  import opened Frames
  import Codec

  /** What the reader has in hand. The lease is the account index it must give back. */
  datatype State =
    | Idle
    | Prefix(got: seq<Byte>, lease: nat, start: real)
    | Filling(prefix: seq<Byte>, got: seq<Byte>, lease: nat, start: real)
    | Closed(since: Option<real>)

  const FRAME_MS: real := 2000.0

  ghost predicate WellShaped(s: State) {
    match s
    case Idle => true
    case Prefix(got, _, _) => 0 < |got| < 4
    case Filling(prefix, got, _, _) =>
      |prefix| == 4 && 0 < FromBig32(prefix) <= MAX_FRAME && |got| < FromBig32(prefix)
    case Closed(_) => true
  }

  function ReadSize(s: State): nat
    requires s.Prefix? ==> |s.got| <= 4
    requires s.Filling? ==> |s.prefix| == 4 && |s.got| <= FromBig32(s.prefix)
  {
    match s
    case Idle => 4
    case Prefix(got, _, _) => 4 - |got|
    case Filling(prefix, got, _, _) => FromBig32(prefix) - |got|
    case Closed(_) => 0
  }

  /** The bytes of an unfinished frame. */
  function Pending(s: State): seq<Byte> {
    match s
    case Prefix(got, _, _) => got
    case Filling(prefix, got, _, _) => prefix + got
    case _ => []
  }

  function Leased(s: State): Option<nat> {
    match s
    case Prefix(_, lease, _) => Some(lease)
    case Filling(_, _, lease, _) => Some(lease)
    case _ => None
  }

  /** When the unfinished frame began; a reader that gave up keeps the date. */
  function Started(s: State): Option<real> {
    match s
    case Idle => None
    case Prefix(_, _, start) => Some(start)
    case Filling(_, _, _, start) => Some(start)
    case Closed(since) => since
  }

  predicate Late(s: State, now: real) {
    Started(s).Some? && now - Started(s).value >= FRAME_MS
  }

  /** A completed frame and the lease that now belongs to whoever dispatches it. */
  datatype Owned = Owned(frame: Value, lease: nat)

  datatype Fed = Fed(state: State, account: Account, result: Result<Option<Owned>>)

  function GiveBack(s: State, a: Account): Account {
    match Leased(s)
    case None => a
    case Some(id) => if id < |a.leases| then Release(a, id) else a
  }

  function Shut(s: State): State {
    Closed(Started(s))
  }

  function Fail(s: State, a: Account, code: ErrorCode): Fed {
    Fed(Shut(s), GiveBack(s, a), Err(code))
  }

  /** `feed`. */
  ghost function Feed(s: State, a: Account, bytes: seq<Byte>, now: real, control: bool, schema: Schema): Fed
    requires WellShaped(s)
  {
    if s.Closed? then Fed(s, a, Err(UNAVAILABLE))
    else if Late(s, now) then Fail(s, a, DEADLINE_EXCEEDED)
    else if !(0 < |bytes| <= ReadSize(s)) then Fail(s, a, INVALID_ARGUMENT)
    else match s
      case Idle =>
        (match Reserve(a, 4, control)
         case Err(code) => Fed(Closed(Some(now)), a, Err(code))
         case Ok(b) => FeedPrefix(Prefix([], |a.leases|, now), b, bytes, control))
      case Prefix(_, _, _) => FeedPrefix(s, a, bytes, control)
      case Filling(prefix, got, lease, start) =>
        var all := got + bytes;
        if |all| < FromBig32(prefix) then Fed(Filling(prefix, all, lease, start), a, Ok(None))
        else match DecodeBody(all, schema)
          case Err(code) => Fail(s, a, code)
          case Ok(frame) => Fed(Idle, a, Ok(Some(Owned(frame, lease))))
  }

  ghost function FeedPrefix(s: State, a: Account, bytes: seq<Byte>, control: bool): Fed
    requires s.Prefix? && |s.got| + |bytes| <= 4
  {
    var all := s.got + bytes;
    if |all| < 4 then Fed(Prefix(all, s.lease, s.start), a, Ok(None))
    else
      var n := FromBig32(all);
      if !(0 < n <= MAX_FRAME) then Fail(s, a, RESOURCE_EXHAUSTED)
      else
        var freed := GiveBack(s, a);
        match Reserve(freed, n + 4, control)
        case Err(code) => Fed(Shut(s), freed, Err(code))
        case Ok(b) => Fed(Filling(all, [], |freed.leases|, s.start), b, Ok(None))
  }

  /** An unfinished frame that began two seconds ago is given up: the deadline is the
      answer, the reader is closed, and what it held is returned. */
  lemma LateExactly(s: State, a: Account, bytes: seq<Byte>, now: real, control: bool, schema: Schema)
    requires WellShaped(s) && !s.Closed?
    ensures Late(s, now) <==> (s.Prefix? || s.Filling?) && now - s.start >= 2000.0
    ensures Late(s, now) ==>
      var f := Feed(s, a, bytes, now, control, schema);
      f.result == Err(DEADLINE_EXCEEDED) && f.state == Closed(Some(s.start))
      && (s.lease < |a.leases| ==> f.account == Release(a, s.lease))
  {
  }

  /** A frame is as old as its first byte: later bytes do not change when it began. */
  lemma AgeStays(s: State, a: Account, bytes: seq<Byte>, now: real, control: bool, schema: Schema)
    requires WellShaped(s) && !s.Closed?
    ensures
      var t := Feed(s, a, bytes, now, control, schema).state;
      t.Prefix? || t.Filling? ==> t.start == if s.Idle? then now else s.start
  {
    hide DecodeBody, FromBig32, Reserve, Release;
  }

  // ------------------------------------------------------------------ leases

  /** The reader's lease is open and covers exactly what it holds room for: four bytes
      while the prefix is incomplete, the whole packet afterwards. */
  ghost predicate Holds(s: State, a: Account, control: bool) {
    match s
    case Prefix(_, lease, _) => lease < |a.leases| && a.leases[lease] == Lease(4, control, false)
    case Filling(prefix, _, lease, _) =>
      |prefix| == 4 && lease < |a.leases| && a.leases[lease] == Lease(FromBig32(prefix) + 4, control, false)
    case _ => true
  }

  /** The lease that goes to the dispatcher with a completed frame. */
  function Passed(f: Fed): Option<nat> {
    if f.result.Ok? && f.result.value.Some? then Some(f.result.value.value.lease) else None
  }

  /** Nobody else's lease is touched; of the reader's own, old and new, the one that is
      still open is in the reader's hands or goes out with the frame. */
  ghost predicate Exchanges(s: State, a: Account, f: Fed) {
    && |a.leases| <= |f.account.leases|
    && (forall k: nat :: k < |a.leases| && Leased(s) != Some(k) ==> f.account.leases[k] == a.leases[k])
    && (forall k: nat :: k < |f.account.leases| && (k >= |a.leases| || Leased(s) == Some(k)) && !f.account.leases[k].released ==>
          Leased(f.state) == Some(k) || Passed(f) == Some(k))
    && (Leased(f.state).Some? ==> Leased(f.state) == Leased(s) || Leased(f.state).value >= |a.leases|)
    && (Passed(f).Some? ==> Passed(f) == Leased(s) && f.state.Idle? && f.account == a)
    && (f.result.Err? ==> f.state.Closed?)
  }

  /** One `feed`: the account stays balanced, and the reader ends up holding exactly its
      own open lease of the right size, or none. */
  lemma FeedKeepsLeases(s: State, a: Account, bytes: seq<Byte>, now: real, control: bool, schema: Schema)
    requires WellShaped(s) && Balanced(a) && Holds(s, a, control)
    ensures
      var f := Feed(s, a, bytes, now, control, schema);
      && WellShaped(f.state) && Balanced(f.account) && Holds(f.state, f.account, control)
      && Exchanges(s, a, f)
  {
    hide DecodeBody, FromBig32, Balanced, FeedPrefix, Reserve, Release, Exchanges;
    if s.Closed? || Late(s, now) || !(0 < |bytes| <= ReadSize(s)) {
      RefusalKeepsLeases(s, a, if Late(s, now) then DEADLINE_EXCEEDED else INVALID_ARGUMENT);
    } else if s.Idle? {
      IdleKeepsLeases(a, bytes, now, control, schema);
    } else if s.Prefix? {
      PrefixKeepsLeases(s, a, bytes, control);
    } else {
      BodyKeepsLeases(s, a, bytes, now, control, schema);
    }
  }

  lemma RefusalKeepsLeases(s: State, a: Account, code: ErrorCode)
    requires WellShaped(s) && Balanced(a) && (Leased(s).Some? ==> Leased(s).value < |a.leases|)
    ensures Balanced(GiveBack(s, a)) && Exchanges(s, a, Fail(s, a, code))
    ensures s.Closed? ==> Exchanges(s, a, Fed(s, a, Err(UNAVAILABLE)))
  {
    hide Balanced;
    if Leased(s).Some? {
      ReleaseKeepsBalance(a, Leased(s).value);
    }
  }

  lemma IdleKeepsLeases(a: Account, bytes: seq<Byte>, now: real, control: bool, schema: Schema)
    requires Balanced(a) && 0 < |bytes| <= 4
    ensures
      var f := Feed(Idle, a, bytes, now, control, schema);
      WellShaped(f.state) && Balanced(f.account) && Holds(f.state, f.account, control) && Exchanges(Idle, a, f)
  {
    hide Balanced, FeedPrefix, FromBig32, Reserve;
    ReserveKeepsBalance(a, 4, control);
    if Reserve(a, 4, control).Ok? {
      PrefixKeepsLeases(Prefix([], |a.leases|, now), Reserve(a, 4, control).value, bytes, control);
    }
  }

  lemma BodyKeepsLeases(s: State, a: Account, bytes: seq<Byte>, now: real, control: bool, schema: Schema)
    requires WellShaped(s) && s.Filling? && Balanced(a) && Holds(s, a, control) && !Late(s, now) && 0 < |bytes| <= ReadSize(s)
    ensures
      var f := Feed(s, a, bytes, now, control, schema);
      WellShaped(f.state) && Balanced(f.account) && Holds(f.state, f.account, control) && Exchanges(s, a, f)
  {
    hide Balanced, DecodeBody, FromBig32, Release;
    ReleaseKeepsBalance(a, s.lease);
  }

  lemma PrefixKeepsLeases(s: State, a: Account, bytes: seq<Byte>, control: bool)
    requires s.Prefix? && 0 < |bytes| && |s.got| + |bytes| <= 4 && Balanced(a) && Holds(s, a, control)
    ensures
      var f := FeedPrefix(s, a, bytes, control);
      && WellShaped(f.state) && Balanced(f.account) && Holds(f.state, f.account, control)
      && Exchanges(s, a, f) && Passed(f) == None
  {
    hide Balanced;
    ReleaseKeepsBalance(a, s.lease);
    if |s.got + bytes| == 4 {
      var freed := GiveBack(s, a);
      ReserveKeepsBalance(freed, FromBig32(s.got + bytes) + 4, control);
    }
  }

  // ------------------------------------------------------------------ contents

  lemma PendingIncomplete(s: State)
    requires WellShaped(s)
    ensures Incomplete(Pending(s))
  {
    if s.Filling? {
      assert (s.prefix + s.got)[..4] == s.prefix;
    }
  }

  /** While the reader is open, what it was fed is exactly the packets of the frames it
      gave out followed by what it still holds. */
  lemma FeedAccounts(s: State, a: Account, bytes: seq<Byte>, now: real, control: bool, schema: Schema)
    requires WellShaped(s)
    ensures
      var f := Feed(s, a, bytes, now, control, schema);
      && WellShaped(f.state) && (f.result.Err? <==> f.state.Closed?)
      && (f.result.Ok? ==>
            match f.result.value
            case None => Pending(f.state) == Pending(s) + bytes
            case Some(owned) =>
              && Sendable(owned.frame, schema)
              && Pending(s) + bytes == Bytes(owned.frame)
              && f.state == Idle)
  {
    hide DecodeBody, Reserve, Release, FromBig32, Bytes, Sendable;
    var f := Feed(s, a, bytes, now, control, schema);
    if f.result.Ok? && s.Filling? {
      var p := s.prefix + (s.got + bytes);
      assert s.prefix + s.got + bytes == p;
      if f.result.value.Some? {
        assert p[..4] == s.prefix && p[4..] == s.got + bytes;
        DecodeEncodes(p, f.result.value.value.frame, schema);
      }
    }
  }

  /** An open reader always asks for at least one byte. */
  lemma ReadSizePositive(s: State)
    requires WellShaped(s)
    ensures ReadSize(s) == 0 <==> s.Closed?
  {
  }

  /** What the reader itself has charged. */
  function Charge(s: State): nat
    requires s.Filling? ==> |s.prefix| == 4
  {
    match s
    case Prefix(_, _, _) => 4
    case Filling(prefix, _, _, _) => FromBig32(prefix) + 4
    case _ => 0
  }

  /** Everyone else's charges leave no room for a packet of n bytes. */
  ghost predicate NoRoom(s: State, a: Account, n: nat, control: bool)
    requires s.Filling? ==> |s.prefix| == 4
  {
    if control then a.control - Charge(s) + n > MAX_CONTROL
    else
      || a.frames - (if Leased(s).Some? then 1 else 0) >= MAX_FRAMES
      || a.bytes - Charge(s) + n > MAX_BYTES
  }

  /** Honest bytes are never refused for what they say: any chunk of at most ReadSize
      bytes of a stream of frames this lane accepts is taken, unless the others sharing
      the account leave no room for the packet it belongs to. */
  lemma HonestBytesAccepted(s: State, a: Account, bytes: seq<Byte>, now: real, control: bool, schema: Schema,
                            coming: seq<Value>, rest: seq<Byte>)
    requires WellShaped(s) && Holds(s, a, control) && !s.Closed? && !Late(s, now) && 0 < |bytes| <= ReadSize(s)
    requires AllSendable(coming, schema) && Pending(s) + bytes + rest == Wire(coming)
    ensures coming != []
    ensures
      var f := Feed(s, a, bytes, now, control, schema);
      f.result.Err? ==> f.result.code == RESOURCE_EXHAUSTED && NoRoom(s, a, |Bytes(coming[0])|, control)
  {
    hide Feed, FeedPrefix, NoRoom, Reserve, Bytes, Wire, Sendable, FromBig32;
    var all := Pending(s) + bytes;
    HonestHead(all, rest, coming, schema);
    match s
    case Idle => assert all == bytes; HonestIdle(a, bytes, now, control, schema, Bytes(coming[0]));
    case Prefix(got, _, _) => HonestPrefix(s, a, bytes, now, control, schema, Bytes(coming[0]));
    case Filling(_, _, _, _) => HonestBody(s, a, bytes, now, control, schema, coming[0]);
  }

  lemma HonestHead(all: seq<Byte>, rest: seq<Byte>, coming: seq<Value>, schema: Schema)
    requires AllSendable(coming, schema) && all != [] && all + rest == Wire(coming)
    ensures coming != []
    ensures
      var p := Bytes(coming[0]);
      && 5 <= |p| <= MAX_FRAME + 4 && FromBig32(p[..4]) == |p| - 4
      && DecodeBody(p[4..], schema) == Ok(coming[0])
      && (|all| >= 4 ==> all[..4] == p[..4])
      && (|all| == |p| ==> all == p)
  {
    hide DecodeBody, FromBig32, Bytes, Wire, Sendable;
    EmptyWire();
    assert (all + rest)[0] == all[0];
    WireHead(coming, schema);
    EncodeDecodes(coming[0], schema);
    HeadOf(all, rest, Bytes(coming[0]), Wire(coming[1..]));
  }

  lemma HonestIdle(a: Account, bytes: seq<Byte>, now: real, control: bool, schema: Schema, p: seq<Byte>)
    requires 0 < |bytes| <= 4 && 5 <= |p| <= MAX_FRAME + 4 && FromBig32(p[..4]) == |p| - 4
    requires |bytes| == 4 ==> bytes == p[..4]
    ensures
      var f := Feed(Idle, a, bytes, now, control, schema);
      f.result.Err? ==> f.result.code == RESOURCE_EXHAUSTED && NoRoom(Idle, a, |p|, control)
  {
    hide FromBig32, DecodeBody;
    if Reserve(a, 4, control).Ok? && |bytes| == 4 {
      var s := Prefix([], |a.leases|, now);
      var b := Reserve(a, 4, control).value;
      assert s.got + bytes == bytes;
      assert GiveBack(s, b) == a.(leases := GiveBack(s, b).leases);
    }
  }

  lemma HonestPrefix(s: State, a: Account, bytes: seq<Byte>, now: real, control: bool, schema: Schema, p: seq<Byte>)
    requires WellShaped(s) && s.Prefix? && !Late(s, now) && Holds(s, a, control)
    requires 0 < |bytes| <= ReadSize(s) && 5 <= |p| <= MAX_FRAME + 4 && FromBig32(p[..4]) == |p| - 4
    requires |s.got + bytes| == 4 ==> s.got + bytes == p[..4]
    ensures
      var f := Feed(s, a, bytes, now, control, schema);
      f.result.Err? ==> f.result.code == RESOURCE_EXHAUSTED && NoRoom(s, a, |p|, control)
  {
    hide FromBig32, DecodeBody;
  }

  lemma HonestBody(s: State, a: Account, bytes: seq<Byte>, now: real, control: bool, schema: Schema, v: Value)
    requires WellShaped(s) && s.Filling? && !Late(s, now) && 0 < |bytes| <= ReadSize(s)
    requires 5 <= |Bytes(v)| && FromBig32(Bytes(v)[..4]) == |Bytes(v)| - 4 && DecodeBody(Bytes(v)[4..], schema) == Ok(v)
    requires (Pending(s) + bytes)[..4] == Bytes(v)[..4]
    requires |Pending(s) + bytes| == |Bytes(v)| ==> Pending(s) + bytes == Bytes(v)
    ensures Feed(s, a, bytes, now, control, schema).result.Ok?
  {
    hide DecodeBody, FromBig32, Bytes, Release;
    var all := Pending(s) + bytes;
    assert all == s.prefix + (s.got + bytes);
    assert all[..4] == s.prefix && all[4..] == s.got + bytes;
  }

  /** Two streams that agree have the same first four bytes and, if the first piece is
      as long as the packet, the whole packet. */
  lemma HeadOf(all: seq<Byte>, rest: seq<Byte>, p: seq<Byte>, more: seq<Byte>)
    requires all + rest == p + more && |p| >= 5
    ensures |all| >= 4 ==> all[..4] == p[..4]
    ensures |all| == |p| ==> all == p
  {
    assert |all| >= 4 ==> (all + rest)[..4] == all[..4];
    assert (p + more)[..4] == p[..4];
    assert |all| == |p| ==> (all + rest)[..|all|] == all;
    assert (p + more)[..|p|] == p;
  }

  // --------------------------------------------------------------- the class

  class FrameReader {
    const budget: WireBudget
    const control: bool
    const prefix: array<Byte>
    var prefixUsed: nat
    var body: array?<Byte>
    var used: nat
    var release: Option<nat>
    var started: Option<real>
    var closed: bool

    ghost function View(): State
      reads this, prefix, body
      requires prefixUsed <= prefix.Length && (body != null ==> used <= body.Length)
    {
      if closed then Closed(started)
      else if release.None? || started.None? then Idle
      else if body == null then Prefix(prefix[..prefixUsed], release.value, started.value)
      else Filling(prefix[..], body[..used], release.value, started.value)
    }

    ghost predicate Valid()
      reads this, prefix, body, budget
    {
      && budget.Valid()
      && prefix.Length == 4 && prefixUsed <= 4
      && (body != null ==> body != prefix && used < body.Length)
      && (closed ==> release.None? && body == null)
      && (!closed ==>
            && (release.Some? <==> started.Some?)
            && (release.None? ==> prefixUsed == 0 && body == null)
            && (body == null ==> used == 0)
            && (body != null ==> prefixUsed == 4 && body.Length == FromBig32(prefix[..])))
      && WellShaped(View())
      && Holds(View(), budget.View(), control)
    }

    constructor (account: WireBudget, isControl: bool)
      requires account.Valid()
      ensures Valid() && View() == Idle && budget == account && control == isControl
      ensures fresh(prefix) && body == null
    {
      budget, control := account, isControl;
      prefix := new Byte[4](_ => 0);
      prefixUsed, body, used, release, started, closed := 0, null, 0, None, None, false;
    }

    /** `readSize`. */
    method Size() returns (n: nat)
      requires Valid()
      ensures n == ReadSize(View())
    {
      n := if closed then 0 else if body != null then body.Length - used else 4 - prefixUsed;
    }

    /** `checkDeadline`. */
    method CheckDeadline(now: real) returns (late: bool)
      requires Valid()
      modifies this, budget
      ensures Valid() && late == Late(old(View()), now)
      ensures body == null || body == old(body)
      ensures View() == if late then Shut(old(View())) else old(View())
      ensures budget.View() == if late then GiveBack(old(View()), old(budget.View())) else old(budget.View())
    {
      hide Balanced, FromBig32, Release;
      late := started.Some? && now - started.value >= FRAME_MS;
      if late {
        Close();
      }
    }

    method Close()
      requires budget.Valid() && prefixUsed <= prefix.Length
      requires release.Some? ==> release.value < |budget.leases|
      modifies this, budget
      ensures closed && body == null && release == None && budget.Valid()
      ensures prefixUsed == old(prefixUsed) && started == old(started)
      ensures budget.View() == if old(release).Some? then Release(old(budget.View()), old(release).value) else old(budget.View())
    {
      closed := true;
      if release.Some? {
        budget.Give(release.value);
      }
      release := None;
      body := null;
    }

    /** `feed`: exactly the step of the specification, on the buffers. */
    method Accept(bytes: seq<Byte>, now: real, schema: Schema) returns (r: Result<Option<Owned>>)
      requires Valid()
      modifies this, prefix, body, budget
      ensures prefix.Length == 4
      ensures Valid()
      ensures
        var f := Feed(old(View()), old(budget.View()), bytes, now, control, schema);
        r == f.result && View() == f.state && budget.View() == f.account
      ensures body != null ==> body == old(body) || fresh(body)
    {
      hide Balanced, FromBig32, Reserve, Release, DecodeBody, FeedPrefix;
      if closed {
        return Err(UNAVAILABLE);
      }
      var late := CheckDeadline(now);
      if late {
        return Err(DEADLINE_EXCEEDED);
      }
      var size := Size();
      if !(0 < |bytes| <= size) {
        Close();
        return Err(INVALID_ARGUMENT);
      }
      if started.None? {
        var taken := Begin(now);
        if taken.Some? {
          return Err(taken.value);
        }
      }
      if body == null {
        r := AcceptPrefix(bytes);
      } else {
        r := AcceptBody(bytes, schema);
      }
    }

    /** The first byte of a frame starts its clock and its four-byte lease. */
    method Begin(now: real) returns (failed: Option<ErrorCode>)
      requires Valid() && View() == Idle
      modifies this, budget
      ensures prefix.Length == 4 && prefixUsed == 0 && body == null
      ensures
        match Reserve(old(budget.View()), 4, control)
        case Err(code) => failed == Some(code) && Valid() && View() == Closed(Some(now)) && budget.View() == old(budget.View())
        case Ok(b) => failed == None && InPrefix() && budget.View() == b && View() == Prefix([], old(|budget.leases|), now)
    {
      hide Balanced, FromBig32;
      started := Some(now);
      var taken := budget.Take(4, control);
      if taken.Err? {
        Close();
        return Some(taken.code);
      }
      release := Some(taken.value);
      assert prefix[..0] == [];
      failed := None;
    }

    ghost predicate InPrefix()
      reads this, prefix, body, budget
    {
      && budget.Valid() && !closed && body == null && used == 0
      && prefix.Length == 4 && prefixUsed < 4
      && release.Some? && started.Some?
      && Holds(View(), budget.View(), control)
    }

    method AcceptPrefix(bytes: seq<Byte>) returns (r: Result<Option<Owned>>)
      requires InPrefix() && 0 < |bytes| <= 4 - prefixUsed
      modifies this, prefix, budget
      ensures Valid()
      ensures
        var f := FeedPrefix(old(View()), old(budget.View()), bytes, control);
        r == f.result && View() == f.state && budget.View() == f.account
      ensures body == null || fresh(body)
    {
      hide Balanced, FromBig32, Reserve, Release;
      CopyInto(prefix, prefixUsed, bytes);
      prefixUsed := prefixUsed + |bytes|;
      ghost var all := old(View()).got + bytes;
      assert prefix[..prefixUsed] == all;
      if prefixUsed < 4 {
        return Ok(None);
      }
      assert prefix[..] == all;
      var length := FromBig32(prefix[..]);
      if !(0 < length <= MAX_FRAME) {
        Close();
        return Err(RESOURCE_EXHAUSTED);
      }
      budget.Give(release.value);
      release := None;
      var taken := budget.Take(length + 4, control);
      if taken.Err? {
        Close();
        return Err(taken.code);
      }
      ReserveKeepsBalance(Release(old(budget.View()), old(release).value), length + 4, control);
      release := Some(taken.value);
      body := new Byte[length](_ => 0);
      assert body[..0] == [];
      return Ok(None);
    }

    method AcceptBody(bytes: seq<Byte>, schema: Schema) returns (r: Result<Option<Owned>>)
      requires Valid() && !closed && body != null && 0 < |bytes| <= body.Length - used
      modifies this, body, budget
      ensures Valid()
      ensures
        var s, a := old(View()), old(budget.View());
        var all := s.got + bytes;
        if |all| < FromBig32(s.prefix) then
          r == Ok(None) && View() == Filling(s.prefix, all, s.lease, s.start) && budget.View() == a
        else match DecodeBody(all, schema)
          case Err(code) => r == Err(code) && View() == Shut(s) && budget.View() == GiveBack(s, a)
          case Ok(frame) => r == Ok(Some(Owned(frame, s.lease))) && View() == Idle && budget.View() == a
      ensures body != null ==> body == old(body)
    {
      hide Balanced, FromBig32, Reserve, Release, DecodeBody;
      CopyInto(body, used, bytes);
      used := used + |bytes|;
      ghost var all := old(View()).got + bytes;
      assert body[..used] == all;
      if used < body.Length {
        return Ok(None);
      }
      assert body[..] == all;
      var frame := Codec.ReadFrame(body[..], schema);
      if frame.Err? {
        Close();
        return Err(frame.code);
      }
      r := Ok(Some(Owned(frame.value, release.value)));
      release, body, prefixUsed, used, started := None, null, 0, 0, None;
    }
  }

  /** Uint8Array.prototype.set. */
  method CopyInto(a: array<Byte>, at: nat, bytes: seq<Byte>)
    requires at + |bytes| <= a.Length
    modifies a
    ensures a[..] == old(a[..at]) + bytes + old(a[at + |bytes|..])
  {
    var i := 0;
    while i < |bytes|
      invariant i <= |bytes|
      invariant forall k :: 0 <= k < a.Length ==>
        a[k] == if at <= k < at + i then bytes[k - at] else old(a[k])
    {
      a[at + i] := bytes[i];
      i := i + 1;
    }
  }
}
