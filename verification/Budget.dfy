/** The shared byte and frame account of one physical worker. Every lease is a
    one-shot closure in the source; here a lease is an index into the account's
    history and `released` is the flag that closure captures. */
module Budgets {
  import opened Core

  const MAX_FRAMES: int := 64
  const MAX_BYTES: int := 8388608
  const MAX_CONTROL: int := 65536

  datatype Lease = Lease(bytes: nat, control: bool, released: bool)

  datatype Account = Account(bytes: int, frames: int, control: int, leases: seq<Lease>)

  const EMPTY_ACCOUNT := Account(0, 0, 0, [])

  function Reserve(a: Account, bytes: int, control: bool): Result<Account> {
    if bytes <= 0 || bytes > MAX_SAFE then Err(INTERNAL)
    else if control then
      if a.control + bytes <= MAX_CONTROL
      then Ok(a.(control := a.control + bytes, leases := a.leases + [Lease(bytes, true, false)]))
      else Err(RESOURCE_EXHAUSTED)
    else if a.frames < MAX_FRAMES && a.bytes + bytes <= MAX_BYTES
    then Ok(a.(frames := a.frames + 1, bytes := a.bytes + bytes,
               leases := a.leases + [Lease(bytes, false, false)]))
    else Err(RESOURCE_EXHAUSTED)
  }

  /** Calling the closure of lease `id`; the second call does nothing. */
  function Release(a: Account, id: nat): Account
    requires id < |a.leases|
  {
    var l := a.leases[id];
    if l.released then a
    else
      var done := a.leases[id := l.(released := true)];
      if l.control then a.(control := a.control - l.bytes, leases := done)
      else a.(frames := a.frames - 1, bytes := a.bytes - l.bytes, leases := done)
  }

  /** What is still owed, computed from the leases alone. */
  ghost function OpenBytes(leases: seq<Lease>): nat {
    if leases == [] then 0
    else
      var l := leases[|leases| - 1];
      OpenBytes(leases[..|leases| - 1]) + if !l.released && !l.control then l.bytes else 0
  }

  ghost function OpenControl(leases: seq<Lease>): nat {
    if leases == [] then 0
    else
      var l := leases[|leases| - 1];
      OpenControl(leases[..|leases| - 1]) + if !l.released && l.control then l.bytes else 0
  }

  ghost function OpenFrames(leases: seq<Lease>): nat {
    if leases == [] then 0
    else
      var l := leases[|leases| - 1];
      OpenFrames(leases[..|leases| - 1]) + if !l.released && !l.control then 1 else 0
  }

  /** Conservation: the three counters are exactly the outstanding leases, and
      the three limits hold. */
  ghost predicate Balanced(a: Account) {
    && a.bytes == OpenBytes(a.leases) <= MAX_BYTES
    && a.frames == OpenFrames(a.leases) <= MAX_FRAMES
    && a.control == OpenControl(a.leases) <= MAX_CONTROL
  }

  lemma {:induction false} Settling(leases: seq<Lease>, id: nat)
    requires id < |leases| && !leases[id].released
    ensures
      var l := leases[id];
      var done := leases[id := l.(released := true)];
      && OpenBytes(done) == OpenBytes(leases) - (if l.control then 0 else l.bytes)
      && OpenControl(done) == OpenControl(leases) - (if l.control then l.bytes else 0)
      && OpenFrames(done) == OpenFrames(leases) - (if l.control then 0 else 1)
  {
    var last := |leases| - 1;
    var done := leases[id := leases[id].(released := true)];
    if id == last {
      assert done[..last] == leases[..last];
    } else {
      Settling(leases[..last], id);
      assert done[..last] == leases[..last][id := leases[id].(released := true)];
    }
  }

  /** A reservation is either refused with the account untouched or adds one open lease. */
  lemma ReserveKeepsBalance(a: Account, bytes: int, control: bool)
    requires Balanced(a)
    ensures
      var r := Reserve(a, bytes, control);
      r.Ok? ==>
        && Balanced(r.value)
        && 0 < bytes
        && r.value.leases == a.leases + [Lease(bytes, control, false)]
  {
    var r := Reserve(a, bytes, control);
    if r.Ok? {
      assert r.value.leases[..|a.leases|] == a.leases;
    }
  }

  /** Room for a lease: of at least one byte, within 64 KiB of control bytes, or within
      64 frames and 8 MiB of others. */
  predicate HasRoom(a: Account, bytes: int, control: bool) {
    && 0 < bytes <= MAX_SAFE
    && if control then a.control + bytes <= 65536 else a.frames < 64 && a.bytes + bytes <= 8388608
  }

  /** A reservation succeeds exactly when there is room. */
  lemma ReserveExactly(a: Account, bytes: int, control: bool)
    ensures Reserve(a, bytes, control).Ok? <==> HasRoom(a, bytes, control)
    ensures Reserve(a, bytes, control).Err? ==>
      Reserve(a, bytes, control).code == if 0 < bytes <= MAX_SAFE then RESOURCE_EXHAUSTED else INTERNAL
  {
  }

  /** Releasing gives back exactly what was reserved, once. */
  lemma ReleaseKeepsBalance(a: Account, id: nat)
    requires Balanced(a) && id < |a.leases|
    ensures Balanced(Release(a, id))
    ensures Release(a, id).leases == a.leases[id := a.leases[id].(released := true)]
    ensures Release(Release(a, id), id) == Release(a, id)
  {
    if !a.leases[id].released {
      Settling(a.leases, id);
    } else {
      assert a.leases[id := a.leases[id].(released := true)] == a.leases;
    }
  }

  /** Reserving and releasing is the identity on the three counters, whatever else
      is outstanding. */
  lemma ReserveReleaseCancel(a: Account, bytes: int, control: bool)
    requires Reserve(a, bytes, control).Ok?
    ensures
      var back := Release(Reserve(a, bytes, control).value, |a.leases|);
      back.bytes == a.bytes && back.frames == a.frames && back.control == a.control
  {
  }

  /** The open data leases, as a set of indices. */
  ghost function OpenIds(leases: seq<Lease>): set<nat> {
    set i: nat | i < |leases| && !leases[i].released && !leases[i].control
  }

  lemma {:induction false} FramesCountOpenIds(leases: seq<Lease>)
    ensures OpenFrames(leases) == |OpenIds(leases)|
  {
    if leases != [] {
      var last := |leases| - 1;
      FramesCountOpenIds(leases[..last]);
      if !leases[last].released && !leases[last].control {
        assert OpenIds(leases) == OpenIds(leases[..last]) + {last};
      } else {
        assert OpenIds(leases) == OpenIds(leases[..last]);
      }
    }
  }

  /** The imperative account of wire.ts. */
  class WireBudget {
    var bytes: int
    var frames: int
    var control: int
    var leases: seq<Lease>

    ghost function View(): Account
      reads this
    {
      Account(bytes, frames, control, leases)
    }

    ghost predicate Valid()
      reads this
    {
      Balanced(View())
    }

    constructor ()
      ensures Valid() && View() == EMPTY_ACCOUNT
    {
      bytes, frames, control, leases := 0, 0, 0, [];
    }

    /** Either a fresh open lease, or an error and no change at all. */
    method Take(amount: int, isControl: bool) returns (r: Result<nat>)
      requires Valid()
      modifies this
      ensures Valid()
      ensures r.Ok? <==> Reserve(old(View()), amount, isControl).Ok?
      ensures r.Ok? ==> r.value == old(|leases|) && View() == Reserve(old(View()), amount, isControl).value
      ensures r.Err? ==> View() == old(View()) && r.code == Reserve(old(View()), amount, isControl).code
    {
      ReserveKeepsBalance(View(), amount, isControl);
      if amount <= 0 || amount > MAX_SAFE {
        return Err(INTERNAL);
      }
      if isControl {
        if control + amount > MAX_CONTROL {
          return Err(RESOURCE_EXHAUSTED);
        }
        control := control + amount;
      } else {
        if frames >= MAX_FRAMES || bytes + amount > MAX_BYTES {
          return Err(RESOURCE_EXHAUSTED);
        }
        frames := frames + 1;
        bytes := bytes + amount;
      }
      r := Ok(|leases|);
      leases := leases + [Lease(amount, isControl, false)];
    }

    method Give(id: nat)
      requires Valid() && id < |leases|
      modifies this
      ensures Valid() && View() == Release(old(View()), id)
      ensures leases == old(leases)[id := old(leases)[id].(released := true)]
    {
      ReleaseKeepsBalance(View(), id);
      var l := leases[id];
      if l.released {
        return;
      }
      leases := leases[id := l.(released := true)];
      if l.control {
        control := control - l.bytes;
      } else {
        frames := frames - 1;
        bytes := bytes - l.bytes;
      }
    }
  }
}
