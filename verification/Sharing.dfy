/** One scheduler, any number of endpoints, and the accounts they share: what each of
    them does on its own leaves the others' leases alone, and together they hold every
    open lease. */
module Sharing {
  import opened Budgets
  import opened Values
  import opened Frames
  import opened Readers
  import opened Streams
  import opened Links
  import opened Contexts
  import D = Delivery
  import T = Turns
  import TurnLemmas
  import R = Runs

  // -------------------------------------------------------- what one endpoint does

  /** Leases outside `mine` are left alone. */
  ghost predicate Leaves(a: Account, b: Account, mine: set<nat>) {
    && |a.leases| <= |b.leases|
    && forall id: nat :: id < |a.leases| && id !in mine ==> b.leases[id] == a.leases[id]
  }

  lemma LeavesOn(a: Account, b: Account, c: Account, mine: set<nat>, more: set<nat>)
    requires Leaves(a, b, mine) && Leaves(b, c, more)
    requires forall id :: id in more && id < |a.leases| ==> id in mine
    ensures Leaves(a, c, mine)
  {
  }

  lemma ReleaseLeaves(a: Account, id: nat, mine: set<nat>)
    requires id < |a.leases| && id in mine
    ensures Leaves(a, Release(a, id), mine) && |Release(a, id).leases| == |a.leases|
  {
  }

  lemma {:induction false} FlushLeaves(e: Endpoint, a: Account, socket: Socket, i: nat, mine: set<nat>, handed: map<nat, Value>)
    requires Links.LeasesOk(e, a, mine, handed)
    ensures Leaves(a, FlushFrom(e, a, socket, i).a, mine)
    decreases MAX_WRITES - i
  {
    hide Links.LeasesOk, Unsent, Release;
    if i < MAX_WRITES && e.out != [] && socket(i).taken.Ok? {
      var n := Least(socket(i).taken.value, |Unsent(e.out[0])|);
      if n > 0 {
        var one := WriteHead(e, a, n);
        WriteHeadKeepsLeases(e, a, n, mine, handed);
        if e.out[0].lease < |a.leases| {
          FirstLeaseGone(e, a, mine, handed);
          ReleaseLeaves(a, e.out[0].lease, mine);
        }
        FlushLeaves(one.e, one.a, socket, i + 1, mine, handed);
        LeavesOn(a, one.a, FlushFrom(one.e, one.a, socket, i + 1).a, mine, mine);
      }
    }
  }

  lemma EnqueueLeaves(e: Endpoint, a: Account, v: Value, now: real, mine: set<nat>)
    ensures Leaves(a, Enqueue(e, a, v, now).a, mine)
  {
    hide EncodeFrame;
  }

  lemma GiveBackLeaves(s: State, a: Account, mine: set<nat>)
    requires Leased(s).Some? ==> Leased(s).value in mine
    ensures Leaves(a, GiveBack(s, a), mine) && |GiveBack(s, a).leases| == |a.leases|
  {
  }

  lemma PullLeaves(e: Endpoint, a: Account, rate: Rate, arrival: Arrival, mine: set<nat>, handed: map<nat, Value>)
    requires Links.LeasesOk(e, a, mine, handed) && WellShaped(e.reader)
    ensures Leaves(a, Pull(e, a, rate, arrival).a, mine)
  {
    hide Bytes, Streams.Pass, Feed, FromBig32, Release, Balanced, OutHolds, HandedHolds;
    if arrival.bytes.Ok? && arrival.bytes.value.Some? {
      var all := arrival.bytes.value.value;
      var bytes := all[..Least(|all|, ReadSize(e.reader))];
      if bytes != [] {
        FeedKeepsLeases(e.reader, a, bytes, arrival.now, e.incoming.control, e.incoming.schema);
        var f := Feed(e.reader, a, bytes, arrival.now, e.incoming.control, e.incoming.schema);
        assert Leaves(a, f.account, mine);
        if f.result.Ok? && f.result.value.Some? {
          ReleaseLeaves(a, f.result.value.value.lease, mine);
        }
      }
    }
  }

  lemma ReceiveLeaves(e: Endpoint, a: Account, rate: Rate, now: real, first: Arrival, second: Arrival, mine: set<nat>, handed: map<nat, Value>)
    requires Links.LeasesOk(e, a, mine, handed) && WellShaped(e.reader)
    ensures Leaves(a, Receive(e, a, rate, now, first, second).a, mine)
  {
    hide Links.LeasesOk, Pull;
    if !e.closed && Late(e.reader, now) {
      ReaderIsMine(e, a, mine, handed);
      GiveBackLeaves(e.reader, a, mine);
    } else if !e.closed {
      PullLeaves(e, a, rate, first, mine, handed);
      PullKeepsLeases(e, a, rate, first, mine, handed);
      var one := Pull(e, a, rate, first);
      if one.again && WellShaped(one.e.reader) {
        AgainGivesNothing(e, a, rate, first);
        PullLeaves(one.e, one.a, one.rate, second, mine + NewLeases(a, one.a), handed);
        LeavesOn(a, one.a, Pull(one.e, one.a, one.rate, second).a, mine, mine + NewLeases(a, one.a));
      }
    }
  }

  lemma ReaderIsMine(e: Endpoint, a: Account, mine: set<nat>, handed: map<nat, Value>)
    requires Links.LeasesOk(e, a, mine, handed)
    ensures Leased(e.reader).Some? ==> Leased(e.reader).value in mine
  {
  }

  lemma {:induction false} ReleaseAllLeaves(a: Account, items: seq<Item>, mine: set<nat>)
    requires forall i :: 0 <= i < |items| ==> items[i].lease in mine
    ensures Leaves(a, ReleaseAll(a, items), mine) && |ReleaseAll(a, items).leases| == |a.leases|
    decreases |items|
  {
    hide Release;
    if items != [] {
      var b := if items[0].lease < |a.leases| then Release(a, items[0].lease) else a;
      if items[0].lease < |a.leases| {
        ReleaseLeaves(a, items[0].lease, mine);
      }
      ReleaseAllLeaves(b, items[1..], mine);
      LeavesOn(a, b, ReleaseAll(b, items[1..]), mine, mine);
    }
  }

  lemma CloseLeaves(e: Endpoint, a: Account, mine: set<nat>, handed: map<nat, Value>)
    requires Links.LeasesOk(e, a, mine, handed)
    ensures Leaves(a, Close(e, a).1, mine) && |Close(e, a).1.leases| == |a.leases|
  {
    hide GiveBack, ReleaseAll, Balanced, HandedHolds, Charged;
    if !e.closed {
      ReaderIsMine(e, a, mine, handed);
      GiveBackLeaves(e.reader, a, mine);
      ReleaseAllLeaves(GiveBack(e.reader, a), e.out, mine);
      LeavesOn(a, GiveBack(e.reader, a), Close(e, a).1, mine, mine);
    }
  }

  /** What an endpoint does by itself touches no lease but its own, and every lease it
      takes is its own from then on. */
  lemma ActLeaves(s: Side, op: Op)
    requires SideOk(s) && !op.Others?
    ensures Leaves(s.a, Act(s, op).a, s.mine)
    ensures Act(s, op).mine == s.mine + NewLeases(s.a, Act(s, op).a)
  {
    hide WritesOk, ReadsOk, Links.LeasesOk, FenceOk, Receive, Enqueue, FlushFrom, Close, Release;
    WellShapedNow(s);
    match op
    case DoSend(v, now, socket) =>
      var q := Enqueue(s.e, s.a, v, now);
      EnqueueLeaves(s.e, s.a, v, now, s.mine);
      if q.error.None? {
        EnqueueKeepsLeases(s.e, s.a, v, now, s.mine, s.handed);
        FlushLeaves(q.e, q.a, socket, 0, s.mine + NewLeases(s.a, q.a), s.handed);
        LeavesOn(s.a, q.a, FlushFrom(q.e, q.a, socket, 0).a, s.mine, s.mine + NewLeases(s.a, q.a));
      }
    case DoFlush(socket) =>
      FlushLeaves(s.e, s.a, socket, 0, s.mine, s.handed);
      FlushKeepsLeases(s.e, s.a, socket, 0, s.mine, s.handed);
      NothingNew(s, Act(s, op).a);
    case DoReceive(now, first, second) =>
      ReceiveLeaves(s.e, s.a, s.rate, now, first, second, s.mine, s.handed);
    case Dispatched(id) =>
      if id in s.handed && id < |s.a.leases| {
        HandedIsMine(s.e, s.a, s.mine, s.handed);
        ReleaseLeaves(s.a, id, s.mine);
      }
      NothingNew(s, Act(s, op).a);
    case DoClose =>
      CloseLeaves(s.e, s.a, s.mine, s.handed);
      NothingNew(s, Act(s, op).a);
  }

  lemma NothingNew(s: Side, b: Account)
    requires |b.leases| == |s.a.leases|
    ensures s.mine + NewLeases(s.a, b) == s.mine
  {
    assert NewLeases(s.a, b) == {};
  }

  lemma HandedIsMine(e: Endpoint, a: Account, mine: set<nat>, handed: map<nat, Value>)
    requires Links.LeasesOk(e, a, mine, handed)
    ensures forall id :: id in handed ==> id in mine
  {
  }

  // ------------------------------------------------------------- all of them together

  /** An endpoint of session `session`; its account is the session's. */
  datatype Party = Party(session: nat, side: Side)

  datatype Shared = Shared(world: World, parties: seq<Party>)

  /** The scheduler takes a turn; a session opens an endpoint; endpoint k does something. */
  datatype Deed =
    | Turns(turn: T.Op)
    | Opens(session: nat, side: Side)
    | Does(k: nat, op: Op)

  /** Endpoint p finds the account of its session changed. */
  ghost function Told(p: Party, w: World): Party
    requires p.session < |w.scheds| && WellShaped(p.side.e.reader)
  {
    p.(side := Act(p.side, Others(w.scheds[p.session].account)))
  }

  ghost predicate Placed(x: Shared) {
    forall k :: 0 <= k < |x.parties| ==> x.parties[k].session < |x.world.scheds| && WellShaped(x.parties[k].side.e.reader)
  }

  ghost function Charge(w: World, i: nat, a: Account): World
    requires i < |w.scheds|
  {
    WithSched(w, i, w.scheds[i].(account := a))
  }

  ghost predicate Step(x: Shared, d: Deed, y: Shared) {
    && Placed(x)
    && match d
       case Turns(op) =>
         && R.Turn(x.world, op, y.world) && !op.LendOp? && !op.ReturnOp? && |x.world.scheds| <= |y.world.scheds|
         && |y.parties| == |x.parties|
         && forall j: nat :: j < |x.parties| ==> y.parties[j] == Told(x.parties[j], y.world)
       case Opens(i, s) =>
         && i < |x.world.scheds| && D.Fresh(s) && s.a == x.world.scheds[i].account
         && y == x.(parties := x.parties + [Party(i, s)])
       case Does(k, op) =>
         && k < |x.parties| && !op.Others?
         && var i, t := x.parties[k].session, Act(x.parties[k].side, op);
            && y.world == Charge(x.world, i, t.a)
            && |y.parties| == |x.parties|
            && forall j: nat :: j < |x.parties| ==>
                 y.parties[j] == if j == k then Party(i, t) else Told(x.parties[j], y.world)
  }

  // ------------------------------------------------------------------ what is kept

  /** The endpoint's books are exact, its account is the session's, and none of its
      leases is a record's. */
  ghost predicate PartyOk(w: World, p: Party) {
    && p.session < |w.scheds|
    && SideOk(p.side)
    && p.side.a == w.scheds[p.session].account
    && forall id :: id in p.side.mine ==> !HoldsLease(w.scheds[p.session].records, id)
  }

  ghost predicate Apart(p: Party, q: Party) {
    p.session == q.session ==> p.side.mine !! q.side.mine
  }

  ghost predicate Taken(x: Shared, i: nat, id: nat) {
    exists k :: 0 <= k < |x.parties| && x.parties[k].session == i && id in x.parties[k].side.mine
  }

  /** Every open lease is some record's or some endpoint's. */
  ghost predicate Claimed(x: Shared) {
    forall i: nat, id: nat :: i < |x.world.scheds| && id < |x.world.scheds[i].account.leases| ==>
      x.world.scheds[i].account.leases[id].released || HoldsLease(x.world.scheds[i].records, id) || Taken(x, i, id)
  }

  ghost predicate SharedOk(x: Shared) {
    && Inv(x.world)
    && (forall k :: 0 <= k < |x.parties| ==> PartyOk(x.world, x.parties[k]))
    && (forall j, k :: 0 <= j < k < |x.parties| ==> Apart(x.parties[j], x.parties[k]))
    && Claimed(x)
  }

  lemma AccountIsBalanced(w: World, i: nat)
    requires Inv(w) && i < |w.scheds|
    ensures Balanced(w.scheds[i].account)
    ensures forall id: nat :: HoldsLease(w.scheds[i].records, id) ==>
      id < |w.scheds[i].account.leases| && !w.scheds[i].account.leases[id].released
  {
    hide Balanced, QueueOk, CountsOk, IdsOk;
    assert SchedOk(w, i, {});
    forall id: nat | HoldsLease(w.scheds[i].records, id)
      ensures id < |w.scheds[i].account.leases| && !w.scheds[i].account.leases[id].released
    {
      var r :| r in w.scheds[i].records && w.scheds[i].records[r].lease == id;
      assert RecordOk(w, i, {}, r);
    }
  }

  lemma MineExist(s: Side)
    requires SideOk(s)
    ensures WellShaped(s.e.reader) && forall id :: id in s.mine ==> id < |s.a.leases|
  {
    hide WritesOk, FenceOk, Balanced;
  }

  /** The account of p's session has changed, but not p's leases. */
  lemma ToldKeeps(w: World, v: World, p: Party)
    requires PartyOk(w, p) && Inv(v) && |w.scheds| <= |v.scheds|
    requires |w.scheds[p.session].account.leases| <= |v.scheds[p.session].account.leases|
    requires forall id :: id in p.side.mine && id < |p.side.a.leases| ==>
      && !HoldsLease(v.scheds[p.session].records, id)
      && v.scheds[p.session].account.leases[id] == p.side.a.leases[id]
    ensures WellShaped(p.side.e.reader) && PartyOk(v, Told(p, v)) && Told(p, v).session == p.session && Told(p, v).side.mine == p.side.mine
  {
    hide SideOk, Inv, HoldsLease, Balanced;
    MineExist(p.side);
    AccountIsBalanced(v, p.session);
    ActKeeps(p.side, Others(v.scheds[p.session].account));
    assert OthersMay(p.side, v.scheds[p.session].account);
  }

  lemma TurnTold(x: Shared, op: T.Op, y: Shared, k: nat)
    requires SharedOk(x) && Step(x, Turns(op), y) && k < |x.parties|
    ensures PartyOk(y.world, y.parties[k]) && y.parties[k].session == x.parties[k].session && y.parties[k].side.mine == x.parties[k].side.mine
  {
    hide SideOk, Inv, HoldsLease, T.Step, Act;
    var p, i := x.parties[k], x.parties[k].session;
    assert PartyOk(x.world, p);
    R.TurnSettles(x.world, op, y.world);
    assert R.Settles(x.world.scheds[i], y.world.scheds[i]) && R.Spares(x.world.scheds[i], y.world.scheds[i]);
    ToldKeeps(x.world, y.world, p);
  }

  lemma TakenStays(x: Shared, y: Shared, i: nat, id: nat)
    requires |x.parties| <= |y.parties| && Taken(x, i, id)
    requires forall k :: 0 <= k < |x.parties| ==> y.parties[k].session == x.parties[k].session && x.parties[k].side.mine <= y.parties[k].side.mine
    ensures Taken(y, i, id)
  {
    var k :| 0 <= k < |x.parties| && x.parties[k].session == i && id in x.parties[k].side.mine;
    assert y.parties[k].session == i && id in y.parties[k].side.mine;
  }

  lemma TurnClaimed(x: Shared, op: T.Op, y: Shared)
    requires SharedOk(x) && Step(x, Turns(op), y)
    requires forall k :: 0 <= k < |x.parties| ==> y.parties[k].session == x.parties[k].session && y.parties[k].side.mine == x.parties[k].side.mine
    ensures Claimed(y)
  {
    hide SideOk, Inv, HoldsLease, T.Step, Act, PartyOk, Taken;
    R.TurnSettles(x.world, op, y.world);
    forall i: nat, id: nat | i < |y.world.scheds| && id < |y.world.scheds[i].account.leases|
      ensures y.world.scheds[i].account.leases[id].released || HoldsLease(y.world.scheds[i].records, id) || Taken(y, i, id)
    {
      if i < |x.world.scheds| {
        assert R.Settles(x.world.scheds[i], y.world.scheds[i]) && R.Spares(x.world.scheds[i], y.world.scheds[i]);
        if Taken(x, i, id) { TakenStays(x, y, i, id); }
      } else {
        NewSessionsAreEmpty(x.world, op, y.world, i);
      }
    }
  }

  lemma NewSessionsAreEmpty(w: World, op: T.Op, v: World, i: nat)
    requires R.Turn(w, op, v) && |w.scheds| <= i < |v.scheds|
    ensures v.scheds[i].account == EMPTY_ACCOUNT
  {
    hide Inv, EndsOnly, T.EndedBy, T.AdmitError, T.FreeSlot, SchedKept, T.Emptied, CtxKept, Reserve, Release;
  }

  lemma TurnKeeps(x: Shared, op: T.Op, y: Shared)
    requires SharedOk(x) && Step(x, Turns(op), y)
    ensures SharedOk(y)
  {
    hide Inv, T.Step, Act, PartyOk, Claimed;
    forall k: nat | k < |x.parties|
      ensures PartyOk(y.world, y.parties[k]) && y.parties[k].session == x.parties[k].session && y.parties[k].side.mine == x.parties[k].side.mine
    {
      TurnTold(x, op, y, k);
    }
    TurnClaimed(x, op, y);
    forall j, k | 0 <= j < k < |y.parties|
      ensures Apart(y.parties[j], y.parties[k])
    {
      assert Apart(x.parties[j], x.parties[k]);
    }
  }

  lemma OpenKeeps(x: Shared, i: nat, s: Side, y: Shared)
    requires SharedOk(x) && Step(x, Opens(i, s), y)
    ensures SharedOk(y)
  {
    hide Inv, SideOk, HoldsLease, Taken;
    D.FreshIsOk(s);
    assert PartyOk(y.world, Party(i, s));
    forall k | 0 <= k < |y.parties|
      ensures PartyOk(y.world, y.parties[k])
    {
      assert k < |x.parties| ==> y.parties[k] == x.parties[k];
    }
    forall i: nat, id: nat | Taken(x, i, id)
      ensures Taken(y, i, id)
    {
      TakenStays(x, y, i, id);
    }
  }

  // ---------------------------------------------------------- an endpoint's own doing

  /** What endpoint k does to the account of its session, seen from the records. */
  lemma DeedInv(x: Shared, k: nat, op: Op)
    requires SharedOk(x) && k < |x.parties| && !op.Others? && WellShaped(x.parties[k].side.e.reader)
    ensures
      var i, t := x.parties[k].session, Act(x.parties[k].side, op);
      && i < |x.world.scheds| && SideOk(t) && x.parties[k].side.mine <= t.mine
      && Inv(Charge(x.world, i, t.a))
      && Leaves(x.parties[k].side.a, t.a, x.parties[k].side.mine)
      && t.mine == x.parties[k].side.mine + NewLeases(x.parties[k].side.a, t.a)
  {
    hide Inv, SideOk, HoldsLease, Act, Balanced, Claimed;
    var p := x.parties[k];
    var i, t := p.session, Act(p.side, op);
    assert PartyOk(x.world, p);
    ActKeeps(p.side, op);
    ActLeaves(p.side, op);
    SideBalanced(t);
    AccountIsBalanced(x.world, i);
    TurnLemmas.PatchInv(x.world, i, t.a, x.world.scheds[i].offerCounter);
    assert Charge(x.world, i, t.a) == WithSched(x.world, i, x.world.scheds[i].(account := t.a, offerCounter := x.world.scheds[i].offerCounter));
  }

  lemma AllApart(x: Shared)
    requires SharedOk(x)
    ensures forall j: nat, k: nat :: j < |x.parties| && k < |x.parties| && j != k ==> Apart(x.parties[j], x.parties[k])
  {
    hide Inv, Claimed, PartyOk;
    forall j: nat, k: nat | j < |x.parties| && k < |x.parties| && j != k
      ensures Apart(x.parties[j], x.parties[k])
    {
      assert j < k ==> Apart(x.parties[j], x.parties[k]);
      assert k < j ==> Apart(x.parties[k], x.parties[j]);
    }
  }

  lemma SideBalanced(s: Side)
    requires SideOk(s)
    ensures Balanced(s.a)
  {
    hide WritesOk, ReadsOk, FenceOk;
  }

  lemma DeedTold(x: Shared, k: nat, op: Op, y: Shared, j: nat)
    requires SharedOk(x) && Step(x, Does(k, op), y) && j < |x.parties|
    ensures PartyOk(y.world, y.parties[j]) && y.parties[j].session == x.parties[j].session
    ensures j != k ==> y.parties[j].side.mine == x.parties[j].side.mine
  {
    hide Inv, SideOk, HoldsLease, Act, Claimed;
    DeedInv(x, k, op);
    var p, q := x.parties[k], x.parties[j];
    assert PartyOk(x.world, p) && PartyOk(x.world, q);
    if j == k {
      AccountIsBalanced(x.world, p.session);
    } else {
      AllApart(x);
      MineExist(q.side);
      ToldKeeps(x.world, y.world, q);
    }
  }

  lemma DeedClaimed(x: Shared, k: nat, op: Op, y: Shared)
    requires SharedOk(x) && Step(x, Does(k, op), y)
    ensures Claimed(y)
  {
    hide Inv, SideOk, HoldsLease, Act, Taken;
    DeedInv(x, k, op);
    var n := x.parties[k].session;
    forall j: nat | j < |x.parties|
      ensures y.parties[j].session == x.parties[j].session && x.parties[j].side.mine <= y.parties[j].side.mine
    {
      DeedTold(x, k, op, y, j);
    }
    forall i: nat, id: nat | i < |y.world.scheds| && id < |y.world.scheds[i].account.leases|
      ensures y.world.scheds[i].account.leases[id].released || HoldsLease(y.world.scheds[i].records, id) || Taken(y, i, id)
    {
      if i == n && id in y.parties[k].side.mine {
        assert Taken(y, i, id) by { IsTaken(y, k, id); }
      } else {
        assert PartyOk(x.world, x.parties[k]);
        assert i != n ==> y.world.scheds[i] == x.world.scheds[i];
        assert i == n ==> id < |x.world.scheds[i].account.leases|;
        if Taken(x, i, id) { TakenStays(x, y, i, id); }
      }
    }
  }

  lemma IsTaken(x: Shared, k: nat, id: nat)
    requires k < |x.parties| && id in x.parties[k].side.mine
    ensures Taken(x, x.parties[k].session, id)
  {
  }

  lemma DeedApart(x: Shared, k: nat, op: Op, y: Shared, j: nat)
    requires SharedOk(x) && Step(x, Does(k, op), y) && j < |x.parties| && j != k
    ensures Apart(y.parties[k], y.parties[j])
  {
    hide Inv, SideOk, HoldsLease, Act, Claimed;
    DeedInv(x, k, op);
    DeedTold(x, k, op, y, j);
    DeedTold(x, k, op, y, k);
    AllApart(x);
    assert PartyOk(x.world, x.parties[k]) && PartyOk(x.world, x.parties[j]);
    MineExist(x.parties[j].side);
  }

  lemma DeedKeeps(x: Shared, k: nat, op: Op, y: Shared)
    requires SharedOk(x) && Step(x, Does(k, op), y)
    ensures SharedOk(y)
  {
    hide Inv, Act, PartyOk, Claimed;
    DeedInv(x, k, op);
    DeedClaimed(x, k, op, y);
    forall j: nat | j < |y.parties|
      ensures PartyOk(y.world, y.parties[j]) && y.parties[j].session == x.parties[j].session
      ensures j != k ==> y.parties[j].side.mine == x.parties[j].side.mine && Apart(y.parties[k], y.parties[j])
    {
      DeedTold(x, k, op, y, j);
      if j != k { DeedApart(x, k, op, y, j); }
    }
    forall i: nat, j: nat | i < j < |y.parties|
      ensures Apart(y.parties[i], y.parties[j])
    {
      assert Apart(x.parties[i], x.parties[j]);
    }
  }

  /** Nobody's doing disturbs anybody's books: what the others do to an endpoint's account
      is always what it may be told. */
  lemma StepKeeps(x: Shared, d: Deed, y: Shared)
    requires SharedOk(x) && Step(x, d, y)
    ensures SharedOk(y)
  {
    hide SharedOk, Step;
    match d
    case Turns(op) => TurnKeeps(x, op, y);
    case Opens(i, s) => OpenKeeps(x, i, s, y);
    case Does(k, op) => DeedKeeps(x, k, op, y);
  }

  // ---------------------------------------------------------------------- whole runs

  ghost predicate Run(xs: seq<Shared>, ds: seq<Deed>) {
    && |xs| == |ds| + 1 && xs[0] == Shared(World([], []), [])
    && forall n :: 0 <= n < |ds| ==> Step(xs[n], ds[n], xs[n + 1])
  }

  lemma {:induction false} RunKeeps(xs: seq<Shared>, ds: seq<Deed>, n: nat)
    requires Run(xs, ds) && n < |xs|
    ensures SharedOk(xs[n])
  {
    hide SharedOk, Step;
    if n == 0 {
      NobodyYet(xs[0]);
    } else {
      RunKeeps(xs, ds, n - 1);
      assert Step(xs[n - 1], ds[n - 1], xs[n - 1 + 1]);
      StepKeeps(xs[n - 1], ds[n - 1], xs[n]);
    }
  }

  lemma NobodyYet(x: Shared)
    requires x == Shared(World([], []), [])
    ensures SharedOk(x)
  {
  }

  /** Endpoint k has a use for lease `id` of its session. */
  ghost predicate Uses(x: Shared, k: nat, i: nat, id: nat) {
    && k < |x.parties| && x.parties[k].session == i
    && id in x.parties[k].side.mine && Holding(x.parties[k].side.e, x.parties[k].side.handed, id)
  }

  /** The law of the shared account. In every state of every run the counters are the sum
      of the open leases, and a lease is open exactly while somebody holds it: one record
      of the scheduler, or one endpoint for a queued packet, its reader or a dispatcher,
      and nobody else besides. */
  lemma EveryLeaseHasOneHolder(xs: seq<Shared>, ds: seq<Deed>, n: nat, i: nat, id: nat)
    requires Run(xs, ds) && n < |xs| && i < |xs[n].world.scheds| && id < |xs[n].world.scheds[i].account.leases|
    ensures Balanced(xs[n].world.scheds[i].account)
    ensures !xs[n].world.scheds[i].account.leases[id].released
      <==> HoldsLease(xs[n].world.scheds[i].records, id) || exists k :: Uses(xs[n], k, i, id)
    ensures forall j, k :: Uses(xs[n], j, i, id) && Uses(xs[n], k, i, id) ==> j == k
    ensures forall k :: Uses(xs[n], k, i, id) ==> !HoldsLease(xs[n].world.scheds[i].records, id)
  {
    hide Run, Inv, SideOk, HoldsLease, Holding, Balanced;
    RunKeeps(xs, ds, n);
    var x := xs[n];
    AccountIsBalanced(x.world, i);
    forall k: nat | k < |x.parties| && x.parties[k].session == i && id in x.parties[k].side.mine
      ensures !x.world.scheds[i].account.leases[id].released <==> Uses(x, k, i, id)
    {
      assert PartyOk(x.world, x.parties[k]);
      D.HoldsWhatItNeeds(x.parties[k].side, id);
    }
    AllApart(x);
    forall k: nat | Uses(x, k, i, id)
      ensures !HoldsLease(x.world.scheds[i].records, id)
    {
      assert PartyOk(x.world, x.parties[k]);
    }
  }

  lemma {:induction false} AllReturned(leases: seq<Lease>)
    requires forall id :: 0 <= id < |leases| ==> leases[id].released
    ensures OpenBytes(leases) == 0 && OpenFrames(leases) == 0 && OpenControl(leases) == 0
  {
    if leases != [] {
      AllReturned(leases[..|leases| - 1]);
    }
  }

  /** Nothing is left over: when a session has no record and its endpoints are closed and
      their dispatchers done, its three counters are zero. */
  lemma NothingIsLeft(xs: seq<Shared>, ds: seq<Deed>, n: nat, i: nat)
    requires Run(xs, ds) && n < |xs| && i < |xs[n].world.scheds|
    requires xs[n].world.scheds[i].records == map[]
    requires forall k :: 0 <= k < |xs[n].parties| && xs[n].parties[k].session == i ==>
      xs[n].parties[k].side.e.closed && xs[n].parties[k].side.handed == map[]
    ensures
      var a := xs[n].world.scheds[i].account;
      a.bytes == 0 && a.frames == 0 && a.control == 0
  {
    hide Run, Inv, SideOk;
    RunKeeps(xs, ds, n);
    var x := xs[n];
    var a := x.world.scheds[i].account;
    AccountIsBalanced(x.world, i);
    forall id: nat | id < |a.leases|
      ensures a.leases[id].released
    {
      if Taken(x, i, id) {
        var k :| 0 <= k < |x.parties| && x.parties[k].session == i && id in x.parties[k].side.mine;
        assert PartyOk(x.world, x.parties[k]);
        D.NothingLeaks(x.parties[k].side, id);
      }
    }
    AllReturned(a.leases);
  }
}
