/** What the scheduler promises: in every state between two turns, and over every
    run, whatever the calls, clocks, authorities and sessions are. */
module Runs {
  import opened Core
  import opened Budgets
  import opened Contexts
  import opened ContextLemmas
  import opened Turns
  import opened TurnLemmas

  /** One turn of the event loop: Broker's methods establish exactly this. */
  ghost predicate Turn(w: World, op: Op, v: World) {
    Inv(w) && Step(w, op, v) && Inv(v)
  }

  ghost predicate Run(ws: seq<World>, ops: seq<Op>) {
    |ws| == |ops| + 1 && forall k: nat :: k < |ops| ==> Turn(ws[k], ops[k], ws[k + 1])
  }

  // ------------------------------------------------------------ the causal tree

  ghost function Ancestors(ctxs: seq<Context>, h: nat): nat
    decreases h
  {
    if h < |ctxs| && ctxs[h].parent.Some? && ctxs[h].parent.value < h
    then 1 + Ancestors(ctxs, ctxs[h].parent.value) else 0
  }

  /** Everything above a live context is live and outlasts it. */
  lemma {:induction false} LiveAncestry(w: World, a: nat, h: nat)
    requires Inv(w) && Under(w.ctxs, a, h)
    ensures a < |w.ctxs| && (Live(w, h) ==> Live(w, a))
    ensures w.ctxs[h].end <= w.ctxs[a].end
    ensures h != a ==> a < h && w.ctxs[a].depth < w.ctxs[h].depth
    decreases h
  {
    if h != a {
      assert ShapeAt(w, h);
      LiveAncestry(w, a, w.ctxs[h].parent.value);
    }
  }

  lemma {:induction false} DepthCountsAncestors(w: World, h: nat)
    requires Inv(w) && h < |w.ctxs|
    ensures w.ctxs[h].depth == Ancestors(w.ctxs, h) + 1 <= 8
    decreases h
  {
    assert ShapeAt(w, h);
    if w.ctxs[h].parent.Some? {
      DepthCountsAncestors(w, w.ctxs[h].parent.value);
    }
  }

  lemma ChildrenAreLiveChildren(w: World, p: nat)
    requires Inv(w) && p < |w.ctxs|
    ensures w.ctxs[p].children == set h: nat | h < |w.ctxs| && Live(w, h) && w.ctxs[h].parent == Some(p)
  {
    forall h: nat
      ensures h in w.ctxs[p].children <==> h < |w.ctxs| && Live(w, h) && w.ctxs[h].parent == Some(p)
    {
      assert h in w.ctxs[p].children <==> h < |w.ctxs| && w.ctxs[h].parent == Some(p) && (Live(w, h) || h in {});
    }
  }

  /** `finish(c, out)` ends the whole subtree, each member with the one code that is
      its due, and besides it only queued roots whose turn came and who failed. */
  lemma FinishEndsExactly(w: World, v: World, c: nat, out: Outcome, env: Env, h: nat)
    requires Turn(w, FinishOp(c, out, env), v) && Live(w, h)
    ensures Under(w.ctxs, c, h) ==>
      Ended(v, h) && v.ctxs[h].terminal == Some(if h != c && out == Complete then Failed(CANCELLED) else out)
    ensures Ended(v, h) && !Under(w.ctxs, c, h) ==>
      WaitingRootFails(w, v, h, v.ctxs[h].terminal.value, env)
  {
    if Under(w.ctxs, c, h) {
      UnderKept(w.ctxs, v.ctxs, c, h);
      LiveAncestry(v, c, h);
      if h != c {
        assert MayEnd(w, v, h, v.ctxs[h].terminal.value, env, Some(c), out);
      }
    }
  }

  // ----------------------------------------------------- slots, queue and bytes

  /** What the record table of session i looks like between turns. */
  lemma RecordTable(w: World, i: nat, r: nat)
    requires Inv(w) && i < |w.scheds| && r < |w.ctxs| && w.ctxs[r].owner == i
    ensures Live(w, r) ==> r in w.scheds[i].records
    ensures r in w.scheds[i].records && Ended(w, r) ==> w.scheds[i].records[r].offer.Some? || w.scheds[i].failed
    ensures r in w.scheds[i].records ==>
      && (w.scheds[i].records[r].admitted <==> w.scheds[i].records[r].slot.Some?)
      && (r in w.scheds[i].queue <==> !w.scheds[i].records[r].admitted)
  {
    assert SchedOk(w, i, {});
    if r in w.scheds[i].records {
      assert RecordOk(w, i, {}, r);
    }
  }

  lemma SlotCounters(w: World, i: nat)
    requires Inv(w) && i < |w.scheds|
    ensures w.scheds[i].ordinary == |Holders(w.scheds[i].records, OrdinarySlot)| <= 4
    ensures w.scheds[i].nested == |Holders(w.scheds[i].records, NestedSlot)| <= 4
    ensures w.scheds[i].lifecycle == |Holders(w.scheds[i].records, LifecycleSlot)| <= 1
  {
    assert SchedOk(w, i, {});
  }

  /** Strict FIFO, as a property of every state: whoever holds an ordinary slot is
      older than everybody who waits, and while somebody waits all four are held. */
  lemma StrictFifo(w: World, i: nat, holder: nat, waiting: nat)
    requires Inv(w) && i < |w.scheds| && waiting in w.scheds[i].queue
    ensures holder in Holders(w.scheds[i].records, OrdinarySlot) ==> holder < waiting
    ensures !w.scheds[i].failed ==> w.scheds[i].ordinary == 4
    ensures waiting < |w.ctxs| && w.ctxs[waiting].parent.None? && w.ctxs[waiting].purpose != Lifecycle
  {
    assert SchedOk(w, i, {});
  }

  /** Nested and lifecycle work is never queued, and nobody passes a queued root into
      an ordinary slot. */
  lemma AdmissionNeverOvertakes(w: World, v: World, i: nat, q: Request, env: Env, later: Env, r: Admission)
    requires Turn(w, AdmitOp(i, q, env, later, r), v)
    ensures r.Waiting? ==> q.parent.None? && q.purpose != Lifecycle && v.scheds[i].queue == w.scheds[i].queue + [r.h]
    ensures w.scheds[i].queue != [] ==> !(r.Granted? && r.slot == OrdinarySlot)
    ensures r.Granted? ==> r.slot == (if q.purpose == Lifecycle then LifecycleSlot
                                      else if q.parent.Some? && w.scheds[i].nested < 4 then NestedSlot
                                      else OrdinarySlot)
    ensures r.Rejected? ==> v == w
  {
    hide RecordOk, QueueOk, LeasesOk, IdsOk, Shape, TreeOk, Holders, Evolves, EndsOnly, Liveness, Deadline, Reserve;
    assert NoLost(w.scheds[i]);
    assert SchedOk(w, i, {});
  }

  ghost function DataRecords(w: World, i: nat): set<nat>
    requires i < |w.scheds|
  {
    set r | r in w.scheds[i].records && r < |w.ctxs| && w.ctxs[r].purpose != Lifecycle
  }

  lemma {:induction false} Injected(rs: set<nat>, records: map<nat, Record>, ids: set<nat>)
    requires forall r :: r in rs ==> r in records && records[r].lease in ids
    requires forall a, b :: a in rs && b in rs && a != b ==> records[a].lease != records[b].lease
    ensures |rs| <= |ids|
  {
    if rs != {} {
      var r :| r in rs;
      Injected(rs - {r}, records, ids - {records[r].lease});
    }
  }

  /** Every non-lifecycle record holds a frame of its own, so the account bounds them. */
  lemma RecordsAreCharged(w: World, i: nat)
    requires Inv(w) && i < |w.scheds|
    ensures |DataRecords(w, i)| <= w.scheds[i].account.frames <= 64
  {
    assert SchedOk(w, i, {});
    var s := w.scheds[i];
    FramesCountOpenIds(s.account.leases);
    forall r | r in DataRecords(w, i)
      ensures s.records[r].lease in OpenIds(s.account.leases)
    {
      assert RecordOk(w, i, {}, r);
    }
    Injected(DataRecords(w, i), s.records, OpenIds(s.account.leases));
  }

  ghost function Members(q: seq<nat>): set<nat> {
    set x | x in q
  }

  lemma {:induction false} QueueAsSet(q: seq<nat>)
    requires Ascending(q)
    ensures |Members(q)| == |q|
  {
    if q != [] {
      var n := |q| - 1;
      QueueAsSet(q[..n]);
      assert q == q[..n] + [q[n]];
      assert Members(q) == Members(q[..n]) + {q[n]};
      assert q[n] !in Members(q[..n]);
    }
  }

  lemma DisjointUnionFits(a: set<nat>, b: set<nat>, c: set<nat>)
    requires a !! b && a <= c && b <= c
    ensures |a| + |b| <= |c|
  {
    SubsetSize(a + b, c);
    assert |a + b| == |a| + |b|;
  }

  lemma UnionFits(a: set<nat>, b: set<nat>, c: set<nat>, d: set<nat>)
    requires d <= a + b + c
    ensures |d| <= |a| + |b| + |c|
  {
    SubsetSize(d, a + b + c);
    assert |a + b + c| + |(a + b) * c| == |a + b| + |c|;
    assert |a + b| + |a * b| == |a| + |b|;
  }

  /** The explicit bound of 64 in `admit` is never the one that bites: the 64 frames
      and the four occupied slots leave room for at most sixty queued roots. */
  lemma QueueAtMostSixty(w: World, i: nat)
    requires Inv(w) && i < |w.scheds| && !w.scheds[i].failed
    ensures |w.scheds[i].queue| <= 60
  {
    assert SchedOk(w, i, {});
    var s := w.scheds[i];
    if s.queue != [] {
      QueueAsSet(s.queue);
      assert NoLost(s);
      HoldersAndQueue(w, i);
      DisjointUnionFits(Members(s.queue), Holders(s.records, OrdinarySlot), DataRecords(w, i));
      RecordsAreCharged(w, i);
    }
  }

  lemma HoldersAndQueue(w: World, i: nat)
    requires Inv(w) && i < |w.scheds|
    ensures Members(w.scheds[i].queue) !! Holders(w.scheds[i].records, OrdinarySlot)
    ensures Members(w.scheds[i].queue) <= DataRecords(w, i)
    ensures Holders(w.scheds[i].records, OrdinarySlot) <= DataRecords(w, i)
  {
    assert SchedOk(w, i, {});
    forall r | r in w.scheds[i].records
      ensures RecordOk(w, i, {}, r)
    {
    }
  }

  ghost function PendingOffers(s: Sched): set<nat> {
    set r | r in s.records && s.records[r].offer.Some?
  }

  /** Nine descriptors in flight at most, although nothing counts them. */
  lemma AtMostNineOffers(w: World, i: nat)
    requires Inv(w) && i < |w.scheds|
    ensures |PendingOffers(w.scheds[i])| <= 9
  {
    SlotCounters(w, i);
    OffersHoldSlots(w, i);
    var records := w.scheds[i].records;
    UnionFits(Holders(records, OrdinarySlot), Holders(records, NestedSlot), Holders(records, LifecycleSlot),
              PendingOffers(w.scheds[i]));
  }

  lemma OffersHoldSlots(w: World, i: nat)
    requires Inv(w) && i < |w.scheds|
    ensures
      var records := w.scheds[i].records;
      PendingOffers(w.scheds[i]) <=
        Holders(records, OrdinarySlot) + Holders(records, NestedSlot) + Holders(records, LifecycleSlot)
  {
    hide QueueOk, CountsOk, LeasesOk, IdsOk, Shape, TreeOk;
    assert SchedOk(w, i, {});
    var records := w.scheds[i].records;
    forall r | r in PendingOffers(w.scheds[i])
      ensures r in Holders(records, OrdinarySlot) + Holders(records, NestedSlot) + Holders(records, LifecycleSlot)
    {
      assert RecordOk(w, i, {}, r);
      match records[r].slot.value {
        case OrdinarySlot => assert r in Holders(records, OrdinarySlot);
        case NestedSlot => assert r in Holders(records, NestedSlot);
        case LifecycleSlot => assert r in Holders(records, LifecycleSlot);
      }
    }
  }

  // -------------------------------------------------------- what a turn never does

  ghost predicate Persists(c: Context, d: Context) {
    && d.owner == c.owner && d.reservation == c.reservation && d.purpose == c.purpose
    && d.end == c.end && d.depth == c.depth && d.parent == c.parent
    && (c.terminal.Some? ==> d.terminal == c.terminal)
    && (c.endpoint.Some? ==> d.endpoint == c.endpoint)
    && (c.resolved ==> d.resolved)
  }

  ghost predicate Advances(s: Sched, t: Sched) {
    && (s.failed ==> t.failed) && (s.reaped ==> t.reaped)
    && s.counter <= t.counter && s.offerCounter <= t.offerCounter
  }

  lemma EvolvesPersists(w: World, v: World, env: Env)
    requires Evolves(w, v, env)
    ensures |w.ctxs| == |v.ctxs| && |w.scheds| == |v.scheds|
    ensures forall h: nat :: h < |w.ctxs| ==> Persists(w.ctxs[h], v.ctxs[h])
    ensures forall i: nat :: i < |w.scheds| ==> Advances(w.scheds[i], v.scheds[i])
    ensures forall i: nat :: i < |w.scheds| && w.scheds[i].failed && !w.scheds[i].reaped ==> v.scheds[i] == w.scheds[i]
    ensures forall i: nat, r :: i < |w.scheds| && r in w.scheds[i].records && w.scheds[i].records[r].offer.Some? ==>
      r in v.scheds[i].records && (r !in w.scheds[i].queue ==> v.scheds[i].records[r] == w.scheds[i].records[r])
  {
    forall h: nat | h < |w.ctxs|
      ensures Persists(w.ctxs[h], v.ctxs[h])
    {
      assert CtxKept(w.ctxs[h], v.ctxs[h]);
    }
    forall i: nat | i < |w.scheds|
      ensures Advances(w.scheds[i], v.scheds[i])
      ensures w.scheds[i].failed && !w.scheds[i].reaped ==> v.scheds[i] == w.scheds[i]
    {
      assert SchedKept(w, v, i, env);
    }
    forall i: nat, r | i < |w.scheds| && r in w.scheds[i].records && w.scheds[i].records[r].offer.Some?
      ensures r in v.scheds[i].records && (r !in w.scheds[i].queue ==> v.scheds[i].records[r] == w.scheds[i].records[r])
    {
      assert SchedKept(w, v, i, env);
      if r in v.scheds[i].records {
        assert RecordKept(w, i, r, v.scheds[i].records[r], env);
      }
    }
  }

  /** The part of a step that happens before anything re-entrant does. */
  function Before(w: World, op: Op): World {
    match op
    case AdmitOp(i, q, env, later, r) =>
      if i < |w.scheds| && (q.parent.Some? ==> q.parent.value < |w.ctxs|) && AdmitError(w, i, q, env).None?
      then Enrolled(w, i, q, env.now) else w
    case FailOp(i, code, env) =>
      if i < |w.scheds| then WithSched(w, i, w.scheds[i].(failed := true)) else w
    case _ => w
  }

  lemma TurnPersists(w: World, op: Op, v: World)
    requires Turn(w, op, v)
    ensures |w.ctxs| <= |v.ctxs| && |w.scheds| <= |v.scheds|
    ensures forall h: nat :: h < |w.ctxs| ==> Persists(w.ctxs[h], v.ctxs[h])
    ensures forall i: nat :: i < |w.scheds| ==> Advances(w.scheds[i], v.scheds[i])
  {
    hide Inv, Evolves, EndsOnly, EndedBy, AdmitError, Emptied, SchedKept, FreeSlot, Reserve;
    match op {
      case FinishOp(c, out, env) => EvolvesPersists(w, v, env);
      case AdmitOp(i, q, env, later, r) => AdmitPersists(w, v, i, q, env, later, r);
      case OfferOp(i, c, nonce, env, packet) => OfferPersists(w, v, i, c, nonce, env, packet);
      case AckOp(i, same, id, nonce, env, got) => AckPersists(w, v, i, same, id, nonce, env, got);
      case FailOp(i, code, env) =>
        if !w.scheds[i].failed {
          EvolvesPersists(Before(w, op), v, env);
        }
      case ReapOp(i, env) => ReapPersists(w, v, i, env);
      case LendOp(i, bytes, control) =>
      case ReturnOp(i, lease) => ReleaseOnlyAccount(w, i, lease);
      case OpenOp =>
    }
  }

  lemma ReleaseOnlyAccount(w: World, i: nat, lease: nat)
    requires i < |w.scheds| && lease < |w.scheds[i].account.leases|
    ensures Advances(w.scheds[i], w.scheds[i].(account := Release(w.scheds[i].account, lease)))
  {
  }

  lemma ReapPersists(w: World, v: World, i: nat, env: Env)
    requires ReapTurn(w, v, i, env)
    ensures |w.ctxs| <= |v.ctxs| && |w.scheds| <= |v.scheds|
    ensures forall h: nat :: h < |w.ctxs| ==> Persists(w.ctxs[h], v.ctxs[h])
    ensures forall j: nat :: j < |w.scheds| ==> Advances(w.scheds[j], v.scheds[j])
  {
    forall j: nat | j < |w.scheds|
      ensures Advances(w.scheds[j], v.scheds[j])
    {
      if j != i {
        assert SchedKept(w, v, j, env);
      }
    }
  }

  lemma AdmitPersists(w: World, v: World, i: nat, q: Request, env: Env, later: Env, r: Admission)
    requires Inv(w) && AdmitTurn(w, v, i, q, env, later, r)
    ensures |w.ctxs| <= |v.ctxs| && |w.scheds| <= |v.scheds|
    ensures forall h: nat :: h < |w.ctxs| ==> Persists(w.ctxs[h], v.ctxs[h])
    ensures forall j: nat :: j < |w.scheds| ==> Advances(w.scheds[j], v.scheds[j])
  {
    hide Inv, Evolves, EndsOnly;
    if AdmitError(w, i, q, env).None? {
      var e := Enrolled(w, i, q, env.now);
      assert forall h: nat :: h < |w.ctxs| ==> Persists(w.ctxs[h], e.ctxs[h]);
      if r.Refused? {
        EvolvesPersists(e, v, later);
        assert forall h: nat :: h < |w.ctxs| ==> Persists(e.ctxs[h], v.ctxs[h]);
      }
    }
  }

  lemma OfferPersists(w: World, v: World, i: nat, c: nat, nonce: nat, env: Env, packet: Result<(nat, int)>)
    requires OfferTurn(w, v, i, c, nonce, env, packet)
    ensures |w.ctxs| <= |v.ctxs| && |w.scheds| <= |v.scheds|
    ensures forall h: nat :: h < |w.ctxs| ==> Persists(w.ctxs[h], v.ctxs[h])
    ensures forall j: nat :: j < |w.scheds| ==> Advances(w.scheds[j], v.scheds[j])
  {
  }

  lemma AckPersists(w: World, v: World, i: nat, same: bool, id: ContextId, nonce: nat, env: Env, got: Result<Option<nat>>)
    requires Inv(w) && AckTurn(w, v, i, same, id, nonce, env, got)
    ensures |w.ctxs| <= |v.ctxs| && |w.scheds| <= |v.scheds|
    ensures forall h: nat :: h < |w.ctxs| ==> Persists(w.ctxs[h], v.ctxs[h])
    ensures forall j: nat :: j < |w.scheds| ==> Advances(w.scheds[j], v.scheds[j])
  {
    hide Inv, Evolves, EndsOnly;
    if got != Err(UNAUTHENTICATED) {
      var c :| AckAnswered(w, v, i, id, nonce, env, got, c);
      var u := Unoffered(w, i, c);
      if Ended(w, c) {
        EvolvesPersists(Dropped(u, c), v, env);
      } else if Liveness(w.ctxs, c, env).Some? {
        EvolvesPersists(u, v, env);
      }
    }
  }

  // ------------------------------------------------------------------ whole runs

  lemma PersistsOn(c: Context, d: Context, e: Context)
    requires Persists(c, d) && Persists(d, e)
    ensures Persists(c, e)
  {
  }

  lemma AdvancesOn(s: Sched, t: Sched, u: Sched)
    requires Advances(s, t) && Advances(t, u)
    ensures Advances(s, u)
  {
  }

  lemma NothingChanges(w: World)
    ensures forall h: nat :: h < |w.ctxs| ==> Persists(w.ctxs[h], w.ctxs[h])
    ensures forall i: nat :: i < |w.scheds| ==> Advances(w.scheds[i], w.scheds[i])
  {
  }

  lemma {:induction false} RunPersists(ws: seq<World>, ops: seq<Op>, a: nat, b: nat)
    requires Run(ws, ops) && a <= b < |ws|
    ensures |ws[a].ctxs| <= |ws[b].ctxs| && |ws[a].scheds| <= |ws[b].scheds|
    ensures forall h: nat :: h < |ws[a].ctxs| ==> Persists(ws[a].ctxs[h], ws[b].ctxs[h])
    ensures forall i: nat :: i < |ws[a].scheds| ==> Advances(ws[a].scheds[i], ws[b].scheds[i])
    decreases b - a
  {
    hide Turn, Persists, Advances;
    if a == b {
      NothingChanges(ws[a]);
    } else {
      assert Turn(ws[a], ops[a], ws[a + 1]);
      TurnPersists(ws[a], ops[a], ws[a + 1]);
      RunPersists(ws, ops, a + 1, b);
      forall h: nat | h < |ws[a].ctxs|
        ensures Persists(ws[a].ctxs[h], ws[b].ctxs[h])
      {
        PersistsOn(ws[a].ctxs[h], ws[a + 1].ctxs[h], ws[b].ctxs[h]);
      }
      forall i: nat | i < |ws[a].scheds|
        ensures Advances(ws[a].scheds[i], ws[b].scheds[i])
      {
        AdvancesOn(ws[a].scheds[i], ws[a + 1].scheds[i], ws[b].scheds[i]);
      }
    }
  }

  /** The first terminal code a context gets is the one it keeps. */
  lemma FirstCodeSticks(ws: seq<World>, ops: seq<Op>, a: nat, b: nat, h: nat)
    requires Run(ws, ops) && a <= b < |ws| && Ended(ws[a], h)
    ensures Ended(ws[b], h) && ws[b].ctxs[h].terminal == ws[a].ctxs[h].terminal
  {
    RunPersists(ws, ops, a, b);
    assert Persists(ws[a].ctxs[h], ws[b].ctxs[h]);
  }

  /** Nothing charged to the session's records moves. */
  ghost predicate Frozen(s: Sched, t: Sched) {
    && t.records == s.records && t.queue == s.queue
    && t.ordinary == s.ordinary && t.nested == s.nested && t.lifecycle == s.lifecycle
    && |s.account.leases| <= |t.account.leases|
    && (forall k: nat :: k < |s.account.leases| && HoldsLease(s.records, k) ==>
          t.account.leases[k] == s.account.leases[k])
  }

  lemma FreezingTurn(w: World, op: Op, v: World, i: nat)
    requires Turn(w, op, v) && i < |w.scheds| && w.scheds[i].failed
    requires i < |v.scheds| && !v.scheds[i].reaped
    ensures Frozen(w.scheds[i], v.scheds[i])
  {
    hide Evolves, EndsOnly, EndedBy, AdmitError, FreeSlot, SchedKept, HoldsLease, Good;
    TurnPersists(w, op, v);
    assert Advances(w.scheds[i], v.scheds[i]);
    match op {
      case FinishOp(c, out, env) => EvolvesPersists(w, v, env);
      case AdmitOp(j, q, env, later, r) => FreezingAdmit(w, v, j, q, env, later, r, i);
      case OfferOp(j, c, nonce, env, packet) => FreezingOffer(w, v, j, c, nonce, env, packet, i);
      case AckOp(j, same, id, nonce, env, got) => FreezingAck(w, v, j, same, id, nonce, env, got, i);
      case FailOp(j, code, env) =>
        if !w.scheds[j].failed {
          EvolvesPersists(Before(w, op), v, env);
        }
      case ReapOp(j, env) =>
        assert j != i;
        assert SchedKept(w, v, i, env);
        FrozenBySchedKept(w, v, i, env);
      case LendOp(j, bytes, control) =>
      case ReturnOp(j, lease) => FreezingReturn(w, j, lease, i);
      case OpenOp =>
    }
  }

  lemma FrozenBySchedKept(w: World, v: World, i: nat, env: Env)
    requires i < |w.scheds| && i < |v.scheds| && SchedKept(w, v, i, env)
    requires w.scheds[i].failed && !w.scheds[i].reaped
    ensures v.scheds[i] == w.scheds[i]
  {
  }

  lemma FreezingReturn(w: World, j: nat, lease: nat, i: nat)
    requires i < |w.scheds| && j < |w.scheds| && lease < |w.scheds[j].account.leases|
    requires !HoldsLease(w.scheds[j].records, lease)
    ensures Frozen(w.scheds[i], WithSched(w, j, w.scheds[j].(account := Release(w.scheds[j].account, lease))).scheds[i])
  {
  }

  lemma FreezingAdmit(w: World, v: World, j: nat, q: Request, env: Env, later: Env, r: Admission, i: nat)
    requires Inv(w) && AdmitTurn(w, v, j, q, env, later, r) && i < |w.scheds| && w.scheds[i].failed && !w.scheds[i].reaped
    ensures i < |v.scheds| && Frozen(w.scheds[i], v.scheds[i])
  {
    hide Inv, Evolves, EndsOnly;
    if AdmitError(w, j, q, env).None? {
      assert i != j;
      if r.Refused? {
        EvolvesPersists(Enrolled(w, j, q, env.now), v, later);
      }
    }
  }

  lemma FreezingOffer(w: World, v: World, j: nat, c: nat, nonce: nat, env: Env, packet: Result<(nat, int)>, i: nat)
    requires Inv(w) && OfferTurn(w, v, j, c, nonce, env, packet) && i < |w.scheds| && w.scheds[i].failed
    ensures i < |v.scheds| && Frozen(w.scheds[i], v.scheds[i])
  {
    RecordsInRange(w, i);
  }

  lemma FreezingAck(w: World, v: World, j: nat, same: bool, id: ContextId, nonce: nat, env: Env, got: Result<Option<nat>>, i: nat)
    requires Inv(w) && AckTurn(w, v, j, same, id, nonce, env, got) && i < |w.scheds| && w.scheds[i].failed && !w.scheds[i].reaped
    ensures i < |v.scheds| && Frozen(w.scheds[i], v.scheds[i])
  {
    hide Evolves, EndsOnly;
    if got != Err(UNAUTHENTICATED) {
      var c :| AckAnswered(w, v, j, id, nonce, env, got, c);
      var u := Unoffered(w, j, c);
      RecordsInRange(w, j);
      if Ended(w, c) {
        EvolvesPersists(Dropped(u, c), v, env);
      } else if Liveness(w.ctxs, c, env).Some? {
        EvolvesPersists(u, v, env);
      }
    }
  }

  /** Quarantine: from the failure until the reaping, whatever happens, the records,
      the queue, the slots and the charges of the session do not move, and every one
      of its contexts is over. */
  lemma {:induction false} Quarantine(ws: seq<World>, ops: seq<Op>, a: nat, b: nat, i: nat)
    requires Run(ws, ops) && a <= b < |ws| && (a < b || Inv(ws[a]))
    requires i < |ws[a].scheds| && ws[a].scheds[i].failed
    requires i < |ws[b].scheds| && !ws[b].scheds[i].reaped
    ensures Frozen(ws[a].scheds[i], ws[b].scheds[i])
    ensures forall h: nat :: h < |ws[b].ctxs| && ws[b].ctxs[h].owner == i ==> Ended(ws[b], h)
    decreases b - a
  {
    hide Step;
    if a < b {
      assert Turn(ws[a], ops[a], ws[a + 1]);
      TurnPersists(ws[a], ops[a], ws[a + 1]);
      RunPersists(ws, ops, a + 1, b);
      assert Advances(ws[a].scheds[i], ws[a + 1].scheds[i]);
      assert Advances(ws[a + 1].scheds[i], ws[b].scheds[i]);
      FreezingTurn(ws[a], ops[a], ws[a + 1], i);
      Quarantine(ws, ops, a + 1, b, i);
    }
  }

  // ------------------------------------------------------------------- leases

  /** What a turn does with leases: one that is returned stays returned, one a record
      held is still held by a record or returned, and records take only new ones. */
  ghost predicate Settles(s: Sched, t: Sched) {
    && |s.account.leases| <= |t.account.leases|
    && (forall k: nat :: k < |s.account.leases| && s.account.leases[k].released ==> t.account.leases[k].released)
    && (forall k: nat :: k < |s.account.leases| && HoldsLease(s.records, k) ==>
          HoldsLease(t.records, k) || t.account.leases[k].released)
    && (forall k: nat :: k < |s.account.leases| && HoldsLease(t.records, k) ==> HoldsLease(s.records, k))
  }

  /** Leases no record holds are left alone, and new ones are the records'. */
  ghost predicate Spares(s: Sched, t: Sched) {
    && |s.account.leases| <= |t.account.leases|
    && (forall k: nat :: k < |s.account.leases| && !HoldsLease(s.records, k) ==> t.account.leases[k] == s.account.leases[k])
    && (forall k: nat :: |s.account.leases| <= k < |t.account.leases| ==> HoldsLease(t.records, k) || t.account.leases[k].released)
  }

  lemma SettlesOn(s: Sched, t: Sched, u: Sched)
    requires Settles(s, t) && Settles(t, u)
    ensures Settles(s, u) && (Spares(s, t) && Spares(t, u) ==> Spares(s, u))
  {
    hide HoldsLease;
  }

  lemma SettlesSame(s: Sched, t: Sched)
    requires t.account == s.account && (forall k :: HoldsLease(t.records, k) == HoldsLease(s.records, k))
    ensures Settles(s, t) && Spares(s, t)
  {
    hide HoldsLease;
  }

  lemma SettlesKept(w: World, v: World, i: nat, env: Env)
    requires i < |w.scheds| && i < |v.scheds| && SchedKept(w, v, i, env)
    ensures Settles(w.scheds[i], v.scheds[i]) && Spares(w.scheds[i], v.scheds[i])
  {
    var s, t := w.scheds[i], v.scheds[i];
    forall k: nat | k < |s.account.leases| && HoldsLease(t.records, k)
      ensures HoldsLease(s.records, k)
    {
      var r :| r in t.records && t.records[r].lease == k;
      assert RecordKept(w, i, r, t.records[r], env);
      assert s.records[r].lease == k;
    }
    forall k: nat | k < |s.account.leases| && HoldsLease(s.records, k)
      ensures HoldsLease(t.records, k) || t.account.leases[k].released
    {
      var r :| r in s.records && s.records[r].lease == k;
      if r in t.records {
        assert RecordKept(w, i, r, t.records[r], env);
        assert t.records[r].lease == k;
      }
    }
  }

  ghost predicate AllSettle(w: World, v: World) {
    && |w.scheds| <= |v.scheds|
    && forall i: nat :: i < |w.scheds| ==> Settles(w.scheds[i], v.scheds[i])
  }

  ghost predicate AllSpare(w: World, v: World) {
    && |w.scheds| <= |v.scheds|
    && forall i: nat :: i < |w.scheds| ==> Spares(w.scheds[i], v.scheds[i])
  }

  lemma AllSettleOn(w: World, u: World, v: World)
    requires AllSettle(w, u) && AllSettle(u, v)
    ensures AllSettle(w, v) && (AllSpare(w, u) && AllSpare(u, v) ==> AllSpare(w, v))
  {
    hide Settles, Spares;
    forall i: nat | i < |w.scheds|
      ensures Settles(w.scheds[i], v.scheds[i])
      ensures Spares(w.scheds[i], u.scheds[i]) && Spares(u.scheds[i], v.scheds[i]) ==> Spares(w.scheds[i], v.scheds[i])
    {
      SettlesOn(w.scheds[i], u.scheds[i], v.scheds[i]);
    }
  }

  lemma EvolvesSettles(w: World, v: World, env: Env)
    requires Evolves(w, v, env)
    ensures AllSettle(w, v) && AllSpare(w, v)
  {
    hide SchedKept, Settles, Spares, CtxKept;
    forall i: nat | i < |w.scheds|
      ensures Settles(w.scheds[i], v.scheds[i]) && Spares(w.scheds[i], v.scheds[i])
    {
      SettlesKept(w, v, i, env);
    }
  }

  lemma OneSettles(w: World, i: nat, t: Sched)
    requires i < |w.scheds| && Settles(w.scheds[i], t)
    ensures AllSettle(w, WithSched(w, i, t)) && (Spares(w.scheds[i], t) ==> AllSpare(w, WithSched(w, i, t)))
  {
    hide HoldsLease;
  }

  lemma DropSettles(s: Sched, c: nat)
    requires LeasesOk(s) && c in s.records && s.records[c].lease < |s.account.leases|
    ensures Settles(s, DropRecord(s, c)) && Spares(s, DropRecord(s, c))
  {
    DropLeases(s, c);
    var t := DropRecord(s, c);
    assert t.records == s.records - {c};
    forall k: nat | k < |s.account.leases| && HoldsLease(s.records, k)
      ensures HoldsLease(t.records, k) || t.account.leases[k].released
    {
      var r :| r in s.records && s.records[r].lease == k;
      assert r != c ==> r in t.records && t.records[r].lease == k;
    }
  }

  lemma EnrolSettles(w: World, i: nat, q: Request, now: real)
    requires i < |w.scheds| && (q.parent.Some? ==> q.parent.value < |w.ctxs|) && |w.ctxs| !in w.scheds[i].records
    requires Reserve(w.scheds[i].account, q.bytes, q.purpose == Lifecycle).Ok?
    ensures AllSettle(w, Enrolled(w, i, q, now)) && AllSpare(w, Enrolled(w, i, q, now))
  {
    var s, h := w.scheds[i], |w.ctxs|;
    var t := Enrolled(w, i, q, now).scheds[i];
    assert t.records == s.records[h := Record(None, false, None, |s.account.leases|)];
    forall k: nat | k < |s.account.leases|
      ensures HoldsLease(t.records, k) == HoldsLease(s.records, k)
    {
      assert forall r :: r in s.records ==> r in t.records && t.records[r] == s.records[r];
    }
    assert t.records[h].lease == |s.account.leases|;
    assert HoldsLease(t.records, |s.account.leases|);
    hide HoldsLease;
  }

  /** One record changes, but not its lease. */
  lemma SameLeases(s: Sched, r: nat, rec: Record)
    requires r in s.records && rec.lease == s.records[r].lease
    ensures forall k :: HoldsLease(s.records[r := rec], k) == HoldsLease(s.records, k)
  {
    var t := s.records[r := rec];
    forall k
      ensures HoldsLease(t, k) == HoldsLease(s.records, k)
    {
      if HoldsLease(t, k) {
        var x :| x in t && t[x].lease == k;
        assert s.records[x].lease == k;
      }
      if HoldsLease(s.records, k) {
        var x :| x in s.records && s.records[x].lease == k;
        assert t[x].lease == k;
      }
    }
  }

  lemma SameBooks(w: World, v: World, i: nat)
    requires i < |w.scheds| && |v.scheds| == |w.scheds| && v.scheds[i].account == w.scheds[i].account
    requires forall j: nat :: j < |w.scheds| && j != i ==> v.scheds[j] == w.scheds[j]
    requires forall k :: HoldsLease(v.scheds[i].records, k) == HoldsLease(w.scheds[i].records, k)
    ensures AllSettle(w, v) && AllSpare(w, v)
  {
    hide Settles, Spares, HoldsLease;
    forall j: nat | j < |w.scheds|
      ensures Settles(w.scheds[j], v.scheds[j]) && Spares(w.scheds[j], v.scheds[j])
    {
      SettlesSame(w.scheds[j], v.scheds[j]);
    }
  }

  lemma AdmitSettles(w: World, v: World, i: nat, q: Request, env: Env, later: Env, r: Admission)
    requires Inv(w) && AdmitTurn(w, v, i, q, env, later, r)
    ensures AllSettle(w, v) && AllSpare(w, v)
  {
    hide Evolves, EndsOnly, HoldsLease, Liveness, FreeSlot, AllSettle, AllSpare;
    if AdmitError(w, i, q, env).None? {
      assert |w.ctxs| !in w.scheds[i].records by { RecordsInRange(w, i); }
      hide Inv;
      var h, e := |w.ctxs|, Enrolled(w, i, q, env.now);
      EnrolSettles(w, i, q, env.now);
      if r.Refused? {
        EvolvesSettles(e, v, later);
      } else if r.Granted? {
        SameLeases(e.scheds[i], h, v.scheds[i].records[h]);
        SameBooks(e, v, i);
      } else {
        SameBooks(e, v, i);
      }
      AllSettleOn(w, e, v);
    } else {
      SameBooks(w, v, i);
    }
  }

  lemma OfferSettles(w: World, v: World, i: nat, c: nat, nonce: nat, env: Env, packet: Result<(nat, int)>)
    requires OfferTurn(w, v, i, c, nonce, env, packet)
    ensures AllSettle(w, v) && AllSpare(w, v)
  {
    hide HoldsLease, Liveness, AllSettle, AllSpare;
    if packet.Ok? {
      SameLeases(w.scheds[i], c, v.scheds[i].records[c]);
    }
    SameBooks(w, v, i);
  }

  lemma AckSettles(w: World, v: World, i: nat, same: bool, id: ContextId, nonce: nat, env: Env, got: Result<Option<nat>>)
    requires Inv(w) && AckTurn(w, v, i, same, id, nonce, env, got)
    ensures AllSettle(w, v) && AllSpare(w, v)
  {
    hide Evolves, EndsOnly, HoldsLease, Liveness, AllSettle, AllSpare, LeasesOk, RecordOk, Good;
    if got == Err(UNAUTHENTICATED) {
      SameBooks(w, v, i);
    } else {
      var c :| AckAnswered(w, v, i, id, nonce, env, got, c);
      var u := Unoffered(w, i, c);
      SameLeases(w.scheds[i], c, u.scheds[i].records[c]);
      SameBooks(w, u, i);
      if Ended(w, c) {
        UnofferedDrops(w, i, c);
        AllSettleOn(w, u, Dropped(u, c));
        EvolvesSettles(Dropped(u, c), v, env);
        AllSettleOn(w, Dropped(u, c), v);
      } else if Liveness(w.ctxs, c, env).Some? {
        EvolvesSettles(u, v, env);
        AllSettleOn(w, u, v);
      }
    }
  }

  lemma UnofferedDrops(w: World, i: nat, c: nat)
    requires Inv(w) && i < |w.scheds| && c in w.scheds[i].records && c < |w.ctxs|
    ensures
      var u := Unoffered(w, i, c);
      AllSettle(u, Dropped(u, c)) && AllSpare(u, Dropped(u, c))
  {
    hide AllSettle, AllSpare, Settles, Spares, CountsOk, IdsOk, QueueOk, Shape, TreeOk;
    var u := Unoffered(w, i, c);
    assert SchedOk(w, i, {});
    assert RecordOk(w, i, {}, c);
    assert LeasesOk(u.scheds[i]) by {
      assert forall r :: r in u.scheds[i].records ==> r in w.scheds[i].records && u.scheds[i].records[r].lease == w.scheds[i].records[r].lease;
    }
    DropSettles(u.scheds[i], c);
    OneSettles(u, i, DropRecord(u.scheds[i], c));
  }

  lemma FailSettles(w: World, v: World, i: nat, code: ErrorCode, env: Env)
    requires FailTurn(w, v, i, code, env)
    ensures AllSettle(w, v) && AllSpare(w, v)
  {
    hide Evolves, EndedBy, HoldsLease, AllSettle, AllSpare;
    if w.scheds[i].failed {
      SameBooks(w, v, i);
    } else {
      var u := WithSched(w, i, w.scheds[i].(failed := true));
      SameBooks(w, u, i);
      EvolvesSettles(u, v, env);
      AllSettleOn(w, u, v);
    }
  }

  lemma ReapSettles(w: World, v: World, i: nat, env: Env)
    requires ReapTurn(w, v, i, env)
    ensures AllSettle(w, v) && AllSpare(w, v)
  {
    hide SchedKept, EndedBy, CtxKept;
    forall j: nat | j < |w.scheds|
      ensures Settles(w.scheds[j], v.scheds[j]) && Spares(w.scheds[j], v.scheds[j])
    {
      if j != i {
        SettlesKept(w, v, j, env);
      }
    }
  }

  lemma ReturnSettles(w: World, i: nat, lease: nat)
    requires i < |w.scheds| && lease < |w.scheds[i].account.leases|
    ensures AllSettle(w, WithSched(w, i, w.scheds[i].(account := Release(w.scheds[i].account, lease))))
  {
    hide HoldsLease;
  }

  lemma LendSettles(w: World, v: World, i: nat, bytes: int, control: bool)
    requires Step(w, LendOp(i, bytes, control), v)
    ensures AllSettle(w, v)
  {
    hide HoldsLease;
  }

  /** No turn gets a lease back that has been returned or forgets one that a record holds;
      what the scheduler does by itself touches no lease but its records'. */
  lemma TurnSettles(w: World, op: Op, v: World)
    requires Turn(w, op, v)
    ensures AllSettle(w, v) && (!op.ReturnOp? && !op.LendOp? ==> AllSpare(w, v))
  {
    hide Evolves, EndsOnly, EndedBy, AdmitTurn, OfferTurn, AckTurn, FailTurn, ReapTurn, HoldsLease, AllSettle, AllSpare, Reserve, Release;
    match op {
      case FinishOp(c, out, env) => EvolvesSettles(w, v, env);
      case AdmitOp(i, q, env, later, r) => AdmitSettles(w, v, i, q, env, later, r);
      case OfferOp(i, c, nonce, env, packet) => OfferSettles(w, v, i, c, nonce, env, packet);
      case AckOp(i, same, id, nonce, env, got) => AckSettles(w, v, i, same, id, nonce, env, got);
      case FailOp(i, code, env) => FailSettles(w, v, i, code, env);
      case ReapOp(i, env) => ReapSettles(w, v, i, env);
      case LendOp(i, bytes, control) => LendSettles(w, v, i, bytes, control);
      case ReturnOp(i, lease) => ReturnSettles(w, i, lease);
      case OpenOp => OpenSettles(w, v);
    }
  }

  lemma OpenSettles(w: World, v: World)
    requires Step(w, OpenOp, v)
    ensures AllSettle(w, v) && AllSpare(w, v)
  {
    hide HoldsLease;
    assert forall i: nat :: i < |w.scheds| ==> v.scheds[i] == w.scheds[i];
  }

  lemma {:induction false} RunSettles(ws: seq<World>, ops: seq<Op>, a: nat, b: nat)
    requires Run(ws, ops) && a <= b < |ws|
    ensures AllSettle(ws[a], ws[b])
    decreases b - a
  {
    hide Turn, Settles;
    if a == b {
      forall i: nat | i < |ws[a].scheds|
        ensures Settles(ws[a].scheds[i], ws[a].scheds[i])
      {
        SettlesSame(ws[a].scheds[i], ws[a].scheds[i]);
      }
    } else {
      assert Turn(ws[a], ops[a], ws[a + 1]);
      TurnSettles(ws[a], ops[a], ws[a + 1]);
      RunSettles(ws, ops, a + 1, b);
      AllSettleOn(ws[a], ws[a + 1], ws[b]);
    }
  }

  /** After the reaping everything the session held is back, for good: records, queue,
      slots, and every lease that any of its records held at any time. */
  lemma ReapedForGood(ws: seq<World>, ops: seq<Op>, a: nat, b: nat, i: nat)
    requires Run(ws, ops) && a <= b < |ws| && Inv(ws[b])
    requires i < |ws[a].scheds| && ws[a].scheds[i].reaped
    ensures i < |ws[b].scheds|
    ensures
      var s := ws[b].scheds[i];
      s.records == map[] && s.queue == [] && s.ordinary == 0 && s.nested == 0 && s.lifecycle == 0
    ensures forall n: nat, k: nat :: n <= b && i < |ws[n].scheds| && k < |ws[n].scheds[i].account.leases| && HoldsLease(ws[n].scheds[i].records, k) ==>
      k < |ws[b].scheds[i].account.leases| && ws[b].scheds[i].account.leases[k].released
  {
    RunPersists(ws, ops, a, b);
    assert Advances(ws[a].scheds[i], ws[b].scheds[i]);
    var s := ws[b].scheds[i];
    NothingHeld(ws[b], i);
    forall n: nat, k: nat | n <= b && i < |ws[n].scheds| && k < |ws[n].scheds[i].account.leases| && HoldsLease(ws[n].scheds[i].records, k)
      ensures k < |s.account.leases| && s.account.leases[k].released
    {
      RunSettles(ws, ops, n, b);
      assert Settles(ws[n].scheds[i], s);
    }
  }

  lemma NothingHeld(w: World, i: nat)
    requires Inv(w) && i < |w.scheds| && w.scheds[i].reaped
    ensures
      var s := w.scheds[i];
      s.records == map[] && s.queue == [] && s.ordinary == 0 && s.nested == 0 && s.lifecycle == 0
  {
    assert SchedOk(w, i, {});
    QueueNeedsRecords(w, i);
    assert forall slot :: Holders(w.scheds[i].records, slot) == {};
  }

  // ---------------------------------------------------------- the offer protocol

  /** The acknowledgement that names exactly this record's offer. */
  ghost predicate AcksOffer(w: World, op: Op, i: nat, r: nat) {
    && op.AckOp? && op.i == i && op.sameSession
    && Answers(w, i, op.id, op.nonce, r)
  }

  /** An offered record keeps its slot, its bytes and its nonce through any turn but
      its own acknowledgement and the reaping of its session. */
  lemma OfferStaysCharged(w: World, op: Op, v: World, i: nat, r: nat)
    requires Turn(w, op, v) && i < |w.scheds| && r in w.scheds[i].records && w.scheds[i].records[r].offer.Some?
    requires !AcksOffer(w, op, i, r) && i < |v.scheds| && !v.scheds[i].reaped
    ensures r in v.scheds[i].records && v.scheds[i].records[r] == w.scheds[i].records[r]
  {
    hide Evolves, EndsOnly, EndedBy, AdmitError, FreeSlot, SchedKept, HoldsLease;
    OfferedIsNotQueued(w, i, r);
    match op {
      case FinishOp(c, out, env) => EvolvesPersists(w, v, env);
      case AdmitOp(j, q, env, later, a) => OfferDuringAdmit(w, v, j, q, env, later, a, i, r);
      case OfferOp(j, c, nonce, env, packet) =>
      case AckOp(j, same, id, nonce, env, got) => OfferDuringAck(w, v, j, same, id, nonce, env, got, i, r);
      case FailOp(j, code, env) =>
        if !w.scheds[j].failed {
          EvolvesPersists(Before(w, op), v, env);
        }
      case ReapOp(j, env) =>
        assert j != i;
        assert SchedKept(w, v, i, env);
        OfferInSchedKept(w, v, i, r, env);
      case LendOp(j, bytes, control) =>
      case ReturnOp(j, lease) =>
      case OpenOp =>
    }
  }

  lemma OfferedIsNotQueued(w: World, i: nat, r: nat)
    requires Inv(w) && i < |w.scheds| && r in w.scheds[i].records && w.scheds[i].records[r].offer.Some?
    ensures r !in w.scheds[i].queue && r < |w.ctxs| && w.ctxs[r].owner == i && w.ctxs[r].endpoint.Some?
  {
    assert SchedOk(w, i, {});
    assert RecordOk(w, i, {}, r);
  }

  lemma OfferInSchedKept(w: World, v: World, i: nat, r: nat, env: Env)
    requires i < |w.scheds| && i < |v.scheds| && SchedKept(w, v, i, env)
    requires r in w.scheds[i].records && w.scheds[i].records[r].offer.Some? && r !in w.scheds[i].queue
    ensures r in v.scheds[i].records && v.scheds[i].records[r] == w.scheds[i].records[r]
  {
    if r in v.scheds[i].records {
      assert RecordKept(w, i, r, v.scheds[i].records[r], env);
    }
  }

  lemma OfferDuringAdmit(w: World, v: World, j: nat, q: Request, env: Env, later: Env, a: Admission, i: nat, r: nat)
    requires Inv(w) && AdmitTurn(w, v, j, q, env, later, a) && i < |w.scheds|
    requires r in w.scheds[i].records && w.scheds[i].records[r].offer.Some? && r !in w.scheds[i].queue && r < |w.ctxs|
    ensures i < |v.scheds| && r in v.scheds[i].records && v.scheds[i].records[r] == w.scheds[i].records[r]
  {
    hide Inv, Evolves, EndsOnly;
    if a.Refused? {
      EvolvesPersists(Enrolled(w, j, q, env.now), v, later);
    }
  }

  lemma OfferDuringAck(w: World, v: World, j: nat, same: bool, id: ContextId, nonce: nat, env: Env, got: Result<Option<nat>>, i: nat, r: nat)
    requires Inv(w) && AckTurn(w, v, j, same, id, nonce, env, got) && i < |w.scheds|
    requires r in w.scheds[i].records && w.scheds[i].records[r].offer.Some? && r !in w.scheds[i].queue && r < |w.ctxs|
    requires w.ctxs[r].owner == i
    requires !(j == i && same && Answers(w, i, id, nonce, r))
    ensures i < |v.scheds| && r in v.scheds[i].records && v.scheds[i].records[r] == w.scheds[i].records[r]
  {
    hide Evolves, EndsOnly;
    if got != Err(UNAUTHENTICATED) {
      var c :| AckAnswered(w, v, j, id, nonce, env, got, c);
      var u := Unoffered(w, j, c);
      RecordsInRange(w, j);
      assert c != r;
      DroppedKeepsOthers(w, j, c, i, r);
      if Ended(w, c) {
        EvolvesPersists(Dropped(u, c), v, env);
      } else if Liveness(w.ctxs, c, env).Some? {
        EvolvesPersists(u, v, env);
      }
    }
  }

  lemma DroppedKeepsOthers(w: World, j: nat, c: nat, i: nat, r: nat)
    requires i < |w.scheds| && j < |w.scheds| && c in w.scheds[j].records && r in w.scheds[i].records
    requires !(c == r && i == j) && c < |w.ctxs| && w.ctxs[c].owner == j
    ensures
      var d := Dropped(Unoffered(w, j, c), c);
      && |d.scheds| == |w.scheds| && r in d.scheds[i].records
      && d.scheds[i].records[r] == w.scheds[i].records[r]
      && (r !in w.scheds[i].queue ==> r !in d.scheds[i].queue)
  {
    WithoutIs(w.scheds[j].queue, c);
  }

  lemma {:induction false} OfferStaysChargedInRun(ws: seq<World>, ops: seq<Op>, a: nat, b: nat, i: nat, r: nat)
    requires Run(ws, ops) && a <= b < |ws|
    requires i < |ws[a].scheds| && r in ws[a].scheds[i].records && ws[a].scheds[i].records[r].offer.Some?
    requires forall k: nat :: a <= k < b ==> !AcksOffer(ws[k], ops[k], i, r)
    requires i < |ws[b].scheds| && !ws[b].scheds[i].reaped
    ensures r in ws[b].scheds[i].records && ws[b].scheds[i].records[r] == ws[a].scheds[i].records[r]
    decreases b - a
  {
    hide Step, Inv, AcksOffer;
    if a < b {
      assert Turn(ws[a], ops[a], ws[a + 1]);
      TurnPersists(ws[a], ops[a], ws[a + 1]);
      RunPersists(ws, ops, a + 1, b);
      assert Advances(ws[a + 1].scheds[i], ws[b].scheds[i]);
      OfferStaysCharged(ws[a], ops[a], ws[a + 1], i, r);
      OfferStaysChargedInRun(ws, ops, a + 1, b, i, r);
    }
  }

  ghost predicate Offers(op: Op, i: nat) {
    op.OfferOp? && op.i == i && op.packet.Ok?
  }

  /** The endpoint ids session i puts on its carrier, in the order it sends them. */
  ghost function Sent(ops: seq<Op>, i: nat): seq<int> {
    if ops == [] then []
    else
      var last := ops[|ops| - 1];
      Sent(ops[..|ops| - 1], i) + if Offers(last, i) then [last.packet.value.0] else []
  }

  /** The worker's watermark before it sees the k-th id. */
  ghost function Mark(ids: seq<int>, k: nat): int
    requires k <= |ids|
  {
    if k == 0 then 0 else ids[k - 1]
  }

  /** The receiving worker's check: every id above the watermark the last one left. */
  ghost predicate WatermarkAccepts(ids: seq<int>) {
    forall k: nat :: k < |ids| ==> Mark(ids, k) < ids[k] <= MAX_SAFE
  }

  lemma SentNext(w: World, op: Op, v: World, i: nat)
    requires Turn(w, op, v) && Offers(op, i)
    ensures i < |w.scheds| && i < |v.scheds|
    ensures w.scheds[i].offerCounter < op.packet.value.0 == v.scheds[i].offerCounter <= MAX_SAFE
  {
  }

  /** A session sends strictly increasing ids, so the worker's watermark never
      rejects an honest carrier. */
  lemma {:induction false} WatermarkNeverRejects(ws: seq<World>, ops: seq<Op>, i: nat)
    requires Run(ws, ops) && i < |ws[0].scheds|
    ensures WatermarkAccepts(Sent(ops, i))
    ensures i < |ws[|ops|].scheds|
    ensures forall k: nat :: k < |Sent(ops, i)| ==> Sent(ops, i)[k] <= ws[|ops|].scheds[i].offerCounter
  {
    hide Inv, Step;
    if ops != [] {
      var n := |ops| - 1;
      assert Run(ws[..n + 1], ops[..n]) by {
        forall k: nat | k < n
          ensures Turn(ws[..n + 1][k], ops[..n][k], ws[..n + 1][k + 1])
        {
          assert Turn(ws[k], ops[k], ws[k + 1]);
        }
      }
      WatermarkNeverRejects(ws[..n + 1], ops[..n], i);
      if Offers(ops[n], i) {
        assert Turn(ws[n], ops[n], ws[n + 1]);
        SentNext(ws[n], ops[n], ws[n + 1], i);
      }
      assert Turn(ws[n], ops[n], ws[n + 1]);
      TurnPersists(ws[n], ops[n], ws[n + 1]);
      assert Advances(ws[n].scheds[i], ws[n + 1].scheds[i]);
      if Offers(ops[n], i) {
        WatermarkExtends(Sent(ops[..n], i), ops[n].packet.value.0);
      } else {
        assert Sent(ops, i) == Sent(ops[..n], i);
      }
    }
  }

  lemma WatermarkExtends(ids: seq<int>, id: int)
    requires WatermarkAccepts(ids) && id <= MAX_SAFE && Mark(ids, |ids|) < id
    ensures WatermarkAccepts(ids + [id])
  {
    var more := ids + [id];
    forall k: nat | k < |more|
      ensures Mark(more, k) < more[k] <= MAX_SAFE
    {
      assert Mark(more, k) == Mark(ids, k);
      if k < |ids| {
        assert more[k] == ids[k];
      }
    }
  }

  /** No context is offered twice in a run. */
  lemma OfferedAtMostOnce(ws: seq<World>, ops: seq<Op>, a: nat, b: nat, i: nat, j: nat)
    requires Run(ws, ops) && a < b < |ops| && Offers(ops[a], i) && Offers(ops[b], j)
    ensures ops[a].c != ops[b].c
  {
    assert Turn(ws[a], ops[a], ws[a + 1]) && Turn(ws[b], ops[b], ws[b + 1]);
    RunPersists(ws, ops, a + 1, b);
    assert Persists(ws[a + 1].ctxs[ops[a].c], ws[b].ctxs[ops[a].c]);
  }

  /** An acknowledgement touches no offer but the one it names. */
  lemma AckNamesOne(w: World, v: World, i: nat, same: bool, id: ContextId, nonce: nat, env: Env, got: Result<Option<nat>>, j: nat, r: nat)
    requires Turn(w, AckOp(i, same, id, nonce, env, got), v)
    requires j < |w.scheds| && r in w.scheds[j].records && w.scheds[j].records[r].offer.Some?
    requires i != j || !Answers(w, i, id, nonce, r)
    ensures j < |v.scheds| && r in v.scheds[j].records && v.scheds[j].records[r] == w.scheds[j].records[r]
  {
    hide Evolves, EndsOnly;
    OfferedIsNotQueued(w, j, r);
    OfferDuringAck(w, v, i, same, id, nonce, env, got, j, r);
  }
}
