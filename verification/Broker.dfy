/** The scheduler itself: WorkContext.finish and the private methods it re-enters. */
module Brokers {
  import opened Core
  import opened Budgets
  import opened Contexts
  import opened ContextLemmas
  import opened Checks
  import opened Turns
  import opened TurnLemmas

  class Broker {
    var ctxs: seq<Context>
    var scheds: seq<Sched>

    ghost function Snap(): World
      reads this
    {
      World(ctxs, scheds)
    }

    /** `WorkContext.finish`. P are the contexts whose own `finish` is on the stack. */
    method FinishIn(c: nat, out: Outcome, env: Env, ghost P: set<nat>)
      requires c < |ctxs|
      requires Good(Snap(), P, P + {c})
      requires Live(Snap(), c) || Good(Snap(), P, P)
      modifies this
      ensures Good(Snap(), P, P)
      ensures Evolves(old(Snap()), Snap(), env)
      ensures KeepsNoLost(old(Snap()), Snap())
      ensures EndsOnly(old(Snap()), Snap(), env, Some(c), out)
      ensures Ended(Snap(), c)
      ensures old(Live(Snap(), c)) ==> ctxs[c].terminal == Some(out)
      decreases LiveCount(ctxs), 0
    {
      hide Good, Evolves, KeepsNoLost, EndsOnly, LiveCount, Under, Sane;
      ghost var w0 := Snap();
      if ctxs[c].terminal.Some? {
        Unchanged(w0, env, Some(c), out);
        return;
      }
      OwnerInRange(w0, P, P + {c}, c);
      MarkGood(w0, P, P + {c}, c, out);
      MarkEvolves(w0, env, c, out);
      LiveCountMark(ctxs, c, out);
      ctxs := ctxs[c := ctxs[c].(terminal := Some(out))];
      ghost var w1 := Snap();
      assert w1 == SetTerminal(w0, c, out);
      Unchanged(w1, env, None, out);
      var kids := ctxs[c].children;
      var n := |ctxs|;
      var h := 0;
      while h < n
        invariant h <= n == |ctxs| == |w0.ctxs|
        invariant Good(Snap(), P + {c}, P + {c})
        invariant Evolves(w0, Snap(), env) && KeepsNoLost(w0, Snap())
        invariant Evolves(w1, Snap(), env)
        invariant EndsOnly(w0, Snap(), env, Some(c), out)
        invariant forall k: nat :: k in kids && k < h ==> Ended(Snap(), k)
        invariant Ended(Snap(), c) && ctxs[c].terminal == Some(out)
        invariant LiveCount(ctxs) < LiveCount(w0.ctxs)
      {
        if h in kids {
          ghost var w2 := Snap();
          WidenGood(w2, P + {c}, P + {c}, P + {c} + {h});
          ChildFacts(w0, w1, P, c, h);
          FinishIn(h, Cascade(out), env, P + {c});
          EvolvesEnded(w2, Snap(), env);
          GoodSane(w2, P + {c}, P + {c});
          GoodSane(Snap(), P + {c}, P + {c});
          EndsUnderParent(w0, w2, Snap(), env, c, h, out);
          EvolvesTrans(w0, w2, Snap(), env);
          EvolvesTrans(w1, w2, Snap(), env);
          NoLostCompose(w0, w2, Snap());
        }
        h := h + 1;
      }
      ghost var w3 := Snap();
      LeaveLoop(w1, w3, P, c, env) by {
        assert TreeOk(w1, P + {c}) by { GoodTree(w1, P + {c}, P + {c}); }
      }
      match ctxs[c].parent {
        case None =>
        case Some(p) => ctxs := ctxs[p := ctxs[p].(children := ctxs[p].children - {c})];
      }
      ghost var w4 := Snap();
      assert w4 == Unlink(w3, c);
      EvolvesTrans(w0, w3, w4, env);
      EvolvesEnded(w3, w4, env);
      GoodSane(w3, P + {c}, P + {c});
      GoodSane(w4, P, P + {c});
      EndsTrans(w0, w3, w4, env, Some(c), out);
      NoLostCompose(w0, w3, w4);
      Terminal(c, env, P);
      EndsNone(w4, Snap(), env, Complete, out);
      GoodSane(Snap(), P, P);
      EndsTrans(w0, w4, Snap(), env, Some(c), out);
      EvolvesTrans(w0, w4, Snap(), env);
      EvolvesEnded(w4, Snap(), env);
      NoLostCompose(w0, w4, Snap());
    }

    /** `Scheduler.terminal`: an offered or quarantined record stays, any other goes. */
    method Terminal(c: nat, env: Env, ghost P: set<nat>)
      requires c < |ctxs|
      requires Good(Snap(), P, P + {c}) && Ended(Snap(), c)
      modifies this
      ensures Good(Snap(), P, P)
      ensures Evolves(old(Snap()), Snap(), env)
      ensures KeepsNoLost(old(Snap()), Snap())
      ensures EndsOnly(old(Snap()), Snap(), env, None, Complete)
      decreases LiveCount(ctxs), 3
    {
      hide Good, Evolves, KeepsNoLost, EndsOnly, LiveCount, Sane;
      ghost var w0 := Snap();
      OwnerInRange(w0, P, P + {c}, c);
      var i := ctxs[c].owner;
      Unchanged(w0, env, None, Complete);
      if c !in scheds[i].records {
        StayGood(w0, P, P, c);
        return;
      }
      if scheds[i].records[c].offer.None? && (!scheds[i].failed || scheds[i].reaped) {
        DropEvolves(w0, env, c, i);
        ReleaseRecord(c, env, P);
        ghost var w1 := Dropped(w0, c);
        EvolvesTrans(w0, w1, Snap(), env);
        DropGood(w0, P, P, c, i);
        GoodSane(w1, P, P);
        GoodSane(Snap(), P, P);
        EndsTrans(w0, w1, Snap(), env, None, Complete);
        DropNoLost(w0, c, Snap());
      } else {
        StayGood(w0, P, P, c);
      }
    }

    /** `Scheduler.release`: give the record's slot and bytes back, then hand free
        ordinary slots to the head of the queue until one of the two runs out. */
    method ReleaseRecord(c: nat, env: Env, ghost P: set<nat>)
      requires c < |ctxs|
      requires ctxs[c].owner < |scheds|
      requires Good(Snap(), P, P + {c}) && Ended(Snap(), c)
      modifies this
      ensures |scheds| == old(|scheds|)
      ensures Good(Snap(), P, P)
      ensures Evolves(Dropped(old(Snap()), c), Snap(), env)
      ensures KeepsNoLostBut(Dropped(old(Snap()), c), Snap(), old(ctxs[c].owner))
      ensures EndsOnly(Dropped(old(Snap()), c), Snap(), env, None, Complete)
      ensures old(scheds[ctxs[c].owner].failed) ==> Snap() == Dropped(old(Snap()), c)
      ensures c in old(scheds[ctxs[c].owner].records) ==> NoLost(scheds[old(ctxs[c].owner)])
      decreases LiveCount(ctxs), 2
    {
      hide Good, Evolves, KeepsNoLost, KeepsNoLostBut, EndsOnly, LiveCount, Sane;
      ghost var w0 := Snap();
      OwnerInRange(w0, P, P + {c}, c);
      var i := ctxs[c].owner;
      if c !in scheds[i].records {
        Unchanged(w0, env, None, Complete);
        StayGood(w0, P, P, c);
        return;
      }
      DropGood(w0, P, P, c, i);
      scheds := scheds[i := DropRecord(scheds[i], c)];
      ghost var w1 := Snap();
      assert w1 == Dropped(w0, c);
      Unchanged(w1, env, None, Complete);
      if scheds[i].failed {
        return;
      }
      while scheds[i].queue != [] && scheds[i].ordinary < 4
        invariant i < |scheds| == |w0.scheds| && !scheds[i].failed
        invariant Good(Snap(), P, P)
        invariant Evolves(w1, Snap(), env)
        invariant KeepsNoLostBut(w1, Snap(), i)
        invariant EndsOnly(w1, Snap(), env, None, Complete)
        invariant LiveCount(ctxs) <= LiveCount(w0.ctxs)
        decreases |scheds[i].queue|
      {
        DrainOne(i, w1, env, P);
      }
      OrdinaryAtMostFour(Snap(), P, P, i);
    }

    method DrainOne(i: nat, ghost w1: World, env: Env, ghost P: set<nat>)
      requires i < |scheds| && !scheds[i].failed && scheds[i].queue != [] && scheds[i].ordinary < 4
      requires Good(Snap(), P, P)
      requires Evolves(w1, Snap(), env)
      requires KeepsNoLostBut(w1, Snap(), i)
      requires EndsOnly(w1, Snap(), env, None, Complete)
      modifies this
      ensures i < |scheds| == old(|scheds|) && !scheds[i].failed
      ensures Good(Snap(), P, P)
      ensures Evolves(w1, Snap(), env)
      ensures KeepsNoLostBut(w1, Snap(), i)
      ensures EndsOnly(w1, Snap(), env, None, Complete)
      ensures |scheds[i].queue| < old(|scheds[i].queue|)
      ensures LiveCount(ctxs) <= old(LiveCount(ctxs))
      decreases LiveCount(ctxs), 1, 1
    {
      hide Good, Evolves, KeepsNoLost, KeepsNoLostBut, EndsOnly, LiveCount, StartReady, RecordOk, Sane;
      ghost var w2 := Snap();
      PopGood(w2, P, P, i);
      PopEvolves(w2, env, i);
      var r := scheds[i].queue[0];
      scheds := scheds[i := PopQueue(scheds[i])];
      ghost var w3 := Snap();
      assert w3 == WithSched(w2, i, PopQueue(w2.scheds[i]));
      PoppedFacts(w2, w3, P, i, env);
      ghost var out := Failed(RootFailureOr(w2, r, env));
      Start(r, OrdinarySlot, env, P);
      GoodSane(w2, P, P);
      GoodSane(Snap(), P, P);
      if Liveness(w3.ctxs, r, env).None? {
        DrainAdmitEvolves(w2, env, i, P);
      } else {
        DrainFailed(w2, w3, Snap(), env, i, P);
      }
      EvolvesTrans(w1, w2, Snap(), env);
      EndsTrans(w1, w2, Snap(), env, None, Complete);
      NoLostTrans(w1, w2, Snap(), i);
      EvolvesEnded(w2, Snap(), env);
    }

    /** `Scheduler.start`: the liveness check is made again at the moment the slot is
        handed out. */
    method Start(r: nat, slot: Slot, env: Env, ghost P: set<nat>)
      requires r < |ctxs|
      requires Good(Snap(), P, P + {r})
      requires Startable(Snap(), ctxs[r].owner, r, slot)
      requires Ended(Snap(), r) ==> r in P
      modifies this
      ensures Good(Snap(), P, P)
      ensures Liveness(old(ctxs), r, env).None? <==> Alive(old(ctxs), r, env)
      ensures Alive(old(ctxs), r, env) ==>
        r in old(scheds)[old(ctxs)[r].owner].records && Snap() == Admitted(old(Snap()), r, slot)
      ensures !Alive(old(ctxs), r, env) ==>
        && Evolves(old(Snap()), Snap(), env)
        && KeepsNoLost(old(Snap()), Snap())
        && EndsOnly(old(Snap()), Snap(), env, Some(r), Failed(Liveness(old(ctxs), r, env).value))
        && Ended(Snap(), r)
      decreases LiveCount(ctxs), 1, 0
    {
      hide Good, Evolves, KeepsNoLost, EndsOnly, LiveCount, Sane, Alive;
      ghost var w0 := Snap();
      GoodShape(w0, P, P + {r});
      LiveInWorld(w0, r, env);
      var failure := Liveness(ctxs, r, env);
      if failure.Some? {
        assert r in P ==> P + {r} == P;
        FinishIn(r, Failed(failure.value), env, P);
        return;
      }
      GrantGood(w0, P, P, r, slot, ctxs[r].owner);
      var i := ctxs[r].owner;
      scheds := scheds[i := GrantSlot(scheds[i], r, slot)];
      ctxs := ctxs[r := ctxs[r].(resolved := true)];
      assert Snap() == Admitted(w0, r, slot);
    }

    // ------------------------------------------------------------ public calls

    constructor ()
      ensures Snap() == World([], []) && Inv(Snap())
    {
      ctxs, scheds := [], [];
    }

    /** A new physical session, with its own budget. */
    method Open() returns (i: nat)
      requires Inv(Snap())
      modifies this
      ensures Inv(Snap()) && Step(old(Snap()), OpenOp, Snap()) && i == old(|scheds|)
    {
      OpenKeepsInv(Snap());
      i := |scheds|;
      scheds := scheds + [Sched(map[], [], 0, 0, 0, 0, 0, false, false, EMPTY_ACCOUNT)];
    }

    /** `WorkContext.finish` as anybody outside the scheduler calls it: a completion, a
        cancellation signal or the context's own deadline timer. */
    method Finish(c: nat, out: Outcome, env: Env)
      requires Inv(Snap()) && c < |ctxs|
      modifies this
      ensures Inv(Snap()) && Step(old(Snap()), FinishOp(c, out, env), Snap())
    {
      hide Good, Evolves, KeepsNoLost, EndsOnly, LiveCount, Inv;
      ghost var w := Snap();
      InvGood(w);
      WidenGood(w, {}, {}, {} + {c});
      FinishIn(c, out, env, {});
      InvKept(w, Snap(), env);
    }

    method Fail(i: nat, code: ErrorCode, env: Env)
      requires Inv(Snap()) && i < |scheds|
      modifies this
      ensures Inv(Snap()) && Step(old(Snap()), FailOp(i, code, env), Snap())
    {
      hide Good, Evolves, KeepsNoLost, EndsOnly, EndedBy, LiveCount, Inv;
      if scheds[i].failed {
        return;
      }
      ghost var w := Snap();
      InvGood(w);
      FlagGood(w, i, false);
      scheds := scheds[i := scheds[i].(failed := true)];
      ghost var u := Snap();
      FailLoop(i, code, env, u);
      FailedInv(w, u, Snap(), i, env);
    }

    /** The loop of `fail`: a Map is iterated in insertion order, skipping what is gone. */
    method FailLoop(i: nat, code: ErrorCode, env: Env, ghost u: World)
      requires i < |scheds| && u == Snap() && scheds[i].failed
      requires Good(u, {}, {})
      modifies this
      ensures Good(Snap(), {}, {})
      ensures Evolves(u, Snap(), env) && KeepsNoLost(u, Snap())
      ensures EndedBy(u, Snap(), env, u.scheds[i].records.Keys, Failed(code))
      ensures forall r :: r in u.scheds[i].records ==> Ended(Snap(), r)
    {
      hide Good, Evolves, KeepsNoLost, EndsOnly, EndedBy, LiveCount;
      Unchanged(u, env, None, Failed(code));
      EndedByNothing(u, env, u.scheds[i].records.Keys, Failed(code));
      var n := |ctxs|;
      var h := 0;
      while h < n
        invariant h <= n == |ctxs| && i < |scheds|
        invariant Good(Snap(), {}, {})
        invariant Evolves(u, Snap(), env) && KeepsNoLost(u, Snap())
        invariant EndedBy(u, Snap(), env, u.scheds[i].records.Keys, Failed(code))
        invariant forall r :: r in u.scheds[i].records && r < h ==> Ended(Snap(), r)
      {
        ghost var v := Snap();
        EvolvesEnded(u, v, env);
        if h in scheds[i].records {
          WidenGood(v, {}, {}, {} + {h});
          FinishIn(h, Failed(code), env, {});
          FailedOneMore(u, v, Snap(), env, u.scheds[i].records.Keys, code, h);
        } else {
          GoneEnded(u, v, i, h, env);
        }
        h := h + 1;
      }
      RecordsInRange(u, i);
    }

    /** `reaped`: the process is gone, so every record is returned whatever its state. */
    method Reaped(i: nat, env: Env)
      requires Inv(Snap()) && i < |scheds|
      modifies this
      ensures Inv(Snap()) && Step(old(Snap()), ReapOp(i, env), Snap())
    {
      hide Good, Evolves, KeepsNoLost, EndsOnly, EndedBy, LiveCount, Inv, Emptied, ReapProgress, ReapTurn;
      ghost var w := Snap();
      InvGood(w);
      FlagGood(w, i, true);
      var alreadyFailed := scheds[i].failed;
      scheds := scheds[i := scheds[i].(failed := true, reaped := true)];
      ghost var u := Snap();
      if alreadyFailed {
        Unchanged(u, env, None, Failed(UNAVAILABLE));
        EndedByNothing(u, env, u.scheds[i].records.Keys, Failed(UNAVAILABLE));
        AllEndedWhenFailed(w, i);
      } else {
        FailLoop(i, UNAVAILABLE, env, u);
      }
      ReapBegins(w, u, Snap(), i, env);
      var n := |ctxs|;
      var h := 0;
      while h < n
        invariant h <= n == |ctxs| && i < |scheds| && scheds[i].failed
        invariant Good(Snap(), {}, {})
        invariant ReapProgress(w, Snap(), i, env)
        invariant forall r :: r in scheds[i].records ==> h <= r && Ended(Snap(), r)
      {
        if h in scheds[i].records {
          ghost var v := Snap();
          OwnerInRange(v, {}, {}, h);
          RecordOwner(v, i, h);
          WidenGood(v, {}, {}, {} + {h});
          ReapDrops(w, v, i, h, env);
          ReleaseRecord(h, env, {});
          assert Snap() == Dropped(v, h);
        }
        h := h + 1;
      }
      RecordsInRange(Snap(), i);
      ReapDone(w, Snap(), i, env);
    }

    /** `admit`. `env` is what the checks see, `later` what the liveness check made at
        the moment of starting sees. A parent is a context somebody was handed. */
    method Admit(i: nat, q: Request, env: Env, later: Env) returns (r: Admission)
      requires Inv(Snap()) && i < |scheds|
      requires q.parent.Some? ==> q.parent.value < |ctxs| && ctxs[q.parent.value].resolved
      modifies this
      ensures Inv(Snap())
      ensures Step(old(Snap()), AdmitOp(i, q, env, later, r), Snap())
      ensures !r.Rejected? && q.parent.Some? ==> Alive(old(ctxs), q.parent.value, env)
    {
      hide Good, Evolves, KeepsNoLost, EndsOnly, LiveCount, Inv, Startable, Alive;
      ghost var w := Snap();
      InvGood(w);
      GoodShape(w, {}, {});
      if q.parent.Some? {
        LiveInWorld(w, q.parent.value, env);
      }
      if scheds[i].failed {
        return Rejected(UNAVAILABLE);
      }
      if !(0 < q.requestedMs <= 30000) {
        return Rejected(INVALID_ARGUMENT);
      }
      if env.denial(|ctxs|).Some? {
        return Rejected(env.denial(|ctxs|).value);
      }
      if q.parent.Some? {
        var dead := Liveness(ctxs, q.parent.value, env);
        if dead.Some? {
          return Rejected(dead.value);
        }
      }
      if q.aborted {
        return Rejected(CANCELLED);
      }
      var depth := if q.parent.Some? then ctxs[q.parent.value].depth + 1 else 1;
      if depth > 8 || scheds[i].counter >= MAX_SAFE {
        return Rejected(RESOURCE_EXHAUSTED);
      }
      var cap := if q.purpose == Event then 2000 else 30000;
      var end := env.now + (if q.requestedMs <= cap then q.requestedMs else cap) as real;
      if q.parent.Some? {
        end := Min(end, ctxs[q.parent.value].end);
      }
      if end <= env.now {
        return Rejected(DEADLINE_EXCEEDED);
      }
      var slot := FreeSlot(scheds[i], q.purpose, q.parent.Some?);
      if slot.None? && (q.parent.Some? || q.purpose == Lifecycle || |scheds[i].queue| >= 64) {
        return Rejected(RESOURCE_EXHAUSTED);
      }
      var charged := Reserve(scheds[i].account, q.bytes, q.purpose == Lifecycle);
      if charged.Err? {
        return Rejected(charged.code);
      }
      assert AdmitError(w, i, q, env).None?;
      var h := |ctxs|;
      var record := Record(None, false, None, |scheds[i].account.leases|);
      scheds := scheds[i := scheds[i].(
        counter := scheds[i].counter + 1,
        account := charged.value,
        records := scheds[i].records[h := record])];
      if q.parent.Some? {
        var p := q.parent.value;
        ctxs := ctxs[p := ctxs[p].(children := ctxs[p].children + {h})];
      }
      ctxs := ctxs + [Context(i, scheds[i].counter, q.purpose, end, depth, q.parent, {}, None, None, false)];
      ghost var e := Snap();
      assert e == Enrolled(w, i, q, env.now);
      r := Settle(w, i, q, env, later, h, slot);
    }

    /** The tail of `admit`: start the new record or queue it. */
    method Settle(ghost w: World, i: nat, q: Request, ghost env: Env, later: Env, h: nat, slot: Option<Slot>) returns (r: Admission)
      requires Inv(w) && i < |w.scheds| && h == |w.ctxs|
      requires q.parent.Some? ==> q.parent.value < |w.ctxs| && w.ctxs[q.parent.value].resolved
      requires AdmitError(w, i, q, env).None?
      requires Snap() == Enrolled(w, i, q, env.now)
      requires slot == FreeSlot(w.scheds[i], q.purpose, q.parent.Some?)
      modifies this
      ensures Inv(Snap())
      ensures Step(w, AdmitOp(i, q, env, later, r), Snap())
    {
      hide Good, Evolves, KeepsNoLost, EndsOnly, LiveCount, Inv, Startable, Enrolled, AdmitError;
      ghost var e := Snap();
      EnrolledIs(w, i, q, env);
      if slot.None? {
        QueuedInv(w, i, q, env);
        scheds := scheds[i := scheds[i].(queue := scheds[i].queue + [h])];
        return Waiting(h);
      }
      EnrollStartable(w, i, q, env);
      EnrollGood(w, i, q, env);
      assert {} + {h} == {h};
      var why := Liveness(ctxs, h, later);
      Start(h, slot.value, later, {});
      if why.None? {
        r := Granted(h, slot.value);
        GrantedInv(w, i, q, env, slot.value);
      } else {
        r := Refused(h, why.value);
        RefusedInv(w, i, q, env, Snap(), later);
      }
    }

    /** `offer`: binds the wire identity, in the order descriptors are sent. */
    method Offer(i: nat, c: nat, nonce: nat, env: Env) returns (packet: Result<(nat, int)>)
      requires Inv(Snap()) && i < |scheds| && c < |ctxs|
      modifies this
      ensures Inv(Snap())
      ensures Step(old(Snap()), OfferOp(i, c, nonce, env, packet), Snap())
      ensures packet.Ok? ==> Alive(old(ctxs), c, env)
    {
      hide Inv, Good, Alive;
      ghost var w := Snap();
      InvGood(w);
      GoodShape(w, {}, {});
      LiveInWorld(w, c, env);
      if c !in scheds[i].records || !scheds[i].records[c].admitted || scheds[i].records[c].offer.Some? {
        return Err(FAILED_PRECONDITION);
      }
      var dead := Liveness(ctxs, c, env);
      if dead.Some? {
        return Err(dead.value);
      }
      if scheds[i].offerCounter >= MAX_SAFE {
        return Err(RESOURCE_EXHAUSTED);
      }
      BumpedInv(w, i);
      scheds := scheds[i := scheds[i].(offerCounter := scheds[i].offerCounter + 1)];
      if ctxs[c].endpoint.Some? {
        return Err(FAILED_PRECONDITION);
      }
      OfferedGood(w, i, c, nonce);
      ctxs := ctxs[c := ctxs[c].(endpoint := Some(scheds[i].offerCounter))];
      scheds := scheds[i := scheds[i].(records := scheds[i].records[c := scheds[i].records[c].(offer := Some(nonce))])];
      assert Snap() == Offered(w, i, c, nonce);
      packet := Ok((scheds[i].offerCounter, Remaining(ctxs[c].end, env.now)));
    }

    /** The scan of `acknowledge` for the record with a given context id. */
    method Find(i: nat, id: ContextId) returns (c: Option<nat>)
      requires Inv(Snap()) && i < |scheds|
      ensures c.Some? ==> c.value in scheds[i].records && c.value < |ctxs| && IdOf(ctxs[c.value]) == id
      ensures c.None? ==> forall r :: r in scheds[i].records ==> r < |ctxs| && IdOf(ctxs[r]) != id
    {
      InvGood(Snap());
      RecordsInRange(Snap(), i);
      for h := 0 to |ctxs|
        invariant forall r :: r in scheds[i].records && r < h ==> IdOf(ctxs[r]) != id
      {
        if h in scheds[i].records && IdOf(ctxs[h]) == id {
          return Some(h);
        }
      }
      return None;
    }

    method Acknowledge(i: nat, sameSession: bool, id: ContextId, nonce: nat, env: Env) returns (got: Result<Option<nat>>)
      requires Inv(Snap()) && i < |scheds|
      modifies this
      ensures Inv(Snap())
      ensures Step(old(Snap()), AckOp(i, sameSession, id, nonce, env, got), Snap())
      ensures got.Ok? && got.value.Some? ==> Alive(old(ctxs), got.value.value, env)
    {
      hide Inv, Good, Evolves, EndsOnly, KeepsNoLost, KeepsNoLostBut, LiveCount, Alive;
      ghost var w := Snap();
      if scheds[i].failed || !sameSession {
        return Err(UNAUTHENTICATED);
      }
      var found := Find(i, id);
      if found.None? || scheds[i].records[found.value].offer != Some(nonce) {
        NobodyElse(w, i, id, nonce, found);
        return Err(UNAUTHENTICATED);
      }
      var c := found.value;
      InvGood(w);
      RecordOwner(w, i, c);
      UnofferedGood(w, i, c);
      scheds := scheds[i := scheds[i].(records := scheds[i].records[c := scheds[i].records[c].(offer := None)])];
      ghost var u := Snap();
      assert u == Unoffered(w, i, c);
      got := Ok(None);
      if ctxs[c].terminal.Some? {
        ReleaseRecord(c, env, {});
        AckedInv(w, i, c, Snap(), env);
      } else {
        GoodShape(w, {}, {});
        LiveInWorld(w, c, env);
        var why := Liveness(ctxs, c, env);
        if why.Some? {
          FinishIn(c, Failed(why.value), env, {});
          InvKept(u, Snap(), env);
        } else {
          got := Ok(Some(c));
        }
      }
      assert AckAnswered(w, Snap(), i, id, nonce, env, got, c);
    }

    /** Any other holder of the shared account takes a lease. */
    method Lend(i: nat, bytes: int, control: bool) returns (r: Result<nat>)
      requires Inv(Snap()) && i < |scheds|
      modifies this
      ensures Inv(Snap())
      ensures Step(old(Snap()), LendOp(i, bytes, control), Snap())
    {
      ghost var w := Snap();
      var a := Reserve(scheds[i].account, bytes, control);
      if a.Err? {
        return Err(a.code);
      }
      LendInv(w, i, bytes, control);
      r := Ok(|scheds[i].account.leases|);
      scheds := scheds[i := scheds[i].(account := a.value)];
    }

    /** ... and gives it back. */
    method Return(i: nat, lease: nat)
      requires Inv(Snap()) && i < |scheds| && lease < |scheds[i].account.leases|
      requires !HoldsLease(scheds[i].records, lease)
      modifies this
      ensures Inv(Snap())
      ensures Step(old(Snap()), ReturnOp(i, lease), Snap())
    {
      ReturnInv(Snap(), i, lease);
      scheds := scheds[i := scheds[i].(account := Release(scheds[i].account, lease))];
    }
  }
}
