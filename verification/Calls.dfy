/** When each call of the scheduler succeeds, said of the records, the contexts and the
    account alone. */
module Calls {
  import opened Core
  import opened Budgets
  import opened Contexts
  import opened Checks
  import opened Turns
  import opened Runs

  // --------------------------------------------------------------------- admit

  /** Somewhere for the work to go: its own slot, a nested or an ordinary one, or for a
      root the queue. */
  ghost predicate HasPlace(s: Sched, q: Request) {
    if q.purpose == Lifecycle then Holders(s.records, LifecycleSlot) == {}
    else if q.parent.Some? then |Holders(s.records, NestedSlot)| < 4 || |Holders(s.records, OrdinarySlot)| < 4
    else |Holders(s.records, OrdinarySlot)| < 4 || |s.queue| < 64
  }

  ghost predicate ParentAlive(w: World, q: Request, env: Env)
    requires q.parent.Some? ==> q.parent.value < |w.ctxs|
  {
    q.parent.Some? ==> Alive(w.ctxs, q.parent.value, env)
  }

  ghost predicate Admissible(w: World, i: nat, q: Request, env: Env)
    requires i < |w.scheds| && (q.parent.Some? ==> q.parent.value < |w.ctxs|)
  {
    var s := w.scheds[i];
    && !s.failed && 0 < q.requestedMs <= 30000 && !q.aborted && s.counter < MAX_SAFE
    && env.denial(|w.ctxs|).None? && ParentAlive(w, q, env)
    && (q.parent.Some? ==> w.ctxs[q.parent.value].depth < 8)
    && HasPlace(s, q) && HasRoom(s.account, q.bytes, q.purpose == Lifecycle)
  }

  lemma SlotsAreCounted(w: World, i: nat)
    requires Inv(w) && i < |w.scheds|
    ensures
      var s := w.scheds[i];
      && s.ordinary == |Holders(s.records, OrdinarySlot)| && s.nested == |Holders(s.records, NestedSlot)|
      && s.lifecycle == |Holders(s.records, LifecycleSlot)|
  {
    SlotCounters(w, i);
  }

  lemma InvShapes(w: World)
    requires Inv(w)
    ensures Shape(w)
  {
  }

  /** With a parent that is alive the deadline is never over at once. */
  lemma DeadlineAhead(w: World, q: Request, env: Env)
    requires q.parent.Some? ==> q.parent.value < |w.ctxs|
    requires 0 < q.requestedMs && ParentAlive(w, q, env)
    ensures env.now < Deadline(w, q, env.now)
  {
    if q.parent.Some? {
      assert Under(w.ctxs, q.parent.value, q.parent.value);
    }
  }

  lemma ErrorExactly(w: World, i: nat, q: Request, env: Env)
    requires Inv(w) && i < |w.scheds| && (q.parent.Some? ==> q.parent.value < |w.ctxs|)
    ensures AdmitError(w, i, q, env).None? <==> Admissible(w, i, q, env)
  {
    hide Inv, Liveness, Alive, Deadline, Holders;
    InvShapes(w);
    SlotsAreCounted(w, i);
    if q.parent.Some? {
      LiveInWorld(w, q.parent.value, env);
    }
    if 0 < q.requestedMs && ParentAlive(w, q, env) {
      DeadlineAhead(w, q, env);
    }
  }

  /** `admit` takes work in exactly when the session stands, the request is sound, its
      authority and that of everything above it stands, it is not nested too deep, and
      there is a place and room in the account for it. */
  lemma AdmitsExactly(w: World, v: World, i: nat, q: Request, env: Env, later: Env, r: Admission)
    requires Turn(w, AdmitOp(i, q, env, later, r), v)
    ensures !r.Rejected? <==> Admissible(w, i, q, env)
    ensures r.Waiting? <==> Admissible(w, i, q, env) && q.parent.None? && q.purpose != Lifecycle
                            && |Holders(w.scheds[i].records, OrdinarySlot)| >= 4
  {
    hide Inv, Evolves, EndsOnly, AdmitError, Admissible, Liveness, Holders;
    ErrorExactly(w, i, q, env);
    SlotsAreCounted(w, i);
    SlotCounters(w, i);
    if Admissible(w, i, q, env) && FreeSlot(w.scheds[i], q.purpose, q.parent.Some?).None? {
      assert HasPlace(w.scheds[i], q) by { hide *; AdmissibleHasPlace(w, i, q, env); }
    }
  }

  lemma AdmissibleHasPlace(w: World, i: nat, q: Request, env: Env)
    requires i < |w.scheds| && (q.parent.Some? ==> q.parent.value < |w.ctxs|) && Admissible(w, i, q, env)
    ensures HasPlace(w.scheds[i], q)
  {
    hide HasPlace;
  }

  /** The code of a refusal: of the first thing wrong. That the time is up is never the
      reason, unless it is the parent's. */
  lemma AdmitRefuses(w: World, v: World, i: nat, q: Request, env: Env, later: Env, code: ErrorCode)
    requires Turn(w, AdmitOp(i, q, env, later, Rejected(code)), v)
    ensures v == w
    ensures
      var s := w.scheds[i];
      if s.failed then code == UNAVAILABLE
      else if q.requestedMs <= 0 || q.requestedMs > 30000 then code == INVALID_ARGUMENT
      else if env.denial(|w.ctxs|).Some? then env.denial(|w.ctxs|) == Some(code)
      else if !ParentAlive(w, q, env) then Liveness(w.ctxs, q.parent.value, env) == Some(code)
      else if q.aborted then code == CANCELLED
      else if HasPlace(s, q) && (q.parent.Some? ==> w.ctxs[q.parent.value].depth < 8) && s.counter < MAX_SAFE && !(0 < q.bytes <= MAX_SAFE)
      then code == INTERNAL
      else code == RESOURCE_EXHAUSTED
  {
    hide Inv, Evolves, EndsOnly, Liveness, Alive, Deadline, Holders;
    InvShapes(w);
    SlotsAreCounted(w, i);
    if q.parent.Some? {
      LiveInWorld(w, q.parent.value, env);
    }
    if 0 < q.requestedMs && ParentAlive(w, q, env) {
      DeadlineAhead(w, q, env);
    }
  }

  /** Every limit on how long the work may last. */
  ghost predicate Allows(w: World, q: Request, now: real, end: real)
    requires q.parent.Some? ==> q.parent.value < |w.ctxs|
  {
    && end <= now + q.requestedMs as real && end <= now + 30000.0
    && (q.purpose == Event ==> end <= now + 2000.0)
    && (q.parent.Some? ==> end <= w.ctxs[q.parent.value].end)
  }

  /** The new context: as long as every limit allows and no longer, one deeper than its
      parent, under the next reservation number. */
  lemma NewContext(w: World, v: World, i: nat, q: Request, env: Env, later: Env, r: Admission)
    requires Turn(w, AdmitOp(i, q, env, later, r), v) && !r.Rejected?
    ensures |v.ctxs| == |w.ctxs| + 1
    ensures
      var c := v.ctxs[|w.ctxs|];
      && Allows(w, q, env.now, c.end) && (forall end :: Allows(w, q, env.now, end) ==> end <= c.end)
      && c.depth == (if q.parent.Some? then w.ctxs[q.parent.value].depth + 1 else 1)
      && c.owner == i && c.parent == q.parent && c.purpose == q.purpose && c.reservation == w.scheds[i].counter + 1
  {
    hide Inv, EndsOnly, Liveness, SchedKept, Reserve, FreeSlot;
    var h, e := |w.ctxs|, Enrolled(w, i, q, env.now);
    if r.Refused? {
      assert CtxKept(e.ctxs[h], v.ctxs[h]);
    }
  }

  lemma {:induction false} SameAbove(ctxs: seq<Context>, more: seq<Context>, a: nat, h: nat)
    requires |ctxs| <= |more| && h < |ctxs|
    requires forall k: nat :: k < |ctxs| ==> more[k].parent == ctxs[k].parent
    ensures Under(more, a, h) == Under(ctxs, a, h)
    decreases h
  {
    if ctxs[h].parent.Some? && ctxs[h].parent.value < h {
      SameAbove(ctxs, more, a, ctxs[h].parent.value);
    }
  }

  lemma SameAlive(ctxs: seq<Context>, more: seq<Context>, h: nat, env: Env)
    requires |ctxs| <= |more| && h < |ctxs| && ParentsFirst(ctxs)
    requires forall k: nat :: k < |ctxs| ==>
      more[k].parent == ctxs[k].parent && more[k].terminal == ctxs[k].terminal && more[k].end == ctxs[k].end
    ensures Alive(more, h, env) == Alive(ctxs, h, env)
  {
    hide Under;
    forall a: nat
      ensures Under(more, a, h) == Under(ctxs, a, h) && (Under(ctxs, a, h) ==> a <= h)
    {
      SameAbove(ctxs, more, a, h);
      UnderStep(ctxs, a, h);
    }
  }

  /** A new record gets its slot exactly when there is one and, at the moment of the
      start, its own time and authority and all that is above it stand. */
  lemma GrantsExactly(w: World, v: World, i: nat, q: Request, env: Env, later: Env, r: Admission)
    requires Turn(w, AdmitOp(i, q, env, later, r), v) && !r.Rejected? && !r.Waiting?
    ensures |v.ctxs| == |w.ctxs| + 1
    ensures r.Granted? <==>
      ParentAlive(w, q, later) && later.now < v.ctxs[|w.ctxs|].end && later.denial(|w.ctxs|).None?
  {
    NewContext(w, v, i, q, env, later, r);
    hide Inv, Evolves, EndsOnly, AdmitError, Liveness, FreeSlot, Alive, Under, Reserve;
    InvShapes(w);
    ShapeOrders(w);
    var h, e := |w.ctxs|, Enrolled(w, i, q, env.now);
    EndAtStart(w, v, i, q, env, later, r);
    LivePasses(e.ctxs, h, later);
    AliveNew(e.ctxs, h, later);
    if q.parent.Some? {
      SameAlive(w.ctxs, e.ctxs, q.parent.value, later);
    }
  }

  lemma EndAtStart(w: World, v: World, i: nat, q: Request, env: Env, later: Env, r: Admission)
    requires Turn(w, AdmitOp(i, q, env, later, r), v) && !r.Rejected?
    ensures Reserve(w.scheds[i].account, q.bytes, q.purpose == Lifecycle).Ok?
    ensures |v.ctxs| == |w.ctxs| + 1 == |Enrolled(w, i, q, env.now).ctxs|
    ensures v.ctxs[|w.ctxs|].end == Enrolled(w, i, q, env.now).ctxs[|w.ctxs|].end
  {
    hide Inv, EndsOnly, Liveness, SchedKept, Reserve, FreeSlot;
    var h, e := |w.ctxs|, Enrolled(w, i, q, env.now);
    if r.Refused? {
      assert CtxKept(e.ctxs[h], v.ctxs[h]);
    }
  }

  /** A context that has not ended: its own time, authority and what is above it. */
  lemma AliveNew(ctxs: seq<Context>, h: nat, env: Env)
    requires ParentsFirst(ctxs) && h < |ctxs| && ctxs[h].terminal.None?
    ensures Alive(ctxs, h, env) <==>
      env.now < ctxs[h].end && env.denial(h).None? && (ctxs[h].parent.Some? ==> Alive(ctxs, ctxs[h].parent.value, env))
  {
    hide Under;
    forall a: nat
      ensures Under(ctxs, a, h) <==> a == h || (ctxs[h].parent.Some? && Under(ctxs, a, ctxs[h].parent.value))
    {
      UnderStep(ctxs, a, h);
    }
  }

  // ------------------------------------------------------- offer and acknowledge

  /** `offer` gives out a descriptor exactly for a record that holds a slot and has none
      in flight, for a context that stands all the way up and has no wire identity yet. */
  lemma OffersExactly(w: World, v: World, i: nat, c: nat, nonce: nat, env: Env, packet: Result<(nat, int)>)
    requires Turn(w, OfferOp(i, c, nonce, env, packet), v)
    ensures packet.Ok? <==>
      var s := w.scheds[i];
      && c in s.records && s.records[c].slot.Some? && s.records[c].offer.None? && Alive(w.ctxs, c, env)
      && s.offerCounter < MAX_SAFE && w.ctxs[c].endpoint.None?
    ensures packet.Ok? ==>
      && packet.value.0 == w.scheds[i].offerCounter + 1
      && v.ctxs[c].endpoint == Some(packet.value.0)
      && v.scheds[i].records[c].offer == Some(nonce)
      && packet.value.1 as real - 1.0 < w.ctxs[c].end - env.now <= packet.value.1 as real
    ensures packet.Err? ==> v.ctxs == w.ctxs && v.scheds[i].records == w.scheds[i].records
  {
    hide Inv, Liveness, Alive;
    InvShapes(w);
    LiveInWorld(w, c, env);
    if c in w.scheds[i].records {
      SlotMeansAdmitted(w, i, c);
    }
    if packet.Ok? {
      assert env.now < w.ctxs[c].end by { OwnTime(w.ctxs, c, env); }
    }
  }

  lemma OwnTime(ctxs: seq<Context>, h: nat, env: Env)
    requires h < |ctxs| && Alive(ctxs, h, env)
    ensures env.now < ctxs[h].end
  {
    assert Under(ctxs, h, h);
  }

  lemma SlotMeansAdmitted(w: World, i: nat, c: nat)
    requires Inv(w) && i < |w.scheds| && c in w.scheds[i].records
    ensures w.scheds[i].records[c].admitted <==> w.scheds[i].records[c].slot.Some?
  {
    assert SchedOk(w, i, {});
    assert RecordOk(w, i, {}, c);
  }

  /** An acknowledgement is accepted exactly when the session stands, it is meant, and it
      names a pending offer; it yields the context exactly when that stands all the way up. */
  lemma AcknowledgesExactly(w: World, v: World, i: nat, same: bool, id: ContextId, nonce: nat, env: Env, got: Result<Option<nat>>)
    requires Turn(w, AckOp(i, same, id, nonce, env, got), v)
    ensures got.Ok? <==> !w.scheds[i].failed && same && exists c :: Answers(w, i, id, nonce, c)
    ensures got.Err? ==> got.code == UNAUTHENTICATED && v == w
    ensures forall c: nat :: Answers(w, i, id, nonce, c) && got.Ok? ==>
      (got.value == Some(c) <==> Alive(w.ctxs, c, env)) && (got.value.None? ==> Ended(v, c))
  {
    hide Inv, Liveness, Alive, Evolves, EndsOnly;
    InvShapes(w);
    forall c: nat | Answers(w, i, id, nonce, c) && got.Ok?
      ensures (got.value == Some(c) <==> Alive(w.ctxs, c, env)) && (got.value.None? ==> Ended(v, c))
    {
      var d :| AckAnswered(w, v, i, id, nonce, env, got, d);
      OneAnswer(w, i, id, nonce, c, d);
      LiveInWorld(w, c, env);
      if Ended(w, c) {
        EndedIsOver(w, c, env);
        EndedStays(w, v, i, id, nonce, env, got, c);
      }
    }
  }

  lemma EndedIsOver(w: World, c: nat, env: Env)
    requires Ended(w, c)
    ensures !Alive(w.ctxs, c, env)
  {
    assert Under(w.ctxs, c, c);
  }

  lemma EndedStays(w: World, v: World, i: nat, id: ContextId, nonce: nat, env: Env, got: Result<Option<nat>>, c: nat)
    requires Ended(w, c) && AckAnswered(w, v, i, id, nonce, env, got, c)
    ensures Ended(v, c)
  {
    hide SchedKept, EndsOnly, Without;
  }

  lemma OneAnswer(w: World, i: nat, id: ContextId, nonce: nat, c: nat, d: nat)
    requires Inv(w) && Answers(w, i, id, nonce, c) && Answers(w, i, id, nonce, d)
    ensures c == d
  {
    hide RecordOk, QueueOk, CountsOk, LeasesOk, Shape, TreeOk;
    assert SchedOk(w, i, {});
    assert RecordOk(w, i, {}, c) && RecordOk(w, i, {}, d);
    RecordOwner(w, i, c);
    RecordOwner(w, i, d);
  }

  lemma RecordOwner(w: World, i: nat, c: nat)
    requires Inv(w) && i < |w.scheds| && c in w.scheds[i].records && c < |w.ctxs|
    ensures w.ctxs[c].owner == i
  {
    assert SchedOk(w, i, {});
    assert RecordOk(w, i, {}, c);
  }
}
